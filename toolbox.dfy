/**
 * The toolbox component: its mode flags, its status line, the toolbox voxel
 * cursor, and the four voxel operations with their gateway callbacks. The
 * world map and the wallet address stand for the collaborators `Engine.world`
 * and `ContractService.userAddress`; the gateway is the ghost log `calls` of
 * the requests handed to it.
 */
module Toolbox {
  import opened Wrappers
  import opened Validation
  import opened Dispatch

  class ToolboxComponent {
    var placeMode: bool
    var repaintMode: bool
    var destroyMode: bool
    var transferMode: bool

    var errorMsg: string
    var successMsg: string
    var showError: bool
    var showSuccess: bool

    /** Position of the toolbox voxel, which is `Engine.selectedVoxel`. */
    var position: Coord
    /** Whether the toolbox voxel is drawn (opacity 0.9) or hidden (opacity 0). */
    var toolboxVisible: bool

    /** `Engine.world`, read by the checks and changed only by collaborators. */
    var world: World
    /** `ContractService.userAddress`; `None` while the wallet is locked. */
    var userAddress: Option<string>
    /** Every request handed to the chain gateway, oldest first. */
    ghost var calls: seq<GatewayCall>

    /** The flag of mode `m`. */
    predicate Active(m: Mode)
      reads this`placeMode, this`repaintMode, this`destroyMode, this`transferMode
    {
      match m
      case Place => placeMode
      case Repaint => repaintMode
      case Destroy => destroyMode
      case Transfer => transferMode
    }

    /** The flag of `m` is set and every other flag is clear. */
    ghost predicate OnlyActive(m: Mode)
      reads this`placeMode, this`repaintMode, this`destroyMode, this`transferMode
    {
      forall k: Mode :: Active(k) <==> k == m
    }

    /** Exactly one mode is active. */
    ghost predicate OneMode()
      reads this`placeMode, this`repaintMode, this`destroyMode, this`transferMode
    {
      exists m: Mode :: OnlyActive(m)
    }

    /** The component invariant: one mode, and never an error and a success shown together. */
    ghost predicate Valid()
      reads this
    {
      OneMode() && !(showError && showSuccess)
    }

    ghost predicate ShowsError(msg: string)
      reads this`errorMsg, this`showError, this`showSuccess
    {
      errorMsg == msg && showError && !showSuccess
    }

    ghost predicate ShowsSuccess(msg: string)
      reads this`successMsg, this`showError, this`showSuccess
    {
      successMsg == msg && showSuccess && !showError
    }

    twostate predicate StatusUnchanged()
      reads this
    {
      && errorMsg == old(errorMsg) && successMsg == old(successMsg)
      && showError == old(showError) && showSuccess == old(showSuccess)
    }

    /** The status line now shows `n`; the message of the other kind is kept. */
    twostate predicate Shows(n: Notice)
      reads this
    {
      match n
      case ErrorNotice(text) => ShowsError(text) && successMsg == old(successMsg)
      case SuccessNotice(text) => ShowsSuccess(text) && errorMsg == old(errorMsg)
    }

    /**
     * The effect of an operation with verdict `v`: a rejection shows its
     * message and calls nothing; an issued call is appended to the gateway
     * log and leaves the status line alone; a fault changes nothing.
     */
    twostate predicate Reports(v: Verdict)
      reads this
    {
      match v
      case Rejected(msg) => ShowsError(msg) && successMsg == old(successMsg) && calls == old(calls)
      case Issued(c) => StatusUnchanged() && calls == old(calls) + [c]
      case MissingRecord => StatusUnchanged() && calls == old(calls)
    }

    /** Some call of operation `op` has been handed to the gateway, so its callback may fire. */
    ghost predicate HasIssued(op: Mode)
      reads this`calls
    {
      exists i :: 0 <= i < |calls| && calls[i].Kind() == op
    }

    /**
     * The component as built and initialised (`ngOnInit` spawning the
     * toolbox voxel, hidden, at the origin): place mode, no message shown,
     * nothing sent to the gateway.
     */
    constructor (world: World, userAddress: Option<string>)
      ensures Valid() && OnlyActive(Place)
      ensures !showError && !showSuccess
      ensures position == Coord(0.0, 0.0, 0.0) && !toolboxVisible
      ensures this.world == world && this.userAddress == userAddress && calls == []
    {
      placeMode, repaintMode, destroyMode, transferMode := true, false, false, false;
      errorMsg, successMsg := "", "";
      showError, showSuccess := false, false;
      position := Coord(0.0, 0.0, 0.0);
      toolboxVisible := false;
      this.world := world;
      this.userAddress := userAddress;
      calls := [];
      new;
      assert OnlyActive(Place);
    }

    /** `error`: show `msg` as the error, hiding any success message. */
    method Error(msg: string)
      requires Valid()
      modifies this`errorMsg, this`showError, this`showSuccess
      ensures Valid()
      ensures ShowsError(msg)
    {
      errorMsg := msg;
      showSuccess := false;
      showError := true;
    }

    /** `success`: show `msg` as the success message, hiding any error. */
    method Success(msg: string)
      requires Valid()
      modifies this`successMsg, this`showError, this`showSuccess
      ensures Valid()
      ensures ShowsSuccess(msg)
    {
      successMsg := msg;
      showSuccess := true;
      showError := false;
    }

    /** `setMode`: clear all four mode flags, then set the one of `m`. */
    method SetMode(m: Mode)
      requires Valid()
      modifies this`placeMode, this`repaintMode, this`destroyMode, this`transferMode
      ensures Valid()
      ensures OnlyActive(m)
    {
      placeMode := false;
      repaintMode := false;
      destroyMode := false;
      transferMode := false;
      match m {
        case Place => placeMode := true;
        case Repaint => repaintMode := true;
        case Destroy => destroyMode := true;
        case Transfer => transferMode := true;
      }
      assert OnlyActive(m);
    }

    /** `checkVoxelExists`: whether a voxel is at the coordinates; if so, say so as an error. */
    method CheckVoxelExists(x: real, y: real, z: real) returns (occupied: bool)
      requires Valid()
      modifies this`errorMsg, this`showError, this`showSuccess
      ensures Valid()
      ensures occupied <==> Coord(x, y, z) in world
      ensures occupied ==> ShowsError(AlreadyThere)
      ensures !occupied ==> StatusUnchanged()
    {
      if Coord(x, y, z) in world {
        Error(AlreadyThere);
        return true;
      }
      return false;
    }

    /**
     * `updateToolboxVoxel`: move the toolbox voxel to the coordinates and
     * show it, unless a voxel is already there (which is reported as an
     * error) or a coordinate is not below the world size (silently ignored).
     */
    method UpdateToolboxVoxel(x: real, y: real, z: real, material: real)
      requires Valid()
      modifies this`errorMsg, this`showError, this`showSuccess, this`position, this`toolboxVisible
      ensures Valid()
      ensures Coord(x, y, z) in world ==>
        ShowsError(AlreadyThere) && position == old(position) && toolboxVisible == old(toolboxVisible)
      ensures Coord(x, y, z) !in world && !ValidCoords(x, y, z) ==>
        StatusUnchanged() && position == old(position) && toolboxVisible == old(toolboxVisible)
      ensures Coord(x, y, z) !in world && ValidCoords(x, y, z) ==>
        StatusUnchanged() && position == Coord(x, y, z) && toolboxVisible
    {
      var occupied := CheckVoxelExists(x, y, z);
      if occupied || !ValidCoords(x, y, z) {
        return;
      }
      position := Coord(x, y, z);
      toolboxVisible := true;
    }

    /** `placeVoxel`: existence, then parameters, then one gateway call. */
    method PlaceVoxel(x: real, y: real, z: real, material: real) returns (v: Verdict)
      requires Valid()
      modifies this`errorMsg, this`showError, this`showSuccess, this`calls
      ensures Valid()
      ensures v == PlaceVerdict(world, x, y, z, material)
      ensures Reports(v)
    {
      var occupied := CheckVoxelExists(x, y, z);
      if occupied {
        return Rejected(AlreadyThere);
      }
      var ok := ValidCoords(x, y, z) && material < MaterialCount;
      if ok {
        ok := ValidUint8([x, y, z, material]);
      }
      if !ok {
        Error(WrongParameters);
        return Rejected(WrongParameters);
      }
      calls := calls + [PlaceCall(x, y, z, material)];
      v := Issued(PlaceCall(x, y, z, material));
    }

    /**
     * The ownership step shared by destroy, repaint and transfer: read the
     * owner of the record at the target, reject if it is not the wallet
     * address, otherwise hand `c` to the gateway. With no record at the
     * target the source's property read throws; the operation then stops
     * with nothing changed.
     */
    method DispatchOwned(c: GatewayCall) returns (v: Verdict)
      requires Valid() && !c.PlaceCall?
      modifies this`errorMsg, this`showError, this`showSuccess, this`calls
      ensures Valid()
      ensures v == OwnerVerdict(world, userAddress, c)
      ensures Reports(v)
    {
      if c.At() !in world {
        return MissingRecord;
      }
      if !Owns(userAddress, world[c.At()].ownerAddress) {
        Error(NotOwner);
        return Rejected(NotOwner);
      }
      calls := calls + [c];
      v := Issued(c);
    }

    /** `destroyVoxel`: parameters, then ownership, then one gateway call. */
    method DestroyVoxel(x: real, y: real, z: real) returns (v: Verdict)
      requires Valid()
      modifies this`errorMsg, this`showError, this`showSuccess, this`calls
      ensures Valid()
      ensures v == DestroyVerdict(world, userAddress, x, y, z)
      ensures Reports(v)
    {
      var ok := ValidCoords(x, y, z);
      if ok {
        ok := ValidUint8([x, y, z]);
      }
      if !ok {
        Error(WrongParameters);
        return Rejected(WrongParameters);
      }
      v := DispatchOwned(DestroyCall(x, y, z));
    }

    /** `repaintVoxel`: parameters (with the new material), then ownership, then one gateway call. */
    method RepaintVoxel(x: real, y: real, z: real, newMaterial: real) returns (v: Verdict)
      requires Valid()
      modifies this`errorMsg, this`showError, this`showSuccess, this`calls
      ensures Valid()
      ensures v == RepaintVerdict(world, userAddress, x, y, z, newMaterial)
      ensures Reports(v)
    {
      var ok := ValidCoords(x, y, z) && newMaterial < MaterialCount;
      if ok {
        ok := ValidUint8([x, y, z, newMaterial]);
      }
      if !ok {
        Error(WrongParameters);
        return Rejected(WrongParameters);
      }
      v := DispatchOwned(RepaintCall(x, y, z, newMaterial));
    }

    /** `transferVoxel`: parameters (with a non-empty destination), then ownership, then one gateway call. */
    method TransferVoxel(to: string, x: real, y: real, z: real) returns (v: Verdict)
      requires Valid()
      modifies this`errorMsg, this`showError, this`showSuccess, this`calls
      ensures Valid()
      ensures v == TransferVerdict(world, userAddress, to, x, y, z)
      ensures Reports(v)
    {
      var ok := ValidCoords(x, y, z) && to != "";
      if ok {
        ok := ValidUint8([x, y, z]);
      }
      if !ok {
        Error(WrongParameters);
        return Rejected(WrongParameters);
      }
      v := DispatchOwned(TransferCall(to, x, y, z));
    }

    /** The callback of `placeVoxel`: hide the toolbox voxel, then report the outcome. */
    method OnPlaceResult(e: Option<string>)
      requires Valid() && HasIssued(Place)
      modifies this`toolboxVisible, this`errorMsg, this`successMsg, this`showError, this`showSuccess
      ensures Valid()
      ensures !toolboxVisible
      ensures Shows(ResultNotice(Place, e))
    {
      toolboxVisible := false;
      if e.Some? {
        Error(FailurePrefix(Place) + e.value);
      } else {
        Success(SuccessText(Place));
      }
    }

    /** The callback of `destroyVoxel`. */
    method OnDestroyResult(e: Option<string>)
      requires Valid() && HasIssued(Destroy)
      modifies this`errorMsg, this`successMsg, this`showError, this`showSuccess
      ensures Valid()
      ensures Shows(ResultNotice(Destroy, e))
    {
      if e.Some? {
        Error(FailurePrefix(Destroy) + e.value);
      } else {
        Success(SuccessText(Destroy));
      }
    }

    /** The callback of `repaintVoxel`. */
    method OnRepaintResult(e: Option<string>)
      requires Valid() && HasIssued(Repaint)
      modifies this`errorMsg, this`successMsg, this`showError, this`showSuccess
      ensures Valid()
      ensures Shows(ResultNotice(Repaint, e))
    {
      if e.Some? {
        Error(FailurePrefix(Repaint) + e.value);
      } else {
        Success(SuccessText(Repaint));
      }
    }

    /** The callback of `transferVoxel`. */
    method OnTransferResult(e: Option<string>)
      requires Valid() && HasIssued(Transfer)
      modifies this`errorMsg, this`successMsg, this`showError, this`showSuccess
      ensures Valid()
      ensures Shows(ResultNotice(Transfer, e))
    {
      if e.Some? {
        Error(FailurePrefix(Transfer) + e.value);
      } else {
        Success(SuccessText(Transfer));
      }
    }
  }

  /** Placing on an empty slot issues one call; its successful callback shows success. */
  method PlaceScenario() {
    var t := new ToolboxComponent(map[], Some("0xA"));
    var v := t.PlaceVoxel(10.0, 10.0, 10.0, 3.0);
    assert v == Issued(PlaceCall(10.0, 10.0, 10.0, 3.0));
    assert t.HasIssued(Place) by { assert t.calls[0].Kind() == Place; }
    t.OnPlaceResult(None);
    assert t.showSuccess && !t.showError;
  }

  /** Requests that fail locally never reach the gateway. */
  method RejectionScenario() {
    var t := new ToolboxComponent(map[Coord(1.0, 2.0, 3.0) := Voxel("0xA", 4.0)], Some("0xB"));
    var v := t.DestroyVoxel(5.0, 5.0, 5.0);
    assert v == MissingRecord;
    v := t.RepaintVoxel(1.0, 2.0, 3.0, 20.0);
    assert v == Rejected(WrongParameters);
    v := t.TransferVoxel("", 1.0, 2.0, 3.0);
    assert v == Rejected(WrongParameters);
    v := t.DestroyVoxel(1.0, 2.0, 3.0);
    assert v == Rejected(NotOwner) && t.showError;
    assert t.calls == [];
  }
}
