/**
 * What each voxel operation of the toolbox decides, as pure functions of the
 * world, the wallet address and the request: reject locally with a message,
 * issue one gateway call, or fault on an absent record. The class in
 * toolbox.dfy performs these decisions step by step and is proved to agree
 * with them.
 */
module Dispatch {
  import opened Wrappers
  import opened Validation

  /** The four interaction modes, and the four operations they select. */
  datatype Mode = Place | Repaint | Destroy | Transfer

  /** A key of the world map (`Engine.getVoxelKey(x, y, z)`). */
  datatype Coord = Coord(x: real, y: real, z: real)

  /** A voxel record of `Engine.world`. */
  datatype Voxel = Voxel(ownerAddress: string, material: real)

  /** `Engine.world`: the voxels present in the rendered world. */
  type World = map<Coord, Voxel>

  /** Number of palette entries: materials are indices below 16. */
  const MaterialCount: real := 16.0

  /** A request handed to the chain gateway (`ContractService`). */
  datatype GatewayCall =
    | PlaceCall(x: real, y: real, z: real, material: real)
    | DestroyCall(x: real, y: real, z: real)
    | RepaintCall(x: real, y: real, z: real, material: real)
    | TransferCall(to: string, x: real, y: real, z: real)
  {
    function Kind(): Mode {
      match this
      case PlaceCall(_, _, _, _) => Place
      case DestroyCall(_, _, _) => Destroy
      case RepaintCall(_, _, _, _) => Repaint
      case TransferCall(_, _, _, _) => Transfer
    }

    function At(): Coord {
      Coord(x, y, z)
    }
  }

  /**
   * The data-model requirement on everything sent to the gateway: coordinates
   * are integers in [0, 256) (one unsigned byte each), materials are integers
   * in [0, 16), and a transfer names a non-empty destination.
   */
  predicate WellFormed(c: GatewayCall) {
    && IsUint8Value(c.x) && IsUint8Value(c.y) && IsUint8Value(c.z)
    && match c
       case PlaceCall(_, _, _, m) => IsUint8Value(m) && m < MaterialCount
       case RepaintCall(_, _, _, m) => IsUint8Value(m) && m < MaterialCount
       case DestroyCall(_, _, _) => true
       case TransferCall(to, _, _, _) => to != ""
  }

  /**
   * The state requirement on a call: a placement needs an empty slot; every
   * other operation needs a record there owned by the connected wallet.
   */
  predicate Permitted(world: World, userAddress: Option<string>, c: GatewayCall) {
    if c.PlaceCall? then c.At() !in world
    else c.At() in world && Owns(userAddress, world[c.At()].ownerAddress)
  }

  /** The outcome of invoking one operation. */
  datatype Verdict =
    | Rejected(msg: string)      // an error message is shown; no gateway call
    | Issued(call: GatewayCall)  // exactly this gateway call is made
    | MissingRecord              // the source reads `ownerAddress` of an absent record and throws

  const AlreadyThere := "There is already a voxel there."
  const WrongParameters := "Wrong parameters."
  const NotOwner := "You don't own that voxel."

  /** The three local rejection messages are distinct. */
  lemma LocalMessagesDistinct()
    ensures AlreadyThere != WrongParameters && AlreadyThere != NotOwner && WrongParameters != NotOwner
  {
  }

  /** `placeVoxel`: existence first, then parameters, then the gateway. */
  function PlaceVerdict(world: World, x: real, y: real, z: real, material: real): (v: Verdict)
    ensures Coord(x, y, z) in world <==> v == Rejected(AlreadyThere)
    ensures v == Rejected(WrongParameters) <==>
      Coord(x, y, z) !in world && !WellFormed(PlaceCall(x, y, z, material))
    ensures v.Issued? <==> WellFormed(PlaceCall(x, y, z, material)) && Coord(x, y, z) !in world
    ensures v.Issued? ==> v.call == PlaceCall(x, y, z, material)
    ensures !v.MissingRecord?
  {
    LocalMessagesDistinct();
    AllUint8Four(x, y, z, material);
    if Coord(x, y, z) in world then Rejected(AlreadyThere)
    else if !(ValidCoords(x, y, z) && material < MaterialCount) || !AllUint8([x, y, z, material]) then
      Rejected(WrongParameters)
    else Issued(PlaceCall(x, y, z, material))
  }

  /**
   * The common tail of `destroyVoxel`, `repaintVoxel` and `transferVoxel`
   * once their parameters have passed: read the owner of the record at the
   * target and compare it with the wallet address.
   */
  function OwnerVerdict(world: World, userAddress: Option<string>, c: GatewayCall): (v: Verdict)
    requires !c.PlaceCall?
    ensures v.Issued? <==> Permitted(world, userAddress, c)
    ensures v.Issued? ==> v.call == c
    ensures v.MissingRecord? <==> c.At() !in world
    ensures v.Rejected? ==> v.msg == NotOwner
  {
    if c.At() !in world then MissingRecord
    else if !Owns(userAddress, world[c.At()].ownerAddress) then Rejected(NotOwner)
    else Issued(c)
  }

  /** `destroyVoxel`: parameters first, then ownership, then the gateway. */
  function DestroyVerdict(world: World, userAddress: Option<string>, x: real, y: real, z: real): (v: Verdict)
    ensures v == Rejected(WrongParameters) <==> !WellFormed(DestroyCall(x, y, z))
    ensures v.MissingRecord? <==> WellFormed(DestroyCall(x, y, z)) && Coord(x, y, z) !in world
    ensures v == Rejected(NotOwner) <==>
      WellFormed(DestroyCall(x, y, z)) && Coord(x, y, z) in world
      && !Owns(userAddress, world[Coord(x, y, z)].ownerAddress)
    ensures v.Issued? <==>
      WellFormed(DestroyCall(x, y, z)) && Permitted(world, userAddress, DestroyCall(x, y, z))
    ensures v.Issued? ==> v.call == DestroyCall(x, y, z)
  {
    LocalMessagesDistinct();
    AllUint8Three(x, y, z);
    if !ValidCoords(x, y, z) || !AllUint8([x, y, z]) then Rejected(WrongParameters)
    else OwnerVerdict(world, userAddress, DestroyCall(x, y, z))
  }

  /** `repaintVoxel`: parameters (with the material) first, then ownership, then the gateway. */
  function RepaintVerdict(world: World, userAddress: Option<string>, x: real, y: real, z: real, newMaterial: real): (v: Verdict)
    ensures v == Rejected(WrongParameters) <==> !WellFormed(RepaintCall(x, y, z, newMaterial))
    ensures v.MissingRecord? <==> WellFormed(RepaintCall(x, y, z, newMaterial)) && Coord(x, y, z) !in world
    ensures v == Rejected(NotOwner) <==>
      WellFormed(RepaintCall(x, y, z, newMaterial)) && Coord(x, y, z) in world
      && !Owns(userAddress, world[Coord(x, y, z)].ownerAddress)
    ensures v.Issued? <==>
      WellFormed(RepaintCall(x, y, z, newMaterial)) && Permitted(world, userAddress, RepaintCall(x, y, z, newMaterial))
    ensures v.Issued? ==> v.call == RepaintCall(x, y, z, newMaterial)
  {
    LocalMessagesDistinct();
    AllUint8Four(x, y, z, newMaterial);
    if !(ValidCoords(x, y, z) && newMaterial < MaterialCount) || !AllUint8([x, y, z, newMaterial]) then
      Rejected(WrongParameters)
    else OwnerVerdict(world, userAddress, RepaintCall(x, y, z, newMaterial))
  }

  /** `transferVoxel`: parameters (with a non-empty destination) first, then ownership, then the gateway. */
  function TransferVerdict(world: World, userAddress: Option<string>, to: string, x: real, y: real, z: real): (v: Verdict)
    ensures v == Rejected(WrongParameters) <==> !WellFormed(TransferCall(to, x, y, z))
    ensures v.MissingRecord? <==> WellFormed(TransferCall(to, x, y, z)) && Coord(x, y, z) !in world
    ensures v == Rejected(NotOwner) <==>
      WellFormed(TransferCall(to, x, y, z)) && Coord(x, y, z) in world
      && !Owns(userAddress, world[Coord(x, y, z)].ownerAddress)
    ensures v.Issued? <==>
      WellFormed(TransferCall(to, x, y, z)) && Permitted(world, userAddress, TransferCall(to, x, y, z))
    ensures v.Issued? ==> v.call == TransferCall(to, x, y, z)
  {
    LocalMessagesDistinct();
    AllUint8Three(x, y, z);
    if !(ValidCoords(x, y, z) && to != "") || !AllUint8([x, y, z]) then Rejected(WrongParameters)
    else OwnerVerdict(world, userAddress, TransferCall(to, x, y, z))
  }

  /** A status message as the component shows it. */
  datatype Notice = ErrorNotice(text: string) | SuccessNotice(text: string)

  /** The failure message template of each gateway callback; the error detail is appended. */
  function FailurePrefix(op: Mode): string {
    match op
    case Place => "Error. Voxel has not been placed on the blockchain. Error: "
    case Destroy => "Error. Voxel has not been removed from the blockchain. Error: "
    case Repaint => "Error. Voxel has not been repainted on the blockchain. Error: "
    case Transfer => "Error. Voxel has not been transferred on the blockchain. Error: "
  }

  /** The success message of each gateway callback (spelling as in the source). */
  function SuccessText(op: Mode): string {
    match op
    case Place => "Voxel has been successfuly placed on the blockchain."
    case Destroy => "Voxel has been successfuly removed from the blockchain."
    case Repaint => "Voxel has been successfuly repainted on the blockchain."
    case Transfer => "Voxel has been successfuly transferred on the blockchain."
  }

  /**
   * The first and third letters of the verb of each message ("placed",
   * "removed", "repainted", "transferred"): where the messages of two
   * operations part. They stand at indices 26 and 28 of a failure template
   * and at 27 and 29 of a success text.
   */
  function VerbMark(op: Mode): (char, char) {
    match op
    case Place => ('p', 'a')
    case Destroy => ('r', 'm')
    case Repaint => ('r', 'p')
    case Transfer => ('t', 'a')
  }

  // The marks of each operation's messages, one operation at a time (which keeps
  // each proof about the long message literals small).

  lemma PlaceMarks()
    ensures |FailurePrefix(Place)| > 28 && (FailurePrefix(Place)[26], FailurePrefix(Place)[28]) == VerbMark(Place)
    ensures |SuccessText(Place)| > 29 && (SuccessText(Place)[27], SuccessText(Place)[29]) == VerbMark(Place)
  {
  }

  lemma DestroyMarks()
    ensures |FailurePrefix(Destroy)| > 28 && (FailurePrefix(Destroy)[26], FailurePrefix(Destroy)[28]) == VerbMark(Destroy)
    ensures |SuccessText(Destroy)| > 29 && (SuccessText(Destroy)[27], SuccessText(Destroy)[29]) == VerbMark(Destroy)
  {
  }

  lemma RepaintMarks()
    ensures |FailurePrefix(Repaint)| > 28 && (FailurePrefix(Repaint)[26], FailurePrefix(Repaint)[28]) == VerbMark(Repaint)
    ensures |SuccessText(Repaint)| > 29 && (SuccessText(Repaint)[27], SuccessText(Repaint)[29]) == VerbMark(Repaint)
  {
  }

  lemma TransferMarks()
    ensures |FailurePrefix(Transfer)| > 28 && (FailurePrefix(Transfer)[26], FailurePrefix(Transfer)[28]) == VerbMark(Transfer)
    ensures |SuccessText(Transfer)| > 29 && (SuccessText(Transfer)[27], SuccessText(Transfer)[29]) == VerbMark(Transfer)
  {
  }

  lemma VerbMarkAt(op: Mode)
    ensures |FailurePrefix(op)| > 28 && (FailurePrefix(op)[26], FailurePrefix(op)[28]) == VerbMark(op)
    ensures |SuccessText(op)| > 29 && (SuccessText(op)[27], SuccessText(op)[29]) == VerbMark(op)
  {
    match op
    case Place => PlaceMarks();
    case Destroy => DestroyMarks();
    case Repaint => RepaintMarks();
    case Transfer => TransferMarks();
  }

  /**
   * What the gateway callback of an operation shows. `e` is the callback's
   * error argument: `Some` for a truthy error value (with its string form),
   * `None` for a falsy one.
   */
  function ResultNotice(op: Mode, e: Option<string>): (n: Notice)
    ensures n.ErrorNotice? <==> e.Some?
    ensures op == Place && e.Some? ==> n.text == "Error. Voxel has not been placed on the blockchain. Error: " + e.value
    ensures op == Place && e.None? ==> n.text == "Voxel has been successfuly placed on the blockchain."
    ensures op == Destroy && e.Some? ==> n.text == "Error. Voxel has not been removed from the blockchain. Error: " + e.value
    ensures op == Destroy && e.None? ==> n.text == "Voxel has been successfuly removed from the blockchain."
    ensures op == Repaint && e.Some? ==> n.text == "Error. Voxel has not been repainted on the blockchain. Error: " + e.value
    ensures op == Repaint && e.None? ==> n.text == "Voxel has been successfuly repainted on the blockchain."
    ensures op == Transfer && e.Some? ==> n.text == "Error. Voxel has not been transferred on the blockchain. Error: " + e.value
    ensures op == Transfer && e.None? ==> n.text == "Voxel has been successfuly transferred on the blockchain."
  {
    match e
    case Some(detail) => ErrorNotice(FailurePrefix(op) + detail)
    case None => SuccessNotice(SuccessText(op))
  }

  /** A common prefix cancels: appending to the same text keeps different details apart. */
  lemma PrefixCancels(p: string, s1: string, s2: string)
    requires p + s1 == p + s2
    ensures s1 == s2
  {
    assert s1 == (p + s1)[|p|..];
  }

  /**
   * Two texts that carry the marks of operations `a` and `b` at indices `i`
   * and `i + 2`, each followed by some detail, are equal only when `a == b`.
   */
  lemma MarkedTextsDetermine(i: nat, a: Mode, p: string, d1: string, b: Mode, q: string, d2: string)
    requires |p| > i + 2 && (p[i], p[i + 2]) == VerbMark(a)
    requires |q| > i + 2 && (q[i], q[i + 2]) == VerbMark(b)
    requires p + d1 == q + d2
    ensures a == b
  {
    var t := p + d1;
    assert t[i] == p[i] == q[i] && t[i + 2] == p[i + 2] == q[i + 2];
  }

  /** Two failure messages agree only for the same operation and the same detail. */
  lemma FailureMessagesDetermine(a: Mode, d1: string, b: Mode, d2: string)
    requires FailurePrefix(a) + d1 == FailurePrefix(b) + d2
    ensures a == b && d1 == d2
  {
    VerbMarkAt(a);
    VerbMarkAt(b);
    MarkedTextsDetermine(26, a, FailurePrefix(a), d1, b, FailurePrefix(b), d2);
    PrefixCancels(FailurePrefix(a), d1, d2);
  }

  /** Two success messages agree only for the same operation. */
  lemma SuccessMessagesDetermine(a: Mode, b: Mode)
    requires SuccessText(a) == SuccessText(b)
    ensures a == b
  {
    VerbMarkAt(a);
    VerbMarkAt(b);
    MarkedTextsDetermine(27, a, SuccessText(a), "", b, SuccessText(b), "");
  }

  /**
   * The status message of a gateway callback determines which operation it
   * reports on and the error detail it carries: no two operations, and no two
   * outcomes of one operation, show the same message.
   */
  lemma ResultNoticeDetermines(a: Mode, e1: Option<string>, b: Mode, e2: Option<string>)
    requires ResultNotice(a, e1) == ResultNotice(b, e2)
    ensures a == b && e1 == e2
  {
    if e1.Some? {
      FailureMessagesDetermine(a, e1.value, b, e2.value);
    } else {
      SuccessMessagesDetermine(a, b);
    }
  }

  /**
   * Every call any of the four operations issues satisfies both data-model
   * requirements: it is well-formed, and permitted by the world and wallet it
   * was decided against.
   */
  lemma IssuedCallsAreSound(world: World, userAddress: Option<string>, to: string, x: real, y: real, z: real, m: real)
    ensures forall v :: (v in [PlaceVerdict(world, x, y, z, m), DestroyVerdict(world, userAddress, x, y, z),
                               RepaintVerdict(world, userAddress, x, y, z, m), TransferVerdict(world, userAddress, to, x, y, z)]
                         && v.Issued?) ==> WellFormed(v.call) && Permitted(world, userAddress, v.call)
  {
  }
}
