# Voxel toolbox: a Dafny model

This project models the toolbox component of the voxel-space front end
(`src/app/toolbox/toolbox.component.ts`). The toolbox lets a user place, repaint,
destroy and transfer voxels that are owned on a blockchain. It keeps one of
four interaction modes, shows at most one status message (an error or a
success), validates coordinates and material indices, checks that a voxel
slot is free (place) or owned by the connected wallet (the other three), and
only then hands one request to the chain gateway (`ContractService`). The
gateway's callback later turns its outcome into a status message.

Modules:

- `Wrappers` (wrappers.dfy): `Option`.
- `Validation` (validation.dfy): the guards `validUint8`, `checkValidCoords`
  and `checkOwnership`. It also holds the unsigned-byte encoding that
  `validUint8` protects.
- `Dispatch` (dispatch.dfy): modes, gateway requests, status messages, and
  one pure function per operation. Each function states what the operation
  decides: reject with a message, issue one call, or fault.
- `Toolbox` (toolbox.dfy): the class `ToolboxComponent`. Its fields are the
  mode flags, `errorMsg`, `successMsg`, `showError`, `showSuccess`, the
  toolbox voxel's position and visibility, the world map, the wallet address,
  and a ghost log `calls` of the requests handed to the gateway. Its methods
  do the checks step by step, with early returns, as the source does. Each is
  proved to agree with the `Dispatch` function for its operation, and each
  keeps the invariant `Valid()`: exactly one mode is active, and an error and
  a success are never shown together.

Modelling choices:

- JavaScript numbers are `real`, so the integrality test of `Number.isInteger`
  can be stated (`n.Floor as real == n`). IEEE rounding is not modelled.
- `Engine.world` is a `map<Coord, Voxel>` keyed by the coordinate triple.
  `Engine.getVoxelKey` is taken to be injective.
- `ContractService.userAddress` is an `Option<string>`. `None` stands for a
  locked wallet, which owns no voxel.
- A gateway callback's error argument is an `Option<string>`. `Some` is a
  truthy error value, carrying its string form; `None` is a falsy one.
- Destroy, repaint and transfer read `Engine.world[key].ownerAddress` right
  after the parameter check, without first checking that the record exists
  (lines 161, 179, 197). With no record there, JavaScript throws a
  `TypeError`. The model keeps this behaviour as the distinct verdict
  `MissingRecord`: no message, no gateway call, nothing changed. A corrected
  component would report a distinct "does not exist" error instead; the model
  keeps the fault the code has.
- The component changes no voxel record itself. So no method's `modifies`
  clause names `world`.

## Model

| member | source | states |
|---|---|---|
| `Validation.ValidUint8` | src/app/toolbox/toolbox.component.ts:74-82 | the loop answers true exactly when every value is greater than -1, an integer and below 256; so it is true for the empty list |
| `Validation.Uint8IsByteRange` | src/app/toolbox/toolbox.component.ts:74-82 | a value passes `validUint8` if and only if it is the value of some unsigned byte (no negatives, fractions or values above 255) |
| `Validation.ToByte` | src/app/toolbox/toolbox.component.ts:74-82 | every value that passes `validUint8` round-trips through its 8-bit encoding |
| `Validation.ValidCoords` | src/app/toolbox/toolbox.component.ts:134-136 | `checkValidCoords` fails only when some coordinate is at or above the world size 256, and every triple that passes `validUint8` passes it |
| `Validation.ValidCoordsUpperBoundOnly` | src/app/toolbox/toolbox.component.ts:134-136 | any coordinate at or above 256 fails `checkValidCoords`; a triple below 256 with any negative coordinate passes it and is rejected only by `validUint8` |
| `Validation.CoordinateGuardIsByteRange` | src/app/toolbox/toolbox.component.ts:157 | `checkValidCoords` together with `validUint8` accepts exactly the coordinates that are byte values; the upper-bound check adds nothing to `validUint8` |
| `Dispatch.PlaceVerdict` | src/app/toolbox/toolbox.component.ts:138-146 | an occupied slot is rejected with "There is already a voxel there." whatever the parameters; otherwise bad parameters give "Wrong parameters."; a call is issued if and only if the slot is free and the request is well-formed, and it is exactly `Place(x, y, z, material)` |
| `Validation.Owns` | src/app/toolbox/toolbox.component.ts:122-124 | `checkOwnership` holds exactly when a wallet address is connected and equals the owner; a locked wallet owns nothing |
| `Dispatch.OwnerVerdict` | src/app/toolbox/toolbox.component.ts:161-164 | the ownership step issues the call if and only if the record exists and its owner is the wallet address; an absent record faults; otherwise "You don't own that voxel." |
| `Dispatch.DestroyVerdict` | src/app/toolbox/toolbox.component.ts:156-165 | "Wrong parameters." exactly when the coordinates are not bytes, whatever the world holds; then an absent record faults, a record owned by someone else gives "You don't own that voxel.", and otherwise exactly `Destroy(x, y, z)` is issued |
| `Dispatch.RepaintVerdict` | src/app/toolbox/toolbox.component.ts:174-183 | as for destroy, with the material (an integer below 16) in the parameter check; the issued call is exactly `Repaint(x, y, z, newMaterial)` |
| `Dispatch.TransferVerdict` | src/app/toolbox/toolbox.component.ts:192-201 | as for destroy, with a non-empty destination in the parameter check; the issued call is exactly `Transfer(to, x, y, z)` |
| `Dispatch.ResultNotice` | src/app/toolbox/toolbox.component.ts:146-207 | a callback shows an error if and only if it received an error value; for each operation, the error text is the source's failure message for that operation followed by the error detail, and the success text is the source's success message for it, spelled out literally |
| `Dispatch.ResultNoticeDetermines` | src/app/toolbox/toolbox.component.ts:165-207 | the message a callback shows identifies both the operation and the error detail: no two operations or outcomes share a message |
| `Dispatch.IssuedCallsAreSound` | src/app/toolbox/toolbox.component.ts:138-207 | every call any operation issues has byte coordinates, a material below 16 and a non-empty destination where it applies, and is permitted: a free slot for place, an owned record for the others |
| `Toolbox.ToolboxComponent.constructor` | src/app/toolbox/toolbox.component.ts:14-24 | initial state: place mode only, no message shown, toolbox voxel hidden at the origin, nothing sent to the gateway |
| `Toolbox.ToolboxComponent.Error` | src/app/toolbox/toolbox.component.ts:84-88 | afterwards the error message is `msg`, it is shown and the success message is hidden; nothing else changes |
| `Toolbox.ToolboxComponent.Success` | src/app/toolbox/toolbox.component.ts:90-94 | afterwards the success message is `msg`, it is shown and the error is hidden; nothing else changes |
| `Toolbox.ToolboxComponent.SetMode` | src/app/toolbox/toolbox.component.ts:210-216 | afterwards exactly the flag of the chosen mode is set and the other three are clear |
| `Toolbox.ToolboxComponent.CheckVoxelExists` | src/app/toolbox/toolbox.component.ts:126-132 | answers whether a voxel is at the coordinates; if one is, "There is already a voxel there." is shown, otherwise the status line is unchanged |
| `Toolbox.ToolboxComponent.UpdateToolboxVoxel` | src/app/toolbox/toolbox.component.ts:110-120 | with a voxel at the target, the error is shown and the cursor does not move; with a coordinate at or above 256, nothing changes; otherwise the cursor moves there and is shown |
| `Toolbox.ToolboxComponent.PlaceVoxel` | src/app/toolbox/toolbox.component.ts:138-154 | decides as `PlaceVerdict`; a rejection shows its message and calls nothing; an accepted request appends exactly its call to the gateway log; the world is unchanged |
| `Toolbox.ToolboxComponent.DispatchOwned` | src/app/toolbox/toolbox.component.ts:161-165 | the shared ownership step decides as `OwnerVerdict` and reports as `PlaceVoxel` does |
| `Toolbox.ToolboxComponent.DestroyVoxel` | src/app/toolbox/toolbox.component.ts:156-172 | decides as `DestroyVerdict`; reports as `PlaceVoxel` does; a fault changes nothing |
| `Toolbox.ToolboxComponent.RepaintVoxel` | src/app/toolbox/toolbox.component.ts:174-190 | decides as `RepaintVerdict`; reports as `PlaceVoxel` does; a fault changes nothing |
| `Toolbox.ToolboxComponent.TransferVoxel` | src/app/toolbox/toolbox.component.ts:192-208 | decides as `TransferVerdict`; reports as `PlaceVoxel` does; a fault changes nothing |
| `Toolbox.ToolboxComponent.OnPlaceResult` | src/app/toolbox/toolbox.component.ts:146-153 | hides the toolbox voxel, then shows `ResultNotice(Place, e)` |
| `Toolbox.ToolboxComponent.OnDestroyResult` | src/app/toolbox/toolbox.component.ts:165-171 | shows `ResultNotice(Destroy, e)` |
| `Toolbox.ToolboxComponent.OnRepaintResult` | src/app/toolbox/toolbox.component.ts:183-189 | shows `ResultNotice(Repaint, e)` |
| `Toolbox.ToolboxComponent.OnTransferResult` | src/app/toolbox/toolbox.component.ts:201-207 | shows `ResultNotice(Transfer, e)` |

## Left out

- `checkWeb3` (lines 55-72) is not modelled. It checks the injected `ethereum` global once, then polls the wallet address and network id every second with a timer and a promise.
- `setMode` with a string that is not one of the four mode names is not modelled. The source then sets an arbitrary property; the model's `Mode` is a closed datatype.
- Rendering is not modelled: material colours, the exact opacity values, the camera move and `lookAt` in `updateToolboxVoxel`, and the mesh built by `spawnToolboxVoxel`. The toolbox voxel is a position plus a shown/hidden flag; the `material` argument of `UpdateToolboxVoxel` only picks a colour and is unused.
- The `x`/`y`/`z` accessors over `Engine.selectedVoxel.position` (lines 28-46) are not modelled beyond the `position` field. The unused field `m` is not modelled either.
- `console.log` calls are not modelled; they are diagnostics only.
- The internals of `ContractService` and `Engine` are not part of this model. The gateway is a log of requests plus one callback method per operation. The world is an abstract map.
- Changes made by collaborators are not modelled: `world` and `userAddress` are fixed for the component's lifetime (set by the constructor), so a chain event or a wallet unlock between two operations cannot be expressed.
- Order and concurrency of callbacks are not modelled: a callback may fire any time after a call of its kind was issued, and callbacks are not matched to requests.
- src/app/app.component.ts is not modelled; it only checks for the injected wallet global.
