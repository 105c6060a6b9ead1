/**
 * The parameter guards of the toolbox component: the byte guard `validUint8`,
 * the world-bound guard `checkValidCoords` and the owner comparison
 * `checkOwnership`. JavaScript numbers are modelled as `real`, so that the
 * integrality test of `Number.isInteger` can be stated (IEEE rounding is not).
 */
module Validation {
  import opened Wrappers

  /** `worldSize`: the side length of the voxel world. */
  const WorldSize: real := 256.0

  /** One value passes `validUint8`: greater than -1, an integer, less than 256. */
  predicate IsUint8Value(n: real) {
    n > -1.0 && n.Floor as real == n && n < 256.0
  }

  /** Every value of the list passes `validUint8`. */
  predicate AllUint8(ns: seq<real>) {
    forall i :: 0 <= i < |ns| ==> IsUint8Value(ns[i])
  }

  /** An unsigned 8-bit integer, the on-chain encoding of coordinates and materials. */
  newtype Uint8 = b: int | 0 <= b < 256

  /** The unsigned byte that an accepted value is encoded as on chain. */
  function ToByte(n: real): (b: Uint8)
    requires IsUint8Value(n)
    ensures FromByte(b) == n
  {
    n.Floor as Uint8
  }

  /** The number an on-chain byte stands for. */
  function FromByte(b: Uint8): real {
    b as int as real
  }

  /**
   * `validUint8` accepts exactly the numbers that are the value of some
   * unsigned byte: no negative number, no fraction and nothing above 255.
   */
  lemma Uint8IsByteRange(n: real)
    ensures IsUint8Value(n) <==> exists b: Uint8 :: FromByte(b) == n
  {
    if IsUint8Value(n) {
      assert FromByte(ToByte(n)) == n;
    }
    if b: Uint8 :| FromByte(b) == n {
      assert n.Floor == b as int;
    }
  }

  /**
   * `validUint8(numbers)`: walks the list front to back and answers false at
   * the first value that fails, true when none fails (so true for `[]`).
   */
  method ValidUint8(numbers: seq<real>) returns (ok: bool)
    ensures ok <==> AllUint8(numbers)
  {
    var i := 0;
    while i < |numbers|
      invariant 0 <= i <= |numbers|
      invariant forall j :: 0 <= j < i ==> IsUint8Value(numbers[j])
    {
      if !IsUint8Value(numbers[i]) {
        return false;
      }
      i := i + 1;
    }
    return true;
  }

  /** `validUint8` on the three coordinates, value by value. */
  lemma AllUint8Three(x: real, y: real, z: real)
    ensures AllUint8([x, y, z]) <==> IsUint8Value(x) && IsUint8Value(y) && IsUint8Value(z)
  {
    var s := [x, y, z];
    assert s[0] == x && s[1] == y && s[2] == z;
  }

  /** `validUint8` on three coordinates and a material, value by value. */
  lemma AllUint8Four(x: real, y: real, z: real, m: real)
    ensures AllUint8([x, y, z, m]) <==> IsUint8Value(x) && IsUint8Value(y) && IsUint8Value(z) && IsUint8Value(m)
  {
    var s := [x, y, z, m];
    assert s[0] == x && s[1] == y && s[2] == z && s[3] == m;
  }

  /** `checkValidCoords`: each coordinate is below `worldSize`; there is no lower bound. */
  predicate ValidCoords(x: real, y: real, z: real): (ok: bool)
    // the byte guard already implies it
    ensures AllUint8([x, y, z]) ==> ok
    // it fails only for a coordinate at or beyond the far edge of the world
    ensures !ok ==> x >= WorldSize || y >= WorldSize || z >= WorldSize
  {
    AllUint8Three(x, y, z);
    x < WorldSize && y < WorldSize && z < WorldSize
  }

  /**
   * Bounds of `checkValidCoords`: any coordinate at or above the world size
   * fails it, while negative coordinates pass it and are left for
   * `validUint8` to reject.
   */
  lemma ValidCoordsUpperBoundOnly(x: real, y: real, z: real)
    ensures (x >= WorldSize || y >= WorldSize || z >= WorldSize) ==> !ValidCoords(x, y, z)
    ensures (x < 0.0 || y < 0.0 || z < 0.0) && x < WorldSize && y < WorldSize && z < WorldSize ==>
      ValidCoords(x, y, z) && !AllUint8([x, y, z])
  {
    AllUint8Three(x, y, z);
  }

  /**
   * The two coordinate guards together accept exactly the coordinates that
   * are integers in [0, 256): the upper bound of `checkValidCoords` is already
   * implied by `validUint8`.
   */
  lemma CoordinateGuardIsByteRange(x: real, y: real, z: real)
    ensures ValidCoords(x, y, z) && AllUint8([x, y, z]) <==> AllUint8([x, y, z])
    ensures AllUint8([x, y, z]) <==>
      (exists b: Uint8 :: FromByte(b) == x) && (exists b: Uint8 :: FromByte(b) == y) && (exists b: Uint8 :: FromByte(b) == z)
  {
    Uint8IsByteRange(x);
    Uint8IsByteRange(y);
    Uint8IsByteRange(z);
    AllUint8Three(x, y, z);
  }

  /** `checkOwnership`: the connected wallet address equals the owner; a locked wallet (no address) owns nothing. */
  predicate Owns(userAddress: Option<string>, owner: string): (ok: bool)
    ensures userAddress.None? ==> !ok
    ensures ok <==> userAddress.Some? && userAddress.value == owner
  {
    userAddress == Some(owner)
  }
}
