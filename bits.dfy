/*
 * Bit-level vocabulary shared by the driver model: the `uint8` range of pin
 * numbers, single-bit masks, and the Arduino `bitWrite` macro that the driver
 * uses to edit its shift-register frame in place.
 */
module Bits {

  /** An unsigned 8-bit integer used as a number (pin numbers, loop bounds). */
  type uint8 = x: int | 0 <= x < 256

  /** The byte whose only set bit is bit k. */
  function Mask(k: nat): (m: bv8)
    requires k < 8
    ensures m != 0
  {
    if k == 0 then 0x01 else if k == 1 then 0x02 else if k == 2 then 0x04 else if k == 3 then 0x08
    else if k == 4 then 0x10 else if k == 5 then 0x20 else if k == 6 then 0x40 else 0x80
  }

  /** Bit k of x is set. */
  predicate Bit(x: bv8, k: nat)
    requires k < 8
  {
    x & Mask(k) != 0
  }

  lemma MasksDisjoint(b: nat, k: nat)
    requires b < 8 && k < 8 && b != k
    ensures Mask(b) & Mask(k) == 0
  {}

  lemma OrKeeps(x: bv8, m: bv8, n: bv8)
    requires m & n == 0
    ensures (x | m) & n == x & n
  {}

  lemma AndNotKeeps(x: bv8, m: bv8, n: bv8)
    requires m & n == 0
    ensures (x & !m) & n == x & n
  {}

  lemma OrSets(x: bv8, m: bv8)
    requires m != 0
    ensures (x | m) & m != 0
  {}

  lemma AndNotClears(x: bv8, m: bv8)
    ensures (x & !m) & m == 0
  {}

  /** bitSet / bitClear on a bit that lies inside the byte. */
  function SetOrClear(x: bv8, b: nat, v: bool): bv8
    requires b < 8
  {
    if v then x | Mask(b) else x & !Mask(b)
  }

  lemma SetOrClearBits(x: bv8, b: nat, v: bool)
    requires b < 8
    ensures Bit(SetOrClear(x, b, v), b) == v
    ensures forall k | 0 <= k < 8 && k != b :: Bit(SetOrClear(x, b, v), k) == Bit(x, k)
  {
    var m := Mask(b);
    var r := SetOrClear(x, b, v);
    if v { OrSets(x, m); } else { AndNotClears(x, m); }
    forall k | 0 <= k < 8 && k != b ensures Bit(r, k) == Bit(x, k) {
      var n := Mask(k);
      MasksDisjoint(b, k);
      if v { OrKeeps(x, m, n); } else { AndNotKeeps(x, m, n); }
    }
  }

  /**
   * `bitWrite(value, bit, bitvalue)` on a `uint8_t` variable: sets or clears
   * `1UL << bit` and stores the result back into the byte. A bit number of 8
   * or more lands outside the byte, so the byte keeps its value.
   */
  function BitWrite(x: bv8, b: uint8, v: bool): (r: bv8)
    ensures b < 8 ==> Bit(r, b) == v
    ensures forall k | 0 <= k < 8 && k != b :: Bit(r, k) == Bit(x, k)
    ensures b >= 8 ==> r == x
  {
    if b >= 8 then x
    else SetOrClearBits(x, b, v); SetOrClear(x, b, v)
  }

  /** Two bytes are equal when all eight of their bits are. */
  lemma BitsDetermineByte(x: bv8, y: bv8)
    requires forall k | 0 <= k < 8 :: Bit(x, k) == Bit(y, k)
    ensures x == y
  {
    assert Bit(x, 0) == Bit(y, 0) && Bit(x, 1) == Bit(y, 1) && Bit(x, 2) == Bit(y, 2) && Bit(x, 3) == Bit(y, 3);
    assert Bit(x, 4) == Bit(y, 4) && Bit(x, 5) == Bit(y, 5) && Bit(x, 6) == Bit(y, 6) && Bit(x, 7) == Bit(y, 7);
  }

  /**
   * Writing the same bit twice keeps only the second write; this is what makes
   * the final frame of an Enable pulse equal to its first.
   */
  lemma BitWriteTwice(x: bv8, b: uint8, v: bool, u: bool)
    ensures BitWrite(BitWrite(x, b, v), b, u) == BitWrite(x, b, u)
  {
    if b < 8 {
      var l := BitWrite(BitWrite(x, b, v), b, u);
      var r := BitWrite(x, b, u);
      assert forall k | 0 <= k < 8 :: Bit(l, k) == Bit(r, k);
      BitsDetermineByte(l, r);
    }
  }

  /** `1 << k` is the mask of bit k. */
  lemma ShiftedOne(k: nat)
    requires k < 8
    ensures (1 as bv8) << k == Mask(k)
  {
    if k == 0 {} else if k == 1 {} else if k == 2 {} else if k == 3 {}
    else if k == 4 {} else if k == 5 {} else if k == 6 {} else {}
  }

  /** `(value >> k) & 0x01` is non-zero exactly when bit k is set. */
  lemma ShiftedLowBit(v: bv8, k: nat)
    requires k < 8
    ensures ((v >> k) & 0x01 != 0) == Bit(v, k)
  {
    if k == 0 { assert (v >> 0) & 0x01 == v & 0x01; }
    else if k == 1 { assert ((v >> 1) & 0x01) << 1 == v & 0x02; }
    else if k == 2 { assert ((v >> 2) & 0x01) << 2 == v & 0x04; }
    else if k == 3 { assert ((v >> 3) & 0x01) << 3 == v & 0x08; }
    else if k == 4 { assert ((v >> 4) & 0x01) << 4 == v & 0x10; }
    else if k == 5 { assert ((v >> 5) & 0x01) << 5 == v & 0x20; }
    else if k == 6 { assert ((v >> 6) & 0x01) << 6 == v & 0x40; }
    else { assert ((v >> 7) & 0x01) << 7 == v & 0x80; }
  }
}
