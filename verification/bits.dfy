/** Single-bit access to an 8-bit register, as Arduino's `bitRead` and
    `bitWrite` macros provide it. Bit 0 is the least significant bit. */
module Bits {

  /** The one-bit mask `1 << n`, spelled out per position. */
  function Mask(n: nat): (m: bv8)
    requires n < 8
  {
    match n
    case 0 => 0x01
    case 1 => 0x02
    case 2 => 0x04
    case 3 => 0x08
    case 4 => 0x10
    case 5 => 0x20
    case 6 => 0x40
    case _ => 0x80
  }

  /** True iff bit `n` of `x` is set. */
  predicate BitRead(x: bv8, n: nat)
    requires n < 8
  {
    x & Mask(n) != 0
  }

  /** `x` with bit `n` set to `v`; every other bit is kept. */
  function BitWrite(x: bv8, n: nat, v: bool): (r: bv8)
    requires n < 8
    ensures BitRead(r, n) == v
    ensures forall k :: 0 <= k < 8 && k != n ==> BitRead(r, k) == BitRead(x, k)
  {
    if v then x | Mask(n) else x & !Mask(n)
  }

  /** Two bytes that agree on every bit are equal. */
  lemma BitsDetermineByte(x: bv8, y: bv8)
    requires forall k :: 0 <= k < 8 ==> BitRead(x, k) == BitRead(y, k)
    ensures x == y
  {
    assert BitRead(x, 0) == BitRead(y, 0);
    assert BitRead(x, 1) == BitRead(y, 1);
    assert BitRead(x, 2) == BitRead(y, 2);
    assert BitRead(x, 3) == BitRead(y, 3);
    assert BitRead(x, 4) == BitRead(y, 4);
    assert BitRead(x, 5) == BitRead(y, 5);
    assert BitRead(x, 6) == BitRead(y, 6);
    assert BitRead(x, 7) == BitRead(y, 7);
  }
}
