/** The two-byte button register `padButtons` and its packed layout:
    byte 0 is `SCBARLDU` (Start, C, B, A, Right, Left, Down, Up from bit 7
    down to bit 0) and byte 1 is `xxxxMZYX` (Mode, Z, Y, X in bits 3..0,
    the top nibble unused). A set bit means the button is pressed. */
module Layout {
  import opened Bits

  /** `padButtons[0]` and `padButtons[1]` (also used for `padHistory`). */
  datatype Register = Register(lo: bv8, hi: bv8)

  const Cleared := Register(0, 0)

  /** Byte `m` of the register, as `padButtons[m]` indexes it. */
  function Byte(r: Register, m: nat): bv8
    requires m < 2
  {
    if m == 0 then r.lo else r.hi
  }

  /** One flag per button: the decoded view of a register. */
  datatype Buttons = Buttons(
    up: bool, down: bool, left: bool, right: bool,
    a: bool, b: bool, c: bool, start: bool,
    x: bool, y: bool, z: bool, modeButton: bool)

  /** Bit `n` alone when `v` holds, otherwise nothing. */
  function Flag(v: bool, n: nat): bv8
    requires n < 8
  {
    if v then Mask(n) else 0
  }

  /** Packs Up, Down, Left, Right, A, B, C and Start into byte 0. */
  function PackLow(k: Buttons): (lo: bv8)
    ensures BitRead(lo, 0) == k.up && BitRead(lo, 1) == k.down
    ensures BitRead(lo, 2) == k.left && BitRead(lo, 3) == k.right
    ensures BitRead(lo, 4) == k.a && BitRead(lo, 5) == k.b
    ensures BitRead(lo, 6) == k.c && BitRead(lo, 7) == k.start
  {
    Flag(k.up, 0) | Flag(k.down, 1) | Flag(k.left, 2) | Flag(k.right, 3)
      | Flag(k.a, 4) | Flag(k.b, 5) | Flag(k.c, 6) | Flag(k.start, 7)
  }

  /** Packs X, Y, Z and Mode into byte 1. */
  function PackHigh(k: Buttons): (hi: bv8)
    ensures BitRead(hi, 0) == k.x && BitRead(hi, 1) == k.y
    ensures BitRead(hi, 2) == k.z && BitRead(hi, 3) == k.modeButton
    ensures hi & 0xF0 == 0
  {
    Flag(k.x, 0) | Flag(k.y, 1) | Flag(k.z, 2) | Flag(k.modeButton, 3)
  }

  /** Packs the buttons into the `SCBARLDU` / `xxxxMZYX` layout. */
  function Encode(k: Buttons): (r: Register)
    ensures BitRead(r.lo, 0) == k.up && BitRead(r.lo, 1) == k.down
    ensures BitRead(r.lo, 2) == k.left && BitRead(r.lo, 3) == k.right
    ensures BitRead(r.lo, 4) == k.a && BitRead(r.lo, 5) == k.b
    ensures BitRead(r.lo, 6) == k.c && BitRead(r.lo, 7) == k.start
    ensures BitRead(r.hi, 0) == k.x && BitRead(r.hi, 1) == k.y
    ensures BitRead(r.hi, 2) == k.z && BitRead(r.hi, 3) == k.modeButton
    ensures r.hi & 0xF0 == 0
  {
    Register(PackLow(k), PackHigh(k))
  }

  /** Reads every button back out of its bit. */
  function Decode(r: Register): Buttons
  {
    Buttons(
      BitRead(r.lo, 0), BitRead(r.lo, 1), BitRead(r.lo, 2), BitRead(r.lo, 3),
      BitRead(r.lo, 4), BitRead(r.lo, 5), BitRead(r.lo, 6), BitRead(r.lo, 7),
      BitRead(r.hi, 0), BitRead(r.hi, 1), BitRead(r.hi, 2), BitRead(r.hi, 3))
  }

  /** Decoding a packed register gives back every button. */
  lemma DecodeEncode(k: Buttons)
    ensures Decode(Encode(k)) == k
  {
  }

  /** Every register whose unused nibble is clear is the packing of its
      own buttons: the layout loses nothing. */
  lemma EncodeDecode(r: Register)
    requires r.hi & 0xF0 == 0
    ensures Encode(Decode(r)) == r
  {
  }

  /** The 16-bit word `read()` returns: byte 1 times 256 plus byte 0, which
      never exceeds 16 bits, so byte 1 is the high byte. */
  function Word(r: Register): (w: bv16)
    ensures w >> 8 == r.hi as bv16 && w & 0xFF == r.lo as bv16
  {
    (r.hi as bv16) * 256 + (r.lo as bv16)
  }
}
