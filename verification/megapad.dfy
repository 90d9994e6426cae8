/** The `MegaPad` controller reader as a state record and pure transition
    functions. Every routine that touches the hardware takes the line
    levels it would sample (see `Pins`) and, where it consults `millis()`,
    the clock value as `now`, a reading of the wrapping 32-bit clock. */
module MegaPad {
  import opened Bits
  import opened Layout
  import opened Pins

  /** Values of `padMode`: SMS (4 directions, 2 buttons), MD3 (3 buttons
      and Start), MD6 (6 buttons, Start and Mode). Any other byte can be
      forced in with `SetMode` and makes hardware reads do nothing. */
  const SMS: bv8 := 0
  const MD3: bv8 := 1
  const MD6: bv8 := 2

  /** The default Select pin argument, meaning "no Select pin". */
  const NoSelectPin: bv8 := 255

  /** A reading of the 32-bit `millis()` clock, which wraps to 0 after
      2^32 - 1. */
  type Millis = t: int | 0 <= t < 0x1_0000_0000

  /** Minimum milliseconds between hardware reads, and between polls that
      `Update` lets through. */
  const ReadInterval: Millis := 5
  const UpdateInterval: Millis := 10

  /** The reader's state. `lastPad` and `lastUpdate` are the timestamps of
      the last read let through by `ReadPad` and by `Update`. */
  datatype Pad = Pad(
    noMD: bool,
    padMode: bv8,
    buttons: Register,
    history: Register,
    interrupt: bool,
    ignorePadCheck: bool,
    lastPad: Millis,
    lastUpdate: Millis)

  /** A call's resulting state and its return value. */
  datatype Out<T> = Out(pad: Pad, value: T)

  /** The buttons a pad in `mode` reports on the sampled lines, a line read
      LOW meaning pressed: the first report carries the directions, B and C;
      MD modes add A and Start from the second report; MD6 adds X, Y, Z and
      Mode from the extended report. */
  function Reported(mode: bv8, s: ReadPhases): (k: Buttons)
    requires mode <= MD6
    ensures UnusedClear(mode, Encode(k))
  {
    Buttons(
      up := !s.high.up, down := !s.high.down,
      left := !s.high.left, right := !s.high.right,
      a := mode != SMS && !s.low.a,
      b := !s.high.a,
      c := !s.high.b,
      start := mode != SMS && !s.low.b,
      x := mode == MD6 && !s.extended.left,
      y := mode == MD6 && !s.extended.down,
      z := mode == MD6 && !s.extended.up,
      modeButton := mode == MD6 && !s.extended.right)
  }

  /** Bits no button of `mode` owns are clear. */
  predicate UnusedClear(mode: bv8, r: Register)
    requires mode <= MD6
  {
    if mode == SMS then r.lo & 0x90 == 0 && r.hi == 0
    else if mode == MD3 then r.hi == 0
    else r.hi & 0xF0 == 0
  }

  // ---------------------------------------------------------------------
  // Read routines

  /** First report (Select high): saves the register into the history,
      clears it, and stores the inverted Up, Down, Left, Right, A-line and
      B-line levels in bits 0, 1, 2, 3, 5 and 6 of byte 0. */
  function ReadSMS(p: Pad, high: Lines): (q: Pad)
    ensures q.history == p.buttons
    ensures BitRead(q.buttons.lo, 0) == !high.up && BitRead(q.buttons.lo, 1) == !high.down
    ensures BitRead(q.buttons.lo, 2) == !high.left && BitRead(q.buttons.lo, 3) == !high.right
    ensures BitRead(q.buttons.lo, 5) == !high.a && BitRead(q.buttons.lo, 6) == !high.b
    ensures q.buttons.lo & 0x90 == 0 && q.buttons.hi == 0
    ensures q == p.(history := q.history, buttons := q.buttons)
  {
    var lo := BitWrite(BitWrite(BitWrite(BitWrite(BitWrite(BitWrite(Cleared.lo,
      0, !high.up), 1, !high.down), 2, !high.left), 3, !high.right),
      5, !high.a), 6, !high.b);
    p.(history := p.buttons, buttons := Cleared.(lo := lo))
  }

  /** Three-button read: the first report, then (Select low) the inverted
      A-line and B-line levels into bits 4 and 7 of byte 0. */
  function ReadMD(p: Pad, high: Lines, low: Lines): (q: Pad)
    ensures q.history == p.buttons
    ensures forall k :: 0 <= k < 8 && k != 4 && k != 7 ==>
              BitRead(q.buttons.lo, k) == BitRead(ReadSMS(p, high).buttons.lo, k)
    ensures BitRead(q.buttons.lo, 4) == !low.a && BitRead(q.buttons.lo, 7) == !low.b
    ensures q.buttons.hi == 0
    ensures q == p.(history := q.history, buttons := q.buttons)
  {
    var first := ReadSMS(p, high);
    var lo := BitWrite(BitWrite(first.buttons.lo, 4, !low.a), 7, !low.b);
    first.(buttons := first.buttons.(lo := lo))
  }

  /** Six-button read: the three-button read, then, in the extended
      report, the inverted Left, Down, Up and Right levels into bits 0..3
      of byte 1. */
  function ReadMD6(p: Pad, s: ReadPhases): (q: Pad)
    ensures q.history == p.buttons
    ensures q.buttons.lo == ReadMD(p, s.high, s.low).buttons.lo
    ensures BitRead(q.buttons.hi, 0) == !s.extended.left && BitRead(q.buttons.hi, 1) == !s.extended.down
    ensures BitRead(q.buttons.hi, 2) == !s.extended.up && BitRead(q.buttons.hi, 3) == !s.extended.right
    ensures q.buttons.hi & 0xF0 == 0
    ensures q == p.(history := q.history, buttons := q.buttons)
  {
    var three := ReadMD(p, s.high, s.low);
    var hi := BitWrite(BitWrite(BitWrite(BitWrite(three.buttons.hi,
      0, !s.extended.left), 1, !s.extended.down), 2, !s.extended.up),
      3, !s.extended.right);
    three.(buttons := three.buttons.(hi := hi))
  }

  /** The first report packs exactly the SMS buttons. */
  lemma ReadSMSReports(p: Pad, s: ReadPhases)
    ensures ReadSMS(p, s.high).buttons == Encode(Reported(SMS, s))
  {
  }

  /** The three-button read packs exactly the MD3 buttons. */
  lemma ReadMDReports(p: Pad, s: ReadPhases)
    ensures ReadMD(p, s.high, s.low).buttons == Encode(Reported(MD3, s))
  {
    BitsDetermineByte(ReadMD(p, s.high, s.low).buttons.lo, Encode(Reported(MD3, s)).lo);
  }

  /** The six-button read packs exactly the MD6 buttons. */
  lemma ReadMD6Reports(p: Pad, s: ReadPhases)
    ensures ReadMD6(p, s).buttons == Encode(Reported(MD6, s))
  {
    var r := ReadMD6(p, s).buttons;
    assert r.lo == Encode(Reported(MD3, s)).lo by {
      ReadMDReports(p, s);
    }
    FirstByteSharedByMD(s);
    ExtendedNibble(r.hi, s);
  }

  /** MD3 and MD6 pack byte 0 alike. */
  lemma FirstByteSharedByMD(s: ReadPhases)
    ensures Encode(Reported(MD3, s)).lo == Encode(Reported(MD6, s)).lo
  {
  }

  /** A byte-1 value carrying the extended report and nothing else is the
      packing of the MD6 buttons' high byte. */
  lemma ExtendedNibble(hi: bv8, s: ReadPhases)
    requires BitRead(hi, 0) == !s.extended.left && BitRead(hi, 1) == !s.extended.down
    requires BitRead(hi, 2) == !s.extended.up && BitRead(hi, 3) == !s.extended.right
    requires hi & 0xF0 == 0
    ensures hi == Encode(Reported(MD6, s)).hi
  {
  }

  // ---------------------------------------------------------------------
  // Type detection and construction

  /** Left and Right both LOW: what an MD pad shows right after Select is
      asserted (a passive SMS pad can only show it with both pressed). */
  predicate MDSignature(l: Lines)
  {
    !l.left && !l.right
  }

  /** Left, Right, Up and Down all LOW: what a six-button pad shows after
      the toggle sequence. */
  predicate SixButtonSignature(l: Lines)
  {
    !l.left && !l.right && !l.up && !l.down
  }

  /** Classifies the pad from the two detection snapshots, falling back to
      the lower mode whenever a signature is missing. Only `padMode` is
      written. */
  function DetectType(p: Pad, d: DetectPhases): (q: Pad)
    ensures q.padMode <= MD6
    ensures !MDSignature(d.asserted) ==> q.padMode == SMS
    ensures q.padMode == MD6 <==> MDSignature(d.asserted) && SixButtonSignature(d.toggled)
    ensures q.padMode == MD3 <==> MDSignature(d.asserted) && !SixButtonSignature(d.toggled)
    ensures q == p.(padMode := q.padMode)
  {
    var mode :=
      if d.asserted.left == false && d.asserted.right == false then
        if d.toggled.left == false && d.toggled.right == false
           && d.toggled.up == false && d.toggled.down == false
        then MD6
        else MD3
      else SMS;
    p.(padMode := mode)
  }

  /** The constructor. Only the Select pin argument matters to the state:
      the default (no Select pin) pins the reader to SMS for good, any
      other pin runs detection. The register contents the constructor
      leaves uninitialised are parameters; both timers start at 0. */
  function Construct(selectPin: bv8, d: DetectPhases, buttons: Register, history: Register): (p: Pad)
    ensures p.noMD <==> selectPin == NoSelectPin
    ensures p.noMD ==> p.padMode == SMS
    ensures !p.noMD ==> p.padMode == DetectType(p, d).padMode
    ensures p.padMode <= MD6
    ensures !p.interrupt && !p.ignorePadCheck
    ensures p.lastPad == 0 && p.lastUpdate == 0
    ensures p.buttons == buttons && p.history == history
  {
    var initial := Pad(
      noMD := false, padMode := SMS, buttons := buttons, history := history,
      interrupt := false, ignorePadCheck := false, lastPad := 0, lastUpdate := 0);
    if selectPin != NoSelectPin then
      DetectType(initial.(noMD := false), d)
    else
      initial.(padMode := SMS, noMD := true)
  }

  // ---------------------------------------------------------------------
  // Sampling gates

  /** Milliseconds from `since` to `now` on the wrapping 32-bit clock, as
      `unsigned long` subtraction computes it. */
  function Elapsed(since: Millis, now: Millis): (e: Millis)
    ensures (since + e) % 0x1_0000_0000 == now
    ensures since <= now ==> e == now - since
  {
    (now - since) % 0x1_0000_0000
  }

  /** At least `interval` milliseconds have passed since `since`. */
  predicate Due(since: Millis, now: Millis, interval: Millis)
  {
    Elapsed(since, now) >= interval
  }

  /** The read routine selected by `padMode`; any other mode reads nothing. */
  function Dispatch(p: Pad, s: ReadPhases): (q: Pad)
    ensures p.padMode <= MD6 ==> q.history == p.buttons && q.buttons == Encode(Reported(p.padMode, s))
    ensures p.padMode > MD6 ==> q == p
    ensures q == p.(history := q.history, buttons := q.buttons)
  {
    if p.padMode == SMS then
      ReadSMSReports(p, s);
      ReadSMS(p, s.high)
    else if p.padMode == MD3 then
      ReadMDReports(p, s);
      ReadMD(p, s.high, s.low)
    else if p.padMode == MD6 then
      ReadMD6Reports(p, s);
      ReadMD6(p, s)
    else
      p
  }

  /** `readPad`: reads the hardware only if `ReadInterval` has passed since
      the last read, then raises the change flag if the register differs
      from the history. It never lowers the flag and never touches the
      mode. */
  function ReadPad(p: Pad, now: Millis, s: ReadPhases): (q: Pad)
    ensures !Due(p.lastPad, now, ReadInterval) ==> q == p
    ensures Due(p.lastPad, now, ReadInterval) ==> q.lastPad == now
    ensures Due(p.lastPad, now, ReadInterval) ==> (q.interrupt <==> p.interrupt || q.buttons != q.history)
    ensures p.interrupt ==> q.interrupt
    ensures Due(p.lastPad, now, ReadInterval) && p.padMode <= MD6 ==>
              q.history == p.buttons && q.buttons == Encode(Reported(p.padMode, s))
              && UnusedClear(p.padMode, q.buttons)
    ensures Due(p.lastPad, now, ReadInterval) && p.padMode > MD6 ==>
              q.buttons == p.buttons && q.history == p.history
    ensures q.padMode == p.padMode && q.noMD == p.noMD && q.ignorePadCheck == p.ignorePadCheck
    ensures q.lastUpdate == p.lastUpdate
  {
    if Elapsed(p.lastPad, now) >= ReadInterval then
      var read := Dispatch(p.(lastPad := now), s);
      if read.history != read.buttons then read.(interrupt := true) else read
    else
      p
  }

  // ---------------------------------------------------------------------
  // Public accessors

  /** `update`: lets a read through at most every `UpdateInterval` (and
      then `ReadPad`'s own gate applies, on the clock value `padNow` that
      its own `millis()` call returns), and returns the change flag without
      clearing it. */
  function Update(p: Pad, now: Millis, padNow: Millis, s: ReadPhases): (r: Out<bool>)
    ensures r.value == r.pad.interrupt
    ensures p.interrupt ==> r.value
    ensures !Due(p.lastUpdate, now, UpdateInterval) ==> r.pad == p
    ensures Due(p.lastUpdate, now, UpdateInterval) ==> r.pad.lastUpdate == now
    ensures Due(p.lastUpdate, now, UpdateInterval) ==> r.pad == ReadPad(p.(lastUpdate := now), padNow, s)
    ensures Due(p.lastUpdate, now, UpdateInterval) && Due(p.lastPad, padNow, ReadInterval) ==>
              r.pad.lastPad == padNow
    ensures Due(p.lastUpdate, now, UpdateInterval) && !Due(p.lastPad, padNow, ReadInterval) ==>
              r.pad == p.(lastUpdate := now)
    ensures Due(p.lastUpdate, now, UpdateInterval) && Due(p.lastPad, padNow, ReadInterval)
            && p.padMode <= MD6 ==>
              r.pad.buttons == Encode(Reported(p.padMode, s)) && r.pad.history == p.buttons
              && (r.value <==> p.interrupt || r.pad.buttons != p.buttons)
    ensures r.pad.padMode == p.padMode && r.pad.noMD == p.noMD
    ensures r.pad.ignorePadCheck == p.ignorePadCheck
  {
    if Elapsed(p.lastUpdate, now) >= UpdateInterval then
      var q := ReadPad(p.(lastUpdate := now), padNow, s);
      Out(q, q.interrupt)
    else
      Out(p, p.interrupt)
  }

  /** `readDirection`: the direction nibble `RLDU` of byte 0. */
  function ReadDirection(p: Pad, now: Millis, s: ReadPhases): (r: Out<bv8>)
    ensures r.value < 16
    ensures forall k :: 0 <= k < 4 ==> BitRead(r.value, k) == BitRead(r.pad.buttons.lo, k)
    ensures Due(p.lastPad, now, ReadInterval) && p.padMode <= MD6 ==>
              (r.value == 0 <==> s.high.up && s.high.down && s.high.left && s.high.right)
    ensures !r.pad.interrupt
    ensures r.pad == ReadPad(p, now, s).(interrupt := false)
  {
    var q := ReadPad(p, now, s);
    Out(q.(interrupt := false), q.buttons.lo & 0x0F)
  }

  /** `readStart`: whether Start (bit 7 of byte 0) is pressed. */
  function ReadStart(p: Pad, now: Millis, s: ReadPhases): (r: Out<bool>)
    ensures r.value == Decode(r.pad.buttons).start
    ensures Due(p.lastPad, now, ReadInterval) && (p.padMode == MD3 || p.padMode == MD6) ==>
              (r.value <==> !s.low.b)
    ensures Due(p.lastPad, now, ReadInterval) && p.padMode == SMS ==> !r.value
    ensures !r.pad.interrupt
    ensures r.pad == ReadPad(p, now, s).(interrupt := false)
  {
    var q := ReadPad(p, now, s);
    Out(q.(interrupt := false), BitRead(q.buttons.lo, 7))
  }

  /** `read()`: the whole register as one word, byte 1 high. */
  function Read(p: Pad, now: Millis, s: ReadPhases): (r: Out<bv16>)
    ensures r.value >> 8 == r.pad.buttons.hi as bv16 && r.value & 0xFF == r.pad.buttons.lo as bv16
    ensures Due(p.lastPad, now, ReadInterval) && p.padMode <= MD6 ==>
              r.value == Word(Encode(Reported(p.padMode, s)))
    ensures !r.pad.interrupt
    ensures r.pad == ReadPad(p, now, s).(interrupt := false)
  {
    var q := ReadPad(p, now, s);
    Out(q.(interrupt := false), Word(q.buttons))
  }

  /** `read(m)`: byte `m` of the register. `read(uint8_t)` does not check
      `m`, so only 0 and 1 are in its contract. */
  function ReadByte(p: Pad, now: Millis, s: ReadPhases, m: bv8): (r: Out<bv8>)
    requires m < 2
    ensures m == 0 ==> r.value as bv16 == Word(r.pad.buttons) & 0xFF
    ensures m == 1 ==> r.value as bv16 == Word(r.pad.buttons) >> 8
    ensures Due(p.lastPad, now, ReadInterval) && p.padMode <= MD6 ==>
              r.value == Byte(Encode(Reported(p.padMode, s)), m as nat)
    ensures !r.pad.interrupt
    ensures r.pad == ReadPad(p, now, s).(interrupt := false)
  {
    var q := ReadPad(p, now, s);
    Out(q.(interrupt := false), Byte(q.buttons, m as nat))
  }

  /** `type()`: runs detection again, whatever `noMD` and `ignorePadCheck`
      say, and returns the new mode. */
  function Type(p: Pad, d: DetectPhases): (r: Out<bv8>)
    ensures r.value <= MD6
    ensures r.value == r.pad.padMode
    ensures r.pad == p.(padMode := r.value)
    ensures r.value == MD6 <==> MDSignature(d.asserted) && SixButtonSignature(d.toggled)
    ensures r.value == MD3 <==> MDSignature(d.asserted) && !SixButtonSignature(d.toggled)
    ensures !MDSignature(d.asserted) ==> r.value == SMS
  {
    var q := DetectType(p, d);
    Out(q, q.padMode)
  }

  /** `setMode(m)`: forces the mode and marks it as forced, unless there is
      no Select pin, in which case nothing happens. */
  function SetMode(p: Pad, m: bv8): (q: Pad)
    ensures p.noMD ==> q == p
    ensures !p.noMD ==> q.padMode == m && q.ignorePadCheck
    ensures q == p.(padMode := q.padMode, ignorePadCheck := q.ignorePadCheck)
  {
    if !p.noMD then p.(padMode := m, ignorePadCheck := true) else p
  }
}
