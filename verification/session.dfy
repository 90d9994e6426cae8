/** Sequences of public calls on one reader, and the properties that only
    show across several calls: what survives any run of calls, what the
    sampling gate and the change flag do between two calls, and concrete
    pads driven through the public surface. */
module Session {
  import opened Bits
  import opened Layout
  import opened Pins
  import opened MegaPad

  /** One call on the public surface, with the line levels and clock
      values it would see. `CallClearInterrupt` is the caller writing
      `false` into the public `interrupt` field. */
  datatype Call =
    | CallUpdate(now: Millis, padNow: Millis, s: ReadPhases)
    | CallReadDirection(now: Millis, s: ReadPhases)
    | CallReadStart(now: Millis, s: ReadPhases)
    | CallRead(now: Millis, s: ReadPhases)
    | CallReadByte(now: Millis, s: ReadPhases, m: bv8)
    | CallType(d: DetectPhases)
    | CallSetMode(m: bv8)
    | CallClearInterrupt

  /** `read(m)` is only called with a valid byte index. */
  predicate ValidCall(c: Call)
  {
    c.CallReadByte? ==> c.m < 2
  }

  predicate ValidCalls(calls: seq<Call>)
  {
    forall i :: 0 <= i < |calls| ==> ValidCall(calls[i])
  }

  /** The state after one call (its return value dropped). */
  function Step(p: Pad, c: Call): Pad
    requires ValidCall(c)
  {
    match c
    case CallUpdate(now, padNow, s) => Update(p, now, padNow, s).pad
    case CallReadDirection(now, s) => ReadDirection(p, now, s).pad
    case CallReadStart(now, s) => ReadStart(p, now, s).pad
    case CallRead(now, s) => Read(p, now, s).pad
    case CallReadByte(now, s, m) => ReadByte(p, now, s, m).pad
    case CallType(d) => Type(p, d).pad
    case CallSetMode(m) => SetMode(p, m)
    case CallClearInterrupt => p.(interrupt := false)
  }

  /** The state after the calls, in order. */
  function Run(p: Pad, calls: seq<Call>): Pad
    requires ValidCalls(calls)
    decreases |calls|
  {
    if calls == [] then p else Run(Step(p, calls[0]), calls[1..])
  }

  predicate NoTypeCall(calls: seq<Call>)
  {
    forall i :: 0 <= i < |calls| ==> !calls[i].CallType?
  }

  predicate NoSetModeCall(calls: seq<Call>)
  {
    forall i :: 0 <= i < |calls| ==> !calls[i].CallSetMode?
  }

  // ---------------------------------------------------------------------
  // Invariants of every run

  /** Whether MD modes are available is fixed at construction. */
  lemma {:induction false} RunKeepsNoMD(p: Pad, calls: seq<Call>)
    requires ValidCalls(calls)
    ensures Run(p, calls).noMD == p.noMD
    decreases |calls|
  {
    if calls != [] {
      TailKeepsFilters(calls);
      RunKeepsNoMD(Step(p, calls[0]), calls[1..]);
    }
  }

  /** Once the mode has been forced it stays marked as forced. */
  lemma {:induction false} ForcedModeStaysForced(p: Pad, calls: seq<Call>)
    requires ValidCalls(calls)
    requires p.ignorePadCheck
    ensures Run(p, calls).ignorePadCheck
    decreases |calls|
  {
    if calls != [] {
      TailKeepsFilters(calls);
      ForcedModeStaysForced(Step(p, calls[0]), calls[1..]);
    }
  }

  /** Without a Select pin, no sequence of calls that leaves out `type()`
      moves the mode off SMS; in particular `setMode` cannot. */
  lemma {:induction false} NoSelectPinStaysSMS(p: Pad, calls: seq<Call>)
    requires ValidCalls(calls) && NoTypeCall(calls)
    requires p.noMD && p.padMode == SMS
    ensures Run(p, calls).padMode == SMS
    decreases |calls|
  {
    if calls != [] {
      TailKeepsFilters(calls);
      NoSelectPinStaysSMS(Step(p, calls[0]), calls[1..]);
    }
  }

  /** As long as `setMode` is never called the mode is SMS, MD3 or MD6:
      detection only produces those and reads never change the mode. */
  lemma {:induction false} ModeStaysKnown(p: Pad, calls: seq<Call>)
    requires ValidCalls(calls) && NoSetModeCall(calls)
    requires p.padMode <= MD6
    ensures Run(p, calls).padMode <= MD6
    decreases |calls|
  {
    if calls != [] {
      TailKeepsFilters(calls);
      ModeStaysKnown(Step(p, calls[0]), calls[1..]);
    }
  }

  /** Reads and polls never change the controller type or the forced
      marker, whatever the lines show. */
  lemma {:induction false} ReadsKeepMode(p: Pad, calls: seq<Call>)
    requires ValidCalls(calls) && NoTypeCall(calls) && NoSetModeCall(calls)
    ensures Run(p, calls).padMode == p.padMode
    ensures Run(p, calls).ignorePadCheck == p.ignorePadCheck
    decreases |calls|
  {
    if calls != [] {
      TailKeepsFilters(calls);
      ReadsKeepMode(Step(p, calls[0]), calls[1..]);
    }
  }

  /** In a forced mode above MD6 no read routine runs: the register and the
      history stay as they were for every later read and poll. */
  lemma {:induction false} UnknownModeFreezesRegister(p: Pad, calls: seq<Call>)
    requires ValidCalls(calls) && NoTypeCall(calls) && NoSetModeCall(calls)
    requires p.padMode > MD6
    ensures Run(p, calls).buttons == p.buttons && Run(p, calls).history == p.history
    decreases |calls|
  {
    if calls != [] {
      TailKeepsFilters(calls);
      StepFreezesRegister(p, calls[0]);
      UnknownModeFreezesRegister(Step(p, calls[0]), calls[1..]);
    }
  }

  /** One read, poll or accessor in a mode above MD6 keeps the mode, the
      register and the history. */
  lemma StepFreezesRegister(p: Pad, c: Call)
    requires ValidCall(c) && !c.CallType? && !c.CallSetMode?
    requires p.padMode > MD6
    ensures Step(p, c).padMode == p.padMode
    ensures Step(p, c).buttons == p.buttons && Step(p, c).history == p.history
  {
  }

  /** Dropping the first call keeps the rest valid and keeps out whatever
      kinds of call the whole sequence left out. */
  lemma TailKeepsFilters(calls: seq<Call>)
    requires calls != [] && ValidCalls(calls)
    ensures ValidCalls(calls[1..])
    ensures NoTypeCall(calls) ==> NoTypeCall(calls[1..])
    ensures NoSetModeCall(calls) ==> NoSetModeCall(calls[1..])
  {
    forall i | 0 <= i < |calls[1..]| ensures calls[1..][i] == calls[i + 1] {
    }
  }

  // ---------------------------------------------------------------------
  // Two calls

  /** Right after a gated read, `read()` leaves clear every bit the mode
      does not use: SMS clears the mask 0xFF90, MD3 the high byte and MD6
      the top nibble. */
  lemma ReadClearsUnusedBits(p: Pad, now: Millis, s: ReadPhases)
    requires Due(p.lastPad, now, ReadInterval) && p.padMode <= MD6
    ensures p.padMode == SMS ==> Read(p, now, s).value & 0xFF90 == 0
    ensures p.padMode == MD3 ==> Read(p, now, s).value >> 8 == 0
    ensures p.padMode == MD6 ==> Read(p, now, s).value >> 12 == 0
  {
  }

  /** Within one sampling window the direction is read only once: a second
      `readDirection` less than `ReadInterval` after a gated one returns the
      same nibble, whatever the lines show meanwhile. */
  lemma DirectionStableInWindow(p: Pad, t1: Millis, s1: ReadPhases, t2: Millis, s2: ReadPhases)
    requires Due(p.lastPad, t1, ReadInterval)
    requires Elapsed(t1, t2) < ReadInterval
    ensures ReadDirection(ReadDirection(p, t1, s1).pad, t2, s2).value == ReadDirection(p, t1, s1).value
  {
  }

  /** `update` does not clear the change flag: once a poll has reported a
      change, every later poll reports one until a data accessor runs or the
      caller clears the public `interrupt` field. */
  lemma PollKeepsReportingChange(p: Pad, t1: Millis, u1: Millis, s1: ReadPhases,
                                 t2: Millis, u2: Millis, s2: ReadPhases)
    requires Update(p, t1, u1, s1).value
    ensures Update(Update(p, t1, u1, s1).pad, t2, u2, s2).value
  {
  }

  /** Clearing the public `interrupt` field by hand makes the next poll
      quiet unless both gates let a read through and that read finds the
      register changed: in modes SMS to MD6 the new sample differs from the
      register, in a forced mode above MD6 the stale register differs from
      the stale history. */
  lemma PollAfterManualClear(p: Pad, now: Millis, padNow: Millis, s: ReadPhases)
    ensures
      var cleared := Step(p, CallClearInterrupt);
      p.padMode <= MD6 ==>
        (Update(cleared, now, padNow, s).value <==>
          Due(p.lastUpdate, now, UpdateInterval) && Due(p.lastPad, padNow, ReadInterval)
          && Encode(Reported(p.padMode, s)) != p.buttons)
    ensures
      var cleared := Step(p, CallClearInterrupt);
      p.padMode > MD6 ==>
        (Update(cleared, now, padNow, s).value <==>
          Due(p.lastUpdate, now, UpdateInterval) && Due(p.lastPad, padNow, ReadInterval)
          && p.buttons != p.history)
  {
  }

  /** After a data accessor has cleared the flag, a poll reports a change
      exactly when both gates let a read through and that read finds the
      register changed: in modes SMS to MD6 the new sample differs from the
      register the accessor returned, in a forced mode above MD6 the stale
      register differs from the stale history. */
  lemma PollAfterAccessor(p: Pad, t: Millis, s: ReadPhases,
                          now: Millis, padNow: Millis, s2: ReadPhases)
    ensures
      var seen := Read(p, t, s).pad;
      p.padMode <= MD6 ==>
        (Update(seen, now, padNow, s2).value <==>
          Due(seen.lastUpdate, now, UpdateInterval) && Due(seen.lastPad, padNow, ReadInterval)
          && Encode(Reported(p.padMode, s2)) != seen.buttons)
    ensures
      var seen := Read(p, t, s).pad;
      p.padMode > MD6 ==>
        (Update(seen, now, padNow, s2).value <==>
          Due(seen.lastUpdate, now, UpdateInterval) && Due(seen.lastPad, padNow, ReadInterval)
          && seen.buttons != seen.history)
  {
  }

  // ---------------------------------------------------------------------
  // Concrete pads

  /** Lines of an MD pad with nothing pressed, in the phase where it pulls
      Left and Right low. */
  const MDAsserted := Idle.(left := false, right := false)

  /** Lines of a six-button pad after the toggle sequence. */
  const SixToggled := Idle.(left := false, right := false, up := false, down := false)

  /** Detection on the three pad kinds: a six-button pad is MD6; without
      its extended signature it is MD3; without either it is SMS. */
  lemma DetectionScenarios(p: Pad)
    ensures Type(p, DetectPhases(MDAsserted, SixToggled)).value == MD6
    ensures Type(p, DetectPhases(MDAsserted, Idle)).value == MD3
    ensures Type(p, DetectPhases(Idle, Idle)).value == SMS
    ensures Type(p, DetectPhases(Idle, SixToggled)).value == SMS
  {
  }

  /** Select bound to pin 8, an SMS pad with Up and the A line pressed:
      `readDirection` returns 1 (Up alone, an odd value although only one
      cardinal is pressed) and `read(0)` then has exactly bits 0 and 5. */
  lemma UpAndAOnSMSPad()
    ensures
      var p := Construct(8, DetectPhases(Idle, Idle), Cleared, Cleared);
      var s := ReadPhases(Idle.(up := false, a := false), Idle, Idle);
      var d := ReadDirection(p, 5, s);
      p.padMode == SMS && d.value == 1 && ReadByte(d.pad, 6, s, 0).value == 0x21
  {
  }

  /** `type()` runs detection even without a Select pin: Left and Right
      held on an SMS pad turn it into MD3. */
  lemma TypeIgnoresMissingSelectPin()
    ensures
      var p := Construct(NoSelectPin, DetectPhases(Idle, Idle), Cleared, Cleared);
      p.noMD && Type(p, DetectPhases(MDAsserted, Idle)).value == MD3
  {
  }

  /** Unused bits are clear only right after a gated read: an MD6 read with
      X held, then `setMode(SMS)`, then `read()` inside the same window
      returns a word with bit 8 set, a bit SMS does not use. */
  lemma StaleBitsAfterSetMode()
    ensures
      var p := Construct(8, DetectPhases(MDAsserted, SixToggled), Cleared, Cleared);
      var s := ReadPhases(Idle, Idle, Idle.(left := false));
      var q := SetMode(ReadPad(p, 5, s), SMS);
      var r := Read(q, 6, s);
      p.padMode == MD6 && q.padMode == SMS && r.value == 0x100
  {
  }
}
