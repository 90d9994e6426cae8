# MegaPad controller reader, modelled in Dafny

MegaPad is an Arduino library that reads Mega Drive / Master System style
DE-9 game pads. It detects whether the pad is a two-button SMS pad, a
three-button Mega Drive pad (MD3) or a six-button one (MD6), and packs the
pressed buttons into a two-byte register: byte 0 is `SCBARLDU` (Start, C,
B, A, Right, Left, Down, Up) and byte 1 is `xxxxMZYX` (Mode, Z, Y, X). Reads
of the hardware are rate-limited to one every 5 ms, `update()` polls at most
every 10 ms, and a soft-interrupt flag records that the register changed.

The model keeps the library's object as an immutable record (`MegaPad.Pad`)
and every member function as a pure transition. The GPIO is not an effect
here: each routine takes the line levels it would sample, one snapshot per
Select phase (`Pins.ReadPhases`, `Pins.DetectPhases`), with `true` meaning
HIGH and a pressed button pulling its line LOW. `millis()` becomes a clock
argument of type `MegaPad.Millis`, a 32-bit value whose subtraction wraps as
`unsigned long` does.

Modules:

- `Bits` (bits.dfy): Arduino's `bitRead` / `bitWrite` on a byte.
- `Layout` (layout.dfy): the register, a decoded `Buttons` record, the
  packing `Encode` with its inverse `Decode`, and the word `read()` returns.
- `Pins` (pins.dfy): line snapshots.
- `MegaPad` (megapad.dfy): the state, the three read routines, type
  detection, the constructor, the two sampling gates and the public
  accessors. `Reported` is an independent reference for what a pad in each
  mode reports; the read routines are proved to pack exactly that.
- `Session` (session.dfy): sequences of public calls (`Run`), the
  invariants that hold over any sequence, two-call properties of the gates
  and the change flag, and concrete pads driven through the public calls.

Behaviour as coded, where the header comments say otherwise:

- src/MegaPad.h:8 describes an interrupt style where `update()` returns
  whether the buttons changed. `update()` returns the `interrupt` flag
  without clearing it, so after one change every poll reports a change
  (`Session.PollKeepsReportingChange`) until a data accessor runs or the
  caller writes `false` into the public `interrupt` field
  (`Session.PollAfterManualClear`).
- src/MegaPad.h:41 says only SMS mode is used when no Select pin is given.
  `type()` still re-runs detection, so with Left and Right held it reports
  MD3 (`Session.TypeIgnoresMissingSelectPin`).
- src/MegaPad.h:47 calls odd direction values two cardinals pressed. Up
  alone gives 1 (`Session.UpAndAOnSMSPad`), so no parity property is
  stated.
- src/MegaPad.h:52 says unused buttons are always cleared. They are clear
  right after a gated read (`Session.ReadClearsUnusedBits`). After `setMode`
  or `type()` changes the mode, a read inside the same 5 ms window still
  returns the old mode's bits (`Session.StaleBitsAfterSetMode`).

Modelling notes:

- The two timers are function-static, so all instances share them. The
  model has one instance, and its record carries the timers.
- `read(uint8_t)` does not check its index. The model requires `m < 2`.

## Model

| member | source | states |
|---|---|---|
| `Layout.Encode` | src/MegaPad.h:28 | each of the twelve buttons lands in its own bit of the `SCBARLDU` / `xxxxMZYX` layout and the top nibble of byte 1 is clear |
| `Layout.DecodeEncode` | src/MegaPad.h:28 | decoding a packed register returns every button as it was packed |
| `Layout.EncodeDecode` | src/MegaPad.h:28 | every register with a clear top nibble is the packing of its decoded buttons, so the layout loses nothing |
| `Layout.Word` | src/MegaPad.cpp:195 | the word's high byte is byte 1 and its low byte is byte 0 |
| `MegaPad.Reported` | src/MegaPad.h:52 | the buttons a pad reports in a mode never touch bits that mode does not use |
| `MegaPad.ReadSMS` | src/MegaPad.cpp:54-64 | the old register becomes the history; bits 0-3 hold inverted Up, Down, Left, Right, bits 5 and 6 the inverted A and B lines; bits 4 and 7 and byte 1 are zero; nothing else changes |
| `MegaPad.ReadMD` | src/MegaPad.cpp:66-74 | history as in the SMS read; every bit the SMS read wrote is kept; bits 4 and 7 hold the inverted A and B lines of the Select-low phase; byte 1 stays zero |
| `MegaPad.ReadMD6` | src/MegaPad.cpp:76-92 | byte 0 is exactly the three-button read's; byte 1 bits 0-3 hold inverted Left, Down, Up, Right of the extended phase and bits 4-7 are zero |
| `MegaPad.ReadSMSReports` | src/MegaPad.cpp:54-64 | the SMS read leaves exactly the packing of the SMS buttons the pad reports |
| `MegaPad.ReadMDReports` | src/MegaPad.cpp:66-74 | the three-button read leaves exactly the packing of the MD3 buttons |
| `MegaPad.ReadMD6Reports` | src/MegaPad.cpp:76-92 | the six-button read leaves exactly the packing of the MD6 buttons |
| `MegaPad.DetectType` | src/MegaPad.cpp:94-116 | the mode is SMS, MD3 or MD6; SMS whenever Left and Right are not both low after Select is asserted, whatever later reads show; MD6 exactly when that test and the four-line test both hold; only the mode changes |
| `MegaPad.Construct` | src/MegaPad.cpp:31-52 | the default Select pin gives SMS with MD modes disabled; any other pin enables them and takes the detected mode; flags start false and timers at 0 |
| `MegaPad.Elapsed` | src/MegaPad.cpp:134-135 | the elapsed time added to the last timestamp gives the current reading on the wrapping 32-bit clock, and is the plain difference when the clock has not wrapped |
| `MegaPad.Dispatch` | src/MegaPad.cpp:137-149 | in modes SMS to MD6 the selected routine packs exactly what the pad reports in that mode; any other mode reads nothing |
| `MegaPad.ReadPad` | src/MegaPad.cpp:129-155 | inside 5 ms nothing changes; otherwise the timestamp becomes now; in modes SMS to MD6 (a forced mode above MD6 leaves the register as it was) the history takes the old register and the register holds the reported buttons with unused bits clear; the flag is raised when register and history differ and otherwise kept; the flag is never lowered and the mode never changes |
| `MegaPad.Update` | src/MegaPad.cpp:157-169 | returns the flag without clearing it; inside 10 ms nothing changes; otherwise the timestamp becomes now and the state is what `ReadPad` leaves with the second clock value, so a gated read sets `lastPad` to that value; when both gates open in modes SMS to MD6, the flag reports a change exactly when it was already set or the fresh sample differs from the previous register |
| `MegaPad.ReadDirection` | src/MegaPad.cpp:171-177 | the value is below 16 and is the register's low nibble; after a gated read in modes SMS to MD6 (a forced mode above MD6 leaves the register as it was) it is 0 exactly when none of Up, Down, Left, Right read low; the flag is cleared |
| `MegaPad.ReadStart` | src/MegaPad.cpp:179-185 | the value is the decoded Start button; after a gated read it is the inverted B line of the Select-low phase in MD modes and false in SMS; the flag is cleared |
| `MegaPad.Read` | src/MegaPad.cpp:192-198 | the word is byte 1 above byte 0; after a gated read in modes SMS to MD6 (a forced mode above MD6 leaves the register as it was) it is the packing of the reported buttons; the flag is cleared |
| `MegaPad.ReadByte` | src/MegaPad.cpp:200-204 | byte 0 and byte 1 are the low and high bytes of the word `read()` would return; after a gated read in modes SMS to MD6 (a forced mode above MD6 leaves the register as it was) they are the reported packing; the flag is cleared |
| `MegaPad.Type` | src/MegaPad.cpp:187-190 | returns the freshly detected mode and only the mode changes: SMS without the Left-Right signature, MD6 exactly when both signatures show, MD3 exactly when only the Left-Right one does |
| `MegaPad.SetMode` | src/MegaPad.cpp:206-212 | without a Select pin nothing changes; otherwise the mode becomes `m` and is marked forced; nothing else changes |
| `Session.RunKeepsNoMD` | src/MegaPad.h:25 | no sequence of calls changes whether MD modes are disabled |
| `Session.ForcedModeStaysForced` | src/MegaPad.cpp:206-212 | once the mode is marked forced it stays marked over any sequence of calls |
| `Session.NoSelectPinStaysSMS` | src/MegaPad.h:41-45 | without a Select pin, any sequence of calls without `type()` keeps the mode SMS, whatever `setMode` is asked |
| `Session.ModeStaysKnown` | src/MegaPad.h:27 | as long as `setMode` is not called the mode stays SMS, MD3 or MD6 |
| `Session.ReadsKeepMode` | src/MegaPad.h:38 | reads and polls never change the mode or the forced marker |
| `Session.UnknownModeFreezesRegister` | src/MegaPad.cpp:137-153 | in a forced mode above MD6 no read, poll or accessor changes the register or the history |
| `Session.ReadClearsUnusedBits` | src/MegaPad.h:52 | right after a gated read, `read()` has mask 0xFF90 clear in SMS, the high byte clear in MD3 and the top nibble clear in MD6 |
| `Session.DirectionStableInWindow` | src/MegaPad.cpp:134-136 | a second `readDirection` less than 5 ms after a gated one returns the same nibble whatever the lines show |
| `Session.PollKeepsReportingChange` | src/MegaPad.cpp:163-168 | once a poll reports a change, the next poll reports one too |
| `Session.PollAfterManualClear` | src/MegaPad.h:43 | after the caller clears the public `interrupt` field, a poll reports a change exactly when both gates let a read through and it finds a change: in modes SMS to MD6 the new sample differs from the register, in a forced mode above MD6 the stale register differs from the stale history |
| `Session.PollAfterAccessor` | src/MegaPad.cpp:151-153 | after `read()` clears the flag, a poll reports a change exactly when both gates let a read through and it finds a change: in modes SMS to MD6 the new sample differs from the register, in a forced mode above MD6 the stale register differs from the stale history |
| `Session.DetectionScenarios` | src/MegaPad.cpp:94-116 | a six-button pad is MD6, without its extended signature MD3, without the Left-Right signature SMS even if the extended one is shown |
| `Session.UpAndAOnSMSPad` | src/MegaPad.h:47-48 | on an SMS pad with Up and the A line held, `readDirection` returns 1 and `read(0)` returns exactly bits 0 and 5 |
| `Session.TypeIgnoresMissingSelectPin` | src/MegaPad.cpp:187-190 | with no Select pin, `type()` still reports MD3 when Left and Right are held |
| `Session.StaleBitsAfterSetMode` | src/MegaPad.h:52 | an MD6 read with X held, then `setMode(SMS)`, then `read()` inside the window returns 0x100, a bit SMS does not use |

## Left out

- `pinMode`, `digitalWrite`, `digitalRead` and `delayMicroseconds`: replaced by line snapshots per Select phase; the 150 µs and 3000 µs settle times and the electrical multiplexing are not something a verifier can check. The order of the individual `digitalRead` calls within a phase (and the short-circuit that skips reading Right when Left is high) does not matter with snapshots.
- The pin numbers in `padPin`: they only address the GPIO; the model keeps only whether a Select pin was given.
- `millis()`: its value is an argument. `Update` takes two, because `update()` and the `readPad()` it calls each read the clock.
- Several instances sharing the function-static timers: the model has one instance.
- `readRaw`: dead code, its only call is commented out.
- The commented-out anomaly guards in `readMD` and `readMD6`: disabled, so `ignorePadCheck` has no effect on any read.
- `MegaPad.ReadByte`: requires `m < 2`, because `read(uint8_t)` reads past the array for any other index.
- `Layout.Word`: computed modulo 2^16; on an 8-bit AVR `padButtons[1] * 256` is a 16-bit signed `int` that would overflow for a byte 1 of 128 or more, which no read routine produces (only uninitialised contents could).
- The constructor's uninitialised `padButtons` and `padHistory`: their contents are arguments of `MegaPad.Construct`.
- Interrupt safety and concurrency: the library is single-threaded.
