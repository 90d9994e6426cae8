/** The levels the controller presents on its six input lines. All six
    inputs have pull-ups, so a released button reads HIGH and a pressed one
    pulls its line LOW. A level here is `true` for HIGH. */
module Pins {

  /** One snapshot of Up, Down, Left, Right and the two button lines. */
  datatype Lines = Lines(up: bool, down: bool, left: bool, right: bool, a: bool, b: bool)

  /** Nothing pulled low: an idle pad, or no pad at all. */
  const Idle := Lines(true, true, true, true, true, true)

  /** What one hardware read samples, one snapshot per Select phase:
      `high` with Select high (first report), `low` with Select low
      (second report) and `extended` after the further Select toggles that
      put a six-button pad into its extended report. */
  datatype ReadPhases = ReadPhases(high: Lines, low: Lines, extended: Lines)

  /** What type detection samples: `asserted` right after Select is first
      driven low, `toggled` after the four-edge toggle sequence. */
  datatype DetectPhases = DetectPhases(asserted: Lines, toggled: Lines)
}
