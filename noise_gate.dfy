/**
 * The noise test: a (simulated) ambient-noise reading in decibels must be
 * below a threshold before the user may go on to choose a task.
 */
module NoiseGate {

  /** The reading is drawn from `MIN_READING` (inclusive) to `MAX_READING`
      (exclusive). */
  const MIN_READING: int := 25
  const MAX_READING: int := 55

  /** Readings strictly below this many decibels pass. */
  const THRESHOLD: int := 40

  const GOOD_TO_PROCEED: string := "Good to proceed!"
  const MOVE_TO_QUIETER_PLACE: string := "Please move to a quieter place"

  /** The message shown after a test; it agrees with the gate's verdict. */
  function NoiseMessage(dB: int): (m: string)
    ensures m == GOOD_TO_PROCEED <==> dB < THRESHOLD
    ensures m == MOVE_TO_QUIETER_PLACE <==> dB >= THRESHOLD
  {
    if dB < THRESHOLD then GOOD_TO_PROCEED else MOVE_TO_QUIETER_PLACE
  }

  /** Whether the test lets the user go on: exactly when the message shown
      is the success message. */
  function NoisePasses(dB: int): (p: bool)
    ensures p <==> NoiseMessage(dB) == GOOD_TO_PROCEED
    ensures p <==> NoiseMessage(dB) != MOVE_TO_QUIETER_PLACE
  {
    dB < THRESHOLD
  }

  /** The noise-test screen's own state: the last reading and message. */
  class NoiseTestPanel {
    var dB: int
    var message: string

    constructor ()
      ensures dB == 0 && message == ""
    {
      dB := 0;
      message := "";
    }

    /** "Start Test": take a reading, show it with its message, and report
        whether the screen may hand over to task selection. */
    method StartTest(reading: int) returns (passed: bool)
      requires MIN_READING <= reading < MAX_READING
      modifies this
      ensures dB == reading
      ensures message == NoiseMessage(reading)
      ensures passed <==> reading < THRESHOLD
      ensures passed <==> message == GOOD_TO_PROCEED
    {
      dB := reading;
      message := NoiseMessage(dB);
      passed := NoisePasses(dB);
    }
  }
}
