/**
 * The hold-to-record button. Pressing it starts a (simulated) recording and
 * notes the time; releasing it measures how long it was held, in whole
 * seconds, and accepts the recording only when that is from 10 to 20
 * seconds inclusive. An accepted recording is handed on as its duration and
 * a local audio file path named after the time of acceptance.
 */
module RecordingGate {
  import opened Numeric
  import opened TaskModels

  /** A reading of the millisecond wall clock: a non-negative `Long`. */
  type Millis = x: int | 0 <= x <= LONG_MAX

  const MIN_DURATION_SEC: int := 10
  const MAX_DURATION_SEC: int := 20

  const TOO_SHORT: string := "Recording too short (min 10s)"
  const TOO_LONG: string := "Recording too long (max 20s)"

  /** Holds longer than this many milliseconds, in either direction of the
      clock, no longer fit in an `Int` once divided into seconds. */
  const INT_SECONDS_AS_MILLIS: int := 1000 * 0x8000_0000

  datatype Verdict = TooShort | TooLong | Accepted

  /** What an accepted recording hands to the task screen. */
  datatype Recording = Recording(durationSec: Int32, audioPath: string)

  /** The whole seconds between pressing and releasing: the difference of
      two clock readings (which fits in a `Long`) divided by 1000, truncating
      towards zero, with only the low 32 bits of the quotient kept. */
  function HeldSeconds(startTime: Millis, now: Millis): (d: Int32)
    ensures 0 <= now - startTime < INT_SECONDS_AS_MILLIS ==>
      d * 1000 <= now - startTime < d * 1000 + 1000
    ensures -INT_SECONDS_AS_MILLIS < now - startTime < 0 ==>
      d <= 0 && d * 1000 - 1000 < now - startTime <= d * 1000
  {
    ToInt32(Quot(now - startTime, 1000))
  }

  function Classify(d: int): (v: Verdict)
    ensures v == TooShort <==> d < MIN_DURATION_SEC
    ensures v == TooLong <==> d > MAX_DURATION_SEC
    ensures v == Accepted <==> MIN_DURATION_SEC <= d <= MAX_DURATION_SEC
  {
    if d < MIN_DURATION_SEC then TooShort
    else if d > MAX_DURATION_SEC then TooLong
    else Accepted
  }

  /** The path given to an accepted recording, named after a clock reading. */
  function AudioPath(now: Millis): (p: string)
    ensures |p| > 17 && p[..13] == "/local/audio_" && p[|p| - 4..] == ".mp3"
    ensures p[13..|p| - 4] == Decimal(now)
  {
    "/local/audio_" + Decimal(now) + ".mp3"
  }

  /** Recordings accepted at different milliseconds get different paths. */
  lemma AudioPathsDistinct(a: Millis, b: Millis)
    requires a != b
    ensures AudioPath(a) != AudioPath(b)
  {
    if AudioPath(a) == AudioPath(b) {
      var pa, pb := AudioPath(a), AudioPath(b);
      assert pa[13..|pa| - 4] == Decimal(a);
      assert pb[13..|pb| - 4] == Decimal(b);
      DecimalInjective(a, b);
      assert false;
    }
  }

  /** Whether a hold is accepted depends only on the milliseconds it lasted:
      holds of 10000 to 20999 ms are accepted, shorter ones (and any clock
      step backwards) are too short, longer ones too long. The bound only
      rules out holds of more than 68 years. */
  lemma VerdictByElapsedMillis(startTime: Millis, now: Millis)
    requires -INT_SECONDS_AS_MILLIS < now - startTime < INT_SECONDS_AS_MILLIS
    ensures Classify(HeldSeconds(startTime, now)) == Accepted <==> 10_000 <= now - startTime < 21_000
    ensures Classify(HeldSeconds(startTime, now)) == TooShort <==> now - startTime < 10_000
    ensures Classify(HeldSeconds(startTime, now)) == TooLong <==> 21_000 <= now - startTime
  {
  }

  /** The button's own state. `errorMessage` is only ever overwritten by a
      failed recording: neither a new press nor an accepted recording clears
      it. */
  class HoldToRecordButton {
    var isRecording: bool
    var startTime: Millis
    var errorMessage: string

    constructor ()
      ensures !isRecording && startTime == 0 && errorMessage == ""
    {
      isRecording := false;
      startTime := 0;
      errorMessage := "";
    }

    /** The finger goes down at clock reading `now`. */
    method Press(now: Millis)
      modifies this
      ensures isRecording && startTime == now
      ensures errorMessage == old(errorMessage)
    {
      isRecording := true;
      startTime := now;
    }

    /** The finger comes up at clock reading `now`; `pathTime` is the clock
        reading taken when an accepted recording is named. The result is
        `Some` exactly when the valid-recording callback fires. */
    method Release(now: Millis, pathTime: Millis) returns (recording: Option<Recording>)
      requires isRecording
      modifies this
      ensures !isRecording && startTime == old(startTime)
      ensures var d := HeldSeconds(startTime, now);
        match Classify(d)
        case Accepted => recording == Some(Recording(d, AudioPath(pathTime))) && errorMessage == old(errorMessage)
        case TooShort => recording == None && errorMessage == TOO_SHORT
        case TooLong => recording == None && errorMessage == TOO_LONG
      ensures recording.Some? ==> MIN_DURATION_SEC <= recording.value.durationSec <= MAX_DURATION_SEC
    {
      isRecording := false;
      var duration := HeldSeconds(startTime, now);
      if duration < MIN_DURATION_SEC {
        errorMessage := TOO_SHORT;
        recording := None;
      } else if duration > MAX_DURATION_SEC {
        errorMessage := TOO_LONG;
        recording := None;
      } else {
        recording := Some(Recording(duration, AudioPath(pathTime)));
      }
    }
  }
}
