/**
 * The three task screens. Each keeps its own form state and builds a `Task`
 * (with placeholder identifier 0) when its Submit button is pressed; the
 * button is enabled only while the fields the task needs are present.
 * Text Reading and Image Description record audio through a hold-to-record
 * button; Photo Capture takes a picture and a written description.
 */
module TaskScreens {
  import opened Numeric
  import opened TaskModels
  import opened RecordingGate

  /** The passage shown on the Text Reading screen. */
  const READING_PROMPT: string := "Read this passage aloud in your native language."

  /** The image shown on the Image Description screen. */
  const IMAGE_URL: string := "https://cdn.dummyjson.com/product-images/14/2.jpg"

  /** Submit is enabled on an audio task screen once a recording was
      accepted; then the task built needs no null check to succeed. */
  function AudioSubmitEnabled(duration: Option<Int32>, audio: Option<string>): (e: bool)
    ensures e ==> duration.Some? && audio.Some?
    ensures duration == None ==> !e
  {
    duration.Some? && audio.Some?
  }

  /** Submit is enabled on the photo screen once a photo was saved and the
      description is not empty. */
  function PhotoSubmitEnabled(path: Option<string>, text: string): (e: bool)
    ensures e ==> path.Some? && |text| > 0
    ensures text == "" ==> !e
  {
    path.Some? && text != ""
  }

  /** What a task of each type carries when one of these screens built it. */
  ghost predicate WellFormed(t: Task)
  {
    match t.taskType
    case TextReading =>
      t.text == Some(READING_PROMPT) && t.imageUrl == None && t.imagePath == None &&
      t.audioPath.Some? && MIN_DURATION_SEC <= t.durationSec <= MAX_DURATION_SEC
    case ImageDescription =>
      t.text == None && t.imageUrl == Some(IMAGE_URL) && t.imagePath == None &&
      t.audioPath.Some? && MIN_DURATION_SEC <= t.durationSec <= MAX_DURATION_SEC
    case PhotoCapture =>
      t.text.Some? && t.text.value != "" && t.imageUrl == None && t.imagePath.Some? &&
      t.audioPath == None && t.durationSec == 0
  }

  /** The form state of the Text Reading or Image Description screen, with
      its hold-to-record button. */
  class AudioTaskScreen {
    const taskType: TaskType
    const recorder: HoldToRecordButton
    var duration: Option<Int32>
    var audio: Option<string>

    /** The two fields are only ever set together, from an accepted recording. */
    ghost predicate Valid()
      reads this
    {
      taskType != PhotoCapture &&
      (duration.Some? <==> audio.Some?) &&
      (duration.Some? ==> MIN_DURATION_SEC <= duration.value <= MAX_DURATION_SEC)
    }

    constructor (taskType: TaskType)
      requires taskType != PhotoCapture
      ensures Valid() && fresh(recorder)
      ensures this.taskType == taskType && duration == None && audio == None
      ensures !recorder.isRecording && recorder.errorMessage == ""
    {
      this.taskType := taskType;
      recorder := new HoldToRecordButton();
      duration := None;
      audio := None;
    }

    method PressRecord(now: Millis)
      modifies recorder
      ensures recorder.isRecording && recorder.startTime == now
      ensures recorder.errorMessage == old(recorder.errorMessage)
    {
      recorder.Press(now);
    }

    /** Releasing the button; an accepted recording replaces both fields,
        a rejected one leaves them as they were. */
    method ReleaseRecord(now: Millis, pathTime: Millis)
      requires Valid() && recorder.isRecording
      modifies this, recorder
      ensures Valid() && !recorder.isRecording
      ensures recorder.startTime == old(recorder.startTime)
      ensures var d := HeldSeconds(old(recorder.startTime), now);
        match Classify(d)
        case Accepted =>
          duration == Some(d) && audio == Some(AudioPath(pathTime)) &&
          recorder.errorMessage == old(recorder.errorMessage)
        case TooShort =>
          duration == old(duration) && audio == old(audio) && recorder.errorMessage == TOO_SHORT
        case TooLong =>
          duration == old(duration) && audio == old(audio) && recorder.errorMessage == TOO_LONG
    {
      var recording := recorder.Release(now, pathTime);
      if recording.Some? {
        duration := Some(recording.value.durationSec);
        audio := Some(recording.value.audioPath);
      }
    }

    /** What pressing Submit hands on, or `None` while Submit is disabled. */
    function Submission(timestamp: string): (r: Option<Task>)
      requires Valid()
      reads this
      ensures r.Some? <==> AudioSubmitEnabled(duration, audio)
      ensures r.Some? ==> WellFormed(r.value)
      ensures r.Some? ==>
        r.value.id == 0 && r.value.taskType == taskType && r.value.timestamp == timestamp &&
        Some(r.value.durationSec) == duration && r.value.audioPath == audio
    {
      if !AudioSubmitEnabled(duration, audio) then None
      else if taskType == TextReading then
        Some(NewTask(0, TextReading, duration.value, timestamp,
                     text := Some(READING_PROMPT), audioPath := audio))
      else
        Some(NewTask(0, ImageDescription, duration.value, timestamp,
                     imageUrl := Some(IMAGE_URL), audioPath := audio))
    }
  }

  /** The form state of the Photo Capture screen. */
  class PhotoCaptureScreen {
    var path: Option<string>
    var text: string

    constructor ()
      ensures path == None && text == ""
    {
      path := None;
      text := "";
    }

    /** The camera returned: `Some` with the path the photo was saved to,
        or `None` when the capture was cancelled, which changes nothing. */
    method OnCaptureResult(saved: Option<string>)
      modifies this
      ensures path == (if saved.Some? then saved else old(path))
      ensures text == old(text)
    {
      if saved.Some? {
        path := saved;
      }
    }

    /** The description field was edited. */
    method OnTextChange(newText: string)
      modifies this
      ensures text == newText && path == old(path)
    {
      text := newText;
    }

    /** What pressing Submit hands on, or `None` while Submit is disabled;
        in particular an empty description can never be submitted. */
    function Submission(timestamp: string): (r: Option<Task>)
      reads this
      ensures r.Some? <==> PhotoSubmitEnabled(path, text)
      ensures r.Some? ==> WellFormed(r.value)
      ensures r.Some? ==>
        r.value.id == 0 && r.value.taskType == PhotoCapture && r.value.timestamp == timestamp &&
        r.value.text == Some(text) && r.value.imagePath == path && r.value.durationSec == 0
      ensures text == "" ==> r == None
    {
      if !PhotoSubmitEnabled(path, text) then None
      else Some(NewTask(0, PhotoCapture, 0, timestamp, text := Some(text), imagePath := path))
    }
  }
}
