/**
 * The running session: which screen is shown and the list of submitted
 * tasks. Each screen-changing action is a method of `Session` and requires
 * its screen, since that screen is the only place its button exists.
 * Recording, capturing and typing are methods of that screen's form object,
 * which `Session` does not own.
 */
module SampleTaskApp {
  import opened Numeric
  import opened TaskModels
  import opened NoiseGate
  import opened RecordingGate
  import opened TaskScreens
  import opened TaskStore

  datatype Screen = Start | NoiseTest | TaskSelection | TextReading | ImageDescription | PhotoCapture | TaskHistory

  /** The screens that have a Back action. */
  predicate HasBack(s: Screen)
  {
    s == Screen.TextReading || s == Screen.ImageDescription || s == Screen.PhotoCapture || s == Screen.TaskHistory
  }

  /** The screen on which tasks of a given type are recorded. */
  function ScreenOf(taskType: TaskType): (s: Screen)
    ensures HasBack(s) && s != Screen.TaskHistory
    ensures taskType == TaskType.TextReading <==> s == Screen.TextReading
    ensures taskType == TaskType.ImageDescription <==> s == Screen.ImageDescription
    ensures taskType == TaskType.PhotoCapture <==> s == Screen.PhotoCapture
  {
    match taskType
    case TextReading => Screen.TextReading
    case ImageDescription => Screen.ImageDescription
    case PhotoCapture => Screen.PhotoCapture
  }

  /** The screens that a screen-changing callback on `s` can show next,
      together with `NoiseTest` itself after a failed noise test. Actions
      that keep a task screen in place (recording, capturing, editing the
      description) are not edges here. */
  function Successors(s: Screen): (next: set<Screen>)
  {
    match s
    case Start => {Screen.NoiseTest}
    case NoiseTest => {Screen.NoiseTest, Screen.TaskSelection}
    case TaskSelection => {Screen.TextReading, Screen.ImageDescription, Screen.PhotoCapture, Screen.TaskHistory}
    case _ => {Screen.TaskSelection}
  }

  /** The shape of the navigation graph: no screen is a dead end, the start
      screen is never shown again, task selection is one step away from
      every other screen past the start screen, and a task or history
      screen is only reached from task selection. */
  lemma NavigationGraph(s: Screen, t: Screen)
    ensures Successors(s) != {}
    ensures Screen.Start !in Successors(s)
    ensures s != Screen.Start && s != Screen.TaskSelection ==> Screen.TaskSelection in Successors(s)
    ensures HasBack(t) && t in Successors(s) ==> s == Screen.TaskSelection
  {
  }

  /** All tasks in the list are as the task screens build them. */
  ghost predicate AllWellFormed(tasks: seq<Task>)
  {
    forall i :: 0 <= i < |tasks| ==> WellFormed(tasks[i])
  }

  /** The history screen's header: "Total Tasks" and "Total Duration". */
  function HistoryHeader(tasks: seq<Task>): (h: (int, Int32))
    ensures h.0 == |tasks|
    ensures h.1 == ToInt32(SumDurations(tasks))
  {
    (|tasks|, TotalDuration(tasks))
  }

  /** For a list built by the task screens, the shown total duration is the
      exact sum as long as the list holds at most 107374182 tasks. */
  lemma HistoryTotalIsExact(tasks: seq<Task>)
    requires AllWellFormed(tasks) && 20 * |tasks| <= INT_MAX
    ensures HistoryHeader(tasks).1 == SumDurations(tasks)
  {
    forall i | 0 <= i < |tasks|
      ensures 0 <= tasks[i].durationSec <= 20
    {
      assert WellFormed(tasks[i]);
    }
    TotalDurationExact(tasks);
  }

  class Session {
    var currentScreen: Screen
    var tasks: seq<Task>

    ghost predicate Valid()
      reads this
    {
      |tasks| <= MAX_LIST_SIZE && IdsSequential(tasks)
    }

    constructor ()
      ensures Valid()
      ensures currentScreen == Screen.Start && tasks == []
    {
      currentScreen := Screen.Start;
      tasks := [];
    }

    /** Append a copy of `t` renumbered after the list's current size. */
    method AddTask(t: Task)
      requires Valid() && |tasks| < MAX_LIST_SIZE
      modifies this
      ensures Valid()
      ensures tasks == Appended(old(tasks), t)
      ensures currentScreen == old(currentScreen)
    {
      tasks := tasks + [CopyWithId(t, |tasks| + 1)];
    }

    /** "Start Sample Task". */
    method OnStartClick()
      requires currentScreen == Screen.Start
      modifies this
      ensures currentScreen == Screen.NoiseTest && currentScreen in Successors(old(currentScreen))
      ensures tasks == old(tasks)
    {
      currentScreen := Screen.NoiseTest;
    }

    /** "Start Test" on the noise-test screen with the drawn `reading`. */
    method OnStartTest(panel: NoiseTestPanel, reading: int)
      requires currentScreen == Screen.NoiseTest
      requires MIN_READING <= reading < MAX_READING
      modifies this, panel
      ensures currentScreen == (if reading < THRESHOLD then Screen.TaskSelection else Screen.NoiseTest)
      ensures currentScreen in Successors(old(currentScreen))
      ensures panel.dB == reading && panel.message == NoiseMessage(reading)
      ensures tasks == old(tasks)
    {
      var passed := panel.StartTest(reading);
      if passed {
        currentScreen := Screen.TaskSelection;
      }
    }

    method OnTextReading()
      requires currentScreen == Screen.TaskSelection
      modifies this
      ensures currentScreen == Screen.TextReading && currentScreen in Successors(old(currentScreen))
      ensures tasks == old(tasks)
    {
      currentScreen := Screen.TextReading;
    }

    method OnImageDescription()
      requires currentScreen == Screen.TaskSelection
      modifies this
      ensures currentScreen == Screen.ImageDescription && currentScreen in Successors(old(currentScreen))
      ensures tasks == old(tasks)
    {
      currentScreen := Screen.ImageDescription;
    }

    method OnPhotoCapture()
      requires currentScreen == Screen.TaskSelection
      modifies this
      ensures currentScreen == Screen.PhotoCapture && currentScreen in Successors(old(currentScreen))
      ensures tasks == old(tasks)
    {
      currentScreen := Screen.PhotoCapture;
    }

    method OnHistory()
      requires currentScreen == Screen.TaskSelection
      modifies this
      ensures currentScreen == Screen.TaskHistory && currentScreen in Successors(old(currentScreen))
      ensures tasks == old(tasks)
    {
      currentScreen := Screen.TaskHistory;
    }

    /** "Back" on a task screen or the history screen: nothing is recorded. */
    method OnBack()
      requires HasBack(currentScreen)
      modifies this
      ensures currentScreen == Screen.TaskSelection && currentScreen in Successors(old(currentScreen))
      ensures tasks == old(tasks)
    {
      currentScreen := Screen.TaskSelection;
    }

    /** A task screen hands over a built task: it is appended first, then
        task selection is shown. */
    method OnSubmit(t: Task)
      requires Valid() && |tasks| < MAX_LIST_SIZE
      requires HasBack(currentScreen) && currentScreen != Screen.TaskHistory
      modifies this
      ensures Valid()
      ensures tasks == Appended(old(tasks), t)
      ensures currentScreen == Screen.TaskSelection && currentScreen in Successors(old(currentScreen))
    {
      AddTask(t);
      currentScreen := Screen.TaskSelection;
    }

    /** "Submit" on the Text Reading or Image Description screen: while the
        button is disabled nothing happens. */
    method SubmitAudioTask(form: AudioTaskScreen, timestamp: string)
      requires Valid() && |tasks| < MAX_LIST_SIZE
      requires form.Valid() && currentScreen == ScreenOf(form.taskType)
      modifies this
      ensures Valid()
      ensures if AudioSubmitEnabled(old(form.duration), old(form.audio)) then
          tasks == Appended(old(tasks), form.Submission(timestamp).value) &&
          currentScreen == Screen.TaskSelection &&
          SumDurations(tasks) == old(SumDurations(tasks)) + form.duration.value
        else
          tasks == old(tasks) && currentScreen == old(currentScreen)
      ensures AllWellFormed(old(tasks)) ==> AllWellFormed(tasks)
    {
      var submitted := form.Submission(timestamp);
      if submitted.Some? {
        AppendedSum(tasks, submitted.value);
        OnSubmit(submitted.value);
      }
    }

    /** "Submit" on the Photo Capture screen: while the button is disabled
        nothing happens; a photo task adds nothing to the total duration. */
    method SubmitPhotoTask(form: PhotoCaptureScreen, timestamp: string)
      requires Valid() && |tasks| < MAX_LIST_SIZE
      requires currentScreen == Screen.PhotoCapture
      modifies this
      ensures Valid()
      ensures if PhotoSubmitEnabled(form.path, form.text) then
          tasks == Appended(old(tasks), form.Submission(timestamp).value) &&
          currentScreen == Screen.TaskSelection &&
          SumDurations(tasks) == old(SumDurations(tasks))
        else
          tasks == old(tasks) && currentScreen == old(currentScreen)
      ensures AllWellFormed(old(tasks)) ==> AllWellFormed(tasks)
    {
      var submitted := form.Submission(timestamp);
      if submitted.Some? {
        AppendedSum(tasks, submitted.value);
        OnSubmit(submitted.value);
      }
    }
  }

  /** The sample run's first step: start, then a quiet noise test. */
  method SampleNoiseTest(session: Session)
    requires session.currentScreen == Screen.Start
    modifies session
    ensures session.currentScreen == Screen.TaskSelection && session.tasks == old(session.tasks)
  {
    session.OnStartClick();
    var panel := new NoiseTestPanel();
    session.OnStartTest(panel, 30);
  }

  /** The sample run's second step: a 15-second text reading, submitted. */
  method SampleReading(session: Session)
    requires session.Valid() && session.currentScreen == Screen.TaskSelection && session.tasks == []
    modifies session
    ensures session.Valid() && session.currentScreen == Screen.TaskSelection
    ensures |session.tasks| == 1 && session.tasks[0].id == 1 && session.tasks[0].durationSec == 15
    ensures AllWellFormed(session.tasks) && SumDurations(session.tasks) == 15
  {
    session.OnTextReading();
    var reading := new AudioTaskScreen(TaskType.TextReading);
    reading.PressRecord(1_000);
    assert HeldSeconds(1_000, 16_000) == 15 by {
      assert Quot(15_000, 1000) == 15;
    }
    reading.ReleaseRecord(16_000, 16_005);
    assert reading.duration == Some(15);
    session.SubmitAudioTask(reading, "2024-01-01T10:00:00");
  }

  /** The sample run's third step: a photo whose Submit stays disabled until
      the description is filled in. */
  method SamplePhoto(session: Session)
    requires session.Valid() && session.currentScreen == Screen.TaskSelection
    requires |session.tasks| == 1 && AllWellFormed(session.tasks)
    modifies session
    ensures session.Valid() && session.currentScreen == Screen.TaskSelection
    ensures |session.tasks| == 2 && session.tasks[0] == old(session.tasks[0])
    ensures session.tasks[1].id == 2 && session.tasks[1].durationSec == 0
    ensures AllWellFormed(session.tasks) && SumDurations(session.tasks) == old(SumDurations(session.tasks))
  {
    session.OnPhotoCapture();
    var photo := new PhotoCaptureScreen();
    photo.OnCaptureResult(Some("/files/photo_1.jpg"));
    session.SubmitPhotoTask(photo, "2024-01-01T10:01:00");
    assert session.currentScreen == Screen.PhotoCapture && |session.tasks| == 1;
    photo.OnTextChange("A red mug");
    session.SubmitPhotoTask(photo, "2024-01-01T10:02:00");
  }

  /** One pass through the app: a quiet noise test, a 15-second reading,
      a photo whose description is first left empty, then the history. */
  method SampleRun() returns (count: int, totalSec: Int32, ids: seq<Int64>)
    ensures count == 2 && totalSec == 15
    ensures ids == [1, 2]
  {
    var session := new Session();
    SampleNoiseTest(session);
    SampleReading(session);
    SamplePhoto(session);
    session.OnHistory();
    HistoryTotalIsExact(session.tasks);
    count, totalSec := HistoryHeader(session.tasks).0, HistoryHeader(session.tasks).1;
    ids := [session.tasks[0].id, session.tasks[1].id];
  }
}
