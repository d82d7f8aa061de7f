# Sample Task App: a verified model of its session logic

The Sample Task App is an Android demonstration app. It walks a user through
short practice tasks and keeps what they submit in an in-memory list:

- reading a passage aloud;
- describing an image aloud;
- taking a photo and describing it in writing.

This project models the app's session logic in Dafny:

- **Navigation.** Seven screens: Start, NoiseTest, TaskSelection, the three task
  screens and TaskHistory. Each screen-changing action is a method of `Session`
  and requires its screen, because that screen is the only place its button
  exists. Recording, capturing and typing are methods of that screen's form
  object, which `Session` does not own.
- **Noise gate.** The noise test passes iff the reading is below 40 dB. The
  reading is drawn from 25 to 54. The message shown always agrees with the
  verdict.
- **Recording gate.** The hold-to-record button measures the hold in whole
  seconds. For holds and backward clock steps shorter than 2^31 s (about 68
  years), it accepts holds of 10 to 20 seconds inclusive, which is 10000 to
  20999 ms; longer ones wrap through `toInt()`. On an accepted hold it hands on the duration and an audio path
  named after the clock. Different clock readings give different paths.
- **Submit guards.** Each task screen builds a `Task` only while its Submit
  button is enabled:
  - an audio task needs an accepted recording;
  - a photo task needs a saved photo and a non-empty description.

  A task built this way is well formed for its type.
- **Task list.** It only grows. Each appended task is a copy of the submitted
  one with `id = size + 1`. After N submissions from an empty list, the ids are
  1..N, and each task is the submitted one in every other field.
- **History totals.** The history screen shows a count and a total duration.
  The count is the list length. The total is the sum of the durations reduced
  to 32 bits. That total is exact for any list the screens can build with at
  most 107374182 tasks. A photo task adds nothing to it.

Kotlin's integer semantics are written out in `numeric.dfy` wherever the app
relies on them:

- `Long` division truncates towards zero;
- `Long.toInt()` keeps the low 32 bits;
- `Int` addition in `sumOf` wraps around;
- a `Long` in a string template is rendered in decimal.

Three behaviours of the code are easy to misread; the model follows the code
in each:

- **The recorder's error message is never cleared.** A new press does not
  clear it, and neither does an accepted recording.
  `HoldToRecordButton.Release` keeps the old message on success.
- **Negative durations truncate rather than floor.** The duration is a
  truncating division. It differs from a floor only when the clock steps
  backwards. For backward steps shorter than 2^31 s (about 68 years) such a
  hold is "too short" either way; longer ones wrap through `toInt()`.
- **The total duration wraps at 32 bits.** It is an `Int` sum, not an exact
  sum.

Files:

| file | contents |
|---|---|
| numeric.dfy | Kotlin `Int`/`Long` semantics |
| task_models.dfy | `TaskType` and the immutable `Task` record |
| noise_gate.dfy | the noise threshold and the noise-test screen's state |
| recording_gate.dfy | the duration check and the hold-to-record button |
| task_screens.dfy | the three task screens' form state and Submit guards |
| task_store.dfy | appending to the task list; the history totals |
| sample_task_app.dfy | the screens, the session and a sample run |

## Model

| member | source | states |
|---|---|---|
| Numeric.Quot | app/src/main/java/com/example/sampletaskapp/MainActivity.kt:193 | `Long` division truncates towards zero. The remainder has the dividend's sign and is smaller than the divisor. |
| Numeric.ToInt32 | app/src/main/java/com/example/sampletaskapp/MainActivity.kt:193 | `toInt()` gives an `Int` congruent to its argument modulo 2^32. It is the identity on values already in `Int` range. |
| Numeric.AddInt | app/src/main/java/com/example/sampletaskapp/MainActivity.kt:375 | `Int + Int`, as used by `sumOf`, gives the exact sum when it fits in an `Int`. Otherwise it gives the sum shifted by 2^32 in the overflowing direction, always congruent to the exact sum. |
| Numeric.Decimal | app/src/main/java/com/example/sampletaskapp/MainActivity.kt:197 | A non-negative `Long` in a string template renders as a non-empty string of decimal digits. It has one digit exactly when the value is below 10. |
| Numeric.DecimalInjective | app/src/main/java/com/example/sampletaskapp/MainActivity.kt:197 | Different numbers render as different digit strings. |
| TaskModels.NewTask | app/src/main/java/com/example/sampletaskapp/TaskModels.kt:11-20 | The record constructor puts each argument in its field. The required parameters have no default; the optional strings default to null, which `OptionalFieldsDefaultToNull` states. |
| TaskModels.OptionalFieldsDefaultToNull | app/src/main/java/com/example/sampletaskapp/TaskModels.kt:11-20 | Building a task without the optional arguments leaves `text`, `imageUrl`, `imagePath` and `audioPath` null. The four required fields are the ones supplied. |
| TaskModels.CopyWithId | app/src/main/java/com/example/sampletaskapp/MainActivity.kt:77 | `copy(id = …)` gives the new id. Putting the old id back gives the original record, so every other field is unchanged. |
| TaskModels.CopyChangesOnlyId | app/src/main/java/com/example/sampletaskapp/TaskModels.kt:11-20 | A copy equals its original iff the id is the same. Copying back with the old id restores the original. |
| NoiseGate.NoiseMessage | app/src/main/java/com/example/sampletaskapp/MainActivity.kt:144 | The message is "Good to proceed!" iff dB < 40. It is "Please move to a quieter place" iff dB >= 40. |
| NoiseGate.NoisePasses | app/src/main/java/com/example/sampletaskapp/MainActivity.kt:144-145 | The gate lets the user on exactly when the message shown is "Good to proceed!", and never together with "Please move to a quieter place". The threshold itself (dB < 40) is stated by `NoiseMessage` and `NoiseTestPanel.StartTest`. |
| NoiseGate.NoiseTestPanel.constructor | app/src/main/java/com/example/sampletaskapp/MainActivity.kt:130-131 | The noise screen starts with reading 0 and an empty message. |
| NoiseGate.NoiseTestPanel.StartTest | app/src/main/java/com/example/sampletaskapp/MainActivity.kt:142-146 | For a reading in [25, 55), the screen shows that reading and its message. It reports a pass iff reading < 40, which is also iff the message is the success message. |
| RecordingGate.HeldSeconds | app/src/main/java/com/example/sampletaskapp/MainActivity.kt:193 | For a forward hold under 2^31 seconds, the duration is the elapsed milliseconds divided by 1000, rounded down. A backward clock step shorter than 2^31 seconds gives a duration of 0 or less, truncated towards zero. Longer holds and steps wrap through `toInt()`. |
| RecordingGate.Classify | app/src/main/java/com/example/sampletaskapp/MainActivity.kt:194-198 | The verdict is too short iff d < 10, too long iff d > 20, and accepted iff 10 <= d <= 20. |
| RecordingGate.AudioPath | app/src/main/java/com/example/sampletaskapp/MainActivity.kt:197 | The path is "/local/audio_", then exactly `Decimal` of the clock reading, then ".mp3". |
| RecordingGate.AudioPathsDistinct | app/src/main/java/com/example/sampletaskapp/MainActivity.kt:197 | Recordings accepted at different milliseconds get different audio paths. |
| RecordingGate.VerdictByElapsedMillis | app/src/main/java/com/example/sampletaskapp/MainActivity.kt:190-198 | For holds and backward clock steps shorter than 2^31 s (about 68 years), a hold is accepted iff it lasted 10000 to 20999 ms. It is too short iff it lasted under 10000 ms, which includes a backward clock step. It is too long iff it lasted 21000 ms or more. Longer ones wrap through `toInt()`. |
| RecordingGate.HoldToRecordButton.constructor | app/src/main/java/com/example/sampletaskapp/MainActivity.kt:178-180 | The button starts with no recording, start time 0 and no error message. |
| RecordingGate.HoldToRecordButton.Press | app/src/main/java/com/example/sampletaskapp/MainActivity.kt:188-190 | A press sets recording on and notes the start time. It leaves the error message as it was. |
| RecordingGate.HoldToRecordButton.Release | app/src/main/java/com/example/sampletaskapp/MainActivity.kt:191-198 | A release sets recording off. A too-short or too-long hold sets the matching error message and fires no callback. An accepted hold hands on `(duration, path)` with the duration in 10..20 and leaves the error message as it was. |
| TaskScreens.AudioSubmitEnabled | app/src/main/java/com/example/sampletaskapp/MainActivity.kt:237 | When the audio screens' Submit is enabled (also line 275), both the duration and the audio path are present, so `duration!!` cannot fail. With no duration it is disabled. `AudioTaskScreen.Submission` states the full iff. |
| TaskScreens.PhotoSubmitEnabled | app/src/main/java/com/example/sampletaskapp/MainActivity.kt:351 | When the photo Submit is enabled, a path is present and the text is non-empty. With empty text it is disabled. `PhotoCaptureScreen.Submission` states the full iff. |
| TaskScreens.AudioTaskScreen.constructor | app/src/main/java/com/example/sampletaskapp/MainActivity.kt:215-216 | An audio task screen starts with no duration, no audio and a fresh, idle recorder. |
| TaskScreens.AudioTaskScreen.PressRecord | app/src/main/java/com/example/sampletaskapp/MainActivity.kt:228 | Pressing the screen's record button starts its recorder. |
| TaskScreens.AudioTaskScreen.ReleaseRecord | app/src/main/java/com/example/sampletaskapp/MainActivity.kt:228 | An accepted recording sets both `duration` and `audio` and leaves the recorder's error message as it was. A too-short or too-long hold leaves both fields unchanged and sets the recorder's message to the matching error, which the screen shows (lines 195-196, 206). The recorder's start time is kept and recording is off. Both fields stay set or unset together, with the duration in 10..20. |
| TaskScreens.AudioTaskScreen.Submission | app/src/main/java/com/example/sampletaskapp/MainActivity.kt:236-246 | Submit yields a task iff both duration and audio are present. That task has id 0, the screen's type, the recorded duration, the audio path and the timestamp. It is well formed: the Text Reading prompt, or the Image Description URL (lines 274-285). |
| TaskScreens.PhotoCaptureScreen.constructor | app/src/main/java/com/example/sampletaskapp/MainActivity.kt:294-296 | The photo screen starts with no path and empty text. |
| TaskScreens.PhotoCaptureScreen.OnCaptureResult | app/src/main/java/com/example/sampletaskapp/MainActivity.kt:299-306 | A returned photo sets the path. A cancelled capture changes nothing. |
| TaskScreens.PhotoCaptureScreen.OnTextChange | app/src/main/java/com/example/sampletaskapp/MainActivity.kt:347 | Editing the description replaces the text and keeps the path. |
| TaskScreens.PhotoCaptureScreen.Submission | app/src/main/java/com/example/sampletaskapp/MainActivity.kt:350-363 | Submit yields a task iff a path is present and the text is non-empty, so empty text never yields one. The task is a photo task with that text and path, duration 0 and id 0. |
| TaskStore.Appended | app/src/main/java/com/example/sampletaskapp/MainActivity.kt:76-78 | Appending grows the list by one and keeps every earlier element. The new last element has id = old size + 1 and equals the submitted task apart from the id. It preserves "ids run 1..N". |
| TaskStore.SubmitAllShape | app/src/main/java/com/example/sampletaskapp/MainActivity.kt:74-78 | After any sequence of submissions, the list keeps its old prefix. The i-th new element is the i-th submitted task renumbered to old size + i + 1. |
| TaskStore.SubmitAllFromEmpty | app/src/main/java/com/example/sampletaskapp/MainActivity.kt:74-78 | From the empty list, N submissions give N tasks. The task at 1-based position i has id i and matches the i-th submitted task in every other field. |
| TaskStore.TotalDuration | app/src/main/java/com/example/sampletaskapp/MainActivity.kt:375 | `sumOf` adds the durations in list order into a wrapping `Int`. Its contract, proved by induction, says the total is the exact sum of durations (`SumDurations`) reduced to 32 bits. |
| TaskStore.SumDurationsBounded | app/src/main/java/com/example/sampletaskapp/MainActivity.kt:375 | If every duration is in 0..20, the exact sum lies between 0 and 20 times the count. |
| TaskStore.TotalDurationExact | app/src/main/java/com/example/sampletaskapp/MainActivity.kt:375 | If every duration is in 0..20 and 20 × count fits in an `Int`, the shown total equals the exact sum. |
| TaskStore.AppendedSum | app/src/main/java/com/example/sampletaskapp/MainActivity.kt:76-78 | Appending adds exactly the task's duration to the sum, so a task with duration 0 adds nothing. |
| SampleTaskApp.ScreenOf | app/src/main/java/com/example/sampletaskapp/MainActivity.kt:89-100 | Each task type has its own task screen. The correspondence is one-to-one and never the history screen. |
| SampleTaskApp.NavigationGraph | app/src/main/java/com/example/sampletaskapp/MainActivity.kt:80-105 | No screen is a dead end, and Start is never re-entered. Task selection is one step from every screen other than Start and itself. Task and history screens are entered only from task selection. |
| SampleTaskApp.HistoryHeader | app/src/main/java/com/example/sampletaskapp/MainActivity.kt:374-375 | The history header shows the list length and the 32-bit reduction of the sum of durations. |
| SampleTaskApp.HistoryTotalIsExact | app/src/main/java/com/example/sampletaskapp/MainActivity.kt:374-375 | For a list of well-formed tasks with at most 107374182 entries, the shown total is the exact sum. |
| SampleTaskApp.Session.constructor | app/src/main/java/com/example/sampletaskapp/MainActivity.kt:73-74 | A session starts on the Start screen with an empty list. |
| SampleTaskApp.Session.AddTask | app/src/main/java/com/example/sampletaskapp/MainActivity.kt:76-78 | The list becomes `Appended(old list, t)` and the screen does not change. "Ids run 1..N" is kept. |
| SampleTaskApp.Session.OnStartClick | app/src/main/java/com/example/sampletaskapp/MainActivity.kt:81 | Start goes to NoiseTest and leaves the list alone. |
| SampleTaskApp.Session.OnStartTest | app/src/main/java/com/example/sampletaskapp/MainActivity.kt:82 | The screen becomes TaskSelection iff the reading is below 40; otherwise it stays on NoiseTest. The panel shows the reading and its message, and the list is unchanged. |
| SampleTaskApp.Session.OnTextReading | app/src/main/java/com/example/sampletaskapp/MainActivity.kt:84 | Task selection goes to TextReading and leaves the list unchanged. |
| SampleTaskApp.Session.OnImageDescription | app/src/main/java/com/example/sampletaskapp/MainActivity.kt:85 | Task selection goes to ImageDescription and leaves the list unchanged. |
| SampleTaskApp.Session.OnPhotoCapture | app/src/main/java/com/example/sampletaskapp/MainActivity.kt:86 | Task selection goes to PhotoCapture and leaves the list unchanged. |
| SampleTaskApp.Session.OnHistory | app/src/main/java/com/example/sampletaskapp/MainActivity.kt:87 | Task selection goes to TaskHistory and leaves the list unchanged. |
| SampleTaskApp.Session.OnBack | app/src/main/java/com/example/sampletaskapp/MainActivity.kt:89-104 | Back from any task or history screen goes to TaskSelection and leaves the list unchanged. |
| SampleTaskApp.Session.OnSubmit | app/src/main/java/com/example/sampletaskapp/MainActivity.kt:90 | A submitted task is appended first, as `Appended`, and then TaskSelection is shown (also at lines 94 and 98). |
| SampleTaskApp.Session.SubmitAudioTask | app/src/main/java/com/example/sampletaskapp/MainActivity.kt:236-246 | With Submit enabled, the screen's task is appended, the total grows by its duration and TaskSelection is shown. With Submit disabled, nothing changes. A list of well-formed tasks stays well formed. |
| SampleTaskApp.Session.SubmitPhotoTask | app/src/main/java/com/example/sampletaskapp/MainActivity.kt:350-363 | With Submit enabled, the photo task is appended, the total is unchanged and TaskSelection is shown. With Submit disabled (no photo or empty text), nothing changes. A list of well-formed tasks stays well formed. |
| SampleTaskApp.SampleNoiseTest | app/src/main/java/com/example/sampletaskapp/MainActivity.kt:81-82 | Start followed by a noise test reading 30 dB leads to task selection with the list unchanged. |
| SampleTaskApp.SampleReading | app/src/main/java/com/example/sampletaskapp/MainActivity.kt:212-248 | A hold from 1000 ms to 16000 ms on the Text Reading screen, then Submit, stores one well-formed task with id 1 and duration 15, and returns to task selection. |
| SampleTaskApp.SamplePhoto | app/src/main/java/com/example/sampletaskapp/MainActivity.kt:291-365 | A captured photo with an empty description cannot be submitted. After the description is typed, Submit stores a second task with id 2 and duration 0, keeps the first task and leaves the sum unchanged. |
| SampleTaskApp.SampleRun | app/src/main/java/com/example/sampletaskapp/MainActivity.kt:72-105 | The session runs through a passed noise test, a 15-second reading, a photo first blocked by empty text and then submitted, and the history. The history then shows 2 tasks and 15 seconds, and the ids of the listed tasks are 1 and 2 (line 382). |

## Left out

- **Compose rendering and layout.** Columns, buttons, the progress bar, the
  history's item list and `MainActivity.onCreate` are presentation only.
- **The camera, the permission check and the JPEG file write.** These are
  platform calls. The camera's outcome is an input to
  `PhotoCaptureScreen.OnCaptureResult`: either the saved path or nothing. The
  captured bitmap kept for the preview is not modelled. It is set together
  with the path and only affects what is drawn.
- **Remote image loading** (`AsyncImage`, `rememberAsyncImagePainter`). This is
  a foreign library. Only the image URL recorded in the task is modelled.
- **Randomness.** `Random.nextInt(25, 55)` is the `reading` parameter of
  `NoiseTestPanel.StartTest`. It is required to lie in [25, 55).
- **Clocks.** `System.currentTimeMillis` is the `now` and `pathTime`
  parameters. Their type `Millis` only admits non-negative `Long` values,
  which is what the clock returns after 1970. This is what makes
  `now - startTime` free of `Long` overflow; a negative clock reading is
  not modelled. The formatted timestamp (`isoTimestamp`) is an opaque
  string parameter.
- **Gesture suspension.** The press-and-await-release gesture is two calls,
  `Press` and then `Release`. `Release` requires that a press came first.
- **Lifetime of each screen's remembered state.** Compose resets it whenever
  its screen is entered again. Here the state is a separate object (panel,
  form, recorder) that a caller creates fresh. `Session` does not own it.
  So the model also lets a caller keep a form across visits. It can then
  record or capture while another screen is shown, or submit a recording
  or photo from an earlier visit to the screen. In the app each visit
  starts with an empty form (MainActivity.kt lines 215-216 and 294-296).
- Session.AddTask: requires that the list holds fewer than `Int.MAX_VALUE`
  tasks. This is the most a JVM list can hold, so the `Long` id never comes
  near overflow.
- Session.OnSubmit: accepts any task, as the source's callback does.
  Well-formedness of the stored tasks is stated only for the two Submit
  methods, which are the app's only callers.
