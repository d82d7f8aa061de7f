/**
 * The record of one completed sample task and the kind of task it is.
 * A `Task` is immutable: every field is fixed when it is built, and the
 * only way to get a different task is to copy one with a field replaced.
 */
module TaskModels {
  import opened Numeric

  /** A Kotlin nullable value: `None` is `null`. */
  datatype Option<T> = None | Some(value: T)

  /** The three kinds of sample task; the set is closed. */
  datatype TaskType = TextReading | ImageDescription | PhotoCapture

  datatype Task = Task(
    id: Int64,
    taskType: TaskType,
    text: Option<string>,
    imageUrl: Option<string>,
    imagePath: Option<string>,
    audioPath: Option<string>,
    durationSec: Int32,
    timestamp: string)

  /** The record's primary constructor. `id`, `taskType`, `durationSec` and
      `timestamp` must always be supplied; the four optional strings are
      `null` unless the caller names them. */
  function NewTask(id: Int64, taskType: TaskType, durationSec: Int32, timestamp: string,
                   text: Option<string> := None, imageUrl: Option<string> := None,
                   imagePath: Option<string> := None, audioPath: Option<string> := None): (t: Task)
    ensures t.id == id && t.taskType == taskType && t.durationSec == durationSec && t.timestamp == timestamp
    ensures t.text == text && t.imageUrl == imageUrl && t.imagePath == imagePath && t.audioPath == audioPath
  {
    Task(id, taskType, text, imageUrl, imagePath, audioPath, durationSec, timestamp)
  }

  /** Leaving out every optional argument leaves all four optional fields null. */
  lemma OptionalFieldsDefaultToNull(id: Int64, taskType: TaskType, durationSec: Int32, timestamp: string)
    ensures var t := NewTask(id, taskType, durationSec, timestamp);
      t.text == None && t.imageUrl == None && t.imagePath == None && t.audioPath == None
    ensures var t := NewTask(id, taskType, durationSec, timestamp);
      t.id == id && t.taskType == taskType && t.durationSec == durationSec && t.timestamp == timestamp
  {
  }

  /** `task.copy(id = id)`: the same record with only its identifier replaced. */
  function CopyWithId(t: Task, id: Int64): (r: Task)
    ensures r.id == id
    ensures r.(id := t.id) == t
    ensures r.taskType == t.taskType && r.durationSec == t.durationSec
  {
    t.(id := id)
  }

  /** A copy differs from its original exactly when the new identifier does. */
  lemma CopyChangesOnlyId(t: Task, id: Int64)
    ensures CopyWithId(t, id) == t <==> t.id == id
    ensures CopyWithId(CopyWithId(t, id), t.id) == t
  {
  }
}
