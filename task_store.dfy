/**
 * The session's task list, as values: appending a submitted task (which
 * renumbers it after the list's current size) and the two totals the
 * history screen shows.
 */
module TaskStore {
  import opened Numeric
  import opened TaskModels

  /** A JVM list holds at most `Int.MAX_VALUE` elements. */
  const MAX_LIST_SIZE: int := INT_MAX

  /** The identifiers run 1, 2, ..., N in list order. */
  ghost predicate IdsSequential(tasks: seq<Task>)
  {
    forall i :: 0 <= i < |tasks| ==> tasks[i].id == i + 1
  }

  /** The list with a copy of `t` appended, renumbered to the list's size
      plus one. */
  function Appended(tasks: seq<Task>, t: Task): (r: seq<Task>)
    requires |tasks| < MAX_LIST_SIZE
    ensures |r| == |tasks| + 1
    ensures r[..|tasks|] == tasks
    ensures r[|tasks|].id == |tasks| + 1 && r[|tasks|].(id := t.id) == t
    ensures IdsSequential(tasks) ==> IdsSequential(r)
  {
    tasks + [CopyWithId(t, |tasks| + 1)]
  }

  /** The list after submitting `ts` in order, starting from `tasks`. */
  function SubmitAll(tasks: seq<Task>, ts: seq<Task>): (r: seq<Task>)
    requires |tasks| + |ts| <= MAX_LIST_SIZE
    decreases |ts|
  {
    if ts == [] then tasks else SubmitAll(Appended(tasks, ts[0]), ts[1..])
  }

  /** Submissions keep what was there and add one renumbered copy each. */
  lemma {:induction false} SubmitAllShape(tasks: seq<Task>, ts: seq<Task>)
    requires |tasks| + |ts| <= MAX_LIST_SIZE
    ensures |SubmitAll(tasks, ts)| == |tasks| + |ts|
    ensures SubmitAll(tasks, ts)[..|tasks|] == tasks
    ensures forall i :: 0 <= i < |ts| ==>
      SubmitAll(tasks, ts)[|tasks| + i] == CopyWithId(ts[i], |tasks| + i + 1)
    decreases |ts|
  {
    if ts != [] {
      var next := Appended(tasks, ts[0]);
      SubmitAllShape(next, ts[1..]);
      var r := SubmitAll(tasks, ts);
      assert r == SubmitAll(next, ts[1..]);
      assert r[..|tasks|] == next[..|next|][..|tasks|];
      forall i | 0 <= i < |ts|
        ensures r[|tasks| + i] == CopyWithId(ts[i], |tasks| + i + 1)
      {
        if i == 0 {
          assert r[|tasks|] == r[..|next|][|tasks|];
        } else {
          assert r[|next| + (i - 1)] == CopyWithId(ts[1..][i - 1], |next| + (i - 1) + 1);
        }
      }
    }
  }

  /** Starting from the empty list, after N submissions the list holds N
      tasks, the i-th (from 1) has identifier i and is otherwise the i-th
      submitted task. */
  lemma SubmitAllFromEmpty(ts: seq<Task>)
    requires |ts| <= MAX_LIST_SIZE
    ensures |SubmitAll([], ts)| == |ts|
    ensures IdsSequential(SubmitAll([], ts))
    ensures forall i :: 0 <= i < |ts| ==>
      SubmitAll([], ts)[i].(id := ts[i].id) == ts[i]
  {
    var empty: seq<Task> := [];
    SubmitAllShape(empty, ts);
    var r := SubmitAll(empty, ts);
    forall i | 0 <= i < |ts|
      ensures r[i] == CopyWithId(ts[i], i + 1)
    {
      assert r[|empty| + i] == CopyWithId(ts[i], |empty| + i + 1);
    }
  }

  /** The exact sum of the durations: the reference for the shown total. */
  function SumDurations(tasks: seq<Task>): (sum: int)
  {
    if tasks == [] then 0 else SumDurations(tasks[..|tasks| - 1]) + tasks[|tasks| - 1].durationSec
  }

  /** The history's total duration: the durations added up in list order
      into an `Int` accumulator that wraps around on overflow. The total is
      the exact sum reduced to 32 bits. */
  function TotalDuration(tasks: seq<Task>): (total: Int32)
    ensures total == ToInt32(SumDurations(tasks))
  {
    if tasks == [] then 0
    else
      var init, last := tasks[..|tasks| - 1], tasks[|tasks| - 1];
      WrapThenAdd(SumDurations(init), last.durationSec);
      AddInt(TotalDuration(init), last.durationSec)
  }

  /** A list whose every duration lies in 0..20 sums to at most 20 per task. */
  lemma {:induction false} SumDurationsBounded(tasks: seq<Task>)
    requires forall i :: 0 <= i < |tasks| ==> 0 <= tasks[i].durationSec <= 20
    ensures 0 <= SumDurations(tasks) <= 20 * |tasks|
  {
    if tasks != [] {
      SumDurationsBounded(tasks[..|tasks| - 1]);
    }
  }

  /** So the shown total is exact until the list holds more than
      107374182 audio tasks. */
  lemma TotalDurationExact(tasks: seq<Task>)
    requires forall i :: 0 <= i < |tasks| ==> 0 <= tasks[i].durationSec <= 20
    requires 20 * |tasks| <= INT_MAX
    ensures TotalDuration(tasks) == SumDurations(tasks)
  {
    SumDurationsBounded(tasks);
  }

  /** Appending adds the new task's duration to the exact sum; renumbering
      does not change durations, so a photo task (duration 0) adds nothing. */
  lemma AppendedSum(tasks: seq<Task>, t: Task)
    requires |tasks| < MAX_LIST_SIZE
    ensures SumDurations(Appended(tasks, t)) == SumDurations(tasks) + t.durationSec
    ensures t.durationSec == 0 ==> SumDurations(Appended(tasks, t)) == SumDurations(tasks)
  {
  }
}
