/**
 * The task records held by the background queue, their status lifecycle,
 * the filter behind `list`, the `find` that selects the next task to run,
 * and what one drain pass does to the records.
 */
module Tasks {
  import opened Seqs

  datatype Option<T> = None | Some(value: T)

  /** Task ids come from a counter that only grows; it stands for a random UUID. */
  type TaskId = nat

  datatype Status = Pending | Running | Done | Failed

  /** The literal string stored in a task's `status` field. */
  function StatusText(s: Status): string
  {
    match s
    case Pending => "pending"
    case Running => "running"
    case Done => "done"
    case Failed => "failed"
  }

  predicate IsTerminal(s: Status)
  {
    s == Done || s == Failed
  }

  /** Position in the lifecycle `pending -> running -> done | failed`. */
  function Rank(s: Status): nat
  {
    match s
    case Pending => 0
    case Running => 1
    case Done => 2
    case Failed => 2
  }

  /**
   * The status writes a task has gone through when it has status `s`:
   * one write per step of the lifecycle, ending in `s`.
   */
  function Lifecycle(s: Status): seq<Status>
  {
    match s
    case Pending => [Pending]
    case Running => [Pending, Running]
    case Done => [Pending, Running, Done]
    case Failed => [Pending, Running, Failed]
  }

  /**
   * A lifecycle starts pending, ends in the current status and moves one step
   * forward at each write, so it never regresses and holds at most one
   * terminal status.
   */
  lemma LifecycleForward(s: Status)
    ensures var l := Lifecycle(s);
      |l| == Rank(s) + 1 && l[0] == Pending && l[|l| - 1] == s &&
      (forall k | 0 < k < |l| :: Rank(l[k]) == Rank(l[k - 1]) + 1) &&
      (forall k | 0 <= k < |l| - 1 :: !IsTerminal(l[k]))
  {
  }

  /**
   * What the task's deferred work does when the runner awaits it: it resolves,
   * or it throws `error` (a work that is not callable throws as well).
   */
  datatype Work = Succeeds | Throws(error: string)

  datatype Task = Task(id: TaskId, name: string, pdfId: string, work: Work, status: Status, error: Option<string>)

  /** The record `add` builds: pending, without an error. */
  function Created(id: TaskId, work: Work, name: string, pdfId: string): Task
  {
    Task(id, name, pdfId, work, Pending, None)
  }

  /** An error is recorded exactly when the task failed. */
  predicate WellFormed(t: Task)
  {
    t.error.Some? <==> t.status == Failed
  }

  /**
   * The record after the runner has dealt with it: a pending task is run and
   * ends `done` or `failed` according to its work; any other task is left alone.
   */
  function Processed(t: Task): Task
  {
    if t.status != Pending then t
    else match t.work
      case Succeeds => t.(status := Done)
      case Throws(e) => t.(status := Failed, error := Some(e))
  }

  /**
   * Running a task only moves its status forward; a task that was pending ends
   * done exactly when its work succeeds, a failure records the error thrown and
   * a success records none; nothing else about the task changes.
   */
  lemma ProcessedSpec(t: Task)
    ensures var r := Processed(t);
      r.id == t.id && r.name == t.name && r.pdfId == t.pdfId && r.work == t.work &&
      Rank(t.status) <= Rank(r.status) &&
      (t.status != Pending ==> r == t) &&
      (t.status == Pending ==> IsTerminal(r.status) && (r.status == Done <==> t.work == Succeeds)) &&
      (t.status == Pending && t.work.Throws? ==> r.error == Some(t.work.error)) &&
      (t.status == Pending && t.work == Succeeds ==> r.error == t.error) &&
      (WellFormed(t) ==> WellFormed(r))
  {
  }

  /** Every task, in queue order, as it is once a drain pass has returned. */
  function Drained(q: seq<Task>): (r: seq<Task>)
    ensures |r| == |q|
  {
    if q == [] then [] else Drained(q[..|q| - 1]) + [Processed(q[|q| - 1])]
  }

  /** After a drain pass no task is pending, and every task is processed in place. */
  lemma {:induction false} DrainedSpec(q: seq<Task>)
    ensures forall j | 0 <= j < |q| :: Drained(q)[j] == Processed(q[j]) && Drained(q)[j].status != Pending
  {
    if q != [] {
      var n := |q| - 1;
      DrainedSpec(q[..n]);
      ProcessedSpec(q[n]);
    }
  }

  /** A drain pass over two stretches of the queue processes each on its own. */
  lemma {:induction false} DrainedAppend(a: seq<Task>, b: seq<Task>)
    ensures Drained(a + b) == Drained(a) + Drained(b)
  {
    if b != [] {
      var n := |b| - 1;
      assert (a + b)[..|a + b| - 1] == a + b[..n];
      DrainedAppend(a, b[..n]);
    } else {
      assert a + b == a;
    }
  }

  /** A drain pass leaves a queue without pending tasks as it is. */
  lemma {:induction false} DrainedIdle(q: seq<Task>)
    requires NoPending(q)
    ensures Drained(q) == q
  {
    if q != [] {
      var n := |q| - 1;
      DrainedIdle(q[..n]);
      assert q[..n] + [q[n]] == q;
    }
  }

  /** Ids grow strictly along the queue; in particular no id occurs twice. */
  predicate IdsIncreasing(q: seq<Task>)
  {
    forall i, j | 0 <= i < j < |q| :: q[i].id < q[j].id
  }

  predicate NoPending(q: seq<Task>)
  {
    forall j | 0 <= j < |q| :: q[j].status != Pending
  }

  predicate AtMostOneRunning(q: seq<Task>)
  {
    forall i, j | 0 <= i < |q| && 0 <= j < |q| && q[i].status == Running && q[j].status == Running :: i == j
  }

  /**
   * The task the runner picks next: the first one in queue order whose status
   * is `pending`, or none.
   */
  function FirstPending(q: seq<Task>): (r: Option<nat>)
    ensures r.Some? ==> r.value < |q| && q[r.value].status == Pending
    ensures r.Some? ==> forall j | 0 <= j < r.value :: q[j].status != Pending
    ensures r.None? <==> NoPending(q)
  {
    if q == [] then None
    else if q[0].status == Pending then Some(0)
    else match FirstPending(q[1..])
      case None => None
      case Some(i) => Some(i + 1)
  }

  /** The number of pending tasks: the measure of the drain loop. */
  function PendingCount(q: seq<Task>): nat
  {
    if q == [] then 0
    else PendingCount(q[..|q| - 1]) + (if q[|q| - 1].status == Pending then 1 else 0)
  }

  /** No pending task is left exactly when the count is zero. */
  lemma {:induction false} PendingCountZero(q: seq<Task>)
    ensures PendingCount(q) == 0 <==> NoPending(q)
  {
    if q != [] {
      PendingCountZero(q[..|q| - 1]);
    }
  }

  /** Settling one pending task lowers the count of pending tasks by exactly one. */
  lemma {:induction false} PendingCountSettle(q: seq<Task>, i: nat, t: Task)
    requires i < |q| && q[i].status == Pending && t.status != Pending
    ensures PendingCount(q[i := t]) == PendingCount(q) - 1
  {
    var n := |q| - 1;
    if i < n {
      assert q[i := t][..n] == q[..n][i := t];
      PendingCountSettle(q[..n], i, t);
    } else {
      assert q[i := t][..n] == q[..n];
    }
  }

  /** The filter argument of `list`; a field that is absent or empty matches every task. */
  datatype Filter = Filter(name: Option<string>, status: Option<string>, pdfId: Option<string>)

  /** JavaScript truthiness of an optional string field. */
  predicate Truthy(o: Option<string>)
  {
    o.Some? && o.value != ""
  }

  predicate Matches(t: Task, f: Filter)
  {
    (Truthy(f.name) ==> t.name == f.name.value) &&
    (Truthy(f.status) ==> StatusText(t.status) == f.status.value) &&
    (Truthy(f.pdfId) ==> t.pdfId == f.pdfId.value)
  }

  /** The tasks of `q` that match `f`, in the order of `q`. */
  function Select(q: seq<Task>, f: Filter): (r: seq<Task>)
    ensures |r| <= |q|
    ensures forall t :: t in r <==> t in q && Matches(t, f)
    ensures SubsequenceOf(r, q)
  {
    if q == [] then []
    else if Matches(q[0], f) then [q[0]] + Select(q[1..], f)
    else Select(q[1..], f)
  }

  /** Selecting keeps queue order: ids still grow along the result. */
  lemma {:induction false} SelectInOrder(q: seq<Task>, f: Filter)
    requires IdsIncreasing(q)
    ensures IdsIncreasing(Select(q, f))
  {
    if q != [] {
      var tail := q[1..];
      assert IdsIncreasing(tail);
      SelectInOrder(tail, f);
      var rest := Select(tail, f);
      if Matches(q[0], f) {
        var r := [q[0]] + rest;
        forall k | 0 <= k < |rest| ensures q[0].id < rest[k].id {
          assert rest[k] in tail;
          var j :| 0 <= j < |tail| && tail[j] == rest[k];
          assert q[j + 1] == rest[k];
        }
        forall i, j | 0 <= i < j < |r| ensures r[i].id < r[j].id {
          assert r[j] == rest[j - 1];
          if i > 0 {
            assert r[i] == rest[i - 1];
          }
        }
      }
    }
  }

  /** Selecting from a queue with one more task at the end. */
  lemma {:induction false} SelectAppend(q: seq<Task>, t: Task, f: Filter)
    ensures Select(q + [t], f) == Select(q, f) + (if Matches(t, f) then [t] else [])
  {
    if q != [] {
      assert (q + [t])[1..] == q[1..] + [t];
      SelectAppend(q[1..], t, f);
    }
  }

  /** With no field set (or every field empty) `list` returns the whole queue. */
  lemma {:induction false} SelectEverything(q: seq<Task>, f: Filter)
    requires !Truthy(f.name) && !Truthy(f.status) && !Truthy(f.pdfId)
    ensures Select(q, f) == q
  {
    if q != [] {
      SelectEverything(q[1..], f);
    }
  }

  /** The filter that `list({ status: 'pending' })` applies. */
  const PendingOnly := Filter(None, Some("pending"), None)

  /** A status filter selects exactly the tasks whose status has that text. */
  lemma MatchesPendingOnly(t: Task)
    ensures Matches(t, PendingOnly) <==> t.status == Pending
  {
    assert StatusText(t.status) == "pending" ==> t.status == Pending;
  }
}
