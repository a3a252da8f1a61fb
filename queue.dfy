/**
 * The in-memory background task queue: an ordered list of task records, a
 * single-flight `running` flag and an ordered list of subscribers. Adding a
 * task notifies the subscribers and starts the drain loop, which runs the
 * pending tasks one at a time, oldest first.
 */
module Queue {
  import opened Seqs
  import opened Tasks
  import opened Observers

  /**
   * What holds between any two steps of the queue: the counter has handed out
   * exactly one id per task, in queue order (so ids are unique and grow along
   * the queue); an error is recorded exactly on failed tasks; no task is
   * caught half-way through a run; the notified statuses of each task are its
   * lifecycle so far.
   */
  ghost predicate QueueInv(q: seq<Task>, ns: seq<Notice>, nextId: TaskId)
  {
    nextId == |q| &&
    (forall j | 0 <= j < |q| :: q[j].id == j && WellFormed(q[j]) && q[j].status != Running) &&
    (forall id: TaskId | nextId <= id :: StatusesOf(ns, id) == []) &&
    Tracked(q, ns)
  }

  /**
   * One iteration of the drain loop on the pending task `i`: while it runs it
   * is the only running task, and once it has settled and both writes have
   * been notified the invariant holds again.
   */
  lemma RunStepKeepsInv(q: seq<Task>, ns: seq<Notice>, nextId: TaskId, i: nat)
    requires QueueInv(q, ns, nextId)
    requires i < |q| && q[i].status == Pending
    ensures AtMostOneRunning(q[i := q[i].(status := Running)])
    ensures QueueInv(q[i := Processed(q[i])], ns + Steps(q[i]), nextId)
  {
    var t := q[i];
    var t1, t2 := t.(status := Running), Processed(t);
    ProcessedSpec(t);
    var q1 := q[i := t1];
    assert IdsIncreasing(q);
    TrackedAfterWrite(q, ns, i, t1);
    assert IdsIncreasing(q1);
    TrackedAfterWrite(q1, ns + [Notice(t.id, Running)], i, t2);
    assert q1[i := t2] == q[i := t2];
    assert ns + [Notice(t.id, Running)] + [Notice(t.id, t2.status)] == ns + Steps(t);
    forall id: TaskId | nextId <= id ensures StatusesOf(ns + Steps(t), id) == [] {
      StatusesOfAppend(ns, Notice(t.id, Running), id);
      StatusesOfAppend(ns + [Notice(t.id, Running)], Notice(t.id, t2.status), id);
    }
  }

  /** The notices of a drain pass grow by one step per iteration. */
  lemma RunStepTrace(q0: seq<Task>, k: nat, i: nat)
    requires k <= i < |q0|
    requires forall j | k <= j < i :: q0[j].status != Pending
    ensures RunNotices(q0[..i + 1]) == RunNotices(q0[..k]) + Steps(q0[i])
  {
    RunNoticesSkip(q0, k, i);
    assert q0[..i + 1][..i] == q0[..i];
  }

  /** The subscriber calls for the two notices of one step. */
  lemma FanSteps(subs: seq<SubscriberId>, t: Task)
    requires t.status == Pending
    ensures Fan(subs, Steps(t)) ==
      Deliveries(subs, Notice(t.id, Running)) + Deliveries(subs, Notice(t.id, Processed(t).status))
  {
    var s := Steps(t);
    assert s[..1][..0] == [];
    assert Fan(subs, s[..1]) == Deliveries(subs, s[0]);
    assert Fan(subs, s) == Fan(subs, s[..1]) + Deliveries(subs, s[1]);
  }

  /** Extending the notices of a pass by one step extends both logs accordingly. */
  lemma LogStep(ns: seq<Notice>, tr: seq<Event>, subs: seq<SubscriberId>, done: seq<Notice>, step: seq<Notice>)
    ensures ns + done + step == ns + (done + step)
    ensures tr + Fan(subs, done) + Fan(subs, step) == tr + Fan(subs, done + step)
  {
    FanAppend(subs, done, step);
  }

  /** Appending a freshly created task with the next id and notifying it keeps the invariant. */
  lemma AddKeepsInv(q: seq<Task>, ns: seq<Notice>, nextId: TaskId, t: Task)
    requires QueueInv(q, ns, nextId)
    requires t.id == nextId && t.status == Pending && t.error.None?
    ensures QueueInv(q + [t], ns + [Notice(t.id, Pending)], nextId + 1)
  {
    var n := Notice(t.id, Pending);
    TrackedAfterAdd(q, ns, t);
    forall id: TaskId | nextId + 1 <= id ensures StatusesOf(ns + [n], id) == [] {
      StatusesOfAppend(ns, n, id);
    }
  }

  /**
   * The notices `add` causes: the new task as pending, then, when no pass was
   * active, the two status writes of running it.
   */
  function Announced(t: Task, active: bool): seq<Notice>
  {
    [Notice(t.id, Pending)] + (if active then [] else Steps(t))
  }

  /** The notices and subscriber calls of `add`: one round for the pending notice, then those of the pass. */
  lemma AddTrace(ns: seq<Notice>, tr: seq<Event>, subs: seq<SubscriberId>, t: Task, active: bool)
    ensures ns + [Notice(t.id, Pending)] + (if active then [] else Steps(t)) == ns + Announced(t, active)
    ensures tr + Deliveries(subs, Notice(t.id, Pending)) + Fan(subs, if active then [] else Steps(t)) ==
            tr + Fan(subs, Announced(t, active))
  {
    var rest := if active then [] else Steps(t);
    FanAppend(subs, [Notice(t.id, Pending)], rest);
    assert [Notice(t.id, Pending)][..0] == [];
    assert Fan(subs, [Notice(t.id, Pending)]) == Deliveries(subs, Notice(t.id, Pending));
  }

  /** Draining a queue whose only pending task is the last one runs just that task. */
  lemma DrainAfterAdd(q: seq<Task>, t: Task)
    requires NoPending(q)
    ensures Drained(q + [t]) == q + [Processed(t)]
    ensures RunNotices(q + [t]) == Steps(t)
  {
    var q1 := q + [t];
    assert q1[..|q|] == q && q1[..0] == [];
    RunNoticesSkip(q1, 0, |q|);
    DrainedSpec(q1);
    forall j | 0 <= j < |q| ensures Processed(q[j]) == q[j] {
      ProcessedSpec(q[j]);
    }
  }

  /** The queue part-way through a drain pass over `q0`: the first `k` tasks processed, the rest untouched. */
  function DrainedUpTo(q0: seq<Task>, k: nat): (r: seq<Task>)
    requires k <= |q0|
    ensures |r| == |q0|
  {
    Drained(q0[..k]) + q0[k..]
  }

  /**
   * One iteration of the drain loop: the first pending task `i` lies at or
   * after `k`, it is still as enqueued, and processing it advances the pass
   * to `i + 1`.
   */
  lemma DrainStep(q0: seq<Task>, k: nat, i: nat)
    requires k <= |q0| && i < |q0|
    requires DrainedUpTo(q0, k)[i].status == Pending
    requires forall j | 0 <= j < i :: DrainedUpTo(q0, k)[j].status != Pending
    ensures k <= i && DrainedUpTo(q0, k)[i] == q0[i]
    ensures forall j | k <= j < i :: q0[j].status != Pending
    ensures DrainedUpTo(q0, k)[i := Processed(q0[i])] == DrainedUpTo(q0, i + 1)
  {
    var q := DrainedUpTo(q0, k);
    DrainedSpec(q0[..k]);
    assert k <= i;
    forall j | k <= j < i ensures q0[j].status != Pending {
      assert q[j] == q0[j];
    }
    DrainedSpec(q0[..i + 1]);
    var q' := DrainedUpTo(q0, i + 1);
    forall j | 0 <= j < |q0| ensures q[i := Processed(q0[i])][j] == q'[j] {
      if k <= j < i {
        assert q[j] == q0[j];
        ProcessedSpec(q0[j]);
      }
    }
  }

  /**
   * Everything one iteration of the drain loop changes, stated on values: the
   * first pending task `i` of the queue part-way through a pass over `q0` is
   * still as enqueued; processing it and logging its two notices advances the
   * pass to `i + 1` and leaves one pending task fewer.
   */
  lemma DrainAdvance(q0: seq<Task>, k: nat, i: nat, n0: seq<Notice>, t0: seq<Event>, subs: seq<SubscriberId>)
    requires k <= |q0| && FirstPending(DrainedUpTo(q0, k)) == Some(i)
    ensures i < |q0| && DrainedUpTo(q0, k)[i] == q0[i] && q0[i].status == Pending
    ensures DrainedUpTo(q0, k)[i := Processed(q0[i])] == DrainedUpTo(q0, i + 1)
    ensures PendingCount(DrainedUpTo(q0, i + 1)) == PendingCount(DrainedUpTo(q0, k)) - 1
    ensures n0 + RunNotices(q0[..k]) + Steps(q0[i]) == n0 + RunNotices(q0[..i + 1])
    ensures t0 + Fan(subs, RunNotices(q0[..k])) + Fan(subs, Steps(q0[i])) == t0 + Fan(subs, RunNotices(q0[..i + 1]))
  {
    DrainStep(q0, k, i);
    RunStepTrace(q0, k, i);
    LogStep(n0, t0, subs, RunNotices(q0[..k]), Steps(q0[i]));
    ProcessedSpec(q0[i]);
    PendingCountSettle(DrainedUpTo(q0, k), i, Processed(q0[i]));
  }

  /** When nothing is pending part-way through a pass, the untouched rest had nothing pending either. */
  lemma DrainIdleRest(q0: seq<Task>, k: nat)
    requires k <= |q0| && NoPending(DrainedUpTo(q0, k))
    ensures NoPending(q0[k..])
  {
    var q := DrainedUpTo(q0, k);
    forall j | k <= j < |q0| ensures q0[j].status != Pending {
      assert q[j] == q0[j];
    }
  }

  /** When the rest of the queue has nothing pending, the pass has processed every task. */
  lemma DrainFinished(q0: seq<Task>, k: nat)
    requires k <= |q0| && NoPending(q0[k..])
    ensures DrainedUpTo(q0, k) == Drained(q0)
  {
    assert q0[..k] + q0[k..] == q0;
    DrainedAppend(q0[..k], q0[k..]);
    DrainedIdle(q0[k..]);
  }

  /** When the rest of the queue has nothing pending, the pass has issued every notice a full pass issues. */
  lemma RunFinished(q0: seq<Task>, k: nat)
    requires k <= |q0| && NoPending(q0[k..])
    ensures RunNotices(q0[..k]) == RunNotices(q0)
  {
    forall j | k <= j < |q0| ensures q0[j].status != Pending {
      assert q0[j] == q0[k..][j - k];
    }
    RunNoticesSkip(q0, k, |q0|);
    assert q0[..|q0|] == q0;
  }

  class TaskQueue {
    var queue: seq<Task>
    var running: bool
    var subscribers: seq<SubscriberId>
    /** The next task id to hand out. */
    var nextId: TaskId
    /** Every call of `notify`, in order. */
    ghost var notices: seq<Notice>
    /** Every call of a subscriber, in order. */
    ghost var trace: seq<Event>

    /** The queue invariant, and an idle queue has nothing left to do. */
    ghost predicate Valid()
      reads this
    {
      QueueInv(queue, notices, nextId) && (!running ==> NoPending(queue))
    }

    constructor ()
      ensures Valid()
      ensures queue == [] && !running && subscribers == [] && nextId == 0
      ensures notices == [] && trace == []
    {
      queue := [];
      running := false;
      subscribers := [];
      nextId := 0;
      notices := [];
      trace := [];
    }

    /**
     * Appends a pending task with a fresh id, notifies it and triggers the
     * runner. When no pass is active the new task is run before `Add`
     * returns; when one is, the task waits in the queue for that pass.
     */
    method Add(work: Work, name: string, pdfId: string) returns (id: TaskId)
      requires Valid()
      modifies this`queue, this`nextId, this`notices, this`trace, this`running
      ensures Valid()
      ensures id == old(nextId) && nextId == id + 1 && running == old(running)
      ensures forall j | 0 <= j < |old(queue)| :: old(queue)[j].id != id
      ensures queue == old(queue) + [if old(running) then Created(id, work, name, pdfId) else Processed(Created(id, work, name, pdfId))]
      ensures notices == old(notices) + Announced(Created(id, work, name, pdfId), old(running))
      ensures trace == old(trace) + Fan(subscribers, Announced(Created(id, work, name, pdfId), old(running)))
    {
      id := nextId;
      var task := Created(id, work, name, pdfId);
      AddKeepsInv(queue, notices, nextId, task);
      AddTrace(notices, trace, subscribers, task, running);
      nextId := nextId + 1;
      queue := queue + [task];
      Notify(task);
      ghost var n1, t1 := notices, trace;
      if !running {
        DrainAfterAdd(old(queue), task);
      }
      Run();
      assert !running ==> NoPending(queue);
      assert notices == n1 + (if old(running) then [] else Steps(task));
      assert trace == t1 + Fan(subscribers, if old(running) then [] else Steps(task));
    }

    /**
     * The tasks that match every field of `f` that is set, in queue order;
     * the queue itself is not changed.
     */
    function List(f: Filter): (r: seq<Task>)
      reads this
      ensures forall t :: t in r <==> t in queue && Matches(t, f)
      ensures SubsequenceOf(r, queue)
    {
      Select(queue, f)
    }

    /** Registers `sub` at the end; the returned object removes it again. */
    method Subscribe(sub: SubscriberId) returns (unsubscribe: Unsubscribe)
      requires Valid()
      modifies this`subscribers
      ensures Valid()
      ensures subscribers == old(subscribers) + [sub]
      ensures fresh(unsubscribe) && unsubscribe.owner == this && unsubscribe.subscriber == sub
    {
      subscribers := subscribers + [sub];
      unsubscribe := new Unsubscribe(this, sub);
    }

    /** Calls every subscriber with `t`, in registration order. */
    method Notify(t: Task)
      modifies this`notices, this`trace
      ensures notices == old(notices) + [Notice(t.id, t.status)]
      ensures trace == old(trace) + Deliveries(subscribers, Notice(t.id, t.status))
    {
      var n := Notice(t.id, t.status);
      notices := notices + [n];
      for k := 0 to |subscribers|
        invariant notices == old(notices) + [n]
        invariant |trace| == |old(trace)| + k && trace[..|old(trace)|] == old(trace)
        invariant forall m | 0 <= m < k :: trace[|old(trace)| + m] == Event(subscribers[m], n)
      {
        trace := trace + [Event(subscribers[k], n)];
      }
      DeliveriesInOrder(subscribers, n);
      assert trace == old(trace) + Deliveries(subscribers, n);
    }

    /**
     * The drain loop. If a pass is already active nothing happens. Otherwise
     * the pending tasks are run one at a time, always the first pending one
     * in queue order: it is marked running and notified, its work is awaited,
     * and it is marked done, or failed with the error it threw, and notified
     * again. A failure does not stop the loop. The pass ends idle with no
     * task pending.
     */
    method Run()
      requires QueueInv(queue, notices, nextId)
      modifies this`queue, this`running, this`notices, this`trace
      ensures QueueInv(queue, notices, nextId)
      ensures old(running) ==> running && queue == old(queue) && notices == old(notices) && trace == old(trace)
      ensures !old(running) ==> !running && NoPending(queue)
      ensures !old(running) ==> queue == Drained(old(queue))
      ensures !old(running) ==> notices == old(notices) + RunNotices(old(queue))
      ensures !old(running) ==> trace == old(trace) + Fan(subscribers, RunNotices(old(queue)))
    {
      if running {
        return;
      }
      running := true;
      ghost var q0, n0, t0 := queue, notices, trace;
      ghost var k: nat := 0;
      assert q0[..0] == [] && q0[0..] == q0;
      while |queue| > 0
        invariant running && QueueInv(queue, notices, nextId)
        invariant k <= |q0| == |queue| && queue == DrainedUpTo(q0, k)
        invariant notices == n0 + RunNotices(q0[..k]) && trace == t0 + Fan(subscribers, RunNotices(q0[..k]))
        decreases PendingCount(queue)
      {
        var ran;
        ran, k := RunNext(q0, k, n0, t0);
        if !ran {
          break;
        }
      }
      if |queue| == 0 {
        assert NoPending(queue);
      }
      DrainIdleRest(q0, k);
      DrainFinished(q0, k);
      RunFinished(q0, k);
      running := false;
    }

    /**
     * One iteration of the drain loop, part-way through a pass over `q0`
     * whose first `k` tasks are dealt with: find the first pending task and
     * run it, or report that none is left.
     */
    method RunNext(ghost q0: seq<Task>, ghost k: nat, ghost n0: seq<Notice>, ghost t0: seq<Event>) returns (ran: bool, ghost k': nat)
      requires running && QueueInv(queue, notices, nextId)
      requires k <= |q0| == |queue| && queue == DrainedUpTo(q0, k)
      requires notices == n0 + RunNotices(q0[..k]) && trace == t0 + Fan(subscribers, RunNotices(q0[..k]))
      modifies this`queue, this`notices, this`trace
      ensures QueueInv(queue, notices, nextId)
      ensures k' <= |q0| == |queue| && queue == DrainedUpTo(q0, k')
      ensures notices == n0 + RunNotices(q0[..k']) && trace == t0 + Fan(subscribers, RunNotices(q0[..k']))
      ensures ran ==> PendingCount(queue) == old(PendingCount(queue)) - 1
      ensures ran ==> (var p := old(FirstPending(queue));
                         p.Some? &&
                         queue == old(queue)[p.value := Processed(old(queue)[p.value])] &&
                         notices == old(notices) + Steps(old(queue)[p.value]))
      ensures !ran ==> NoPending(queue) && queue == old(queue) && notices == old(notices) && trace == old(trace)
    {
      var found := FirstPending(queue);
      if found.None? {
        return false, k;
      }
      var i := found.value;
      ghost var q1, n1 := queue, notices;
      DrainAdvance(q0, k, i, n0, t0, subscribers);
      RunTask(i);
      assert queue == q1[i := Processed(q1[i])] && notices == n1 + Steps(q1[i]);
      ran, k' := true, i + 1;
    }

    /**
     * One iteration of the drain loop on the pending task at `i`: mark it
     * running and notify, await its work, mark it done or failed (recording
     * the error thrown) and notify again.
     */
    method RunTask(i: nat)
      requires QueueInv(queue, notices, nextId) && running
      requires i < |queue| && queue[i].status == Pending
      modifies this`queue, this`notices, this`trace
      ensures QueueInv(queue, notices, nextId)
      ensures queue == old(queue)[i := Processed(old(queue)[i])]
      ensures notices == old(notices) + Steps(old(queue)[i])
      ensures trace == old(trace) + Fan(subscribers, Steps(old(queue)[i]))
    {
      ghost var t0 := queue[i];
      RunStepKeepsInv(queue, notices, nextId, i);
      FanSteps(subscribers, t0);

      var task := queue[i].(status := Running);
      queue := queue[i := task];
      Notify(task);
      match task.work {
        case Succeeds =>
          task := task.(status := Done);
        case Throws(e) =>
          task := task.(status := Failed, error := Some(e));
      }
      queue := queue[i := task];
      Notify(task);
      ProcessedSpec(t0);
      assert task == Processed(t0);
      assert queue == old(queue)[i := Processed(t0)];
      assert notices == old(notices) + Steps(t0);
    }
  }

  /** `list` keeps enqueue order: ids grow along its result. */
  lemma ListInOrder(tq: TaskQueue, f: Filter)
    requires tq.Valid()
    ensures IdsIncreasing(tq.List(f))
  {
    assert IdsIncreasing(tq.queue);
    SelectInOrder(tq.queue, f);
  }

  /**
   * The function `subscribe` returns: calling it removes every registration
   * of its subscriber from its queue; calling it again changes nothing.
   */
  class Unsubscribe {
    const owner: TaskQueue
    const subscriber: SubscriberId

    constructor (owner: TaskQueue, subscriber: SubscriberId)
      ensures this.owner == owner && this.subscriber == subscriber
    {
      this.owner := owner;
      this.subscriber := subscriber;
    }

    method Call()
      requires owner.Valid()
      modifies owner`subscribers
      ensures owner.Valid()
      ensures owner.subscribers == Without(old(owner.subscribers), subscriber)
    {
      owner.subscribers := Without(owner.subscribers, subscriber);
    }
  }
}
