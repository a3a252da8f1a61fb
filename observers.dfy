/**
 * Subscribers of the queue and what they observe. A `Notice` is one call of
 * `notify` (the task and the status it had then); an `Event` is one call of
 * one subscriber. `notify` turns a notice into one event per registration,
 * in registration order.
 */
module Observers {
  import opened Seqs
  import opened Tasks

  /** A subscriber callback, identified the way JavaScript compares functions. */
  type SubscriberId = nat

  datatype Notice = Notice(taskId: TaskId, status: Status)

  datatype Event = Event(subscriber: SubscriberId, notice: Notice)

  /** The events of one `notify`: every registration is called once, in registration order. */
  function Deliveries(subs: seq<SubscriberId>, n: Notice): seq<Event>
  {
    if subs == [] then [] else [Event(subs[0], n)] + Deliveries(subs[1..], n)
  }

  /** `notify` calls every registration exactly once, in registration order. */
  lemma {:induction false} DeliveriesInOrder(subs: seq<SubscriberId>, n: Notice)
    ensures |Deliveries(subs, n)| == |subs|
    ensures forall k | 0 <= k < |subs| :: Deliveries(subs, n)[k] == Event(subs[k], n)
  {
    if subs != [] {
      DeliveriesInOrder(subs[1..], n);
    }
  }

  /** The events of a series of `notify` calls made while the registrations are `subs`. */
  function Fan(subs: seq<SubscriberId>, ns: seq<Notice>): seq<Event>
  {
    if ns == [] then [] else Fan(subs, ns[..|ns| - 1]) + Deliveries(subs, ns[|ns| - 1])
  }

  lemma {:induction false} FanAppend(subs: seq<SubscriberId>, a: seq<Notice>, b: seq<Notice>)
    ensures Fan(subs, a + b) == Fan(subs, a) + Fan(subs, b)
  {
    if b == [] {
      assert a + b == a;
    } else {
      var n := |b| - 1;
      var d := Deliveries(subs, b[n]);
      assert Fan(subs, a + b) == Fan(subs, a + b[..n]) + d by {
        var ab := a + b;
        assert ab[..|ab| - 1] == a + b[..n] && ab[|ab| - 1] == b[n];
      }
      assert Fan(subs, b) == Fan(subs, b[..n]) + d;
      FanAppend(subs, a, b[..n]);
      AppendAssoc(Fan(subs, a), Fan(subs, b[..n]), d);
    }
  }

  /** What subscriber `s` received, in the order it received it. */
  function Project(evs: seq<Event>, s: SubscriberId): seq<Notice>
  {
    if evs == [] then []
    else (if evs[0].subscriber == s then [evs[0].notice] else []) + Project(evs[1..], s)
  }

  lemma {:induction false} ProjectAppend(a: seq<Event>, b: seq<Event>, s: SubscriberId)
    ensures Project(a + b, s) == Project(a, s) + Project(b, s)
  {
    if a == [] {
      assert a + b == b;
    } else {
      var ab := a + b;
      assert ab[0] == a[0] && ab[1..] == a[1..] + b;
      ProjectAppend(a[1..], b, s);
      var head := if a[0].subscriber == s then [a[0].notice] else [];
      assert Project(ab, s) == head + Project(a[1..] + b, s);
      assert Project(a, s) == head + Project(a[1..], s);
    }
  }

  /** Each notice repeated `c` times: what a subscriber registered `c` times receives. */
  function Stutter(ns: seq<Notice>, c: nat): seq<Notice>
  {
    if ns == [] then [] else Stutter(ns[..|ns| - 1], c) + Repeat(ns[|ns| - 1], c)
  }

  /** One `notify` reaches `s` once per registration of `s`. */
  lemma {:induction false} ProjectDeliveries(subs: seq<SubscriberId>, n: Notice, s: SubscriberId)
    ensures Project(Deliveries(subs, n), s) == Repeat(n, Count(subs, s))
  {
    if subs != [] {
      var d := Deliveries(subs, n);
      assert d[1..] == Deliveries(subs[1..], n);
      ProjectDeliveries(subs[1..], n, s);
      if subs[0] == s {
        assert Repeat(n, Count(subs, s)) == [n] + Repeat(n, Count(subs[1..], s));
      }
    }
  }

  /** Over a series of `notify` calls, `s` receives every notice once per registration, in order. */
  lemma {:induction false} ProjectFan(subs: seq<SubscriberId>, ns: seq<Notice>, s: SubscriberId)
    ensures Project(Fan(subs, ns), s) == Stutter(ns, Count(subs, s))
  {
    if ns != [] {
      var n := |ns| - 1;
      ProjectFan(subs, ns[..n], s);
      ProjectAppend(Fan(subs, ns[..n]), Deliveries(subs, ns[n]), s);
      ProjectDeliveries(subs, ns[n], s);
    }
  }

  lemma {:induction false} StutterOnce(ns: seq<Notice>)
    ensures Stutter(ns, 1) == ns
  {
    if ns != [] {
      var n := |ns| - 1;
      StutterOnce(ns[..n]);
      assert ns[..n] + [ns[n]] == ns;
    }
  }

  lemma {:induction false} StutterNever(ns: seq<Notice>)
    ensures Stutter(ns, 0) == []
  {
    if ns != [] {
      StutterNever(ns[..|ns| - 1]);
    }
  }

  /** A subscriber registered once sees every notice exactly once, in the order of the `notify` calls. */
  lemma SubscribedOnceSeesAll(subs: seq<SubscriberId>, ns: seq<Notice>, s: SubscriberId)
    requires Count(subs, s) == 1
    ensures Project(Fan(subs, ns), s) == ns
  {
    ProjectFan(subs, ns, s);
    StutterOnce(ns);
  }

  /** The registrations left after `x` unsubscribes: every registration of `x` goes, the rest stay in order. */
  function Without(subs: seq<SubscriberId>, x: SubscriberId): (r: seq<SubscriberId>)
    ensures x !in r
    ensures forall y | y != x :: Count(r, y) == Count(subs, y)
    ensures SubsequenceOf(r, subs)
  {
    if subs == [] then []
    else if subs[0] == x then Without(subs[1..], x)
    else [subs[0]] + Without(subs[1..], x)
  }

  lemma {:induction false} WithoutAbsent(subs: seq<SubscriberId>, x: SubscriberId)
    requires x !in subs
    ensures Without(subs, x) == subs
  {
    if subs != [] {
      WithoutAbsent(subs[1..], x);
    }
  }

  /** Unsubscribing a second time changes nothing. */
  lemma WithoutIdempotent(subs: seq<SubscriberId>, x: SubscriberId)
    ensures Without(Without(subs, x), x) == Without(subs, x)
  {
    WithoutAbsent(Without(subs, x), x);
  }

  /**
   * After `x` unsubscribes, later notifications no longer reach `x`, and every
   * other subscriber receives exactly what it would have received anyway.
   */
  lemma UnsubscribeStopsOnlyThatSubscriber(subs: seq<SubscriberId>, x: SubscriberId, ns: seq<Notice>, y: SubscriberId)
    ensures Project(Fan(Without(subs, x), ns), y) == if y == x then [] else Project(Fan(subs, ns), y)
  {
    ProjectFan(Without(subs, x), ns, y);
    ProjectFan(subs, ns, y);
    if y == x {
      StutterNever(ns);
    }
  }

  /** The statuses that the notices report for task `id`, in order. */
  function StatusesOf(ns: seq<Notice>, id: TaskId): seq<Status>
  {
    if ns == [] then []
    else StatusesOf(ns[..|ns| - 1], id) + (if ns[|ns| - 1].taskId == id then [ns[|ns| - 1].status] else [])
  }

  lemma StatusesOfAppend(ns: seq<Notice>, n: Notice, id: TaskId)
    ensures StatusesOf(ns + [n], id) == StatusesOf(ns, id) + (if n.taskId == id then [n.status] else [])
  {
    assert (ns + [n])[..|ns|] == ns;
  }

  /** Every task's status writes, as notified, are exactly its lifecycle so far. */
  ghost predicate Tracked(q: seq<Task>, ns: seq<Notice>)
  {
    forall j {:trigger TaskTracked(ns, q[j])} | 0 <= j < |q| :: TaskTracked(ns, q[j])
  }

  /** The notified statuses of task `t` are its lifecycle so far. */
  ghost predicate TaskTracked(ns: seq<Notice>, t: Task)
  {
    StatusesOf(ns, t.id) == Lifecycle(t.status)
  }

  /** Writing the next lifecycle status of one task and notifying it keeps every task tracked. */
  lemma TrackedAfterWrite(q: seq<Task>, ns: seq<Notice>, i: nat, t: Task)
    requires IdsIncreasing(q) && Tracked(q, ns)
    requires i < |q| && t.id == q[i].id
    requires Lifecycle(t.status) == Lifecycle(q[i].status) + [t.status]
    ensures Tracked(q[i := t], ns + [Notice(t.id, t.status)])
  {
    var q', n := q[i := t], Notice(t.id, t.status);
    forall j | 0 <= j < |q'| ensures TaskTracked(ns + [n], q'[j]) {
      StatusesOfAppend(ns, n, q'[j].id);
      assert TaskTracked(ns, q[j]);
      if j != i {
        assert q[j].id != q[i].id by {
          if j < i { assert q[j].id < q[i].id; } else { assert q[i].id < q[j].id; }
        }
      }
    }
  }

  /** Appending a new pending task and notifying it keeps every task tracked. */
  lemma TrackedAfterAdd(q: seq<Task>, ns: seq<Notice>, t: Task)
    requires Tracked(q, ns) && t.status == Pending
    requires forall j | 0 <= j < |q| :: q[j].id != t.id
    requires StatusesOf(ns, t.id) == []
    ensures Tracked(q + [t], ns + [Notice(t.id, Pending)])
  {
    var q', n := q + [t], Notice(t.id, Pending);
    forall j | 0 <= j < |q'| ensures TaskTracked(ns + [n], q'[j]) {
      StatusesOfAppend(ns, n, q'[j].id);
      if j < |q| {
        assert TaskTracked(ns, q[j]);
      }
    }
  }

  /** The notices the runner issues for one task: `running`, then its terminal status; none unless it was pending. */
  function Steps(t: Task): seq<Notice>
  {
    if t.status == Pending then [Notice(t.id, Running), Notice(t.id, Processed(t).status)] else []
  }

  /** The notices of one drain pass over `q`: the pending tasks' steps, in queue order. */
  function RunNotices(q: seq<Task>): seq<Notice>
  {
    if q == [] then [] else RunNotices(q[..|q| - 1]) + Steps(q[|q| - 1])
  }

  /** Tasks that are not pending add no notices to a drain pass. */
  lemma {:induction false} RunNoticesSkip(q: seq<Task>, k: nat, i: nat)
    requires k <= i <= |q|
    requires forall j | k <= j < i :: q[j].status != Pending
    ensures RunNotices(q[..i]) == RunNotices(q[..k])
  {
    if k < i {
      assert q[..i][..i - 1] == q[..i - 1];
      RunNoticesSkip(q, k, i - 1);
    }
  }

  /**
   * Single flight: a drain pass notifies two statuses per pending task, and
   * every `running` notice is followed by the terminal notice of the same
   * task before the next task is started.
   */
  lemma {:induction false} RunAlternates(q: seq<Task>)
    ensures |RunNotices(q)| == 2 * PendingCount(q)
    ensures forall e | 0 <= e < |RunNotices(q)| :: (RunNotices(q)[e].status == Running) == (e % 2 == 0)
    ensures forall e | 0 <= e < |RunNotices(q)| && e % 2 == 1 ::
              IsTerminal(RunNotices(q)[e].status) && RunNotices(q)[e].taskId == RunNotices(q)[e - 1].taskId
  {
    if q != [] {
      var p := q[..|q| - 1];
      RunAlternates(p);
    }
  }

  /** The tasks a series of notices reports as started, in order. */
  function StartedIds(ns: seq<Notice>): seq<TaskId>
  {
    if ns == [] then []
    else StartedIds(ns[..|ns| - 1]) + (if ns[|ns| - 1].status == Running then [ns[|ns| - 1].taskId] else [])
  }

  lemma {:induction false} StartedIdsAppend(a: seq<Notice>, b: seq<Notice>)
    ensures StartedIds(a + b) == StartedIds(a) + StartedIds(b)
  {
    if b == [] {
      assert a + b == a;
    } else {
      var n := |b| - 1;
      assert (a + b)[..|a + b| - 1] == a + b[..n];
      StartedIdsAppend(a, b[..n]);
    }
  }

  /** The ids of the tasks `ts`, in order. */
  function Ids(ts: seq<Task>): (r: seq<TaskId>)
    ensures |r| == |ts| && forall k | 0 <= k < |ts| :: r[k] == ts[k].id
  {
    seq(|ts|, k requires 0 <= k < |ts| => ts[k].id)
  }

  /** The ids of a concatenation are the concatenated ids. */
  lemma IdsAppend(a: seq<Task>, b: seq<Task>)
    ensures Ids(a + b) == Ids(a) + Ids(b)
  {
  }

  /** The one task a step starts, if any. */
  lemma StartedBySteps(t: Task)
    ensures StartedIds(Steps(t)) == if t.status == Pending then [t.id] else []
  {
    if t.status == Pending {
      var s := Steps(t);
      ProcessedSpec(t);
      assert IsTerminal(s[1].status);
      assert s[..1] == [Notice(t.id, Running)];
      assert StartedIds(s[..1]) == [t.id] by {
        assert s[..1][..0] == [];
      }
      assert StartedIds(s) == StartedIds(s[..1]) + [];
    }
  }

  /**
   * First in, first out: a drain pass starts exactly the tasks that
   * `list({ status: 'pending' })` would have returned before it, in that order.
   */
  lemma {:induction false} RunStartOrder(q: seq<Task>)
    ensures StartedIds(RunNotices(q)) == Ids(Select(q, PendingOnly))
  {
    if q != [] {
      var p, t := q[..|q| - 1], q[|q| - 1];
      assert q == p + [t];
      var sel := Select(p, PendingOnly);
      var more := if t.status == Pending then [t] else [];
      calc {
        StartedIds(RunNotices(q));
        StartedIds(RunNotices(p) + Steps(t));
        { StartedIdsAppend(RunNotices(p), Steps(t)); }
        StartedIds(RunNotices(p)) + StartedIds(Steps(t));
        { RunStartOrder(p); StartedBySteps(t); }
        Ids(sel) + Ids(more);
        { IdsAppend(sel, more); }
        Ids(sel + more);
        { SelectAppend(p, t, PendingOnly); MatchesPendingOnly(t); }
        Ids(Select(q, PendingOnly));
      }
    }
  }
}
