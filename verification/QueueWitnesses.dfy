/** The findings about the queue happen: histories of plain operations that restart what was paused, leave a slot
    empty with somebody waiting, or forget that a task had ended. */
module QueueWitnesses {
  import opened Bytes
  import opened DownloadQueue
  import opened QueueTheorems

  /** The running tasks of a queue filled one by one: `k - 1`, ..., 0. */
  function Filled(k: nat): seq<Task> { seq(k, i => Task(k - 1 - i, DOWNLOADING)) }

  lemma {:induction false} FilledActive(k: nat)
    ensures Sum(Running, Filled(k)) == k
  {
    if k > 0 {
      assert Filled(k)[0] == Task(k - 1, DOWNLOADING) && Filled(k)[1..] == Filled(k - 1);
      FilledActive(k - 1);
    }
  }

  /** One more task, started at once: it runs if a slot is free, and waits in front otherwise. */
  lemma {:induction false} EnqueueFilled(q: Queue, k: nat, cap: nat)
    requires q.tasks == Filled(k) && k <= cap && !q.Blocked()
    ensures var r := Enqueue(q, k, true, cap);
      && !r.Blocked() && r.db.Keys == q.db.Keys + {k as int}
      && (r.tasks == if k < cap then Filled(k + 1) else [Task(k, QUEUED)] + Filled(k))
      && (k == cap ==> r.db[k] == QUEUED)
  {
    var q' := q.(tasks := [Task(k, QUEUED)] + q.tasks, db := q.db[k := QUEUED]);
    FilledActive(k);
    SumAppend(Running, [Task(k, QUEUED)], q.tasks);
    SumZero(Running, [Task(k, QUEUED)]);
    assert Active(q') == k;
    if k < cap {
      var started := SetStatus(q', 0, DOWNLOADING);
      assert started.tasks == Filled(k + 1);
      StartsNobody(started, 1, k + 1, cap);
    }
  }

  lemma {:induction false} StartsNobody(q: Queue, i: nat, n: int, cap: int)
    requires NoneQueued(q, i)
    ensures PumpFrom(q, i, n, cap) == q
    decreases |q.tasks| - i
  {
    if i < |q.tasks| {
      StartsNobody(q, i + 1, n, cap);
    }
  }

  lemma {:induction false} FillUp(cap: nat, k: nat) returns (states: seq<Queue>, ops: seq<Op>)
    requires k <= cap
    ensures History(states, ops, cap) && states[|states| - 1].tasks == Filled(k) && !states[|states| - 1].Blocked()
  {
    if k == 0 {
      states, ops := [Queue([], map[], false, false)], [];
    } else {
      states, ops := FillUp(cap, k - 1);
      states, ops := EnqueueNext(states, ops, cap, k - 1);
    }
  }

  lemma {:induction false} EnqueueNext(states: seq<Queue>, ops: seq<Op>, cap: nat, k: nat)
    returns (states': seq<Queue>, ops': seq<Op>)
    requires History(states, ops, cap) && k <= cap
    requires states[|states| - 1].tasks == Filled(k) && !states[|states| - 1].Blocked()
    ensures History(states', ops', cap) && !states'[|states'| - 1].Blocked()
    ensures states'[|states'| - 1].db.Keys == states[|states| - 1].db.Keys + {k as int}
    ensures states'[|states'| - 1].tasks == if k < cap then Filled(k + 1) else [Task(k, QUEUED)] + Filled(k)
  {
    var q, op := states[|states| - 1], DoEnqueue(k, true);
    EnqueueFilled(q, k, cap);
    hide Enqueue;
    HistorySnoc(states, ops, cap, op);
    states', ops' := states + [Apply(q, op, cap)], ops + [op];
  }

  lemma {:induction false} HistorySnoc(states: seq<Queue>, ops: seq<Op>, cap: int, op: Op)
    requires History(states, ops, cap) && Allowed(states[|states| - 1], op)
    ensures History(states + [Apply(states[|states| - 1], op, cap)], ops + [op], cap)
  {
    hide Apply, Allowed;
    var q := states[|states| - 1];
    var all, more := states + [Apply(q, op, cap)], ops + [op];
    forall i | 0 <= i < |more| ensures Allowed(all[i], more[i]) && all[i + 1] == Apply(all[i], more[i], cap) {
      if i < |ops| {
        assert all[i] == states[i] && all[i + 1] == states[i + 1] && more[i] == ops[i];
      }
    }
  }

  /** "Pause all" that restarts: enqueueing one task more than there are slots is enough. */
  lemma PauseAllRestarts(cap: nat) returns (states: seq<Queue>, ops: seq<Op>)
    requires 0 < cap
    ensures History(states, ops, cap)
    ensures var q := states[|states| - 1]; !NoneRunning(q) && QueuedAhead(q) && !NoneRunning(PauseAll(q, cap))
  {
    states, ops := FillUp(cap, cap);
    states, ops := EnqueueNext(states, ops, cap, cap);
    var q := states[|states| - 1];
    assert q.tasks[0].status == QUEUED && q.tasks[1].status == DOWNLOADING;
    HistoryGood(states, ops, cap, |states| - 1);
    hide Good, PauseFrom;
    PauseAllIff(q, cap);
  }

  /** A completed download that a restart brings back as paused: one late progress report is enough. */
  lemma LateProgressForgets(cap: nat) returns (states: seq<Queue>, ops: seq<Op>)
    requires 0 < cap
    ensures History(states, ops, cap) && |states| >= 2
    ensures ops[|ops| - 1].Restart?
    ensures var was, now := states[|states| - 2], states[|states| - 1];
      was.tasks == [Task(0, COMPLETED)] && now.tasks == [Task(0, PAUSED)]
  {
    states, ops := [Queue([], map[], false, false)], [];
    states, ops := EnqueueNext(states, ops, cap, 0);
    var q0 := states[|states| - 1];
    assert q0.tasks == [Task(0, DOWNLOADING)];
    HistoryCoherent(states, ops, cap, |states| - 1);
    assert RowOk(q0, q0.tasks[0]);
    var q1 := Apply(q0, Done(0), cap);
    var q2 := Apply(q1, Progress(0), cap);
    assert q1.tasks == [Task(0, COMPLETED)] && q2.tasks == q1.tasks && q2.db[0] == DOWNLOADING;
    HistorySnoc(states, ops, cap, Done(0));
    HistorySnoc(states + [q1], ops + [Done(0)], cap, Progress(0));
    states, ops := states + [q1] + [q2], ops + [Done(0)] + [Progress(0)];
    assert Lists([0], q2.db);
    var q3 := Apply(q2, Restart([0]), cap);
    assert q3.tasks == [Task(0, PAUSED)];
    HistorySnoc(states, ops, cap, Restart([0]));
    states, ops := states + [q3], ops + [Restart([0])];
  }

  /** A history with all slots taken, by tasks `cap - 1` to 0 in list order, and task `cap` waiting in front. */
  lemma {:induction false} OneWaits(cap: nat) returns (states: seq<Queue>, ops: seq<Op>)
    requires 0 < cap
    ensures History(states, ops, cap)
    ensures var q := states[|states| - 1];
      && Good(q, cap) && q.tasks == [Task(cap, QUEUED)] + Filled(cap) && Full(q, cap)
      && q.tasks[cap] == Task(0, DOWNLOADING) && Find(q.tasks, 0) == cap && Frees(q, cap, cap)
      && cap in q.db && q.db[cap] == QUEUED
  {
    states, ops := FillUp(cap, cap);
    var full, op := states[|states| - 1], DoEnqueue(cap, true);
    EnqueueFilled(full, cap, cap);
    HistorySnoc(states, ops, cap, op);
    var q := Enqueue(full, cap, true, cap);
    hide Enqueue;
    states, ops := states + [q], ops + [op];
    HistoryGood(states, ops, cap, |states| - 1);
    FilledActive(cap);
    SumAppend(Running, [Task(cap, QUEUED)], Filled(cap));
    SumZero(Running, [Task(cap, QUEUED)]);
    assert q.tasks[0].status == QUEUED;
    assert q.tasks[cap] == Filled(cap)[cap - 1];
  }

  /** Taking a running task off the list, or failing to start it natively, leaves its slot empty with somebody
      waiting, for every cap. */
  lemma FreedSlotStaysEmpty(cap: nat, op: Op) returns (states: seq<Queue>, ops: seq<Op>)
    requires 0 < cap && op in {DoRemove(0), StartFailed(0)}
    ensures History(states, ops, cap) && |states| >= 2 && ops[|ops| - 1] == op
    ensures Full(states[|states| - 2], cap) && !Full(states[|states| - 1], cap)
  {
    states, ops := OneWaits(cap);
    var q := states[|states| - 1];
    hide Good, Full, Frees, Find, RemoveTask, Ended;
    StaysFullIff(q, op, cap);
    HistorySnoc(states, ops, cap, op);
    states, ops := states + [Apply(q, op, cap)], ops + [op];
  }

  /** Every finite set of ids can be listed. */
  lemma {:induction false} Listing(ids: set<int>) returns (order: seq<int>)
    ensures forall i, j :: 0 <= i < j < |order| ==> order[i] != order[j]
    ensures forall id :: id in order <==> id in ids
  {
    order := [];
    if id :| id in ids {
      var rest := Listing(ids - {id});
      order := [id] + rest;
      forall i, j | 0 <= i < j < |order| ensures order[i] != order[j] {
        assert order[j] in rest;
      }
    }
  }

  /** So does the process, when it dies and comes back: the waiting task is still QUEUED and every slot is free. */
  lemma RestartLeavesSlotsEmpty(cap: nat) returns (states: seq<Queue>, ops: seq<Op>)
    requires 0 < cap
    ensures History(states, ops, cap) && |states| >= 2 && ops[|ops| - 1].Restart?
    ensures Full(states[|states| - 2], cap) && !Full(states[|states| - 1], cap)
  {
    states, ops := OneWaits(cap);
    var q := states[|states| - 1];
    var order := Listing(q.db.Keys);
    assert Lists(order, q.db);
    hide Full, Reload, Lists, Good, Frees;
    ReloadLeavesEmpty(q, order, cap);
    HistorySnoc(states, ops, cap, Restart(order));
    states, ops := states + [Reload(q, order)], ops + [Restart(order)];
  }

  /** ... and a network lost to a Wi-Fi without internet, after Wi-Fi mode has held a task back. */
  lemma LostNetworkLeavesSlotsEmpty(cap: nat) returns (states: seq<Queue>, ops: seq<Op>)
    requires 0 < cap
    ensures History(states, ops, cap) && |states| >= 2 && ops[|ops| - 1] == Network(false, true)
    ensures Full(states[|states| - 2], cap) && !Full(states[|states| - 1], cap)
  {
    var q0 := Queue([], map[], false, false);
    var q1 := Queue([], map[], true, false);
    var q2 := Queue([Task(0, QUEUED)], map[0 := QUEUED], true, false);
    var q3 := Queue([Task(0, QUEUED)], map[0 := QUEUED], true, true);
    assert Apply(q0, DoWifiOnly(true), cap) == q1;
    assert Apply(q1, DoEnqueue(0, true), cap) == q2;
    PauseNothing(q3, 0, cap);
    assert Apply(q2, Network(false, true), cap) == q3;
    SumZero(Running, q3.tasks);
    assert q3.tasks[0].status == QUEUED;
    states, ops := [q0, q1, q2, q3], [DoWifiOnly(true), DoEnqueue(0, true), Network(false, true)];
  }
}
