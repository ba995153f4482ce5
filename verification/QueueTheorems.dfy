/** What the download queue keeps over every sequence of operations, callbacks, network changes and restarts
    (android/app/src/main/java/com/downloadengine/app/service/DownloadQueueManager.java:64-523). */
module QueueTheorems {
  import opened Bytes
  import opened DownloadQueue

  // ---------------------------------------------------------------- pump

  /** Nothing in memory but some QUEUED tasks from `i` on became DOWNLOADING. */
  ghost predicate Started(q: Queue, r: Queue, i: nat) {
    && |r.tasks| == |q.tasks| && r.wifiOnly == q.wifiOnly && r.wifi == q.wifi
    && (forall j :: 0 <= j < |q.tasks| ==> r.tasks[j].id == q.tasks[j].id)
    && (forall j :: 0 <= j < |q.tasks| ==>
          r.tasks[j] == q.tasks[j] || (i <= j && q.tasks[j].status == QUEUED && r.tasks[j].status == DOWNLOADING))
  }

  /** First come, first served: no QUEUED task is passed over for one behind it. */
  ghost predicate InOrder(q: Queue, r: Queue, i: nat)
    requires |r.tasks| == |q.tasks|
  {
    forall j, k :: i <= j < k < |q.tasks| && q.tasks[j].status == QUEUED && r.tasks[k] != q.tasks[k] ==> r.tasks[j] != q.tasks[j]
  }

  ghost predicate NoneQueued(q: Queue, i: nat) {
    forall j :: i <= j < |q.tasks| ==> q.tasks[j].status != QUEUED
  }

  lemma {:induction false} StartOne(q: Queue, i: nat)
    requires i < |q.tasks| && q.tasks[i].status == QUEUED
    ensures Active(SetStatus(q, i, DOWNLOADING)) == Active(q) + 1
  {
    SumUpdate(Running, q.tasks, i, Task(q.tasks[i].id, DOWNLOADING));
  }

  lemma {:induction false} PumpFromFacts(q: Queue, i: nat, n: int, cap: int)
    requires n == Active(q) < cap
    ensures var r := PumpFrom(q, i, n, cap);
      && Started(q, r, i) && InOrder(q, r, i)
      && Active(r) <= cap && (Active(r) == cap || NoneQueued(r, i))
    decreases |q.tasks| - i
  {
    hide Active;
    if i < |q.tasks| {
      if q.tasks[i].status != QUEUED {
        PumpFromFacts(q, i + 1, n, cap);
      } else {
        var q' := SetStatus(q, i, DOWNLOADING);
        StartOne(q, i);
        if n + 1 < cap {
          PumpFromFacts(q', i + 1, n + 1, cap);
        }
      }
    }
  }

  /** `pumpQueue`: never past the cap; and, unless Wi-Fi mode blocks it, it stops only with the cap reached or no
      task QUEUED. Tasks are started in list order and nothing else changes. */
  lemma PumpFills(q: Queue, cap: int)
    requires Active(q) <= cap
    ensures var r := Pump(q, cap);
      && Started(q, r, 0) && InOrder(q, r, 0)
      && Active(r) <= cap
      && (!q.Blocked() ==> Active(r) == cap || NoneQueued(r, 0))
      && (q.Blocked() ==> r == q)
  {
    if !q.Blocked() && Active(q) < cap {
      PumpFromFacts(q, 0, Active(q), cap);
    }
  }

  // ----------------------------------------------------------------- cap

  ghost predicate Good(q: Queue, cap: int) { Active(q) <= cap && q.Distinct() }

  lemma {:induction false} SetActive(q: Queue, i: nat, s: Status)
    requires i < |q.tasks|
    ensures Active(SetStatus(q, i, s)) == Active(q) - Running(q.tasks[i]) + (if s == DOWNLOADING then 1 else 0)
  {
    SumUpdate(Running, q.tasks, i, Task(q.tasks[i].id, s));
  }

  lemma {:induction false} SetGood(q: Queue, i: nat, s: Status, cap: int)
    requires Good(q, cap) && i < |q.tasks| && s != DOWNLOADING
    ensures Good(SetStatus(q, i, s), cap)
  {
    SetActive(q, i, s);
  }

  lemma {:induction false} PumpGood(q: Queue, cap: int)
    requires Good(q, cap)
    ensures Good(Pump(q, cap), cap)
  {
    PumpFills(q, cap);
    hide Pump, Active, InOrder;
  }

  lemma {:induction false} RemoveActive(tasks: seq<Task>, i: nat)
    requires i < |tasks|
    ensures Sum(Running, Remove(tasks, i)) == Sum(Running, tasks) - Running(tasks[i])
  {
    assert tasks == tasks[..i] + ([tasks[i]] + tasks[i + 1..]);
    SumAppend(Running, tasks[..i], [tasks[i]] + tasks[i + 1..]);
    assert ([tasks[i]] + tasks[i + 1..])[1..] == tasks[i + 1..];
    SumAppend(Running, tasks[..i], tasks[i + 1..]);
  }

  lemma {:induction false} RemoveGood(q: Queue, id: int, cap: int)
    requires Good(q, cap)
    ensures Good(RemoveTask(q, id), cap)
  {
    var i := Find(q.tasks, id);
    if i < |q.tasks| {
      RemoveActive(q.tasks, i);
      hide Sum;
    }
  }

  lemma {:induction false} SweepGood(q: Queue, i: nat, f: Status -> Status, cap: int)
    requires Good(q, cap) && (forall s :: f(s) != DOWNLOADING || s == DOWNLOADING)
    ensures Good(Sweep(q, i, f), cap)
    decreases |q.tasks| - i
  {
    if i < |q.tasks| {
      hide Good;
      var s := f(q.tasks[i].status);
      if s == q.tasks[i].status {
        SweepGood(q, i + 1, f, cap);
      } else {
        SetGood(q, i, s, cap);
        SweepGood(SetStatus(q, i, s), i + 1, f, cap);
      }
    }
  }

  lemma {:induction false} CompletedOnly(tasks: seq<Task>)
    requires forall i, j :: 0 <= i < j < |tasks| ==> tasks[i].id != tasks[j].id
    ensures var c := Completed(tasks);
      && Sum(Running, c) == 0
      && (forall t :: t in c ==> exists k :: 0 <= k < |tasks| && tasks[k] == t)
      && (forall i, j :: 0 <= i < j < |c| ==> c[i].id != c[j].id)
  {
    if tasks != [] {
      var rest := tasks[1..];
      CompletedOnly(rest);
      var c := Completed(rest);
      forall t | t in c ensures exists k :: 1 <= k < |tasks| && tasks[k] == t {
        var k :| 0 <= k < |rest| && rest[k] == t;
        assert tasks[k + 1] == t;
      }
      if tasks[0].status == COMPLETED {
        assert ([tasks[0]] + c)[1..] == c;
        forall j | 0 <= j < |c| ensures c[j].id != tasks[0].id {
          assert c[j] in c;
        }
      }
    }
  }

  lemma {:induction false} PauseGood(q: Queue, id: int, cap: int)
    requires Good(q, cap)
    ensures Good(Pause(q, id, cap), cap)
  {
    var i := Find(q.tasks, id);
    if i < |q.tasks| && q.tasks[i].status == DOWNLOADING {
      hide Good, Pump;
      SetGood(q, i, PAUSED, cap);
      PumpGood(SetStatus(q, i, PAUSED), cap);
    }
  }

  lemma {:induction false} PauseFromGood(q: Queue, i: nat, cap: int)
    requires Good(q, cap)
    ensures Good(PauseFrom(q, i, cap), cap)
    decreases |q.tasks| - i
  {
    hide Good, Pause;
    if i < |q.tasks| {
      if q.tasks[i].status != DOWNLOADING {
        PauseFromGood(q, i + 1, cap);
      } else {
        PauseGood(q, q.tasks[i].id, cap);
        PauseFromGood(Pause(q, q.tasks[i].id, cap), i + 1, cap);
      }
    }
  }

  lemma {:induction false} AddGood(q: Queue, added: seq<Task>, db: map<int, Status>, cap: int)
    requires Good(q, cap) && Sum(Running, added) == 0
    requires forall i, j :: 0 <= i < j < |added| ==> added[i].id != added[j].id
    requires forall i, j :: 0 <= i < |q.tasks| && 0 <= j < |added| ==> q.tasks[i].id != added[j].id
    ensures Good(q.(tasks := added + q.tasks, db := db), cap)
  {
    SumAppend(Running, added, q.tasks);
  }

  lemma {:induction false} BatchIdle(ids: seq<int>)
    ensures Sum(Running, Batch(ids)) == 0
  {
    SumZero(Running, Batch(ids));
  }

  lemma {:induction false} RestoredIdle(db: map<int, Status>, ids: seq<int>)
    requires forall i :: 0 <= i < |ids| ==> ids[i] in db
    ensures Sum(Running, Restored(db, ids)) == 0
  {
    SumZero(Running, Restored(db, ids));
  }

  lemma {:induction false} CompletedGood(q: Queue, cap: int)
    requires Good(q, cap) && 0 <= cap
    ensures Good(q.(tasks := Completed(q.tasks), db := Dropped(q.db, q.tasks)), cap)
  {
    CompletedOnly(q.tasks);
  }

  lemma {:induction false} ApplyGood(q: Queue, op: Op, cap: int)
    requires Good(q, cap) && Allowed(q, op) && 0 <= cap
    ensures Good(Apply(q, op, cap), cap)
  {
    match op
    case DoEnqueue(id, now) =>
      var s := if now then QUEUED else PAUSED;
      SumZero(Running, [Task(id, s)]);
      AddGood(q, [Task(id, s)], q.db[id := s], cap);
      hide Good;
      PumpGood(q.(tasks := [Task(id, s)] + q.tasks, db := q.db[id := s]), cap);
    case DoBatch(ids) =>
      BatchIdle(ids);
      AddGood(q, Batch(ids), Inserted(q.db, ids), cap);
      hide Good;
      PumpGood(q.(tasks := Batch(ids) + q.tasks, db := Inserted(q.db, ids)), cap);
    case DoPause(id) => PauseGood(q, id, cap);
    case DoResume(id) =>
      var i := Find(q.tasks, id);
      if i < |q.tasks| {
        SetGood(q, i, QUEUED, cap);
        PumpGood(SetStatus(q, i, QUEUED), cap);
      }
    case DoCancel(id) =>
      RemoveGood(q, id, cap);
      PumpGood(RemoveTask(q, id), cap);
    case DoRemove(id) => RemoveGood(q, id, cap);
    case DoResumeAll =>
      SweepGood(q, 0, Requeued, cap);
      PumpGood(Sweep(q, 0, Requeued), cap);
    case DoStopAll => SweepGood(q, 0, Stopped, cap);
    case DoCancelAll =>
      CompletedGood(q, cap);
      PumpGood(q.(tasks := Completed(q.tasks), db := Dropped(q.db, q.tasks)), cap);
    case DoDeleteAll =>
    case DoWifiOnly(on) =>
      var q' := q.(wifiOnly := on);
      PauseFromGood(q', 0, cap);
      PumpGood(q', cap);
    case Network(connected, isWifi) =>
      var q' := q.(wifi := isWifi);
      PauseFromGood(q', 0, cap);
      PumpGood(q', cap);
    case Progress(id) =>
    case Done(id) => EndedGood(q, id, COMPLETED, cap);
    case Failed(id) => EndedGood(q, id, ERROR, cap);
    case StartFailed(id) => EndedGood(q, id, ERROR, cap);
    case PostedPump => PumpGood(q, cap);
    case Restart(order) => RestoredIdle(q.db, order);
  }

  lemma {:induction false} EndedGood(q: Queue, id: int, s: Status, cap: int)
    requires Good(q, cap) && s != DOWNLOADING
    ensures Good(Ended(q, id, s), cap)
  {
    if Find(q.tasks, id) < |q.tasks| {
      SetGood(q, Find(q.tasks, id), s, cap);
    }
  }

  /** A history of the queue: from a fresh process on any database, through any operations. */
  ghost predicate History(states: seq<Queue>, ops: seq<Op>, cap: int) {
    && |states| == |ops| + 1 && states[0].tasks == []
    && forall i :: 0 <= i < |ops| ==> Allowed(states[i], ops[i]) && states[i + 1] == Apply(states[i], ops[i], cap)
  }

  lemma {:induction false} HistoryGood(states: seq<Queue>, ops: seq<Op>, cap: int, k: nat)
    requires History(states, ops, cap) && 0 <= cap && k < |states|
    ensures Good(states[k], cap)
  {
    if k > 0 {
      HistoryGood(states, ops, cap, k - 1);
      assert states[k] == Apply(states[k - 1], ops[k - 1], cap);
      hide Good, Apply;
      ApplyGood(states[k - 1], ops[k - 1], cap);
    }
  }

  /** Never more than `mMaxConcurrent` downloads, whatever is called, reported or restarted in whatever order. */
  lemma CapHolds(states: seq<Queue>, ops: seq<Op>, cap: int, k: nat)
    requires History(states, ops, cap) && 0 <= cap && k < |states|
    ensures |Downloading(states[k])| <= cap
  {
    HistoryGood(states, ops, cap, k);
    DownloadingCount(states[k].tasks);
  }

  /** The ids of the running tasks. */
  function Downloading(q: Queue): set<int> { RunningIds(q.tasks) }

  function RunningIds(tasks: seq<Task>): set<int> { set t | t in tasks && t.status == DOWNLOADING :: t.id }

  lemma {:induction false} DownloadingCount(tasks: seq<Task>)
    ensures |RunningIds(tasks)| <= Sum(Running, tasks)
  {
    if tasks != [] {
      DownloadingCount(tasks[1..]);
      var head := if tasks[0].status == DOWNLOADING then {tasks[0].id} else {};
      assert RunningIds(tasks) <= head + RunningIds(tasks[1..]);
      SubsetSize(RunningIds(tasks), head + RunningIds(tasks[1..]));
    }
  }

  // ----------------------------------------------------- pausing everything

  /** Some QUEUED task stands before the first DOWNLOADING one. */
  ghost predicate QueuedAhead(q: Queue) {
    exists i :: 0 <= i < |q.tasks| && q.tasks[i].status == QUEUED && forall j :: 0 <= j < i ==> q.tasks[j].status != DOWNLOADING
  }

  ghost predicate NoneRunning(q: Queue) { forall j :: 0 <= j < |q.tasks| ==> q.tasks[j].status != DOWNLOADING }

  /** Nothing before `i` runs or waits, and whatever waits from `i` on stands behind something that runs. */
  ghost predicate Led(q: Queue, i: nat) {
    && (forall j :: 0 <= j < i && j < |q.tasks| ==> q.tasks[j].status != DOWNLOADING && q.tasks[j].status != QUEUED)
    && (forall k :: i <= k < |q.tasks| && q.tasks[k].status == QUEUED ==> RunsBetween(q, i, k))
  }

  /** The first task waiting. */
  ghost predicate Next(q: Queue, k: nat)
    requires k < |q.tasks|
  {
    q.tasks[k].status == QUEUED && forall j :: 0 <= j < k ==> q.tasks[j].status != QUEUED
  }

  ghost predicate RunsBetween(q: Queue, i: nat, k: nat)
    requires k <= |q.tasks|
  {
    exists j :: i <= j < k && q.tasks[j].status == DOWNLOADING
  }

  /** A running task is paused, and if the queue is not blocked the first task waiting takes its place. */
  lemma {:induction false} PauseOne(q: Queue, i: nat, cap: int)
    requires Good(q, cap) && i < |q.tasks| && q.tasks[i].status == DOWNLOADING
    ensures var p, r := SetStatus(q, i, PAUSED), Pause(q, q.tasks[i].id, cap);
      && Good(r, cap) && Started(p, r, 0) && InOrder(p, r, 0)
      && (q.Blocked() ==> r == p)
      && (!q.Blocked() ==> forall k :: 0 <= k < |q.tasks| && Next(q, k) ==> r.tasks[k].status == DOWNLOADING)
  {
    var p := SetStatus(q, i, PAUSED);
    SetActive(q, i, PAUSED);
    SetGood(q, i, PAUSED, cap);
    PumpFills(p, cap);
    PumpGood(p, cap);
    if !q.Blocked() {
      var r := Pump(p, cap);
      hide Pump, Active, Good;
      forall k | 0 <= k < |q.tasks| && Next(q, k) ensures r.tasks[k].status == DOWNLOADING {
        assert Next(p, k);
        FirstStarts(p, r, k, cap);
      }
    }
  }

  lemma {:induction false} FirstStarts(p: Queue, r: Queue, k: nat, cap: int)
    requires Started(p, r, 0) && InOrder(p, r, 0) && Active(p) < cap
    requires Active(r) == cap || NoneQueued(r, 0)
    requires k < |p.tasks| && Next(p, k)
    ensures r.tasks[k].status == DOWNLOADING
  {
    NoneStarts(p, r, k);
  }

  lemma {:induction false} NoneStarts(p: Queue, r: Queue, k: nat)
    requires Started(p, r, 0) && InOrder(p, r, 0) && k < |p.tasks| && Next(p, k)
    ensures r.tasks[k] == p.tasks[k] ==> r.tasks == p.tasks
  {
    if r.tasks[k] == p.tasks[k] {
      forall j | 0 <= j < |p.tasks| ensures r.tasks[j] == p.tasks[j] {
        assert r.tasks[j] == p.tasks[j] || j <= k;
      }
    }
  }

  lemma {:induction false} PauseBlocked(q: Queue, i: nat, cap: int)
    requires Good(q, cap) && q.Blocked() && forall j :: 0 <= j < i && j < |q.tasks| ==> q.tasks[j].status != DOWNLOADING
    ensures NoneRunning(PauseFrom(q, i, cap))
    decreases |q.tasks| - i
  {
    hide Good, Pause;
    if i < |q.tasks| {
      if q.tasks[i].status != DOWNLOADING {
        PauseBlocked(q, i + 1, cap);
      } else {
        PauseOne(q, i, cap);
        PauseBlocked(Pause(q, q.tasks[i].id, cap), i + 1, cap);
      }
    }
  }

  lemma {:induction false} PauseLed(q: Queue, i: nat, cap: int)
    requires Good(q, cap) && !q.Blocked() && Led(q, i)
    ensures NoneRunning(PauseFrom(q, i, cap))
    decreases |q.tasks| - i
  {
    hide Good, Pause;
    if i < |q.tasks| {
      if q.tasks[i].status != DOWNLOADING {
        LedOn(q, i);
        PauseLed(q, i + 1, cap);
      } else {
        PauseOne(q, i, cap);
        var r := Pause(q, q.tasks[i].id, cap);
        LedAfterPause(q, i, r);
        PauseLed(r, i + 1, cap);
      }
    }
  }

  lemma {:induction false} LedOn(q: Queue, i: nat)
    requires Led(q, i) && i < |q.tasks| && q.tasks[i].status != DOWNLOADING
    ensures Led(q, i + 1)
  {
    assert q.tasks[i].status == QUEUED ==> RunsBetween(q, i, i);
    forall k | i + 1 <= k < |q.tasks| && q.tasks[k].status == QUEUED ensures RunsBetween(q, i + 1, k) {
      assert RunsBetween(q, i, k);
    }
  }

  lemma {:induction false} LedAfterPause(q: Queue, i: nat, r: Queue)
    requires Led(q, i) && i < |q.tasks| && q.tasks[i].status == DOWNLOADING
    requires Started(SetStatus(q, i, PAUSED), r, 0)
    requires forall k :: 0 <= k < |q.tasks| && Next(q, k) ==> r.tasks[k].status == DOWNLOADING
    ensures Led(r, i + 1)
  {
    forall k | i + 1 <= k < |r.tasks| && r.tasks[k].status == QUEUED ensures RunsBetween(r, i + 1, k) {
      assert r.tasks[k] == q.tasks[k];
      var first := FirstQueued(q, k);
      assert r.tasks[first].status == DOWNLOADING;
    }
  }

  lemma {:induction false} FirstQueued(q: Queue, k: nat) returns (first: nat)
    requires k < |q.tasks| && q.tasks[k].status == QUEUED
    ensures first <= k && Next(q, first)
  {
    first := k;
    if j: nat :| j < k && q.tasks[j].status == QUEUED {
      first := FirstQueued(q, j);
    }
  }

  /** A task that runs behind the loop is never looked at again. */
  lemma {:induction false} PauseKeepsBehind(q: Queue, i: nat, cap: int, j: nat)
    requires Good(q, cap) && j < i && j < |q.tasks| && q.tasks[j].status == DOWNLOADING
    ensures var r := PauseFrom(q, i, cap); |r.tasks| == |q.tasks| && r.tasks[j].status == DOWNLOADING
    decreases |q.tasks| - i
  {
    hide Good, Pause;
    if i < |q.tasks| {
      if q.tasks[i].status != DOWNLOADING {
        PauseKeepsBehind(q, i + 1, cap, j);
      } else {
        PauseOne(q, i, cap);
        PauseKeepsBehind(Pause(q, q.tasks[i].id, cap), i + 1, cap, j);
      }
    }
  }

  /** The first running task is found with a QUEUED one, `k`, behind the loop already. */
  lemma {:induction false} PauseRestarts(q: Queue, i: nat, cap: int, k: nat)
    requires Good(q, cap) && !q.Blocked() && !NoneRunning(q)
    requires k < |q.tasks| && Next(q, k)
    requires forall j :: 0 <= j < |q.tasks| && (j < i || j <= k) ==> q.tasks[j].status != DOWNLOADING
    ensures !NoneRunning(PauseFrom(q, i, cap))
    decreases |q.tasks| - i
  {
    hide Good, Pause;
    if i < |q.tasks| {
      if q.tasks[i].status != DOWNLOADING {
        PauseRestarts(q, i + 1, cap, k);
      } else {
        PauseOne(q, i, cap);
        PauseKeepsBehind(Pause(q, q.tasks[i].id, cap), i + 1, cap, k);
      }
    }
  }

  lemma {:induction false} PauseNothing(q: Queue, i: nat, cap: int)
    requires NoneRunning(q)
    ensures PauseFrom(q, i, cap) == q
    decreases |q.tasks| - i
  {
    if i < |q.tasks| {
      PauseNothing(q, i + 1, cap);
    }
  }

  /** `pauseAllActive` leaves nothing running exactly when Wi-Fi mode blocks the queue, or nothing ran, or no task
      was waiting ahead of the first one running. Otherwise each pause starts a waiting task the loop has passed:
      as new tasks go in at the front, a lost network restarts downloads instead of stopping them. */
  lemma PauseAllIff(q: Queue, cap: int)
    requires Good(q, cap)
    ensures NoneRunning(PauseAll(q, cap)) <==> q.Blocked() || NoneRunning(q) || !QueuedAhead(q)
  {
    if q.Blocked() {
      PauseBlocked(q, 0, cap);
    } else if NoneRunning(q) {
      PauseNothing(q, 0, cap);
    } else if QueuedAhead(q) {
      var k :| 0 <= k < |q.tasks| && q.tasks[k].status == QUEUED && forall j :: 0 <= j < k ==> q.tasks[j].status != DOWNLOADING;
      var first := FirstQueued(q, k);
      PauseRestarts(q, 0, cap, first);
    } else {
      forall k | 0 <= k < |q.tasks| && q.tasks[k].status == QUEUED ensures RunsBetween(q, 0, k) {
      }
      PauseLed(q, 0, cap);
    }
  }

  // -------------------------------------------------- restart and the database

  /** Every task has a row, which shows its status, or DOWNLOADING if a late progress report overwrote it. */
  ghost predicate RowOk(q: Queue, t: Task) {
    t.id in q.db && (q.db[t.id] == t.status || q.db[t.id] == DOWNLOADING)
  }

  ghost predicate Coherent(q: Queue) {
    q.Distinct() && forall i :: 0 <= i < |q.tasks| ==> RowOk(q, q.tasks[i])
  }

  lemma {:induction false} SetCoherent(q: Queue, i: nat, s: Status)
    requires Coherent(q) && i < |q.tasks|
    ensures Coherent(SetStatus(q, i, s))
  {
    assert RowOk(q, q.tasks[i]);
    forall j | 0 <= j < |q.tasks| ensures RowOk(SetStatus(q, i, s), SetStatus(q, i, s).tasks[j]) {
      assert RowOk(q, q.tasks[j]);
    }
  }

  lemma {:induction false} PumpFromCoherent(q: Queue, i: nat, n: int, cap: int)
    requires Coherent(q)
    ensures Coherent(PumpFrom(q, i, n, cap))
    decreases |q.tasks| - i
  {
    hide Coherent;
    if i < |q.tasks| {
      if q.tasks[i].status != QUEUED {
        PumpFromCoherent(q, i + 1, n, cap);
      } else {
        SetCoherent(q, i, DOWNLOADING);
        if n + 1 < cap {
          PumpFromCoherent(SetStatus(q, i, DOWNLOADING), i + 1, n + 1, cap);
        }
      }
    }
  }

  lemma {:induction false} PumpCoherent(q: Queue, cap: int)
    requires Coherent(q)
    ensures Coherent(Pump(q, cap))
  {
    PumpFromCoherent(q, 0, Active(q), cap);
  }

  lemma {:induction false} SweepCoherent(q: Queue, i: nat, f: Status -> Status)
    requires Coherent(q)
    ensures Coherent(Sweep(q, i, f))
    decreases |q.tasks| - i
  {
    hide Coherent;
    if i < |q.tasks| {
      var s := f(q.tasks[i].status);
      if s == q.tasks[i].status {
        SweepCoherent(q, i + 1, f);
      } else {
        SetCoherent(q, i, s);
        SweepCoherent(SetStatus(q, i, s), i + 1, f);
      }
    }
  }

  lemma {:induction false} PauseFromCoherent(q: Queue, i: nat, cap: int)
    requires Coherent(q)
    ensures Coherent(PauseFrom(q, i, cap))
    decreases |q.tasks| - i
  {
    hide Coherent, Pump;
    if i < |q.tasks| {
      if q.tasks[i].status != DOWNLOADING {
        PauseFromCoherent(q, i + 1, cap);
      } else {
        PauseCoherent(q, q.tasks[i].id, cap);
        PauseFromCoherent(Pause(q, q.tasks[i].id, cap), i + 1, cap);
      }
    }
  }

  lemma {:induction false} PauseCoherent(q: Queue, id: int, cap: int)
    requires Coherent(q)
    ensures Coherent(Pause(q, id, cap))
  {
    hide Coherent, Pump;
    var i := Find(q.tasks, id);
    if i < |q.tasks| {
      SetCoherent(q, i, PAUSED);
      PumpCoherent(SetStatus(q, i, PAUSED), cap);
    }
  }

  lemma {:induction false} RemoveCoherent(q: Queue, id: int)
    requires Coherent(q)
    ensures Coherent(RemoveTask(q, id))
  {
    var i := Find(q.tasks, id);
    var r := RemoveTask(q, id);
    if i < |q.tasks| {
      forall j | 0 <= j < |r.tasks| ensures RowOk(r, r.tasks[j]) {
        assert r.tasks[j] == q.tasks[if j < i then j else j + 1];
        assert RowOk(q, q.tasks[if j < i then j else j + 1]);
      }
    } else {
      forall j | 0 <= j < |r.tasks| ensures RowOk(r, r.tasks[j]) {
        assert RowOk(q, q.tasks[j]) && q.tasks[j].id != id;
      }
    }
  }

  lemma {:induction false} InsertedRows(db: map<int, Status>, ids: seq<int>)
    ensures var r := Inserted(db, ids);
      && (forall id :: id in db ==> id in r && (r[id] == db[id] || id in ids))
      && (forall j :: 0 <= j < |ids| ==> ids[j] in r && r[ids[j]] == QUEUED)
    decreases |ids|
  {
    if ids != [] {
      var next := db[ids[0] := QUEUED];
      InsertedRows(next, ids[1..]);
      assert forall id :: id in ids[1..] ==> id in ids;
      assert ids[0] in next;
      if j :| 0 <= j < |ids[1..]| && ids[1..][j] == ids[0] {
        assert Inserted(next, ids[1..])[ids[1..][j]] == QUEUED;
      }
    }
  }

  lemma {:induction false} DroppedRows(db: map<int, Status>, tasks: seq<Task>, t: Task)
    requires t.id in db && forall k :: 0 <= k < |tasks| ==> (tasks[k].status != COMPLETED ==> tasks[k].id != t.id)
    ensures t.id in Dropped(db, tasks) && Dropped(db, tasks)[t.id] == db[t.id]
    decreases |tasks|
  {
    if tasks != [] {
      DroppedRows(if tasks[0].status == COMPLETED then db else db - {tasks[0].id}, tasks[1..], t);
    }
  }

  lemma {:induction false} CancelAllCoherent(q: Queue)
    requires Coherent(q)
    ensures Coherent(q.(tasks := Completed(q.tasks), db := Dropped(q.db, q.tasks)))
  {
    CompletedOnly(q.tasks);
    CompletedAre(q.tasks);
    var r := q.(tasks := Completed(q.tasks), db := Dropped(q.db, q.tasks));
    forall j | 0 <= j < |r.tasks| ensures RowOk(r, r.tasks[j]) {
      assert r.tasks[j] in r.tasks;
      var k :| 0 <= k < |q.tasks| && q.tasks[k] == r.tasks[j];
      assert RowOk(q, q.tasks[k]);
      DroppedRows(q.db, q.tasks, q.tasks[k]);
    }
  }

  lemma {:induction false} CompletedAre(tasks: seq<Task>)
    ensures forall t :: t in Completed(tasks) ==> t.status == COMPLETED
  {
    if tasks != [] {
      CompletedAre(tasks[1..]);
    }
  }

  lemma {:induction false} AddCoherent(q: Queue, added: seq<Task>, db: map<int, Status>)
    requires Coherent(q) && q.(tasks := added + q.tasks, db := db).Distinct()
    requires forall j :: 0 <= j < |added| ==> RowOk(q.(db := db), added[j])
    requires forall i :: 0 <= i < |q.tasks| ==> q.tasks[i].id in db && db[q.tasks[i].id] == q.db[q.tasks[i].id]
    ensures Coherent(q.(tasks := added + q.tasks, db := db))
  {
    var r := q.(tasks := added + q.tasks, db := db);
    forall j | 0 <= j < |r.tasks| ensures RowOk(r, r.tasks[j]) {
      if j < |added| {
        assert RowOk(q.(db := db), added[j]);
      } else {
        assert r.tasks[j] == q.tasks[j - |added|];
        assert RowOk(q, q.tasks[j - |added|]);
      }
    }
  }

  lemma {:induction false} BatchCoherent(q: Queue, ids: seq<int>)
    requires Coherent(q) && Allowed(q, DoBatch(ids))
    ensures Coherent(q.(tasks := Batch(ids) + q.tasks, db := Inserted(q.db, ids)))
  {
    InsertedRows(q.db, ids);
    forall i | 0 <= i < |q.tasks| ensures q.tasks[i].id in q.db && q.tasks[i].id !in ids {
      assert RowOk(q, q.tasks[i]);
    }
    AddCoherent(q, Batch(ids), Inserted(q.db, ids));
  }

  lemma {:induction false} RestoredCoherent(q: Queue, ids: seq<int>)
    requires Lists(ids, q.db)
    ensures Coherent(Reload(q, ids))
  {
  }

  lemma {:induction false} ApplyCoherent(q: Queue, op: Op, cap: int)
    requires Coherent(q) && Allowed(q, op)
    ensures Coherent(Apply(q, op, cap))
  {
    match op
    case DoEnqueue(id, now) =>
      var s := if now then QUEUED else PAUSED;
      forall i | 0 <= i < |q.tasks| ensures q.tasks[i].id in q.db {
        assert RowOk(q, q.tasks[i]);
      }
      AddCoherent(q, [Task(id, s)], q.db[id := s]);
      hide Coherent;
      PumpCoherent(q.(tasks := [Task(id, s)] + q.tasks, db := q.db[id := s]), cap);
    case DoBatch(ids) =>
      BatchCoherent(q, ids);
      hide Coherent;
      PumpCoherent(q.(tasks := Batch(ids) + q.tasks, db := Inserted(q.db, ids)), cap);
    case DoPause(id) => PauseCoherent(q, id, cap);
    case DoResume(id) =>
      hide Coherent;
      var i := Find(q.tasks, id);
      if i < |q.tasks| {
        SetCoherent(q, i, QUEUED);
        PumpCoherent(SetStatus(q, i, QUEUED), cap);
      }
    case DoCancel(id) =>
      hide Coherent;
      RemoveCoherent(q, id);
      PumpCoherent(RemoveTask(q, id), cap);
    case DoRemove(id) => RemoveCoherent(q, id);
    case DoResumeAll =>
      hide Coherent;
      SweepCoherent(q, 0, Requeued);
      PumpCoherent(Sweep(q, 0, Requeued), cap);
    case DoStopAll => SweepCoherent(q, 0, Stopped);
    case DoCancelAll =>
      hide Coherent;
      CancelAllCoherent(q);
      PumpCoherent(q.(tasks := Completed(q.tasks), db := Dropped(q.db, q.tasks)), cap);
    case DoDeleteAll =>
    case DoWifiOnly(on) => ModeCoherent(q, q.(wifiOnly := on), cap);
    case Network(connected, isWifi) => ModeCoherent(q, q.(wifi := isWifi), cap);
    case Progress(id) => ProgressCoherent(q, id);
    case Done(id) => EndedCoherent(q, id, COMPLETED);
    case Failed(id) => EndedCoherent(q, id, ERROR);
    case StartFailed(id) => EndedCoherent(q, id, ERROR);
    case PostedPump => PumpCoherent(q, cap);
    case Restart(order) => RestoredCoherent(q, order);
  }

  lemma {:induction false} ModeCoherent(q: Queue, q': Queue, cap: int)
    requires Coherent(q) && q'.tasks == q.tasks && q'.db == q.db
    ensures Coherent(PauseAll(q', cap)) && Coherent(Pump(q', cap))
  {
    forall i | 0 <= i < |q.tasks| ensures RowOk(q', q.tasks[i]) {
      assert RowOk(q, q.tasks[i]);
    }
    assert Coherent(q');
    hide Coherent;
    PauseFromCoherent(q', 0, cap);
    PumpCoherent(q', cap);
  }

  lemma {:induction false} ProgressCoherent(q: Queue, id: int)
    requires Coherent(q)
    ensures Coherent(OnProgress(q, id))
  {
    forall i | 0 <= i < |q.tasks| ensures RowOk(OnProgress(q, id), q.tasks[i]) {
      assert RowOk(q, q.tasks[i]);
    }
  }

  lemma {:induction false} EndedCoherent(q: Queue, id: int, s: Status)
    requires Coherent(q)
    ensures Coherent(Ended(q, id, s))
  {
    if Find(q.tasks, id) < |q.tasks| {
      SetCoherent(q, Find(q.tasks, id), s);
    }
  }

  lemma {:induction false} HistoryCoherent(states: seq<Queue>, ops: seq<Op>, cap: int, k: nat)
    requires History(states, ops, cap) && k < |states|
    ensures Coherent(states[k])
  {
    if k > 0 {
      HistoryCoherent(states, ops, cap, k - 1);
      assert states[k] == Apply(states[k - 1], ops[k - 1], cap);
      hide Coherent, Apply;
      ApplyCoherent(states[k - 1], ops[k - 1], cap);
    }
  }

  /** A restart from any database, whatever it says: nothing is DOWNLOADING, in memory or in the database; every
      row is there again, with its status unless that was DOWNLOADING. */
  lemma {:induction false} ReloadIsClean(q: Queue, ids: seq<int>)
    requires Lists(ids, q.db)
    ensures var r := Reload(q, ids);
      && NoneRunning(r) && r.db.Keys == q.db.Keys
      && (forall id :: id in r.db ==> r.db[id] != DOWNLOADING && (q.db[id] != DOWNLOADING ==> r.db[id] == q.db[id]))
      && (forall id :: id in q.db <==> Find(r.tasks, id) < |r.tasks|)
      && (forall i :: 0 <= i < |r.tasks| ==> r.tasks[i].id in r.db && r.db[r.tasks[i].id] == r.tasks[i].status)
  {
    var r := Reload(q, ids);
    forall id ensures id in q.db <==> Find(r.tasks, id) < |r.tasks| {
      var k := Find(r.tasks, id);
      assert k < |r.tasks| ==> r.tasks[k].id == ids[k] && ids[k] in q.db;
      if id in q.db {
        assert id in ids;
        var i :| 0 <= i < |ids| && ids[i] == id;
        assert r.tasks[i].id == id;
      }
    }
  }

  /** Task `i` of `q` is listed in `r`, in the status it had, or PAUSED; the status differs (a running download
      counting as paused) exactly when its row says DOWNLOADING though it had stopped. */
  ghost predicate ComesBack(q: Queue, r: Queue, i: nat)
    requires i < |q.tasks|
  {
    var t := q.tasks[i];
    var j := Find(r.tasks, t.id);
    && t.id in q.db && j < |r.tasks|
    && (r.tasks[j].status == Interrupted(t.status) || r.tasks[j].status == PAUSED)
    && (r.tasks[j].status != Interrupted(t.status) <==> q.db[t.id] == DOWNLOADING && t.status !in {DOWNLOADING, PAUSED})
  }

  lemma {:induction false} CoherentComesBack(q: Queue, order: seq<int>, i: nat)
    requires Coherent(q) && Lists(order, q.db) && i < |q.tasks|
    ensures ComesBack(q, Reload(q, order), i)
  {
    assert RowOk(q, q.tasks[i]);
    ReloadIsClean(q, order);
  }

  /** A crash loses no task: after any operation of any history a restart brings every task back; with another
      status than before only where a progress report came after the task had stopped. */
  lemma CrashKeepsTasks(states: seq<Queue>, ops: seq<Op>, cap: int, k: nat, order: seq<int>, i: nat)
    requires History(states, ops, cap) && k < |states| && Lists(order, states[k].db) && i < |states[k].tasks|
    ensures ComesBack(states[k], Reload(states[k], order), i)
  {
    HistoryCoherent(states, ops, cap, k);
    hide Coherent, ComesBack, Reload;
    CoherentComesBack(states[k], order, i);
  }

  ghost predicate ChangesOne(q: Queue, r: Queue) {
    exists j: nat, s :: j < |q.tasks| && r == SetStatus(q, j, s)
  }

  /** Status changes one after the other, as the loops of the operations make them. */
  ghost predicate Changes(mid: seq<Queue>) {
    mid != [] && forall n :: 0 <= n < |mid| - 1 ==> ChangesOne(mid[n], mid[n + 1])
  }

  lemma {:induction false} ChangesCoherent(mid: seq<Queue>, n: nat)
    requires Changes(mid) && Coherent(mid[0]) && n < |mid|
    ensures Coherent(mid[n])
  {
    hide Coherent, SetStatus;
    if n > 0 {
      ChangesCoherent(mid, n - 1);
      assert ChangesOne(mid[n - 1], mid[n]);
      var j: nat, s :| j < |mid[n - 1].tasks| && mid[n] == SetStatus(mid[n - 1], j, s);
      SetCoherent(mid[n - 1], j, s);
    }
  }

  /** ... and within an operation that changes statuses: after any number of changes, and one more that has reached
      memory but not its row, every task comes back as it stood before that last change. */
  lemma {:induction false} CrashMidOperation(states: seq<Queue>, ops: seq<Op>, cap: int, k: nat, mid: seq<Queue>,
                                             j: nat, s: Status, order: seq<int>, i: nat)
    requires History(states, ops, cap) && k < |states| && Changes(mid) && mid[0] == states[k]
    requires var q := mid[|mid| - 1]; Lists(order, q.db) && i < |q.tasks| && j < |q.tasks|
    ensures var q := mid[|mid| - 1];
      var torn := q.(tasks := q.tasks[j := Task(q.tasks[j].id, s)]);
      ComesBack(q, Reload(torn, order), i)
  {
    HistoryCoherent(states, ops, cap, k);
    ChangesCoherent(mid, |mid| - 1);
    var q := mid[|mid| - 1];
    hide Coherent, ComesBack, Changes;
    CoherentComesBack(q, order, i);
    assert Reload(q.(tasks := q.tasks[j := Task(q.tasks[j].id, s)]), order) == Reload(q, order);
  }

  // ------------------------------------------------------ all at once

  lemma {:induction false} SweepMaps(q: Queue, i: nat, f: Status -> Status)
    requires q.Distinct()
    ensures var r := Sweep(q, i, f);
      && |r.tasks| == |q.tasks|
      && (forall j :: 0 <= j < |q.tasks| ==>
           r.tasks[j] == if j < i then q.tasks[j] else Task(q.tasks[j].id, f(q.tasks[j].status)))
    decreases |q.tasks| - i
  {
    if i < |q.tasks| {
      var s := f(q.tasks[i].status);
      SweepMaps(if s == q.tasks[i].status then q else SetStatus(q, i, s), i + 1, f);
    }
  }

  /** `stopAll` leaves nothing running and nothing waiting; `resumeAll` leaves nothing paused and nothing failed.
      Neither touches a completed or scheduled task, nor the list's order. */
  lemma AllAtOnce(q: Queue, cap: int)
    requires Good(q, cap)
    ensures var s, r := StopAll(q), ResumeAll(q, cap);
      && |s.tasks| == |r.tasks| == |q.tasks|
      && NoneRunning(s) && NoneQueued(s, 0)
      && forall j :: 0 <= j < |q.tasks| ==>
        && s.tasks[j].id == r.tasks[j].id == q.tasks[j].id
        && r.tasks[j].status != PAUSED && r.tasks[j].status != ERROR
        && (q.tasks[j].status in {COMPLETED, SCHEDULED} ==> s.tasks[j] == r.tasks[j] == q.tasks[j])
  {
    SweepMaps(q, 0, Stopped);
    SweepMaps(q, 0, Requeued);
    SweepGood(q, 0, Requeued, cap);
    var swept := Sweep(q, 0, Requeued);
    PumpFills(swept, cap);
    hide Sweep, Pump, Active, InOrder;
  }

  // ------------------------------------------------------ no idle slots

  /** Wi-Fi mode blocks the queue, or all slots are taken, or nobody waits. */
  ghost predicate Full(q: Queue, cap: int) { q.Blocked() || Active(q) == cap || NoneQueued(q, 0) }

  lemma {:induction false} PauseFromFull(q: Queue, i: nat, cap: int)
    requires Good(q, cap) && Full(q, cap)
    ensures Full(PauseFrom(q, i, cap), cap)
    decreases |q.tasks| - i
  {
    hide Good, Full, Pause;
    if i < |q.tasks| {
      if q.tasks[i].status != DOWNLOADING {
        PauseFromFull(q, i + 1, cap);
      } else {
        PauseGood(q, q.tasks[i].id, cap);
        PauseFull(q, q.tasks[i].id, cap);
        PauseFromFull(Pause(q, q.tasks[i].id, cap), i + 1, cap);
      }
    }
  }

  lemma {:induction false} PumpFull(q: Queue, cap: int)
    requires Good(q, cap)
    ensures Full(Pump(q, cap), cap)
  {
    PumpFills(q, cap);
  }

  lemma {:induction false} PauseFull(q: Queue, id: int, cap: int)
    requires Good(q, cap) && Full(q, cap)
    ensures Full(Pause(q, id, cap), cap)
  {
    var i := Find(q.tasks, id);
    if i < |q.tasks| && q.tasks[i].status == DOWNLOADING {
      SetGood(q, i, PAUSED, cap);
      hide Good, Full, Pump;
      PumpFull(SetStatus(q, i, PAUSED), cap);
    }
  }

  lemma {:induction false} StoppedQuiet(q: Queue, i: nat)
    requires forall j :: 0 <= j < i && j < |q.tasks| ==> q.tasks[j].status != QUEUED
    ensures NoneQueued(Sweep(q, i, Stopped), 0)
    decreases |q.tasks| - i
  {
    if i < |q.tasks| {
      if Stopped(q.tasks[i].status) == q.tasks[i].status {
        StoppedQuiet(q, i + 1);
      } else {
        StoppedQuiet(SetStatus(q, i, PAUSED), i + 1);
      }
    }
  }

  /** Operations that end without a pump: they may free a slot, or bring in waiting tasks, or lift the Wi-Fi block. */
  predicate LeavesSlots(op: Op) {
    op.DoRemove? || op.Done? || op.Failed? || op.StartFailed? || op.Restart? || (op.Network? && !op.connected && op.isWifi)
  }

  lemma {:induction false} PumpsFull(q: Queue, op: Op, cap: int)
    requires Good(q, cap) && Allowed(q, op) && Full(q, cap) && 0 <= cap && !LeavesSlots(op)
    ensures Full(Apply(q, op, cap), cap)
  {
    match op
    case DoEnqueue(id, now) =>
      var s := if now then QUEUED else PAUSED;
      SumZero(Running, [Task(id, s)]);
      SumAppend(Running, [Task(id, s)], q.tasks);
      AddGood(q, [Task(id, s)], q.db[id := s], cap);
      PumpFull(q.(tasks := [Task(id, s)] + q.tasks, db := q.db[id := s]), cap);
    case DoBatch(ids) =>
      BatchIdle(ids);
      AddGood(q, Batch(ids), Inserted(q.db, ids), cap);
      PumpFull(q.(tasks := Batch(ids) + q.tasks, db := Inserted(q.db, ids)), cap);
    case DoPause(id) => PauseFull(q, id, cap);
    case DoResume(id) =>
      var i := Find(q.tasks, id);
      if i < |q.tasks| {
        SetGood(q, i, QUEUED, cap);
        PumpFull(SetStatus(q, i, QUEUED), cap);
      }
    case DoCancel(id) =>
      RemoveGood(q, id, cap);
      PumpFull(RemoveTask(q, id), cap);
    case DoResumeAll =>
      SweepGood(q, 0, Requeued, cap);
      PumpFull(Sweep(q, 0, Requeued), cap);
    case DoStopAll => StoppedQuiet(q, 0);
    case DoCancelAll =>
      CompletedOnly(q.tasks);
      var q' := q.(tasks := Completed(q.tasks), db := Dropped(q.db, q.tasks));
      assert Good(q', cap);
      PumpFull(q', cap);
    case DoDeleteAll =>
    case DoWifiOnly(on) => ModeFull(q, q.(wifiOnly := on), cap);
    case Network(connected, isWifi) => ModeFull(q, q.(wifi := isWifi), cap);
    case Progress(id) =>
    case PostedPump => PumpFull(q, cap);
  }

  lemma {:induction false} ModeFull(q: Queue, q': Queue, cap: int)
    requires Good(q, cap) && Full(q, cap) && q'.tasks == q.tasks
    ensures q'.Blocked() || !q.Blocked() ==> Full(PauseAll(q', cap), cap)
    ensures Full(Pump(q', cap), cap)
  {
    assert Good(q', cap);
    PumpFull(q', cap);
    if q'.Blocked() || !q.Blocked() {
      assert Full(q', cap);
      PauseFromFull(q', 0, cap);
    }
  }

  /** All slots are taken, one by task `i`, and somebody waits. */
  ghost predicate Frees(q: Queue, i: nat, cap: int)
    requires i < |q.tasks|
  {
    !q.Blocked() && q.tasks[i].status == DOWNLOADING && Active(q) == cap && !NoneQueued(q, 0)
  }

  /** Stopping a task without a pump: a failed native start, or a callback before the pump it posts. */
  lemma {:induction false} SlotLeftEmpty(q: Queue, i: nat, s: Status, cap: int)
    requires Good(q, cap) && Full(q, cap) && i < |q.tasks| && s != DOWNLOADING && s != QUEUED
    ensures !Full(SetStatus(q, i, s), cap) <==> Frees(q, i, cap)
  {
    SetActive(q, i, s);
    var r := SetStatus(q, i, s);
    if q.tasks[i].status != QUEUED {
      StillQueued(q, i, s);
    }
  }

  /** Taking a task off the list without a pump. */
  lemma {:induction false} RemoveLeavesEmpty(q: Queue, id: int, cap: int)
    requires Good(q, cap) && Full(q, cap)
    ensures !Full(RemoveTask(q, id), cap) <==> Find(q.tasks, id) < |q.tasks| && Frees(q, Find(q.tasks, id), cap)
  {
    var i, r := Find(q.tasks, id), RemoveTask(q, id);
    if i < |q.tasks| {
      RemoveActive(q.tasks, i);
      hide Sum;
      if NoneQueued(r, 0) {
        forall j | 0 <= j < |q.tasks| && j != i ensures q.tasks[j].status != QUEUED {
          assert q.tasks[j] == r.tasks[if j < i then j else j - 1];
        }
      } else {
        var k :| 0 <= k < |r.tasks| && r.tasks[k].status == QUEUED;
        assert r.tasks[k] == q.tasks[if k < i then k else k + 1];
      }
    }
  }

  lemma {:induction false} RestoredWaits(db: map<int, Status>, ids: seq<int>, tasks: seq<Task>)
    requires Lists(ids, db) && |tasks| == |ids|
    requires forall i :: 0 <= i < |ids| ==> tasks[i] == Task(ids[i], Interrupted(db[ids[i]]))
    ensures (exists k :: 0 <= k < |tasks| && tasks[k].status == QUEUED) <==> exists id :: id in db && db[id] == QUEUED
  {
    if id :| id in db && db[id] == QUEUED {
      assert id in ids;
      var k :| 0 <= k < |ids| && ids[k] == id;
      assert tasks[k].status == QUEUED;
    }
    if k :| 0 <= k < |tasks| && tasks[k].status == QUEUED {
      assert ids[k] in db && db[ids[k]] == QUEUED;
    }
  }

  /** A new process queues what its rows say, and starts nothing. */
  lemma {:induction false} ReloadLeavesEmpty(q: Queue, ids: seq<int>, cap: int)
    requires Lists(ids, q.db)
    ensures !Full(Reload(q, ids), cap) <==> cap != 0 && exists id :: id in q.db && q.db[id] == QUEUED
  {
    RestoredIdle(q.db, ids);
    var r := Reload(q, ids);
    RestoredWaits(q.db, ids, r.tasks);
    hide Restored, Lists, Recovered;
    assert NoneQueued(r, 0) <==> !exists k :: 0 <= k < |r.tasks| && r.tasks[k].status == QUEUED;
  }

  /** Pausing everything pumps, if there is anything to pause. */
  lemma {:induction false} PauseRefills(q: Queue, i: nat, cap: int, j: nat)
    requires Good(q, cap) && i <= j < |q.tasks| && q.tasks[j].status == DOWNLOADING
    ensures Full(PauseFrom(q, i, cap), cap)
    decreases |q.tasks| - i
  {
    hide Good, Full, Pause;
    if q.tasks[i].status != DOWNLOADING {
      PauseRefills(q, i + 1, cap, j);
    } else {
      PauseGood(q, q.tasks[i].id, cap);
      PausePumps(q, i, cap);
      PauseFromFull(Pause(q, q.tasks[i].id, cap), i + 1, cap);
    }
  }

  lemma {:induction false} PausePumps(q: Queue, i: nat, cap: int)
    requires Good(q, cap) && i < |q.tasks| && q.tasks[i].status == DOWNLOADING
    ensures Full(Pause(q, q.tasks[i].id, cap), cap)
  {
    SetGood(q, i, PAUSED, cap);
    hide Full, Pump;
    PumpFull(SetStatus(q, i, PAUSED), cap);
  }

  /** A network lost while the one active after it is Wi-Fi without the internet capability is reported as
      disconnected and Wi-Fi: that lifts the block, and pumps only if something ran. */
  lemma {:induction false} NetworkLeavesEmpty(q: Queue, cap: int)
    requires Good(q, cap) && Full(q, cap)
    ensures !Full(NetworkChanged(q, false, true, cap), cap) <==> q.Blocked() && NoneRunning(q) && cap != 0 && !NoneQueued(q, 0)
  {
    var q' := q.(wifi := true);
    assert Good(q', cap);
    if NoneRunning(q) {
      PauseNothing(q', 0, cap);
      NoneActive(q.tasks);
    } else {
      var j :| 0 <= j < |q.tasks| && q.tasks[j].status == DOWNLOADING;
      hide Full;
      PauseRefills(q', 0, cap, j);
    }
  }

  lemma {:induction false} NoneActive(tasks: seq<Task>)
    requires forall j :: 0 <= j < |tasks| ==> tasks[j].status != DOWNLOADING
    ensures Sum(Running, tasks) == 0
  {
    SumZero(Running, tasks);
  }

  /** Exactly when an operation leaves a slot empty with somebody waiting. */
  ghost predicate LeavesEmpty(q: Queue, op: Op, cap: int) {
    match op
    case DoRemove(id) => Find(q.tasks, id) < |q.tasks| && Frees(q, Find(q.tasks, id), cap)
    case Done(id) => Find(q.tasks, id) < |q.tasks| && Frees(q, Find(q.tasks, id), cap)
    case Failed(id) => Find(q.tasks, id) < |q.tasks| && Frees(q, Find(q.tasks, id), cap)
    case StartFailed(id) => Find(q.tasks, id) < |q.tasks| && Frees(q, Find(q.tasks, id), cap)
    case Restart(_) => cap != 0 && exists id :: id in q.db && q.db[id] == QUEUED
    case Network(connected, isWifi) => !connected && isWifi && q.Blocked() && NoneRunning(q) && cap != 0 && !NoneQueued(q, 0)
    case _ => false
  }

  /** No download waits while a slot is free: which operations keep it so, and when the others do. `Done` and `Failed`
      are repaired by the pump they post; after a failed start, `removeTask`, or a restart that finds QUEUED rows,
      nothing pumps until some other event does. */
  lemma StaysFullIff(q: Queue, op: Op, cap: int)
    requires Good(q, cap) && Allowed(q, op) && Full(q, cap) && 0 <= cap
    ensures Full(Apply(q, op, cap), cap) <==> !LeavesEmpty(q, op, cap)
  {
    hide Good, Full, Frees;
    if !LeavesSlots(op) {
      PumpsFull(q, op, cap);
    } else {
      match op
      case DoRemove(id) => RemoveLeavesEmpty(q, id, cap);
      case Done(id) => EndedLeavesEmpty(q, id, COMPLETED, cap);
      case Failed(id) => EndedLeavesEmpty(q, id, ERROR, cap);
      case StartFailed(id) => EndedLeavesEmpty(q, id, ERROR, cap);
      case Restart(order) => ReloadLeavesEmpty(q, order, cap);
      case Network(_, _) => NetworkLeavesEmpty(q, cap);
    }
  }

  lemma {:induction false} EndedLeavesEmpty(q: Queue, id: int, s: Status, cap: int)
    requires Good(q, cap) && Full(q, cap) && s != DOWNLOADING && s != QUEUED
    ensures !Full(Ended(q, id, s), cap) <==> Find(q.tasks, id) < |q.tasks| && Frees(q, Find(q.tasks, id), cap)
  {
    if Find(q.tasks, id) < |q.tasks| {
      SlotLeftEmpty(q, Find(q.tasks, id), s, cap);
    }
  }

  lemma {:induction false} StillQueued(q: Queue, i: nat, s: Status)
    requires i < |q.tasks| && s != QUEUED && q.tasks[i].status != QUEUED
    ensures NoneQueued(SetStatus(q, i, s), 0) <==> NoneQueued(q, 0)
  {
    var r := SetStatus(q, i, s);
    if NoneQueued(r, 0) {
      forall j | 0 <= j < |q.tasks| ensures q.tasks[j].status != QUEUED {
        assert r.tasks[j].status != QUEUED;
      }
    }
  }
}
