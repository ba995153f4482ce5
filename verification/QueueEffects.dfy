/** What each operation of the queue does to the tasks and rows one can see, said without the functions it is made of
    (android/app/src/main/java/com/downloadengine/app/service/DownloadQueueManager.java:91-98, 165-218, 303-441). */
module QueueEffects {
  import opened Bytes
  import opened DownloadQueue
  import opened QueueTheorems

  // ------------------------------------------------- what a pump may do

  /** The same task, untouched or started. */
  predicate Moves(a: Task, b: Task) {
    b.id == a.id && (b.status == a.status || (a.status == QUEUED && b.status == DOWNLOADING))
  }

  /** A row stays, unless its task was waiting and has been started. */
  ghost predicate RowMoves(q: Queue, r: Queue, x: int)
    requires x in q.db && x in r.db
  {
    r.db[x] == q.db[x] || (r.db[x] == DOWNLOADING && Task(x, QUEUED) in q.tasks && Task(x, DOWNLOADING) in r.tasks)
  }

  predicate SameMode(q: Queue, r: Queue) { r.wifiOnly == q.wifiOnly && r.wifi == q.wifi }

  /** Some waiting tasks have been started, each with its row; nothing else has changed. */
  ghost predicate Starts(q: Queue, r: Queue) {
    && SameMode(q, r) && |r.tasks| == |q.tasks| && r.db.Keys == q.db.Keys
    && (forall j :: 0 <= j < |q.tasks| ==> Moves(q.tasks[j], r.tasks[j]))
    && (forall j :: 0 <= j < |q.tasks| && r.tasks[j] != q.tasks[j] && q.tasks[j].id in r.db ==> r.db[q.tasks[j].id] == DOWNLOADING)
    && (forall x :: x in q.db ==> RowMoves(q, r, x))
  }

  lemma {:induction false} StartsFirst(q: Queue, i: nat, r: Queue)
    requires i < |q.tasks| && q.tasks[i].status == QUEUED && Starts(SetStatus(q, i, DOWNLOADING), r)
    ensures Starts(q, r)
  {
    var m := SetStatus(q, i, DOWNLOADING);
    assert m.tasks[i] == Task(q.tasks[i].id, DOWNLOADING) && r.tasks[i] == m.tasks[i];
    assert Task(q.tasks[i].id, QUEUED) == q.tasks[i];
    forall x | x in q.db ensures RowMoves(q, r, x) {
      assert RowMoves(m, r, x);
      if Task(x, QUEUED) in m.tasks {
        var j :| 0 <= j < |m.tasks| && m.tasks[j] == Task(x, QUEUED);
        assert q.tasks[j] == m.tasks[j];
      }
    }
    forall j | 0 <= j < |q.tasks| ensures Moves(q.tasks[j], r.tasks[j]) {
      assert Moves(m.tasks[j], r.tasks[j]);
    }
  }

  lemma {:induction false} PumpFromStarts(q: Queue, i: nat, n: int, cap: int)
    ensures Starts(q, PumpFrom(q, i, n, cap))
    decreases |q.tasks| - i
  {
    hide Starts;
    NothingStarts(q);
    if i < |q.tasks| {
      if q.tasks[i].status != QUEUED {
        PumpFromStarts(q, i + 1, n, cap);
      } else {
        var m := SetStatus(q, i, DOWNLOADING);
        NothingStarts(m);
        PumpFromStarts(m, i + 1, n + 1, cap);
        StartsFirst(q, i, if n + 1 >= cap then m else PumpFrom(m, i + 1, n + 1, cap));
      }
    }
  }

  lemma NothingStarts(q: Queue)
    ensures Starts(q, q)
  {
  }

  lemma {:induction false} PumpStarts(q: Queue, cap: int)
    ensures Starts(q, Pump(q, cap))
  {
    NothingStarts(q);
    PumpFromStarts(q, 0, Active(q), cap);
    hide Starts, PumpFrom;
  }

  // --------------------------------------------------- one task at a time

  /** Task `k` has the id, and so is the one found under it. */
  lemma {:induction false} FoundAt(q: Queue, id: int, k: nat)
    requires q.Distinct() && k < |q.tasks| && q.tasks[k].id == id
    ensures Find(q.tasks, id) == k
  {
  }

  lemma {:induction false} FoundNowhere(q: Queue, id: int)
    requires forall j :: 0 <= j < |q.tasks| ==> q.tasks[j].id != id
    ensures Find(q.tasks, id) == |q.tasks|
  {
  }

  /** Without task `k` everything stands where it stood, one place further up behind it. */
  ghost predicate Gone(q: Queue, r: Queue, id: int, k: nat)
    requires k < |q.tasks|
  {
    && SameMode(q, r) && |r.tasks| == |q.tasks| - 1
    && (forall j :: 0 <= j < |r.tasks| ==> r.tasks[j].id != id && Moves(q.tasks[if j < k then j else j + 1], r.tasks[j]))
    && r.db.Keys == q.db.Keys - {id} && (forall x :: x in r.db ==> RowMoves(q, r, x))
  }

  lemma {:induction false} RemovedAt(q: Queue, id: int, k: nat)
    requires q.Distinct() && k < |q.tasks| && q.tasks[k].id == id
    ensures var r := RemoveTask(q, id);
      && SameMode(q, r) && |r.tasks| == |q.tasks| - 1
      && (forall j :: 0 <= j < |r.tasks| ==> r.tasks[j].id != id && r.tasks[j] == q.tasks[if j < k then j else j + 1])
      && r.db.Keys == q.db.Keys - {id} && (forall x :: x in r.db ==> r.db[x] == q.db[x])
  {
    FoundAt(q, id, k);
    var r := RemoveTask(q, id);
    forall j | 0 <= j < |r.tasks| ensures r.tasks[j].id != id && r.tasks[j] == q.tasks[if j < k then j else j + 1] {
    }
  }

  /** `cancel`: the task with the id and its row are gone, all others are there, in order, some perhaps started; an
      id nobody has changes nothing. */
  lemma CancelTakesAway(q: Queue, id: int, cap: int, k: nat)
    requires q.Distinct()
    ensures k < |q.tasks| && q.tasks[k].id == id ==> Gone(q, Cancel(q, id, cap), id, k)
    ensures (forall j :: 0 <= j < |q.tasks| ==> q.tasks[j].id != id) ==> Cancel(q, id, cap) == q
  {
    if k < |q.tasks| && q.tasks[k].id == id {
      FoundAt(q, id, k);
      RemovedAt(q, id, k);
      var m := RemoveTask(q, id);
      hide RemoveTask, Pump;
      PumpStarts(m, cap);
      GoneStarted(q, m, Pump(m, cap), id, k);
    } else if forall j :: 0 <= j < |q.tasks| ==> q.tasks[j].id != id {
      FoundNowhere(q, id);
    }
  }

  lemma {:induction false} GoneStarted(q: Queue, m: Queue, r: Queue, id: int, k: nat)
    requires k < |q.tasks| && SameMode(q, m) && |m.tasks| == |q.tasks| - 1
    requires forall j :: 0 <= j < |m.tasks| ==> m.tasks[j].id != id && m.tasks[j] == q.tasks[if j < k then j else j + 1]
    requires m.db.Keys == q.db.Keys - {id} && forall x :: x in m.db ==> m.db[x] == q.db[x]
    requires Starts(m, r)
    ensures Gone(q, r, id, k)
  {
    forall j | 0 <= j < |r.tasks| ensures r.tasks[j].id != id && Moves(q.tasks[if j < k then j else j + 1], r.tasks[j]) {
      assert Moves(m.tasks[j], r.tasks[j]);
    }
    forall x | x in r.db ensures RowMoves(q, r, x) {
      assert x in m.db && RowMoves(m, r, x);
      if Task(x, QUEUED) in m.tasks {
        var j :| 0 <= j < |m.tasks| && m.tasks[j] == Task(x, QUEUED);
        assert q.tasks[if j < k then j else j + 1] == Task(x, QUEUED);
      }
    }
  }

  /** `removeTask`: the same without a pump, so nothing at all happens to the others. */
  lemma RemoveTakesAway(q: Queue, id: int, k: nat)
    requires q.Distinct() && k < |q.tasks| && q.tasks[k].id == id
    ensures var r := RemoveTask(q, id);
      && SameMode(q, r) && |r.tasks| == |q.tasks| - 1
      && (forall j :: 0 <= j < |r.tasks| ==> r.tasks[j].id != id && r.tasks[j] == q.tasks[if j < k then j else j + 1])
      && r.db.Keys == q.db.Keys - {id} && (forall x :: x in r.db ==> r.db[x] == q.db[x])
  {
    RemovedAt(q, id, k);
  }

  /** Task `k` is in one of two statuses now, and so is its row; the others are as they were or started. */
  ghost predicate Only(q: Queue, r: Queue, k: nat, s: Status, t: Status)
    requires k < |q.tasks|
  {
    && SameMode(q, r) && |r.tasks| == |q.tasks| && r.db.Keys == q.db.Keys
    && r.tasks[k].id == q.tasks[k].id && r.tasks[k].status in {s, t}
    && (q.tasks[k].id in r.db ==> r.db[q.tasks[k].id] == r.tasks[k].status)
    && (forall j :: 0 <= j < |q.tasks| && j != k ==> Moves(q.tasks[j], r.tasks[j]))
    && (forall x :: x in r.db && x != q.tasks[k].id ==> RowMoves(q, r, x))
  }

  lemma {:induction false} OnlyStarted(q: Queue, k: nat, s: Status, r: Queue)
    requires q.Distinct() && k < |q.tasks| && Starts(SetStatus(q, k, s), r)
    ensures Only(q, r, k, s, if s == QUEUED then DOWNLOADING else s)
  {
    var m := SetStatus(q, k, s);
    assert Moves(m.tasks[k], r.tasks[k]);
    forall j | 0 <= j < |q.tasks| && j != k ensures Moves(q.tasks[j], r.tasks[j]) {
      assert Moves(m.tasks[j], r.tasks[j]);
    }
    var id := q.tasks[k].id;
    if id in r.db {
      assert RowMoves(m, r, id);
      if Task(id, QUEUED) in m.tasks && Task(id, DOWNLOADING) in r.tasks {
        var j :| 0 <= j < |r.tasks| && r.tasks[j] == Task(id, DOWNLOADING);
        assert Moves(m.tasks[j], r.tasks[j]);
        assert j == k;
      }
    }
    forall x | x in r.db && x != id ensures RowMoves(q, r, x) {
      assert RowMoves(m, r, x);
      if Task(x, QUEUED) in m.tasks {
        var j :| 0 <= j < |m.tasks| && m.tasks[j] == Task(x, QUEUED);
        assert q.tasks[j] == m.tasks[j];
      }
    }
  }

  /** `resume`: the task with the id waits or runs if it was paused or had failed; otherwise nothing changes. */
  lemma ResumeRequeues(q: Queue, id: int, cap: int, k: nat)
    requires q.Distinct()
    ensures k < |q.tasks| && q.tasks[k].id == id ==>
      if q.tasks[k].status in {PAUSED, ERROR} then Only(q, Resume(q, id, cap), k, QUEUED, DOWNLOADING) else Resume(q, id, cap) == q
    ensures (forall j :: 0 <= j < |q.tasks| ==> q.tasks[j].id != id) ==> Resume(q, id, cap) == q
  {
    hide Only, Starts, Pump;
    if k < |q.tasks| && q.tasks[k].id == id {
      FoundAt(q, id, k);
      var m := SetStatus(q, k, QUEUED);
      PumpStarts(m, cap);
      OnlyStarted(q, k, QUEUED, Pump(m, cap));
    } else if forall j :: 0 <= j < |q.tasks| ==> q.tasks[j].id != id {
      FoundNowhere(q, id);
    }
  }

  /** `pause`: the task with the id is paused if it ran; otherwise nothing changes. */
  lemma PauseStops(q: Queue, id: int, cap: int, k: nat)
    requires q.Distinct()
    ensures k < |q.tasks| && q.tasks[k].id == id ==>
      if q.tasks[k].status == DOWNLOADING then Only(q, Pause(q, id, cap), k, PAUSED, PAUSED) else Pause(q, id, cap) == q
    ensures (forall j :: 0 <= j < |q.tasks| ==> q.tasks[j].id != id) ==> Pause(q, id, cap) == q
  {
    hide Only, Starts, Pump;
    if k < |q.tasks| && q.tasks[k].id == id {
      FoundAt(q, id, k);
      var m := SetStatus(q, k, PAUSED);
      PumpStarts(m, cap);
      OnlyStarted(q, k, PAUSED, Pump(m, cap));
    } else if forall j :: 0 <= j < |q.tasks| ==> q.tasks[j].id != id {
      FoundNowhere(q, id);
    }
  }

  // ------------------------------------------------------- new tasks

  /** New tasks with these ids stand in front, in this order, waiting or started; the old ones behind them are as they
      were or started; and so are the rows. */
  ghost predicate InFront(q: Queue, r: Queue, ids: seq<int>) {
    && SameMode(q, r) && |r.tasks| == |ids| + |q.tasks|
    && (forall j :: 0 <= j < |ids| ==> Moves(Task(ids[j], QUEUED), r.tasks[j]))
    && (forall j :: 0 <= j < |q.tasks| ==> Moves(q.tasks[j], r.tasks[|ids| + j]))
    && r.db.Keys == q.db.Keys + (set id | id in ids)
    && (forall id :: id in ids ==> r.db[id] in {QUEUED, DOWNLOADING})
    && (forall x :: x in q.db && x !in ids ==> RowMoves(q, r, x))
  }

  lemma {:induction false} OldRow(q: Queue, added: seq<Task>, m: Queue, r: Queue, x: int)
    requires m.tasks == added + q.tasks && x in q.db && x in m.db && m.db[x] == q.db[x] && x in r.db && RowMoves(m, r, x)
    requires forall j :: 0 <= j < |added| ==> added[j].id != x
    ensures RowMoves(q, r, x)
  {
    if Task(x, QUEUED) in m.tasks {
      var j :| 0 <= j < |m.tasks| && m.tasks[j] == Task(x, QUEUED);
      assert q.tasks[j - |added|] == m.tasks[j];
    }
  }

  lemma {:induction false} NewRow(m: Queue, r: Queue, x: int)
    requires x in m.db && m.db[x] == QUEUED && x in r.db && RowMoves(m, r, x)
    ensures r.db[x] in {QUEUED, DOWNLOADING}
  {
  }

  lemma {:induction false} InFrontStarted(q: Queue, ids: seq<int>, db: map<int, Status>, r: Queue)
    requires db.Keys == q.db.Keys + set id | id in ids
    requires (forall id :: id in ids ==> db[id] == QUEUED) && forall x :: x in q.db && x !in ids ==> db[x] == q.db[x]
    requires Starts(q.(tasks := Batch(ids) + q.tasks, db := db), r)
    ensures InFront(q, r, ids)
  {
    var m := q.(tasks := Batch(ids) + q.tasks, db := db);
    assert forall x :: x in m.db ==> RowMoves(m, r, x);
    hide RowMoves;
    forall j | 0 <= j < |ids| ensures Moves(Task(ids[j], QUEUED), r.tasks[j]) {
      assert Moves(m.tasks[j], r.tasks[j]);
    }
    forall j | 0 <= j < |q.tasks| ensures Moves(q.tasks[j], r.tasks[|ids| + j]) {
      assert Moves(m.tasks[|ids| + j], r.tasks[|ids| + j]);
    }
    hide Moves;
    forall id | id in ids ensures r.db[id] in {QUEUED, DOWNLOADING} {
      NewRow(m, r, id);
    }
    forall x | x in q.db && x !in ids ensures RowMoves(q, r, x) {
      OldRow(q, Batch(ids), m, r, x);
    }
  }

  /** `enqueue`: the new task is first in the list, waiting or started, or paused with nothing else touched. */
  lemma EnqueueAdds(q: Queue, id: int, now: bool, cap: int)
    ensures var r := Enqueue(q, id, now, cap);
      if now then InFront(q, r, [id])
      else SameMode(q, r) && r.tasks == [Task(id, PAUSED)] + q.tasks && r.db == q.db[id := PAUSED]
  {
    if now {
      var m := q.(tasks := [Task(id, QUEUED)] + q.tasks, db := q.db[id := QUEUED]);
      assert m.tasks == Batch([id]) + q.tasks;
      PumpStarts(m, cap);
      hide Starts, InFront;
      InFrontStarted(q, [id], m.db, Pump(m, cap));
    }
  }

  lemma {:induction false} InsertedExactly(db: map<int, Status>, ids: seq<int>)
    ensures var r := Inserted(db, ids);
      && r.Keys == db.Keys + (set id | id in ids)
      && (forall id :: id in ids ==> r[id] == QUEUED)
      && (forall x :: x in db && x !in ids ==> r[x] == db[x])
    decreases |ids|
  {
    if ids != [] {
      assert ids == [ids[0]] + ids[1..];
      InsertedExactly(db[ids[0] := QUEUED], ids[1..]);
    }
  }

  /** `enqueueBatch`: the new tasks are first in the list, in their order, waiting or started. */
  lemma BatchAdds(q: Queue, ids: seq<int>, cap: int)
    ensures InFront(q, EnqueueBatch(q, ids, cap), ids)
  {
    if ids != [] {
      InsertedExactly(q.db, ids);
      var m := q.(tasks := Batch(ids) + q.tasks, db := Inserted(q.db, ids));
      PumpStarts(m, cap);
      hide Starts, InFront;
      InFrontStarted(q, ids, m.db, Pump(m, cap));
    }
  }

  // ------------------------------------------------------ all at once

  lemma {:induction false} CompletedExactly(tasks: seq<Task>)
    ensures var c := Completed(tasks);
      forall t :: t in c <==> t in tasks && t.status == COMPLETED
  {
    if tasks != [] {
      assert tasks == [tasks[0]] + tasks[1..];
      CompletedExactly(tasks[1..]);
    }
  }

  /** Where the completed tasks stood. */
  lemma {:induction false} CompletedInOrder(tasks: seq<Task>) returns (at: seq<nat>)
    ensures var c := Completed(tasks);
      && |at| == |c|
      && (forall i :: 0 <= i < |at| ==> at[i] < |tasks| && tasks[at[i]] == c[i])
      && (forall i, j :: 0 <= i < j < |at| ==> at[i] < at[j])
  {
    at := [];
    if tasks != [] {
      var rest := CompletedInOrder(tasks[1..]);
      var later := seq(|rest|, i requires 0 <= i < |rest| => rest[i] + 1);
      at := if tasks[0].status == COMPLETED then [0] + later else later;
    }
  }

  lemma {:induction false} DroppedExactly(db: map<int, Status>, tasks: seq<Task>)
    ensures var r := Dropped(db, tasks);
      && r.Keys == db.Keys - (set t | t in tasks && t.status != COMPLETED :: t.id)
      && forall x :: x in r ==> r[x] == db[x]
    decreases |tasks|
  {
    if tasks != [] {
      assert tasks == [tasks[0]] + tasks[1..];
      DroppedExactly(if tasks[0].status == COMPLETED then db else db - {tasks[0].id}, tasks[1..]);
    }
  }

  /** `cancelAll`: the completed tasks stay, all of them and in order, and with them every row that belongs to no
      other task. */
  lemma CancelAllKeepsCompleted(q: Queue, cap: int) returns (at: seq<nat>)
    ensures var r := CancelAll(q, cap);
      && SameMode(q, r) && |at| == |r.tasks|
      && (forall i :: 0 <= i < |at| ==> at[i] < |q.tasks| && r.tasks[i] == q.tasks[at[i]])
      && (forall i, j :: 0 <= i < j < |at| ==> at[i] < at[j])
      && (forall t :: t in r.tasks <==> t in q.tasks && t.status == COMPLETED)
      && r.db.Keys == q.db.Keys - (set t | t in q.tasks && t.status != COMPLETED :: t.id)
      && (forall x :: x in r.db ==> r.db[x] == q.db[x])
  {
    at := CompletedInOrder(q.tasks);
    CompletedExactly(q.tasks);
    DroppedExactly(q.db, q.tasks);
    var m := q.(tasks := Completed(q.tasks), db := Dropped(q.db, q.tasks));
    hide Completed, Dropped;
    forall j | 0 <= j < |m.tasks| ensures m.tasks[j].status != QUEUED {
      assert m.tasks[j] in m.tasks;
    }
    PumpsNobody(m, 0, Active(m), cap);
  }

  lemma {:induction false} PumpsNobody(q: Queue, i: nat, n: int, cap: int)
    requires forall j :: 0 <= j < |q.tasks| ==> q.tasks[j].status != QUEUED
    ensures PumpFrom(q, i, n, cap) == q
    decreases |q.tasks| - i
  {
    if i < |q.tasks| {
      PumpsNobody(q, i + 1, n, cap);
    }
  }

  /** `deleteAll`: no task and no row is left, and the mode stays. */
  lemma DeleteAllEmpties(q: Queue)
    ensures var r := DeleteAll(q); SameMode(q, r) && (forall t :: t !in r.tasks) && forall x :: x !in r.db
  {
  }

  // ------------------------------------------------------ pausing everything

  /** Every running task is paused, with its row, and nothing else changes. */
  ghost predicate AllPaused(q: Queue, r: Queue) {
    && SameMode(q, r) && |r.tasks| == |q.tasks| && r.db.Keys == q.db.Keys
    && (forall j :: 0 <= j < |q.tasks| ==>
          r.tasks[j] == if q.tasks[j].status == DOWNLOADING then Task(q.tasks[j].id, PAUSED) else q.tasks[j])
    && (forall x :: x in q.db ==> r.db[x] == if Task(x, DOWNLOADING) in q.tasks then PAUSED else q.db[x])
  }

  /** From task `i` on the statuses are mapped by `f`, and with each that changes its row. */
  ghost predicate Mapped(q: Queue, r: Queue, i: nat, f: Status -> Status) {
    && SameMode(q, r) && |r.tasks| == |q.tasks| && r.db.Keys == q.db.Keys
    && (forall j :: 0 <= j < |q.tasks| ==> r.tasks[j] == if i <= j then Task(q.tasks[j].id, f(q.tasks[j].status)) else q.tasks[j])
    && (forall j :: i <= j < |q.tasks| && f(q.tasks[j].status) != q.tasks[j].status && q.tasks[j].id in q.db ==>
          r.db[q.tasks[j].id] == f(q.tasks[j].status))
    && (forall x :: x in q.db && (forall j :: i <= j < |q.tasks| && f(q.tasks[j].status) != q.tasks[j].status ==> q.tasks[j].id != x) ==>
          r.db[x] == q.db[x])
  }

  lemma {:induction false} MappedOneMore(q: Queue, i: nat, f: Status -> Status, r: Queue)
    requires q.Distinct() && i < |q.tasks| && f(q.tasks[i].status) != q.tasks[i].status
    requires Mapped(SetStatus(q, i, f(q.tasks[i].status)), r, i + 1, f)
    ensures Mapped(q, r, i, f)
  {
    var m := SetStatus(q, i, f(q.tasks[i].status));
    forall x | x in q.db && (forall j :: i <= j < |q.tasks| && f(q.tasks[j].status) != q.tasks[j].status ==> q.tasks[j].id != x)
      ensures r.db[x] == q.db[x]
    {
      assert m.db[x] == q.db[x];
    }
    if q.tasks[i].id in q.db {
      assert m.db[q.tasks[i].id] == f(q.tasks[i].status);
    }
  }

  lemma {:induction false} BlockedPauses(q: Queue, i: nat, cap: int)
    requires q.Distinct() && q.Blocked()
    ensures Mapped(q, PauseFrom(q, i, cap), i, Interrupted)
    decreases |q.tasks| - i
  {
    if i < |q.tasks| {
      if q.tasks[i].status != DOWNLOADING {
        BlockedPauses(q, i + 1, cap);
      } else {
        FoundAt(q, q.tasks[i].id, i);
        var m := SetStatus(q, i, PAUSED);
        assert Pause(q, q.tasks[i].id, cap) == m;
        BlockedPauses(m, i + 1, cap);
        hide PauseFrom, Pause, Find, Mapped;
        MappedOneMore(q, i, Interrupted, PauseFrom(m, i + 1, cap));
      }
    }
  }

  lemma {:induction false} SweepMaps(q: Queue, i: nat, f: Status -> Status)
    requires q.Distinct()
    ensures Mapped(q, Sweep(q, i, f), i, f)
    decreases |q.tasks| - i
  {
    if i < |q.tasks| {
      if f(q.tasks[i].status) == q.tasks[i].status {
        SweepMaps(q, i + 1, f);
      } else {
        var m := SetStatus(q, i, f(q.tasks[i].status));
        SweepMaps(m, i + 1, f);
        hide Mapped;
        MappedOneMore(q, i, f, Sweep(m, i + 1, f));
      }
    }
  }

  lemma {:induction false} AllPausedFrom(q: Queue, r: Queue)
    requires Mapped(q, r, 0, Interrupted)
    ensures AllPaused(q, r)
  {
    forall x | x in q.db ensures r.db[x] == if Task(x, DOWNLOADING) in q.tasks then PAUSED else q.db[x] {
      if Task(x, DOWNLOADING) in q.tasks {
        var j :| 0 <= j < |q.tasks| && q.tasks[j] == Task(x, DOWNLOADING);
        assert q.tasks[j].id == x;
      } else {
        assert forall j :: 0 <= j < |q.tasks| && q.tasks[j].status == DOWNLOADING ==> q.tasks[j] in q.tasks && q.tasks[j].id != x;
      }
    }
  }

  /** `stopAll`: every task that runs or waits is paused, with its row, and nothing else changes. */
  lemma StopAllPauses(q: Queue)
    requires q.Distinct()
    ensures var r := StopAll(q);
      && SameMode(q, r) && |r.tasks| == |q.tasks| && r.db.Keys == q.db.Keys
      && (forall j :: 0 <= j < |q.tasks| ==>
            r.tasks[j] == if q.tasks[j].status in {DOWNLOADING, QUEUED} then Task(q.tasks[j].id, PAUSED) else q.tasks[j])
      && (forall j :: 0 <= j < |q.tasks| && q.tasks[j].id in q.db ==>
            r.db[q.tasks[j].id] == if q.tasks[j].status in {DOWNLOADING, QUEUED} then PAUSED else q.db[q.tasks[j].id])
      && (forall x :: x in q.db && (forall j :: 0 <= j < |q.tasks| ==> q.tasks[j].id != x) ==> r.db[x] == q.db[x])
  {
    SweepMaps(q, 0, Stopped);
    hide Sweep;
  }

  /** `resumeAll`: every paused or failed task waits or runs, with its row; of the others some that waited may have
      been started. */
  lemma ResumeAllRequeues(q: Queue, cap: int)
    requires q.Distinct()
    ensures var r := ResumeAll(q, cap);
      && SameMode(q, r) && |r.tasks| == |q.tasks| && r.db.Keys == q.db.Keys
      && (forall j :: 0 <= j < |q.tasks| ==>
            Moves(if q.tasks[j].status in {PAUSED, ERROR} then Task(q.tasks[j].id, QUEUED) else q.tasks[j], r.tasks[j]))
      && (forall j :: 0 <= j < |q.tasks| && r.tasks[j] != q.tasks[j] && q.tasks[j].id in q.db ==>
            r.db[q.tasks[j].id] == r.tasks[j].status)
      && (forall j :: 0 <= j < |q.tasks| && r.tasks[j] == q.tasks[j] && q.tasks[j].id in q.db ==>
            r.db[q.tasks[j].id] == q.db[q.tasks[j].id])
  {
    SweepMaps(q, 0, Requeued);
    var m := Sweep(q, 0, Requeued);
    hide Sweep, Pump;
    PumpStarts(m, cap);
    NothingStarts(q);
    var r := ResumeAll(q, cap);
    assert r == q || Starts(m, r);
    if r != q {
      forall j | 0 <= j < |q.tasks|
        ensures Moves(if q.tasks[j].status in {PAUSED, ERROR} then Task(q.tasks[j].id, QUEUED) else q.tasks[j], r.tasks[j])
        ensures q.tasks[j].id in q.db ==>
          r.db[q.tasks[j].id] == if r.tasks[j] != q.tasks[j] then r.tasks[j].status else q.db[q.tasks[j].id]
      {
        assert Moves(m.tasks[j], r.tasks[j]);
        RowOfTask(m, r, j);
      }
    } else {
      forall j | 0 <= j < |q.tasks| ensures q.tasks[j].status !in {PAUSED, ERROR} {
        assert m.tasks[j] == Task(q.tasks[j].id, Requeued(q.tasks[j].status));
      }
    }
  }

  /** After a pump the row of a task that was not started is what it was. */
  lemma {:induction false} RowOfTask(m: Queue, r: Queue, j: nat)
    requires m.Distinct() && Starts(m, r) && j < |m.tasks|
    ensures m.tasks[j].id in m.db ==>
      r.db[m.tasks[j].id] == if r.tasks[j] != m.tasks[j] then DOWNLOADING else m.db[m.tasks[j].id]
  {
    var id := m.tasks[j].id;
    if id in m.db {
      assert RowMoves(m, r, id);
    }
  }

  /** A callback sets the status of the task with the id, and its row; progress sets the row alone. */
  lemma CallbacksSet(q: Queue, id: int, s: Status, k: nat)
    requires q.Distinct()
    ensures k < |q.tasks| && q.tasks[k].id == id ==>
      && Only(q, Ended(q, id, s), k, s, s)
      && OnProgress(q, id).tasks == q.tasks && SameMode(q, OnProgress(q, id))
      && OnProgress(q, id).db == (if id in q.db then q.db[id := DOWNLOADING] else q.db)
    ensures (forall j :: 0 <= j < |q.tasks| ==> q.tasks[j].id != id) ==> Ended(q, id, s) == q && OnProgress(q, id) == q
  {
    if k < |q.tasks| && q.tasks[k].id == id {
      FoundAt(q, id, k);
    } else if forall j :: 0 <= j < |q.tasks| ==> q.tasks[j].id != id {
      FoundNowhere(q, id);
    }
  }

  /** `setWifiOnly`: when the mode now holds the queue, everything that ran is paused and nothing else happens;
      otherwise some that waited may be started. */
  lemma WifiOnlyHolds(q: Queue, on: bool, cap: int)
    requires q.Distinct()
    ensures var m, r := q.(wifiOnly := on), SetWifiOnly(q, on, cap);
      if on && !q.wifi then AllPaused(m, r) else Starts(m, r)
  {
    var m := q.(wifiOnly := on);
    if m.Blocked() {
      BlockedPauses(m, 0, cap);
      hide PauseFrom, Mapped;
      AllPausedFrom(m, PauseAll(m, cap));
    } else {
      PumpStarts(m, cap);
    }
  }

  /** A change of network: when the mode holds the queue, everything that ran is paused and nothing else happens; with
      a connection that does not, some that waited may be started; and without one nothing runs afterwards exactly if
      nothing ran, or nothing waited ahead of the first task that did. */
  lemma NetworkHolds(q: Queue, connected: bool, wifi: bool, cap: int)
    requires Good(q, cap)
    ensures var m, r := q.(wifi := wifi), NetworkChanged(q, connected, wifi, cap);
      if q.wifiOnly && !wifi then AllPaused(m, r)
      else if connected then Starts(m, r)
      else NoneRunning(r) <==> NoneRunning(q) || !QueuedAhead(q)
  {
    var m := q.(wifi := wifi);
    if m.Blocked() {
      BlockedPauses(m, 0, cap);
      hide PauseFrom, Mapped;
      AllPausedFrom(m, PauseAll(m, cap));
    } else if connected {
      PumpStarts(m, cap);
    } else {
      RadioGood(q, m, cap);
      hide PauseAll;
      PauseAllIff(m, cap);
    }
  }

  lemma RadioGood(q: Queue, m: Queue, cap: int)
    requires Good(q, cap) && m.tasks == q.tasks
    ensures Good(m, cap)
  {
  }
}
