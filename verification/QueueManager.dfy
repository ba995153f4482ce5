/** The queue manager's own code: methods that update task objects and database rows in loops, each proved against
    the state machine of `DownloadQueue` (DownloadQueueManager.java:44-523). */
module QueueManager {
  import opened Bytes
  import opened DownloadQueue

  class DownloadTask {
    const id: int
    var status: Status

    constructor (id: int, status: Status)
      ensures this.id == id && this.status == status
    {
      this.id, this.status := id, status;
    }
  }

  function Values(ts: seq<DownloadTask>): (r: seq<Task>)
    reads ts
    ensures |r| == |ts| && forall i :: 0 <= i < |ts| ==> r[i] == Task(ts[i].id, ts[i].status)
  {
    if ts == [] then [] else [Task(ts[0].id, ts[0].status)] + Values(ts[1..])
  }

  /** Where a task object stands in a list, or its length. */
  function Position(ts: seq<DownloadTask>, task: DownloadTask): (i: nat)
    ensures i <= |ts| && (i < |ts| ==> ts[i] == task) && forall j :: 0 <= j < i ==> ts[j] != task
  {
    if ts == [] || ts[0] == task then 0 else 1 + Position(ts[1..], task)
  }

  ghost predicate Apart(ts: seq<DownloadTask>) {
    forall i, j :: 0 <= i < j < |ts| ==> ts[i] != ts[j]
  }

  /** Tasks of `kept` come from the first `i` of `ts`. */
  ghost predicate Behind(kept: seq<DownloadTask>, ts: seq<DownloadTask>, i: nat) {
    forall k :: 0 <= k < |kept| ==> kept[k] in ts && forall j :: i <= j < |ts| ==> kept[k] != ts[j]
  }

  class DownloadQueueManager {
    const mMaxConcurrent: int
    var mTasks: seq<DownloadTask>
    var mDb: map<int, Status>
    var mWifiOnly: bool
    var isWifi: bool  // what the network monitor reports

    ghost predicate Valid()
      reads this
    {
      Apart(mTasks)
    }

    function View(): Queue
      reads this, mTasks
    {
      Queue(Values(mTasks), mDb, mWifiOnly, isWifi)
    }

    /** A new process on an existing database; `rows` is what its query lists. */
    constructor (rows: seq<int>, db: map<int, Status>, isWifi: bool, maxConcurrent: int)
      requires Lists(rows, db)
      ensures Valid() && fresh(mTasks) && mMaxConcurrent == maxConcurrent
      ensures View() == Reload(Queue([], db, false, isWifi), rows)
    {
      mMaxConcurrent, mTasks, mDb, mWifiOnly := maxConcurrent, [], db, false;
      this.isWifi := isWifi;
      new;
      LoadTasksFromDatabase(rows);
    }

    method LoadTasksFromDatabase(rows: seq<int>)
      requires Lists(rows, mDb)
      modifies this`mTasks, this`mDb
      ensures Valid() && fresh(mTasks)
      ensures Values(mTasks) == Restored(old(mDb), rows) && mDb == Recovered(old(mDb))
    {
      hide Values, Restored;
      mTasks := [];
      ghost var db := mDb;
      var i := 0;
      while i < |rows|
        invariant 0 <= i <= |rows| && |mTasks| == i && Valid() && fresh(mTasks)
        invariant forall j :: 0 <= j < i ==> mTasks[j].id == rows[j] && mTasks[j].status == Interrupted(db[rows[j]])
        invariant mDb.Keys == db.Keys
        invariant forall j :: 0 <= j < i ==> mDb[rows[j]] == Interrupted(db[rows[j]])
        invariant forall j :: i <= j < |rows| ==> mDb[rows[j]] == db[rows[j]]
      {
        var t := new DownloadTask(rows[i], mDb[rows[i]]);
        if t.status == DOWNLOADING {
          t.status := PAUSED;
          mDb := Store(mDb, t.id, PAUSED);
        }
        mTasks := mTasks + [t];
        i := i + 1;
      }
      forall id | id in db ensures mDb[id] == Recovered(db)[id] {
        assert id in rows;
      }
    }

    /** One task's status, in memory and in its row. */
    method SetTask(task: DownloadTask, status: Status, ghost i: nat)
      requires Valid() && i < |mTasks| && mTasks[i] == task
      modifies task, this`mDb
      ensures View() == SetStatus(old(View()), i, status)
    {
      task.status := status;
      mDb := Store(mDb, task.id, status);
      assert Values(mTasks) == old(Values(mTasks))[i := Task(task.id, status)];
    }

    method FindTask(id: int) returns (task: DownloadTask?, i: nat)
      ensures i == Find(View().tasks, id)
      ensures if i < |mTasks| then task == mTasks[i] else task == null
    {
      i := 0;
      while i < |mTasks|
        invariant i <= |mTasks| && forall j :: 0 <= j < i ==> mTasks[j].id != id
      {
        if mTasks[i].id == id {
          assert View().tasks[i].id == id;
          return mTasks[i], i;
        }
        i := i + 1;
      }
      task := null;
    }

    method PumpQueue()
      requires Valid()
      modifies mTasks, this`mDb
      ensures View() == Pump(old(View()), mMaxConcurrent)
    {
      if mWifiOnly && !isWifi {
        return;
      }
      var activeCount := CountActive();
      if activeCount >= mMaxConcurrent {
        return;
      }
      StartQueued(activeCount);
    }

    method CountActive() returns (n: int)
      ensures n == Active(View())
    {
      n := 0;
      var i := 0;
      ghost var all := Values(mTasks);
      while i < |mTasks|
        invariant 0 <= i <= |mTasks| && n == Sum(Running, all[..i])
      {
        assert all[..i + 1] == all[..i] + [all[i]];
        SumSnoc(Running, all[..i], all[i]);
        if mTasks[i].status == DOWNLOADING {
          n := n + 1;
        }
        i := i + 1;
      }
      assert all[..i] == all;
    }

    /** The second loop of `pumpQueue`. */
    method StartQueued(n: int)
      requires Valid()
      modifies mTasks, this`mDb
      ensures View() == PumpFrom(old(View()), 0, n, mMaxConcurrent)
    {
      var activeCount, i := n, 0;
      while i < |mTasks|
        invariant 0 <= i <= |mTasks|
        invariant PumpFrom(View(), i, activeCount, mMaxConcurrent) == PumpFrom(old(View()), 0, n, mMaxConcurrent)
      {
        if mTasks[i].status == QUEUED {
          SetTask(mTasks[i], DOWNLOADING, i);
          activeCount := activeCount + 1;
          if activeCount >= mMaxConcurrent {
            return;
          }
        }
        i := i + 1;
      }
    }

    method Pause(id: int)
      requires Valid()
      modifies mTasks, this`mDb
      ensures View() == DownloadQueue.Pause(old(View()), id, mMaxConcurrent)
    {
      var task, i := FindTask(id);
      if task != null && task.status == DOWNLOADING {
        SetTask(task, PAUSED, i);
        PumpQueue();
      }
    }

    method Resume(id: int)
      requires Valid()
      modifies mTasks, this`mDb
      ensures View() == DownloadQueue.Resume(old(View()), id, mMaxConcurrent)
    {
      var task, i := FindTask(id);
      if task != null && (task.status == PAUSED || task.status == ERROR) {
        SetTask(task, QUEUED, i);
        PumpQueue();
      }
    }

    /** Any task object, listed or not, or none; the list is searched for the object, the row goes by its id. */
    method RemoveTask(task: DownloadTask?)
      requires Valid()
      modifies this`mTasks, this`mDb
      ensures Valid() && forall t :: t in mTasks ==> t in old(mTasks)
      ensures View() == if task == null then old(View()) else RemoveAt(old(View()), Position(old(mTasks), task), task.id)
      ensures task != null && Position(old(mTasks), task) == Find(old(View()).tasks, task.id) ==>
        View() == DownloadQueue.RemoveTask(old(View()), task.id)
    {
      hide Remove, Values;
      if task == null {
        return;
      }
      var k := 0;
      while k < |mTasks| && mTasks[k] != task
        invariant 0 <= k <= |mTasks| && forall j :: 0 <= j < k ==> mTasks[j] != task
      {
        k := k + 1;
      }
      if k < |mTasks| {
        ValuesRemoved(mTasks, k);
        RemovedApart(mTasks, k);
        mTasks := Remove(mTasks, k);
      }
      mDb := mDb - {task.id};
    }

    method Cancel(id: int)
      requires Valid()
      modifies this`mTasks, mTasks, this`mDb
      ensures Valid() && View() == DownloadQueue.Cancel(old(View()), id, mMaxConcurrent)
    {
      var task, i := FindTask(id);
      if task != null {
        RemoveTask(task);
        assert forall k :: 0 <= k < |mTasks| ==> mTasks[k] in old(mTasks);
        PumpQueue();
      }
    }

    method Enqueue(id: int, startImmediately: bool)
      requires Valid()
      modifies this`mTasks, mTasks, this`mDb
      ensures Valid() && View() == DownloadQueue.Enqueue(old(View()), id, startImmediately, mMaxConcurrent)
    {
      hide Values;
      var task := new DownloadTask(id, if startImmediately then QUEUED else PAUSED);
      mDb := mDb[id := task.status];
      assert Values([task]) == [Task(id, task.status)];
      ValuesAppend([task], mTasks);
      mTasks := [task] + mTasks;
      if startImmediately {
        PumpQueue();
      }
    }

    /** `enqueueBatch`; ids are drawn before the loop. */
    method EnqueueBatch(ids: seq<int>)
      requires Valid()
      modifies this`mTasks, mTasks, this`mDb
      ensures Valid() && View() == DownloadQueue.EnqueueBatch(old(View()), ids, mMaxConcurrent)
    {
      hide Values, Inserted;
      var newTasks := NewTasks(ids);
      if |newTasks| > 0 {
        mDb := Inserted(mDb, ids);
        ValuesAppend(newTasks, mTasks);
        mTasks := newTasks + mTasks;
        PumpQueue();
      }
    }

    method NewTasks(ids: seq<int>) returns (newTasks: seq<DownloadTask>)
      ensures fresh(newTasks) && Apart(newTasks) && Values(newTasks) == Batch(ids)
    {
      hide Values;
      newTasks := [];
      var i := 0;
      while i < |ids|
        invariant 0 <= i <= |ids| && |newTasks| == i && fresh(newTasks) && Apart(newTasks)
        invariant forall j :: 0 <= j < i ==> newTasks[j].id == ids[j] && newTasks[j].status == QUEUED
      {
        var task := new DownloadTask(ids[i], QUEUED);
        newTasks := newTasks + [task];
        i := i + 1;
      }
    }

    method ResumeAll()
      requires Valid()
      modifies mTasks, this`mDb
      ensures View() == DownloadQueue.ResumeAll(old(View()), mMaxConcurrent)
    {
      hide Sweep, Values;
      var changed := RequeueStopped();
      if changed {
        PumpQueue();
      }
    }

    /** The loop of `resumeAll`. */
    method RequeueStopped() returns (changed: bool)
      requires Valid()
      modifies mTasks, this`mDb
      ensures View() == Sweep(old(View()), 0, Requeued) && changed == (View() != old(View()))
    {
      hide Values;
      var i := 0;
      changed := false;
      ghost var was := View();
      ghost var first := 0;
      while i < |mTasks|
        invariant 0 <= i <= |mTasks|
        invariant Sweep(View(), i, Requeued) == Sweep(was, 0, Requeued)
        invariant forall j :: i <= j < |mTasks| ==> View().tasks[j] == was.tasks[j]
        invariant if changed then 0 <= first < i && View().tasks[first] != was.tasks[first] else View() == was
      {
        if mTasks[i].status == PAUSED || mTasks[i].status == ERROR {
          SetTask(mTasks[i], QUEUED, i);
          changed, first := true, i;
        }
        i := i + 1;
      }
    }

    method StopAll()
      requires Valid()
      modifies mTasks, this`mDb
      ensures View() == DownloadQueue.StopAll(old(View()))
    {
      var i := 0;
      while i < |mTasks|
        invariant 0 <= i <= |mTasks|
        invariant Sweep(View(), i, Stopped) == Sweep(old(View()), 0, Stopped)
      {
        if mTasks[i].status == DOWNLOADING {
          SetTask(mTasks[i], PAUSED, i);
        } else if mTasks[i].status == QUEUED {
          SetTask(mTasks[i], PAUSED, i);
        }
        i := i + 1;
      }
    }

    method CancelAll()
      requires Valid()
      modifies this`mTasks, mTasks, this`mDb
      ensures Valid() && View() == DownloadQueue.CancelAll(old(View()), mMaxConcurrent)
    {
      hide Values, Completed, Dropped;
      var kept := DropUnfinished();
      assert forall k :: 0 <= k < |kept| ==> kept[k] in old(mTasks);
      mTasks := kept;
      PumpQueue();
    }

    /** The loop of `cancelAll`; `kept` is what `removeAll` leaves. */
    method DropUnfinished() returns (kept: seq<DownloadTask>)
      requires Valid()
      modifies this`mDb
      ensures Values(kept) == Completed(Values(mTasks)) && mDb == Dropped(old(mDb), Values(mTasks))
      ensures Apart(kept) && Behind(kept, mTasks, |mTasks|)
    {
      hide Values, Completed, Dropped;
      kept := [];
      var i := 0;
      ghost var all := Values(mTasks);
      assert all[0..] == all;
      while i < |mTasks|
        invariant 0 <= i <= |mTasks|
        invariant Values(kept) + Completed(all[i..]) == Completed(all)
        invariant Dropped(mDb, all[i..]) == Dropped(old(mDb), all)
        invariant Apart(kept) && Behind(kept, mTasks, i)
      {
        CancelStep(all, i, mDb);
        var t := mTasks[i];
        if t.status != COMPLETED {
          mDb := mDb - {t.id};
        } else {
          ValuesSnoc(kept, t);
          kept := kept + [t];
        }
        i := i + 1;
      }
      CancelEnd(all, mDb);
      assert Values(kept) + [] == Values(kept);
    }

    method DeleteAll()
      modifies this`mTasks, this`mDb
      ensures Valid() && View() == DownloadQueue.DeleteAll(old(View()))
    {
      mTasks, mDb := [], map[];
    }

    method PauseAllActive()
      requires Valid()
      modifies mTasks, this`mDb
      ensures View() == PauseAll(old(View()), mMaxConcurrent)
    {
      var i := 0;
      while i < |mTasks|
        invariant 0 <= i <= |mTasks|
        invariant PauseFrom(View(), i, mMaxConcurrent) == PauseFrom(old(View()), 0, mMaxConcurrent)
      {
        if mTasks[i].status == DOWNLOADING {
          Pause(mTasks[i].id);
        }
        i := i + 1;
      }
    }

    method SetWifiOnly(wifiOnly: bool)
      requires Valid()
      modifies this`mWifiOnly, mTasks, this`mDb
      ensures View() == DownloadQueue.SetWifiOnly(old(View()), wifiOnly, mMaxConcurrent)
    {
      mWifiOnly := wifiOnly;
      if mWifiOnly && !isWifi {
        PauseAllActive();
      } else {
        PumpQueue();
      }
    }

    method OnNetworkChanged(connected: bool, wifi: bool)
      requires Valid()
      modifies this`isWifi, mTasks, this`mDb
      ensures View() == NetworkChanged(old(View()), connected, wifi, mMaxConcurrent)
    {
      isWifi := wifi;
      if !connected {
        PauseAllActive();
      } else if mWifiOnly && !wifi {
        PauseAllActive();
      } else {
        PumpQueue();
      }
    }

    method OnProgress(id: int)
      modifies this`mDb
      ensures View() == DownloadQueue.OnProgress(old(View()), id)
    {
      hide Values;
      var task, i := FindTask(id);
      if task != null {
        mDb := Store(mDb, id, DOWNLOADING);
      }
    }

    /** `onCompleted` and `onError`; `posts` says whether they leave a pump for the main thread, where it runs as an
        operation of its own. */
    method OnEnded(id: int, status: Status) returns (posts: bool)
      requires Valid()
      modifies mTasks, this`mDb
      ensures View() == Ended(old(View()), id, status)
      ensures posts <==> exists t :: t in old(View()).tasks && t.id == id
    {
      var task, i := FindTask(id);
      posts := task != null;
      if task != null {
        assert View().tasks[i] in View().tasks;
        SetTask(task, status, i);
      }
    }
  }

  lemma ValuesAppend(a: seq<DownloadTask>, b: seq<DownloadTask>)
    ensures Values(a + b) == Values(a) + Values(b)
  {
  }

  lemma ValuesRemoved(ts: seq<DownloadTask>, i: nat)
    requires i < |ts|
    ensures Values(Remove(ts, i)) == Remove(Values(ts), i)
  {
    hide Values;
    forall k | 0 <= k < |ts| - 1 ensures Values(Remove(ts, i))[k] == Remove(Values(ts), i)[k] {
      RemovedAt(ts, i, k);
      RemovedAt(Values(ts), i, k);
    }
  }

  lemma RemovedAt<T>(s: seq<T>, i: nat, k: nat)
    requires i < |s| && k < |s| - 1
    ensures |Remove(s, i)| == |s| - 1 && Remove(s, i)[k] == s[if k < i then k else k + 1]
  {
  }

  lemma RemovedApart(ts: seq<DownloadTask>, i: nat)
    requires i < |ts| && Apart(ts)
    ensures Apart(Remove(ts, i)) && forall t :: t in Remove(ts, i) ==> t in ts
  {
  }

  lemma CancelStep(all: seq<Task>, i: nat, db: map<int, Status>)
    requires i < |all|
    ensures Completed(all[i..]) == (if all[i].status == COMPLETED then [all[i]] else []) + Completed(all[i + 1..])
    ensures Dropped(db, all[i..]) == Dropped(if all[i].status == COMPLETED then db else db - {all[i].id}, all[i + 1..])
  {
    assert all[i..][0] == all[i] && all[i..][1..] == all[i + 1..];
  }

  lemma CancelEnd(all: seq<Task>, db: map<int, Status>)
    ensures Completed(all[|all|..]) == [] && Dropped(db, all[|all|..]) == db
  {
  }

  lemma ValuesSnoc(ts: seq<DownloadTask>, t: DownloadTask)
    ensures Values(ts + [t]) == Values(ts) + [Task(t.id, t.status)]
  {
  }
}
