/** The Android download queue as a state machine over task statuses and the status column of the database
    (android/app/src/main/java/com/downloadengine/app/service/DownloadQueueManager.java:64-523). */
module DownloadQueue {
  import opened Bytes

  datatype Status = QUEUED | DOWNLOADING | PAUSED | COMPLETED | ERROR | SCHEDULED

  datatype Task = Task(id: int, status: Status)

  /** `tasks` in list order, `db` the status column; `wifi` is what the network monitor reports. */
  datatype Queue = Queue(tasks: seq<Task>, db: map<int, Status>, wifiOnly: bool, wifi: bool) {
    predicate Blocked() { wifiOnly && !wifi }

    /** Ids are random UUIDs. */
    ghost predicate Distinct() {
      forall i, j :: 0 <= i < j < |tasks| ==> tasks[i].id != tasks[j].id
    }
  }

  function Running(t: Task): int { if t.status == DOWNLOADING then 1 else 0 }

  function Active(q: Queue): int { Sum(Running, q.tasks) }

  /** `mDb.updateStatus`: a row that is not there stays not there. */
  function Store(db: map<int, Status>, id: int, s: Status): map<int, Status> {
    if id in db then db[id := s] else db
  }

  function SetStatus(q: Queue, i: nat, s: Status): Queue
    requires i < |q.tasks|
  {
    q.(tasks := q.tasks[i := Task(q.tasks[i].id, s)], db := Store(q.db, q.tasks[i].id, s))
  }

  /** The second loop of `pumpQueue`, from task `i` on, with `n` tasks running. */
  function PumpFrom(q: Queue, i: nat, n: int, cap: int): (r: Queue)
    ensures |r.tasks| == |q.tasks|
    decreases |q.tasks| - i
  {
    if i >= |q.tasks| then q
    else if q.tasks[i].status != QUEUED then PumpFrom(q, i + 1, n, cap)
    else if n + 1 >= cap then SetStatus(q, i, DOWNLOADING)
    else PumpFrom(SetStatus(q, i, DOWNLOADING), i + 1, n + 1, cap)
  }

  function Pump(q: Queue, cap: int): (r: Queue)
    ensures |r.tasks| == |q.tasks|
  {
    if q.Blocked() || Active(q) >= cap then q else PumpFrom(q, 0, Active(q), cap)
  }

  /** `findTask`: the first task with this id, or the list's length. */
  function Find(tasks: seq<Task>, id: int): (i: nat)
    ensures i <= |tasks| && (i < |tasks| ==> tasks[i].id == id)
    ensures forall j :: 0 <= j < i ==> tasks[j].id != id
  {
    if tasks == [] || tasks[0].id == id then 0 else 1 + Find(tasks[1..], id)
  }

  function Remove<T>(tasks: seq<T>, i: nat): seq<T>
    requires i < |tasks|
  {
    tasks[..i] + tasks[i + 1..]
  }

  function Pause(q: Queue, id: int, cap: int): (r: Queue)
    ensures |r.tasks| == |q.tasks|
  {
    var i := Find(q.tasks, id);
    if i < |q.tasks| && q.tasks[i].status == DOWNLOADING then Pump(SetStatus(q, i, PAUSED), cap) else q
  }

  function Resume(q: Queue, id: int, cap: int): Queue {
    var i := Find(q.tasks, id);
    if i < |q.tasks| && (q.tasks[i].status == PAUSED || q.tasks[i].status == ERROR) then Pump(SetStatus(q, i, QUEUED), cap) else q
  }

  /** The row with the id goes whether there is a task at `i` or not. */
  function RemoveAt(q: Queue, i: nat, id: int): Queue {
    q.(tasks := if i < |q.tasks| then Remove(q.tasks, i) else q.tasks, db := q.db - {id})
  }

  function RemoveTask(q: Queue, id: int): Queue { RemoveAt(q, Find(q.tasks, id), id) }

  function Cancel(q: Queue, id: int, cap: int): Queue {
    if Find(q.tasks, id) < |q.tasks| then Pump(RemoveTask(q, id), cap) else q
  }

  /** A pass over the list from task `i` on that maps every status. */
  function Sweep(q: Queue, i: nat, f: Status -> Status): Queue
    decreases |q.tasks| - i
  {
    if i >= |q.tasks| then q
    else if f(q.tasks[i].status) == q.tasks[i].status then Sweep(q, i + 1, f)
    else Sweep(SetStatus(q, i, f(q.tasks[i].status)), i + 1, f)
  }

  function Requeued(s: Status): Status { if s == PAUSED || s == ERROR then QUEUED else s }

  function Stopped(s: Status): Status { if s == DOWNLOADING || s == QUEUED then PAUSED else s }

  function ResumeAll(q: Queue, cap: int): Queue {
    var q' := Sweep(q, 0, Requeued);
    if q' == q then q else Pump(q', cap)
  }

  function StopAll(q: Queue): Queue { Sweep(q, 0, Stopped) }

  function Completed(tasks: seq<Task>): seq<Task> {
    if tasks == [] then []
    else if tasks[0].status == COMPLETED then [tasks[0]] + Completed(tasks[1..])
    else Completed(tasks[1..])
  }

  function Dropped(db: map<int, Status>, tasks: seq<Task>): map<int, Status>
    decreases |tasks|
  {
    if tasks == [] then db
    else Dropped(if tasks[0].status == COMPLETED then db else db - {tasks[0].id}, tasks[1..])
  }

  function CancelAll(q: Queue, cap: int): Queue {
    Pump(q.(tasks := Completed(q.tasks), db := Dropped(q.db, q.tasks)), cap)
  }

  function DeleteAll(q: Queue): Queue { q.(tasks := [], db := map[]) }

  /** The loop of `pauseAllActive`, from task `i` on; each `pause` pumps the queue. */
  function PauseFrom(q: Queue, i: nat, cap: int): (r: Queue)
    decreases |q.tasks| - i
  {
    if i >= |q.tasks| then q
    else if q.tasks[i].status != DOWNLOADING then PauseFrom(q, i + 1, cap)
    else PauseFrom(Pause(q, q.tasks[i].id, cap), i + 1, cap)
  }

  function PauseAll(q: Queue, cap: int): Queue { PauseFrom(q, 0, cap) }

  function SetWifiOnly(q: Queue, on: bool, cap: int): Queue {
    var q' := q.(wifiOnly := on);
    if q'.Blocked() then PauseAll(q', cap) else Pump(q', cap)
  }

  /** The monitor has already stored what it reports. */
  function NetworkChanged(q: Queue, connected: bool, wifi: bool, cap: int): Queue {
    var q' := q.(wifi := wifi);
    if !connected || q'.Blocked() then PauseAll(q', cap) else Pump(q', cap)
  }

  function Enqueue(q: Queue, id: int, now: bool, cap: int): Queue {
    var s := if now then QUEUED else PAUSED;
    var q' := q.(tasks := [Task(id, s)] + q.tasks, db := q.db[id := s]);
    if now then Pump(q', cap) else q'
  }

  function Batch(ids: seq<int>): seq<Task> { seq(|ids|, i requires 0 <= i < |ids| => Task(ids[i], QUEUED)) }

  function Inserted(db: map<int, Status>, ids: seq<int>): map<int, Status>
    decreases |ids|
  {
    if ids == [] then db else Inserted(db[ids[0] := QUEUED], ids[1..])
  }

  function EnqueueBatch(q: Queue, ids: seq<int>, cap: int): Queue {
    if ids == [] then q
    else Pump(q.(tasks := Batch(ids) + q.tasks, db := Inserted(q.db, ids)), cap)
  }

  /** `onProgress` writes DOWNLOADING into the row whatever the task's status is by now. */
  function OnProgress(q: Queue, id: int): Queue {
    if Find(q.tasks, id) < |q.tasks| then q.(db := Store(q.db, id, DOWNLOADING)) else q
  }

  /** A status set by a native callback; the pump that follows is posted and runs on its own. */
  function Ended(q: Queue, id: int, s: Status): Queue {
    var i := Find(q.tasks, id);
    if i < |q.tasks| then SetStatus(q, i, s) else q
  }

  function Interrupted(s: Status): Status { if s == DOWNLOADING then PAUSED else s }

  function Restored(db: map<int, Status>, ids: seq<int>): (tasks: seq<Task>)
    requires forall i :: 0 <= i < |ids| ==> ids[i] in db
    ensures |tasks| == |ids| && forall i :: 0 <= i < |ids| ==> tasks[i] == Task(ids[i], Interrupted(db[ids[i]]))
  {
    if ids == [] then [] else [Task(ids[0], Interrupted(db[ids[0]]))] + Restored(db, ids[1..])
  }

  function Recovered(db: map<int, Status>): map<int, Status> {
    map id | id in db :: Interrupted(db[id])
  }

  /** What `getAllTasks` returns: every row once, in some order. */
  ghost predicate Lists(ids: seq<int>, db: map<int, Status>) {
    && (forall i, j :: 0 <= i < j < |ids| ==> ids[i] != ids[j])
    && (forall i :: 0 <= i < |ids| ==> ids[i] in db)
    && (forall id :: id in db ==> id in ids)
  }

  /** A new process on the same database. */
  function Reload(q: Queue, ids: seq<int>): Queue
    requires forall i :: 0 <= i < |ids| ==> ids[i] in q.db
  {
    Queue(Restored(q.db, ids), Recovered(q.db), false, q.wifi)
  }

  datatype Op =
    | DoEnqueue(id: int, now: bool)
    | DoBatch(ids: seq<int>)
    | DoPause(id: int)
    | DoResume(id: int)
    | DoCancel(id: int)
    | DoRemove(id: int)
    | DoResumeAll
    | DoStopAll
    | DoCancelAll
    | DoDeleteAll
    | DoWifiOnly(on: bool)
    | Network(connected: bool, isWifi: bool)
    | Progress(id: int)
    | Done(id: int)
    | Failed(id: int)
    | StartFailed(id: int)
    | PostedPump
    | Restart(order: seq<int>)

  /** New ids are new, and a restart reads the whole database. */
  ghost predicate Allowed(q: Queue, op: Op) {
    match op
    case DoEnqueue(id, _) => forall i :: 0 <= i < |q.tasks| ==> q.tasks[i].id != id
    case DoBatch(ids) =>
      && (forall i, j :: 0 <= i < j < |ids| ==> ids[i] != ids[j])
      && (forall i, j :: 0 <= i < |q.tasks| && 0 <= j < |ids| ==> q.tasks[i].id != ids[j])
    case Restart(order) => Lists(order, q.db)
    case _ => true
  }

  ghost function Apply(q: Queue, op: Op, cap: int): Queue
    requires Allowed(q, op)
  {
    match op
    case DoEnqueue(id, now) => Enqueue(q, id, now, cap)
    case DoBatch(ids) => EnqueueBatch(q, ids, cap)
    case DoPause(id) => Pause(q, id, cap)
    case DoResume(id) => Resume(q, id, cap)
    case DoCancel(id) => Cancel(q, id, cap)
    case DoRemove(id) => RemoveTask(q, id)
    case DoResumeAll => ResumeAll(q, cap)
    case DoStopAll => StopAll(q)
    case DoCancelAll => CancelAll(q, cap)
    case DoDeleteAll => DeleteAll(q)
    case DoWifiOnly(on) => SetWifiOnly(q, on, cap)
    case Network(connected, isWifi) => NetworkChanged(q, connected, isWifi, cap)
    case Progress(id) => OnProgress(q, id)
    case Done(id) => Ended(q, id, COMPLETED)
    case Failed(id) => Ended(q, id, ERROR)
    case StartFailed(id) => Ended(q, id, ERROR)
    case PostedPump => Pump(q, cap)
    case Restart(order) => Reload(q, order)
  }
}
