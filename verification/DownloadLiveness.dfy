/** Every run of the multi-part download comes to an end, and when it can end well
    (pkg/engine/fd_sink.go:133-262, pkg/engine/worker.go:19-194). */
module DownloadLiveness {
  import opened Bytes
  import opened Chunks
  import opened Checkpoints
  import opened Download
  import opened DownloadSafety
  import W = Worker

  // ------------------------------------------------------- the measure

  /** What bounds a run: the resource's length, the number of chunks, the attempts allowed per chunk. */
  datatype Bounds = Bounds(source: nat, chunks: nat, attempts: nat)

  function BoundsOf(env: Env, g: Shared, maxRetries: int): Bounds {
    Bounds(|env.source|, |g.chunks|, Max(0, maxRetries + 1))
  }

  /** More than the steps of one attempt. */
  function PerAttempt(b: Bounds): nat { 4 * b.source + 9 }

  /** What attempts `k`, `k + 1`, ... may still cost. */
  function Rest(b: Bounds, k: nat): nat
    decreases b.attempts - k
  {
    if k >= b.attempts then 0 else PerAttempt(b) + Rest(b, k + 1)
  }

  /** Reporting an error, or finishing a chunk and saving progress, costs less than this. */
  function Tail(b: Bounds): nat { 7 + 2 * b.chunks }

  function Left(total: nat, x: int): nat { if 0 <= x <= total then total - x else 0 }

  /** An upper bound on a worker's steps with the chunk it has. */
  function Weight(b: Bounds, pc: Pc): int {
    match pc
    case Starting => 3
    case Idle => 2
    case Took(_) => Rest(b, 0) + Tail(b) + 1
    case Looping(_, k) => Rest(b, k) + Tail(b)
    case Pausing(_, k) => Rest(b, k + 1) + Tail(b) + 4 * b.source + 8
    case Ready(_, k) => Rest(b, k + 1) + Tail(b) + 4 * b.source + 7
    case Opened(_, k, _) => Rest(b, k + 1) + Tail(b) + 4 * b.source + 6
    case Asked(_, k, _, _) => Rest(b, k + 1) + Tail(b) + 4 * b.source + 5
    case Copying(_, k, _, _, from, got) => Rest(b, k + 1) + Tail(b) + 4 * Left(b.source, from + got) + 4
    case Reading(_, k, _, _, from, got) => Rest(b, k + 1) + Tail(b) + 4 * Left(b.source, from + got) + 3
    case Wrote(_, k, _, _, from, got, n, _) => Rest(b, k + 1) + Tail(b) + 4 * Left(b.source, from + got + n) + 6
    case Booked(_, k, _, _, from, got, _, _) => Rest(b, k + 1) + Tail(b) + 4 * Left(b.source, from + got) + 5
    case Failed(_, k, _, _) => Rest(b, k + 1) + Tail(b) + 2
    case Rolled(_, k, _) => Rest(b, k + 1) + Tail(b) + 1
    case Won(_, _) => 6 + 2 * b.chunks
    case Flagged => 5 + 2 * b.chunks
    case WantLock => 4 + 2 * b.chunks
    case SyncDown(i, _) => 3 + 2 * Left(b.chunks, i)
    case SyncFlag(i, _) => 2 + 2 * Left(b.chunks, i)
    case Erring(_, _) => 3
    case Recorded => 2
    case Leaving => 1
    case Exited => 0
  }

  function Cost(b: Bounds): Pc -> int { (pc: Pc) => Weight(b, pc) }

  /** The same for `jobs` chunks nobody has taken yet. */
  function Queued(b: Bounds, jobs: nat): nat {
    if jobs == 0 then 0 else Rest(b, 0) + Tail(b) + 1 + Queued(b, jobs - 1)
  }

  function Flags(g: Shared): nat { (if g.parentCancelled then 0 else 1) + (if g.workerCancelled then 0 else 1) }

  function Measure(env: Env, s: State): int
    requires s.Up?
  {
    var b := BoundsOf(env, s.g, s.maxRetries);
    Queued(b, |s.g.jobs|) + Sum(Cost(b), s.workers)
  }

  /** A read that brings neither a byte nor an end. */
  predicate IdleRead(pc: Pc, a: Act) { pc.Reading? && a.Read? && a.n == 0 && a.err == W.NoErr }

  lemma {:induction false} WeightNonNegative(b: Bounds, ws: seq<Pc>)
    ensures 0 <= Sum(Cost(b), ws)
  {
    SumNonNegative(Cost(b), ws);
  }

  lemma {:induction false} RestStep(b: Bounds, k: nat)
    ensures Rest(b, k) == (if k < b.attempts then PerAttempt(b) + Rest(b, k + 1) else 0)
    ensures k >= b.attempts ==> Rest(b, k + 1) == 0
  {
  }

  lemma {:induction false} WireDown(env: Env, b: Bounds, g: Shared, pc: Pc, a: Act)
    requires InRange(g, pc) && OnWire(pc) && b.source == |env.source| && !IdleRead(pc, a)
    requires MoveWire(env, g, pc, a).Moved?
    ensures Weight(b, MoveWire(env, g, pc, a).pc) < Weight(b, pc)
    ensures MoveWire(env, g, pc, a).g.jobs == g.jobs
  {
    hide WriteAt, W.Judge, Rest;
  }

  lemma {:induction false} BooksDown(b: Bounds, g: Shared, pc: Pc)
    requires InRange(g, pc) && InBooks(pc)
    ensures MoveBooks(g, pc).Moved? && Weight(b, MoveBooks(g, pc).pc) < Weight(b, pc) && MoveBooks(g, pc).g.jobs == g.jobs
  {
    hide Rest;
  }

  lemma {:induction false} SyncDownward(b: Bounds, g: Shared, w: nat, pc: Pc, a: Act)
    requires InSync(pc) && b.chunks == |g.chunks| && MoveSync(g, w, pc, a).Moved?
    ensures Weight(b, MoveSync(g, w, pc, a).pc) < Weight(b, pc) && MoveSync(g, w, pc, a).g.jobs == g.jobs
  {
    hide Rest;
  }

  lemma {:induction false} ControlDown(env: Env, b: Bounds, maxRetries: int, g: Shared, w: nat, pc: Pc, a: Act)
    requires InRange(g, pc) && !OnWire(pc) && !InBooks(pc) && !InSync(pc) && b.attempts == Max(0, maxRetries + 1)
    requires MoveControl(env, maxRetries, g, w, pc, a).Moved?
    ensures var m := MoveControl(env, maxRetries, g, w, pc, a);
      Weight(b, m.pc) + Queued(b, |m.g.jobs|) < Weight(b, pc) + Queued(b, |g.jobs|)
  {
    if pc.Looping? {
      RestStep(b, pc.k);
    }
    hide Rest;
  }

  /** Every step of a worker uses up some of what is left to do. */
  lemma {:induction false} MoveDown(env: Env, b: Bounds, maxRetries: int, g: Shared, w: nat, pc: Pc, a: Act)
    requires b == BoundsOf(env, g, maxRetries) && !IdleRead(pc, a)
    requires Move(env, maxRetries, g, w, pc, a).Moved?
    ensures var m := Move(env, maxRetries, g, w, pc, a);
      Weight(b, m.pc) + Queued(b, |m.g.jobs|) < Weight(b, pc) + Queued(b, |g.jobs|)
  {
    hide MoveWire, MoveBooks, MoveSync, MoveControl, Weight, Queued;
    if OnWire(pc) {
      WireDown(env, b, g, pc, a);
    } else if InBooks(pc) {
      BooksDown(b, g, pc);
    } else if InSync(pc) {
      SyncDownward(b, g, w, pc, a);
    } else {
      ControlDown(env, b, maxRetries, g, w, pc, a);
    }
  }

  // ---------------------------------------------------- nobody is stuck

  predicate InSave(pc: Pc) { pc.SyncDown? || pc.SyncFlag? }

  /** The lock has a holder, who is in the middle of a save. */
  ghost predicate LockOk(s: State) {
    && s.Up?
    && (s.g.lock.Some? ==> s.g.lock.value < |s.workers| && InSave(s.workers[s.g.lock.value]))
    && (forall w :: 0 <= w < |s.workers| && s.workers[w].SyncFlag? ==> s.workers[w].i < |s.g.chunks|)
  }

  /** What the environment may always offer a worker. */
  function Offer(pc: Pc): Act {
    if pc.Reading? then Read(0, 0, false, W.Eof) else if pc.SyncDown? then Save(true) else Go
  }

  lemma {:induction false} CanMove(env: Env, maxRetries: int, g: Shared, w: nat, pc: Pc)
    requires SharedOk(env, g) && |g.owner| == |g.excess| == |g.chunks| && WorkerOk(env, g, w, pc)
    requires pc != Exited && (pc.WantLock? ==> g.lock == None) && (pc.SyncFlag? ==> pc.i < |g.chunks|)
    ensures Move(env, maxRetries, g, w, pc, Offer(pc)).Moved?
    ensures !IdleRead(pc, Offer(pc))
  {
    hide Tiles, CellTrue, Agree, W.Judge, AfterTurn, AfterFault;
    if InSave(pc) && pc.i < |g.chunks| {
      assert MemEntryTrue(env, g.file, g.mem.chunks[pc.i], g.chunks[pc.i]);
    }
    if pc.Reading? {
      assert ChunkTrue(env, g.file, g.chunks[pc.c], g.excess[pc.c]);
    }
    hide ChunksTrue, MemEntryTrue;
    assert InRange(g, pc);
    if OnWire(pc) || InBooks(pc) {
      hide MoveControl, MoveSync;
    } else {
      hide MoveWire, MoveBooks;
    }
  }

  /** The save lock never deadlocks: while a worker has not exited, some worker can take a step. */
  lemma {:induction false} SomeoneMoves(env: Env, s: State) returns (w: nat)
    requires s.Up? && Inv(env, s) && LockOk(s) && !AllExited(s.workers)
    ensures w < |s.workers| && !IdleRead(s.workers[w], Offer(s.workers[w]))
    ensures Move(env, s.maxRetries, s.g, w, s.workers[w], Offer(s.workers[w])).Moved?
  {
    w :| 0 <= w < |s.workers| && s.workers[w] != Exited;
    if s.workers[w].WantLock? && s.g.lock.Some? {
      w := s.g.lock.value;
    }
    assert WorkerOk(env, s.g, w, s.workers[w]);
    hide SharedOk, WorkerOk, Move;
    CanMove(env, s.maxRetries, s.g, w, s.workers[w]);
  }

  lemma {:induction false} OtherLock(env: Env, maxRetries: int, g: Shared, w: nat, pc: Pc, a: Act)
    requires InRange(g, pc) && !InSync(pc) && Move(env, maxRetries, g, w, pc, a).Moved?
    ensures var m := Move(env, maxRetries, g, w, pc, a);
      |m.g.chunks| == |g.chunks| && m.g.lock == g.lock && !InSave(m.pc)
  {
    hide WriteAt, W.Judge;
    if OnWire(pc) {
      hide MoveBooks, MoveControl;
    } else if InBooks(pc) {
      hide MoveWire, MoveControl;
    } else {
      hide MoveWire, MoveBooks;
    }
  }

  lemma {:induction false} StepLock(env: Env, s: State, w: nat, a: Act, s': State)
    requires env.Valid() && s.Up? && LockOk(s) && Next(env, s, Step(w, a), s')
    ensures LockOk(s') && |s'.g.chunks| == |s.g.chunks|
  {
    var m := Move(env, s.maxRetries, s.g, w, s.workers[w], a);
    if InSync(s.workers[w]) {
      hide MoveSync;
    } else {
      OtherLock(env, s.maxRetries, s.g, w, s.workers[w], a);
    }
    hide MoveWire, MoveBooks, MoveControl;
  }

  lemma {:induction false} StartLock(env: Env, file: seq<byte>, cell: Option<CheckpointVal>, e: Event)
    requires env.Valid() && e.Start?
    ensures var s := Begin(env, file, cell, e);
      s.Up? ==> LockOk(s) && s.phase == Working
  {
    hide Resumable;
  }

  // ---------------------------------------------------- every run ends

  /** An event that changes something, and no read comes back empty-handed. */
  ghost predicate Busy(env: Env, s: State, e: Event, s': State) {
    && s.Up? && Next(env, s, e, s')
    && (match e
        case Step(w, a) => w < |s.workers| && !IdleRead(s.workers[w], a)
        case CancelParent => s' != s
        case Propagate => s' != s
        case _ => false)
  }

  lemma {:induction false} BusyDown(env: Env, s: State, e: Event, s': State)
    requires env.Valid() && Inv(env, s) && LockOk(s) && Busy(env, s, e, s')
    ensures Inv(env, s') && LockOk(s')
    ensures Measure(env, s') <= Measure(env, s) && Flags(s'.g) <= Flags(s.g)
    ensures Measure(env, s') < Measure(env, s) || Flags(s'.g) < Flags(s.g)
  {
    NextInv(env, s, e, s');
    if e.Step? {
      hide Inv;
      StepLock(env, s, e.w, e.act, s');
      StepDown(env, s, e.w, e.act, s');
    } else {
      hide Inv;
    }
  }

  lemma {:induction false} StepDown(env: Env, s: State, w: nat, a: Act, s': State)
    requires env.Valid() && s.Up? && Next(env, s, Step(w, a), s') && !IdleRead(s.workers[w], a)
    requires |s'.g.chunks| == |s.g.chunks|
    ensures Measure(env, s') < Measure(env, s) && Flags(s'.g) <= Flags(s.g)
  {
    var b := BoundsOf(env, s.g, s.maxRetries);
    MoveDown(env, b, s.maxRetries, s.g, w, s.workers[w], a);
    MoveFlags(env, s.maxRetries, s.g, w, s.workers[w], a);
    hide Move, Weight, Queued;
    SumUpdate(Cost(b), s.workers, w, s'.workers[w]);
  }

  lemma {:induction false} MoveFlags(env: Env, maxRetries: int, g: Shared, w: nat, pc: Pc, a: Act)
    requires Move(env, maxRetries, g, w, pc, a).Moved?
    ensures var m := Move(env, maxRetries, g, w, pc, a);
      (g.parentCancelled ==> m.g.parentCancelled) && (g.workerCancelled ==> m.g.workerCancelled)
  {
    hide WriteAt, W.Judge, AfterTurn, AfterFault;
  }

  /** Nothing hangs: in every multi-part run, whatever the interleaving, failures and cancellations, all workers
      exit after finitely many steps, unless idle reads never stop: from any point on without one, the end comes. */
  lemma {:induction false} EveryRunEnds(env: Env, run: nat -> State, events: nat -> Event, i: nat) returns (k: nat)
    requires env.Valid() && Inv(env, run(i)) && LockOk(run(i))
    requires forall j: nat :: i <= j ==> (run(j).Up? && AllExited(run(j).workers)) || Busy(env, run(j), events(j), run(j + 1))
    ensures i <= k && run(k).Up? && AllExited(run(k).workers)
    decreases Measure(env, run(i)), Flags(run(i).g)
  {
    if AllExited(run(i).workers) {
      k := i;
    } else {
      assert Busy(env, run(i), events(i), run(i + 1));
      BusyDown(env, run(i), events(i), run(i + 1));
      MeasureNonNegative(env, run(i));
      MeasureNonNegative(env, run(i + 1));
      hide Inv, Busy, Measure, Flags, LockOk;
      k := EveryRunEnds(env, run, events, i + 1);
    }
  }

  lemma {:induction false} MeasureNonNegative(env: Env, s: State)
    requires s.Up?
    ensures 0 <= Measure(env, s)
  {
    WeightNonNegative(BoundsOf(env, s.g, s.maxRetries), s.workers);
  }

  /** ... and idle reads can indeed keep a run from ending: a worker that is copying, with its context live, is
      after one of them exactly where it was before. */
  lemma IdleReadsHang(env: Env, s: State, w: nat) returns (s1: State)
    requires env.Valid() && Inv(env, s) && s.Up? && s.phase == Working && !s.g.workerCancelled
    requires w < |s.workers| && s.workers[w].Copying?
    ensures Next(env, s, Step(w, Go), s1) && Next(env, s1, Step(w, Read(0, 0, false, W.NoErr)), s)
    ensures s1.Up? && w < |s1.workers| && IdleRead(s1.workers[w], Read(0, 0, false, W.NoErr))
  {
    var pc := s.workers[w];
    assert WorkerOk(env, s.g, w, pc);
    assert ChunkTrue(env, s.g.file, s.g.chunks[pc.c], s.g.excess[pc.c]);
    s1 := s.(workers := s.workers[w := Reading(pc.c, pc.k, pc.base, pc.req, pc.from, pc.got)]);
    hide Inv;
    assert s1.workers[w := pc] == s.workers;
  }

  /** ... and until then it can always go on. */
  lemma NeverStuck(env: Env, s: State) returns (e: Event, s': State)
    requires env.Valid() && Inv(env, s) && LockOk(s) && s.phase == Working && !AllExited(s.workers)
    ensures Busy(env, s, e, s')
  {
    var w := SomeoneMoves(env, s);
    var m := Move(env, s.maxRetries, s.g, w, s.workers[w], Offer(s.workers[w]));
    hide Move;
    e, s' := Step(w, Offer(s.workers[w])), s.(g := m.g, workers := s.workers[w := m.pc]);
  }
}
