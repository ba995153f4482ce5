/** When a run can end well: exactly when no restored chunk is full without its flag (pkg/engine/worker.go:96-99,
    pkg/engine/fd_sink.go:133-262). */
module DownloadSuccess {
  import opened Bytes
  import opened Chunks
  import opened Checkpoints
  import opened Download
  import opened DownloadSafety
  import opened DownloadLiveness
  import W = Worker

  /** All its bytes are there, but the flag is not. */
  predicate Full(c: ChunkVal) { c.downloaded == c.Size() && !c.completed }

  ghost predicate NoneFull(chunks: seq<ChunkVal>) { forall c :: 0 <= c < |chunks| ==> !Full(chunks[c]) }

  /** One run, from `s` on. */
  ghost predicate Continues(env: Env, s: State, states: seq<State>, events: seq<Event>) {
    && Run(env, states, events) && states[0] == s
    && forall i :: 0 <= i < |states| ==> states[i].Up?
  }

  ghost predicate CanReturnNil(env: Env, s: State) {
    exists states: seq<State>, events: seq<Event> ::
      Continues(env, s, states, events) && states[|states| - 1].Up? && states[|states| - 1].phase == Returned(true)
  }

  // ------------------------------------- a full chunk blocks the verdict

  /** A worker with the chunk never gets as far as a request. */
  predicate Fruitless(pc: Pc, c: nat) {
    HasChunk(pc) && pc.c == c ==> !pc.Asked? && !InCopy(pc) && !pc.Won?
  }

  ghost predicate Stays(s: State, c: nat) {
    && s.Up? && c < |s.g.chunks| && Full(s.g.chunks[c])
    && forall w :: 0 <= w < |s.workers| ==> Fruitless(s.workers[w], c)
  }

  lemma {:induction false} WireStays(env: Env, g: Shared, pc: Pc, a: Act, c: nat)
    requires InRange(g, pc) && OnWire(pc) && c < |g.chunks| && Full(g.chunks[c]) && Fruitless(pc, c)
    requires MoveWire(env, g, pc, a).Moved?
    ensures var m := MoveWire(env, g, pc, a); m.g.chunks == g.chunks && Fruitless(m.pc, c)
  {
    hide WriteAt, W.Judge;
  }

  lemma {:induction false} BooksStays(g: Shared, pc: Pc, c: nat)
    requires InRange(g, pc) && InBooks(pc) && c < |g.chunks| && Full(g.chunks[c]) && Fruitless(pc, c)
    ensures var m := MoveBooks(g, pc);
      m.Moved? && |m.g.chunks| == |g.chunks| && m.g.chunks[c] == g.chunks[c] && Fruitless(m.pc, c)
  {
  }

  lemma {:induction false} MoveStays(env: Env, maxRetries: int, g: Shared, w: nat, pc: Pc, a: Act, c: nat)
    requires c < |g.chunks| && Full(g.chunks[c]) && Fruitless(pc, c)
    requires Move(env, maxRetries, g, w, pc, a).Moved?
    ensures var m := Move(env, maxRetries, g, w, pc, a);
      |m.g.chunks| == |g.chunks| && m.g.chunks[c] == g.chunks[c] && Fruitless(m.pc, c)
  {
    hide MoveWire, MoveBooks, Full;
    if OnWire(pc) {
      hide MoveControl, MoveSync, Fruitless;
      WireStays(env, g, pc, a, c);
    } else if InBooks(pc) {
      hide MoveControl, MoveSync, Fruitless;
      BooksStays(g, pc, c);
    } else if InSync(pc) {
      hide MoveControl;
    } else {
      hide MoveSync;
    }
  }

  lemma {:induction false} NextStays(env: Env, s: State, e: Event, s': State, c: nat)
    requires env.Valid() && Stays(s, c) && Next(env, s, e, s') && s'.Up?
    ensures Stays(s', c)
  {
    if e.Step? {
      MoveStays(env, s.maxRetries, s.g, e.w, s.workers[e.w], e.act, c);
      hide Move;
    } else {
      hide Snapshot;
    }
  }

  lemma {:induction false} RunStays(env: Env, s: State, states: seq<State>, events: seq<Event>, c: nat, k: nat)
    requires env.Valid() && Stays(s, c) && Continues(env, s, states, events) && k < |states|
    ensures Stays(states[k], c)
  {
    if k > 0 {
      RunStays(env, s, states, events, c, k - 1);
      assert Next(env, states[k - 1], events[k - 1], states[k]);
      hide Next, Stays;
      NextStays(env, states[k - 1], events[k - 1], states[k], c);
    }
  }

  lemma {:induction false} RunInv(env: Env, s: State, states: seq<State>, events: seq<Event>, k: nat)
    requires env.Valid() && Inv(env, s) && Continues(env, s, states, events) && k < |states|
    ensures Inv(env, states[k])
  {
    if k > 0 {
      RunInv(env, s, states, events, k - 1);
      assert Next(env, states[k - 1], events[k - 1], states[k]);
      hide Next, Inv;
      NextInv(env, states[k - 1], events[k - 1], states[k]);
    }
  }

  // ------------------------------------------- otherwise it can succeed

  /** What a cooperative environment offers: every request answered, every body in one read, every save done. */
  function Help(g: Shared, pc: Pc): Act
    requires HasChunk(pc) ==> pc.c < |g.chunks|
  {
    if pc.Asked? then Answer(W.Reply(206, Some(W.ContentRange(pc.req, g.chunks[pc.c].end, 0))))
    else if pc.Reading? && pc.req <= g.chunks[pc.c].end then
      var n := g.chunks[pc.c].end + 1 - pc.req;
      Read(n, n, false, W.Eof)
    else if pc.SyncDown? then Save(true)
    else Go
  }

  /** A worker on the way to success with its chunk. */
  predicate Thriving(g: Shared, pc: Pc) {
    && !pc.Failed? && !pc.Rolled? && !pc.Erring? && !pc.Recorded? && !pc.Pausing?
    && (HasChunk(pc) ==> pc.c < |g.chunks|)
    && (pc.Looping? ==> pc.k == 0)
    && (pc.Took? || pc.Looping? || pc.Ready? || pc.Opened? ==> g.chunks[pc.c].downloaded < g.chunks[pc.c].Size())
    && (pc.Copying? || pc.Reading? ==> pc.got == 0)
    && (pc.Wrote? ==> pc.got == 0 && pc.n == g.chunks[pc.c].end + 1 - pc.req && pc.err == W.Eof)
    && (pc.Booked? ==> pc.got == g.chunks[pc.c].end + 1 - pc.req && pc.err == W.Eof)
  }

  /** A run without errors or cancellation in which every chunk can still be finished. */
  ghost predicate Healthy(env: Env, s: State) {
    && Inv(env, s) && LockOk(s) && s.phase == Working && 0 <= s.maxRetries
    && s.g.err == None && !s.g.workerCancelled
    && (forall w :: 0 <= w < |s.workers| ==> Thriving(s.g, s.workers[w]))
    && (forall j :: 0 <= j < |s.g.jobs| && s.g.jobs[j] < |s.g.chunks| ==> !Full(s.g.chunks[s.g.jobs[j]]))
  }

  lemma {:induction false} HelpOnWire(env: Env, g: Shared, w: nat, pc: Pc)
    requires SharedOk(env, g) && InRange(g, pc) && WorkerOk(env, g, w, pc) && OnWire(pc) && Thriving(g, pc) && !g.workerCancelled
    ensures var m := MoveWire(env, g, pc, Help(g, pc)); m.Moved? && Thriving(m.g, m.pc)
    ensures !IdleRead(pc, Help(g, pc))
  {
    ChunkAt(env, g, pc.c);
    hide SharedOk, Agree, WriteAt;
  }

  lemma {:induction false} HelpOnBooks(env: Env, g: Shared, w: nat, pc: Pc)
    requires SharedOk(env, g) && InRange(g, pc) && WorkerOk(env, g, w, pc) && InBooks(pc) && Thriving(g, pc)
    ensures var m := MoveBooks(g, pc); m.Moved? && Thriving(m.g, m.pc)
  {
    ChunkAt(env, g, pc.c);
    hide SharedOk, Agree;
  }

  lemma {:induction false} HelpIdle(env: Env, maxRetries: int, g: Shared, w: nat)
    requires SharedOk(env, g) && InRange(g, Idle)
    requires forall j :: 0 <= j < |g.jobs| && g.jobs[j] < |g.chunks| ==> !Full(g.chunks[g.jobs[j]])
    ensures var m := MoveControl(env, maxRetries, g, w, Idle, Go); m.Moved? && Thriving(m.g, m.pc)
  {
    if g.jobs != [] {
      assert g.jobs[0] < |g.chunks| && !g.chunks[g.jobs[0]].completed;
      ChunkAt(env, g, g.jobs[0]);
    }
    hide Tiles, ChunksTrue, MemTrue, CellTrue;
  }

  lemma {:induction false} HelpOnControl(env: Env, maxRetries: int, g: Shared, w: nat, pc: Pc)
    requires SharedOk(env, g) && InRange(g, pc) && WorkerOk(env, g, w, pc) && !OnWire(pc) && !InBooks(pc) && !InSync(pc)
    requires pc != Exited && Thriving(g, pc) && !g.workerCancelled && 0 <= maxRetries
    requires forall j :: 0 <= j < |g.jobs| && g.jobs[j] < |g.chunks| ==> !Full(g.chunks[g.jobs[j]])
    ensures var m := MoveControl(env, maxRetries, g, w, pc, Help(g, pc)); m.Moved? && Thriving(m.g, m.pc)
  {
    hide SharedOk;
    if pc.Idle? {
      HelpIdle(env, maxRetries, g, w);
    } else {
      hide WorkerOk, Full;
    }
  }

  lemma {:induction false} HelpOnSync(env: Env, g: Shared, w: nat, pc: Pc)
    requires SharedOk(env, g) && InSync(pc) && (pc.WantLock? ==> g.lock == None) && (pc.SyncFlag? ==> pc.i < |g.chunks|)
    ensures var m := MoveSync(g, w, pc, Help(g, pc)); m.Moved? && Thriving(m.g, m.pc)
  {
    hide Tiles, ChunksTrue, CellTrue, QueueOk;
    if InSave(pc) && pc.i < |g.chunks| {
      assert MemEntryTrue(env, g.file, g.mem.chunks[pc.i], g.chunks[pc.i]);
    }
  }

  /** A helped step succeeds and leaves its worker on the way to success. */
  lemma {:induction false} HelpedStep(env: Env, maxRetries: int, g: Shared, w: nat, pc: Pc)
    requires SharedOk(env, g) && InRange(g, pc) && WorkerOk(env, g, w, pc) && Thriving(g, pc) && !g.workerCancelled && 0 <= maxRetries
    requires pc != Exited && (pc.WantLock? ==> g.lock == None) && (pc.SyncFlag? ==> pc.i < |g.chunks|)
    requires forall j :: 0 <= j < |g.jobs| && g.jobs[j] < |g.chunks| ==> !Full(g.chunks[g.jobs[j]])
    ensures var m := Move(env, maxRetries, g, w, pc, Help(g, pc)); m.Moved? && Thriving(m.g, m.pc)
    ensures !IdleRead(pc, Help(g, pc))
  {
    hide SharedOk, WorkerOk, Thriving, MoveWire, MoveBooks, MoveSync, MoveControl;
    if OnWire(pc) {
      HelpOnWire(env, g, w, pc);
    } else if InBooks(pc) {
      HelpOnBooks(env, g, w, pc);
    } else if InSync(pc) {
      HelpOnSync(env, g, w, pc);
    } else {
      HelpOnControl(env, maxRetries, g, w, pc);
    }
  }

  /** A step changes only the chunk its worker holds, takes jobs only off the front, and reports no error
      unless the worker had one. */
  lemma {:induction false} StepTouches(env: Env, maxRetries: int, g: Shared, w: nat, pc: Pc, a: Act)
    requires InRange(g, pc) && Move(env, maxRetries, g, w, pc, a).Moved?
    ensures var m := Move(env, maxRetries, g, w, pc, a);
      && |m.g.chunks| == |g.chunks|
      && (forall c :: 0 <= c < |g.chunks| && !(HasChunk(pc) && pc.c == c) ==> m.g.chunks[c] == g.chunks[c])
      && (m.g.jobs == g.jobs || (g.jobs != [] && m.g.jobs == g.jobs[1..]))
      && (!pc.Erring? ==> m.g.err == g.err) && (!pc.Recorded? ==> m.g.workerCancelled == g.workerCancelled)
  {
    hide WriteAt, W.Judge, AfterTurn, AfterFault;
    if OnWire(pc) {
      hide MoveBooks, MoveControl, MoveSync;
    } else if InBooks(pc) {
      hide MoveWire, MoveControl, MoveSync;
    } else if InSync(pc) {
      hide MoveWire, MoveBooks, MoveControl;
    } else {
      hide MoveWire, MoveBooks, MoveSync;
    }
  }

  lemma {:induction false} HealthyStep(env: Env, s: State, w: nat) returns (s': State)
    requires env.Valid() && Healthy(env, s) && w < |s.workers| && s.workers[w] != Exited
    requires s.workers[w].WantLock? ==> s.g.lock == None
    ensures Next(env, s, Step(w, Help(s.g, s.workers[w])), s') && Healthy(env, s')
    ensures Measure(env, s') < Measure(env, s)
  {
    var g, pc := s.g, s.workers[w];
    assert WorkerOk(env, g, w, pc) && InRange(g, pc);
    var a := Help(g, pc);
    hide SharedOk, WorkersOk, WorkerOk, AllAccounted, Thriving, Move;
    HelpedStep(env, s.maxRetries, g, w, pc);
    var m := Move(env, s.maxRetries, g, w, pc, a);
    s' := s.(g := m.g, workers := s.workers[w := m.pc]);
    StillHealthy(env, s, w, a, s');
    StepTouches(env, s.maxRetries, g, w, pc, a);
    StepDown(env, s, w, a, s');
    hide Healthy, Measure;
  }

  lemma {:induction false} StillHealthy(env: Env, s: State, w: nat, a: Act, s': State)
    requires env.Valid() && Healthy(env, s) && Next(env, s, Step(w, a), s') && Thriving(s'.g, s'.workers[w])
    ensures Healthy(env, s')
  {
    var g, ws, pc := s.g, s.workers, s.workers[w];
    assert QueueOk(g.chunks, g.owner, g.jobs) && InRange(g, pc);
    hide SharedOk, WorkerOk, Thriving, Move;
    StepTouches(env, s.maxRetries, g, w, pc, a);
    forall v | 0 <= v < |ws| ensures Thriving(s'.g, s'.workers[v]) {
    }
    forall j | 0 <= j < |s'.g.jobs| && s'.g.jobs[j] < |s'.g.chunks| ensures !Full(s'.g.chunks[s'.g.jobs[j]]) {
      JobsUntouched(env, g, w, pc, s'.g, j);
    }
    hide Inv, LockOk, QueueOk, Full;
    StepInv(env, s, w, a, s');
    StepLock(env, s, w, a, s');
  }

  lemma {:induction false} JobsUntouched(env: Env, g: Shared, w: nat, pc: Pc, g': Shared, j: nat)
    requires QueueOk(g.chunks, g.owner, g.jobs) && |g.excess| == |g.chunks| == |g'.chunks| && WorkerOk(env, g, w, pc)
    requires forall c :: 0 <= c < |g.chunks| && !(HasChunk(pc) && pc.c == c) ==> g'.chunks[c] == g.chunks[c]
    requires g'.jobs == g.jobs || (g.jobs != [] && g'.jobs == g.jobs[1..])
    requires forall j :: 0 <= j < |g.jobs| && g.jobs[j] < |g.chunks| ==> !Full(g.chunks[g.jobs[j]])
    requires j < |g'.jobs|
    ensures g'.jobs[j] < |g'.chunks| ==> !Full(g'.chunks[g'.jobs[j]])
  {
    hide CopyOk;
    var k := if g'.jobs == g.jobs then j else j + 1;
    assert g'.jobs[j] == g.jobs[k];
  }

  /** A worker that can take a helped step. */
  lemma {:induction false} Mover(env: Env, s: State) returns (w: nat)
    requires Healthy(env, s) && !AllExited(s.workers)
    ensures w < |s.workers| && s.workers[w] != Exited && (s.workers[w].WantLock? ==> s.g.lock == None)
  {
    hide Inv, Thriving;
    w :| 0 <= w < |s.workers| && s.workers[w] != Exited;
    if s.workers[w].WantLock? && s.g.lock.Some? {
      w := s.g.lock.value;
    }
  }

  // What a cooperative environment never touches.

  /** Byte `p` lies in some chunk's done prefix. */
  ghost predicate Claimed(g: Shared, p: int) {
    exists c :: 0 <= c < |g.chunks| && g.chunks[c].start <= p < g.chunks[c].start + g.chunks[c].downloaded
  }

  /** The event writes nothing at `p`. */
  ghost predicate Spares(s: State, e: Event, p: int) {
    s.Up? && e.Step? && e.w < |s.workers| && s.workers[e.w].Reading? && e.act.Read? ==>
      var off := s.workers[e.w].base + s.workers[e.w].got;
      !(off <= p < off + e.act.n)
  }

  lemma {:induction false} HelpSpares(env: Env, s: State, w: nat, p: int)
    requires Healthy(env, s) && w < |s.workers| && Claimed(s.g, p)
    requires HasChunk(s.workers[w]) ==> s.workers[w].c < |s.g.chunks|
    ensures Spares(s, Step(w, Help(s.g, s.workers[w])), p)
  {
    var g, pc := s.g, s.workers[w];
    if pc.Reading? {
      assert WorkerOk(env, g, w, pc) && Thriving(g, pc);
      var c :| 0 <= c < |g.chunks| && g.chunks[c].start <= p < g.chunks[c].start + g.chunks[c].downloaded;
      ChunkAt(env, g, c);
      assert Inside(g.chunks[c], p);
      assert Tiles(g.chunks, |env.source|);
      hide Inv, Agree;
      var own := g.chunks[pc.c];
      assert own.start <= p <= own.end ==> Inside(own, p);
    }
  }

  /** Progress never shrinks. */
  lemma {:induction false} StepClaims(env: Env, maxRetries: int, g: Shared, w: nat, pc: Pc, a: Act, p: int)
    requires SharedOk(env, g) && InRange(g, pc) && WorkerOk(env, g, w, pc) && Move(env, maxRetries, g, w, pc, a).Moved?
    requires Claimed(g, p)
    ensures Claimed(Move(env, maxRetries, g, w, pc, a).g, p)
  {
    var m := Move(env, maxRetries, g, w, pc, a);
    var c :| 0 <= c < |g.chunks| && g.chunks[c].start <= p < g.chunks[c].start + g.chunks[c].downloaded;
    StepTouches(env, maxRetries, g, w, pc, a);
    if HasChunk(pc) && pc.c == c {
      ChunkAt(env, g, c);
      OwnProgress(env, maxRetries, g, w, pc, a);
    }
    hide Move, SharedOk, WorkerOk;
    assert m.g.chunks[c].start <= p < m.g.chunks[c].start + m.g.chunks[c].downloaded;
  }

  lemma {:induction false} OwnProgress(env: Env, maxRetries: int, g: Shared, w: nat, pc: Pc, a: Act)
    requires SharedOk(env, g) && InRange(g, pc) && HasChunk(pc) && WorkerOk(env, g, w, pc) && Move(env, maxRetries, g, w, pc, a).Moved?
    ensures var was, now := g.chunks[pc.c], Move(env, maxRetries, g, w, pc, a).g.chunks;
      |now| == |g.chunks| && now[pc.c].start == was.start && was.downloaded <= now[pc.c].downloaded
  {
    ChunkAt(env, g, pc.c);
    hide SharedOk, WriteAt, Agree, W.Judge;
    if OnWire(pc) {
      hide MoveBooks, MoveControl, MoveSync, WorkerOk;
    } else if InBooks(pc) {
      hide MoveWire, MoveControl, MoveSync;
    } else {
      hide MoveWire, MoveBooks, WorkerOk;
    }
  }

  /** From any healthy state a cooperative environment leads the run to a nil return, and never writes where the
      chunks already claim to be done. */
  lemma {:induction false} Drive(env: Env, s: State) returns (states: seq<State>, events: seq<Event>)
    requires env.Valid() && Healthy(env, s)
    ensures Continues(env, s, states, events) && states[|states| - 1].phase == Returned(true)
    ensures forall p, i :: Claimed(s.g, p) && 0 <= i < |events| ==> Spares(states[i], events[i], p)
    decreases Measure(env, s)
  {
    if AllExited(s.workers) {
      states, events := Finished(env, s);
    } else {
      var w := Mover(env, s);
      var e := Step(w, Help(s.g, s.workers[w]));
      var s' := HealthyStep(env, s, w);
      MeasureNonNegative(env, s');
      forall p | Claimed(s.g, p) ensures Spares(s, e, p) && Claimed(s'.g, p) {
        HelpClaims(env, s, w, s', p);
      }
      hide Healthy, Next, Measure, Claimed, Spares;
      var more, rest := Drive(env, s');
      states, events := [s] + more, [e] + rest;
      Prepended(env, s, e, s', more, rest);
      SparesPrepended(s, e, s', more, rest);
    }
  }

  lemma {:induction false} HelpClaims(env: Env, s: State, w: nat, s': State, p: int)
    requires env.Valid() && Healthy(env, s) && w < |s.workers| && Claimed(s.g, p)
    requires Next(env, s, Step(w, Help(s.g, s.workers[w])), s')
    ensures Spares(s, Step(w, Help(s.g, s.workers[w])), p) && Claimed(s'.g, p)
  {
    assert WorkerOk(env, s.g, w, s.workers[w]) && InRange(s.g, s.workers[w]) && SharedOk(env, s.g);
    HelpSpares(env, s, w, p);
    hide Inv, Healthy, SharedOk, WorkerOk, Move, Claimed, Spares;
    StepClaims(env, s.maxRetries, s.g, w, s.workers[w], Help(s.g, s.workers[w]), p);
  }

  lemma {:induction false} SparesPrepended(s: State, e: Event, s': State, states: seq<State>, events: seq<Event>)
    requires s.Up? && s'.Up? && |states| == |events| + 1
    requires forall p :: Claimed(s.g, p) ==> Spares(s, e, p) && Claimed(s'.g, p)
    requires forall p, i :: Claimed(s'.g, p) && 0 <= i < |events| ==> Spares(states[i], events[i], p)
    ensures forall p, i :: Claimed(s.g, p) && 0 <= i < |events| + 1 ==> Spares(([s] + states)[i], ([e] + events)[i], p)
  {
    hide Claimed, Spares;
    var all, evs := [s] + states, [e] + events;
    forall p, i | Claimed(s.g, p) && 0 <= i < |evs| ensures Spares(all[i], evs[i], p) {
      if i > 0 {
        assert all[i] == states[i - 1] && evs[i] == events[i - 1];
      }
    }
  }

  lemma {:induction false} Prepended(env: Env, s: State, e: Event, s': State, states: seq<State>, events: seq<Event>)
    requires env.Valid() && s.Up? && Next(env, s, e, s') && Continues(env, s', states, events)
    ensures Continues(env, s, [s] + states, [e] + events)
  {
    hide Next;
    var all, evs := [s] + states, [e] + events;
    forall i | 0 <= i < |evs| ensures Next(env, all[i], evs[i], all[i + 1]) {
      if i > 0 {
        assert all[i] == states[i - 1] && evs[i] == events[i - 1] && all[i + 1] == states[i];
      }
    }
  }

  lemma {:induction false} Finished(env: Env, s: State) returns (states: seq<State>, events: seq<Event>)
    requires env.Valid() && Healthy(env, s) && AllExited(s.workers)
    ensures Continues(env, s, states, events) && states[|states| - 1].phase == Returned(true)
    ensures forall i :: 0 <= i < |events| ==> !events[i].Step?
  {
    var g := s.g;
    assert SharedOk(env, g);
    FinalSnapshotResumable(env, g);
    assert |g.mem.chunks| == |g.chunks|;
    hide SharedOk, Inv, LockOk, Thriving, Resumable, Snapshot;
    var synced := s.(g := if (g.workerCancelled || g.parentCancelled || g.err.Some?) && g.hasState
                          then g.(mem := Snapshot(g), cell := Some(Snapshot(g))) else g, phase := Synced);
    var done := synced.(phase := Returned(true));
    states, events := [s, synced, done], [FinalSync(true), Return];
    assert Next(env, s, FinalSync(true), synced) && Next(env, synced, Return, done);
  }

  // ------------------------------------ the file does not steer the run

  /** The same run over a different file. */
  predicate Twins(s: State, t: State) { s.Up? && t.Up? && t == s.(g := s.g.(file := t.g.file, cell := t.g.cell)) }

  ghost predicate SameBut(h: Shared, g: Shared) { h == g.(file := h.file, cell := h.cell) }

  lemma {:induction false} BooksTwins(g: Shared, h: Shared, pc: Pc)
    requires SameBut(h, g) && InRange(g, pc) && InBooks(pc)
    ensures var m, n := MoveBooks(g, pc), MoveBooks(h, pc); m.Moved? && n.Moved? && n.pc == m.pc && SameBut(n.g, m.g)
  {
    hide AfterTurn, AfterFault;
  }

  lemma {:induction false} ControlTwins(env: Env, maxRetries: int, g: Shared, h: Shared, w: nat, pc: Pc, a: Act)
    requires SameBut(h, g) && InRange(g, pc) && !OnWire(pc) && !InBooks(pc) && !InSync(pc) && MoveControl(env, maxRetries, g, w, pc, a).Moved?
    ensures var m, n := MoveControl(env, maxRetries, g, w, pc, a), MoveControl(env, maxRetries, h, w, pc, a);
      n.Moved? && n.pc == m.pc && SameBut(n.g, m.g)
  {
  }

  lemma {:induction false} WireTwins(env: Env, g: Shared, h: Shared, pc: Pc, a: Act)
    requires SameBut(h, g) && InRange(g, pc) && OnWire(pc) && MoveWire(env, g, pc, a).Moved?
    ensures var m, n := MoveWire(env, g, pc, a), MoveWire(env, h, pc, a); n.Moved? && n.pc == m.pc && SameBut(n.g, m.g)
  {
    hide WriteAt, W.Judge, AfterTurn;
  }

  lemma {:induction false} SyncTwins(g: Shared, h: Shared, w: nat, pc: Pc, a: Act)
    requires SameBut(h, g) && InSync(pc) && MoveSync(g, w, pc, a).Moved?
    ensures var m, n := MoveSync(g, w, pc, a), MoveSync(h, w, pc, a); n.Moved? && n.pc == m.pc && SameBut(n.g, m.g)
  {
  }

  lemma {:induction false} MoveTwins(env: Env, maxRetries: int, g: Shared, h: Shared, w: nat, pc: Pc, a: Act)
    requires SameBut(h, g) && Move(env, maxRetries, g, w, pc, a).Moved?
    ensures var m, n := Move(env, maxRetries, g, w, pc, a), Move(env, maxRetries, h, w, pc, a);
      n.Moved? && n.pc == m.pc && SameBut(n.g, m.g)
  {
    assert InRange(h, pc);
    hide MoveWire, MoveBooks, MoveSync, MoveControl, SameBut;
    if OnWire(pc) {
      WireTwins(env, g, h, pc, a);
    } else if InBooks(pc) {
      BooksTwins(g, h, pc);
    } else if InSync(pc) {
      SyncTwins(g, h, w, pc, a);
    } else {
      ControlTwins(env, maxRetries, g, h, w, pc, a);
    }
  }

  lemma {:induction false} NextTwins(env: Env, s: State, t: State, e: Event, s': State) returns (t': State)
    requires env.Valid() && Twins(s, t) && Next(env, s, e, s') && s'.Up?
    ensures Next(env, t, e, t') && Twins(s', t')
  {
    if e.Step? {
      MoveTwins(env, s.maxRetries, s.g, t.g, e.w, s.workers[e.w], e.act);
      var n := Move(env, t.maxRetries, t.g, e.w, t.workers[e.w], e.act);
      t' := t.(g := n.g, workers := t.workers[e.w := n.pc]);
      hide Move;
    } else {
      var cell := if e.FinalSync? && s'.g.cell != s.g.cell then s'.g.cell else t.g.cell;
      if e.FinalSync? && (s.g.workerCancelled || s.g.parentCancelled || s.g.err.Some?) && s.g.hasState {
        cell := if e.ok then Some(Snapshot(s.g)) else t.g.cell;
      }
      t' := s'.(g := s'.g.(file := t.g.file, cell := cell));
      hide Snapshot;
    }
  }

  /** A run takes the same events to the same control states over any file. */
  lemma {:induction false} RunTwins(env: Env, s: State, t: State, states: seq<State>, events: seq<Event>, k: nat)
    returns (twins: seq<State>)
    requires env.Valid() && Twins(s, t) && Continues(env, s, states, events) && k < |states|
    ensures |twins| == k + 1 && twins[0] == t
    ensures forall i :: 0 <= i <= k ==> Twins(states[i], twins[i])
    ensures forall i :: 0 <= i < k ==> Next(env, twins[i], events[i], twins[i + 1])
  {
    hide Next, Twins;
    if k == 0 {
      twins := [t];
    } else {
      var before := RunTwins(env, s, t, states, events, k - 1);
      assert Next(env, states[k - 1], events[k - 1], states[k]);
      var t' := NextTwins(env, states[k - 1], before[k - 1], events[k - 1], states[k]);
      twins := before + [t'];
    }
  }

  lemma {:induction false} TwinContinues(env: Env, s: State, t: State, states: seq<State>, events: seq<Event>)
    returns (twins: seq<State>)
    requires env.Valid() && Twins(s, t) && Continues(env, s, states, events)
    ensures Continues(env, t, twins, events) && |twins| == |states|
    ensures forall i :: 0 <= i < |states| ==> Twins(states[i], twins[i])
  {
    hide Next, Twins;
    twins := RunTwins(env, s, t, states, events, |states| - 1);
    forall i | 0 <= i < |states| ensures twins[i].Up? {
      TwinUp(states[i], twins[i]);
    }
  }

  lemma TwinUp(s: State, t: State)
    requires Twins(s, t)
    ensures s.Up? && t.Up? && s.phase == t.phase && s.g.chunks == t.g.chunks && s.workers == t.workers
  {
  }

  /** The source itself makes every checkpoint true. */
  lemma {:induction false} SourceTrue(env: Env, cell: Option<CheckpointVal>)
    requires env.Valid()
    ensures CellTrue(env, env.source, cell)
  {
    hide Tiles;
    if cell.Some? && Resumable(cell.value, env.info) {
      forall i | 0 <= i < |cell.value.chunks| ensures EntryTrue(env, env.source, cell.value.chunks[i]) {
        assert cell.value.chunks[i].value.Sound(|env.source|);
      }
    }
  }

  /** The run as it would start over the source. */
  ghost function Ideal(env: Env, cell: Option<CheckpointVal>, e: Event): State
    requires env.Valid() && e.Start? && InParts(env, cell, e)
  {
    if Accepts(env, cell, e) then Begin(env, env.source, cell, e) else LaunchFresh(env, env.source, cell, e)
  }

  lemma {:induction false} IdealTwin(env: Env, file: seq<byte>, cell: Option<CheckpointVal>, e: Event)
    requires env.Valid() && e.Start? && InParts(env, cell, e)
    ensures var s, t := Begin(env, file, cell, e), Ideal(env, cell, e);
      && Twins(s, t) && Twins(t, s) && Inv(env, t) && LockOk(t) && t.phase == Working
      && t.maxRetries == e.opts.maxRetries && t.g.err == None && !t.g.workerCancelled
      && (NoneFull(s.g.chunks) && 0 <= e.opts.maxRetries ==> Healthy(env, t))
  {
    SourceTrue(env, cell);
    if Accepts(env, cell, e) {
      ResumeInv(env, env.source, cell.value, e.opts);
    } else {
      FreshInv(env, env.source, cell, e);
    }
    StartLock(env, env.source, cell, e);
    hide Inv, Resumable, Layout;
  }

  /** A multi-part run can still return nil after its start if and only if no chunk it starts with is full without
      its flag, whatever the file holds and whether its checkpoint is true or not. A run that does not resume
      always can; a run that resumes from a checkpoint with such a chunk cannot, not by any number of retries,
      whatever the server does. */
  lemma NilReachableIff(env: Env, file: seq<byte>, cell: Option<CheckpointVal>, e: Event)
    requires env.Valid() && e.Start? && InParts(env, cell, e) && 0 <= e.opts.maxRetries
    ensures var s := Begin(env, file, cell, e);
      && s.Up? && (CanReturnNil(env, s) <==> NoneFull(s.g.chunks))
      && (!Accepts(env, cell, e) ==> NoneFull(s.g.chunks))
      && (Accepts(env, cell, e) ==> s.g.chunks == Values(cell.value.chunks))
  {
    var s, t := Begin(env, file, cell, e), Ideal(env, cell, e);
    IdealTwin(env, file, cell, e);
    if !Accepts(env, cell, e) {
      FreshNoneFull(env, OpenedFile(env, file, cell, e), cell, e);
    }
    if NoneFull(s.g.chunks) {
      hide Healthy, Inv, Begin, Ideal, Twins;
      var states, events := Drive(env, t);
      var twins := TwinContinues(env, t, s, states, events);
      TwinUp(states[|states| - 1], twins[|twins| - 1]);
    } else {
      var c :| 0 <= c < |s.g.chunks| && Full(s.g.chunks[c]);
      hide Begin, Ideal, Inv, Stays, Twins;
      forall states: seq<State>, events: seq<Event> | Continues(env, s, states, events)
        ensures states[|states| - 1].Up? ==> states[|states| - 1].phase != Returned(true)
      {
        NeverNil(env, s, t, states, events, c);
      }
    }
  }

  lemma {:induction false} FreshNoneFull(env: Env, file: seq<byte>, cell: Option<CheckpointVal>, e: Event)
    requires env.Valid() && e.Start?
    ensures NoneFull(LaunchFresh(env, file, cell, e).g.chunks)
  {
    var n := |env.source|;
    var size := EffectiveSize(n, e.opts.chunkSize, e.opts.concurrency);
    forall c | 0 <= c < |Layout(n, size)| ensures !Full(Layout(n, size)[c]) {
      LayoutAtInside(n, size, c);
    }
  }

  /** Over the twin's true file the verdict is nil only with every chunk complete, so over any file. */
  lemma NeverNil(env: Env, s: State, t: State, states: seq<State>, events: seq<Event>, c: nat)
    requires env.Valid() && Twins(s, t) && Inv(env, t) && Stays(s, c) && Continues(env, s, states, events)
    ensures states[|states| - 1].phase != Returned(true)
  {
    var last := |states| - 1;
    RunStays(env, s, states, events, c, last);
    var twins := TwinContinues(env, s, t, states, events);
    RunInv(env, t, twins, events, last);
    TwinUp(states[last], twins[last]);
    hide SharedOk, WorkersOk, AllAccounted;
    assert Inv(env, twins[last]) && Stays(states[last], c);
  }
}
