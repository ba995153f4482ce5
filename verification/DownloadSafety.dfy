/** Every reachable state of every chain of runs tells the truth about the file. */
module DownloadSafety {
  import opened Bytes
  import opened Chunks
  import opened Checkpoints
  import opened Download
  import W = Worker

  // ------------------------------------------------------ the invariant

  /** A checkpoint entry whose done prefix the file holds. */
  ghost predicate EntryTrue(env: Env, file: seq<byte>, e: Option<ChunkVal>) {
    e.Some? ==> Agree(file, env.source, e.value.start, e.value.start + e.value.downloaded)
  }

  /** A saved checkpoint that a later run would accept claims only bytes the file holds. */
  ghost predicate CellTrue(env: Env, file: seq<byte>, cell: Option<CheckpointVal>) {
    cell.Some? && Resumable(cell.value, env.info) ==>
      forall i :: 0 <= i < |cell.value.chunks| ==> EntryTrue(env, file, cell.value.chunks[i])
  }

  ghost predicate ChunkTrue(env: Env, file: seq<byte>, c: ChunkVal, excess: int) {
    && c.Sound(|env.source|)
    && Agree(file, env.source, c.start, c.start + c.downloaded)
    && 0 <= excess && (excess > 0 ==> c.downloaded == c.Size() && !c.completed)
  }

  ghost predicate ChunksTrue(env: Env, file: seq<byte>, chunks: seq<ChunkVal>, excess: seq<int>) {
    |excess| == |chunks| && forall c :: 0 <= c < |chunks| ==> ChunkTrue(env, file, chunks[c], excess[c])
  }

  /** The in-memory checkpoint: the run's own ranges, true prefixes, flags possibly torn from them. */
  ghost predicate MemEntryTrue(env: Env, file: seq<byte>, e: Option<ChunkVal>, c: ChunkVal) {
    && e.Some?
    && e.value.index == c.index && e.value.start == c.start && e.value.end == c.end
    && 0 <= e.value.downloaded <= c.downloaded
    && EntryTrue(env, file, e)
  }

  ghost predicate MemTrue(env: Env, file: seq<byte>, chunks: seq<ChunkVal>, mem: CheckpointVal) {
    && SameResource(mem, env.info) && mem.totalChunks == |mem.chunks| == |chunks|
    && forall c :: 0 <= c < |chunks| ==> MemEntryTrue(env, file, mem.chunks[c], chunks[c])
  }

  /** The queue holds, in order and once each, exactly the unfinished chunks nobody has taken. */
  ghost predicate QueueOk(chunks: seq<ChunkVal>, owner: seq<Option<nat>>, jobs: seq<nat>) {
    && |owner| == |chunks|
    && (forall i :: 0 <= i < |jobs| ==> jobs[i] < |chunks| && !chunks[jobs[i]].completed && owner[jobs[i]] == None)
    && (forall i, j :: 0 <= i < j < |jobs| ==> jobs[i] < jobs[j])
    && (forall c :: 0 <= c < |chunks| && !chunks[c].completed && owner[c] == None ==> c in jobs)
  }

  ghost predicate SharedOk(env: Env, g: Shared) {
    && Tiles(g.chunks, |env.source|)
    && ChunksTrue(env, g.file, g.chunks, g.excess)
    && MemTrue(env, g.file, g.chunks, g.mem)
    && CellTrue(env, g.file, g.cell)
    && QueueOk(g.chunks, g.owner, g.jobs)
    && (g.workerCancelled ==> g.parentCancelled || g.err.Some?)
  }

  /** Something that lets a worker stop with work left. */
  predicate Excused(g: Shared) { g.workerCancelled || g.err.Some? }

  predicate InCopy(pc: Pc) { pc.Copying? || pc.Reading? || pc.Wrote? || pc.Booked? }

  /** Bytes past the request start that this worker's writer has put in the file. */
  function Reach(pc: Pc): int
    requires InCopy(pc)
  {
    pc.got + if pc.Wrote? then pc.n else 0
  }

  /** While copying: writer and request agree, the file holds the source as far as the worker has written,
      and progress is what it has booked. */
  ghost predicate CopyOk(env: Env, file: seq<byte>, c: ChunkVal, excess: int, pc: Pc)
    requires InCopy(pc)
  {
    && pc.base == pc.req == pc.from && c.start <= pc.req <= c.end
    && pc.req + Reach(pc) <= |env.source|
    && Agree(file, env.source, c.start, pc.req + Reach(pc))
    && c.downloaded == Min(pc.got + pc.req - c.start, c.Size())
    && excess == Max(0, pc.got - (c.end + 1 - pc.req))
    && (pc.Booked? ==> pc.n <= pc.got)
  }

  /** Worker `w` took chunk `c`, and it is not finished. */
  predicate Holding(g: Shared, w: nat, c: nat)
    requires |g.owner| == |g.chunks|
  {
    c < |g.chunks| && g.owner[c] == Some(w) && !g.chunks[c].completed
  }

  ghost predicate WorkerOk(env: Env, g: Shared, w: nat, pc: Pc)
    requires |g.owner| == |g.excess| == |g.chunks|
  {
    if HasChunk(pc) then
      && Holding(g, w, pc.c)
      && var ch := g.chunks[pc.c];
      if InCopy(pc) then CopyOk(env, g.file, ch, g.excess[pc.c], pc)
      else if pc.Opened? then pc.base == ch.start + ch.downloaded
      else if pc.Asked? then pc.base == pc.req == ch.start + ch.downloaded <= ch.end
      else if pc.Won? then ch.downloaded == ch.Size() && g.excess[pc.c] == 0
      else true
    else if pc.SyncDown? || pc.SyncFlag? then g.lock == Some(w)
    else if pc.Recorded? then g.err.Some?
    else if pc.Leaving? || pc.Exited? then g.jobs == [] || Excused(g)
    else true
  }

  ghost predicate WorkersOk(env: Env, g: Shared, ws: seq<Pc>) {
    |g.owner| == |g.excess| == |g.chunks| && forall w :: 0 <= w < |ws| ==> WorkerOk(env, g, w, ws[w])
  }

  /** An unfinished chunk is queued, in some worker's hands, or given up for a reason on record. */
  ghost predicate Accounted(g: Shared, ws: seq<Pc>, c: nat)
    requires c < |g.chunks| && |g.owner| == |g.chunks|
  {
    !g.chunks[c].completed && g.owner[c].Some? && !Excused(g) ==>
      g.owner[c].value < |ws| && HasChunk(ws[g.owner[c].value]) && ws[g.owner[c].value].c == c
  }

  ghost predicate AllAccounted(g: Shared, ws: seq<Pc>) {
    |g.owner| == |g.chunks| && forall c :: 0 <= c < |g.chunks| ==> Accounted(g, ws, c)
  }

  predicate AllComplete(chunks: seq<ChunkVal>) { forall c :: 0 <= c < |chunks| ==> chunks[c].completed }

  predicate PhaseOk(g: Shared, ws: seq<Pc>, phase: Phase) {
    && (phase != Working ==> AllExited(ws))
    && (phase == Returned(true) ==> g.err == None && AllComplete(g.chunks))
  }

  ghost predicate Inv(env: Env, s: State) {
    match s
    case Down(file, cell) => CellTrue(env, file, cell)
    case Streaming(file, cell, got, _, _) => CellTrue(env, file, cell) && got <= |env.source| && file == env.source[..got]
    case Up(g, ws, _, phase) =>
      SharedOk(env, g) && WorkersOk(env, g, ws) && AllAccounted(g, ws) && ws != [] && PhaseOk(g, ws, phase)
  }

  // ------------------------------------------- what one step may change

  /** What the other workers can rely on when worker `w` moves from `g` to `g'`. */
  ghost predicate Rely(env: Env, g: Shared, g': Shared, w: nat) {
    && |g'.chunks| == |g.chunks| && |g'.owner| == |g.owner| && |g'.excess| == |g.excess|
    && Kept(env, g.file, g'.file)
    && (forall c :: 0 <= c < |g.chunks| && c < |g.owner| && c < |g.excess| && g.owner[c].Some? && g.owner[c] != Some(w) ==>
          g'.owner[c] == g.owner[c] && g'.chunks[c] == g.chunks[c] && g'.excess[c] == g.excess[c])
    && (g.lock.Some? && g.lock != Some(w) ==> g'.lock == g.lock)
    && (g.err.Some? ==> g'.err == g.err) && (g.workerCancelled ==> g'.workerCancelled)
    && (g.jobs == [] ==> g'.jobs == [])
  }

  /** Source bytes the file holds stay. */
  ghost predicate Kept(env: Env, file: seq<byte>, file': seq<byte>) {
    forall p :: Holds(file, env.source, p) ==> Holds(file', env.source, p)
  }

  lemma {:induction false} WriteKept(env: Env, file: seq<byte>, off: nat, k: nat)
    requires off + k <= |env.source|
    ensures Kept(env, file, WriteAt(file, off, env.source[off..off + k]))
  {
    var file' := WriteAt(file, off, env.source[off..off + k]);
    forall p | Holds(file, env.source, p) ensures Holds(file', env.source, p) {
      assert Agree(file, env.source, p, p + 1);
      WriteKeepsAgree(file, env.source, off, k, p, p + 1);
    }
  }

  /** A worker's invariant survives the steps of the others. */
  lemma {:induction false} Undisturbed(env: Env, g: Shared, g': Shared, w: nat, v: nat, pc: Pc)
    requires |g.owner| == |g.excess| == |g.chunks| && Rely(env, g, g', w) && v != w
    requires WorkerOk(env, g, v, pc)
    ensures WorkerOk(env, g', v, pc)
  {
  }

  /** ... and so do the truth of chunks, of the in-memory checkpoint and of the saved one, when the file only
      gains source bytes. */
  lemma {:induction false} TruthKept(env: Env, g: Shared, file': seq<byte>)
    requires Kept(env, g.file, file')
    requires ChunksTrue(env, g.file, g.chunks, g.excess) && MemTrue(env, g.file, g.chunks, g.mem) && CellTrue(env, g.file, g.cell)
    ensures ChunksTrue(env, file', g.chunks, g.excess) && MemTrue(env, file', g.chunks, g.mem) && CellTrue(env, file', g.cell)
  {
  }

  /** Steps that touch neither the file nor a chunk, its owner or its excess disturb nobody. */
  lemma {:induction false} CalmRely(env: Env, g: Shared, g': Shared, w: nat)
    requires g'.file == g.file && g'.chunks == g.chunks && g'.owner == g.owner && g'.excess == g.excess && g'.jobs == g.jobs
    requires g'.lock == g.lock || g.lock == None || g.lock == Some(w)
    requires g.err.Some? ==> g'.err == g.err
    requires g.workerCancelled ==> g'.workerCancelled
    ensures Rely(env, g, g', w)
  {
  }

  lemma {:induction false} SelfRely(env: Env, g: Shared, w: nat)
    ensures Rely(env, g, g, w)
  {
  }

  lemma {:induction false} FileRely(env: Env, g: Shared, file': seq<byte>, w: nat)
    requires SharedOk(env, g) && Kept(env, g.file, file')
    ensures SharedOk(env, g.(file := file')) && Rely(env, g, g.(file := file'), w)
  {
    hide Tiles, QueueOk, ChunksTrue, MemTrue, CellTrue, Kept;
    TruthKept(env, g, file');
  }

  lemma {:induction false} ChunkRely(env: Env, g: Shared, c: nat, ch: ChunkVal, x: int, w: nat)
    requires |g.owner| == |g.excess| == |g.chunks| && c < |g.chunks| && g.owner[c] == Some(w)
    ensures Rely(env, g, g.(chunks := g.chunks[c := ch], excess := g.excess[c := x]), w)
    ensures Rely(env, g, g.(chunks := g.chunks[c := ch], excess := g.excess[c := x], kept := g.kept + x), w)
  {
  }

  // ------------------------------------------------- one worker step

  ghost predicate StepOk(env: Env, g: Shared, w: nat, pc: Pc, m: Moved) {
    m.Moved? && SharedOk(env, m.g) && Rely(env, g, m.g, w)
    && |m.g.owner| == |m.g.excess| == |m.g.chunks| && WorkerOk(env, m.g, w, m.pc)
  }

  lemma {:induction false} TakeStep(env: Env, maxRetries: int, g: Shared, w: nat, a: Act)
    requires SharedOk(env, g) && Move(env, maxRetries, g, w, Idle, a).Moved?
    ensures StepOk(env, g, w, Idle, Move(env, maxRetries, g, w, Idle, a))
  {
    hide ChunksTrue, MemTrue, CellTrue, Tiles;
    if g.jobs != [] {
      var g' := Move(env, maxRetries, g, w, Idle, a).g;
      forall c | 0 <= c < |g.chunks| && !g.chunks[c].completed && g'.owner[c] == None ensures c in g'.jobs {
        assert c in g.jobs && c != g.jobs[0];
      }
    }
  }

  /** The end of a copy turn, once everything read is booked. */
  lemma {:induction false} AfterTurnOk(env: Env, g: Shared, w: nat, c: nat, k: nat, base: int, req: int, from: nat, got: nat,
                        err: W.ReadErr)
    requires |g.owner| == |g.excess| == |g.chunks| && WorkerOk(env, g, w, Copying(c, k, base, req, from, got))
    ensures WorkerOk(env, g, w, AfterTurn(c, k, base, req, from, got, err, g.chunks[c].end))
  {
  }

  lemma {:induction false} ReadStep(env: Env, maxRetries: int, g: Shared, w: nat, pc: Pc, a: Act)
    requires pc.Reading? && InRange(g, pc) && SharedOk(env, g) && WorkerOk(env, g, w, pc)
    requires Move(env, maxRetries, g, w, pc, a).Moved?
    ensures StepOk(env, g, w, pc, Move(env, maxRetries, g, w, pc, a))
  {
    if a.n == 0 {
      AfterTurnOk(env, g, w, pc.c, pc.k, pc.base, pc.req, pc.from, pc.got, a.err);
      SelfRely(env, g, w);
      hide SharedOk, Rely, CopyOk, WorkerOk, AfterTurn, WriteAt;
    } else {
      var off, took := pc.base + pc.got, Min(a.took, a.n);
      WriteKept(env, g.file, off, took);
      FileRely(env, g, WriteAt(g.file, off, env.source[off..off + took]), w);
      ReadWorker(env, g, w, pc, a);
      hide SharedOk, Rely, WorkerOk, WriteAt, AfterTurn;
    }
  }

  lemma {:induction false} ReadWorker(env: Env, g: Shared, w: nat, pc: Pc, a: Act)
    requires pc.Reading? && InRange(g, pc) && WorkerOk(env, g, w, pc)
    requires a.Read? && a.n > 0 && MoveWire(env, g, pc, a).Moved?
    ensures WorkerOk(env, MoveWire(env, g, pc, a).g, w, MoveWire(env, g, pc, a).pc)
  {
    WriteExtendsAgree(g.file, env.source, pc.base + pc.got, Min(a.took, a.n), g.chunks[pc.c].start);
    hide WriteAt, Agree, AfterTurn;
  }

  /** A chunk update that keeps the range, moves the done prefix forward over bytes the file holds, and leaves
      nothing else to check. */
  lemma {:induction false} UpdateChunk(env: Env, g: Shared, c: nat, ch: ChunkVal, x: int)
    requires SharedOk(env, g) && c < |g.chunks| && g.owner[c].Some?
    requires ch.index == g.chunks[c].index && ch.start == g.chunks[c].start && ch.end == g.chunks[c].end
    requires g.chunks[c].downloaded <= ch.downloaded && (g.chunks[c].completed ==> ch.completed)
    requires ChunkTrue(env, g.file, ch, x)
    ensures SharedOk(env, g.(chunks := g.chunks[c := ch], excess := g.excess[c := x]))
  {
    hide EntryTrue, CellTrue;
    assert g.owner[c] != None;
    TilesSameRanges(g.chunks, g.chunks[c := ch], |env.source|);
    hide Tiles, SameResource, ChunkTrue;
    assert g.mem.totalChunks == |g.mem.chunks|;
  }

  lemma {:induction false} BookStep(env: Env, maxRetries: int, g: Shared, w: nat, pc: Pc, a: Act)
    requires pc.Wrote? && InRange(g, pc) && SharedOk(env, g) && WorkerOk(env, g, w, pc)
    ensures StepOk(env, g, w, pc, Move(env, maxRetries, g, w, pc, a))
  {
    hide Agree, SharedOk, Rely, CopyOk, ChunkTrue;
    var c := g.chunks[pc.c];
    var ch := Clamped(c, pc.got + pc.n + pc.req - c.start);
    var x := g.excess[pc.c] + pc.n - (ch.downloaded - c.downloaded);
    ChunkAt(env, g, pc.c);
    BookedChunk(env, g.file, c, g.excess[pc.c], pc);
    UpdateChunk(env, g, pc.c, ch, x);
    ChunkRely(env, g, pc.c, ch, x, w);
  }

  /** Booking `n` bytes the file already holds. */
  lemma {:induction false} BookedChunk(env: Env, file: seq<byte>, c: ChunkVal, excess: int, pc: Pc)
    requires pc.Wrote? && CopyOk(env, file, c, excess, pc) && ChunkTrue(env, file, c, excess) && !c.completed
    ensures var ch := Clamped(c, pc.got + pc.n + pc.req - c.start);
      var x := excess + pc.n - (ch.downloaded - c.downloaded);
      && ChunkTrue(env, file, ch, x) && c.downloaded <= ch.downloaded
      && CopyOk(env, file, ch, x, Booked(pc.c, pc.k, pc.base, pc.req, pc.from, pc.got + pc.n, pc.n, pc.err))
  {
  }

  lemma {:induction false} WinStep(env: Env, maxRetries: int, g: Shared, w: nat, pc: Pc, a: Act)
    requires pc.Won? && InRange(g, pc) && SharedOk(env, g) && WorkerOk(env, g, w, pc)
    ensures StepOk(env, g, w, pc, Move(env, maxRetries, g, w, pc, a))
  {
    var c := g.chunks[pc.c];
    assert ChunkTrue(env, g.file, c, g.excess[pc.c]);
    UpdateChunk(env, g, pc.c, Marked(c), g.excess[pc.c]);
    assert g.excess[pc.c := g.excess[pc.c]] == g.excess;
  }

  /** A saved snapshot of the in-memory checkpoint is true even when torn. */
  lemma {:induction false} SaveMem(env: Env, g: Shared, total: int, ok: bool)
    requires SharedOk(env, g)
    ensures var mem := g.mem.(completedSize := total);
      SharedOk(env, g.(mem := mem, cell := if ok then Some(mem) else g.cell, lock := None))
  {
    hide Tiles, ChunksTrue, QueueOk, Describes, EntryTrue;
  }

  lemma {:induction false} LockStep(env: Env, maxRetries: int, g: Shared, w: nat, a: Act)
    requires SharedOk(env, g) && InRange(g, WantLock) && Move(env, maxRetries, g, w, WantLock, a).Moved?
    ensures StepOk(env, g, w, WantLock, Move(env, maxRetries, g, w, WantLock, a))
  {
    hide Tiles, ChunksTrue, MemTrue, CellTrue, QueueOk;
    CalmRely(env, g, g.(lock := Some(w)), w);
    hide Rely;
  }

  lemma {:induction false} SyncCopies(env: Env, g: Shared, w: nat, pc: Pc, a: Act)
    requires (pc.SyncDown? || pc.SyncFlag?) && pc.i < |g.chunks| && InRange(g, pc) && SharedOk(env, g)
    requires MoveSync(g, w, pc, a).Moved?
    ensures SharedOk(env, MoveSync(g, w, pc, a).g)
  {
    assert MemEntryTrue(env, g.file, g.mem.chunks[pc.i], g.chunks[pc.i]);
    ChunkAt(env, g, pc.i);
    var e := g.mem.chunks[pc.i].value;
    var e' := if pc.SyncDown? then e.(downloaded := g.chunks[pc.i].downloaded) else e.(completed := g.chunks[pc.i].completed);
    assert MemEntryTrue(env, g.file, Some(e'), g.chunks[pc.i]);
    hide SharedOk, MemEntryTrue;
  }

  lemma {:induction false} SyncSaves(env: Env, g: Shared, w: nat, pc: Pc, a: Act)
    requires (pc.SyncDown? || pc.SyncFlag?) && pc.i >= |g.chunks| && InRange(g, pc) && SharedOk(env, g)
    requires MoveSync(g, w, pc, a).Moved?
    ensures SharedOk(env, MoveSync(g, w, pc, a).g)
  {
    hide SharedOk;
    SaveMem(env, g, pc.total, a.ok);
  }

  lemma {:induction false} SyncStep(env: Env, maxRetries: int, g: Shared, w: nat, pc: Pc, a: Act)
    requires (pc.SyncDown? || pc.SyncFlag?) && InRange(g, pc) && SharedOk(env, g) && WorkerOk(env, g, w, pc)
    requires Move(env, maxRetries, g, w, pc, a).Moved?
    ensures StepOk(env, g, w, pc, Move(env, maxRetries, g, w, pc, a))
  {
    hide SharedOk, MoveWire, MoveBooks, MoveControl;
    if pc.i < |g.chunks| {
      SyncCopies(env, g, w, pc, a);
    } else {
      SyncSaves(env, g, w, pc, a);
    }
    CalmRely(env, g, MoveSync(g, w, pc, a).g, w);
    hide Rely;
  }

  lemma {:induction false} ControlStep(env: Env, maxRetries: int, g: Shared, w: nat, pc: Pc, a: Act)
    requires InRange(g, pc) && !pc.Idle? && !OnWire(pc) && !InBooks(pc) && !InSync(pc)
    requires SharedOk(env, g) && WorkerOk(env, g, w, pc)
    requires Move(env, maxRetries, g, w, pc, a).Moved?
    ensures StepOk(env, g, w, pc, Move(env, maxRetries, g, w, pc, a))
  {
    hide Tiles, ChunksTrue, MemTrue, CellTrue, QueueOk, CopyOk, MoveWire, MoveBooks, MoveSync;
    CalmRely(env, g, Move(env, maxRetries, g, w, pc, a).g, w);
    hide Rely;
  }

  lemma {:induction false} OpenStep(env: Env, maxRetries: int, g: Shared, w: nat, c: nat, k: nat, base: int, a: Act)
    requires var pc := Opened(c, k, base); InRange(g, pc) && SharedOk(env, g) && WorkerOk(env, g, w, pc)
    ensures StepOk(env, g, w, Opened(c, k, base), Move(env, maxRetries, g, w, Opened(c, k, base), a))
  {
    ChunkAt(env, g, c);
    SelfRely(env, g, w);
    hide SharedOk, Rely, CopyOk;
  }

  lemma {:induction false} AskStep(env: Env, maxRetries: int, g: Shared, w: nat, c: nat, k: nat, base: int, req: int, a: Act)
    requires var pc := Asked(c, k, base, req); InRange(g, pc) && SharedOk(env, g) && WorkerOk(env, g, w, pc)
    ensures StepOk(env, g, w, Asked(c, k, base, req), Move(env, maxRetries, g, w, Asked(c, k, base, req), a))
  {
    ChunkAt(env, g, c);
    SelfRely(env, g, w);
    hide SharedOk, Rely, W.Judge;
  }

  lemma {:induction false} CopyStep(env: Env, maxRetries: int, g: Shared, w: nat, pc: Pc, a: Act)
    requires pc.Copying? && InRange(g, pc) && SharedOk(env, g) && WorkerOk(env, g, w, pc)
    ensures StepOk(env, g, w, pc, Move(env, maxRetries, g, w, pc, a))
  {
    SelfRely(env, g, w);
    hide SharedOk, Rely;
  }

  lemma {:induction false} CountStep(env: Env, maxRetries: int, g: Shared, w: nat, pc: Pc, a: Act)
    requires (pc.Booked? || pc.Failed? || pc.Rolled?) && InRange(g, pc) && SharedOk(env, g) && WorkerOk(env, g, w, pc)
    ensures StepOk(env, g, w, pc, Move(env, maxRetries, g, w, pc, a))
  {
    hide Tiles, ChunksTrue, MemTrue, CellTrue, QueueOk, MoveWire, MoveSync, MoveControl;
    var m := Move(env, maxRetries, g, w, pc, a);
    CalmRely(env, g, m.g, w);
    if pc.Booked? {
      AfterTurnOk(env, m.g, w, pc.c, pc.k, pc.base, pc.req, pc.from, pc.got, pc.err);
    }
    hide Rely, CopyOk, AfterTurn;
  }

  lemma {:induction false} ChunkAt(env: Env, g: Shared, c: nat)
    requires SharedOk(env, g) && c < |g.chunks|
    ensures c < |g.excess| && ChunkTrue(env, g.file, g.chunks[c], g.excess[c])
  {
  }

  lemma {:induction false} WorkerStep(env: Env, maxRetries: int, g: Shared, w: nat, pc: Pc, a: Act)
    requires InRange(g, pc) && SharedOk(env, g) && WorkerOk(env, g, w, pc)
    requires Move(env, maxRetries, g, w, pc, a).Moved?
    ensures StepOk(env, g, w, pc, Move(env, maxRetries, g, w, pc, a))
  {
    hide SharedOk, WorkerOk, Move, StepOk;
    if pc.Idle? {
      TakeStep(env, maxRetries, g, w, a);
    } else if pc.Reading? {
      ReadStep(env, maxRetries, g, w, pc, a);
    } else if pc.Wrote? {
      BookStep(env, maxRetries, g, w, pc, a);
    } else if pc.Won? {
      WinStep(env, maxRetries, g, w, pc, a);
    } else if pc.WantLock? {
      LockStep(env, maxRetries, g, w, a);
    } else if InSync(pc) {
      SyncStep(env, maxRetries, g, w, pc, a);
    } else if pc.Opened? {
      OpenStep(env, maxRetries, g, w, pc.c, pc.k, pc.base, a);
    } else if pc.Asked? {
      AskStep(env, maxRetries, g, w, pc.c, pc.k, pc.base, pc.req, a);
    } else if pc.Copying? {
      CopyStep(env, maxRetries, g, w, pc, a);
    } else if InBooks(pc) {
      CountStep(env, maxRetries, g, w, pc, a);
    } else {
      ControlStep(env, maxRetries, g, w, pc, a);
    }
  }

  // ------------------------------------------------- the whole system

  /** Chunk `c`, if `w` took it, is in its hands, finished, or given up with a reason on record. */
  predicate HeldOrDone(g: Shared, w: nat, c: nat, m: Moved)
    requires c < |g.chunks| && m.Moved?
  {
    && |m.g.owner| == |m.g.chunks| == |g.chunks|
    && (m.g.owner[c] == Some(w) && !m.g.chunks[c].completed && !Excused(m.g) ==> HasChunk(m.pc) && m.pc.c == c)
  }

  lemma {:induction false} HoldsOnWire(env: Env, g: Shared, w: nat, pc: Pc, a: Act, c: nat)
    requires OnWire(pc) && InRange(g, pc) && c < |g.chunks| && MoveWire(env, g, pc, a).Moved?
    requires g.owner[c] == Some(w) && !g.chunks[c].completed && !Excused(g) ==> pc.c == c
    ensures HeldOrDone(g, w, c, MoveWire(env, g, pc, a))
  {
    hide WriteAt, W.Judge;
  }

  lemma {:induction false} HoldsOnSync(g: Shared, w: nat, pc: Pc, a: Act, c: nat)
    requires InSync(pc) && InRange(g, pc) && c < |g.chunks| && MoveSync(g, w, pc, a).Moved?
    requires g.owner[c] != Some(w) || g.chunks[c].completed || Excused(g)
    ensures HeldOrDone(g, w, c, MoveSync(g, w, pc, a))
  {
  }

  lemma {:induction false} HoldsOnBooks(env: Env, g: Shared, w: nat, pc: Pc, c: nat)
    requires InBooks(pc) && InRange(g, pc) && c < |g.chunks| && WorkerOk(env, g, w, pc)
    requires g.owner[c] == Some(w) && !g.chunks[c].completed && !Excused(g) ==> pc.c == c
    ensures HeldOrDone(g, w, c, MoveBooks(g, pc))
  {
    hide CopyOk;
  }

  /** A worker lets go of its chunk only when it is finished or something is on record. */
  lemma {:induction false} HoldsOn(env: Env, maxRetries: int, g: Shared, w: nat, pc: Pc, a: Act, c: nat)
    requires InRange(g, pc) && c < |g.chunks| && WorkerOk(env, g, w, pc)
    requires Move(env, maxRetries, g, w, pc, a).Moved?
    requires g.owner[c] == Some(w) && !g.chunks[c].completed && !Excused(g) ==> HasChunk(pc) && pc.c == c
    ensures HeldOrDone(g, w, c, Move(env, maxRetries, g, w, pc, a))
  {
    hide CopyOk, MoveWire, MoveBooks, MoveSync;
    if OnWire(pc) {
      HoldsOnWire(env, g, w, pc, a, c);
    } else if InSync(pc) {
      HoldsOnSync(g, w, pc, a, c);
    } else if InBooks(pc) {
      HoldsOnBooks(env, g, w, pc, c);
    }
  }

  lemma {:induction false} StepAccounted(env: Env, maxRetries: int, g: Shared, ws: seq<Pc>, w: nat, a: Act, c: nat)
    requires |g.owner| == |g.excess| == |g.chunks| && w < |ws| && WorkerOk(env, g, w, ws[w]) && InRange(g, ws[w])
    requires c < |g.chunks| && Accounted(g, ws, c)
    requires var m := Move(env, maxRetries, g, w, ws[w], a); m.Moved? && Rely(env, g, m.g, w) && OnlyTakes(g, m.g, w)
    ensures var m := Move(env, maxRetries, g, w, ws[w], a);
      |m.g.owner| == |m.g.chunks| == |g.chunks| && Accounted(m.g, ws[w := m.pc], c)
  {
    HoldsOn(env, maxRetries, g, w, ws[w], a, c);
    hide Move, WorkerOk, Kept;
  }

  /** A worker only ever sets an owner to itself. */
  predicate OnlyTakes(g: Shared, g': Shared, w: nat) {
    |g'.owner| == |g.owner| && forall c :: 0 <= c < |g.owner| ==> g'.owner[c] == g.owner[c] || (g.owner[c] == None && g'.owner[c] == Some(w))
  }

  lemma {:induction false} MoveOnlyTakes(env: Env, maxRetries: int, g: Shared, w: nat, pc: Pc, a: Act)
    requires SharedOk(env, g) && Move(env, maxRetries, g, w, pc, a).Moved?
    ensures OnlyTakes(g, Move(env, maxRetries, g, w, pc, a).g, w)
  {
    hide Tiles, ChunksTrue, MemTrue, CellTrue, WriteAt, W.Judge;
  }

  lemma {:induction false} StepInv(env: Env, s: State, w: nat, a: Act, s': State)
    requires env.Valid() && s.Up? && Inv(env, s) && Next(env, s, Step(w, a), s')
    ensures Inv(env, s')
  {
    var g, ws := s.g, s.workers;
    var m := Move(env, s.maxRetries, g, w, ws[w], a);
    assert WorkerOk(env, g, w, ws[w]);
    assert InRange(g, ws[w]);
    hide SharedOk, Move, WorkerOk, Rely, Accounted;
    WorkerStep(env, s.maxRetries, g, w, ws[w], a);
    var ws' := ws[w := m.pc];
    forall v | 0 <= v < |ws| ensures WorkerOk(env, m.g, v, ws'[v]) {
      if v != w {
        Undisturbed(env, g, m.g, w, v, ws[v]);
      }
    }
    forall c | 0 <= c < |m.g.chunks| ensures Accounted(m.g, ws', c) {
      MoveOnlyTakes(env, s.maxRetries, g, w, ws[w], a);
      StepAccounted(env, s.maxRetries, g, ws, w, a, c);
    }
  }

  lemma {:induction false} FlagsInv(env: Env, g: Shared, g': Shared, ws: seq<Pc>)
    requires SharedOk(env, g) && WorkersOk(env, g, ws) && AllAccounted(g, ws)
    requires g' == g.(parentCancelled := true) || (g.parentCancelled && g' == g.(workerCancelled := true))
    ensures SharedOk(env, g') && WorkersOk(env, g', ws) && AllAccounted(g', ws)
  {
    hide Tiles, ChunksTrue, MemTrue, CellTrue, QueueOk;
    forall w | 0 <= w < |ws| ensures WorkerOk(env, g', w, ws[w]) {
      assert WorkerOk(env, g, w, ws[w]);
    }
    forall c | 0 <= c < |g.chunks| ensures Accounted(g', ws, c) {
      assert Accounted(g, ws, c);
    }
  }

  /** With no worker left, what `FinalSync` stores is a checkpoint the next run accepts: nothing is torn. */
  lemma {:induction false} FinalSnapshotResumable(env: Env, g: Shared)
    requires env.Valid() && SharedOk(env, g)
    ensures forall i :: 0 <= i < |g.mem.chunks| ==> g.mem.chunks[i].Some?
    ensures Resumable(Snapshot(g), env.info) && MemTrue(env, g.file, g.chunks, Snapshot(g))
  {
    hide CellTrue, QueueOk, Tiles;
    assert forall i :: 0 <= i < |g.chunks| ==> MemEntryTrue(env, g.file, g.mem.chunks[i], g.chunks[i]);
    var es := Snapshot(g).chunks;
    forall i | 0 <= i < |es| ensures es[i] == Some(g.chunks[i]) && ChunkTrue(env, g.file, g.chunks[i], g.excess[i]) {
      assert MemEntryTrue(env, g.file, g.mem.chunks[i], g.chunks[i]);
    }
    assert Values(es) == g.chunks;
  }

  lemma {:induction false} FinalSyncInv(env: Env, s: State, ok: bool, s': State)
    requires env.Valid() && s.Up? && Inv(env, s) && Next(env, s, FinalSync(ok), s')
    ensures Inv(env, s')
  {
    var g := s.g;
    FinalSnapshotResumable(env, g);
    var snap := Snapshot(g);
    hide Snapshot, Tiles, ChunksTrue, QueueOk, Resumable;
    assert CellTrue(env, g.file, Some(snap)) by {
      forall i | 0 <= i < |snap.chunks| ensures EntryTrue(env, g.file, snap.chunks[i]) {
        assert MemEntryTrue(env, g.file, snap.chunks[i], g.chunks[i]);
      }
    }
    hide CellTrue, MemTrue;
    forall w | 0 <= w < |s.workers| ensures WorkerOk(env, s'.g, w, s.workers[w]) {
      assert WorkerOk(env, g, w, s.workers[w]);
    }
    forall c | 0 <= c < |g.chunks| ensures Accounted(s'.g, s.workers, c) {
      assert Accounted(g, s.workers, c);
    }
  }

  /** A nil return means every chunk is complete: no error, so no cancellation, so every worker left an empty
      queue, so no chunk is queued or in anyone's hands. */
  lemma {:induction false} ReturnComplete(env: Env, s: State)
    requires s.Up? && Inv(env, s) && s.phase == Synced && s.g.err == None && !(s.g.workerCancelled && s.g.parentCancelled)
    ensures AllComplete(s.g.chunks)
  {
    var g, ws := s.g, s.workers;
    assert !Excused(g);
    assert WorkerOk(env, g, 0, ws[0]) && ws[0] == Exited;
    forall c | 0 <= c < |g.chunks| ensures g.chunks[c].completed {
      assert Accounted(g, ws, c);
      assert c !in g.jobs;
    }
  }

  lemma {:induction false} UnfinishedFacts(chunks: seq<ChunkVal>, from: nat)
    requires from <= |chunks|
    ensures var u := Unfinished(chunks, from);
      && (forall i :: 0 <= i < |u| ==> from <= u[i] < |chunks| && !chunks[u[i]].completed)
      && (forall i, j :: 0 <= i < j < |u| ==> u[i] < u[j])
      && (forall c :: from <= c < |chunks| && !chunks[c].completed ==> c in u)
    decreases |chunks| - from
  {
    if from < |chunks| {
      UnfinishedFacts(chunks, from + 1);
      var rest := Unfinished(chunks, from + 1);
      assert Unfinished(chunks, from) == if chunks[from].completed then rest else [from] + rest;
      hide Unfinished;
      if !chunks[from].completed {
        forall c | from <= c < |chunks| && !chunks[c].completed ensures c in [from] + rest {
          assert c == from || c in rest;
        }
      }
    }
  }

  lemma {:induction false} LaunchQueue(chunks: seq<ChunkVal>)
    ensures QueueOk(chunks, seq(|chunks|, i => None), Unfinished(chunks, 0))
  {
    UnfinishedFacts(chunks, 0);
    hide Unfinished;
  }

  lemma {:induction false} LaunchInv(env: Env, file: seq<byte>, cell: Option<CheckpointVal>, hasState: bool,
                                     mem: CheckpointVal, chunks: seq<ChunkVal>, opts: Options)
    requires Tiles(chunks, |env.source|) && CellTrue(env, file, cell) && MemTrue(env, file, chunks, mem)
    requires ChunksTrue(env, file, chunks, seq(|chunks|, i => 0))
    ensures Inv(env, Launch(file, cell, hasState, mem, chunks, opts))
  {
    hide Tiles, CellTrue, MemTrue, ChunksTrue, QueueOk, Unfinished;
    LaunchQueue(chunks);
    var s := Launch(file, cell, hasState, mem, chunks, opts);
    assert SharedOk(env, s.g);
    hide SharedOk;
  }

  lemma {:induction false} ResumeInv(env: Env, file: seq<byte>, cp: CheckpointVal, opts: Options)
    requires env.Valid() && CellTrue(env, file, Some(cp)) && Resumable(cp, env.info)
    ensures Inv(env, Launch(file, Some(cp), true, cp, Values(cp.chunks), opts))
  {
    hide Tiles;
    var chunks := Values(cp.chunks);
    forall c | 0 <= c < |chunks| ensures ChunkTrue(env, file, chunks[c], 0) && MemEntryTrue(env, file, cp.chunks[c], chunks[c]) {
      assert EntryTrue(env, file, cp.chunks[c]);
    }
    assert chunks[..] == chunks;
    LaunchInv(env, file, Some(cp), true, cp, chunks, opts);
  }

  /** A new layout needs nothing of the file; its checkpoint, if it is saved, replaces one that may claim too much. */
  lemma {:induction false} FreshInv(env: Env, file: seq<byte>, cell: Option<CheckpointVal>, e: Event)
    requires env.Valid() && e.Start?
    requires (KeepsState(e.entry) && e.saves) || CellTrue(env, file, cell)
    ensures Inv(env, LaunchFresh(env, file, cell, e))
  {
    var n := |env.source|;
    var size := EffectiveSize(n, e.opts.chunkSize, e.opts.concurrency);
    var file' := if e.truncates then Resize(file, n) else file;
    var chunks := Layout(n, size);
    var mem := Fresh(env.info, chunks, e.opts.chunkSize);
    LayoutTiles(n, size);
    hide Tiles;
    forall c | 0 <= c < |chunks|
      ensures ChunkTrue(env, file', chunks[c], 0) && MemEntryTrue(env, file', mem.chunks[c], chunks[c])
    {
      LayoutAtInside(n, size, c);
    }
    assert CellTrue(env, file', Some(mem)) by {
      forall i | 0 <= i < |mem.chunks| ensures EntryTrue(env, file', mem.chunks[i]) {
        assert MemEntryTrue(env, file', mem.chunks[i], chunks[i]);
      }
    }
    ResizeKept(env, file);
    var saved := KeepsState(e.entry) && e.saves;
    if !saved {
      CellKept(env, file, file', cell);
    }
    LaunchInv(env, file', if saved then Some(mem) else cell, KeepsState(e.entry), mem, chunks, e.opts);
  }

  lemma {:induction false} CellKept(env: Env, file: seq<byte>, file': seq<byte>, cell: Option<CheckpointVal>)
    requires Kept(env, file, file') && CellTrue(env, file, cell)
    ensures CellTrue(env, file', cell)
  {
  }

  // ------------------------------------------------- starting a run

  /** The run empties the file: it opens it by name without resuming, or truncates it for a single stream. */
  ghost predicate Empties(env: Env, cell: Option<CheckpointVal>, e: Event)
    requires e.Start?
  {
    !Accepts(env, cell, e) && (!e.entry.Descriptor? || (!InParts(env, cell, e) && e.truncates))
  }

  /** The saved checkpoint would be accepted, and claims at least one byte. */
  ghost predicate Claims(env: Env, cell: Option<CheckpointVal>) {
    cell.Some? && Resumable(cell.value, env.info)
    && exists i :: 0 <= i < |cell.value.chunks| && cell.value.chunks[i].value.downloaded > 0
  }

  /** What a caller has to see to: a run that empties the file leaves no checkpoint behind that claims some of it.
      Either it saves a new one, or there is none, or none that would be accepted, or it claims nothing. */
  ghost predicate Guarded(env: Env, cell: Option<CheckpointVal>, e: Event)
    requires e.Start?
  {
    Empties(env, cell, e) ==> (InParts(env, cell, e) && KeepsState(e.entry) && e.saves) || !Claims(env, cell)
  }

  lemma {:induction false} UnclaimedTrue(env: Env, file: seq<byte>, cell: Option<CheckpointVal>)
    requires !Claims(env, cell)
    ensures CellTrue(env, file, cell)
  {
    hide Tiles;
  }

  lemma {:induction false} StartInv(env: Env, file: seq<byte>, cell: Option<CheckpointVal>, e: Event)
    requires env.Valid() && e.Start? && CellTrue(env, file, cell) && Guarded(env, cell, e)
    ensures Inv(env, Begin(env, file, cell, e))
  {
    hide CellTrue, Resumable, Launch, LaunchFresh, Claims;
    if !Claims(env, cell) {
      UnclaimedTrue(env, [], cell);
    }
    if Accepts(env, cell, e) {
      ResumeInv(env, file, cell.value, e.opts);
    } else if InParts(env, cell, e) {
      FreshInv(env, OpenedFile(env, file, cell, e), cell, e);
    }
  }

  lemma {:induction false} ResizeKept(env: Env, file: seq<byte>)
    ensures Kept(env, file, Resize(file, |env.source|)) && Kept(env, file, file)
  {
    var file' := Resize(file, |env.source|);
    forall p | Holds(file, env.source, p) ensures Holds(file', env.source, p) {
    }
  }

  lemma {:induction false} PouredFile(env: Env, file: seq<byte>, got: nat, took: nat)
    requires got + took <= |env.source| && file == env.source[..got]
    ensures WriteAt(file, got, env.source[got..got + took]) == env.source[..got + took]
  {
    WriteAtFacts(file, got, env.source[got..got + took]);
    hide WriteAt;
  }

  /** A turn of the single stream appends the next bytes of the source. */
  lemma {:induction false} PourInv(env: Env, s: State, a: Act)
    requires s.Streaming? && Inv(env, s) && (a.Read? ==> s.got + a.n <= |env.source|)
    ensures Inv(env, Poured(env, s, a)) && Kept(env, s.file, Poured(env, s, a).file)
  {
    hide CellTrue, WriteAt, Kept;
    ResizeKept(env, s.file);
    if a.Read? {
      var took := if a.writeFails then Min(a.took, a.n) else a.n;
      WriteKept(env, s.file, s.got, took);
      PouredFile(env, s.file, s.got, took);
      CellKept(env, s.file, env.source[..s.got + took], s.cell);
    }
  }

  /** Starts that would leave a false checkpoint are the caller's to avoid. */
  ghost predicate GuardedEvent(env: Env, s: State, e: Event) {
    s.Down? && e.Start? ==> Guarded(env, s.cell, e)
  }

  /** The invariant survives every event: any worker's step, cancellation at any point, the final save, a kill
      at any point, a turn of a single stream, and every guarded start, with or without the checkpoint. */
  lemma {:induction false} NextInv(env: Env, s: State, e: Event, s': State)
    requires env.Valid() && Inv(env, s) && Next(env, s, e, s') && GuardedEvent(env, s, e)
    ensures Inv(env, s')
  {
    if s.Down? {
      StartInv(env, s.file, s.cell, e);
    } else if s.Streaming? {
      if e.Pour? {
        PourInv(env, s, e.act);
      }
    } else {
      match e
      case Step(w, a) => StepInv(env, s, w, a, s');
      case CancelParent => FlagsInv(env, s.g, s'.g, s.workers);
      case Propagate => FlagsInv(env, s.g, s'.g, s.workers);
      case FinalSync(ok) => FinalSyncInv(env, s, ok, s');
      case Return =>
        hide SharedOk, WorkersOk, AllAccounted;
        if s'.phase.ok {
          ReturnComplete(env, s);
        }
      case Finish(_) =>
      case Kill =>
    }
  }
}
