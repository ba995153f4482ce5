/** The download as a machine: workers drain a job queue and interleave at every shared access, and runs through
    any of the entry points, multi-part or single-stream, are cancelled, killed and resumed on one file and one
    saved checkpoint (pkg/engine/fd_sink.go:16-330, pkg/engine/file_sink.go:16-142, pkg/engine/worker.go:19-194,
    pkg/engine/checkpoint.go:76-89). */
module Download {
  import opened Bytes
  import opened Chunks
  import opened Checkpoints
  import W = Worker

  /** Fixed for the whole chain of runs: the resource and what a probe says of it. */
  datatype Env = Env(source: seq<byte>, info: FileInfo) {
    predicate Valid() {
      0 < |source| == info.contentLength && info.acceptRanges && |source| <= TWO_63 / 2
    }
  }

  /** Where a worker goroutine stands between two accesses to shared state. `k` is the attempt, `base` the
      offset of its writer, `req` the start of its request, `from` where in the source the body it reads begins, `got`
      the bytes it has booked so far. */
  datatype Pc =
    | Starting
    | Idle
    | Took(c: nat)
    | Looping(c: nat, k: nat)
    | Pausing(c: nat, k: nat)
    | Ready(c: nat, k: nat)
    | Opened(c: nat, k: nat, base: int)
    | Asked(c: nat, k: nat, base: int, req: int)
    | Copying(c: nat, k: nat, base: int, req: int, from: nat, got: nat)
    | Reading(c: nat, k: nat, base: int, req: int, from: nat, got: nat)
    | Wrote(c: nat, k: nat, base: int, req: int, from: nat, got: nat, n: nat, err: W.ReadErr)
    | Booked(c: nat, k: nat, base: int, req: int, from: nat, got: nat, n: nat, err: W.ReadErr)
    | Failed(c: nat, k: nat, got: nat, fault: W.Fault)
    | Rolled(c: nat, k: nat, fault: W.Fault)
    | Won(c: nat, got: nat)
    | Flagged
    | WantLock
    | SyncDown(i: nat, total: int)
    | SyncFlag(i: nat, total: int)
    | Erring(c: nat, fault: W.Fault)
    | Recorded
    | Leaving
    | Exited

  /** What all workers share; `hasState` says whether the run keeps a checkpoint. `owner`, `kept`, `rolled` and
      `excess` are history: who took each chunk, bytes counted for good, bytes taken back, and bytes booked past a
      chunk's end. */
  datatype Shared = Shared(
    file: seq<byte>, cell: Option<CheckpointVal>, hasState: bool,
    chunks: seq<ChunkVal>, jobs: seq<nat>, mem: CheckpointVal, lock: Option<nat>,
    tracker: int, completed: int, active: int,
    parentCancelled: bool, workerCancelled: bool, err: Option<W.Fault>,
    owner: seq<Option<nat>>, kept: int, rolled: int, excess: seq<int>)

  /** What the environment decides in a worker's step. */
  datatype Act =
    | Go
    | SeeCancel
    | Break
    | Answer(reply: W.Reply)
    | Read(n: nat, took: nat, writeFails: bool, err: W.ReadErr)
    | Save(ok: bool)

  /** The copy loop after a read that ended with `err`. */
  function AfterTurn(c: nat, k: nat, base: int, req: int, from: nat, got: nat, err: W.ReadErr, end: int): Pc {
    if err == W.NoErr then Copying(c, k, base, req, from, got)
    else if err == W.Broken && got != end - req + 1 then Failed(c, k, got, W.ReadFailed)
    else if got != end - req + 1 then Failed(c, k, got, W.LengthMismatch)
    else Won(c, got)
  }

  function AfterFault(c: nat, k: nat, f: W.Fault): Pc {
    if W.Fatal(f) then Erring(c, f) else Looping(c, k + 1)
  }

  datatype Moved = Stuck | Moved(g: Shared, pc: Pc)

  predicate InRange(g: Shared, pc: Pc) {
    |g.owner| == |g.excess| == |g.chunks| && (HasChunk(pc) ==> pc.c < |g.chunks|)
  }

  /** One step of worker `w`. */
  function Move(env: Env, maxRetries: int, g: Shared, w: nat, pc: Pc, a: Act): Moved {
    if !InRange(g, pc) then Stuck
    else if OnWire(pc) then MoveWire(env, g, pc, a)
    else if InBooks(pc) then MoveBooks(g, pc)
    else if InSync(pc) then MoveSync(g, w, pc, a)
    else MoveControl(env, maxRetries, g, w, pc, a)
  }

  predicate OnWire(pc: Pc) { pc.Opened? || pc.Asked? || pc.Copying? || pc.Reading? }

  predicate InBooks(pc: Pc) { pc.Wrote? || pc.Booked? || pc.Failed? || pc.Rolled? || pc.Won? }

  predicate InSync(pc: Pc) { pc.WantLock? || pc.SyncDown? || pc.SyncFlag? }

  /** Job queue, retry loop head, completion count, error report, exit. */
  function MoveControl(env: Env, maxRetries: int, g: Shared, w: nat, pc: Pc, a: Act): Moved
    requires InRange(g, pc) && !OnWire(pc) && !InBooks(pc) && !InSync(pc)
  {
    match pc
    case Starting => Moved(g.(active := g.active + 1), Idle)
    case Idle =>
      if g.jobs == [] then Moved(g, Leaving)
      else if g.jobs[0] >= |g.chunks| then Stuck
      else Moved(g.(jobs := g.jobs[1..], owner := g.owner[g.jobs[0] := Some(w)]), Took(g.jobs[0]))
    case Took(c) => Moved(g, if g.workerCancelled then Leaving else Looping(c, 0))
    case Looping(c, k) =>
      Moved(g, if k > maxRetries then Erring(c, W.Exhausted)
               else if g.workerCancelled then Erring(c, W.Cancelled)
               else if k == 0 then Ready(c, k) else Pausing(c, k))
    case Pausing(c, k) =>
      if a == SeeCancel then (if g.workerCancelled then Moved(g, Erring(c, W.Cancelled)) else Stuck)
      else Moved(g, Ready(c, k))
    case Ready(c, k) => Moved(g, Opened(c, k, g.chunks[c].start + g.chunks[c].downloaded))
    case Flagged => Moved(g.(completed := g.completed + 1), if g.hasState then WantLock else Idle)
    case Erring(c, f) => if g.err == None then Moved(g.(err := Some(f)), Recorded) else Moved(g, Leaving)
    case Recorded => Moved(g.(workerCancelled := true), Leaving)
    case Leaving => Moved(g.(active := g.active - 1), Exited)
    case Exited => Stuck
  }

  /** The request and the copy loop. Bytes a reply delivers are those its head says, whatever the request was. */
  function MoveWire(env: Env, g: Shared, pc: Pc, a: Act): Moved
    requires InRange(g, pc) && OnWire(pc)
  {
    match pc
    case Opened(c, k, base) =>
      var req := g.chunks[c].start + g.chunks[c].downloaded;
      Moved(g, if a == Break then Failed(c, k, 0, W.RequestNotCreated)
               else if req < g.chunks[c].start || req > g.chunks[c].end then Failed(c, k, 0, W.BadProgress)
               else Asked(c, k, base, req))
    case Asked(c, k, base, req) =>
      if !a.Answer? then Moved(g, Failed(c, k, 0, W.NotConnected))
      else (match W.Judge(a.reply, req, g.chunks[c].end)
        case Some(f) => Moved(g, Failed(c, k, 0, f))
        case None => Moved(g, Copying(c, k, base, req, W.Origin(a.reply), 0)))
    case Copying(c, k, base, req, from, got) =>
      Moved(g, if g.workerCancelled then Failed(c, k, got, W.Cancelled) else Reading(c, k, base, req, from, got))
    case Reading(c, k, base, req, from, got) =>
      if !a.Read? || base < 0 || from + got + a.n > |env.source| then Stuck
      else if a.n == 0 then Moved(g, AfterTurn(c, k, base, req, from, got, a.err, g.chunks[c].end))
      else
        var took := Min(a.took, a.n);
        var g' := g.(file := WriteAt(g.file, base + got, env.source[from + got..from + got + took]));
        Moved(g', if a.writeFails then Failed(c, k, got, W.WriteFailed)
                  else if took != a.n then Failed(c, k, got, W.ShortWrite)
                  else Wrote(c, k, base, req, from, got, a.n, a.err))
  }

  /** Booking what was read, rolling back what failed, marking what succeeded. */
  function MoveBooks(g: Shared, pc: Pc): Moved
    requires InRange(g, pc) && InBooks(pc)
  {
    match pc
    case Wrote(c, k, base, req, from, got, n, err) =>
      var ch := g.chunks[c];
      var ch' := Clamped(ch, got + n + req - ch.start);
      Moved(g.(chunks := g.chunks[c := ch'],
               excess := g.excess[c := g.excess[c] + n - (ch'.downloaded - ch.downloaded)]),
            Booked(c, k, base, req, from, got + n, n, err))
    case Booked(c, k, base, req, from, got, n, err) =>
      Moved(g.(tracker := g.tracker + n), AfterTurn(c, k, base, req, from, got, err, g.chunks[c].end))
    case Failed(c, k, got, f) =>
      if got == 0 then Moved(g, AfterFault(c, k, f))
      else Moved(g.(tracker := g.tracker - got, rolled := g.rolled + got), Rolled(c, k, f))
    case Rolled(c, k, f) =>
      Moved(g.(tracker := if g.tracker < 0 then 0 else g.tracker), AfterFault(c, k, f))
    case Won(c, got) => Moved(g.(chunks := g.chunks[c := Marked(g.chunks[c])], kept := g.kept + got), Flagged)
  }

  /** `SyncFromChunks` and `Save` under the run's checkpoint mutex, chunk by chunk and lock by lock. */
  function MoveSync(g: Shared, w: nat, pc: Pc, a: Act): Moved
    requires InSync(pc)
  {
    match pc
    case WantLock => if g.lock == None then Moved(g.(lock := Some(w)), SyncDown(0, 0)) else Stuck
    case SyncDown(i, total) =>
      if |g.mem.chunks| != |g.chunks| then Stuck
      else if i < |g.chunks| then
        if g.mem.chunks[i] == None then Stuck
        else
          var e := g.mem.chunks[i].value.(downloaded := g.chunks[i].downloaded);
          Moved(g.(mem := g.mem.(chunks := g.mem.chunks[i := Some(e)])), SyncFlag(i, total + e.downloaded))
      else if !a.Save? then Stuck
      else
        var mem := g.mem.(completedSize := total);
        Moved(g.(mem := mem, cell := if a.ok then Some(mem) else g.cell, lock := None), Idle)
    case SyncFlag(i, total) =>
      if i >= |g.chunks| || |g.mem.chunks| != |g.chunks| || g.mem.chunks[i] == None then Stuck
      else
        var e := g.mem.chunks[i].value.(completed := g.chunks[i].completed);
        Moved(g.(mem := g.mem.(chunks := g.mem.chunks[i := Some(e)])), SyncDown(i + 1, total))
  }

  /** The chunk a worker is responsible for. */
  predicate HasChunk(pc: Pc) {
    pc.Took? || pc.Looping? || pc.Pausing? || pc.Ready? || pc.Opened? || pc.Asked? || pc.Copying? || pc.Reading?
    || pc.Wrote? || pc.Booked? || pc.Failed? || pc.Rolled? || pc.Won? || pc.Erring?
  }

  // ------------------------------------------------------------ runs

  datatype Phase = Working | Synced | Returned(ok: bool)

  /** No run is up, only the file and the saved checkpoint; or a multi-part run is; or a single-stream run, which
      has written `got` bytes and, once it has returned, has a verdict. */
  datatype State =
    | Down(file: seq<byte>, cell: Option<CheckpointVal>)
    | Up(g: Shared, workers: seq<Pc>, maxRetries: int, phase: Phase)
    | Streaming(file: seq<byte>, cell: Option<CheckpointVal>, got: nat, entry: Entry, verdict: Option<bool>)

  datatype Options = Options(concurrency: int, chunkSize: int, maxRetries: int)

  /** `DownloadToFD` with or without a state path, `DownloadToFileWithResume`, `DownloadToFile`. */
  datatype Entry = Descriptor(hasState: bool) | Named | Plain

  predicate KeepsState(entry: Entry) { entry.Named? || (entry.Descriptor? && entry.hasState) }

  /** `Start` may fail to load the checkpoint, to truncate the file, and to save the new checkpoint. */
  datatype Event =
    | Start(entry: Entry, opts: Options, loads: bool, truncates: bool, saves: bool)
    | Step(w: nat, act: Act)
    | CancelParent
    | Propagate
    | FinalSync(ok: bool)
    | Return
    | Pour(act: Act)
    | Finish(removes: bool)
    | Kill

  /** The run loads the saved checkpoint and resumes from it. */
  ghost predicate Accepts(env: Env, cell: Option<CheckpointVal>, e: Event)
    requires e.Start?
  {
    && KeepsState(e.entry) && (e.entry.Descriptor? ==> e.opts.concurrency > 1)
    && e.loads && cell.Some? && Resumable(cell.value, env.info)
  }

  /** The run is multi-part; otherwise it is a single stream. */
  ghost predicate InParts(env: Env, cell: Option<CheckpointVal>, e: Event)
    requires e.Start?
  {
    match e.entry
    case Descriptor(_) => e.opts.concurrency > 1
    case Named => Accepts(env, cell, e) || e.opts.concurrency > 1
    case Plain => true
  }

  /** Opening by name empties the file, unless the run resumes. */
  ghost function OpenedFile(env: Env, file: seq<byte>, cell: Option<CheckpointVal>, e: Event): seq<byte>
    requires e.Start?
  {
    if e.entry.Descriptor? || Accepts(env, cell, e) then file else []
  }

  function WorkerCount(concurrency: int, chunks: nat): nat {
    var n := Min(concurrency, chunks);
    if n <= 0 then DEFAULT_CONCURRENCY else n
  }

  function Unfinished(chunks: seq<ChunkVal>, from: nat): seq<nat>
    decreases |chunks| - from
  {
    if from >= |chunks| then []
    else (if chunks[from].completed then [] else [from]) + Unfinished(chunks, from + 1)
  }

  function Down1(c: ChunkVal): int { c.downloaded }

  function Flag(c: ChunkVal): int { if c.completed then 1 else 0 }

  /** Restore or lay out the chunks, count what is there, fill the queue, spawn the workers. */
  function Launch(file: seq<byte>, cell: Option<CheckpointVal>, hasState: bool, mem: CheckpointVal,
                  chunks: seq<ChunkVal>, opts: Options): State {
    Up(Shared(file, cell, hasState, chunks, Unfinished(chunks, 0), mem, None,
              Sum(Down1, chunks), Sum(Flag, chunks), 0, false, false, None,
              seq(|chunks|, i => None), Sum(Down1, chunks), 0, seq(|chunks|, i => 0)),
       seq(WorkerCount(opts.concurrency, |chunks|), i => Starting), opts.maxRetries, Working)
  }

  /** A multi-part run that lays out new chunks: truncate up, save a fresh checkpoint. */
  function LaunchFresh(env: Env, file: seq<byte>, cell: Option<CheckpointVal>, e: Event): State
    requires e.Start? && env.Valid()
  {
    var n := |env.source|;
    var file' := if e.truncates then Resize(file, n) else file;
    var chunks := Layout(n, EffectiveSize(n, e.opts.chunkSize, e.opts.concurrency));
    var mem := Fresh(env.info, chunks, e.opts.chunkSize);
    Launch(file', if KeepsState(e.entry) && e.saves then Some(mem) else cell, KeepsState(e.entry), mem, chunks, e.opts)
  }

  ghost function Begin(env: Env, file: seq<byte>, cell: Option<CheckpointVal>, e: Event): State
    requires e.Start? && env.Valid()
  {
    var base := OpenedFile(env, file, cell, e);
    if Accepts(env, cell, e) then Launch(file, cell, true, cell.value, Values(cell.value.chunks), e.opts)
    else if InParts(env, cell, e) then LaunchFresh(env, base, cell, e)
    else if e.truncates then Streaming([], cell, 0, e.entry, None)
    else Down(base, cell)
  }

  /** One turn of the single-stream copy loop; a failed request, reply or context ends it at once. */
  function Poured(env: Env, s: State, a: Act): State
    requires s.Streaming? && (a.Read? ==> s.got + a.n <= |env.source|)
  {
    if !a.Read? then s.(verdict := Some(false))
    else
      var took := if a.writeFails then Min(a.took, a.n) else a.n;
      var t := s.(file := WriteAt(s.file, s.got, env.source[s.got..s.got + took]), got := s.got + took);
      if a.writeFails && a.n > 0 then t.(verdict := Some(false))
      else if a.err == W.NoErr then t
      else t.(verdict := Some(a.err == W.Eof))
  }

  /** After `wg.Wait`, with no worker left, a snapshot cannot be torn. */
  function Snapshot(g: Shared): CheckpointVal
    requires forall i :: 0 <= i < Min(|g.mem.chunks|, |g.chunks|) ==> g.mem.chunks[i].Some?
  {
    Checkpoints.Synced(g.mem, g.chunks, g.chunks)
  }

  predicate AllExited(ws: seq<Pc>) { forall w :: 0 <= w < |ws| ==> ws[w] == Exited }

  /** The step relation of the whole system. */
  ghost predicate Next(env: Env, s: State, e: Event, s': State) {
    env.Valid() &&
    match s
    case Down(file, cell) => e.Start? && s' == Begin(env, file, cell, e)
    case Streaming(file, cell, got, entry, verdict) =>
      (match e
       case Pour(a) => verdict == None && (a.Read? ==> got + a.n <= |env.source|) && s' == Poured(env, s, a)
       case Finish(removes) => verdict.Some? && s' == Down(file, if removes && verdict.value && entry.Named? then None else cell)
       case Kill => s' == Down(file, cell)
       case _ => false)
    case Up(g, ws, maxRetries, phase) =>
      match e
      case Step(w, a) =>
        && phase == Working && w < |ws|
        && var m := Move(env, maxRetries, g, w, ws[w], a);
        m.Moved? && s' == s.(g := m.g, workers := ws[w := m.pc])
      case CancelParent => s' == s.(g := g.(parentCancelled := true))
      case Propagate => g.parentCancelled && s' == s.(g := g.(workerCancelled := true))
      case FinalSync(ok) =>
        && phase == Working && AllExited(ws)
        && (forall i :: 0 <= i < Min(|g.mem.chunks|, |g.chunks|) ==> g.mem.chunks[i].Some?)
        && var g' := g.(mem := Snapshot(g), cell := if ok then Some(Snapshot(g)) else g.cell);
        s' == s.(g := if (g.workerCancelled || g.parentCancelled || g.err.Some?) && g.hasState then g' else g, phase := Synced)
      case Return => phase == Synced && s' == s.(phase := Returned(g.err == None && !(g.workerCancelled && g.parentCancelled)))
      case Finish(removes) => phase.Returned? && s' == Down(g.file, if removes && phase.ok && g.hasState then None else g.cell)
      case Kill => s' == Down(g.file, g.cell)
      case _ => false
  }

  /** A finite run of the system: the states it passes through under the given events. */
  ghost predicate Run(env: Env, states: seq<State>, events: seq<Event>) {
    && |states| == |events| + 1
    && forall i :: 0 <= i < |events| ==> Next(env, states[i], events[i], states[i + 1])
  }

  function FileOf(s: State): seq<byte> {
    if s.Up? then s.g.file else s.file
  }

  function CellOf(s: State): Option<CheckpointVal> {
    if s.Up? then s.g.cell else s.cell
  }
}
