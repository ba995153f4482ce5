/** The progress counters as a ledger over every interleaving (pkg/engine/progress.go:61-97). */
module DownloadLedger {
  import opened Bytes
  import opened Chunks
  import opened Checkpoints
  import opened Download
  import opened DownloadSafety
  import W = Worker

  /** Bytes a worker has put in its chunk's `Downloaded` and not yet added to the tracker. */
  function Pending(pc: Pc): int { if pc.Booked? then pc.n else 0 }

  /** Bytes of the attempt in progress that the tracker already counts. */
  function Live(pc: Pc): int {
    if pc.Copying? || pc.Reading? || pc.Wrote? || pc.Failed? || pc.Won? then pc.got
    else if pc.Booked? then pc.got - pc.n else 0
  }

  function Uncounted(pc: Pc): int { if pc.Flagged? then 1 else 0 }

  function Busy(pc: Pc): int { if pc.Starting? || pc.Exited? then 0 else 1 }

  function Same(x: int): int { x }

  /** Tracker, rolled-back and pending bytes add up to the chunks' done bytes plus what ran past chunk ends;
      the tracker is what was kept plus what is in progress; completions and active workers are counted. */
  ghost predicate Ledger(g: Shared, ws: seq<Pc>) {
    && g.tracker + g.rolled + Sum(Pending, ws) == Sum(Down1, g.chunks) + Sum(Same, g.excess)
    && g.tracker == g.kept + Sum(Live, ws)
    && 0 <= g.kept && 0 <= g.rolled
    && g.completed + Sum(Uncounted, ws) == Sum(Flag, g.chunks)
    && g.active == Sum(Busy, ws)
  }

  ghost predicate Balanced(s: State) { s.Up? ==> Ledger(s.g, s.workers) }

  lemma {:induction false} LiveNonNegative(env: Env, g: Shared, ws: seq<Pc>)
    requires WorkersOk(env, g, ws)
    ensures 0 <= Sum(Live, ws)
  {
    forall pc | pc in ws ensures 0 <= Live(pc) {
      var w :| 0 <= w < |ws| && ws[w] == pc;
      assert WorkerOk(env, g, w, ws[w]);
    }
    SumNonNegative(Live, ws);
  }

  /** The clamp loop of `SubBytes` never finds a negative counter. */
  lemma {:induction false} TrackerNeverNegative(env: Env, s: State)
    requires Inv(env, s) && Balanced(s) && s.Up?
    ensures 0 <= s.g.tracker
    ensures forall w :: 0 <= w < |s.workers| && s.workers[w].Failed? ==> s.workers[w].got <= s.g.tracker
  {
    LiveNonNegative(env, s.g, s.workers);
    forall w | 0 <= w < |s.workers| && s.workers[w].Failed? ensures s.workers[w].got <= s.g.tracker {
      LiveAtLeast(env, s.g, s.workers, w);
    }
  }

  lemma {:induction false} LiveAtLeast(env: Env, g: Shared, ws: seq<Pc>, w: nat)
    requires WorkersOk(env, g, ws) && w < |ws|
    ensures Live(ws[w]) <= Sum(Live, ws)
  {
    forall pc | pc in ws ensures 0 <= Live(pc) {
      var v :| 0 <= v < |ws| && ws[v] == pc;
      assert WorkerOk(env, g, v, ws[v]);
    }
    SumAtLeast(Live, ws, w);
  }

  /** What one worker's step does to every account. */
  ghost predicate Entered(g: Shared, pc: Pc, m: Moved)
    requires m.Moved? && InRange(g, pc)
  {
    var touched := pc.Wrote? || pc.Won?;
    && (!touched ==> m.g.chunks == g.chunks && m.g.excess == g.excess)
    && (touched ==>
        && |m.g.chunks| == |g.chunks| && |m.g.excess| == |g.excess|
        && m.g.chunks == g.chunks[pc.c := m.g.chunks[pc.c]] && m.g.excess == g.excess[pc.c := m.g.excess[pc.c]])
    && m.g.tracker + m.g.rolled + Pending(m.pc) - (g.tracker + g.rolled + Pending(pc))
       == (if touched then Down1(m.g.chunks[pc.c]) - Down1(g.chunks[pc.c]) + m.g.excess[pc.c] - g.excess[pc.c] else 0)
    && m.g.tracker - g.tracker == m.g.kept - g.kept + Live(m.pc) - Live(pc)
    && g.kept <= m.g.kept && g.rolled <= m.g.rolled
    && m.g.completed + Uncounted(m.pc) - (g.completed + Uncounted(pc))
       == (if touched then Flag(m.g.chunks[pc.c]) - Flag(g.chunks[pc.c]) else 0)
    && m.g.active - g.active == Busy(m.pc) - Busy(pc)
  }

  lemma {:induction false} BooksEntered(env: Env, g: Shared, w: nat, pc: Pc)
    requires InBooks(pc) && InRange(g, pc) && WorkerOk(env, g, w, pc) && 0 <= g.tracker
    ensures Entered(g, pc, MoveBooks(g, pc))
  {
    hide Agree;
  }

  lemma {:induction false} WireEntered(env: Env, g: Shared, pc: Pc, a: Act)
    requires OnWire(pc) && InRange(g, pc) && MoveWire(env, g, pc, a).Moved?
    ensures Entered(g, pc, MoveWire(env, g, pc, a))
  {
    hide W.Judge, WriteAt;
  }

  lemma {:induction false} SyncEntered(g: Shared, w: nat, pc: Pc, a: Act)
    requires InSync(pc) && InRange(g, pc) && MoveSync(g, w, pc, a).Moved?
    ensures Entered(g, pc, MoveSync(g, w, pc, a))
  {
  }

  lemma {:induction false} ControlEntered(env: Env, maxRetries: int, g: Shared, w: nat, pc: Pc, a: Act)
    requires !OnWire(pc) && !InBooks(pc) && !InSync(pc) && InRange(g, pc) && MoveControl(env, maxRetries, g, w, pc, a).Moved?
    ensures Entered(g, pc, MoveControl(env, maxRetries, g, w, pc, a))
  {
  }

  lemma {:induction false} MoveEntered(env: Env, maxRetries: int, g: Shared, w: nat, pc: Pc, a: Act)
    requires InRange(g, pc) && WorkerOk(env, g, w, pc) && 0 <= g.tracker
    requires Move(env, maxRetries, g, w, pc, a).Moved?
    ensures Entered(g, pc, Move(env, maxRetries, g, w, pc, a))
  {
    hide Entered, MoveWire, MoveBooks, MoveSync, MoveControl, WorkerOk;
    if OnWire(pc) {
      WireEntered(env, g, pc, a);
    } else if InBooks(pc) {
      BooksEntered(env, g, w, pc);
    } else if InSync(pc) {
      SyncEntered(g, w, pc, a);
    } else {
      ControlEntered(env, maxRetries, g, w, pc, a);
    }
  }

  lemma {:induction false} EnteredBalances(g: Shared, ws: seq<Pc>, w: nat, m: Moved)
    requires w < |ws| && m.Moved? && InRange(g, ws[w]) && Ledger(g, ws) && Entered(g, ws[w], m)
    ensures Ledger(m.g, ws[w := m.pc])
  {
    var pc := ws[w];
    SumUpdate(Pending, ws, w, m.pc);
    SumUpdate(Live, ws, w, m.pc);
    SumUpdate(Uncounted, ws, w, m.pc);
    SumUpdate(Busy, ws, w, m.pc);
    if pc.Wrote? || pc.Won? {
      SumUpdate(Down1, g.chunks, pc.c, m.g.chunks[pc.c]);
      SumUpdate(Flag, g.chunks, pc.c, m.g.chunks[pc.c]);
      SumUpdate(Same, g.excess, pc.c, m.g.excess[pc.c]);
    }
    hide Sum;
  }

  lemma {:induction false} LaunchBalanced(file: seq<byte>, cell: Option<CheckpointVal>, hasState: bool, mem: CheckpointVal, chunks: seq<ChunkVal>, opts: Options)
    requires forall c :: c in chunks ==> 0 <= c.downloaded
    ensures Balanced(Launch(file, cell, hasState, mem, chunks, opts))
  {
    var s := Launch(file, cell, hasState, mem, chunks, opts);
    assert forall pc :: pc in s.workers ==> pc == Starting;
    SumZero(Pending, s.workers);
    SumZero(Live, s.workers);
    SumZero(Uncounted, s.workers);
    SumZero(Busy, s.workers);
    SumZero(Same, s.g.excess);
    SumNonNegative(Down1, chunks);
  }

  /** The ledger balances after every event, whatever file and checkpoint a run starts with. */
  lemma {:induction false} NextBalanced(env: Env, s: State, e: Event, s': State)
    requires env.Valid() && Inv(env, s) && Balanced(s) && Next(env, s, e, s')
    ensures Balanced(s')
  {
    match s
    case Down(file, cell) =>
      hide Launch;
      StartBalanced(env, s.file, s.cell, e);
    case Streaming(_, _, _, _, _) =>
    case Up(g, ws, maxRetries, _) =>
      if e.Step? {
        TrackerNeverNegative(env, s);
        assert WorkerOk(env, g, e.w, ws[e.w]);
        hide WorkerOk, SharedOk, Move, Ledger, Entered;
        MoveEntered(env, maxRetries, g, e.w, ws[e.w], e.act);
        EnteredBalances(g, ws, e.w, Move(env, maxRetries, g, e.w, ws[e.w], e.act));
      }
  }

  lemma {:induction false} StartBalanced(env: Env, file: seq<byte>, cell: Option<CheckpointVal>, e: Event)
    requires env.Valid() && e.Start?
    ensures Balanced(Begin(env, file, cell, e))
  {
    if Accepts(env, cell, e) {
      LaunchBalanced(file, cell, true, cell.value, Values(cell.value.chunks), e.opts);
    } else if InParts(env, cell, e) {
      var s := LaunchFresh(env, OpenedFile(env, file, cell, e), cell, e);
      var chunks := Layout(|env.source|, EffectiveSize(|env.source|, e.opts.chunkSize, e.opts.concurrency));
      LaunchBalanced(s.g.file, s.g.cell, s.g.hasState, s.g.mem, chunks, e.opts);
    }
  }

  // ------------------------------------------------------- consequences

  function SizeOf(c: ChunkVal): int { c.Size() }

  lemma {:induction false} ChainedSizes(cs: seq<ChunkVal>, k: nat)
    requires k <= |cs| && forall i {:trigger NextStart(cs, i)} :: 0 <= i < |cs| ==> cs[i].start == NextStart(cs, i)
    ensures Sum(SizeOf, cs[..k]) == NextStart(cs, k)
    decreases k
  {
    if k > 0 {
      ChainedSizes(cs, k - 1);
      assert cs[..k] == cs[..k - 1] + [cs[k - 1]];
      SumSnoc(SizeOf, cs[..k - 1], cs[k - 1]);
      assert cs[k - 1].start == NextStart(cs, k - 1);
    }
  }

  lemma {:induction false} SumAgree<T>(f: T -> int, h: T -> int, xs: seq<T>)
    requires forall x :: x in xs ==> f(x) == h(x)
    ensures Sum(f, xs) == Sum(h, xs)
  {
    if xs != [] {
      SumAgree(f, h, xs[1..]);
    }
  }

  /** The chunks of a run that is complete hold all the bytes of the source. */
  lemma {:induction false} CompleteSum(env: Env, g: Shared)
    requires SharedOk(env, g) && AllComplete(g.chunks)
    ensures Sum(Down1, g.chunks) == |env.source| && Sum(Same, g.excess) == 0 && Sum(Flag, g.chunks) == |g.chunks|
  {
    var cs := g.chunks;
    forall c | c in cs ensures Down1(c) == SizeOf(c) && Flag(c) == 1 {
      var i :| 0 <= i < |cs| && cs[i] == c;
      assert ChunkTrue(env, g.file, cs[i], g.excess[i]);
    }
    SumAgree(Down1, SizeOf, cs);
    TilesIffChained(cs, |env.source|);
    ChainedSizes(cs, |cs|);
    assert cs[..|cs|] == cs;
    forall x | x in g.excess ensures Same(x) == 0 {
      var i :| 0 <= i < |cs| && g.excess[i] == x;
      assert ChunkTrue(env, g.file, cs[i], g.excess[i]);
    }
    SumZero(Same, g.excess);
    SumOnes(cs);
  }

  lemma {:induction false} SumOnes(cs: seq<ChunkVal>)
    requires forall c :: c in cs ==> Flag(c) == 1
    ensures Sum(Flag, cs) == |cs|
  {
    if cs != [] {
      SumOnes(cs[1..]);
    }
  }

  /** After a nil return: every chunk is counted complete, no worker is active, and the tracker shows the full
      length exactly when no failed attempt had booked a byte; otherwise it is short by what was rolled back. */
  lemma {:induction false} FinalCount(env: Env, s: State)
    requires Inv(env, s) && Balanced(s) && s.Up? && s.phase == Returned(true)
    ensures s.g.tracker == |env.source| - s.g.rolled
    ensures s.g.tracker == |env.source| <==> s.g.rolled == 0
    ensures s.g.completed == |s.g.chunks| && s.g.active == 0
  {
    var ws := s.workers;
    assert forall pc :: pc in ws ==> pc == Exited;
    SumZero(Pending, ws);
    SumZero(Live, ws);
    SumZero(Uncounted, ws);
    SumZero(Busy, ws);
    CompleteSum(env, s.g);
  }

  // ---------------------------------------------- bodies no longer than asked

  /** A read that stays within the requested range. */
  predicate Capped(s: State, e: Event) {
    s.Up? && e.Step? && e.w < |s.workers| && s.workers[e.w].Reading? && e.act.Read? && s.workers[e.w].c < |s.g.chunks| ==>
      var pc := s.workers[e.w];
      pc.got + e.act.n <= s.g.chunks[pc.c].end + 1 - pc.req
  }

  /** Nothing has run past the end of its chunk, booked or about to be. */
  ghost predicate NoExcess(s: State) {
    s.Up? ==>
      && (forall c :: 0 <= c < |s.g.excess| ==> s.g.excess[c] == 0)
      && (forall w :: 0 <= w < |s.workers| ==> WithinChunk(s.g, s.workers[w]))
  }

  predicate WithinChunk(g: Shared, pc: Pc) {
    pc.Wrote? && pc.c < |g.chunks| ==> pc.got + pc.n <= g.chunks[pc.c].end + 1 - pc.req
  }

  /** No excess after the step, nothing about to exceed, and every chunk still ends where it did. */
  ghost predicate StaysWithin(g: Shared, m: Moved)
    requires m.Moved?
  {
    && (forall c :: 0 <= c < |m.g.excess| ==> m.g.excess[c] == 0)
    && WithinChunk(m.g, m.pc)
    && |m.g.chunks| == |g.chunks|
    && (forall c :: 0 <= c < |g.chunks| ==> m.g.chunks[c].end == g.chunks[c].end)
  }

  lemma {:induction false} BooksWithin(env: Env, g: Shared, w: nat, pc: Pc)
    requires InBooks(pc) && InRange(g, pc) && WorkerOk(env, g, w, pc) && WithinChunk(g, pc)
    requires forall c :: 0 <= c < |g.excess| ==> g.excess[c] == 0
    ensures StaysWithin(g, MoveBooks(g, pc))
  {
    hide Agree;
  }

  lemma {:induction false} WireWithin(env: Env, g: Shared, pc: Pc, a: Act)
    requires OnWire(pc) && InRange(g, pc) && MoveWire(env, g, pc, a).Moved?
    requires forall c :: 0 <= c < |g.excess| ==> g.excess[c] == 0
    requires pc.Reading? && a.Read? ==> pc.got + a.n <= g.chunks[pc.c].end + 1 - pc.req
    ensures StaysWithin(g, MoveWire(env, g, pc, a))
  {
    hide WriteAt, W.Judge;
  }

  lemma {:induction false} OthersWithin(env: Env, maxRetries: int, g: Shared, w: nat, pc: Pc, a: Act)
    requires !OnWire(pc) && !InBooks(pc) && Move(env, maxRetries, g, w, pc, a).Moved?
    ensures var m := Move(env, maxRetries, g, w, pc, a);
      m.g.excess == g.excess && m.g.chunks == g.chunks && !m.pc.Wrote?
  {
    hide MoveWire, MoveBooks;
    if InSync(pc) {
      hide MoveControl;
    } else {
      hide MoveSync;
    }
  }

  lemma {:induction false} MoveWithin(env: Env, maxRetries: int, g: Shared, w: nat, pc: Pc, a: Act)
    requires InRange(g, pc) && WorkerOk(env, g, w, pc) && WithinChunk(g, pc)
    requires forall c :: 0 <= c < |g.excess| ==> g.excess[c] == 0
    requires pc.Reading? && a.Read? ==> pc.got + a.n <= g.chunks[pc.c].end + 1 - pc.req
    requires Move(env, maxRetries, g, w, pc, a).Moved?
    ensures StaysWithin(g, Move(env, maxRetries, g, w, pc, a))
  {
    hide WorkerOk, MoveWire, MoveBooks, MoveSync, MoveControl;
    if OnWire(pc) {
      WireWithin(env, g, pc, a);
    } else if InBooks(pc) {
      BooksWithin(env, g, w, pc);
    } else {
      OthersWithin(env, maxRetries, g, w, pc, a);
    }
  }

  /** If no reply is longer than asked, no chunk ever books bytes it does not keep. */
  lemma {:induction false} NextNoExcess(env: Env, s: State, e: Event, s': State)
    requires env.Valid() && Inv(env, s) && NoExcess(s) && Capped(s, e) && Next(env, s, e, s')
    ensures NoExcess(s')
  {
    if s.Up? && e.Step? {
      assert WorkerOk(env, s.g, e.w, s.workers[e.w]);
      assert WithinChunk(s.g, s.workers[e.w]);
      hide Inv, WorkerOk;
      MoveWithin(env, s.maxRetries, s.g, e.w, s.workers[e.w], e.act);
      hide Move;
      var m := Move(env, s.maxRetries, s.g, e.w, s.workers[e.w], e.act);
      forall v | 0 <= v < |s'.workers| ensures WithinChunk(s'.g, s'.workers[v]) {
        assert v != e.w ==> WithinChunk(s.g, s.workers[v]);
      }
    }
  }

  /** Then, at every micro-step, the tracker and what was rolled back never exceed the chunks' done bytes, and
      equal them exactly when no write is between its chunk and the tracker. */
  lemma {:induction false} TrackerBelowProgress(env: Env, s: State)
    requires Inv(env, s) && Balanced(s) && NoExcess(s) && s.Up?
    ensures s.g.tracker + s.g.rolled <= Sum(Down1, s.g.chunks)
    ensures s.g.tracker + s.g.rolled == Sum(Down1, s.g.chunks)
            <==> forall w :: 0 <= w < |s.workers| ==> Pending(s.workers[w]) == 0
  {
    var ws := s.workers;
    SumZero(Same, s.g.excess);
    forall pc | pc in ws ensures 0 <= Pending(pc) {
      var w :| 0 <= w < |ws| && ws[w] == pc;
      assert WorkerOk(env, s.g, w, ws[w]);
    }
    SumNonNegative(Pending, ws);
    if forall w :: 0 <= w < |ws| ==> Pending(ws[w]) == 0 {
      SumZero(Pending, ws);
    } else {
      var w :| 0 <= w < |ws| && Pending(ws[w]) != 0;
      SumAtLeast(Pending, ws, w);
    }
  }
}
