/** What holds over whole chains of runs: every interleaving, failure, cancel, kill and resume. */
module DownloadTheorems {
  import opened Bytes
  import opened Chunks
  import opened Checkpoints
  import opened Download
  import opened DownloadSafety
  import opened DownloadLedger
  import W = Worker
  import Retries

  /** A chain that starts with no run up and a saved checkpoint that, if it would be accepted, is true, and in
      which no run empties the file behind a checkpoint that claims some of it. Entry points mix freely. */
  ghost predicate Chain(env: Env, states: seq<State>, events: seq<Event>) {
    && env.Valid() && Run(env, states, events)
    && states[0].Down? && CellTrue(env, states[0].file, states[0].cell)
    && forall i :: 0 <= i < |events| ==> GuardedEvent(env, states[i], events[i])
  }

  /** This event is a start that empties the file. */
  ghost predicate EmptiesAt(env: Env, s: State, e: Event) {
    s.Down? && e.Start? && Empties(env, s.cell, e)
  }

  ghost predicate NeverEmptied(env: Env, states: seq<State>, events: seq<Event>, i: nat, j: nat)
    requires j < |states| == |events| + 1
  {
    forall t :: i <= t < j ==> !EmptiesAt(env, states[t], events[t])
  }

  lemma {:induction false} ChainInv(env: Env, states: seq<State>, events: seq<Event>, i: nat)
    requires Chain(env, states, events) && i < |states|
    ensures Inv(env, states[i]) && Balanced(states[i])
  {
    if i > 0 {
      ChainInv(env, states, events, i - 1);
      assert GuardedEvent(env, states[i - 1], events[i - 1]);
      hide Inv, Next, Balanced, GuardedEvent;
      NextInv(env, states[i - 1], events[i - 1], states[i]);
      NextBalanced(env, states[i - 1], events[i - 1], states[i]);
    }
  }

  // ------------------------------------------------ bytes are never lost

  lemma {:induction false} StepKept(env: Env, s: State, w: nat, a: Act, s': State)
    requires env.Valid() && s.Up? && Inv(env, s) && Next(env, s, Step(w, a), s')
    ensures Kept(env, s.g.file, s'.g.file)
  {
    assert WorkerOk(env, s.g, w, s.workers[w]);
    hide SharedOk, WorkerOk, Move;
    WorkerStep(env, s.maxRetries, s.g, w, s.workers[w], a);
  }

  /** No event but an emptying start makes the file lose a byte of the source it holds. */
  lemma {:induction false} NextKept(env: Env, s: State, e: Event, s': State)
    requires env.Valid() && Inv(env, s) && Next(env, s, e, s') && !EmptiesAt(env, s, e)
    ensures Kept(env, FileOf(s), FileOf(s'))
  {
    ResizeKept(env, FileOf(s));
    if s.Up? && e.Step? {
      StepKept(env, s, e.w, e.act, s');
    } else if s.Streaming? && e.Pour? {
      PourInv(env, s, e.act);
    } else {
      hide Inv, Resumable;
    }
  }

  lemma {:induction false} ChainKept(env: Env, states: seq<State>, events: seq<Event>, i: nat, j: nat)
    requires Chain(env, states, events) && i <= j < |states| && NeverEmptied(env, states, events, i, j)
    ensures Kept(env, FileOf(states[i]), FileOf(states[j]))
    decreases j
  {
    if i == j {
      ResizeKept(env, FileOf(states[i]));
    } else {
      ChainKept(env, states, events, i, j - 1);
      ChainInv(env, states, events, j - 1);
      assert Next(env, states[j - 1], events[j - 1], states[j]);
      assert !EmptiesAt(env, states[j - 1], events[j - 1]);
      hide Inv, Next, Chain, Kept, FileOf, EmptiesAt;
      NextKept(env, states[j - 1], events[j - 1], states[j]);
    }
  }

  lemma {:induction false} MoveFits(env: Env, maxRetries: int, g: Shared, w: nat, pc: Pc, a: Act)
    requires |g.file| <= |env.source| && InRange(g, pc) && WorkerOk(env, g, w, pc) && Move(env, maxRetries, g, w, pc, a).Moved?
    ensures |Move(env, maxRetries, g, w, pc, a).g.file| <= |env.source|
  {
    if pc.Reading? && a.n > 0 {
      WriteAtFacts(g.file, pc.base + pc.got, env.source[pc.from + pc.got..pc.from + pc.got + Min(a.took, a.n)]);
    }
    hide WriteAt, W.Judge, Agree;
    if OnWire(pc) {
      hide MoveBooks, MoveSync, MoveControl;
    } else if InBooks(pc) {
      hide MoveWire, MoveSync, MoveControl;
    } else {
      hide MoveWire, MoveBooks;
    }
  }

  lemma {:induction false} NextFits(env: Env, s: State, e: Event, s': State)
    requires env.Valid() && Inv(env, s) && Next(env, s, e, s') && |FileOf(s)| <= |env.source|
    ensures |FileOf(s')| <= |env.source|
  {
    if s.Up? && e.Step? {
      assert WorkerOk(env, s.g, e.w, s.workers[e.w]);
      hide Inv, Move, WorkerOk;
      MoveFits(env, s.maxRetries, s.g, e.w, s.workers[e.w], e.act);
    } else if s.Streaming? && e.Pour? {
      PourInv(env, s, e.act);
    } else {
      hide Inv, Resumable;
    }
  }

  /** A file no longer than the resource never grows past it, overlong bodies included. */
  lemma {:induction false} ChainFits(env: Env, states: seq<State>, events: seq<Event>, i: nat, j: nat)
    requires Chain(env, states, events) && i <= j < |states| && |FileOf(states[i])| <= |env.source|
    ensures |FileOf(states[j])| <= |env.source|
    decreases j
  {
    hide Inv, Next, FileOf, CellTrue, GuardedEvent;
    if i < j {
      ChainFits(env, states, events, i, j - 1);
      ChainInv(env, states, events, j - 1);
      assert Next(env, states[j - 1], events[j - 1], states[j]);
      hide Chain, Run;
      NextFits(env, states[j - 1], events[j - 1], states[j]);
    }
  }

  // --------------------------------------------------------- main results

  /** End-to-end integrity: whenever a run of the chain returns nil, whatever happened before, the file starts
      with the source byte for byte; and it is the source if it was at any time no longer than it, as it is
      from any successful truncation on. */
  lemma NilReturnMeansSource(env: Env, states: seq<State>, events: seq<Event>, k: nat)
    requires Chain(env, states, events) && k < |states|
    requires states[k].Up? && states[k].phase == Returned(true)
    ensures env.source <= FileOf(states[k])
    ensures forall j :: 0 <= j <= k && |FileOf(states[j])| <= |env.source| ==> FileOf(states[k]) == env.source
  {
    ChainInv(env, states, events, k);
    var g := states[k].g;
    var n := |env.source|;
    forall p | 0 <= p < n ensures Holds(g.file, env.source, p) {
      assert Covered(g.chunks, p);
      var c :| 0 <= c < |g.chunks| && Inside(g.chunks[c], p);
      assert ChunkTrue(env, g.file, g.chunks[c], g.excess[c]) && g.chunks[c].completed;
    }
    hide Inv;
    AgreeIsPrefix(g.file, env.source);
    forall j | 0 <= j <= k && |FileOf(states[j])| <= n ensures FileOf(states[k]) == env.source {
      ChainFits(env, states, events, j, k);
    }
  }

  /** In every reachable state each chunk's done prefix is in the file. */
  lemma ProgressIsTrue(env: Env, states: seq<State>, events: seq<Event>, k: nat, c: nat)
    requires Chain(env, states, events) && k < |states| && states[k].Up? && c < |states[k].g.chunks|
    ensures var ch := states[k].g.chunks[c];
      ch.Sound(|env.source|) && Agree(states[k].g.file, env.source, ch.start, ch.start + ch.downloaded)
  {
    ChainInv(env, states, events, k);
    assert ChunkTrue(env, states[k].g.file, states[k].g.chunks[c], states[k].g.excess[c]);
  }

  /** A single-stream run that returns nil has written a prefix of the source and nothing else. It does not compare
      lengths: the file is the source exactly when the body was whole. */
  lemma StreamNilMeansPrefix(env: Env, states: seq<State>, events: seq<Event>, k: nat)
    requires Chain(env, states, events) && k < |states|
    requires states[k].Streaming? && states[k].verdict == Some(true)
    ensures FileOf(states[k]) <= env.source
    ensures FileOf(states[k]) == env.source <==> states[k].got == |env.source|
  {
    ChainInv(env, states, events, k);
  }

  /** The comparison the single-stream loop leaves out: when a read of `n` bytes brings the end, the verdict is nil
      unless writing fails, and the file is then the source if and only if the bytes read add up to its length. */
  lemma EofIsNil(env: Env, states: seq<State>, events: seq<Event>, k: nat)
    requires Chain(env, states, events) && k < |events| && states[k].Streaming?
    requires events[k].Pour? && events[k].act.Read? && events[k].act.err == W.Eof
    ensures var n, fails, s, s' := events[k].act.n, events[k].act.writeFails && events[k].act.n > 0, states[k], states[k + 1];
      && s'.Streaming? && (s'.verdict == Some(true) <==> !fails)
      && (!fails ==> (FileOf(s') == env.source <==> s.got + n == |env.source|))
  {
    ChainInv(env, states, events, k);
    var s, a := states[k], events[k].act;
    assert Next(env, s, events[k], states[k + 1]);
    var took := if a.writeFails then Min(a.took, a.n) else a.n;
    hide WriteAt, CellTrue;
    PouredFile(env, s.file, s.got, took);
  }

  /** Checkpoints tell the truth: the one saved at any point, torn or not, is refused by the resume check or claims
      only bytes the file holds; and it stays so at every later point, until a run empties the file. */
  lemma CheckpointsStayTrue(env: Env, states: seq<State>, events: seq<Event>, i: nat, j: nat)
    requires Chain(env, states, events) && i <= j < |states|
    ensures CellTrue(env, FileOf(states[i]), CellOf(states[i]))
    ensures NeverEmptied(env, states, events, i, j) ==> CellTrue(env, FileOf(states[j]), CellOf(states[i]))
  {
    ChainInv(env, states, events, i);
    assert CellTrue(env, FileOf(states[i]), CellOf(states[i]));
    if NeverEmptied(env, states, events, i, j) {
      ChainKept(env, states, events, i, j);
      hide Inv, CellTrue;
      CellKept(env, FileOf(states[i]), FileOf(states[j]), CellOf(states[i]));
    }
  }

  /** The save after `wg.Wait` always leaves a checkpoint the next run accepts, with every chunk as it stands. */
  lemma FinalSaveAccepted(env: Env, states: seq<State>, events: seq<Event>, k: nat)
    requires Chain(env, states, events) && k < |events| && events[k] == FinalSync(true) && states[k].Up? && states[k].g.hasState
    requires var g := states[k].g; g.workerCancelled || g.parentCancelled || g.err.Some?
    ensures var cell := CellOf(states[k + 1]);
      && cell.Some? && Resumable(cell.value, env.info)
      && Values(cell.value.chunks) == states[k].g.chunks
  {
    ChainInv(env, states, events, k);
    assert Next(env, states[k], events[k], states[k + 1]);
    var g := states[k].g;
    FinalSnapshotResumable(env, g);
    forall i | 0 <= i < |g.chunks| ensures Snapshot(g).chunks[i] == Some(g.chunks[i]) {
      assert MemEntryTrue(env, g.file, g.mem.chunks[i], g.chunks[i]);
    }
  }

  /** ... but an unfinished chunk of that checkpoint can be finished by a call that resumes from it only if part of
      it is missing: one with all its bytes and no flag fails without sending a request. */
  lemma FullUnflaggedChunkIsStuck(env: Env, states: seq<State>, events: seq<Event>, k: nat, c: nat, maxRetries: int)
    requires Chain(env, states, events) && k < |events| && events[k] == FinalSync(true) && states[k].Up? && states[k].g.hasState
    requires var g := states[k].g; g.workerCancelled || g.parentCancelled || g.err.Some?
    requires c < |states[k].g.chunks| && 0 <= maxRetries
    requires !states[k].g.chunks[c].completed
    ensures var cell := CellOf(states[k + 1]);
      && cell.Some? && c < |cell.value.chunks| && cell.value.chunks[c].Some?
      && var restored := cell.value.chunks[c].value;
      ((exists scripts :: W.Retry(restored, scripts, 0, 0, maxRetries, []).fault == None)
       <==> restored.downloaded < restored.Size())
  {
    FinalSaveAccepted(env, states, events, k);
    ProgressIsTrue(env, states, events, k, c);
    hide Inv, Next, Chain;
    Retries.ResumableIff(states[k].g.chunks[c], |env.source|, maxRetries);
  }

  /** Dispatch: at any time two workers never hold the same chunk, and no held chunk is still queued. */
  lemma OneHolderPerChunk(env: Env, states: seq<State>, events: seq<Event>, k: nat, v: nat, w: nat)
    requires Chain(env, states, events) && k < |states| && states[k].Up?
    requires v < |states[k].workers| && w < |states[k].workers|
    requires HasChunk(states[k].workers[v]) && HasChunk(states[k].workers[w])
    ensures states[k].workers[v].c == states[k].workers[w].c ==> v == w
    ensures states[k].workers[v].c !in states[k].g.jobs
  {
    ChainInv(env, states, events, k);
    assert WorkerOk(env, states[k].g, v, states[k].workers[v]);
    assert WorkerOk(env, states[k].g, w, states[k].workers[w]);
  }

  /** A chunk is taken at most once in a run: who took it never changes, and a worker that takes a chunk takes
      one nobody had. */
  lemma TakenOnce(env: Env, states: seq<State>, events: seq<Event>, k: nat, c: nat)
    requires Chain(env, states, events) && k < |events| && states[k].Up? && states[k + 1].Up? && c < |states[k].g.chunks|
    ensures var was, now := states[k].g, states[k + 1].g;
      && |was.owner| == |now.owner| == |was.chunks|
      && (was.owner[c].Some? ==> now.owner[c] == was.owner[c])
      && (now.owner[c] != was.owner[c] ==>
           events[k].Step? && now.owner[c] == Some(events[k].w) && c in was.jobs && !was.chunks[c].completed)
  {
    ChainInv(env, states, events, k);
    var s, e := states[k], events[k];
    assert Next(env, s, e, states[k + 1]);
    if e.Step? {
      MoveOnlyTakes(env, s.maxRetries, s.g, e.w, s.workers[e.w], e.act);
      assert Accounted(s.g, s.workers, c);
      TakesFromQueue(env, s.maxRetries, s.g, e.w, s.workers[e.w], e.act, c);
    }
  }

  lemma {:induction false} TakesFromQueue(env: Env, maxRetries: int, g: Shared, w: nat, pc: Pc, a: Act, c: nat)
    requires SharedOk(env, g) && c < |g.chunks| && Move(env, maxRetries, g, w, pc, a).Moved?
    ensures var g' := Move(env, maxRetries, g, w, pc, a).g;
      |g'.owner| == |g.owner| && (g'.owner[c] != g.owner[c] ==> c in g.jobs && !g.chunks[c].completed)
  {
    hide Tiles, ChunksTrue, MemTrue, CellTrue, MoveWire, MoveBooks, MoveSync;
    if OnWire(pc) || InBooks(pc) || InSync(pc) {
      KeepsOwners(env, maxRetries, g, w, pc, a);
    }
  }

  lemma {:induction false} KeepsOwners(env: Env, maxRetries: int, g: Shared, w: nat, pc: Pc, a: Act)
    requires OnWire(pc) || InBooks(pc) || InSync(pc)
    requires Move(env, maxRetries, g, w, pc, a).Moved?
    ensures Move(env, maxRetries, g, w, pc, a).g.owner == g.owner
  {
    hide WriteAt, W.Judge, AfterTurn, AfterFault, MoveControl;
  }

  /** The verdict: a nil return happens exactly with no error recorded and the workers' context not cancelled; then
      every chunk is complete and counted, and no worker is active. That the parent was not cancelled is not
      promised: its cancellation may not have reached the workers' context yet. */
  lemma NilVerdict(env: Env, states: seq<State>, events: seq<Event>, k: nat)
    requires Chain(env, states, events) && k < |events| && events[k] == Return && states[k].Up?
    ensures states[k + 1].phase.ok <==> states[k].g.err == None && !states[k].g.workerCancelled
    ensures states[k + 1].phase.ok ==>
      && AllComplete(states[k].g.chunks)
      && states[k].g.completed == |states[k].g.chunks| && states[k].g.active == 0
  {
    ChainInv(env, states, events, k);
    ChainInv(env, states, events, k + 1);
    assert Next(env, states[k], events[k], states[k + 1]);
    if states[k + 1].phase.ok {
      ReturnComplete(env, states[k]);
      hide Inv, Ledger;
      FinalCount(env, states[k + 1]);
    }
  }

  /** The tracker after a nil return: the full length exactly when nothing was rolled back on the way. */
  lemma FinalTracker(env: Env, states: seq<State>, events: seq<Event>, k: nat)
    requires Chain(env, states, events) && k < |states| && states[k].Up? && states[k].phase == Returned(true)
    ensures states[k].g.tracker == |env.source| - states[k].g.rolled
    ensures states[k].g.tracker == |env.source| <==> states[k].g.rolled == 0
  {
    ChainInv(env, states, events, k);
    FinalCount(env, states[k]);
  }

  /** At every micro-step, clamped or not, overlong bodies or not: the exact ledger. */
  lemma LedgerAlways(env: Env, states: seq<State>, events: seq<Event>, k: nat)
    requires Chain(env, states, events) && k < |states| && states[k].Up?
    ensures var g, ws := states[k].g, states[k].workers;
      && g.tracker + g.rolled + Sum(Pending, ws) == Sum(Down1, g.chunks) + Sum(Same, g.excess)
      && 0 <= g.tracker
      && (forall w :: 0 <= w < |ws| && ws[w].Failed? ==> ws[w].got <= g.tracker)
  {
    ChainInv(env, states, events, k);
    TrackerNeverNegative(env, states[k]);
  }

  /** When no reply is longer than asked: never more than the chunks hold, equal with no write mid-way. */
  lemma {:induction false} LedgerWithoutExcess(env: Env, states: seq<State>, events: seq<Event>, k: nat)
    requires Chain(env, states, events) && k < |states|
    requires forall i :: 0 <= i < k ==> Capped(states[i], events[i])
    ensures NoExcess(states[k])
    ensures states[k].Up? ==>
      var g, ws := states[k].g, states[k].workers;
      && g.tracker + g.rolled <= Sum(Down1, g.chunks)
      && (g.tracker + g.rolled == Sum(Down1, g.chunks) <==> forall w :: 0 <= w < |ws| ==> Pending(ws[w]) == 0)
  {
    ChainInv(env, states, events, k);
    if k > 0 {
      LedgerWithoutExcess(env, states, events, k - 1);
      ChainInv(env, states, events, k - 1);
      hide Inv;
      NextNoExcess(env, states[k - 1], events[k - 1], states[k]);
    }
    hide NoExcess;
    if states[k].Up? {
      TrackerBelowProgress(env, states[k]);
    }
  }

  // --------------------------------------------- runs that empty the file

  /** What is left of a file that a run empties and perhaps truncates up. */
  function Emptied(n: nat, truncates: bool): seq<byte> {
    if truncates then Resize([], n) else []
  }

  /** An entry claims nothing, or only bytes that happen to be the zeros a truncation puts back. */
  ghost predicate Harmless(source: seq<byte>, c: ChunkVal, truncates: bool) {
    c.downloaded > 0 ==> truncates && forall p :: 0 <= p < |source| && c.start <= p < c.start + c.downloaded ==> source[p] == 0
  }

  /** All the checkpoint claims is zeros, and the run truncates the file up. */
  ghost predicate ZerosBack(env: Env, cell: Option<CheckpointVal>, e: Event)
    requires e.Start? && cell.Some? && Resumable(cell.value, env.info)
  {
    InParts(env, cell, e) && e.truncates && forall i :: 0 <= i < |cell.value.chunks| ==> Harmless(env.source, cell.value.chunks[i].value, true)
  }

  /** Which starts leave a true checkpoint, whatever entry point, load, truncation and save: exactly the guarded
      ones, and by luck those behind which everything claimed is zeros put back. */
  lemma StartTruthIff(env: Env, file: seq<byte>, cell: Option<CheckpointVal>, e: Event)
    requires env.Valid() && e.Start? && CellTrue(env, file, cell)
    ensures var s := Begin(env, file, cell, e);
      CellTrue(env, FileOf(s), CellOf(s))
      <==> Guarded(env, cell, e) || (cell.Some? && Resumable(cell.value, env.info) && ZerosBack(env, cell, e))
  {
    var s := Begin(env, file, cell, e);
    if Guarded(env, cell, e) {
      StartInv(env, file, cell, e);
    } else {
      hide CellTrue;
      var back := InParts(env, cell, e) && e.truncates;
      assert FileOf(s) == Emptied(|env.source|, back) && CellOf(s) == cell;
      hide Begin, Tiles;
      StaleCell(env, cell.value, back);
    }
  }

  lemma {:induction false} StaleCell(env: Env, cp: CheckpointVal, truncates: bool)
    requires env.Valid() && Resumable(cp, env.info)
    ensures CellTrue(env, Emptied(|env.source|, truncates), Some(cp))
            <==> forall i :: 0 <= i < |cp.chunks| ==> Harmless(env.source, cp.chunks[i].value, truncates)
  {
    hide Tiles;
    var file := Emptied(|env.source|, truncates);
    forall i | 0 <= i < |cp.chunks|
      ensures EntryTrue(env, file, cp.chunks[i]) <==> Harmless(env.source, cp.chunks[i].value, truncates)
    {
      EmptiedEntry(env, cp.chunks[i].value, truncates);
    }
  }

  lemma {:induction false} EmptiedEntry(env: Env, c: ChunkVal, truncates: bool)
    requires c.Sound(|env.source|)
    ensures Agree(Emptied(|env.source|, truncates), env.source, c.start, c.start + c.downloaded)
            <==> Harmless(env.source, c, truncates)
  {
    var file := Emptied(|env.source|, truncates);
    if Harmless(env.source, c, truncates) {
      forall p | c.start <= p < c.start + c.downloaded ensures Holds(file, env.source, p) {
        assert env.source[p] == 0;
      }
    } else {
      assert c.downloaded > 0;
      if truncates {
        var p :| c.start <= p < c.start + c.downloaded && env.source[p] != 0;
        assert !Holds(file, env.source, p);
      } else {
        assert !Holds(file, env.source, c.start);
      }
    }
  }
}
