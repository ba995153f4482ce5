/** What a crash can cost a run that keeps a checkpoint (pkg/engine/fd_sink.go:213-251): a chunk whose worker has gone on
    is in the saved checkpoint. */
module DownloadDurability {
  import opened Bytes
  import opened Chunks
  import opened Checkpoints
  import opened Download
  import opened DownloadConduct
  import opened DownloadSafety
  import opened DownloadSuccess
  import opened DownloadTheorems
  import W = Worker

  /** Entry `c` has chunk `ch` as finished. */
  predicate Noted(entries: seq<Option<ChunkVal>>, ch: ChunkVal, c: nat) {
    && c < |entries| && entries[c].Some? && entries[c].value.completed
    && entries[c].value.start == ch.start && entries[c].value.end == ch.end
  }

  predicate Saved(g: Shared, c: nat)
    requires c < |g.chunks|
  {
    g.cell.Some? && Noted(g.cell.value.chunks, g.chunks[c], c) && Noted(g.mem.chunks, g.chunks[c], c)
  }

  /** A worker between flagging its chunk and having saved the checkpoint, which has noted what it has passed. */
  predicate Saving(pc: Pc, g: Shared, c: nat)
    requires c < |g.chunks|
  {
    pc.Flagged? || pc.WantLock? || ((pc.SyncDown? || pc.SyncFlag?) && (c < pc.i ==> Noted(g.mem.chunks, g.chunks[c], c)))
  }

  /** A finished chunk is saved, or its worker is about to save it. */
  ghost predicate Durable(g: Shared, ws: seq<Pc>, c: nat)
    requires c < |g.chunks| == |g.owner|
  {
    g.chunks[c].completed && g.hasState ==>
      Saved(g, c) || (g.owner[c].Some? && g.owner[c].value < |ws| && Saving(ws[g.owner[c].value], g, c))
  }

  predicate SaveWorks(e: Event) { e.Step? && e.act.Save? ==> e.act.ok }

  lemma {:induction false} OthersSave(env: Env, maxRetries: int, g: Shared, w: nat, pc: Pc, a: Act)
    requires !InSync(pc) && Move(env, maxRetries, g, w, pc, a).Moved?
    ensures var g' := Move(env, maxRetries, g, w, pc, a).g; g'.mem == g.mem && g'.cell == g.cell && g'.hasState == g.hasState
  {
    hide WriteAt, W.Judge, AfterTurn, AfterFault;
    if OnWire(pc) {
      hide MoveBooks, MoveControl, MoveSync;
    } else if InBooks(pc) {
      hide MoveWire, MoveControl, MoveSync;
    } else {
      hide MoveWire, MoveBooks, MoveSync;
    }
  }

  lemma {:induction false} SyncNotes(g: Shared, w: nat, pc: Pc, a: Act, c: nat)
    requires InSync(pc) && MoveSync(g, w, pc, a).Moved? && c < |g.chunks| && g.chunks[c].completed
    ensures var g' := MoveSync(g, w, pc, a).g;
      && g'.chunks == g.chunks && g'.hasState == g.hasState
      && (Noted(g.mem.chunks, g.chunks[c], c) ==> Noted(g'.mem.chunks, g.chunks[c], c))
      && (Saved(g, c) ==> Saved(g', c))
  {
  }

  lemma {:induction false} NotedStays(env: Env, maxRetries: int, g: Shared, w: nat, pc: Pc, a: Act, c: nat)
    requires SharedOk(env, g) && InRange(g, pc) && WorkerOk(env, g, w, pc) && Move(env, maxRetries, g, w, pc, a).Moved?
    requires c < |g.chunks| && g.chunks[c].completed
    ensures var g' := Move(env, maxRetries, g, w, pc, a).g;
      && |g'.chunks| == |g.chunks| == |g'.owner| && g'.chunks[c] == g.chunks[c] && g'.hasState == g.hasState
      && (g.owner[c].Some? ==> g'.owner[c] == g.owner[c])
      && (Noted(g.mem.chunks, g.chunks[c], c) ==> Noted(g'.mem.chunks, g.chunks[c], c))
      && (Saved(g, c) ==> Saved(g', c))
  {
    assert !(HasChunk(pc) && pc.c == c) by { hide CopyOk; }
    hide WorkerOk, SharedOk, MoveWire, MoveBooks, MoveControl;
    StepTouches(env, maxRetries, g, w, pc, a);
    MoveOnlyTakes(env, maxRetries, g, w, pc, a);
    if InSync(pc) {
      SyncNotes(g, w, pc, a, c);
    } else {
      hide Move;
      OthersSave(env, maxRetries, g, w, pc, a);
    }
  }

  /** The worker whose chunk is being saved goes on saving it, or has saved it. */
  lemma {:induction false} SavingGoesOn(env: Env, maxRetries: int, g: Shared, w: nat, pc: Pc, a: Act, c: nat)
    requires SharedOk(env, g) && Move(env, maxRetries, g, w, pc, a).Moved? && (a.Save? ==> a.ok)
    requires InRange(g, pc) && c < |g.chunks| && g.chunks[c].completed && g.hasState && Saving(pc, g, c)
    ensures var m := Move(env, maxRetries, g, w, pc, a);
      m.g.chunks == g.chunks && (Saved(m.g, c) || Saving(m.pc, m.g, c))
  {
    assert MemEntryTrue(env, g.file, g.mem.chunks[c], g.chunks[c]);
    hide Tiles, ChunksTrue, CellTrue, QueueOk, EntryTrue, MoveWire, MoveBooks;
  }

  /** A chunk is finished by the worker that took it. */
  lemma {:induction false} FinishedBy(env: Env, maxRetries: int, g: Shared, w: nat, pc: Pc, a: Act, c: nat)
    requires SharedOk(env, g) && InRange(g, pc) && WorkerOk(env, g, w, pc) && Move(env, maxRetries, g, w, pc, a).Moved?
    requires c < |g.chunks| && !g.chunks[c].completed
    ensures var m := Move(env, maxRetries, g, w, pc, a);
      && |m.g.chunks| == |g.chunks| == |m.g.owner|
      && (m.g.chunks[c].completed ==> m.pc == Flagged && m.g.owner[c] == Some(w))
  {
    assert HasChunk(pc) && pc.c == c ==> g.owner[c] == Some(w) by { hide CopyOk; }
    hide WorkerOk, SharedOk;
    StepTouches(env, maxRetries, g, w, pc, a);
    MoveOnlyTakes(env, maxRetries, g, w, pc, a);
    if HasChunk(pc) && pc.c == c {
      FlagsOnlyWon(env, maxRetries, g, w, pc, a);
    }
    hide Move;
  }

  lemma {:induction false} FlagsOnlyWon(env: Env, maxRetries: int, g: Shared, w: nat, pc: Pc, a: Act)
    requires HasChunk(pc) && InRange(g, pc) && Move(env, maxRetries, g, w, pc, a).Moved? && !g.chunks[pc.c].completed
    ensures var m := Move(env, maxRetries, g, w, pc, a);
      |m.g.chunks| == |g.chunks| && (m.g.chunks[pc.c].completed ==> m.pc == Flagged)
  {
    hide WriteAt, W.Judge, AfterTurn, AfterFault;
    if OnWire(pc) {
      hide MoveBooks, MoveControl, MoveSync;
    } else if InBooks(pc) {
      hide MoveWire, MoveControl, MoveSync;
    } else {
      hide MoveWire, MoveBooks, MoveSync;
    }
  }

  lemma {:induction false} StepDurable(env: Env, s: State, w: nat, a: Act, s': State, c: nat)
    requires s.Up? && Inv(env, s) && Next(env, s, Step(w, a), s') && (a.Save? ==> a.ok)
    requires c < |s.g.chunks| && Durable(s.g, s.workers, c)
    ensures s'.Up? && c < |s'.g.chunks| == |s'.g.owner| && Durable(s'.g, s'.workers, c)
  {
    var g, pc := s.g, s.workers[w];
    assert WorkerOk(env, g, w, pc) && InRange(g, pc);
    hide Inv, SharedOk, WorkerOk, Move;
    if !g.chunks[c].completed {
      FinishedBy(env, s.maxRetries, g, w, pc, a, c);
    } else {
      NotedStays(env, s.maxRetries, g, w, pc, a, c);
      if g.hasState && !Saved(g, c) && g.owner[c] == Some(w) {
        SavingGoesOn(env, s.maxRetries, g, w, pc, a, c);
      }
    }
  }

  lemma {:induction false} SnapshotNotes(env: Env, g: Shared, c: nat)
    requires SharedOk(env, g) && c < |g.chunks| && g.chunks[c].completed
    requires forall i :: 0 <= i < Min(|g.mem.chunks|, |g.chunks|) ==> g.mem.chunks[i].Some?
    ensures Noted(Snapshot(g).chunks, g.chunks[c], c)
  {
    assert MemEntryTrue(env, g.file, g.mem.chunks[c], g.chunks[c]);
    hide Tiles, ChunksTrue, CellTrue, QueueOk, EntryTrue;
  }

  lemma {:induction false} NextDurable(env: Env, s: State, e: Event, s': State, c: nat)
    requires s.Up? && s'.Up? && Inv(env, s) && Next(env, s, e, s') && SaveWorks(e)
    requires c < |s.g.chunks| && Durable(s.g, s.workers, c)
    ensures c < |s'.g.chunks| == |s'.g.owner| && Durable(s'.g, s'.workers, c)
  {
    assert SharedOk(env, s.g) && |s.g.owner| == |s.g.chunks|;
    hide Inv, Snapshot, SharedOk, Move;
    if e.Step? {
      StepDurable(env, s, e.w, e.act, s', c);
    } else if e.FinalSync? && s.g.chunks[c].completed {
      SnapshotNotes(env, s.g, c);
    }
  }

  /** At a start, whatever is finished is finished in the checkpoint it was restored from. */
  lemma {:induction false} StartDurable(env: Env, s: State, e: Event, s': State, c: nat)
    requires s.Down? && e.Start? && s'.Up? && Next(env, s, e, s') && c < |s'.g.chunks|
    ensures |s'.g.owner| == |s'.g.chunks| && Durable(s'.g, s'.workers, c)
  {
    hide Tiles, Unfinished, EffectiveSize;
  }

  lemma {:induction false} SameChunks(env: Env, s: State, e: Event, s': State)
    requires s.Up? && s'.Up? && Inv(env, s) && Next(env, s, e, s')
    ensures |s.g.owner| == |s.g.chunks| == |s'.g.chunks|
  {
    assert WorkersOk(env, s.g, s.workers) && |s.g.owner| == |s.g.chunks|;
    if e.Step? {
      assert WorkerOk(env, s.g, e.w, s.workers[e.w]) && InRange(s.g, s.workers[e.w]) by { hide CopyOk; }
      hide Inv, WorkerOk, Move;
      StepTouches(env, s.maxRetries, s.g, e.w, s.workers[e.w], e.act);
    }
    hide Snapshot;
  }

  /** In every run that keeps a checkpoint, as long as its saves work, every finished chunk is in the saved checkpoint
      unless its worker is still on the way to saving it. */
  lemma {:induction false} FinishedIsSaved(env: Env, states: seq<State>, events: seq<Event>, i: nat, k: nat, c: nat)
    requires Chain(env, states, events) && i < k < |states| && states[i].Down? && events[i].Start? && UpBetween(states, i + 1, k)
    requires (forall t :: i < t < k ==> SaveWorks(events[t])) && c < |states[k].g.chunks|
    ensures |states[k].g.owner| == |states[k].g.chunks| && Durable(states[k].g, states[k].workers, c)
    decreases k
  {
    hide Durable, Next, Inv, SaveWorks;
    assert Next(env, states[k - 1], events[k - 1], states[k]);
    if k == i + 1 {
      hide Chain;
      StartDurable(env, states[i], events[i], states[k], c);
    } else {
      ChainInv(env, states, events, k - 1);
      SameChunks(env, states[k - 1], events[k - 1], states[k]);
      FinishedIsSaved(env, states, events, i, k - 1, c);
      hide Chain;
      NextDurable(env, states[k - 1], events[k - 1], states[k], c);
    }
  }

  /** A crash costs no finished chunk: if the process is killed at any point after a chunk was finished and its worker
      went on, and the next run resumes, it has that chunk finished, and does not fetch it again. */
  lemma FinishedSurvivesKill(env: Env, states: seq<State>, events: seq<Event>, i: nat, k: nat, c: nat)
    requires Chain(env, states, events) && i < k && k + 1 < |events| && states[i].Down? && events[i].Start?
    requires UpBetween(states, i + 1, k) && (forall t :: i < t < k ==> SaveWorks(events[t])) && states[k].g.hasState
    requires events[k] == Kill && events[k + 1].Start? && Accepts(env, CellOf(states[k + 1]), events[k + 1])
    requires var g := states[k].g; c < |g.chunks| && g.chunks[c].completed
    requires var g, ws := states[k].g, states[k].workers;
      c < |g.owner| && forall w :: 0 <= w < |ws| && g.owner[c] == Some(w) ==> !ws[w].Flagged? && !InSync(ws[w])
    ensures var g, s := states[k].g, states[k + 2];
      && s.Up? && c < |s.g.chunks| && s.g.chunks[c].completed && c !in s.g.jobs
      && s.g.chunks[c].start == g.chunks[c].start && s.g.chunks[c].end == g.chunks[c].end
  {
    FinishedIsSaved(env, states, events, i, k, c);
    assert Next(env, states[k], Kill, states[k + 1]);
    assert Next(env, states[k + 1], events[k + 1], states[k + 2]);
    UnfinishedFacts(states[k + 2].g.chunks, 0);
    hide Chain, Resumable, Unfinished;
  }
}
