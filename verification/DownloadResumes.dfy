/** Chains in which every run resumes: a full chunk without its flag keeps all of them from returning nil
    (pkg/engine/worker.go:96-99, pkg/engine/checkpoint.go:162-164, pkg/engine/fd_sink.go:133-262). */
module DownloadResumes {
  import opened Bytes
  import opened Chunks
  import opened Checkpoints
  import opened Download
  import opened DownloadSafety
  import opened DownloadSuccess
  import opened DownloadTheorems
  import DownloadStale
  import W = Worker

  /** Every run that starts loads the saved checkpoint and accepts it. */
  ghost predicate AllResume(env: Env, states: seq<State>, events: seq<Event>)
    requires |states| == |events| + 1
  {
    forall t :: 0 <= t < |events| && states[t].Down? && events[t].Start? ==> Accepts(env, states[t].cell, events[t])
  }

  ghost predicate FullEntry(es: seq<Option<ChunkVal>>, c: nat) {
    c < |es| && es[c].Some? && Full(es[c].value)
  }

  /** The saved checkpoint has chunk `c` full and unflagged; if a run is up, so have its chunks and what it will save. */
  ghost predicate Blocked(s: State, c: nat) {
    && CellOf(s).Some? && FullEntry(CellOf(s).value.chunks, c) && !s.Streaming?
    && (s.Up? ==>
      && Stays(s, c) && FullEntry(s.g.mem.chunks, c) && s.phase != Returned(true)
      && s.g.mem.chunks[c].value.start == s.g.chunks[c].start && s.g.mem.chunks[c].value.end == s.g.chunks[c].end)
  }

  lemma {:induction false} OthersSaveNothing(env: Env, maxRetries: int, g: Shared, w: nat, pc: Pc, a: Act)
    requires !InSync(pc) && Move(env, maxRetries, g, w, pc, a).Moved?
    ensures var h := Move(env, maxRetries, g, w, pc, a).g; h.mem == g.mem && h.cell == g.cell
  {
    hide WriteAt, W.Judge, AfterTurn, AfterFault;
  }

  lemma {:induction false} StepBlocked(env: Env, s: State, w: nat, a: Act, s': State, c: nat)
    requires env.Valid() && s.Up? && Blocked(s, c) && Next(env, s, Step(w, a), s')
    ensures Blocked(s', c)
  {
    MoveStays(env, s.maxRetries, s.g, w, s.workers[w], a, c);
    if InSync(s.workers[w]) {
      hide MoveSync;
    } else {
      OthersSaveNothing(env, s.maxRetries, s.g, w, s.workers[w], a);
      hide Move;
    }
    hide MoveWire, MoveBooks, MoveControl, Full, Fruitless;
  }

  lemma {:induction false} StartBlocked(env: Env, s: State, e: Event, c: nat)
    requires env.Valid() && s.Down? && e.Start? && Blocked(s, c) && Accepts(env, s.cell, e)
    ensures Blocked(Begin(env, s.file, s.cell, e), c)
  {
    hide Resumable, Full;
  }

  lemma {:induction false} EndBlocked(env: Env, s: State, e: Event, s': State, c: nat)
    requires env.Valid() && s.Up? && !e.Step? && Inv(env, s) && Blocked(s, c) && Next(env, s, e, s')
    ensures Blocked(s', c)
  {
    if e.Return? {
      if s.g.err == None && !(s.g.workerCancelled && s.g.parentCancelled) {
        ReturnComplete(env, s);
      }
    }
    hide Inv;
    if e.FinalSync? {
      assert s.g.mem.chunks[c].Some? && c < |s.g.chunks|;
    }
  }

  lemma {:induction false} NextBlocked(env: Env, s: State, e: Event, s': State, c: nat)
    requires env.Valid() && Inv(env, s) && Blocked(s, c) && Next(env, s, e, s')
    requires s.Down? && e.Start? ==> Accepts(env, s.cell, e)
    ensures Blocked(s', c)
  {
    hide Inv, Blocked;
    if s.Down? {
      StartBlocked(env, s, e, c);
    } else if s.Up? && e.Step? {
      StepBlocked(env, s, e.w, e.act, s', c);
    } else {
      NotStreaming(s, c);
      EndBlocked(env, s, e, s', c);
    }
  }

  lemma NotStreaming(s: State, c: nat)
    requires Blocked(s, c)
    ensures !s.Streaming? && (s.Up? ==> s.phase != Returned(true))
  {
  }

  lemma ChainStep(env: Env, states: seq<State>, events: seq<Event>, i: nat)
    requires Chain(env, states, events) && i < |events|
    ensures env.Valid() && |states| == |events| + 1 && Next(env, states[i], events[i], states[i + 1])
  {
  }

  /** From a checkpoint with such a chunk on, as long as every run resumes, no run ever returns nil, and every
      checkpoint saved on the way has the chunk in it again. */
  lemma {:induction false} BlockedForGood(env: Env, states: seq<State>, events: seq<Event>, i: nat, k: nat, c: nat)
    requires Chain(env, states, events) && i <= k < |states| == |events| + 1 && Blocked(states[i], c)
    requires forall t :: i <= t < k && states[t].Down? && events[t].Start? ==> Accepts(env, states[t].cell, events[t])
    ensures Blocked(states[k], c)
    ensures states[k].Up? ==> states[k].phase != Returned(true)
    decreases k
  {
    hide Next, Inv, Blocked, Chain, Accepts;
    if i < k {
      BlockedForGood(env, states, events, i, k - 1, c);
      ChainInv(env, states, events, k - 1);
      ChainStep(env, states, events, k - 1);
      NextBlocked(env, states[k - 1], events[k - 1], states[k], c);
    }
    NotStreaming(states[k], c);
  }

  /** The final save of a run that was cancelled or failed is where it begins. */
  lemma SaveBlocks(env: Env, states: seq<State>, events: seq<Event>, k: nat, c: nat)
    requires Chain(env, states, events) && k < |events| && events[k] == FinalSync(true) && states[k].Up? && states[k].g.hasState
    requires var g := states[k].g; g.workerCancelled || g.parentCancelled || g.err.Some?
    requires c < |states[k].g.chunks| && Full(states[k].g.chunks[c])
    ensures Blocked(states[k + 1], c)
  {
    hide GuardedEvent, CellTrue, ChunksTrue, QueueOk, WorkersOk, AllAccounted;
    ChainInv(env, states, events, k);
    var g := states[k].g;
    assert Next(env, states[k], events[k], states[k + 1]);
    assert MemEntryTrue(env, g.file, g.mem.chunks[c], g.chunks[c]);
    hide Inv, Chain, Run;
  }

  /** When a chain of resumes can still succeed: from a saved checkpoint that would be accepted, some chain in which
      every run resumes reaches a nil return if and only if no chunk of the checkpoint is full without its flag. */
  lemma ResumesSucceedIff(env: Env, file: seq<byte>, cell: Option<CheckpointVal>)
    requires env.Valid() && CellTrue(env, file, cell) && cell.Some? && Resumable(cell.value, env.info)
    ensures (exists states: seq<State>, events: seq<Event> ::
              ResumesTo(env, file, cell, states, events) && states[|states| - 1].Up? && states[|states| - 1].phase == Returned(true))
      <==> NoneFull(Values(cell.value.chunks))
  {
    if NoneFull(Values(cell.value.chunks)) {
      var states, events := ResumeOnce(env, file, cell);
    } else {
      var c :| 0 <= c < |cell.value.chunks| && Full(Values(cell.value.chunks)[c]);
      assert Blocked(Down(file, cell), c);
      hide Resumable, CellTrue, Blocked, NoneFull;
      forall states: seq<State>, events: seq<Event> | ResumesTo(env, file, cell, states, events)
        ensures states[|states| - 1].Up? ==> states[|states| - 1].phase != Returned(true)
      {
        assert Chain(env, states, events);
        BlockedForGood(env, states, events, 0, |states| - 1, c);
      }
    }
  }

  ghost predicate ResumesTo(env: Env, file: seq<byte>, cell: Option<CheckpointVal>, states: seq<State>, events: seq<Event>)
  {
    Run(env, states, events) && states[0] == Down(file, cell) && AllResume(env, states, events)
  }

  lemma ResumeOnce(env: Env, file: seq<byte>, cell: Option<CheckpointVal>)
    returns (states: seq<State>, events: seq<Event>)
    requires env.Valid() && cell.Some? && Resumable(cell.value, env.info) && NoneFull(Values(cell.value.chunks))
    ensures ResumesTo(env, file, cell, states, events)
    ensures states[|states| - 1].Up? && states[|states| - 1].phase == Returned(true)
  {
    var e := Start(Named, Options(1, 0, 0), true, true, true);
    assert Accepts(env, cell, e);
    NilReachableIff(env, file, cell, e);
    var s := Begin(env, file, cell, e);
    hide Begin, Resumable, NoneFull;
    states, events :| Continues(env, s, states, events) && states[|states| - 1].Up? && states[|states| - 1].phase == Returned(true);
    assert Next(env, Down(file, cell), e, s);
    hide Next;
    DownloadStale.RunCons(env, Down(file, cell), e, states, events);
    var all, evs := [Down(file, cell)] + states, [e] + events;
    forall t | 0 < t < |all| ensures all[t].Up? {
      assert all[t] == states[t - 1];
    }
    states, events := all, evs;
  }
}
