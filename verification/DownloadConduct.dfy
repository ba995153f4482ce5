/** How runs conduct themselves from start to finish: how many workers, what a cancellation stops, and what the next run
    finds (pkg/engine/fd_sink.go:102-262). */
module DownloadConduct {
  import opened Bytes
  import opened Chunks
  import opened Checkpoints
  import opened Download
  import opened DownloadSafety
  import opened DownloadTheorems
  import W = Worker

  ghost predicate UpBetween(states: seq<State>, i: nat, k: nat) {
    i <= k < |states| && forall t :: i <= t <= k ==> states[t].Up?
  }

  /** A run never changes how many workers it has. */
  lemma {:induction false} SameWorkers(env: Env, states: seq<State>, events: seq<Event>, i: nat, k: nat)
    requires Chain(env, states, events) && UpBetween(states, i, k)
    ensures |states[k].workers| == |states[i].workers|
    decreases k
  {
    if i < k {
      SameWorkers(env, states, events, i, k - 1);
      assert Next(env, states[k - 1], events[k - 1], states[k]);
      hide Chain, Move, Snapshot;
    }
  }

  /** A multi-part run has as many workers as were asked for, but no more than there are chunks; without a number asked
      for it has 8. */
  lemma WorkersAsked(env: Env, states: seq<State>, events: seq<Event>, i: nat, k: nat)
    requires Chain(env, states, events) && i < k < |states| && states[i].Down? && events[i].Start? && UpBetween(states, i + 1, k)
    ensures var asked, chunks, workers := events[i].opts.concurrency, |states[i + 1].g.chunks|, |states[k].workers|;
      && 0 < chunks
      && (0 < asked ==> workers == if asked <= chunks then asked else chunks)
      && (asked <= 0 ==> workers == 8)
  {
    SameWorkers(env, states, events, i + 1, k);
    ChainInv(env, states, events, i + 1);
    SomeChunk(env, states[i + 1]);
    assert Next(env, states[i], events[i], states[i + 1]);
    hide Chain, Inv, Resumable, Layout;
  }

  lemma SomeChunk(env: Env, s: State)
    requires env.Valid() && s.Up? && Inv(env, s)
    ensures s.g.chunks != []
  {
    assert Covered(s.g.chunks, 0);
  }

  // ------------------------------------------------------- cancellation

  lemma {:induction false} StopsReading(env: Env, maxRetries: int, g: Shared, w: nat, pc: Pc, a: Act)
    requires g.workerCancelled && !pc.Reading? && Move(env, maxRetries, g, w, pc, a).Moved?
    ensures !Move(env, maxRetries, g, w, pc, a).pc.Reading?
  {
    hide WriteAt, W.Judge;
  }

  lemma {:induction false} StaysCancelled(env: Env, maxRetries: int, g: Shared, w: nat, pc: Pc, a: Act)
    requires g.workerCancelled && Move(env, maxRetries, g, w, pc, a).Moved?
    ensures Move(env, maxRetries, g, w, pc, a).g.workerCancelled
  {
    hide WriteAt, W.Judge, AfterTurn, AfterFault;
  }

  lemma {:induction false} NextQuiet(env: Env, s: State, e: Event, s': State, w: nat)
    requires s.Up? && s'.Up? && Next(env, s, e, s') && s.g.workerCancelled
    requires w < |s.workers| && !s.workers[w].Reading?
    ensures s'.g.workerCancelled && w < |s'.workers| && !s'.workers[w].Reading?
  {
    hide Snapshot, Move;
    if e.Step? {
      StaysCancelled(env, s.maxRetries, s.g, e.w, s.workers[e.w], e.act);
      if e.w == w {
        StopsReading(env, s.maxRetries, s.g, w, s.workers[w], e.act);
      }
    }
  }

  /** Once the workers' context is cancelled, a worker that is not in the middle of a read never reads again in that run,
      so whatever replies still come, each worker adds at most one read to the file. */
  lemma {:induction false} NoReadAfterCancel(env: Env, states: seq<State>, events: seq<Event>, i: nat, k: nat, w: nat)
    requires Chain(env, states, events) && UpBetween(states, i, k) && states[i].g.workerCancelled
    requires w < |states[i].workers| && !states[i].workers[w].Reading?
    ensures states[k].g.workerCancelled && w < |states[k].workers| && !states[k].workers[w].Reading?
    decreases k
  {
    hide Next;
    if i < k {
      NoReadAfterCancel(env, states, events, i, k - 1, w);
      assert Next(env, states[k - 1], events[k - 1], states[k]);
      hide Chain;
      NextQuiet(env, states[k - 1], events[k - 1], states[k], w);
    }
  }

  /** A failed call cancels the workers' context, or its worker is just about to. */
  ghost predicate Stopping(s: State)
    requires s.Up?
  {
    s.g.err.Some? ==> s.g.workerCancelled || exists w :: 0 <= w < |s.workers| && s.workers[w] == Recorded
  }

  lemma {:induction false} MoveStops(env: Env, maxRetries: int, g: Shared, w: nat, pc: Pc, a: Act)
    requires Move(env, maxRetries, g, w, pc, a).Moved?
    ensures var m := Move(env, maxRetries, g, w, pc, a);
      && (g.err.Some? ==> m.g.err == g.err) && (m.g.err.Some? && g.err == None ==> m.pc == Recorded)
      && (g.workerCancelled || pc == Recorded ==> m.g.workerCancelled)
  {
    hide WriteAt, W.Judge, AfterTurn, AfterFault;
    if OnWire(pc) {
      hide MoveBooks, MoveControl, MoveSync;
    } else if InBooks(pc) {
      hide MoveWire, MoveControl, MoveSync;
    } else if InSync(pc) {
      hide MoveWire, MoveBooks, MoveControl;
    } else {
      hide MoveWire, MoveBooks, MoveSync;
    }
  }

  lemma {:induction false} NextStops(env: Env, s: State, e: Event, s': State)
    requires s.Up? && s'.Up? && Next(env, s, e, s') && Stopping(s)
    ensures Stopping(s') && (s.g.err.Some? ==> s'.g.err == s.g.err)
  {
    hide Snapshot, Move;
    if e.Step? {
      MoveStops(env, s.maxRetries, s.g, e.w, s.workers[e.w], e.act);
      if s.g.err.Some? && !s'.g.workerCancelled {
        var v :| 0 <= v < |s.workers| && s.workers[v] == Recorded;
        assert s'.workers[v] == Recorded;
      }
      assert s.g.err == None && s'.g.err.Some? ==> s'.workers[e.w] == Recorded;
    }
  }

  /** One failure stops the run: at every point of every run with an error on record the workers' context is cancelled, or
      the worker that recorded it cancels it with its next step. */
  lemma {:induction false} ErrorStopsAll(env: Env, states: seq<State>, events: seq<Event>, k: nat)
    requires Chain(env, states, events) && k < |states| && states[k].Up?
    ensures Stopping(states[k])
  {
    hide Next, Stopping;
    if k > 0 {
      assert Next(env, states[k - 1], events[k - 1], states[k]);
      if states[k - 1].Up? {
        ErrorStopsAll(env, states, events, k - 1);
        hide Chain;
        NextStops(env, states[k - 1], events[k - 1], states[k]);
      } else {
        hide Chain;
        StartsWithoutError(env, states[k - 1], events[k - 1], states[k]);
      }
    }
  }

  lemma StartsWithoutError(env: Env, s: State, e: Event, s': State)
    requires !s.Up? && s'.Up? && Next(env, s, e, s')
    ensures s'.g.err == None && Stopping(s')
  {
    hide Resumable, Fresh, Unfinished, Sum;
  }

  /** The first error on record is the one the run returns. */
  lemma {:induction false} FirstErrorStays(env: Env, states: seq<State>, events: seq<Event>, i: nat, k: nat)
    requires Chain(env, states, events) && UpBetween(states, i, k) && states[i].g.err.Some?
    ensures states[k].g.err == states[i].g.err
    decreases k
  {
    hide Next, Stopping;
    if i < k {
      FirstErrorStays(env, states, events, i, k - 1);
      ErrorStopsAll(env, states, events, k - 1);
      assert Next(env, states[k - 1], events[k - 1], states[k]);
      hide Chain;
      NextStops(env, states[k - 1], events[k - 1], states[k]);
    }
  }

  // ------------------------------------------------------- the next run

  /** Pause and resume: a run that was cancelled or failed, whose final save worked, is followed by a run that, if it
      loads the checkpoint, goes on with every chunk as it stood and the file as it was. */
  lemma PauseThenResume(env: Env, states: seq<State>, events: seq<Event>, k: nat)
    requires Chain(env, states, events) && k + 3 < |events| && states[k].Up? && states[k].g.hasState
    requires events[k] == FinalSync(true) && events[k + 1] == Return && events[k + 2] == Finish(false) && events[k + 3].Start?
    requires var g := states[k].g; g.workerCancelled || g.parentCancelled || g.err.Some?
    requires var e := events[k + 3]; e.loads && KeepsState(e.entry) && (e.entry.Descriptor? ==> e.opts.concurrency > 1)
    ensures var s := states[k + 4];
      && s.Up? && s.g.chunks == states[k].g.chunks && s.g.file == states[k].g.file
      && s.g.tracker == Sum(Down1, states[k].g.chunks)
      && forall c: nat :: c < |s.g.chunks| ==> (c in s.g.jobs <==> !s.g.chunks[c].completed)
  {
    FinalSaveAccepted(env, states, events, k);
    assert Next(env, states[k], events[k], states[k + 1]);
    assert Next(env, states[k + 1], Return, states[k + 2]);
    assert Next(env, states[k + 2], Finish(false), states[k + 3]);
    assert Next(env, states[k + 3], events[k + 3], states[k + 4]);
    UnfinishedFacts(states[k].g.chunks, 0);
    hide Chain, Resumable, Snapshot, Unfinished;
  }

  /** Success: the checkpoint of a run that returned nil is removed, a single stream by name included, so the next run
      cannot resume from it. */
  lemma SuccessThenFresh(env: Env, states: seq<State>, events: seq<Event>, k: nat)
    requires Chain(env, states, events) && k + 1 < |events| && events[k] == Finish(true) && events[k + 1].Start?
    requires var s := states[k];
      || (s.Up? && s.g.hasState && s.phase == Returned(true))
      || (s.Streaming? && s.entry == Named && s.verdict == Some(true))
    ensures states[k + 1].Down? && CellOf(states[k + 1]) == None && !Accepts(env, states[k + 1].cell, events[k + 1])
  {
    assert Next(env, states[k], events[k], states[k + 1]);
    hide Chain, Resumable;
  }

  /** Which kind of run a start begins: with a concurrency of at least 2 always a multi-part one; otherwise the descriptor
      is streamed into, a file by name is unless the run resumes, and `DownloadToFile` never is. A stream begins with an
      empty file, and if the file cannot be emptied no run begins. */
  lemma KindOfRun(env: Env, s: State, e: Event, s': State)
    requires s.Down? && e.Start? && Next(env, s, e, s')
    ensures 2 <= e.opts.concurrency ==> s'.Up?
    ensures e.opts.concurrency < 2 ==>
      match e.entry
      case Descriptor(_) => !s'.Up?
      case Named => s'.Up? <==> e.loads && s.cell.Some? && Resumable(s.cell.value, env.info)
      case Plain => s'.Up?
    ensures !s'.Up? ==>
      if e.truncates then s'.Streaming? && s'.file == [] && s'.got == 0 && s'.verdict == None else s'.Down?
  {
    hide Resumable, Fresh, Unfinished;
  }
}
