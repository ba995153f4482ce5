/** What a stale checkpoint can do: a run that resumes from it may return nil over a wrong file
    (pkg/engine/fd_sink.go:35-38, 69-100, 264-266). */
module DownloadStale {
  import opened Bytes
  import opened Chunks
  import opened Checkpoints
  import opened Download
  import opened DownloadSafety
  import opened DownloadSuccess
  import W = Worker

  /** The file does not have the source's byte at `p`, nor the zero a gap would be filled with. */
  predicate Lacks(env: Env, file: seq<byte>, p: nat) {
    p < |env.source| && env.source[p] != 0 && (p < |file| ==> file[p] != env.source[p])
  }

  /** The checkpoint claims byte `p`. */
  ghost predicate ClaimsByte(cp: CheckpointVal, p: int)
    requires forall i :: 0 <= i < |cp.chunks| ==> cp.chunks[i].Some?
  {
    exists c :: 0 <= c < |cp.chunks| && cp.chunks[c].value.start <= p < cp.chunks[c].value.start + cp.chunks[c].value.downloaded
  }

  lemma {:induction false} SparedStep(env: Env, s: State, e: Event, s': State, p: nat)
    requires env.Valid() && s.Up? && s'.Up? && Next(env, s, e, s') && Spares(s, e, p) && Lacks(env, s.g.file, p)
    ensures Lacks(env, s'.g.file, p)
  {
    if e.Step? {
      SparedMove(env, s.maxRetries, s.g, e.w, s.workers[e.w], e.act, p);
      hide Move, Lacks;
    } else {
      hide Snapshot;
    }
  }

  lemma {:induction false} SparedMove(env: Env, maxRetries: int, g: Shared, w: nat, pc: Pc, a: Act, p: nat)
    requires Move(env, maxRetries, g, w, pc, a).Moved? && Lacks(env, g.file, p)
    requires pc.Reading? && a.Read? ==> !(pc.base + pc.got <= p < pc.base + pc.got + a.n)
    ensures Lacks(env, Move(env, maxRetries, g, w, pc, a).g.file, p)
  {
    hide MoveWire, MoveBooks, MoveSync, MoveControl, Lacks;
    if OnWire(pc) {
      SparedRead(env, g, pc, a, p);
    } else {
      OthersWriteNothing(env, maxRetries, g, w, pc, a);
    }
  }

  lemma {:induction false} OthersWriteNothing(env: Env, maxRetries: int, g: Shared, w: nat, pc: Pc, a: Act)
    requires !OnWire(pc) && Move(env, maxRetries, g, w, pc, a).Moved?
    ensures Move(env, maxRetries, g, w, pc, a).g.file == g.file
  {
    hide MoveWire, AfterTurn, AfterFault;
  }

  /** Only the copy loop writes to the file. */
  lemma {:induction false} SparedRead(env: Env, g: Shared, pc: Pc, a: Act, p: nat)
    requires InRange(g, pc) && OnWire(pc) && MoveWire(env, g, pc, a).Moved? && Lacks(env, g.file, p)
    requires pc.Reading? && a.Read? ==> !(pc.base + pc.got <= p < pc.base + pc.got + a.n)
    ensures Lacks(env, MoveWire(env, g, pc, a).g.file, p)
  {
    if pc.Reading? && a.n > 0 {
      WriteAtFacts(g.file, pc.base + pc.got, env.source[pc.from + pc.got..pc.from + pc.got + Min(a.took, a.n)]);
    }
    hide WriteAt, W.Judge, AfterTurn;
  }

  lemma {:induction false} SparedRun(env: Env, s: State, states: seq<State>, events: seq<Event>, p: nat, k: nat)
    requires env.Valid() && Continues(env, s, states, events) && k < |states| && Lacks(env, s.g.file, p)
    requires forall i :: 0 <= i < |events| ==> Spares(states[i], events[i], p)
    ensures Lacks(env, states[k].g.file, p)
  {
    hide Next, Spares, Lacks;
    if k > 0 {
      SparedRun(env, s, states, events, p, k - 1);
      SparedStep(env, states[k - 1], events[k - 1], states[k], p);
    }
  }

  /** Whatever the file holds: a run that accepts a checkpoint without a full unflagged chunk can return nil, and
      the file still lacks every byte the checkpoint claimed and the file lacked. */
  lemma {:induction false} AcceptedIsTrusted(env: Env, file: seq<byte>, cell: Option<CheckpointVal>, e: Event, p: nat)
    returns (states: seq<State>, events: seq<Event>)
    requires env.Valid() && e.Start? && Accepts(env, cell, e) && 0 <= e.opts.maxRetries
    requires NoneFull(Values(cell.value.chunks)) && ClaimsByte(cell.value, p) && Lacks(env, file, p)
    ensures Continues(env, Begin(env, file, cell, e), states, events)
    ensures var last := states[|states| - 1]; last.Up? && last.phase == Returned(true) && Lacks(env, FileOf(last), p)
  {
    var s, t := Begin(env, file, cell, e), Ideal(env, cell, e);
    IdealTwin(env, file, cell, e);
    assert s.g.chunks == t.g.chunks == Values(cell.value.chunks) && s.g.file == file;
    assert Claimed(t.g, p) by {
      var c :| 0 <= c < |cell.value.chunks|
        && cell.value.chunks[c].value.start <= p < cell.value.chunks[c].value.start + cell.value.chunks[c].value.downloaded;
      assert t.g.chunks[c] == cell.value.chunks[c].value;
    }
    hide Begin, Ideal, Inv, Healthy, Claimed, Spares, Twins, Lacks, Resumable, ClaimsByte;
    var ideal;
    ideal, events := Drive(env, t);
    states := TwinContinues(env, t, s, ideal, events);
    var last := |states| - 1;
    TwinUp(ideal[last], states[last]);
    forall i | 0 <= i < |events| ensures Spares(states[i], events[i], p) {
    }
    SparedRun(env, s, states, events, p, last);
  }

  lemma {:induction false} RunCons(env: Env, s: State, e: Event, states: seq<State>, events: seq<Event>)
    requires env.Valid() && Run(env, states, events) && Next(env, s, e, states[0])
    ensures Run(env, [s] + states, [e] + events)
  {
    hide Next;
    var all, evs := [s] + states, [e] + events;
    forall i | 0 <= i < |evs| ensures Next(env, all[i], evs[i], all[i + 1]) {
      if i > 0 {
        assert all[i] == states[i - 1] && evs[i] == events[i - 1] && all[i + 1] == states[i];
      }
    }
  }

  /** Why the guard is needed: behind any start that breaks it, if only one of the claimed bytes is not zero and no
      chunk is stuck, a kill and one more start lead to a nil return over a file that is not the source. */
  lemma UnguardedGoesWrong(env: Env, file: seq<byte>, cell: Option<CheckpointVal>, e: Event, p: nat)
    returns (states: seq<State>, events: seq<Event>)
    requires env.Valid() && e.Start? && !Guarded(env, cell, e)
    requires NoneFull(Values(cell.value.chunks)) && ClaimsByte(cell.value, p) && p < |env.source| && env.source[p] != 0
    ensures Run(env, states, events) && states[0] == Down(file, cell) && events != [] && events[0] == e
    ensures var last := states[|states| - 1]; last.Up? && last.phase == Returned(true) && FileOf(last) != env.source
  {
    var s := Begin(env, file, cell, e);
    var down := Down(FileOf(s), CellOf(s));
    var again := Start(Descriptor(true), Options(4, 0, 0), true, true, true);
    assert Accepts(env, cell, again);
    states, events := AcceptedIsTrusted(env, FileOf(s), cell, again, p);
    var last := states[|states| - 1];
    assert Lacks(env, FileOf(last), p);
    assert Next(env, down, again, states[0]);
    assert !s.Down? ==> Next(env, s, Kill, down);
    assert Next(env, Down(file, cell), e, s);
    hide Begin, Guarded, Accepts, Next, Lacks, Resumable, NoneFull, ClaimsByte;
    RunCons(env, down, again, states, events);
    states, events := [down] + states, [again] + events;
    if !s.Down? {
      RunCons(env, s, Kill, states, events);
      states, events := [s] + states, [Kill] + events;
    }
    RunCons(env, Down(file, cell), e, states, events);
    states, events := [Down(file, cell)] + states, [e] + events;
    assert FileOf(last) != env.source;
  }
}
