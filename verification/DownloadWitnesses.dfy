/** The findings about downloads happen: for every resource, chains that end in a full chunk without its flag, by
    cancellation and by an overlong body, one that returns nil after a rollback, and single streams that return nil
    wherever their body is cut (pkg/engine/worker.go:65-68, 96-99, 153-191, pkg/engine/fd_sink.go:309-330). */
module DownloadWitnesses {
  import opened Bytes
  import opened Chunks
  import opened Checkpoints
  import opened Download
  import opened DownloadSafety
  import opened DownloadLiveness
  import opened DownloadSuccess
  import opened DownloadTheorems
  import DownloadResumes
  import W = Worker

  // ------------------------------------------- one worker on its own

  /** Worker `w` takes steps under `acts`, nobody else moves. */
  ghost predicate Solo(env: Env, maxRetries: int, w: nat, g: Shared, pc: Pc, acts: seq<Act>, g': Shared, pc': Pc)
    decreases |acts|
  {
    if acts == [] then g' == g && pc' == pc
    else
      var m := Move(env, maxRetries, g, w, pc, acts[0]);
      m.Moved? && Solo(env, maxRetries, w, m.g, m.pc, acts[1..], g', pc')
  }

  lemma {:induction false} SoloCons(env: Env, maxRetries: int, w: nat, g: Shared, pc: Pc, a: Act, h: Shared, pd: Pc, acts: seq<Act>, g': Shared, pc': Pc)
    requires Move(env, maxRetries, g, w, pc, a) == Moved(h, pd) && Solo(env, maxRetries, w, h, pd, acts, g', pc')
    ensures Solo(env, maxRetries, w, g, pc, [a] + acts, g', pc')
  {
    assert ([a] + acts)[1..] == acts;
  }

  lemma {:induction false} SoloAppend(env: Env, maxRetries: int, w: nat, g: Shared, pc: Pc, a: seq<Act>, h: Shared, pd: Pc, b: seq<Act>, g': Shared, pc': Pc)
    requires Solo(env, maxRetries, w, g, pc, a, h, pd) && Solo(env, maxRetries, w, h, pd, b, g', pc')
    ensures Solo(env, maxRetries, w, g, pc, a + b, g', pc')
    decreases |a|
  {
    hide Move;
    if a == [] {
      assert a + b == b;
    } else {
      var m := Move(env, maxRetries, g, w, pc, a[0]);
      assert (a + b)[0] == a[0] && (a + b)[1..] == a[1..] + b;
      SoloAppend(env, maxRetries, w, m.g, m.pc, a[1..], h, pd, b, g', pc');
    }
  }

  /** A chain of states under events, the last of them given. */
  ghost predicate Reaches(env: Env, states: seq<State>, events: seq<Event>, s: State, t: State) {
    Run(env, states, events) && states[0] == s && states[|states| - 1] == t && |events| > 0
    && forall i :: 0 < i < |events| ==> !events[i].Start?
  }

  lemma {:induction false} ReachSnoc(env: Env, states: seq<State>, events: seq<Event>, s: State, t: State, e: Event, u: State)
    requires env.Valid() && Reaches(env, states, events, s, t) && Next(env, t, e, u) && !e.Start?
    ensures Reaches(env, states + [u], events + [e], s, u)
  {
    hide Next;
    var all, evs := states + [u], events + [e];
    forall i | 0 <= i < |evs| ensures Next(env, all[i], evs[i], all[i + 1]) {
      if i < |events| {
        assert all[i] == states[i] && all[i + 1] == states[i + 1] && evs[i] == events[i];
      }
    }
  }

  lemma {:induction false} ReachSolo(env: Env, states: seq<State>, events: seq<Event>, s: State, t: State, w: nat, acts: seq<Act>, g': Shared, pc': Pc)
    returns (states': seq<State>, events': seq<Event>)
    requires env.Valid() && Reaches(env, states, events, s, t)
    requires t.Up? && t.phase == Working && w < |t.workers| && Solo(env, t.maxRetries, w, t.g, t.workers[w], acts, g', pc')
    ensures Reaches(env, states', events', s, t.(g := g', workers := t.workers[w := pc']))
    decreases |acts|
  {
    hide Reaches, Move;
    if acts == [] {
      states', events' := states, events;
      assert t.workers[w := pc'] == t.workers;
    } else {
      var m := Move(env, t.maxRetries, t.g, w, t.workers[w], acts[0]);
      var u := t.(g := m.g, workers := t.workers[w := m.pc]);
      assert Next(env, t, Step(w, acts[0]), u);
      ReachSnoc(env, states, events, s, t, Step(w, acts[0]), u);
      states', events' := ReachSolo(env, states + [u], events + [Step(w, acts[0])], s, u, w, acts[1..], g', pc');
      assert u.workers[w := pc'] == t.workers[w := pc'];
    }
  }

  // --------------------------------------------------- common stretches

  /** A server that grants exactly what was asked for. */
  function Grant(req: int, end: int): Act { Answer(W.Reply(206, Some(W.ContentRange(req, end, 0)))) }

  /** From the head of the retry loop to the first read of an attempt, on a chunk that nothing is missing but `req` on. */
  lemma {:induction false} ToReading(env: Env, maxRetries: int, w: nat, g: Shared, c: nat, k: nat, from: Pc)
    returns (acts: seq<Act>)
    requires |g.owner| == |g.excess| == |g.chunks| && c < |g.chunks| && !g.workerCancelled && k <= maxRetries
    requires from == Ready(c, k)
    requires var ch := g.chunks[c]; 0 <= ch.start && 0 <= ch.downloaded && ch.start + ch.downloaded <= ch.end
    ensures var req := g.chunks[c].start + g.chunks[c].downloaded;
      Solo(env, maxRetries, w, g, from, acts, g, Reading(c, k, req, req, req, 0))
  {
    var ch := g.chunks[c];
    var req := ch.start + ch.downloaded;
    var a := Grant(req, ch.end);
    assert Move(env, maxRetries, g, w, Ready(c, k), Go) == Moved(g, Opened(c, k, req));
    assert Move(env, maxRetries, g, w, Opened(c, k, req), Go) == Moved(g, Asked(c, k, req, req));
    assert Move(env, maxRetries, g, w, Asked(c, k, req, req), a) == Moved(g, Copying(c, k, req, req, req, 0));
    assert Move(env, maxRetries, g, w, Copying(c, k, req, req, req, 0), Go) == Moved(g, Reading(c, k, req, req, req, 0));
    hide Move;
    var end := Reading(c, k, req, req, req, 0);
    SoloCons(env, maxRetries, w, g, Copying(c, k, req, req, req, 0), Go, g, end, [], g, end);
    SoloCons(env, maxRetries, w, g, Asked(c, k, req, req), a, g, Copying(c, k, req, req, req, 0), [Go] + [], g, end);
    SoloCons(env, maxRetries, w, g, Opened(c, k, req), Go, g, Asked(c, k, req, req), [a] + ([Go] + []), g, end);
    SoloCons(env, maxRetries, w, g, Ready(c, k), Go, g, Opened(c, k, req), [Go] + ([a] + ([Go] + [])), g, end);
    acts := [Go] + ([Go] + ([a] + ([Go] + [])));
  }

  /** What a worker that starts and takes chunk 0 makes of the shared state. */
  function Begun(g: Shared, w: nat): Shared
    requires |g.owner| > 0 && g.jobs != []
  {
    g.(active := g.active + 1, jobs := g.jobs[1..], owner := g.owner[0 := Some(w)])
  }

  /** From the spawn to the writer of the first attempt on chunk 0. */
  lemma {:induction false} ToReady(env: Env, maxRetries: int, w: nat, g: Shared) returns (acts: seq<Act>)
    requires |g.owner| == |g.excess| == |g.chunks| > 0 && g.jobs != [] && g.jobs[0] == 0 && !g.workerCancelled && 0 <= maxRetries
    ensures Solo(env, maxRetries, w, g, Starting, acts, Begun(g, w), Ready(0, 0))
  {
    var g1, g2 := g.(active := g.active + 1), Begun(g, w);
    assert Move(env, maxRetries, g, w, Starting, Go) == Moved(g1, Idle);
    assert Move(env, maxRetries, g1, w, Idle, Go) == Moved(g2, Took(0));
    assert Move(env, maxRetries, g2, w, Took(0), Go) == Moved(g2, Looping(0, 0));
    assert Move(env, maxRetries, g2, w, Looping(0, 0), Go) == Moved(g2, Ready(0, 0));
    hide Move;
    SoloCons(env, maxRetries, w, g2, Looping(0, 0), Go, g2, Ready(0, 0), [], g2, Ready(0, 0));
    SoloCons(env, maxRetries, w, g2, Took(0), Go, g2, Looping(0, 0), [Go] + [], g2, Ready(0, 0));
    SoloCons(env, maxRetries, w, g1, Idle, Go, g2, Took(0), [Go] + ([Go] + []), g2, Ready(0, 0));
    SoloCons(env, maxRetries, w, g, Starting, Go, g1, Idle, [Go] + ([Go] + ([Go] + [])), g2, Ready(0, 0));
    acts := [Go] + ([Go] + ([Go] + ([Go] + [])));
  }

  /** The shared state after the first read of an attempt, of `n` bytes, is written and booked. */
  function ReadOnce(env: Env, g: Shared, c: nat, req: nat, n: nat): Shared
    requires c < |g.chunks| && c < |g.excess| && req + n <= |env.source|
  {
    var ch := g.chunks[c];
    var ch' := Clamped(ch, n + req - ch.start);
    g.(file := WriteAt(g.file, req, env.source[req..req + n]), chunks := g.chunks[c := ch'],
       excess := g.excess[c := g.excess[c] + n - (ch'.downloaded - ch.downloaded)], tracker := g.tracker + n)
  }

  /** ... and where the worker then stands. */
  lemma {:induction false} ToBooked(env: Env, maxRetries: int, w: nat, g: Shared, c: nat, k: nat, req: nat, n: nat, err: W.ReadErr)
    returns (acts: seq<Act>)
    requires |g.owner| == |g.excess| == |g.chunks| && c < |g.chunks| && 0 < n && req + n <= |env.source|
    ensures Solo(env, maxRetries, w, g, Reading(c, k, req, req, req, 0), acts, ReadOnce(env, g, c, req, n), AfterTurn(c, k, req, req, req, n, err, g.chunks[c].end))
  {
    hide WriteAt, Min;
    var a := Read(n, n, false, err);
    var ch := g.chunks[c];
    var ch' := Clamped(ch, n + req - ch.start);
    var g1 := g.(file := WriteAt(g.file, req, env.source[req..req + n]));
    var g2 := g1.(chunks := g.chunks[c := ch'], excess := g.excess[c := g.excess[c] + n - (ch'.downloaded - ch.downloaded)]);
    var g3 := ReadOnce(env, g, c, req, n);
    var end := AfterTurn(c, k, req, req, req, n, err, ch.end);
    MoveReads(env, maxRetries, w, g, c, k, req, n, err);
    assert Move(env, maxRetries, g1, w, Wrote(c, k, req, req, req, 0, n, err), Go) == Moved(g2, Booked(c, k, req, req, req, n, n, err));
    assert Move(env, maxRetries, g2, w, Booked(c, k, req, req, req, n, n, err), Go) == Moved(g3, end);
    hide Move, AfterTurn;
    SoloCons(env, maxRetries, w, g2, Booked(c, k, req, req, req, n, n, err), Go, g3, end, [], g3, end);
    SoloCons(env, maxRetries, w, g1, Wrote(c, k, req, req, req, 0, n, err), Go, g2, Booked(c, k, req, req, req, n, n, err), [Go] + [], g3, end);
    SoloCons(env, maxRetries, w, g, Reading(c, k, req, req, req, 0), a, g1, Wrote(c, k, req, req, req, 0, n, err), [Go] + ([Go] + []), g3, end);
    acts := [a] + ([Go] + ([Go] + []));
  }

  lemma {:induction false} MoveReads(env: Env, maxRetries: int, w: nat, g: Shared, c: nat, k: nat, req: nat, n: nat, err: W.ReadErr)
    requires |g.owner| == |g.excess| == |g.chunks| && c < |g.chunks| && 0 < n && req + n <= |env.source|
    ensures Move(env, maxRetries, g, w, Reading(c, k, req, req, req, 0), Read(n, n, false, err))
         == Moved(g.(file := WriteAt(g.file, req, env.source[req..req + n])), Wrote(c, k, req, req, req, 0, n, err))
  {
    hide WriteAt;
  }

  /** From a failed attempt with `got` booked bytes back to the head of the retry loop. */
  lemma {:induction false} ToRetry(env: Env, maxRetries: int, w: nat, g: Shared, c: nat, k: nat, got: nat, f: W.Fault)
    returns (acts: seq<Act>)
    requires |g.owner| == |g.excess| == |g.chunks| && c < |g.chunks| && 0 < got <= g.tracker && !W.Fatal(f)
    ensures Solo(env, maxRetries, w, g, Failed(c, k, got, f), acts, g.(tracker := g.tracker - got, rolled := g.rolled + got), Looping(c, k + 1))
  {
    var h := g.(tracker := g.tracker - got, rolled := g.rolled + got);
    assert Move(env, maxRetries, g, w, Failed(c, k, got, f), Go) == Moved(h, Rolled(c, k, f));
    assert Move(env, maxRetries, h, w, Rolled(c, k, f), Go) == Moved(h, Looping(c, k + 1));
    hide Move;
    SoloCons(env, maxRetries, w, h, Rolled(c, k, f), Go, h, Looping(c, k + 1), [], h, Looping(c, k + 1));
    SoloCons(env, maxRetries, w, g, Failed(c, k, got, f), Go, h, Rolled(c, k, f), [Go] + [], h, Looping(c, k + 1));
    acts := [Go] + ([Go] + []);
  }

  /** A call that is given up: its worker records the error, cancels the others and exits. */
  lemma {:induction false} ToExit(env: Env, maxRetries: int, w: nat, g: Shared, c: nat, k: nat)
    returns (acts: seq<Act>, f: W.Fault)
    requires |g.owner| == |g.excess| == |g.chunks| && c < |g.chunks| && g.err == None && (k > maxRetries || g.workerCancelled)
    ensures Solo(env, maxRetries, w, g, Looping(c, k), acts, g.(err := Some(f), workerCancelled := true, active := g.active - 1), Exited)
  {
    f := if k > maxRetries then W.Exhausted else W.Cancelled;
    var g1 := g.(err := Some(f));
    var g2 := g1.(workerCancelled := true);
    var g3 := g2.(active := g.active - 1);
    assert Move(env, maxRetries, g, w, Looping(c, k), Go) == Moved(g, Erring(c, f));
    assert Move(env, maxRetries, g, w, Erring(c, f), Go) == Moved(g1, Recorded);
    assert Move(env, maxRetries, g1, w, Recorded, Go) == Moved(g2, Leaving);
    assert Move(env, maxRetries, g2, w, Leaving, Go) == Moved(g3, Exited);
    hide Move;
    SoloCons(env, maxRetries, w, g2, Leaving, Go, g3, Exited, [], g3, Exited);
    SoloCons(env, maxRetries, w, g1, Recorded, Go, g2, Leaving, [Go] + [], g3, Exited);
    SoloCons(env, maxRetries, w, g, Erring(c, f), Go, g1, Recorded, [Go] + ([Go] + []), g3, Exited);
    SoloCons(env, maxRetries, w, g, Looping(c, k), Go, g, Erring(c, f), [Go] + ([Go] + ([Go] + [])), g3, Exited);
    acts := [Go] + ([Go] + ([Go] + ([Go] + [])));
  }

  /** A worker that finds the run cancelled when it takes its first chunk. */
  lemma {:induction false} ToGiveUp(env: Env, maxRetries: int, w: nat, g: Shared) returns (acts: seq<Act>, g': Shared)
    requires |g.owner| == |g.excess| == |g.chunks| && g.workerCancelled && g.jobs != [] && g.jobs[0] < |g.chunks|
    ensures Solo(env, maxRetries, w, g, Starting, acts, g', Exited)
    ensures g' == g.(jobs := g.jobs[1..], owner := g.owner[g.jobs[0] := Some(w)])
  {
    var c := g.jobs[0];
    var g1 := g.(active := g.active + 1);
    var g2 := g1.(jobs := g.jobs[1..], owner := g.owner[c := Some(w)]);
    g' := g2.(active := g.active);
    assert Move(env, maxRetries, g, w, Starting, Go) == Moved(g1, Idle);
    assert Move(env, maxRetries, g1, w, Idle, Go) == Moved(g2, Took(c));
    assert Move(env, maxRetries, g2, w, Took(c), Go) == Moved(g2, Leaving);
    assert Move(env, maxRetries, g2, w, Leaving, Go) == Moved(g', Exited);
    hide Move;
    SoloCons(env, maxRetries, w, g2, Leaving, Go, g', Exited, [], g', Exited);
    SoloCons(env, maxRetries, w, g2, Took(c), Go, g2, Leaving, [Go] + [], g', Exited);
    SoloCons(env, maxRetries, w, g1, Idle, Go, g2, Took(c), [Go] + ([Go] + []), g', Exited);
    SoloCons(env, maxRetries, w, g, Starting, Go, g1, Idle, [Go] + ([Go] + ([Go] + [])), g', Exited);
    acts := [Go] + ([Go] + ([Go] + ([Go] + [])));
  }

  // ------------------------------------------------------- the starts

  function Untouched(i: int, start: int, end: int): ChunkVal { ChunkVal(i, start, end, 0, false) }

  lemma {:induction false} OneChunk(n: nat)
    requires 0 < n
    ensures EffectiveSize(n, n, 4) == n && Layout(n, n) == [Untouched(0, 0, n - 1)]
  {
    assert CeilDiv(n, n) == 1;
  }

  lemma {:induction false} TwoChunks(n: nat)
    requires 1 < n
    ensures EffectiveSize(n, n - 1, 4) == n - 1
    ensures Layout(n, n - 1) == [Untouched(0, 0, n - 2), Untouched(1, n - 1, n - 1)]
  {
    var q := CeilDiv(n, n - 1);
    if q <= 1 {
      MulMonotone(q, 1, n - 1);
    } else if q >= 3 {
      MulMonotone(2, q - 1, n - 1);
    }
  }

  /** A fresh run over chunks nobody has touched. */
  lemma {:induction false} FreshStart(env: Env, e: Event, chunks: seq<ChunkVal>) returns (s: State)
    requires env.Valid() && e.Start? && InParts(env, None, e)
    requires chunks == Layout(|env.source|, EffectiveSize(|env.source|, e.opts.chunkSize, e.opts.concurrency)) && |chunks| in {1, 2}
    ensures s == Begin(env, [], None, e) && s.Up? && s.phase == Working && s.maxRetries == e.opts.maxRetries
    ensures s.workers == seq(WorkerCount(e.opts.concurrency, |chunks|), i => Starting)
    ensures s.g.chunks == chunks && |s.g.owner| == |s.g.excess| == |chunks|
    ensures s.g.jobs == (if |chunks| == 1 then [0] else [0, 1])
    ensures !s.g.workerCancelled && !s.g.parentCancelled && s.g.err == None && s.g.lock == None
    ensures s.g.tracker == 0 && s.g.rolled == 0 && s.g.hasState == KeepsState(e.entry)
    ensures Reaches(env, [Down([], None), s], [e], Down([], None), s)
  {
    s := Begin(env, [], None, e);
    forall i | 0 <= i < |chunks| ensures !chunks[i].completed && chunks[i].downloaded == 0 {
      assert chunks[i] == LayoutAt(|env.source|, EffectiveSize(|env.source|, e.opts.chunkSize, e.opts.concurrency), i);
    }
    hide Layout;
    assert Unfinished(chunks, 2) == [];
    assert Unfinished(chunks, 1) == if |chunks| == 1 then [] else [1];
    SumZero(Down1, chunks);
    assert Next(env, Down([], None), e, s);
  }

  /** Such a chain breaks no guard. */
  lemma {:induction false} ReachesChain(env: Env, states: seq<State>, events: seq<Event>, t: State)
    requires env.Valid() && Reaches(env, states, events, Down([], None), t)
    ensures Chain(env, states, events)
  {
    hide Next;
    assert !Claims(env, None);
    assert CellTrue(env, [], None);
    assert GuardedEvent(env, states[0], events[0]);
    forall i | 0 <= i < |events| ensures GuardedEvent(env, states[i], events[i]) {
    }
  }

  // ------------------------------------------------------- the findings

  /** The first attempt on chunk 0 by worker 0, up to the end of a read of `n` bytes from byte 0. */
  lemma {:induction false} OneAttempt(env: Env, states: seq<State>, events: seq<Event>, s0: State, s: State, n: nat, err: W.ReadErr)
    returns (states': seq<State>, events': seq<Event>, t: State)
    requires env.Valid() && Reaches(env, states, events, s0, s) && s.Up? && s.phase == Working && 0 <= s.maxRetries
    requires s.workers != [] && s.workers[0] == Starting
    requires var g := s.g; |g.owner| == |g.excess| == |g.chunks| > 0 && g.jobs != [] && g.jobs[0] == 0 && !g.workerCancelled
    requires var ch := s.g.chunks[0]; ch.start == 0 && ch.downloaded == 0 && 0 <= ch.end
    requires 0 < n <= |env.source|
    ensures Reaches(env, states', events', s0, t)
    ensures t == s.(g := ReadOnce(env, Begun(s.g, 0), 0, 0, n), workers := s.workers[0 := AfterTurn(0, 0, 0, 0, 0, n, err, s.g.chunks[0].end)])
  {
    hide Solo, Reaches, AfterTurn, ReadOnce;
    var g, h := s.g, Begun(s.g, 0);
    var a := ToReady(env, s.maxRetries, 0, g);
    var b := ToReading(env, s.maxRetries, 0, h, 0, 0, Ready(0, 0));
    var c := ToBooked(env, s.maxRetries, 0, h, 0, 0, 0, n, err);
    var g', pc' := ReadOnce(env, h, 0, 0, n), AfterTurn(0, 0, 0, 0, 0, n, err, g.chunks[0].end);
    SoloAppend(env, s.maxRetries, 0, h, Ready(0, 0), b, h, Reading(0, 0, 0, 0, 0, 0), c, g', pc');
    SoloAppend(env, s.maxRetries, 0, g, Starting, a, h, Ready(0, 0), b + c, g', pc');
    states', events' := ReachSolo(env, states, events, s0, s, 0, a + (b + c), g', pc');
    t := s.(g := g', workers := s.workers[0 := pc']);
  }

  lemma {:induction false} CancelBoth(env: Env, states: seq<State>, events: seq<Event>, s0: State, t: State, u1: State, u2: State)
    returns (states': seq<State>, events': seq<Event>)
    requires env.Valid() && Reaches(env, states, events, s0, t) && t.Up?
    requires u1 == t.(g := t.g.(parentCancelled := true)) && u2 == u1.(g := u1.g.(workerCancelled := true))
    ensures Reaches(env, states', events', s0, u2)
  {
    assert Next(env, t, CancelParent, u1) && Next(env, u1, Propagate, u2);
    hide Next, Reaches;
    ReachSnoc(env, states, events, s0, t, CancelParent, u1);
    ReachSnoc(env, states + [u1], events + [CancelParent], s0, u1, Propagate, u2);
    states', events' := states + [u1] + [u2], events + [CancelParent] + [Propagate];
  }

  /** Worker 0 goes on as given to the head of the retry loop, gives up, and exits. */
  lemma {:induction false} GivesUp(env: Env, states: seq<State>, events: seq<Event>, s0: State, s: State, w: nat, acts: seq<Act>, g: Shared, c: nat, k: nat)
    returns (states': seq<State>, events': seq<Event>, t: State)
    requires env.Valid() && Reaches(env, states, events, s0, s) && s.Up? && s.phase == Working && w < |s.workers|
    requires Solo(env, s.maxRetries, w, s.g, s.workers[w], acts, g, Looping(c, k))
    requires |g.owner| == |g.excess| == |g.chunks| && c < |g.chunks| && g.err == None && (k > s.maxRetries || g.workerCancelled)
    ensures Reaches(env, states', events', s0, t)
    ensures t.Up? && t.phase == Working && t.maxRetries == s.maxRetries && t.workers == s.workers[w := Exited]
    ensures t.g.err.Some? && t.g == g.(err := t.g.err, workerCancelled := true, active := g.active - 1)
  {
    hide Solo, Reaches;
    var more, f := ToExit(env, s.maxRetries, w, g, c, k);
    var g' := g.(err := Some(f), workerCancelled := true, active := g.active - 1);
    SoloAppend(env, s.maxRetries, w, s.g, s.workers[w], acts, g, Looping(c, k), more, g', Exited);
    states', events' := ReachSolo(env, states, events, s0, s, w, acts + more, g', Exited);
    t := s.(g := g', workers := s.workers[w := Exited]);
  }

  /** With every worker gone, the final save keeps a full chunk. */
  lemma {:induction false} SavesFull(env: Env, states: seq<State>, events: seq<Event>, t: State, c: nat)
    returns (states': seq<State>, events': seq<Event>)
    requires env.Valid() && Reaches(env, states, events, Down([], None), t) && t.Up? && t.phase == Working && AllExited(t.workers)
    requires t.g.hasState && t.g.workerCancelled && c < |t.g.chunks| && Full(t.g.chunks[c])
    ensures Chain(env, states', events') && states'[0] == Down([], None)
    ensures var last := states'[|states'| - 1];
      DownloadResumes.Blocked(last, c) && last.Up? && last.g.parentCancelled == t.g.parentCancelled
  {
    ReachesChain(env, states, events, t);
    ChainInv(env, states, events, |states| - 1);
    FinalSnapshotResumable(env, t.g);
    var u := t.(g := t.g.(mem := Snapshot(t.g), cell := Some(Snapshot(t.g))), phase := Synced);
    hide Inv, Snapshot, Resumable;
    assert Next(env, t, FinalSync(true), u);
    ReachSnoc(env, states, events, Down([], None), t, FinalSync(true), u);
    states', events' := states + [u], events + [FinalSync(true)];
    ReachesChain(env, states', events', u);
    assert states'[|events|] == t && states'[|events| + 1] == u && events'[|events|] == FinalSync(true);
    hide Chain, Next, Full, DownloadResumes.Blocked;
    DownloadResumes.SaveBlocks(env, states', events', |events|, c);
  }

  /** One worker has read and booked the only chunk to its last byte, and the run is cancelled. */
  lemma {:induction false} CancelledFull(env: Env) returns (states: seq<State>, events: seq<Event>, u: State)
    requires env.Valid()
    ensures Reaches(env, states, events, Down([], None), u) && u.Up? && u.phase == Working && u.maxRetries == 0
    ensures u.workers == [Copying(0, 0, 0, 0, 0, |env.source|)]
    ensures var g := u.g; |g.owner| == |g.excess| == |g.chunks| == 1 && g.tracker == |env.source| && g.err == None
    ensures u.g.workerCancelled && u.g.hasState && Full(u.g.chunks[0])
  {
    hide Begin, Reaches, Layout, Move;
    var n := |env.source|;
    OneChunk(n);
    var e := Start(Descriptor(true), Options(4, n, 0), true, true, true);
    var s := FreshStart(env, e, [Untouched(0, 0, n - 1)]);
    assert s.workers == [Starting];
    var t: State;
    states, events, t := OneAttempt(env, [Down([], None), s], [e], Down([], None), s, n, W.NoErr);
    var v := t.(g := t.g.(parentCancelled := true));
    u := v.(g := v.g.(workerCancelled := true));
    states, events := CancelBoth(env, states, events, Down([], None), t, v, u);
  }

  /** Cancelled between the last byte and the flag: for every resource there is a chain whose final save leaves a
      full chunk without its flag, after one reply that broke no rule. */
  lemma CancelLeavesFull(env: Env) returns (states: seq<State>, events: seq<Event>)
    requires env.Valid()
    ensures Chain(env, states, events) && states[0] == Down([], None)
    ensures DownloadResumes.Blocked(states[|states| - 1], 0)
  {
    hide Begin, Reaches, Full, DownloadResumes.Blocked, Chain;
    var u: State;
    states, events, u := CancelledFull(env);
    var n, g := |env.source|, u.g;
    var h := g.(tracker := g.tracker - n, rolled := g.rolled + n);
    assert Move(env, 0, g, 0, u.workers[0], Go) == Moved(g, Failed(0, 0, n, W.Cancelled));
    hide Move;
    var more := ToRetry(env, 0, 0, g, 0, 0, n, W.Cancelled);
    SoloCons(env, 0, 0, g, u.workers[0], Go, g, Failed(0, 0, n, W.Cancelled), more, h, Looping(0, 1));
    hide Solo;
    var v: State;
    states, events, v := GivesUp(env, states, events, Down([], None), u, 0, [Go] + more, h, 0, 1);
    states, events := SavesFull(env, states, events, v, 0);
  }

  /** Worker 0 has booked more than chunk 0 holds, and failed. */
  lemma {:induction false} OverlongFull(env: Env) returns (states: seq<State>, events: seq<Event>, t: State)
    requires env.Valid() && |env.source| > 1
    ensures Reaches(env, states, events, Down([], None), t) && t.Up? && t.phase == Working && t.maxRetries == 0
    ensures t.workers == [Failed(0, 0, |env.source|, W.LengthMismatch), Starting]
    ensures var g := t.g; |g.owner| == |g.excess| == |g.chunks| == 2 && g.tracker == |env.source| && g.err == None && g.jobs == [1]
    ensures !t.g.workerCancelled && !t.g.parentCancelled && t.g.hasState && Full(t.g.chunks[0])
  {
    hide Begin, Reaches, Layout, Move;
    var n := |env.source|;
    TwoChunks(n);
    var e := Start(Descriptor(true), Options(4, n - 1, 0), true, true, true);
    var s := FreshStart(env, e, [Untouched(0, 0, n - 2), Untouched(1, n - 1, n - 1)]);
    assert s.workers == [Starting, Starting];
    states, events, t := OneAttempt(env, [Down([], None), s], [e], Down([], None), s, n, W.Eof);
  }

  /** A body longer than asked: for every resource of at least two bytes there is a chain, without any cancellation
      from outside, whose final save leaves a full chunk without its flag. */
  lemma OverlongLeavesFull(env: Env) returns (states: seq<State>, events: seq<Event>)
    requires env.Valid() && |env.source| > 1
    ensures Chain(env, states, events) && states[0] == Down([], None)
    ensures var last := states[|states| - 1];
      DownloadResumes.Blocked(last, 0) && last.Up? && !last.g.parentCancelled
  {
    hide Begin, Reaches, Full, Move, Solo, DownloadResumes.Blocked, Chain;
    var t: State;
    states, events, t := OverlongFull(env);
    var n, g := |env.source|, t.g;
    var h := g.(tracker := g.tracker - n, rolled := g.rolled + n);
    var acts := ToRetry(env, 0, 0, g, 0, 0, n, W.LengthMismatch);
    var u: State;
    states, events, u := GivesUp(env, states, events, Down([], None), t, 0, acts, h, 0, 1);
    var more, g' := ToGiveUp(env, 0, 1, u.g);
    states, events := ReachSolo(env, states, events, Down([], None), u, 1, more, g', Exited);
    var v := u.(g := g', workers := u.workers[1 := Exited]);
    states, events := SavesFull(env, states, events, v, 0);
  }

  // --------------------------------------------------------- the rollback

  lemma {:induction false} RolledGrows(env: Env, s: State, states: seq<State>, events: seq<Event>, k: nat)
    requires env.Valid() && Continues(env, s, states, events) && k < |states|
    ensures s.g.rolled <= states[k].g.rolled
  {
    if k > 0 {
      RolledGrows(env, s, states, events, k - 1);
      assert Next(env, states[k - 1], events[k - 1], states[k]);
      var t, e := states[k - 1], events[k - 1];
      if e.Step? {
        hide Move;
      } else {
        hide Snapshot;
      }
    }
  }

  lemma {:induction false} ReachContinues(env: Env, states: seq<State>, events: seq<Event>, s: State, t: State, more: seq<State>, rest: seq<Event>, k: nat)
    returns (states': seq<State>, events': seq<Event>)
    requires env.Valid() && Reaches(env, states, events, s, t) && Continues(env, t, more, rest) && k < |more|
    ensures Reaches(env, states', events', s, more[k])
  {
    hide Reaches;
    if k == 0 {
      states', events' := states, events;
    } else {
      states', events' := ReachContinues(env, states, events, s, t, more, rest, k - 1);
      assert Next(env, more[k - 1], rest[k - 1], more[k]) && !rest[k - 1].Start?;
      hide Next;
      ReachSnoc(env, states', events', s, more[k - 1], rest[k - 1], more[k]);
      states', events' := states' + [more[k]], events' + [rest[k - 1]];
    }
  }

  /** The first attempt breaks off after one byte, which is counted. */
  lemma {:induction false} OneByteRead(env: Env) returns (states: seq<State>, events: seq<Event>, t: State)
    requires env.Valid() && |env.source| > 1
    ensures Reaches(env, states, events, Down([], None), t) && t.Up? && t.phase == Working && t.maxRetries == 1
    ensures t.workers == [Failed(0, 0, 1, W.ReadFailed)] && t.g.rolled == 0 && t.g.tracker == 1 && t.g.lock == None
    ensures var g := t.g; |g.owner| == |g.excess| == |g.chunks| == 1 && g.err == None && g.jobs == [] && !g.workerCancelled
    ensures t.g.chunks[0] == Untouched(0, 0, |env.source| - 1).(downloaded := 1)
  {
    hide Begin, Reaches, Layout, Move;
    var n := |env.source|;
    OneChunk(n);
    var e := Start(Descriptor(false), Options(4, n, 1), true, true, true);
    var s := FreshStart(env, e, [Untouched(0, 0, n - 1)]);
    assert s.workers == [Starting];
    states, events, t := OneAttempt(env, [Down([], None), s], [e], Down([], None), s, 1, W.Broken);
  }

  /** ... and taken back, before the second attempt. */
  lemma {:induction false} OneByteRolledBack(env: Env) returns (states: seq<State>, events: seq<Event>, u: State)
    requires env.Valid() && |env.source| > 1
    ensures Reaches(env, states, events, Down([], None), u) && u.Up? && u.phase == Working && u.maxRetries == 1
    ensures u.workers == [Ready(0, 1)] && u.g.rolled == 1 && u.g.lock == None
    ensures var g := u.g; |g.owner| == |g.excess| == |g.chunks| == 1 && g.err == None && g.jobs == [] && !g.workerCancelled
    ensures u.g.chunks[0] == Untouched(0, 0, |env.source| - 1).(downloaded := 1)
  {
    hide Reaches, Move, Solo;
    var t: State;
    states, events, t := OneByteRead(env);
    var g := t.g.(tracker := t.g.tracker - 1, rolled := t.g.rolled + 1);
    var acts := ToRetry(env, 1, 0, t.g, 0, 0, 1, W.ReadFailed);
    var again := ToSecond(env, 0, g, 0);
    SoloAppend(env, 1, 0, t.g, t.workers[0], acts, g, Looping(0, 1), again, g, Ready(0, 1));
    states, events := ReachSolo(env, states, events, Down([], None), t, 0, acts + again, g, Ready(0, 1));
    u := t.(g := g, workers := t.workers[0 := Ready(0, 1)]);
  }

  lemma {:induction false} ToSecond(env: Env, w: nat, g: Shared, c: nat) returns (acts: seq<Act>)
    requires |g.owner| == |g.excess| == |g.chunks| && c < |g.chunks| && !g.workerCancelled
    ensures Solo(env, 1, w, g, Looping(c, 1), acts, g, Ready(c, 1))
  {
    assert Move(env, 1, g, w, Looping(c, 1), Go) == Moved(g, Pausing(c, 1));
    assert Move(env, 1, g, w, Pausing(c, 1), Go) == Moved(g, Ready(c, 1));
    hide Move;
    SoloCons(env, 1, w, g, Pausing(c, 1), Go, g, Ready(c, 1), [], g, Ready(c, 1));
    SoloCons(env, 1, w, g, Looping(c, 1), Go, g, Pausing(c, 1), [Go] + [], g, Ready(c, 1));
    acts := [Go] + ([Go] + []);
  }

  /** Rollback undercounts: for every resource of at least two bytes some chain returns nil with bytes rolled back,
      so with a counter short of the length. */
  lemma NilAfterRollback(env: Env) returns (states: seq<State>, events: seq<Event>)
    requires env.Valid() && |env.source| > 1
    ensures Chain(env, states, events)
    ensures var last := states[|states| - 1];
      last.Up? && last.phase == Returned(true) && last.g.rolled > 0 && last.g.tracker < |env.source|
  {
    hide Reaches, Begin;
    var u: State;
    states, events, u := OneByteRolledBack(env);
    ReachesChain(env, states, events, u);
    ReachesEnd(env, states, events, u);
    ChainInv(env, states, events, |states| - 1);
    assert Healthy(env, u) by {
      hide Inv, Chain;
    }
    hide Healthy, Inv, Chain;
    var more, rest := Drive(env, u);
    var last := |more| - 1;
    RolledGrows(env, u, more, rest, last);
    states, events := ReachContinues(env, states, events, Down([], None), u, more, rest, last);
    ReachesChain(env, states, events, more[last]);
    ReachesEnd(env, states, events, more[last]);
    FinalTracker(env, states, events, |states| - 1);
  }

  lemma ReachesEnd(env: Env, states: seq<State>, events: seq<Event>, t: State)
    requires env.Valid() && Reaches(env, states, events, Down([], None), t)
    ensures |states| == |events| + 1 && states[|states| - 1] == t
  {
  }

  /** A single stream takes any clean end for the whole: for every resource, and every place to cut its body, some
      chain ends in a nil return with just that much of the source in the file. */
  lemma CutStreamReturnsNil(env: Env, opts: Options, cut: nat) returns (states: seq<State>, events: seq<Event>)
    requires env.Valid() && opts.concurrency <= 1 && cut <= |env.source|
    ensures Chain(env, states, events) && states[0] == Down([], None)
    ensures var last := states[|states| - 1];
      last.Streaming? && last.verdict == Some(true) && FileOf(last) == env.source[..cut]
  {
    var e, pour := Start(Descriptor(false), opts, true, true, true), Pour(Read(cut, 0, false, W.Eof));
    var s1 := Begin(env, [], None, e);
    assert s1 == Streaming([], None, 0, e.entry, None);
    var s2 := Poured(env, s1, pour.act);
    PouredFile(env, [], 0, cut);
    states, events := [Down([], None), s1, s2], [e, pour];
    assert Next(env, states[0], e, s1) && Next(env, s1, pour, s2);
    hide Next, Begin, Poured;
    assert Reaches(env, states, events, Down([], None), s2);
    ReachesChain(env, states, events, s2);
  }
}
