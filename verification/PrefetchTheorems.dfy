/** What the prefetch pipeline guarantees over every interleaving: order, bounded memory, progress, and when
    closing it is safe (pkg/engine/stream_sink.go:195-339). */
module PrefetchTheorems {
  import opened Bytes
  import opened Chunks
  import opened Stream
  import opened Prefetch
  import W = Worker
  import Retries

  lemma {:induction false} RunInv(cfg: Config, states: seq<State>, events: seq<Event>, i: nat)
    requires RunFromStart(cfg, states, events) && i < |states|
    ensures Inv(cfg, states[i])
  {
    if i == 0 {
      InitialInv(cfg, states[0]);
    } else {
      RunInv(cfg, states, events, i - 1);
      assert Next(cfg, states[i - 1], events[i - 1], states[i]);
      hide Inv, Next;
      NextInv(cfg, states[i - 1], events[i - 1], states[i]);
    }
  }

  // --------------------------------------------------------------- order

  /** `s'` only adds to what was delivered, read and returned. */
  ghost predicate Grown(s: State, s': State) {
    && s.b.index <= s'.b.index && s.emitted <= s'.emitted
    && forall c :: c in s.delivered ==> c in s'.delivered && s'.delivered[c] == s.delivered[c]
  }

  lemma {:induction false} ReadGrows(cfg: Config, s: State, max: nat)
    ensures Grown(s, ReadStep(cfg, s, max))
    decreases |cfg.chunks| - s.b.index
  {
    match ReadOnce(s.b, |cfg.chunks|, s.cancelled, max)
    case Again(b') => ReadGrows(cfg, s.(b := b', workers := Woke(s.workers)), max);
    case Out(_, _) =>
  }

  lemma {:induction false} NextGrows(cfg: Config, s: State, e: Event, s': State)
    requires Inv(cfg, s) && Next(cfg, s, e, s')
    ensures Grown(s, s')
  {
    hide ReadStep, Woke, SlotOf, W.Retry, Joined, ChunkOk, SlotOk;
    match e
    case Step(w, scripts) =>
      assert WorkerOk(cfg, s, w);
      hide Inv;
    case Read(max) => ReadGrows(cfg, s, max);
    case Cancel =>
    case Announce =>
    case Finish =>
    case Close =>
  }

  lemma {:induction false} RunGrows(cfg: Config, states: seq<State>, events: seq<Event>, i: nat, j: nat)
    requires RunFromStart(cfg, states, events) && i <= j < |states|
    ensures Grown(states[i], states[j])
    decreases j
  {
    if i < j {
      RunGrows(cfg, states, events, i, j - 1);
      RunInv(cfg, states, events, j - 1);
      assert Next(cfg, states[j - 1], events[j - 1], states[j]);
      hide Inv, Next, Grown;
      NextGrows(cfg, states[j - 1], events[j - 1], states[j]);
    } else {
      assert forall c :: c in states[i].delivered ==> states[i].delivered[c] == states[j].delivered[c];
    }
  }

  /** The stream is in order at every point, whatever order workers deliver in: what `Read` has returned, and
      what it holds unread, is slot 0, slot 1, ... up to the current index, each slot used once. Slots once
      delivered never change, bytes once returned are never taken back. EOF before `Close` comes only when every
      chunk was delivered without error and all of it has been returned. */
  lemma StreamInOrder(cfg: Config, states: seq<State>, events: seq<Event>, i: nat, j: nat)
    requires RunFromStart(cfg, states, events) && i <= j < |states|
    ensures Grown(states[i], states[j])
    ensures var s := states[j];
      && (if s.closed then s.emitted <= Joined(s.delivered, s.b.index)
          else s.emitted + s.b.buf == Joined(s.delivered, s.b.index))
      && (forall c: nat :: c < s.b.index ==> c in s.delivered && s.delivered[c].fault == None)
      && (s.eof ==> s.b.index == |cfg.chunks| && s.emitted == Joined(s.delivered, |cfg.chunks|))
  {
    RunGrows(cfg, states, events, i, j);
    RunInv(cfg, states, events, j);
    var s := states[j];
    forall c: nat | c < s.b.index ensures c in s.delivered && s.delivered[c].fault == None {
      assert ChunkOk(s, c);
    }
  }

  // -------------------------------------------------------- backpressure

  function Flying(pc: Pc): int { if InFlight(pc) then 1 else 0 }

  function FlyingSet(ws: seq<Pc>): set<nat> {
    if ws == [] then {} else FlyingSet(ws[1..]) + (if InFlight(ws[0]) then {ws[0].c} else {})
  }

  /** Workers that download different chunks are as many as the chunks they download. */
  lemma {:induction false} FlyingCount(ws: seq<Pc>)
    requires forall v, w :: 0 <= v < w < |ws| && InFlight(ws[v]) && InFlight(ws[w]) ==> ws[v].c != ws[w].c
    ensures |FlyingSet(ws)| == Sum(Flying, ws)
    ensures forall c :: c in FlyingSet(ws) ==> exists w :: 0 <= w < |ws| && InFlight(ws[w]) && ws[w].c == c
  {
    if ws != [] {
      FlyingCount(ws[1..]);
      forall c | c in FlyingSet(ws[1..]) ensures exists w :: 1 <= w < |ws| && InFlight(ws[w]) && ws[w].c == c {
        var w :| 0 <= w < |ws[1..]| && InFlight(ws[1..][w]) && ws[1..][w].c == c;
        assert ws[w + 1] == ws[1..][w];
      }
    }
  }

  function Span(lo: nat, n: nat): (r: set<nat>)
    ensures forall c: nat :: c in r <==> lo <= c < lo + n
    ensures |r| == n
  {
    if n == 0 then {} else Span(lo, n - 1) + {lo + n - 1}
  }

  /** Memory stays bounded: the chunks that are downloading, waiting to be stored, or stored unread are all
      different, lie in `[index, index + maxPrefetch)`, and are never more than `maxPrefetch`. */
  lemma Backpressure(cfg: Config, states: seq<State>, events: seq<Event>, k: nat)
    requires RunFromStart(cfg, states, events) && k < |states|
    ensures var s := states[k];
      && (forall w :: 0 <= w < |s.workers| && InFlight(s.workers[w]) ==>
            s.b.index <= s.workers[w].c < s.b.index + cfg.window && s.workers[w].c !in s.b.slots)
      && (forall v, w :: 0 <= v < w < |s.workers| && HasChunk(s.workers[v]) && HasChunk(s.workers[w]) ==> s.workers[v].c != s.workers[w].c)
      && (forall c :: c in s.b.slots ==> s.b.index <= c < s.b.index + cfg.window)
      && Sum(Flying, s.workers) + |s.b.slots| <= cfg.window
  {
    RunInv(cfg, states, events, k);
    var s := states[k];
    forall v, w | 0 <= v < w < |s.workers| && HasChunk(s.workers[v]) && HasChunk(s.workers[w]) ensures s.workers[v].c != s.workers[w].c {
      assert WorkerOk(cfg, s, w) && WorkerOk(cfg, s, v);
    }
    forall w | 0 <= w < |s.workers| && InFlight(s.workers[w])
      ensures s.b.index <= s.workers[w].c < s.b.index + cfg.window && s.workers[w].c !in s.b.slots
    {
      assert WorkerOk(cfg, s, w);
    }
    forall c | c in s.b.slots ensures s.b.index <= c < s.b.index + cfg.window {
      assert SlotOk(cfg, s, c);
    }
    hide Inv, RunFromStart, WorkerOk, SlotOk;
    WindowCount(s.workers, s.b.slots.Keys, s.b.index, cfg.window);
    assert |s.b.slots| == |s.b.slots.Keys|;
  }

  /** Different chunks inside the window, downloading or stored, are no more than the window is wide. */
  lemma {:induction false} WindowCount(ws: seq<Pc>, stored: set<nat>, lo: nat, window: nat)
    requires forall v, w :: 0 <= v < w < |ws| && InFlight(ws[v]) && InFlight(ws[w]) ==> ws[v].c != ws[w].c
    requires forall w :: 0 <= w < |ws| && InFlight(ws[w]) ==> lo <= ws[w].c < lo + window && ws[w].c !in stored
    requires forall c :: c in stored ==> lo <= c < lo + window
    ensures Sum(Flying, ws) + |stored| <= window
  {
    FlyingCount(ws);
    var flying := FlyingSet(ws);
    assert flying !! stored && flying + stored <= Span(lo, window);
    hide FlyingSet, Span;
    SubsetSize(flying + stored, Span(lo, window));
  }

  // ------------------------------------------------------------ progress

  /** Worker `w` is at work on the chunk the reader needs, or free to take it. */
  predicate Serves(s: State, w: nat) {
    w < |s.workers| && ((Held(s.workers[w], s.b.index) && !s.workers[w].Asleep?) || (s.workers[w] == Idle && s.next == s.b.index))
  }

  lemma {:induction false} WaitingServed(cfg: Config, s: State) returns (w: nat)
    requires cfg.Valid() && Inv(cfg, s) && s.reader.Waiting? && !s.closed && !s.cancelled
    ensures Serves(s, w) || (w < |s.workers| && s.workers[w].Failing?)
  {
    var i := s.b.index;
    assert ChunkOk(s, i);
    w := 0;
    if i < s.next {
      w :| 0 <= w < |s.workers| && Held(s.workers[w], i);
      assert WorkerOk(cfg, s, w);
    } else {
      assert WorkerOk(cfg, s, 0);
    }
  }

  /** No deadlock: when `Read` waits and nothing is closed or cancelled, some worker is awake with the chunk
      `Read` needs, or idle with that chunk next in the queue, or about to cancel because its chunk failed. */
  lemma WaitingIsServed(cfg: Config, states: seq<State>, events: seq<Event>, k: nat) returns (w: nat)
    requires RunFromStart(cfg, states, events) && k < |states|
    requires states[k].reader.Waiting? && !states[k].closed && !states[k].cancelled
    ensures Serves(states[k], w) || (w < |states[k].workers| && states[k].workers[w].Failing?)
  {
    RunInv(cfg, states, events, k);
    w := WaitingServed(cfg, states[k]);
  }

  /** No lost wake-up: whoever sleeps has, at that moment, really nothing to do. */
  lemma SleepersAreBlocked(cfg: Config, states: seq<State>, events: seq<Event>, k: nat)
    requires RunFromStart(cfg, states, events) && k < |states|
    ensures var s := states[k];
      && (forall w :: 0 <= w < |s.workers| && s.workers[w].Asleep? ==>
            !s.closed && s.b.index + cfg.window <= s.workers[w].c && (s.cancelled ==> !s.announced))
      && (s.reader.Waiting? ==>
            !s.closed && s.b.index < |cfg.chunks| && s.b.index !in s.b.slots && s.b.buf == [] && (s.cancelled ==> !s.announced))
  {
    RunInv(cfg, states, events, k);
    var s := states[k];
    forall w | 0 <= w < |s.workers| && s.workers[w].Asleep?
      ensures !s.closed && s.b.index + cfg.window <= s.workers[w].c && (s.cancelled ==> !s.announced)
    {
      assert WorkerOk(cfg, s, w);
    }
  }

  /** A step of a run that nobody cancels or closes, whose downloads succeed and whose reads ask for bytes. */
  ghost predicate HealthyNext(cfg: Config, s: State, e: Event, s': State) {
    && Next(cfg, s, e, s') && !e.Cancel? && !e.Close? && (e.Read? ==> 0 < e.max)
    && (e.Step? && s.workers[e.w].Fetching? && s.workers[e.w].c < |cfg.chunks| ==>
          W.Retry(cfg.chunks[s.workers[e.w].c], e.scripts, 0, 0, cfg.maxRetries, []).fault == None)
  }

  ghost predicate Faultless(s: State) {
    && !s.cancelled && !s.panicked
    && (forall c :: c in s.b.slots ==> s.b.slots[c].err == None)
    && (forall w :: 0 <= w < |s.workers| ==> !s.workers[w].Failing? && (s.workers[w].Storing? ==> s.workers[w].out.fault == None))
    && (!s.reader.Outside? ==> 0 < s.reader.max)
  }

  ghost predicate Healthy(cfg: Config, s: State) { Inv(cfg, s) && Faultless(s) }

  lemma {:induction false} ReadFaultless(cfg: Config, s: State, max: nat)
    requires 0 < max && Faultless(s)
    ensures Faultless(ReadStep(cfg, s, max))
    decreases |cfg.chunks| - s.b.index
  {
    match ReadOnce(s.b, |cfg.chunks|, s.cancelled, max)
    case Again(b') => ReadFaultless(cfg, s.(b := b', workers := Woke(s.workers)), max);
    case Out(_, _) =>
  }

  lemma {:induction false} StepFaultless(cfg: Config, s: State, w: nat, scripts: seq<W.Script>, s': State)
    requires Faultless(s) && !s.closed && HealthyNext(cfg, s, Step(w, scripts), s')
    ensures Faultless(s')
  {
    hide W.Retry, ReadStep, DataOf;
  }

  lemma {:induction false} HealthyKept(cfg: Config, s: State, e: Event, s': State)
    requires cfg.Valid() && Healthy(cfg, s) && HealthyNext(cfg, s, e, s')
    ensures Healthy(cfg, s')
  {
    NextInv(cfg, s, e, s');
    assert !s.closed;
    hide Inv, ReadStep, W.Retry;
    match e
    case Step(w, scripts) =>
      hide Faultless;
      StepFaultless(cfg, s, w, scripts, s');
    case Read(max) =>
      ReadFaultless(cfg, s, max);
    case Announce =>
    case Finish =>
  }

  // The measure: work left, bytes left of the current slot, and who is awake.

  function Weight(pc: Pc): int {
    match pc
    case Idle => 1
    case Have(_) => 5
    case Asleep(_) => 5
    case Fetching(_) => 4
    case Storing(_, _) => 3
    case Failing(_) => 1
    case Exited => 0
  }

  function AwakeWorker(pc: Pc): int { if pc.Have? then 1 else 0 }

  function Work(cfg: Config, s: State): int {
    5 * (|cfg.chunks| - s.next) + Sum(Weight, s.workers) + |s.b.slots| + (if s.finished then 0 else 1)
  }

  function Awake(s: State): int { (if s.reader.Waiting? then 0 else 1) + Sum(AwakeWorker, s.workers) }

  ghost predicate Below(cfg: Config, s': State, s: State) {
    || Work(cfg, s') < Work(cfg, s)
    || (Work(cfg, s') == Work(cfg, s) && |s'.b.buf| < |s.b.buf|)
    || (Work(cfg, s') == Work(cfg, s) && |s'.b.buf| == |s.b.buf| && Awake(s') < Awake(s))
  }

  lemma {:induction false} WokeWeight(ws: seq<Pc>)
    ensures Sum(Weight, Woke(ws)) == Sum(Weight, ws)
  {
    if ws != [] {
      assert Woke(ws)[1..] == Woke(ws[1..]);
      WokeWeight(ws[1..]);
    }
  }

  lemma {:induction false} AdvanceWork(cfg: Config, s: State, b': Buffer)
    requires s.b.index in s.b.slots && b'.slots == s.b.slots - {s.b.index}
    ensures Work(cfg, s.(b := b', workers := Woke(s.workers))) == Work(cfg, s) - 1
  {
    WokeWeight(s.workers);
    hide Sum, Woke;
    assert s.b.slots.Keys == b'.slots.Keys + {s.b.index};
    assert |b'.slots| == |b'.slots.Keys| && |s.b.slots| == |s.b.slots.Keys|;
  }

  /** A read moves on to another slot, returns bytes, or finds itself with nothing to do. */
  lemma {:induction false} ReadBelow(cfg: Config, s: State, max: nat)
    requires !s.cancelled && 0 < max && !s.reader.Waiting?
    requires forall c :: c in s.b.slots ==> s.b.slots[c].err == None
    ensures var s' := ReadStep(cfg, s, max);
      Work(cfg, s') <= Work(cfg, s) && (s'.eof || Below(cfg, s', s))
    decreases |cfg.chunks| - s.b.index
  {
    match ReadOnce(s.b, |cfg.chunks|, s.cancelled, max)
    case Again(b') =>
      AdvanceWork(cfg, s, b');
      hide Work, Awake, Woke;
      ReadBelow(cfg, s.(b := b', workers := Woke(s.workers)), max);
    case Out(_, _) =>
  }

  lemma {:induction false} StoreBelow(cfg: Config, s: State, w: nat)
    requires Inv(cfg, s) && !s.closed && w < |s.workers| && s.workers[w].Storing? && s.workers[w].out.fault == None
    ensures Work(cfg, Stored(s, w, s.workers[w].c, s.workers[w].out)) == Work(cfg, s) - 1
  {
    assert WorkerOk(cfg, s, w);
    hide Inv, Woke, SlotOf, Sum;
    var c, slot := s.workers[w].c, SlotOf(s.workers[w].out);
    SumUpdate(Weight, s.workers, w, Idle);
    WokeWeight(s.workers[w := Idle]);
    assert s.b.slots[c := slot].Keys == s.b.slots.Keys + {c};
    assert |s.b.slots| == |s.b.slots.Keys| && |s.b.slots[c := slot]| == |s.b.slots[c := slot].Keys|;
  }

  lemma {:induction false} StepBelow(cfg: Config, s: State, w: nat, scripts: seq<W.Script>, s': State)
    requires Healthy(cfg, s) && HealthyNext(cfg, s, Step(w, scripts), s')
    ensures Below(cfg, s', s)
  {
    hide W.Retry, Stored, Sum, ReadStep;
    assert WorkerOk(cfg, s, w);
    if s.workers[w].Storing? {
      StoreBelow(cfg, s, w);
    } else {
      hide Inv;
      SumUpdate(Weight, s.workers, w, s'.workers[w]);
      SumUpdate(AwakeWorker, s.workers, w, s'.workers[w]);
    }
  }

  /** Every step of a healthy run before EOF goes down in the measure. */
  lemma {:induction false} HealthyBelow(cfg: Config, s: State, e: Event, s': State)
    requires cfg.Valid() && Healthy(cfg, s) && HealthyNext(cfg, s, e, s')
    ensures s'.eof || Below(cfg, s', s)
  {
    match e
    case Step(w, scripts) => StepBelow(cfg, s, w, scripts, s');
    case Read(max) =>
      hide Inv;
      ReadBelow(cfg, s, max);
    case Announce =>
    case Finish =>
      hide Inv;
      WokeWeight(s.workers);
  }

  lemma {:induction false} MeasureNonNegative(cfg: Config, s: State)
    requires Inv(cfg, s)
    ensures 0 <= Work(cfg, s) && 0 <= Awake(s)
  {
    SumNonNegative(Weight, s.workers);
    SumNonNegative(AwakeWorker, s.workers);
  }

  lemma {:induction false} EofFrom(cfg: Config, run: nat -> State, events: nat -> Event, i: nat) returns (k: nat)
    requires cfg.Valid() && Healthy(cfg, run(i))
    requires forall j :: i <= j ==> run(j).eof || HealthyNext(cfg, run(j), events(j), run(j + 1))
    ensures i <= k && run(k).eof && run(k).emitted == Joined(run(k).delivered, |cfg.chunks|)
    decreases Work(cfg, run(i)), |run(i).b.buf|, Awake(run(i))
  {
    if run(i).eof {
      k := i;
    } else {
      assert HealthyNext(cfg, run(i), events(i), run(i + 1));
      HealthyBelow(cfg, run(i), events(i), run(i + 1));
      HealthyKept(cfg, run(i), events(i), run(i + 1));
      MeasureNonNegative(cfg, run(i));
      MeasureNonNegative(cfg, run(i + 1));
      if run(i + 1).eof {
        k := i + 1;
      } else {
        hide Inv, HealthyNext;
        k := EofFrom(cfg, run, events, i + 1);
      }
    }
  }

  /** Liveness: in every healthy run, however the scheduler interleaves it, `Read` gets to EOF, and by then has
      returned every slot in full. */
  lemma ReachesEof(cfg: Config, run: nat -> State, events: nat -> Event) returns (k: nat)
    requires cfg.Valid() && Initial(run(0))
    requires forall j: nat :: run(j).eof || HealthyNext(cfg, run(j), events(j), run(j + 1))
    ensures run(k).eof && run(k).emitted == Joined(run(k).delivered, |cfg.chunks|)
  {
    InitialInv(cfg, run(0));
    k := EofFrom(cfg, run, events, 0);
  }

  /** ... and no healthy run gets stuck before: a step is always possible. */
  lemma {:induction false} NotStuck(cfg: Config, s: State) returns (e: Event, s': State)
    requires cfg.Valid() && Healthy(cfg, s) && 0 <= cfg.maxRetries
    requires forall c :: 0 <= c < |cfg.chunks| ==> cfg.chunks[c].Sound(cfg.chunks[c].end + 1) && cfg.chunks[c].downloaded < cfg.chunks[c].Size()
    ensures HealthyNext(cfg, s, e, s')
  {
    hide ReadStep;
    if !s.reader.Waiting? {
      var max := if s.reader.Outside? then 1 else s.reader.max;
      e, s' := Read(max), ReadStep(cfg, s, max);
    } else {
      var w := WaitingServed(cfg, s);
      var scripts := [];
      if s.workers[w].Fetching? {
        assert WorkerOk(cfg, s, w);
        var c := cfg.chunks[s.workers[w].c];
        Retries.GoodScriptWorks(c, c.end + 1, cfg.maxRetries);
        scripts := [Retries.GoodScript(c)];
      }
      e, s' := Step(w, scripts), WorkerStep(cfg, s, w, scripts);
    }
  }

  // ---------------------------------------------- after a cancellation

  /** Every worker has left and no `Read` is under way; or the process has died of a panic. */
  predicate Settled(s: State) { s.panicked || (AllExited(s.workers) && s.reader.Outside?) }

  /** What can still happen in a stream that is cancelled: the steps left, the `Read` under way, and the flags. */
  function Unrest(cfg: Config, s: State): int {
    5 * (|cfg.chunks| - s.next) + Sum(Weight, s.workers) + (if s.reader.Outside? then 0 else 1)
    + (if s.announced then 0 else 1) + (if s.finished then 0 else 1) + (if s.closed then 0 else 1) + (if s.panicked then 0 else 1)
  }

  lemma {:induction false} ReadAfterClose(cfg: Config, s: State, max: nat)
    requires s.cancelled
    ensures ReadStep(cfg, s, max) == s.(reader := Outside)
  {
    assert s.emitted + [] == s.emitted;
  }

  lemma {:induction false} UnrestNonNegative(cfg: Config, s: State)
    requires Inv(cfg, s)
    ensures 0 <= Unrest(cfg, s)
  {
    SumNonNegative(Weight, s.workers);
  }

  lemma {:induction false} StepUnrest(cfg: Config, s: State, w: nat, scripts: seq<W.Script>, s': State)
    requires s.cancelled && Next(cfg, s, Step(w, scripts), s') && s' != s
    ensures s'.cancelled && Unrest(cfg, s') < Unrest(cfg, s)
  {
    hide W.Retry, Sum, SlotOf;
    var pc := s.workers[w];
    if pc.Storing? {
      var left := if pc.out.fault.Some? then Failing(pc.c) else Idle;
      SumUpdate(Weight, s.workers, w, left);
      WokeWeight(s.workers[w := left]);
      hide Woke;
    } else {
      SumUpdate(Weight, s.workers, w, s'.workers[w]);
    }
  }

  /** Once cancelled, everything that changes anything uses up some of it. */
  lemma {:induction false} UnrestDown(cfg: Config, s: State, e: Event, s': State)
    requires s.cancelled && Next(cfg, s, e, s') && s' != s
    ensures s'.cancelled && Unrest(cfg, s') < Unrest(cfg, s)
  {
    match e
    case Step(w, scripts) =>
      hide Next, Unrest;
      StepUnrest(cfg, s, w, scripts, s');
    case Read(max) =>
      ReadAfterClose(cfg, s, max);
      hide ReadStep, Sum;
    case Cancel =>
    case Announce =>
      WokeWeight(s.workers);
      hide Sum, Woke;
    case Finish =>
      WokeWeight(s.workers);
      hide Sum, Woke;
    case Close =>
      WokeWeight(s.workers);
      hide Sum, Woke;
  }

  lemma {:induction false} SettlesFrom(cfg: Config, run: nat -> State, events: nat -> Event, i: nat) returns (k: nat)
    requires cfg.Valid() && Inv(cfg, run(i)) && run(i).cancelled
    requires forall j: nat :: i <= j ==> Settled(run(j)) || (Next(cfg, run(j), events(j), run(j + 1)) && run(j + 1) != run(j))
    ensures i <= k && Settled(run(k))
    decreases Unrest(cfg, run(i))
  {
    if Settled(run(i)) {
      k := i;
    } else {
      assert Next(cfg, run(i), events(i), run(i + 1)) && run(i + 1) != run(i);
      hide Inv, Next, Settled, Unrest;
      UnrestDown(cfg, run(i), events(i), run(i + 1));
      NextInv(cfg, run(i), events(i), run(i + 1));
      UnrestNonNegative(cfg, run(i));
      UnrestNonNegative(cfg, run(i + 1));
      k := SettlesFrom(cfg, run, events, i + 1);
    }
  }

  /** Teardown: once a stream is cancelled, by `Close`, by its context or by a failed chunk, every run gets to where
      all workers have left and no `Read` waits, as long as something changes; events that change nothing, such as
      reads of a stream that is cancelled already, do not count. */
  lemma TeardownEnds(cfg: Config, run: nat -> State, events: nat -> Event, i: nat) returns (k: nat)
    requires cfg.Valid() && Initial(run(0)) && run(i).cancelled
    requires forall j: nat :: j < i ==> Next(cfg, run(j), events(j), run(j + 1))
    requires forall j: nat :: i <= j ==> Settled(run(j)) || (Next(cfg, run(j), events(j), run(j + 1)) && run(j + 1) != run(j))
    ensures i <= k && Settled(run(k))
  {
    var states, past := seq(i + 1, j requires 0 <= j => run(j)), seq(i, j requires 0 <= j => events(j));
    assert RunFromStart(cfg, states, past);
    RunInv(cfg, states, past, i);
    hide Next, Inv, Settled;
    k := SettlesFrom(cfg, run, events, i);
  }

  /** ... and until then something can change: a worker that has not left takes a step, the cancellation is
      announced, or the woken `Read` returns. Nobody has to fetch anything. */
  lemma {:induction false} TeardownGoesOn(cfg: Config, s: State) returns (e: Event, s': State)
    requires cfg.Valid() && Inv(cfg, s) && s.cancelled && !Settled(s)
    ensures Next(cfg, s, e, s') && s' != s && !e.Cancel? && !e.Close?
  {
    hide W.Retry;
    if !s.announced {
      e, s' := Announce, Broadcast(s).(announced := true);
    } else if w :| 0 <= w < |s.workers| && s.workers[w] != Exited {
      assert WorkerOk(cfg, s, w);
      e, s' := Step(w, []), WorkerStep(cfg, s, w, []);
      assert s'.panicked || s'.workers[w] != s.workers[w];
    } else {
      ReadAfterClose(cfg, s, s.reader.max);
      hide ReadStep;
      e, s' := Read(s.reader.max), s.(reader := Outside);
    }
  }

  // ------------------------------------------------------- close and panic

  ghost predicate SomeInFlight(s: State) { exists w :: 0 <= w < |s.workers| && InFlight(s.workers[w]) }

  ghost predicate CanPanic(cfg: Config, s: State) {
    exists states: seq<State>, events: seq<Event> :: Run(cfg, states, events) && states[0] == s && states[|states| - 1].panicked
  }

  lemma {:induction false} QuietStep(cfg: Config, s: State, e: Event, s': State)
    requires s.closed && s.cancelled && !SomeInFlight(s) && Next(cfg, s, e, s')
    ensures s'.closed && s'.cancelled && !SomeInFlight(s') && !s'.panicked
  {
    hide W.Retry;
    if e.Read? {
      ReadAfterClose(cfg, s, e.max);
    }
    hide ReadStep;
  }

  lemma {:induction false} QuietRun(cfg: Config, states: seq<State>, events: seq<Event>, i: nat)
    requires Run(cfg, states, events) && i < |states|
    requires states[0].closed && states[0].cancelled && !SomeInFlight(states[0]) && !states[0].panicked
    ensures states[i].closed && states[i].cancelled && !SomeInFlight(states[i]) && !states[i].panicked
  {
    if i > 0 {
      QuietRun(cfg, states, events, i - 1);
      assert Next(cfg, states[i - 1], events[i - 1], states[i]);
      hide Next;
      QuietStep(cfg, states[i - 1], events[i - 1], states[i]);
    }
  }

  /** After `Close` a worker can store into the nil map exactly when one was downloading, or about to store,
      at the time of the call. */
  lemma PanicIff(cfg: Config, s: State)
    requires Inv(cfg, s) && !s.panicked && !s.closed
    ensures CanPanic(cfg, Closed(s)) <==> SomeInFlight(s)
  {
    var t := Closed(s);
    if SomeInFlight(s) {
      var w :| 0 <= w < |s.workers| && InFlight(s.workers[w]);
      assert WorkerOk(cfg, s, w);
      PanicRun(cfg, t, w);
    } else {
      forall states: seq<State>, events: seq<Event> | Run(cfg, states, events) && states[0] == t ensures !states[|states| - 1].panicked {
        hide Inv;
        QuietRun(cfg, states, events, |states| - 1);
      }
    }
  }

  lemma PanicRun(cfg: Config, s: State, w: nat)
    requires s.closed && !s.panicked && w < |s.workers| && InFlight(s.workers[w]) && s.workers[w].c < |cfg.chunks|
    ensures CanPanic(cfg, s)
  {
    hide W.Retry;
    if s.workers[w].Storing? {
      var states, events := [s, s.(panicked := true)], [Step(w, [])];
      assert Run(cfg, states, events);
    } else {
      var s1 := WorkerStep(cfg, s, w, []);
      var states, events := [s, s1, s1.(panicked := true)], [Step(w, []), Step(w, [])];
      assert Next(cfg, s, events[0], s1) && Next(cfg, s1, events[1], states[2]);
      assert Run(cfg, states, events);
    }
  }

  /** Quiescence: once `Read` has reached EOF no worker holds a chunk, so closing then is always safe. */
  lemma EofThenCloseIsSafe(cfg: Config, states: seq<State>, events: seq<Event>, k: nat)
    requires RunFromStart(cfg, states, events) && k < |states| && states[k].eof && !states[k].closed
    ensures forall w :: 0 <= w < |states[k].workers| ==> !HasChunk(states[k].workers[w])
    ensures !states[k].panicked && !CanPanic(cfg, Closed(states[k]))
  {
    RunInv(cfg, states, events, k);
    var s := states[k];
    forall w | 0 <= w < |s.workers| ensures !HasChunk(s.workers[w]) {
      assert WorkerOk(cfg, s, w);
    }
    PanicIff(cfg, s);
  }

  /** It happens: two steps after the start of any stream with a chunk, closing can end in the panic. */
  lemma EarlyCloseCanPanic(cfg: Config, start: State) returns (states: seq<State>, events: seq<Event>)
    requires cfg.Valid() && cfg.chunks != [] && Initial(start)
    ensures RunFromStart(cfg, states, events) && states[0] == start
    ensures var last := states[|states| - 1]; !last.closed && !last.panicked && CanPanic(cfg, Closed(last))
  {
    var s1 := WorkerStep(cfg, start, 0, []);
    var s2 := WorkerStep(cfg, s1, 0, []);
    assert s1.workers[0] == Have(0) && s2.workers[0] == Fetching(0);
    states, events := [start, s1, s2], [Step(0, []), Step(0, [])];
    assert Next(cfg, start, events[0], s1) && Next(cfg, s1, events[1], s2);
    hide Next, WorkerStep;
    RunInv(cfg, states, events, 2);
    assert InFlight(s2.workers[0]);
    hide Inv;
    PanicIff(cfg, s2);
  }

  // ------------------------------------------------------ the whole stream

  /** Where the attempt that filled a slot began. */
  function Began(out: W.Outcome): int {
    if out.log == [] then 0 else out.log[|out.log| - 1].req
  }

  /** Every delivery is the outcome of a `downloadChunk` call for its chunk. */
  ghost predicate Downloaded(cfg: Config, out: W.Outcome, c: nat) {
    c < |cfg.chunks| && exists scripts :: out == W.Retry(cfg.chunks[c], scripts, 0, 0, cfg.maxRetries, [])
  }

  ghost predicate AllDownloaded(cfg: Config, s: State) {
    && (forall c :: c in s.delivered ==> Downloaded(cfg, s.delivered[c], c))
    && (forall w :: 0 <= w < |s.workers| && s.workers[w].Storing? ==> Downloaded(cfg, s.workers[w].out, s.workers[w].c))
  }

  lemma {:induction false} ReadDownloaded(cfg: Config, s: State, max: nat)
    requires AllDownloaded(cfg, s)
    ensures AllDownloaded(cfg, ReadStep(cfg, s, max))
    decreases |cfg.chunks| - s.b.index
  {
    hide Downloaded;
    match ReadOnce(s.b, |cfg.chunks|, s.cancelled, max)
    case Again(b') => ReadDownloaded(cfg, s.(b := b', workers := Woke(s.workers)), max);
    case Out(_, _) =>
  }

  lemma {:induction false} StepDownloaded(cfg: Config, s: State, w: nat, scripts: seq<W.Script>)
    requires AllDownloaded(cfg, s) && w < |s.workers|
    ensures AllDownloaded(cfg, WorkerStep(cfg, s, w, scripts))
  {
    hide W.Retry, Downloaded, Stored;
    if s.workers[w].Storing? {
      StoreDownloaded(cfg, s, w);
    } else {
      if s.workers[w].Fetching? && s.workers[w].c < |cfg.chunks| {
        RetryDownloaded(cfg, scripts, s.workers[w].c);
      }
    }
  }

  lemma {:induction false} StoreDownloaded(cfg: Config, s: State, w: nat)
    requires AllDownloaded(cfg, s) && w < |s.workers| && s.workers[w].Storing?
    ensures AllDownloaded(cfg, Stored(s, w, s.workers[w].c, s.workers[w].out))
  {
    hide Downloaded, SlotOf;
  }

  lemma RetryDownloaded(cfg: Config, scripts: seq<W.Script>, c: nat)
    requires c < |cfg.chunks|
    ensures Downloaded(cfg, W.Retry(cfg.chunks[c], scripts, 0, 0, cfg.maxRetries, []), c)
  {
  }

  lemma {:induction false} RunDownloaded(cfg: Config, states: seq<State>, events: seq<Event>, i: nat)
    requires RunFromStart(cfg, states, events) && i < |states|
    ensures AllDownloaded(cfg, states[i])
  {
    hide W.Retry, Downloaded, WorkerStep, ReadStep;
    if i > 0 {
      RunDownloaded(cfg, states, events, i - 1);
      var s, e := states[i - 1], events[i - 1];
      assert Next(cfg, s, e, states[i]);
      hide RunFromStart;
      match e
      case Step(w, scripts) => StepDownloaded(cfg, s, w, scripts);
      case Read(max) => ReadDownloaded(cfg, s, max);
      case Cancel =>
      case Announce =>
      case Finish =>
      case Close =>
    }
  }

  /** The attempts that filled the first `k` slots all began at their chunk's start. */
  ghost predicate Whole(cfg: Config, s: State, k: nat)
    requires k <= |cfg.chunks|
  {
    forall c: nat :: c < k ==> c in s.delivered && Began(s.delivered[c]) == cfg.chunks[c].start
  }

  ghost predicate Ready(cfg: Config, s: State, source: seq<byte>, c: nat) {
    && c in s.delivered && s.delivered[c].fault == None && Downloaded(cfg, s.delivered[c], c)
    && cfg.chunks[c].Sound(|source|) && forall t :: t in s.delivered[c].log ==> Retries.Honest(source, t)
  }

  lemma {:induction false} SlotIsRange(cfg: Config, s: State, source: seq<byte>, c: nat)
    requires Ready(cfg, s, source, c)
    ensures var began, ch := Began(s.delivered[c]), cfg.chunks[c];
      ch.start <= began <= ch.end && DataOf(s.delivered[c]) == source[began..ch.end + 1]
  {
    var scripts :| s.delivered[c] == W.Retry(cfg.chunks[c], scripts, 0, 0, cfg.maxRetries, []);
    hide W.Retry, Retries.Honest;
    Retries.SlotContents(cfg.chunks[c], scripts, cfg.maxRetries, source);
  }

  /** What the first `k` slots add up to: the source up to where chunk `k` starts, or something shorter. */
  lemma {:induction false} JoinedIsSource(cfg: Config, s: State, source: seq<byte>, k: nat)
    requires Chained(cfg.chunks, |source|) && k <= |cfg.chunks|
    requires forall c: nat :: c < k ==> Ready(cfg, s, source, c)
    ensures var e := NextStart(cfg.chunks, k);
      && 0 <= e <= |source| && |Joined(s.delivered, k)| <= e
      && (Whole(cfg, s, k) ==> Joined(s.delivered, k) == source[..e])
      && (!Whole(cfg, s, k) ==> |Joined(s.delivered, k)| < e)
  {
    hide Chained, Ready, Joined, Whole, NextStart, Began;
    if k == 0 {
      JoinedNone(cfg, s);
    } else {
      JoinedIsSource(cfg, s, source, k - 1);
      JoinedStep(cfg, s, source, k - 1);
    }
  }

  lemma JoinedNone(cfg: Config, s: State)
    ensures Joined(s.delivered, 0) == [] && Whole(cfg, s, 0) && NextStart(cfg.chunks, 0) == 0
  {
  }

  /** One slot more. */
  lemma {:induction false} JoinedStep(cfg: Config, s: State, source: seq<byte>, c: nat)
    requires Chained(cfg.chunks, |source|) && c < |cfg.chunks| && Ready(cfg, s, source, c)
    ensures c in s.delivered
    ensures var ch, began := cfg.chunks[c], Began(s.delivered[c]);
      && 0 <= ch.start == NextStart(cfg.chunks, c) && NextStart(cfg.chunks, c + 1) == ch.end + 1 <= |source|
      && ch.start <= began <= ch.end
      && Joined(s.delivered, c + 1) == Joined(s.delivered, c) + source[began..ch.end + 1]
      && (Whole(cfg, s, c + 1) <==> Whole(cfg, s, c) && began == ch.start)
  {
    SlotIsRange(cfg, s, source, c);
    hide Retries.Honest, W.Retry, Downloaded, DataOf, Began;
  }

  /** When a stream read to EOF equals the source: exactly when every chunk's last attempt began at the chunk's
      start. A download that broke off mid-chunk and was resumed loses the bytes before the break. */
  lemma StreamIsSourceIff(cfg: Config, states: seq<State>, events: seq<Event>, k: nat, source: seq<byte>)
    requires RunFromStart(cfg, states, events) && k < |states| && states[k].eof
    requires Tiles(cfg.chunks, |source|) && forall c :: 0 <= c < |cfg.chunks| ==> cfg.chunks[c].Sound(|source|)
    requires forall c, t :: c in states[k].delivered && t in states[k].delivered[c].log ==> Retries.Honest(source, t)
    ensures states[k].emitted == source <==> Whole(cfg, states[k], |cfg.chunks|)
  {
    TilesIffChained(cfg.chunks, |source|);
    RunInv(cfg, states, events, k);
    RunDownloaded(cfg, states, events, k);
    var s := states[k];
    forall c: nat | c < |cfg.chunks| ensures Ready(cfg, s, source, c) {
      assert ChunkOk(s, c);
    }
    assert s.emitted == Joined(s.delivered, |cfg.chunks|);
    hide Tiles, RunFromStart, Inv, Downloaded;
    JoinedIsSource(cfg, s, source, |cfg.chunks|);
    assert NextStart(cfg.chunks, |cfg.chunks|) == |source| && source[..|source|] == source;
  }
}
