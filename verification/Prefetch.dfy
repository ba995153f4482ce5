/** The prefetch pipeline as a machine: workers fetch chunks into slots inside a sliding window, one reader
    drains the slots in order, and all of them wait on one condition variable (pkg/engine/stream_sink.go:195-339). */
module Prefetch {
  import opened Bytes
  import opened Chunks
  import opened Stream
  import W = Worker

  datatype Config = Config(chunks: seq<ChunkVal>, window: nat, maxRetries: int) {
    predicate Valid() { 1 <= window }
  }

  /** A worker between two accesses to shared state. */
  datatype Pc =
    | Idle
    | Have(c: nat)
    | Asleep(c: nat)
    | Fetching(c: nat)
    | Storing(c: nat, out: W.Outcome)
    | Failing(c: nat)
    | Exited

  datatype Reader = Outside | Woken(max: nat) | Waiting(max: nat)

  /** `announced` and `finished`: the broadcasts after cancellation and after the last worker are done.
      `delivered`, `emitted` and `eof` are history: every stored outcome, the bytes `Read` has returned, and
      whether it has returned EOF before `Close`. */
  datatype State = State(
    b: Buffer, next: nat, workers: seq<Pc>, reader: Reader,
    closed: bool, cancelled: bool, announced: bool, finished: bool, panicked: bool,
    delivered: map<nat, W.Outcome>, emitted: seq<byte>, eof: bool)

  /** A worker's buffer after a download: what the last attempt's writer took. */
  function DataOf(out: W.Outcome): seq<byte> {
    if out.log == [] then [] else out.log[|out.log| - 1].taken
  }

  function SlotOf(out: W.Outcome): Slot { Slot(DataOf(out), out.fault) }

  function WokePc(pc: Pc): Pc { if pc.Asleep? then Have(pc.c) else pc }

  function Woke(ws: seq<Pc>): (r: seq<Pc>)
    ensures |r| == |ws| && forall w :: 0 <= w < |r| ==> r[w] == WokePc(ws[w])
  {
    seq(|ws|, w requires 0 <= w < |ws| => WokePc(ws[w]))
  }

  /** `readyCond.Broadcast`: everybody asleep looks again. */
  function Broadcast(s: State): State {
    s.(workers := Woke(s.workers), reader := if s.reader.Waiting? then Woken(s.reader.max) else s.reader)
  }

  datatype Event =
    | Step(w: nat, scripts: seq<W.Script>)
    | Read(max: nat)
    | Cancel
    | Announce
    | Finish
    | Close

  /** Where a worker that is not storing goes next; a download happens in one step, as nothing it touches on the
      way is seen by the others. */
  function Goes(cfg: Config, s: State, pc: Pc, scripts: seq<W.Script>): Pc {
    match pc
    case Idle => if s.next < |cfg.chunks| then Have(s.next) else Exited
    case Have(c) =>
      if !s.closed && !s.cancelled && c >= s.b.index + cfg.window then Asleep(c)
      else if s.closed || s.cancelled then Exited
      else Fetching(c)
    case Fetching(c) =>
      if c < |cfg.chunks| then Storing(c, W.Retry(cfg.chunks[c], scripts, 0, 0, cfg.maxRetries, [])) else pc
    case Failing(_) => Exited
    case Asleep(_) => pc
    case Storing(_, _) => pc
    case Exited => pc
  }

  /** One step of worker `w`. */
  function WorkerStep(cfg: Config, s: State, w: nat, scripts: seq<W.Script>): State
    requires w < |s.workers|
  {
    var pc := s.workers[w];
    if pc.Storing? then Stored(s, w, pc.c, pc.out)
    else s.(workers := s.workers[w := Goes(cfg, s, pc, scripts)],
            next := if pc.Idle? && s.next < |cfg.chunks| then s.next + 1 else s.next,
            cancelled := s.cancelled || pc.Failing?)
  }

  function Stored(s: State, w: nat, c: nat, out: W.Outcome): State
    requires w < |s.workers|
  {
    if s.closed then s.(panicked := true)
    else
      Broadcast(s.(
        workers := s.workers[w := if out.fault.Some? then Failing(c) else Idle],
        b := s.b.(slots := s.b.slots[c := SlotOf(out)]),
        delivered := s.delivered[c := out]))
  }

  /** `Read`, entered or resumed, up to where it returns or waits; it holds the lock all the way. */
  function ReadStep(cfg: Config, s: State, max: nat): State
    decreases |cfg.chunks| - s.b.index
  {
    match ReadOnce(s.b, |cfg.chunks|, s.cancelled, max)
    case Again(b') => ReadStep(cfg, s.(b := b', workers := Woke(s.workers)), max)
    case Out(b', r) =>
      s.(b := b', reader := if r == Wait then Waiting(max) else Outside,
         emitted := s.emitted + (if r.Data? then r.bytes else []), eof := s.eof || r == Eof)
  }

  function Closed(s: State): State {
    if s.closed then s
    else Broadcast(s.(closed := true, cancelled := true, b := Buffer(map[], s.b.index, [])))
  }

  /** The machine's read is the class's `Read`: same buffer after, same bytes out, and it sleeps exactly when
      `Read` blocks. */
  lemma {:induction false} ReadStepIsRead(cfg: Config, s: State, max: nat)
    ensures var (b', r), s' := ReadFrom(s.b, |cfg.chunks|, s.cancelled, max), ReadStep(cfg, s, max);
      && s'.b == b' && s'.emitted == s.emitted + (if r.Data? then r.bytes else [])
      && s'.reader == (if r == Wait then Waiting(max) else Outside)
      && (s'.eof <==> s.eof || r == Eof)
    decreases |cfg.chunks| - s.b.index
  {
    match ReadOnce(s.b, |cfg.chunks|, s.cancelled, max)
    case Again(b') => ReadStepIsRead(cfg, s.(b := b', workers := Woke(s.workers)), max);
    case Out(_, _) =>
  }

  predicate AllExited(ws: seq<Pc>) { forall w :: 0 <= w < |ws| ==> ws[w] == Exited }

  ghost predicate Next(cfg: Config, s: State, e: Event, s': State) {
    && !s.panicked
    && match e
      case Step(w, scripts) => w < |s.workers| && !s.workers[w].Asleep? && !s.workers[w].Exited? && s' == WorkerStep(cfg, s, w, scripts)
      case Read(max) =>
        && (s.reader == Outside || s.reader == Woken(max))
        && s' == if s.reader == Outside && s.closed then s else ReadStep(cfg, s, max)
      case Cancel => s' == s.(cancelled := true)
      case Announce => s.cancelled && !s.announced && s' == Broadcast(s).(announced := true)
      case Finish => AllExited(s.workers) && !s.finished && s' == Broadcast(s).(finished := true)
      case Close => s' == Closed(s)
  }

  ghost predicate Initial(s: State) {
    && s.b == Buffer(map[], 0, []) && s.next == 0 && s.workers != [] && s.reader == Outside
    && (forall w :: 0 <= w < |s.workers| ==> s.workers[w] == Idle)
    && !s.closed && !s.cancelled && !s.announced && !s.finished && !s.panicked
    && s.delivered == map[] && s.emitted == [] && !s.eof
  }

  ghost predicate Run(cfg: Config, states: seq<State>, events: seq<Event>) {
    && |states| == |events| + 1
    && forall i :: 0 <= i < |events| ==> Next(cfg, states[i], events[i], states[i + 1])
  }

  ghost predicate RunFromStart(cfg: Config, states: seq<State>, events: seq<Event>) {
    cfg.Valid() && Run(cfg, states, events) && Initial(states[0])
  }

  // ---------------------------------------------------------- invariants

  predicate HasChunk(pc: Pc) { pc.Have? || pc.Asleep? || pc.Fetching? || pc.Storing? }

  predicate InFlight(pc: Pc) { pc.Fetching? || pc.Storing? }

  predicate Held(pc: Pc, c: nat) { HasChunk(pc) && pc.c == c }

  ghost predicate HeldBySome(ws: seq<Pc>, c: nat) { exists w :: 0 <= w < |ws| && Held(ws[w], c) }

  /** The data of the first `k` delivered chunks. */
  function Joined(delivered: map<nat, W.Outcome>, k: nat): seq<byte> {
    if k == 0 then []
    else Joined(delivered, k - 1) + (if k - 1 in delivered then DataOf(delivered[k - 1]) else [])
  }

  /** A held chunk is taken, not read past, nobody else's, and neither stored nor ever delivered. */
  ghost predicate WorkerOk(cfg: Config, s: State, w: nat)
    requires w < |s.workers|
  {
    var pc := s.workers[w];
    && (HasChunk(pc) ==>
      && s.b.index <= pc.c < s.next && pc.c !in s.b.slots && pc.c !in s.delivered
      && forall v :: 0 <= v < |s.workers| && Held(s.workers[v], pc.c) ==> v == w)
    && (InFlight(pc) ==> pc.c < s.b.index + cfg.window)
    && (pc.Asleep? ==> !s.closed && !(s.cancelled && s.announced) && s.b.index + cfg.window <= pc.c)
    && (!s.cancelled && pc.Failing? ==> pc.c in s.b.slots && s.b.slots[pc.c].err.Some?)
    && (!s.cancelled && pc.Exited? ==> s.next == |cfg.chunks|)
  }

  ghost predicate SlotOk(cfg: Config, s: State, c: nat)
    requires c in s.b.slots
  {
    && s.b.index <= c < s.next && c < s.b.index + cfg.window
    && c in s.delivered && s.b.slots[c] == SlotOf(s.delivered[c])
  }

  ghost predicate ChunkOk(s: State, c: nat) {
    && (c < s.b.index ==> c in s.delivered && s.delivered[c].fault == None)
    && (c in s.delivered ==> c < s.next)
    && (!s.cancelled && s.b.index <= c < s.next ==> c in s.b.slots || HeldBySome(s.workers, c))
  }

  ghost predicate ReaderOk(cfg: Config, s: State) {
    && (s.reader.Waiting? ==>
      && !s.closed && !(s.cancelled && s.announced)
      && s.b.buf == [] && s.b.index < |cfg.chunks| && s.b.index !in s.b.slots)
    && (s.announced ==> s.cancelled)
    && (s.closed ==> s.cancelled && s.b.slots == map[] && s.b.buf == [])
    && (if s.closed then s.emitted <= Joined(s.delivered, s.b.index)
        else s.emitted + s.b.buf == Joined(s.delivered, s.b.index))
    && (s.eof ==> s.b.index == |cfg.chunks| && s.b.buf == [] && s.emitted == Joined(s.delivered, |cfg.chunks|))
    && (s.panicked ==> s.closed && s.b.index < |cfg.chunks|)
  }

  ghost predicate Inv(cfg: Config, s: State) {
    && s.workers != [] && s.b.index <= s.next <= |cfg.chunks|
    && (forall w :: 0 <= w < |s.workers| ==> WorkerOk(cfg, s, w))
    && (forall c :: c in s.b.slots ==> SlotOk(cfg, s, c))
    && (forall c: nat :: ChunkOk(s, c))
    && ReaderOk(cfg, s)
  }

  lemma {:induction false} InitialInv(cfg: Config, s: State)
    requires cfg.Valid() && Initial(s)
    ensures Inv(cfg, s)
  {
  }

  /** Delivering a new chunk at or past `k` leaves the first `k` as they were. */
  lemma {:induction false} JoinedFrame(delivered: map<nat, W.Outcome>, c: nat, out: W.Outcome, k: nat)
    requires k <= c
    ensures Joined(delivered[c := out], k) == Joined(delivered, k)
  {
    if k > 0 {
      JoinedFrame(delivered, c, out, k - 1);
    }
  }

  lemma {:induction false} HeldUpdate(ws: seq<Pc>, w: nat, pc: Pc, c: nat)
    requires w < |ws| && HeldBySome(ws, c)
    requires Held(ws[w], c) ==> Held(pc, c)
    ensures HeldBySome(ws[w := pc], c)
  {
    var v :| 0 <= v < |ws| && Held(ws[v], c);
    assert Held(ws[w := pc][v], c);
  }

  lemma {:induction false} HeldWoke(ws: seq<Pc>, c: nat)
    ensures HeldBySome(Woke(ws), c) <==> HeldBySome(ws, c)
  {
    if HeldBySome(ws, c) {
      var v :| 0 <= v < |ws| && Held(ws[v], c);
      assert Held(Woke(ws)[v], c);
    }
    if HeldBySome(Woke(ws), c) {
      var v :| 0 <= v < |ws| && Held(Woke(ws)[v], c);
      assert Held(ws[v], c);
    }
  }

  /** A broadcast only wakes. */
  lemma {:induction false} WokeInv(cfg: Config, s: State)
    requires Inv(cfg, s)
    ensures Inv(cfg, s.(workers := Woke(s.workers))) && Inv(cfg, Broadcast(s))
  {
    forall c: nat ensures HeldBySome(Woke(s.workers), c) <==> HeldBySome(s.workers, c) {
      HeldWoke(s.workers, c);
    }
    hide HeldBySome, Joined, SlotOf;
    forall c: nat ensures ChunkOk(Broadcast(s), c) && ChunkOk(s.(workers := Woke(s.workers)), c) {
      assert ChunkOk(s, c);
    }
    forall w | 0 <= w < |s.workers| ensures WorkerOk(cfg, Broadcast(s), w) && WorkerOk(cfg, s.(workers := Woke(s.workers)), w) {
      assert WorkerOk(cfg, s, w);
    }
  }

  /** A change of flags only: nobody sleeps through an announced cancellation, `closed` is untouched. */
  lemma {:induction false} FlagsInv(cfg: Config, s: State, s': State)
    requires Inv(cfg, s) && ReaderOk(cfg, s') && s'.closed == s.closed && (s.cancelled ==> s'.cancelled)
    requires s' == s.(cancelled := s'.cancelled, announced := s'.announced, finished := s'.finished, panicked := s'.panicked)
    requires s'.cancelled && s'.announced && !(s.cancelled && s.announced) ==> forall w :: 0 <= w < |s.workers| ==> !s.workers[w].Asleep?
    ensures Inv(cfg, s')
  {
    hide HeldBySome, Joined, SlotOf;
    forall c: nat ensures ChunkOk(s', c) {
      assert ChunkOk(s, c);
    }
    hide ChunkOk;
    forall v | 0 <= v < |s.workers| ensures WorkerOk(cfg, s', v) {
      assert WorkerOk(cfg, s, v);
    }
    forall c | c in s'.b.slots ensures SlotOk(cfg, s', c) {
      assert SlotOk(cfg, s, c);
    }
  }

  lemma {:induction false} CloseInv(cfg: Config, s: State)
    requires Inv(cfg, s)
    ensures Inv(cfg, Closed(s))
  {
    WokeInv(cfg, s);
    var t, s' := Broadcast(s), Closed(s);
    hide HeldBySome, Joined, SlotOf;
    if !s.closed {
      forall c: nat ensures ChunkOk(s', c) {
        assert ChunkOk(t, c);
      }
      hide ChunkOk;
      forall v | 0 <= v < |s.workers| ensures WorkerOk(cfg, s', v) {
        assert WorkerOk(cfg, t, v);
      }
    }
  }

  /** A worker that drops no chunk (unless everything is cancelled) and takes none but the next one changes
      only its own place. */
  lemma {:induction false} PlaceInv(cfg: Config, s: State, w: nat, pc: Pc, s': State)
    requires Inv(cfg, s) && w < |s.workers|
    requires s' == s.(workers := s.workers[w := pc], next := s'.next, cancelled := s'.cancelled)
    requires s.cancelled ==> s'.cancelled
    requires s'.next == s.next || (s'.next == s.next + 1 <= |cfg.chunks| && pc == Have(s.next))
    requires HasChunk(s.workers[w]) ==> s'.cancelled || Held(pc, s.workers[w].c)
    requires HasChunk(pc) ==> Held(s.workers[w], pc.c) || (pc == Have(s.next) && s'.next == s.next + 1)
    requires InFlight(pc) ==> pc.c < s.b.index + cfg.window
    requires pc.Asleep? ==> !s.closed && !s.cancelled && s.b.index + cfg.window <= pc.c
    requires pc.Exited? ==> s'.cancelled || s.next == |cfg.chunks|
    requires !pc.Failing?
    ensures Inv(cfg, s')
  {
    hide Joined, SlotOf;
    assert ChunkOk(s, s.next) && WorkerOk(cfg, s, w);
    forall c: nat ensures ChunkOk(s', c) {
      assert ChunkOk(s, c);
      if !s'.cancelled && s.b.index <= c < s'.next && c !in s.b.slots {
        if c == s.next {
          assert Held(s'.workers[w], c);
        } else {
          HeldUpdate(s.workers, w, pc, c);
        }
      }
    }
    hide HeldBySome, ChunkOk;
    forall v | 0 <= v < |s.workers| ensures WorkerOk(cfg, s', v) {
      assert WorkerOk(cfg, s, v);
      forall u | 0 <= u < |s.workers| && HasChunk(s'.workers[v]) && Held(s'.workers[u], s'.workers[v].c) ensures u == v {
        assert WorkerOk(cfg, s, u);
      }
    }
    forall c | c in s'.b.slots ensures SlotOk(cfg, s', c) {
      assert SlotOk(cfg, s, c);
    }
  }

  lemma {:induction false} OwnStepInv(cfg: Config, s: State, w: nat, scripts: seq<W.Script>)
    requires Inv(cfg, s) && w < |s.workers| && !s.workers[w].Storing?
    ensures Inv(cfg, WorkerStep(cfg, s, w, scripts))
  {
    hide HeldBySome, Joined, SlotOf, ChunkOk, SlotOk, W.Retry;
    var s' := WorkerStep(cfg, s, w, scripts);
    assert WorkerOk(cfg, s, w) && s.next <= |cfg.chunks| && (s.closed ==> s.cancelled);
    if !s.workers[w].Asleep? && !s.workers[w].Exited? && !s.workers[w].Storing? {
      hide ReaderOk;
      PlaceInv(cfg, s, w, s'.workers[w], s');
    } else {
      assert s' == s;
    }
  }

  /** A delivery: the slot replaces the worker's hold on the chunk. */
  lemma {:induction false} DeliverInv(cfg: Config, s: State, w: nat, s': State)
    requires Inv(cfg, s) && w < |s.workers| && s.workers[w].Storing? && !s.closed
    requires var c, out := s.workers[w].c, s.workers[w].out;
      s' == s.(workers := s.workers[w := if out.fault.Some? then Failing(c) else Idle],
        b := s.b.(slots := s.b.slots[c := SlotOf(out)]), delivered := s.delivered[c := out],
        reader := if s.reader.Waiting? then Woken(s.reader.max) else s.reader)
    ensures Inv(cfg, s')
  {
    var c0, out := s.workers[w].c, s.workers[w].out;
    assert WorkerOk(cfg, s, w);
    JoinedFrame(s.delivered, c0, out, s.b.index);
    hide Joined;
    forall c: nat ensures ChunkOk(s', c) {
      assert ChunkOk(s, c);
      if c != c0 && !s'.cancelled && s.b.index <= c < s'.next && c !in s.b.slots {
        HeldUpdate(s.workers, w, s'.workers[w], c);
      }
    }
    hide HeldBySome, ChunkOk;
    forall c | c in s'.b.slots ensures SlotOk(cfg, s', c) {
      assert c != c0 ==> SlotOk(cfg, s, c);
    }
    hide SlotOk;
    forall v | 0 <= v < |s.workers| ensures WorkerOk(cfg, s', v) {
      assert WorkerOk(cfg, s, v);
    }
  }

  lemma {:induction false} StoreInv(cfg: Config, s: State, w: nat)
    requires Inv(cfg, s) && w < |s.workers| && s.workers[w].Storing?
    ensures Inv(cfg, Stored(s, w, s.workers[w].c, s.workers[w].out))
  {
    var c, out := s.workers[w].c, s.workers[w].out;
    assert WorkerOk(cfg, s, w);
    hide SlotOf, ChunkOk, SlotOk, Joined;
    if s.closed {
      FlagsInv(cfg, s, s.(panicked := true));
    } else {
      var s' := s.(workers := s.workers[w := if out.fault.Some? then Failing(c) else Idle],
        b := s.b.(slots := s.b.slots[c := SlotOf(out)]), delivered := s.delivered[c := out],
        reader := if s.reader.Waiting? then Woken(s.reader.max) else s.reader);
      DeliverInv(cfg, s, w, s');
      hide Inv, WorkerOk;
      WokeInv(cfg, s');
      assert Stored(s, w, c, out) == Broadcast(s');
    }
  }

  /** The reader moving on to the next slot. */
  lemma {:induction false} AdvanceInv(cfg: Config, s: State, max: nat)
    requires cfg.Valid() && Inv(cfg, s) && !s.reader.Waiting? && !s.panicked && !s.eof
    requires ReadOnce(s.b, |cfg.chunks|, s.cancelled, max).Again?
    ensures Inv(cfg, s.(b := ReadOnce(s.b, |cfg.chunks|, s.cancelled, max).b, workers := Woke(s.workers)))
  {
    var b' := ReadOnce(s.b, |cfg.chunks|, s.cancelled, max).b;
    WokeInv(cfg, s);
    var t := s.(workers := Woke(s.workers));
    var s' := t.(b := b');
    var i := s.b.index;
    assert SlotOk(cfg, s, i);
    forall c: nat ensures ChunkOk(s', c) {
      assert ChunkOk(t, c);
    }
    hide HeldBySome, SlotOf, ChunkOk;
    forall v | 0 <= v < |t.workers| ensures WorkerOk(cfg, s', v) {
      assert WorkerOk(cfg, t, v);
    }
    forall c | c in s'.b.slots ensures SlotOk(cfg, s', c) {
      assert SlotOk(cfg, s, c);
    }
  }

  lemma {:induction false} ReadInv(cfg: Config, s: State, max: nat)
    requires cfg.Valid() && Inv(cfg, s) && !s.reader.Waiting? && !s.panicked
    ensures Inv(cfg, ReadStep(cfg, s, max))
    decreases |cfg.chunks| - s.b.index
  {
    match ReadOnce(s.b, |cfg.chunks|, s.cancelled, max)
    case Again(b') =>
      AdvanceInv(cfg, s, max);
      ReadInv(cfg, s.(b := b', workers := Woke(s.workers)), max);
    case Out(_, _) => OutInv(cfg, s, max);
  }

  /** The reader returning or going to sleep. */
  lemma {:induction false} OutInv(cfg: Config, s: State, max: nat)
    requires cfg.Valid() && Inv(cfg, s) && !s.reader.Waiting? && !s.panicked
    requires ReadOnce(s.b, |cfg.chunks|, s.cancelled, max).Out?
    ensures Inv(cfg, ReadStep(cfg, s, max))
  {
    var s', r := ReadStep(cfg, s, max), ReadOnce(s.b, |cfg.chunks|, s.cancelled, max).r;
    assert s'.b.slots == s.b.slots && s'.b.index == s.b.index;
    assert ReaderOk(cfg, s') by {
      if r.Data? {
        assert s.b.buf == r.bytes + s'.b.buf;
        assert s.emitted + s.b.buf == s'.emitted + s'.b.buf;
      } else {
        assert s'.emitted == s.emitted;
      }
      assert s.b.buf == [] ==> s.emitted + s.b.buf == s.emitted;
      hide SlotOf, Joined;
    }
    hide HeldBySome, SlotOf, Joined, ReadOnce, ReadStep, ReaderOk;
    forall c: nat ensures ChunkOk(s', c) {
      assert ChunkOk(s, c);
    }
    hide ChunkOk;
    forall v | 0 <= v < |s.workers| ensures WorkerOk(cfg, s', v) {
      assert WorkerOk(cfg, s, v);
    }
  }

  lemma {:induction false} NextInv(cfg: Config, s: State, e: Event, s': State)
    requires cfg.Valid() && Inv(cfg, s) && Next(cfg, s, e, s')
    ensures Inv(cfg, s')
  {
    hide W.Retry, Joined, SlotOf, ReadStep, Stored;
    match e
    case Step(w, scripts) =>
      if s.workers[w].Storing? {
        StoreInv(cfg, s, w);
      } else {
        OwnStepInv(cfg, s, w, scripts);
      }
    case Read(max) =>
      ReadInv(cfg, s, max);
    case Cancel =>
      FlagsInv(cfg, s, s');
    case Announce =>
      WokeInv(cfg, s);
      FlagsInv(cfg, Broadcast(s), s');
    case Finish =>
      WokeInv(cfg, s);
      FlagsInv(cfg, Broadcast(s), s');
    case Close =>
      CloseInv(cfg, s);
  }
}
