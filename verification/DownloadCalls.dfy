/** The machine's workers run `downloadChunk` as the sequential model has it: every call, cut into steps between
    which anything may happen, is a call of `Worker` under some script (pkg/engine/worker.go:19-194). */
module DownloadCalls {
  import opened Bytes
  import opened Chunks
  import opened Checkpoints
  import opened Download
  import opened DownloadSafety
  import DownloadTheorems
  import W = Worker

  // ------------------------------------------- the call, attempt by attempt

  /** How a call ends: the chunk it leaves and its error. */
  type Ending = (ChunkVal, Option<W.Fault>)

  function Later(scripts: seq<W.Script>): seq<W.Script> { if scripts == [] then [] else scripts[1..] }

  /** The ending of `Retry` from attempt `k` on, the scripts being those still to come. */
  function Tail(maxRetries: int, c: ChunkVal, scripts: seq<W.Script>, k: nat): Ending
    decreases maxRetries + 1 - k
  {
    if k > maxRetries then (c, Some(W.Exhausted))
    else
      var r := W.TurnOf(c, W.ScriptAt(scripts, 0), k);
      if r.again then Tail(maxRetries, r.chunk, Later(scripts), k + 1) else (r.chunk, r.fault)
  }

  lemma {:induction false} TailIsRetry(maxRetries: int, c: ChunkVal, all: seq<W.Script>, k: nat, retries: nat, log: seq<W.Trial>)
    ensures var o := W.Retry(c, all, k, retries, maxRetries, log);
      Tail(maxRetries, c, if k <= |all| then all[k..] else [], k) == (o.chunk, o.fault)
    decreases maxRetries + 1 - k
  {
    if k <= maxRetries {
      hide W.TurnOf;
      var r := W.TurnOf(c, W.ScriptAt(all, k), k);
      if r.again {
        TailIsRetry(maxRetries, r.chunk, all, k + 1, retries + r.retries, log + r.trials);
      }
    }
  }

  /** After attempt `k` has failed with `f`. */
  function AfterFailure(maxRetries: int, c: ChunkVal, f: W.Fault, rest: seq<W.Script>, k: nat): Ending {
    if W.Fatal(f) then (c, Some(f)) else Tail(maxRetries, c, rest, k + 1)
  }

  /** After attempt `k` has copied. */
  function AfterCopy(maxRetries: int, r: W.Copied, rest: seq<W.Script>, k: nat): Ending {
    if r.fault == None then (Marked(r.chunk), None) else AfterFailure(maxRetries, r.chunk, r.fault.value, rest, k)
  }

  /** The copy loop after a read that ended with `err`, `got` bytes booked so far. */
  function CopyOn(c: ChunkVal, req: int, got: nat, err: W.ReadErr, turns: seq<W.Turn>): W.Copied {
    var expected := c.end - req + 1;
    if err == W.NoErr then W.Copy(c, req, expected, got, [], turns)
    else if err == W.Broken && got != expected then W.Copied(c, got, [], Some(W.ReadFailed))
    else W.Copied(c, got, [], if got != expected then Some(W.LengthMismatch) else None)
  }

  lemma {:induction false} TakenIrrelevant(c: ChunkVal, req: int, expected: int, got: nat, a: seq<byte>, b: seq<byte>, turns: seq<W.Turn>)
    ensures var r, s := W.Copy(c, req, expected, got, a, turns), W.Copy(c, req, expected, got, b, turns);
      r.chunk == s.chunk && r.got == s.got && r.fault == s.fault
    decreases |turns|
  {
    if turns != [] && !turns[0].cancelled {
      var t := turns[0];
      var n := |t.data|;
      if !(n > 0 && (t.writeFails || Min(t.took, n) != n)) && t.err == W.NoErr {
        var c' := if n > 0 then Clamped(c, got + n + req - c.start) else c;
        TakenIrrelevant(c', req, expected, got + n, a + t.data, b + t.data, turns[1..]);
      }
    }
  }

  /** One more read in front. */
  lemma {:induction false} CopyRead(c: ChunkVal, req: int, got: nat, t: W.Turn, turns: seq<W.Turn>)
    requires !t.cancelled && (|t.data| > 0 ==> !t.writeFails && t.took >= |t.data|)
    ensures var n := |t.data|;
      var r := W.Copy(c, req, c.end - req + 1, got, [], [t] + turns);
      var s := CopyOn(if n > 0 then Clamped(c, got + n + req - c.start) else c, req, got + n, t.err, turns);
      r.chunk == s.chunk && r.fault == s.fault
  {
    var n := |t.data|;
    var c' := if n > 0 then Clamped(c, got + n + req - c.start) else c;
    assert ([t] + turns)[1..] == turns;
    TakenIrrelevant(c', req, c.end - req + 1, got + n, [] + t.data, [], turns);
  }

  /** An attempt nothing disturbs before its reply. */
  function Plain(reply: W.Reply, turns: seq<W.Turn>): W.Script {
    W.Script(false, false, false, false, false, reply, turns)
  }

  lemma {:induction false} TailPlain(maxRetries: int, c: ChunkVal, reply: W.Reply, turns: seq<W.Turn>, rest: seq<W.Script>, k: nat)
    requires k <= maxRetries && c.downloaded >= 0 && c.start + c.downloaded <= c.end
    ensures var req := c.start + c.downloaded;
      Tail(maxRetries, c, [Plain(reply, turns)] + rest, k)
      == match W.Judge(reply, req, c.end)
         case Some(f) => AfterFailure(maxRetries, c, f, rest, k)
         case None => AfterCopy(maxRetries, W.Copy(c, req, c.end - req + 1, 0, [], turns), rest, k)
  {
    hide W.Judge, W.Copy;
    assert ([Plain(reply, turns)] + rest)[1..] == rest;
  }

  lemma {:induction false} TailFailsEarly(maxRetries: int, c: ChunkVal, s: W.Script, f: W.Fault, rest: seq<W.Script>, k: nat)
    requires k <= maxRetries && !s.cancelledBefore && !s.cancelledInBackoff && !s.factoryFails
    requires if s.requestFails then f == W.RequestNotCreated
             else if c.downloaded < 0 || c.start + c.downloaded > c.end then f == W.BadProgress
             else s.connectFails && f == W.NotConnected
    ensures Tail(maxRetries, c, [s] + rest, k) == AfterFailure(maxRetries, c, f, rest, k)
  {
    hide W.Judge, W.Copy;
    assert ([s] + rest)[1..] == rest;
  }

  // -------------------------------------------------- the machine's steps

  /** What a worker meets at one of its steps. */
  datatype Visit = Visit(g: Shared, a: Act)

  /** Worker `w` goes from `pc` to `pcE` on chunk `c`, which nobody else touches in between. */
  ghost predicate Path(env: Env, maxRetries: int, w: nat, c: nat, ch: ChunkVal, pc: Pc, vs: seq<Visit>, chE: ChunkVal,
                       pcE: Pc)
    decreases |vs|
  {
    if vs == [] then ch == chE && pc == pcE
    else
      var m := Move(env, maxRetries, vs[0].g, w, pc, vs[0].a);
      && c < |vs[0].g.chunks| && vs[0].g.chunks[c] == ch
      && m.Moved? && HasChunk(m.pc) && m.pc.c == c && c < |m.g.chunks|
      && Path(env, maxRetries, w, c, m.g.chunks[c], m.pc, vs[1..], chE, pcE)
  }

  function EndingOf(ch: ChunkVal, pc: Pc): Ending {
    if pc.Erring? then (ch, Some(pc.fault)) else (Marked(ch), None)
  }

  predicate InAttempt(pc: Pc) {
    pc.Pausing? || pc.Ready? || pc.Opened? || pc.Asked? || InCopy(pc) || pc.Failed? || pc.Rolled?
  }

  /** What a worker in the middle of a call knows about its attempt. */
  predicate Sane(maxRetries: int, ch: ChunkVal, pc: Pc) {
    && (InAttempt(pc) ==> pc.k <= maxRetries)
    && (pc.Pausing? ==> pc.k > 0)
    && (pc.Asked? ==> pc.req == ch.start + ch.downloaded && 0 <= ch.downloaded && pc.req <= ch.end)
  }

  /** The scripts of this attempt and of later ones explain how the call ends from `pc` on. */
  ghost predicate Explains(maxRetries: int, ch: ChunkVal, pc: Pc, s: W.Script, rest: seq<W.Script>, ending: Ending) {
    match pc
    case Looping(_, k) => Tail(maxRetries, ch, [s] + rest, k) == ending
    case Pausing(_, k) => !s.cancelledBefore && Tail(maxRetries, ch, [s] + rest, k) == ending
    case Ready(_, k) => !s.cancelledBefore && !s.cancelledInBackoff && Tail(maxRetries, ch, [s] + rest, k) == ending
    case Opened(_, k, _) => !s.cancelledBefore && !s.cancelledInBackoff && Tail(maxRetries, ch, [s] + rest, k) == ending
    case Asked(_, k, _, _) => !s.cancelledBefore && !s.cancelledInBackoff && Tail(maxRetries, ch, [s] + rest, k) == ending
    case Copying(_, k, _, req, _, got) => AfterCopy(maxRetries, W.Copy(ch, req, ch.end - req + 1, got, [], s.turns), rest, k) == ending
    case Reading(_, k, _, req, _, got) => AfterCopy(maxRetries, W.Copy(ch, req, ch.end - req + 1, got, [], s.turns), rest, k) == ending
    case Wrote(_, k, _, req, _, got, n, err) =>
      AfterCopy(maxRetries, CopyOn(Clamped(ch, got + n + req - ch.start), req, got + n, err, s.turns), rest, k) == ending
    case Booked(_, k, _, req, _, got, n, err) => AfterCopy(maxRetries, CopyOn(ch, req, got, err, s.turns), rest, k) == ending
    case Failed(_, k, _, f) => AfterFailure(maxRetries, ch, f, rest, k) == ending
    case Rolled(_, k, f) => AfterFailure(maxRetries, ch, f, rest, k) == ending
    case Won(_, _) => (Marked(ch), None) == ending
    case Erring(_, f) => (ch, Some(f)) == ending
    case _ => true
  }

  /** The places inside a call. */
  predicate InCall(pc: Pc) { pc.Looping? || InAttempt(pc) }

  lemma {:induction false} StaysSane(env: Env, maxRetries: int, w: nat, c: nat, v: Visit, pc: Pc)
    requires InCall(pc) && pc.c == c && InRange(v.g, pc) && Sane(maxRetries, v.g.chunks[c], pc)
    requires Move(env, maxRetries, v.g, w, pc, v.a).Moved?
    ensures var m := Move(env, maxRetries, v.g, w, pc, v.a);
      && |m.g.chunks| == |v.g.chunks| && Sane(maxRetries, m.g.chunks[c], m.pc)
      && (InCall(m.pc) || m.pc.Won? || m.pc.Erring?)
  {
    hide WriteAt, W.Judge;
    if OnWire(pc) {
      hide MoveBooks, MoveControl, MoveSync;
    } else if InBooks(pc) {
      hide MoveWire, MoveControl, MoveSync;
    } else {
      hide MoveWire, MoveBooks, MoveSync;
    }
  }

  /** Loop head, backoff, writer. */
  lemma {:induction false} ExplainHead(env: Env, maxRetries: int, w: nat, v: Visit, pc: Pc, s: W.Script, rest: seq<W.Script>, ending: Ending)
    returns (t: W.Script, more: seq<W.Script>)
    requires (pc.Looping? || pc.Pausing? || pc.Ready?) && InRange(v.g, pc) && Sane(maxRetries, v.g.chunks[pc.c], pc)
    requires MoveControl(env, maxRetries, v.g, w, pc, v.a).Moved?
    requires var m := MoveControl(env, maxRetries, v.g, w, pc, v.a); Explains(maxRetries, v.g.chunks[pc.c], m.pc, s, rest, ending)
    ensures Explains(maxRetries, v.g.chunks[pc.c], pc, t, more, ending)
  {
    var ch, m := v.g.chunks[pc.c], MoveControl(env, maxRetries, v.g, w, pc, v.a);
    t, more := s, rest;
    if m.pc.Erring? && pc.k <= maxRetries {
      t := s.(cancelledBefore := pc.Looping?, cancelledInBackoff := true);
    }
    hide W.TurnOf;
  }

  lemma {:induction false} ExplainOpened(env: Env, maxRetries: int, v: Visit, pc: Pc, s: W.Script, rest: seq<W.Script>, ending: Ending)
    returns (t: W.Script)
    requires pc.Opened? && InRange(v.g, pc) && Sane(maxRetries, v.g.chunks[pc.c], pc)
    requires Explains(maxRetries, v.g.chunks[pc.c], MoveWire(env, v.g, pc, v.a).pc, s, rest, ending)
    ensures Explains(maxRetries, v.g.chunks[pc.c], pc, t, rest, ending)
  {
    hide Tail, AfterFailure;
    var ch, m := v.g.chunks[pc.c], MoveWire(env, v.g, pc, v.a);
    t := s;
    if m.pc.Failed? {
      t := Plain(W.Reply(0, None), []).(requestFails := v.a == Break);
      TailFailsEarly(maxRetries, ch, t, m.pc.fault, rest, pc.k);
    }
  }

  lemma {:induction false} ExplainAsked(env: Env, maxRetries: int, v: Visit, pc: Pc, s: W.Script, rest: seq<W.Script>, ending: Ending)
    returns (t: W.Script)
    requires pc.Asked? && InRange(v.g, pc) && Sane(maxRetries, v.g.chunks[pc.c], pc)
    requires Explains(maxRetries, v.g.chunks[pc.c], MoveWire(env, v.g, pc, v.a).pc, s, rest, ending)
    ensures Explains(maxRetries, v.g.chunks[pc.c], pc, t, rest, ending)
  {
    hide Tail, AfterFailure, AfterCopy, W.Judge, W.Copy;
    var ch := v.g.chunks[pc.c];
    if v.a.Answer? {
      t := Plain(v.a.reply, s.turns);
      TailPlain(maxRetries, ch, v.a.reply, s.turns, rest, pc.k);
    } else {
      t := Plain(W.Reply(0, None), []).(connectFails := true);
      TailFailsEarly(maxRetries, ch, t, W.NotConnected, rest, pc.k);
    }
  }

  /** The turn a read stands for. */
  function TurnOf(env: Env, pc: Pc, a: Act): W.Turn
    requires pc.Reading? && a.Read? && pc.from + pc.got + a.n <= |env.source|
  {
    W.Turn(false, env.source[pc.from + pc.got..pc.from + pc.got + a.n], a.took, a.writeFails, a.err)
  }

  lemma {:induction false} ExplainCopying(env: Env, maxRetries: int, v: Visit, pc: Pc, s: W.Script, rest: seq<W.Script>, ending: Ending)
    returns (t: W.Script)
    requires pc.Copying? && InRange(v.g, pc)
    requires Explains(maxRetries, v.g.chunks[pc.c], MoveWire(env, v.g, pc, v.a).pc, s, rest, ending)
    ensures Explains(maxRetries, v.g.chunks[pc.c], pc, t, rest, ending)
  {
    hide Tail, AfterFailure;
    t := if v.g.workerCancelled then s.(turns := [W.Turn(true, [], 0, false, W.NoErr)]) else s;
  }

  lemma {:induction false} ExplainReading(env: Env, maxRetries: int, v: Visit, pc: Pc, s: W.Script, rest: seq<W.Script>, ending: Ending)
    returns (t: W.Script)
    requires pc.Reading? && InRange(v.g, pc) && MoveWire(env, v.g, pc, v.a).Moved?
    requires Explains(maxRetries, v.g.chunks[pc.c], MoveWire(env, v.g, pc, v.a).pc, s, rest, ending)
    ensures Explains(maxRetries, v.g.chunks[pc.c], pc, t, rest, ending)
  {
    hide Tail, AfterFailure, WriteAt;
    var ch := v.g.chunks[pc.c];
    var turn := TurnOf(env, pc, v.a);
    t := s.(turns := [turn] + s.turns);
    if v.a.n == 0 || (!v.a.writeFails && v.a.took >= v.a.n) {
      CopyRead(ch, pc.req, pc.got, turn, s.turns);
      AfterTurnExplained(maxRetries, ch, pc.c, pc.k, pc.base, pc.req, pc.from, pc.got, v.a.err, s, rest, ending);
      hide W.Copy, CopyOn;
    }
  }

  /** Where the copy loop goes after a turn is what its specification says. */
  lemma {:induction false} AfterTurnExplained(maxRetries: int, ch: ChunkVal, c: nat, k: nat, base: int, req: int, from: nat, got: nat, err: W.ReadErr,
                                              s: W.Script, rest: seq<W.Script>, ending: Ending)
    ensures Explains(maxRetries, ch, AfterTurn(c, k, base, req, from, got, err, ch.end), s, rest, ending)
      <==> AfterCopy(maxRetries, CopyOn(ch, req, got, err, s.turns), rest, k) == ending
  {
    hide Tail, AfterFailure, W.Copy;
  }

  lemma {:induction false} ExplainBooks(maxRetries: int, v: Visit, pc: Pc, s: W.Script, rest: seq<W.Script>, ending: Ending)
    returns (t: W.Script, more: seq<W.Script>)
    requires InBooks(pc) && !pc.Won? && InRange(v.g, pc)
    requires var m := MoveBooks(v.g, pc); Explains(maxRetries, m.g.chunks[pc.c], m.pc, s, rest, ending)
    ensures Explains(maxRetries, v.g.chunks[pc.c], pc, t, more, ending)
  {
    t, more := s, rest;
    if pc.Booked? {
      AfterTurnExplained(maxRetries, v.g.chunks[pc.c], pc.c, pc.k, pc.base, pc.req, pc.from, pc.got, pc.err, s, rest, ending);
    } else if MoveBooks(v.g, pc).pc.Looping? {
      more := [s] + rest;
    }
    hide Tail, CopyOn, W.Copy;
  }

  lemma {:induction false} ExplainStep(env: Env, maxRetries: int, w: nat, v: Visit, pc: Pc, s: W.Script, rest: seq<W.Script>, ending: Ending)
    returns (t: W.Script, more: seq<W.Script>)
    requires InCall(pc) && InRange(v.g, pc) && Sane(maxRetries, v.g.chunks[pc.c], pc)
    requires var m := Move(env, maxRetries, v.g, w, pc, v.a);
      m.Moved? && |m.g.chunks| == |v.g.chunks| && Explains(maxRetries, m.g.chunks[pc.c], m.pc, s, rest, ending)
    ensures Explains(maxRetries, v.g.chunks[pc.c], pc, t, more, ending)
  {
    more := rest;
    if !InBooks(pc) {
      WireKeepsChunks(env, maxRetries, w, v, pc);
    }
    hide Explains, MoveWire, MoveBooks, MoveControl, Sane;
    if pc.Opened? {
      t := ExplainOpened(env, maxRetries, v, pc, s, rest, ending);
    } else if pc.Asked? {
      t := ExplainAsked(env, maxRetries, v, pc, s, rest, ending);
    } else if pc.Copying? {
      t := ExplainCopying(env, maxRetries, v, pc, s, rest, ending);
    } else if pc.Reading? {
      t := ExplainReading(env, maxRetries, v, pc, s, rest, ending);
    } else if InBooks(pc) {
      t, more := ExplainBooks(maxRetries, v, pc, s, rest, ending);
    } else {
      t, more := ExplainHead(env, maxRetries, w, v, pc, s, rest, ending);
    }
  }

  lemma {:induction false} WireKeepsChunks(env: Env, maxRetries: int, w: nat, v: Visit, pc: Pc)
    requires InCall(pc) && InRange(v.g, pc) && !InBooks(pc) && Move(env, maxRetries, v.g, w, pc, v.a).Moved?
    ensures Move(env, maxRetries, v.g, w, pc, v.a).g.chunks == v.g.chunks
  {
    hide WriteAt, W.Judge;
  }

  /** Backwards along the path: every place in the call is explained. */
  lemma {:induction false} ExplainPath(env: Env, maxRetries: int, w: nat, c: nat, ch: ChunkVal, pc: Pc, vs: seq<Visit>, chE: ChunkVal, pcE: Pc)
    returns (s: W.Script, rest: seq<W.Script>)
    requires Path(env, maxRetries, w, c, ch, pc, vs, chE, pcE) && (pcE.Won? || pcE.Erring?)
    requires HasChunk(pc) && pc.c == c && Sane(maxRetries, ch, pc) && (InCall(pc) || pc.Won? || pc.Erring?)
    ensures Explains(maxRetries, ch, pc, s, rest, EndingOf(chE, pcE)) || !InCall(pc)
    decreases |vs|
  {
    s, rest := W.NO_SCRIPT, [];
    if vs != [] && InCall(pc) {
      var v := vs[0];
      StaysSane(env, maxRetries, w, c, v, pc);
      var m := Move(env, maxRetries, v.g, w, pc, v.a);
      s, rest := ExplainPath(env, maxRetries, w, c, m.g.chunks[c], m.pc, vs[1..], chE, pcE);
      if !InCall(m.pc) {
        EndsThere(env, maxRetries, w, c, m.g.chunks[c], m.pc, vs[1..], chE, pcE);
      }
      hide Move, Explains, Sane;
      s, rest := ExplainStep(env, maxRetries, w, v, pc, s, rest, EndingOf(chE, pcE));
    }
  }

  /** A path that has left the call goes nowhere. */
  lemma {:induction false} EndsThere(env: Env, maxRetries: int, w: nat, c: nat, ch: ChunkVal, pc: Pc, vs: seq<Visit>, chE: ChunkVal, pcE: Pc)
    requires Path(env, maxRetries, w, c, ch, pc, vs, chE, pcE) && (pc.Won? || pc.Erring?)
    ensures ch == chE && pc == pcE
  {
  }

  // ------------------------------------------------- calls in whole chains

  /** Between states `i` and `j` of a chain worker `w` never lets go of chunk `c`. */
  ghost predicate Holds(states: seq<State>, i: nat, j: nat, w: nat, c: nat) {
    i <= j < |states| && forall t :: i <= t <= j ==>
      && states[t].Up? && w < |states[t].workers| && c < |states[t].g.chunks|
      && HasChunk(states[t].workers[w]) && states[t].workers[w].c == c
  }

  /** What happens to the chunk and the worker between two states: nothing, or one step of its own. */
  lemma {:induction false} OneStep(env: Env, states: seq<State>, events: seq<Event>, i: nat, w: nat, c: nat)
    requires DownloadTheorems.Chain(env, states, events) && i < |events| && Holds(states, i, i + 1, w, c)
    ensures states[i + 1].maxRetries == states[i].maxRetries
    ensures var e, s, s' := events[i], states[i], states[i + 1];
      if e.Step? && e.w == w then
        var m := Move(env, s.maxRetries, s.g, w, s.workers[w], e.act);
        m.Moved? && s'.workers[w] == m.pc && s'.g == m.g
      else s'.workers[w] == s.workers[w] && s'.g.chunks[c] == s.g.chunks[c]
  {
    DownloadTheorems.ChainInv(env, states, events, i);
    var e, s := events[i], states[i];
    assert Next(env, s, e, states[i + 1]);
    if e.Step? && e.w != w {
      assert WorkerOk(env, s.g, e.w, s.workers[e.w]) && WorkerOk(env, s.g, w, s.workers[w]) && SharedOk(env, s.g);
      hide Inv, SharedOk, WorkerOk, Move, Next;
      assert Next(env, s, e, states[i + 1]);
      OthersStep(env, s, e, states[i + 1], w, c);
    } else {
      hide Inv, Move, Snapshot;
    }
  }

  lemma {:induction false} OthersStep(env: Env, s: State, e: Event, s': State, w: nat, c: nat)
    requires env.Valid() && s.Up? && e.Step? && e.w != w && Next(env, s, e, s')
    requires SharedOk(env, s.g) && w < |s.workers| && c < |s.g.chunks| && |s.g.owner| == |s.g.excess| == |s.g.chunks|
    requires WorkerOk(env, s.g, w, s.workers[w]) && WorkerOk(env, s.g, e.w, s.workers[e.w])
    requires HasChunk(s.workers[w]) && s.workers[w].c == c
    ensures c < |s'.g.chunks| && s'.workers[w] == s.workers[w] && s'.g.chunks[c] == s.g.chunks[c] && s'.maxRetries == s.maxRetries
  {
    assert s.g.owner[c] == Some(w);
    assert InRange(s.g, s.workers[e.w]);
    hide SharedOk, WorkerOk, Move;
    WorkerStep(env, s.maxRetries, s.g, e.w, s.workers[e.w], e.act);
    hide Kept;
  }

  lemma {:induction false} PathOf(env: Env, states: seq<State>, events: seq<Event>, i: nat, j: nat, w: nat, c: nat)
    returns (vs: seq<Visit>)
    requires DownloadTheorems.Chain(env, states, events) && j < |states| && Holds(states, i, j, w, c)
    ensures Path(env, states[i].maxRetries, w, c, states[i].g.chunks[c], states[i].workers[w], vs, states[j].g.chunks[c], states[j].workers[w])
    decreases j - i
  {
    if i == j {
      vs := [];
    } else {
      OneStep(env, states, events, i, w, c);
      hide DownloadTheorems.Chain, Move;
      vs := PathOf(env, states, events, i + 1, j, w, c);
      if events[i].Step? && events[i].w == w {
        var v := Visit(states[i].g, events[i].act);
        assert ([v] + vs)[1..] == vs;
        vs := [v] + vs;
      }
    }
  }

  /** Each time a worker of a chain goes through `downloadChunk`, from the head of the retry loop to its verdict,
      the chunk and the error it ends with are those of a call of the sequential model on the same chunk, whatever
      the other workers, cancellations and saves did in between. */
  lemma CallsAreCalls(env: Env, states: seq<State>, events: seq<Event>, i: nat, j: nat, w: nat, c: nat)
    returns (scripts: seq<W.Script>)
    requires DownloadTheorems.Chain(env, states, events) && j < |states| && Holds(states, i, j, w, c)
    requires states[i].workers[w] == Looping(c, 0) && (states[j].workers[w].Won? || states[j].workers[w].Erring?)
    ensures var o := W.Retry(states[i].g.chunks[c], scripts, 0, 0, states[i].maxRetries, []);
      (o.chunk, o.fault) == EndingOf(states[j].g.chunks[c], states[j].workers[w])
  {
    var ch, maxRetries := states[i].g.chunks[c], states[i].maxRetries;
    var vs := PathOf(env, states, events, i, j, w, c);
    hide DownloadTheorems.Chain, Path, Tail;
    var s, rest := ExplainPath(env, maxRetries, w, c, ch, states[i].workers[w], vs, states[j].g.chunks[c], states[j].workers[w]);
    scripts := [s] + rest;
    TailIsRetry(maxRetries, ch, scripts, 0, 0, []);
    assert scripts[0..] == scripts;
  }
}
