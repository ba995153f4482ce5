/** What a whole `downloadChunk` call guarantees, over every environment (pkg/engine/worker.go:19-194). */
module Retries {
  import opened Bytes
  import opened Chunks
  import opened Worker

  /** The attempts of one call, each starting from the chunk the previous one left. */
  ghost predicate Linked(c0: ChunkVal, log: seq<Trial>, c: ChunkVal, n: int)
    decreases |log|
  {
    if log == [] then c == c0 && c0.Sound(n)
    else
      var t := log[|log| - 1];
      TrialOk(t, n) && c == t.after && Linked(c0, log[..|log| - 1], t.before, n)
  }

  function Got(t: Trial): int { t.got }

  /** The log of a call is linked, bounded by the retry budget, and succeeds exactly when its last attempt
      does; `last` is the chunk as that attempt leaves it. */
  lemma {:induction false} RetryLinks(c0: ChunkVal, c: ChunkVal, scripts: seq<Script>, k: nat, retries: nat, maxRetries: int, log: seq<Trial>, n: int)
    returns (last: ChunkVal)
    requires Linked(c0, log, c, n) && |log| <= k
    requires log != [] ==> log[|log| - 1].fault != None
    ensures var o := Retry(c, scripts, k, retries, maxRetries, log);
      && |o.log| <= Max(k, maxRetries + 1)
      && Linked(c0, o.log, last, n)
      && o.chunk == (if o.fault == None then Marked(last) else last)
      && (o.fault == None <==> o.log != [] && o.log[|o.log| - 1].fault == None)
    decreases maxRetries + 1 - k
  {
    hide Linked, TrialOk, Attempt;
    last := c;
    if k <= maxRetries {
      var r := TurnOf(c, ScriptAt(scripts, k), k);
      if r.trials == [] {
        assert log + r.trials == log;
      } else {
        var t := Attempt(c, ScriptAt(scripts, k));
        LinkedSound(c0, log, c, n);
        AttemptFacts(c, ScriptAt(scripts, k), n);
        LinkedSnoc(c0, log, c, t, n);
        last := t.after;
        if r.again {
          last := RetryLinks(c0, t.after, scripts, k + 1, retries + r.retries, maxRetries, log + [t], n);
        }
      }
    }
  }

  lemma LinkedSound(c0: ChunkVal, log: seq<Trial>, c: ChunkVal, n: int)
    requires Linked(c0, log, c, n)
    ensures c0.Sound(n) && c.Sound(n)
    decreases |log|
  {
    if log != [] {
      LinkedSound(c0, log[..|log| - 1], log[|log| - 1].before, n);
    }
  }

  lemma LinkedSnoc(c0: ChunkVal, log: seq<Trial>, c: ChunkVal, t: Trial, n: int)
    requires Linked(c0, log, c, n) && TrialOk(t, n) && t.before == c
    ensures Linked(c0, log + [t], t.after, n)
  {
    assert (log + [t])[..|log|] == log;
  }

  /** Each attempt starts from the chunk the one before it left. */
  lemma {:induction false} LinkedAt(c0: ChunkVal, log: seq<Trial>, c: ChunkVal, n: int, i: nat)
    requires Linked(c0, log, c, n) && i < |log|
    ensures TrialOk(log[i], n) && log[i].base == log[i].req
    ensures log[i].before == if i == 0 then c0 else log[i - 1].after
    decreases |log|
  {
    var front := log[..|log| - 1];
    if i < |front| {
      LinkedAt(c0, front, log[|front|].before, n, i);
    }
  }

  /** Progress after a linked log is what was booked, cut at the chunk's end. */
  lemma {:induction false} LinkedSum(c0: ChunkVal, log: seq<Trial>, c: ChunkVal, n: int)
    requires Linked(c0, log, c, n)
    ensures c == c0.(downloaded := Min(c0.downloaded + Sum(Got, log), c0.Size())) && 0 <= Sum(Got, log)
    decreases |log|
  {
    if log != [] {
      var front, t := log[..|log| - 1], log[|log| - 1];
      assert log == front + [t];
      SumSnoc(Got, front, t);
      LinkedSum(c0, front, t.before, n);
    }
  }

  lemma {:induction false} LinkedOrder(c0: ChunkVal, log: seq<Trial>, c: ChunkVal, n: int, i: nat, j: nat)
    requires Linked(c0, log, c, n) && i < j < |log|
    ensures log[i].req <= log[j].req
    decreases j
  {
    LinkedStep(c0, log, c, n, j - 1);
    if i < j - 1 {
      LinkedOrder(c0, log, c, n, i, j - 1);
    }
  }

  lemma LinkedStep(c0: ChunkVal, log: seq<Trial>, c: ChunkVal, n: int, i: nat)
    requires Linked(c0, log, c, n) && i + 1 < |log|
    ensures log[i + 1].req == Min(log[i].req + log[i].got, log[i].before.end + 1)
    ensures log[i].req <= log[i + 1].req <= log[i + 1].before.end + 1
    ensures log[i + 1].before.end == log[i].before.end
  {
    LinkedAt(c0, log, c, n, i);
    LinkedAt(c0, log, c, n, i + 1);
  }

  lemma {:induction false} LinkedRange(c0: ChunkVal, log: seq<Trial>, c: ChunkVal, n: int, i: nat)
    requires Linked(c0, log, c, n) && i < |log|
    ensures log[i].before.start == c0.start && log[i].before.end == c0.end
    decreases i
  {
    LinkedAt(c0, log, c, n, i);
    if i > 0 {
      LinkedRange(c0, log, c, n, i - 1);
      LinkedAt(c0, log, c, n, i - 1);
    }
  }

  /** Retries fetch exactly once. Over one call, for every environment: at most MaxRetries + 1 attempts; every
      writer stands where its request starts; request starts never decrease; and on success consecutive
      attempts pick up where the previous one's booked bytes end, adding up to the part that was missing. */
  lemma RetriesFetchOnce(c: ChunkVal, scripts: seq<Script>, maxRetries: int, n: int)
    requires c.Sound(n)
    ensures var o := Retry(c, scripts, 0, 0, maxRetries, []);
      && |o.log| <= Max(0, maxRetries + 1)
      && (forall i :: 0 <= i < |o.log| ==> o.log[i].base == o.log[i].req)
      && (forall i, j :: 0 <= i < j < |o.log| ==> o.log[i].req <= o.log[j].req)
      && (o.fault == None ==>
        && o.log != []
        && o.log[0].req == c.start + c.downloaded
        && (forall i :: 0 <= i < |o.log| - 1 ==> o.log[i + 1].req == o.log[i].req + o.log[i].got)
        && Sum(Got, o.log) == c.Size() - c.downloaded
        && o.chunk == Marked(c))
  {
    hide Retry, TrialOk;
    var o := Retry(c, scripts, 0, 0, maxRetries, []);
    var last := RetryLinks(c, c, scripts, 0, 0, maxRetries, [], n);
    hide Linked;
    forall i | 0 <= i < |o.log| ensures o.log[i].base == o.log[i].req {
      LinkedAt(c, o.log, last, n, i);
    }
    forall i, j | 0 <= i < j < |o.log| ensures o.log[i].req <= o.log[j].req {
      LinkedOrder(c, o.log, last, n, i, j);
    }
    if o.fault == None {
      LinkedSuccess(c, o.log, last, n);
    }
  }

  lemma LinkedSuccess(c0: ChunkVal, log: seq<Trial>, c: ChunkVal, n: int)
    requires Linked(c0, log, c, n) && log != [] && log[|log| - 1].fault == None
    ensures log[0].req == c0.start + c0.downloaded
    ensures forall i :: 0 <= i < |log| - 1 ==> log[i + 1].req == log[i].req + log[i].got
    ensures Sum(Got, log) == c0.Size() - c0.downloaded
    ensures Marked(c) == Marked(c0)
  {
    var z := |log| - 1;
    LinkedAt(c0, log, c, n, 0);
    LinkedAt(c0, log, c, n, z);
    LinkedSum(c0, log[..z], log[z].before, n);
    assert log == log[..z] + [log[z]];
    SumSnoc(Got, log[..z], log[z]);
    assert log[z].before == c0.(downloaded := c0.downloaded + Sum(Got, log[..z]));
    hide Linked, TrialOk;
    forall i | 0 <= i < z ensures log[i + 1].req == log[i].req + log[i].got {
      LinkedNext(c0, log, c, n, i);
    }
  }

  /** When the last attempt succeeds, no earlier one ran past the chunk's end. */
  lemma LinkedNext(c0: ChunkVal, log: seq<Trial>, c: ChunkVal, n: int, i: nat)
    requires Linked(c0, log, c, n) && i < |log| - 1 && log[|log| - 1].fault == None
    ensures log[i + 1].req == log[i].req + log[i].got
  {
    hide Linked;
    var z := |log| - 1;
    LinkedStep(c0, log, c, n, i);
    LinkedRange(c0, log, c, n, i);
    LinkedRange(c0, log, c, n, z);
    LinkedAt(c0, log, c, n, z);
    if i + 1 < z {
      LinkedOrder(c0, log, c, n, i + 1, z);
    }
  }

  /** A server whose bodies are what its replies say: a 200 carries a prefix of the source, a 206 a prefix of it from
      the first byte of its Content-Range on, whatever was asked for. */
  ghost predicate Honest(source: seq<byte>, t: Trial) {
    t.reply.Some? && t.body != [] ==> Origin(t.reply.value) <= |source| && t.body <= source[Origin(t.reply.value)..]
  }

  lemma HonestTaken(source: seq<byte>, t: Trial)
    requires TrialOk(t, |source|) && Honest(source, t)
    ensures t.req + |t.taken| <= |source| && t.taken == source[t.req..t.req + |t.taken|]
  {
    if t.body != [] {
      assert t.taken == source[t.req..][..|t.taken|];
    }
  }

  lemma SuccessTakes(source: seq<byte>, t: Trial)
    requires TrialOk(t, |source|) && Honest(source, t) && t.fault == None
    ensures t.before.start <= t.req <= t.before.end
    ensures t.taken == source[t.req..t.before.end + 1]
    ensures t.taken == source[t.before.start..t.before.end + 1] <==> t.req == t.before.start
  {
    HonestTaken(source, t);
    assert |source[t.before.start..t.before.end + 1]| == t.before.Size();
  }

  /** Stream slots: after a successful call the last writer holds exactly `source[s..End]`, where `s` is the
      last attempt's request start; it is the chunk's whole range if and only if that attempt began at
      `Start`. A retry that resumed mid-chunk therefore delivers a slot without the bytes before it. */
  lemma SlotContents(c: ChunkVal, scripts: seq<Script>, maxRetries: int, source: seq<byte>)
    requires c.Sound(|source|)
    requires Retry(c, scripts, 0, 0, maxRetries, []).fault == None
    requires forall t :: t in Retry(c, scripts, 0, 0, maxRetries, []).log ==> Honest(source, t)
    ensures var o := Retry(c, scripts, 0, 0, maxRetries, []);
      && o.log != []
      && var last := o.log[|o.log| - 1];
      && c.start <= last.req <= c.end
      && last.taken == source[last.req..c.end + 1]
      && (last.taken == source[c.start..c.end + 1] <==> last.req == c.start)
  {
    hide Retry, TrialOk, Honest;
    var o := Retry(c, scripts, 0, 0, maxRetries, []);
    var c' := RetryLinks(c, c, scripts, 0, 0, maxRetries, [], |source|);
    hide Linked;
    var z := |o.log| - 1;
    LinkedAt(c, o.log, c', |source|, z);
    LinkedRange(c, o.log, c', |source|, z);
    assert o.log[z] in o.log;
    SuccessTakes(source, o.log[z]);
  }

  // -------------------------------------------- which replies are taken

  /** The faults of the copy loop, and those of a reply that is refused. */
  const COPY_FAULTS := {Cancelled, WriteFailed, ShortWrite, ReadFailed, LengthMismatch}
  const REFUSALS := {ClientError, UnexpectedStatus, RangeIgnored, BadRange}

  /** Which replies an attempt takes, when its request is sent and answered: a partial response for exactly the range
      asked for, of a resource that is not too short for it, or the whole resource when it was asked for from byte 0 on.
      It then copies the body; any other reply changes nothing. */
  lemma {:induction false} TakenIff(c: ChunkVal, s: Script, n: int)
    requires c.Sound(n) && c.downloaded < c.Size() && !s.requestFails && !s.connectFails
    ensures var t, req, r := Attempt(c, s), c.start + c.downloaded, s.reply;
      var takes := (r.status == 200 && req == 0)
        || (r.status == 206 && r.range.Some? && r.range.value.first == req && r.range.value.last == c.end
            && (r.range.value.total <= 0 || r.range.value.total > c.end));
      && (takes <==> t.fault == None || t.fault.value in COPY_FAULTS)
      && (takes ==>
            var k := Copy(c, req, c.end - req + 1, 0, [], s.turns);
            t.body == Body(s.turns) && t.after == k.chunk && t.got == k.got && t.taken == k.taken && t.fault == k.fault)
      && (!takes ==> t.fault.Some? && t.fault.value in REFUSALS && t.after == c && t.got == 0 && t.body == t.taken == [])
  {
    CopyFaults(c, c.start + c.downloaded, c.Size() - c.downloaded, 0, [], s.turns);
    hide Copy, Body;
  }

  lemma {:induction false} CopyFaults(c: ChunkVal, req: int, expected: int, got: nat, taken: seq<byte>, turns: seq<Turn>)
    ensures var k := Copy(c, req, expected, got, taken, turns); k.fault.Some? ==> k.fault.value in COPY_FAULTS
    decreases |turns|
  {
    if turns != [] && !turns[0].cancelled {
      var t := turns[0];
      var n := |t.data|;
      if !(n > 0 && (t.writeFails || Min(t.took, n) != n)) && t.err == NoErr {
        CopyFaults(if n > 0 then Clamped(c, got + n + req - c.start) else c, req, expected, got + n, taken + t.data, turns[1..]);
      }
    }
  }

  /** A reply that no later one can make good: a client error, or the whole resource for a request past byte 0. */
  predicate Final(t: Trial) {
    t.reply.Some? && (t.reply.value.status in {400, 401, 403, 404, 410, 416} || (t.reply.value.status == 200 && t.req > 0))
  }

  /** How a call ends. Every attempt but the last failed, in a way that allows another; a final reply ends the call with
      its error; and the budget is used up exactly when all its attempts were made and the last one allows another. */
  lemma CallEnds(c: ChunkVal, scripts: seq<Script>, maxRetries: int, n: int)
    requires c.Sound(n) && 0 <= maxRetries
    ensures var o := Retry(c, scripts, 0, 0, maxRetries, []);
      && (forall i :: 0 <= i < |o.log| - 1 ==> o.log[i].fault.Some? && !Final(o.log[i]))
      && (o.log != [] && Final(o.log[|o.log| - 1]) ==>
            o.fault == o.log[|o.log| - 1].fault && o.fault in {Some(ClientError), Some(RangeIgnored)})
      && (o.fault == Some(Exhausted) <==>
            |o.log| == maxRetries + 1 && o.log[maxRetries].fault.Some? && !Final(o.log[maxRetries]))
      && (o.fault.Some? && o.fault.value !in {Exhausted, Cancelled, WriterNotCreated} ==> o.log != [] && Final(o.log[|o.log| - 1]))
  {
    hide Retry;
    EndsFrom(c, scripts, 0, 0, maxRetries, [], n);
  }

  /** An attempt that fails without a final reply. */
  predicate Repeatable(t: Trial) { t.fault.Some? && !Final(t) }

  predicate FatalIfFinal(t: Trial) { Final(t) <==> t.fault.Some? && Fatal(t.fault.value) }

  lemma {:induction false} FinalIsFatal(c: ChunkVal, s: Script, n: int)
    requires c.Sound(n)
    ensures var t := Attempt(c, s);
      t.fault != Some(Exhausted) && FatalIfFinal(t)
  {
    if !s.requestFails && c.downloaded < c.Size() && !s.connectFails {
      TakenIff(c, s, n);
    }
    hide Copy, Body;
  }

  lemma {:induction false} EndsFrom(c: ChunkVal, scripts: seq<Script>, k: nat, retries: nat, maxRetries: int, log: seq<Trial>, n: int)
    requires c.Sound(n) && |log| == k <= maxRetries + 1 && forall i :: 0 <= i < k ==> Repeatable(log[i])
    ensures var o := Retry(c, scripts, k, retries, maxRetries, log);
      && (forall i :: 0 <= i < |o.log| - 1 ==> Repeatable(o.log[i]))
      && (o.log != [] && Final(o.log[|o.log| - 1]) ==>
            o.fault == o.log[|o.log| - 1].fault && o.fault in {Some(ClientError), Some(RangeIgnored)})
      && (o.fault == Some(Exhausted) <==> |o.log| == maxRetries + 1 && (maxRetries >= 0 ==> Repeatable(o.log[maxRetries])))
      && (o.fault.Some? && o.fault.value !in {Exhausted, Cancelled, WriterNotCreated} ==> o.log != [] && Final(o.log[|o.log| - 1]))
    decreases maxRetries + 1 - k
  {
    hide Attempt, TrialOk, Final;
    if k <= maxRetries {
      var s := ScriptAt(scripts, k);
      AttemptFacts(c, s, n);
      FinalIsFatal(c, s, n);
      var r, t := TurnOf(c, s, k), Attempt(c, s);
      if r.again {
        AfterSound(t, n);
        EndsFrom(r.chunk, scripts, k + 1, retries + r.retries, maxRetries, log + r.trials, n);
      } else if r.trials == [] {
        assert log + [] == log;
      }
    }
  }

  lemma AfterSound(t: Trial, n: int)
    requires TrialOk(t, n)
    ensures t.after.Sound(n)
  {
  }

  /** A server that accepts the request and delivers `data` in one read. */
  function OneReply(c: ChunkVal, data: seq<byte>, err: ReadErr): Script {
    Script(false, false, false, false, false,
           Reply(206, Some(ContentRange(c.start + c.downloaded, c.end, 0))),
           [Turn(false, data, |data|, false, err)])
  }

  lemma OneReplyTrial(c: ChunkVal, data: seq<byte>, err: ReadErr, n: int)
    requires c.Sound(n) && c.downloaded < c.Size() && data != [] && |data| <= c.Size() - c.downloaded && err != NoErr
    ensures Attempt(c, OneReply(c, data, err))
         == Trial(c, c.(downloaded := c.downloaded + |data|), c.start + c.downloaded, c.start + c.downloaded,
                  true, Some(OneReply(c, data, err).reply), data, |data|, data,
                  if |data| == c.Size() - c.downloaded then None else if err == Broken then Some(ReadFailed) else Some(LengthMismatch))
  {
    var s := OneReply(c, data, err);
    var req := c.start + c.downloaded;
    assert Judge(s.reply, req, c.end) == None;
    assert [] + data == data && s.turns[1..] == [] && data + [] == data;
    assert Body(s.turns) == data + Body(s.turns[1..]);
  }

  predicate Undisturbed(s: Script) { !s.cancelledBefore && !s.cancelledInBackoff && !s.factoryFails }

  lemma FailThenWin(c: ChunkVal, s0: Script, s1: Script)
    requires Undisturbed(s0) && Undisturbed(s1)
    requires Attempt(c, s0).fault.Some? && !Fatal(Attempt(c, s0).fault.value)
    requires Attempt(Attempt(c, s0).after, s1).fault == None
    ensures var t0 := Attempt(c, s0);
      var t1 := Attempt(t0.after, s1);
      Retry(c, [s0, s1], 0, 0, 1, []) == Outcome(Marked(t1.after), 1, [t0, t1], None)
  {
    hide Attempt;
    var t0 := Attempt(c, s0);
    var t1 := Attempt(t0.after, s1);
    assert [] + [t0] == [t0] && [t0] + [t1] == [t0, t1];
    assert TurnOf(c, s0, 0) == Turned(t0.after, 0, [t0], t0.fault, true);
    assert TurnOf(t0.after, s1, 1) == Turned(Marked(t1.after), 1, [t1], None, false);
    hide TurnOf;
    assert Retry(t0.after, [s0, s1], 1, 0, 1, [t0]) == Outcome(Marked(t1.after), 1, [t0, t1], None);
  }

  /** It happens, at every place: a first attempt that breaks off after `m` bytes and a retry that succeeds fill
      the slot with the chunk from byte `m` on. */
  lemma MidChunkRetryLosesBytes(c: ChunkVal, source: seq<byte>, m: nat) returns (scripts: seq<Script>)
    requires c.Sound(|source|) && c.downloaded == 0 && 0 < m < c.Size()
    ensures var o := Retry(c, scripts, 0, 0, 1, []);
      && o.fault == None && (forall t :: t in o.log ==> Honest(source, t))
      && o.log != [] && o.log[|o.log| - 1].taken == source[c.start + m..c.end + 1]
  {
    hide Attempt, Retry;
    var head, rest := source[c.start..c.start + m], source[c.start + m..c.end + 1];
    var d := c.(downloaded := m);
    scripts := [OneReply(c, head, Broken), OneReply(d, rest, Eof)];
    OneReplyTrial(c, head, Broken, |source|);
    OneReplyTrial(d, rest, Eof, |source|);
    FailThenWin(c, scripts[0], scripts[1]);
    hide OneReply;
    assert head == source[c.start..][..m] && rest == source[c.start + m..][..|rest|];
  }

  /** The file keeps every stretch of the source it held, and holds the chunk's new done prefix, whatever
      failed on the way: cut connections, short and failed writes, overlong bodies. */
  lemma FileHoldsProgress(c: ChunkVal, scripts: seq<Script>, maxRetries: int, source: seq<byte>, file: seq<byte>, lo: int, hi: int)
    requires c.Sound(|source|)
    requires forall t :: t in Retry(c, scripts, 0, 0, maxRetries, []).log ==> Honest(source, t)
    requires Agree(file, source, c.start, c.start + c.downloaded)
    requires Agree(file, source, lo, hi)
    ensures var o := Retry(c, scripts, 0, 0, maxRetries, []);
      && Agree(Written(file, o.log), source, c.start, c.start + o.chunk.downloaded)
      && Agree(Written(file, o.log), source, lo, hi)
  {
    var o := Retry(c, scripts, 0, 0, maxRetries, []);
    var last := RetryLinks(c, c, scripts, 0, 0, maxRetries, [], |source|);
    LinkedFile(c, o.log, last, source, file, lo, hi);
    LinkedSum(c, o.log, last, |source|);
  }

  lemma {:induction false} LinkedFile(c0: ChunkVal, log: seq<Trial>, c: ChunkVal, source: seq<byte>, file: seq<byte>, lo: int, hi: int)
    requires Linked(c0, log, c, |source|)
    requires forall t :: t in log ==> Honest(source, t)
    requires Agree(file, source, c0.start, c0.start + c0.downloaded) && Agree(file, source, lo, hi)
    ensures c.start == c0.start
    ensures Agree(Written(file, log), source, c.start, c.start + c.downloaded)
    ensures Agree(Written(file, log), source, lo, hi)
    decreases |log|
  {
    if log != [] {
      var front, t := log[..|log| - 1], log[|log| - 1];
      assert TrialOk(t, |source|) && c == t.after && Honest(source, t);
      LinkedFile(c0, front, t.before, source, file, lo, hi);
      hide Linked, TrialOk, Honest, Agree, WriteAt;
      TrialFile(t, source, Written(file, front), lo, hi);
    }
  }

  /** One attempt's writes. */
  lemma {:induction false} TrialFile(t: Trial, source: seq<byte>, f: seq<byte>, lo: int, hi: int)
    requires TrialOk(t, |source|) && Honest(source, t)
    requires Agree(f, source, t.before.start, t.before.start + t.before.downloaded) && Agree(f, source, lo, hi)
    ensures t.after.start == t.before.start
    ensures var f' := WriteAt(f, Nat(t.base), t.taken);
      Agree(f', source, t.after.start, t.after.start + t.after.downloaded) && Agree(f', source, lo, hi)
  {
    HonestTaken(source, t);
    WriteKeepsAgree(f, source, t.base, |t.taken|, lo, hi);
    WriteExtendsAgree(f, source, t.base, |t.taken|, t.before.start);
    hide WriteAt, Honest;
  }

  /** A script under which an attempt on an unfinished chunk succeeds. */
  function GoodScript(c: ChunkVal): Script {
    OneReply(c, Zeros(Nat(c.Size() - c.downloaded)), Eof)
  }

  lemma GoodScriptWorks(c: ChunkVal, n: int, maxRetries: int)
    requires c.Sound(n) && c.downloaded < c.Size() && 0 <= maxRetries
    ensures Retry(c, [GoodScript(c)], 0, 0, maxRetries, []).fault == None
  {
    OneReplyTrial(c, Zeros(Nat(c.Size() - c.downloaded)), Eof, n);
    hide Attempt;
  }

  /** A chunk can be finished by some call if and only if part of it is missing. A chunk with all its bytes
      but without its flag, as a cancel right before the end of the body leaves it, fails in every call, and
      never sends a request. */
  lemma ResumableIff(c: ChunkVal, n: int, maxRetries: int)
    requires c.Sound(n) && 0 <= maxRetries
    ensures (exists scripts :: Retry(c, scripts, 0, 0, maxRetries, []).fault == None) <==> c.downloaded < c.Size()
    ensures c.downloaded == c.Size() ==>
      forall scripts, t :: t in Retry(c, scripts, 0, 0, maxRetries, []).log ==> !t.asked
  {
    if c.downloaded < c.Size() {
      GoodScriptWorks(c, n, maxRetries);
    } else {
      forall scripts
        ensures Retry(c, scripts, 0, 0, maxRetries, []).fault != None
        ensures forall t :: t in Retry(c, scripts, 0, 0, maxRetries, []).log ==> !t.asked
      {
        var o := Retry(c, scripts, 0, 0, maxRetries, []);
        var last := RetryLinks(c, c, scripts, 0, 0, maxRetries, [], n);
        forall t | t in o.log ensures !t.asked {
          var i :| 0 <= i < |o.log| && o.log[i] == t;
          LinkedFull(c, o.log, last, n, i);
        }
        if o.log != [] {
          LinkedAt(c, o.log, last, n, |o.log| - 1);
          LinkedFull(c, o.log, last, n, |o.log| - 1);
        }
      }
    }
  }

  lemma {:induction false} LinkedFull(c0: ChunkVal, log: seq<Trial>, c: ChunkVal, n: int, i: nat)
    requires Linked(c0, log, c, n) && c0.downloaded == c0.Size() && i < |log|
    ensures log[i].before == c0 && !log[i].asked
    decreases i
  {
    LinkedAt(c0, log, c, n, i);
    if i > 0 {
      LinkedFull(c0, log, c, n, i - 1);
      LinkedAt(c0, log, c, n, i - 1);
    }
  }
}
