/** One chunk's download: the copy loop, response validation, and retries that resume mid-chunk
    (pkg/engine/worker.go). What the network, the context and the disk do is a `Script` per attempt. */
module Worker {
  import opened Bytes
  import opened Chunks
  import opened Progress

  datatype Fault =
    | Cancelled
    | WriterNotCreated
    | RequestNotCreated
    | BadProgress
    | NotConnected
    | ClientError
    | UnexpectedStatus
    | RangeIgnored
    | BadRange
    | WriteFailed
    | ShortWrite
    | ReadFailed
    | LengthMismatch
    | Exhausted

  /** The errors that end the retry loop at once. */
  predicate Fatal(f: Fault) { f == ClientError || f == RangeIgnored }

  datatype ContentRange = ContentRange(first: int, last: int, total: int)

  /** A response head; `range` is the parsed Content-Range header, if it parses. */
  datatype Reply = Reply(status: int, range: Option<ContentRange>)

  datatype ReadErr = NoErr | Eof | Broken

  /** One turn of the copy loop: is the context done, what the read gives, what the writer takes of it. */
  datatype Turn = Turn(cancelled: bool, data: seq<byte>, took: nat, writeFails: bool, err: ReadErr)

  /** What the environment does to one attempt. */
  datatype Script = Script(
    cancelledBefore: bool, cancelledInBackoff: bool, factoryFails: bool,
    requestFails: bool, connectFails: bool, reply: Reply, turns: seq<Turn>)

  const NO_SCRIPT := Script(true, true, false, false, false, Reply(0, None), [])

  function ScriptAt(scripts: seq<Script>, k: nat): Script {
    if k < |scripts| then scripts[k] else NO_SCRIPT
  }

  const CLIENT_ERRORS := {400, 401, 403, 404, 410, 416}

  /** What the response head alone decides for a request of `[req, end]`. */
  function Judge(reply: Reply, req: int, end: int): Option<Fault> {
    if reply.status in CLIENT_ERRORS then Some(ClientError)
    else if reply.status != 206 && reply.status != 200 then Some(UnexpectedStatus)
    else if reply.status == 200 && req > 0 then Some(RangeIgnored)
    else if reply.status == 200 then None
    else match reply.range
      case None => Some(BadRange)
      case Some(r) =>
        if r.first != req || r.last != end || (r.total > 0 && r.total < end + 1) then Some(BadRange) else None
  }

  /** Where in the resource the body of a reply begins: a partial response says so, any other is the whole. */
  function Origin(reply: Reply): nat {
    if reply.status == 206 && reply.range.Some? then Nat(reply.range.value.first) else 0
  }

  /** The state the copy loop ends in: the chunk, the bytes it booked, the bytes its writer took. */
  datatype Copied = Copied(chunk: ChunkVal, got: nat, taken: seq<byte>, fault: Option<Fault>)

  function Copy(c: ChunkVal, req: int, expected: int, got: nat, taken: seq<byte>, turns: seq<Turn>): Copied
    decreases |turns|
  {
    if turns == [] || turns[0].cancelled then Copied(c, got, taken, Some(Cancelled))
    else
      var t := turns[0];
      var n := |t.data|;
      var took := Min(t.took, n);
      if n > 0 && t.writeFails then Copied(c, got, taken + t.data[..took], Some(WriteFailed))
      else if n > 0 && took != n then Copied(c, got, taken + t.data[..took], Some(ShortWrite))
      else
        var c' := if n > 0 then Clamped(c, got + n + req - c.start) else c;
        if t.err == NoErr then Copy(c', req, expected, got + n, taken + t.data, turns[1..])
        else if t.err == Broken && got + n != expected then Copied(c', got + n, taken + t.data, Some(ReadFailed))
        else Copied(c', got + n, taken + t.data, if got + n != expected then Some(LengthMismatch) else None)
  }

  /** The bytes a server delivers in the turns of a script. */
  function Body(turns: seq<Turn>): seq<byte> {
    if turns == [] then [] else turns[0].data + Body(turns[1..])
  }

  /** One attempt: the chunk before and after, where its writer stands, where its request starts (if one
      is sent), the reply if one comes, the body that is read of it, what was booked, what the writer took, and how
      it failed. */
  datatype Trial = Trial(
    before: ChunkVal, after: ChunkVal, base: int, req: int, asked: bool,
    reply: Option<Reply>, body: seq<byte>, got: nat, taken: seq<byte>, fault: Option<Fault>)

  function Attempt(c: ChunkVal, s: Script): Trial {
    var base := c.start + c.downloaded;
    var req := c.start + c.downloaded;
    if s.requestFails then Trial(c, c, base, req, false, None, [], 0, [], Some(RequestNotCreated))
    else if req < c.start || req > c.end then Trial(c, c, base, req, false, None, [], 0, [], Some(BadProgress))
    else if s.connectFails then Trial(c, c, base, req, true, None, [], 0, [], Some(NotConnected))
    else if Judge(s.reply, req, c.end).Some? then Trial(c, c, base, req, true, Some(s.reply), [], 0, [], Judge(s.reply, req, c.end))
    else
      var k := Copy(c, req, c.end - req + 1, 0, [], s.turns);
      Trial(c, k.chunk, base, req, true, Some(s.reply), Body(s.turns), k.got, k.taken, k.fault)
  }

  datatype Outcome = Outcome(chunk: ChunkVal, retries: nat, log: seq<Trial>, fault: Option<Fault>)

  /** One turn of the retry loop, attempt `k`: what it leaves of the chunk, how much it adds to `Retries`,
      the attempt it made (if nothing stopped it first), and whether the loop goes on. */
  datatype Turned = Turned(chunk: ChunkVal, retries: nat, trials: seq<Trial>, fault: Option<Fault>, again: bool)

  function TurnOf(c: ChunkVal, s: Script, k: nat): Turned {
    var retries := if !s.cancelledBefore && k > 0 then 1 else 0;
    if s.cancelledBefore || (k > 0 && s.cancelledInBackoff) then Turned(c, retries, [], Some(Cancelled), false)
    else if s.factoryFails then Turned(c, retries, [], Some(WriterNotCreated), false)
    else
      var t := Attempt(c, s);
      if t.fault == None then Turned(Marked(t.after), retries, [t], None, false)
      else Turned(t.after, retries, [t], t.fault, !Fatal(t.fault.value))
  }

  /** `downloadChunk` from attempt `k` on. */
  function Retry(c: ChunkVal, scripts: seq<Script>, k: nat, retries: nat, maxRetries: int, log: seq<Trial>): Outcome
    decreases maxRetries + 1 - k
  {
    if k > maxRetries then Outcome(c, retries, log, Some(Exhausted))
    else
      var r := TurnOf(c, ScriptAt(scripts, k), k);
      if r.again then Retry(r.chunk, scripts, k + 1, retries + r.retries, maxRetries, log + r.trials)
      else Outcome(r.chunk, retries + r.retries, log + r.trials, r.fault)
  }

  // ------------------------------------------------------------ the code

  /** The destination file of `io.NewOffsetWriter`. */
  class FileHandle {
    var data: seq<byte>

    method WriteAt(bytes: seq<byte>, off: nat)
      modifies this
      ensures data == Bytes.WriteAt(old(data), off, bytes)
    {
      data := Bytes.WriteAt(data, off, bytes);
    }
  }

  /** What a `WriterFactory` returns: bytes taken in order, and passed through to a file from `base` on
      when there is one; without a file it is the stream mode's memory buffer. */
  class ChunkWriter {
    const file: FileHandle?
    const base: nat
    var taken: seq<byte>
    ghost const origin: seq<byte>  // the file when the writer was made

    constructor (file: FileHandle?, base: nat)
      ensures this.file == file && this.base == base && taken == [] && Valid()
      ensures file != null ==> origin == file.data
    {
      this.file, this.base, this.taken := file, base, [];
      this.origin := if file != null then file.data else [];
    }

    /** All the file has seen since the writer was made is `taken`, at `base`. */
    ghost predicate Valid()
      reads this, file
    {
      file != null ==> file.data == WriteAt(origin, base, taken)
    }

    method Write(data: seq<byte>, took: nat, fails: bool) returns (n: nat, err: bool)
      requires Valid()
      modifies this`taken, file
      ensures Valid()
      ensures n == Min(took, |data|) && err == fails
      ensures taken == old(taken) + data[..n]
    {
      n, err := Min(took, |data|), fails;
      if file != null {
        WriteTwice(origin, base, taken, data[..n]);
        file.WriteAt(data[..n], base + |taken|);
      }
      taken := taken + data[..n];
    }
  }

  /** The file after every writer of the log has written what it took at its base. */
  function Written(file: seq<byte>, log: seq<Trial>): seq<byte>
    decreases |log|
  {
    if log == [] then file
    else
      var last := log[|log| - 1];
      WriteAt(Written(file, log[..|log| - 1]), Nat(last.base), last.taken)
  }

  /** Writers of attempts that write stand at non-negative offsets (`AttemptFacts`); this only makes `Written` total. */
  function Nat(x: int): nat { if x < 0 then 0 else x }

  lemma WrittenNil(file: seq<byte>)
    ensures Written(file, []) == file
  {
  }

  lemma WrittenOne(file: seq<byte>, t: Trial)
    ensures Written(file, [t]) == WriteAt(file, Nat(t.base), t.taken)
  {
    assert [t][..0] == [];
  }

  lemma {:induction false} WrittenAppend(file: seq<byte>, a: seq<Trial>, b: seq<Trial>)
    ensures Written(file, a + b) == Written(Written(file, a), b)
    decreases |b|
  {
    if b == [] {
      assert a + b == a;
    } else {
      assert (a + b)[..|a + b| - 1] == a + b[..|b| - 1];
      WrittenAppend(file, a, b[..|b| - 1]);
    }
  }

  method AttemptDownloadChunk(chunk: Chunk, dest: ChunkWriter, s: Script, tracker: ProgressTracker)
    returns (fault: Option<Fault>, attemptBytes: nat, ghost trial: Trial)
    requires dest.Valid() && dest.taken == []
    modifies chunk`Downloaded, dest`taken, dest.file, tracker`downloadedBytes
    ensures trial == Attempt(old(chunk.View()), s)
    ensures chunk.View() == trial.after && fault == trial.fault
    ensures attemptBytes == trial.got && dest.taken == trial.taken
    ensures tracker.downloadedBytes == old(tracker.downloadedBytes) + trial.got
    ensures dest.Valid()
  {
    ghost var c := chunk.View();
    attemptBytes := 0;
    trial := Attempt(c, s);
    if s.requestFails {
      return Some(RequestNotCreated), 0, trial;
    }
    var requestStart := chunk.Start + chunk.Downloaded;
    if requestStart < chunk.Start || requestStart > chunk.End {
      return Some(BadProgress), 0, trial;
    }
    var expectedBytes := chunk.End - requestStart + 1;
    if s.connectFails {
      return Some(NotConnected), 0, trial;
    }
    if s.reply.status in {401, 403, 404, 410, 400, 416} {
      return Some(ClientError), 0, trial;
    }
    if s.reply.status != 206 && s.reply.status != 200 {
      return Some(UnexpectedStatus), 0, trial;
    }
    if s.reply.status == 200 && requestStart > 0 {
      return Some(RangeIgnored), 0, trial;
    }
    if s.reply.status == 206 {
      if s.reply.range == None || s.reply.range.value.first != requestStart || s.reply.range.value.last != chunk.End {
        return Some(BadRange), 0, trial;
      }
      var total := s.reply.range.value.total;
      if total > 0 && total < chunk.End + 1 {
        return Some(BadRange), 0, trial;
      }
    }

    fault, attemptBytes := CopyBody(chunk, dest, requestStart, expectedBytes, s.turns, tracker);
  }

  /** The copy loop of `attemptDownloadChunk` and its final length check. */
  method CopyBody(chunk: Chunk, dest: ChunkWriter, requestStart: int, expectedBytes: int, turns: seq<Turn>,
                  tracker: ProgressTracker)
    returns (fault: Option<Fault>, attemptBytes: nat)
    requires 0 <= chunk.Size() && dest.Valid() && dest.taken == []
    modifies chunk`Downloaded, dest`taken, dest.file, tracker`downloadedBytes
    ensures Copied(chunk.View(), attemptBytes, dest.taken, fault)
         == Copy(old(chunk.View()), requestStart, expectedBytes, 0, [], turns)
    ensures tracker.downloadedBytes == old(tracker.downloadedBytes) + attemptBytes
    ensures dest.Valid()
  {
    attemptBytes := 0;
    ghost var c := chunk.View();
    var totalRead, i := 0, 0;
    while true
      invariant 0 <= i <= |turns| && attemptBytes == totalRead
      invariant Copy(chunk.View(), requestStart, expectedBytes, totalRead, dest.taken, turns[i..])
             == Copy(c, requestStart, expectedBytes, 0, [], turns)
      invariant tracker.downloadedBytes == old(tracker.downloadedBytes) + totalRead
      invariant dest.Valid()
      decreases |turns| - i
    {
      if i == |turns| || turns[i].cancelled {
        return Some(Cancelled), attemptBytes;
      }
      var turn := turns[i];
      assert turns[i..][0] == turn && turns[i..][1..] == turns[i + 1..];
      i := i + 1;
      var n := |turn.data|;
      if n > 0 {
        var wWritten, wErr := dest.Write(turn.data, turn.took, turn.writeFails);
        if wErr {
          return Some(WriteFailed), attemptBytes;
        }
        if wWritten != n {
          return Some(ShortWrite), attemptBytes;
        }
        assert turn.data[..wWritten] == turn.data;
        totalRead := totalRead + n;
        chunk.SetDownloaded(totalRead + requestStart - chunk.Start);
        attemptBytes := attemptBytes + n;
        tracker.AddBytes(n);
      } else {
        assert dest.taken + turn.data == dest.taken;
      }
      if turn.err != NoErr {
        if turn.err == Eof || totalRead == expectedBytes {
          break;
        }
        return Some(ReadFailed), attemptBytes;
      }
    }
    if totalRead != expectedBytes {
      return Some(LengthMismatch), attemptBytes;
    }
    return None, attemptBytes;
  }

  /** One attempt with its fresh writer, and on failure the rollback of the progress count. */
  method TryOnce(chunk: Chunk, dest: ChunkWriter, s: Script, tracker: ProgressTracker) returns (fault: Option<Fault>)
    requires 0 <= tracker.downloadedBytes
    requires dest.Valid() && dest.taken == [] && dest.base == Nat(chunk.Start + chunk.Downloaded)
    modifies chunk`Downloaded, dest`taken, dest.file, tracker`downloadedBytes
    ensures var t := Attempt(old(chunk.View()), s);
      && fault == t.fault && chunk.View() == t.after && dest.taken == t.taken
      && tracker.downloadedBytes == old(tracker.downloadedBytes) + (if fault == None then t.got else 0)
      && (dest.file != null ==> dest.file.data == Written(dest.origin, [t]))
  {
    hide Written, WriteAt;
    assert Attempt(chunk.View(), s).base == chunk.Start + chunk.Downloaded;
    hide Attempt;
    var attemptBytes;
    ghost var trial;
    fault, attemptBytes, trial := AttemptDownloadChunk(chunk, dest, s, tracker);
    WrittenOne(dest.origin, trial);
    if fault != None && attemptBytes > 0 {
      tracker.SubBytes(attemptBytes, []);
    }
  }

  /** One turn of the retry loop. `buffer` is the writer the factory made, if it was called. */
  method RetryTurn(chunk: Chunk, file: FileHandle?, s: Script, attempt: nat, tracker: ProgressTracker)
    returns (again: bool, fault: Option<Fault>, buffer: ChunkWriter?, ghost r: Turned)
    requires 0 <= tracker.downloadedBytes
    modifies chunk`Downloaded, chunk`Completed, chunk`Retries, file, tracker`downloadedBytes, tracker`completedChunks
    ensures r == TurnOf(old(chunk.View()), s, attempt) && again == r.again && fault == r.fault
    ensures chunk.View() == r.chunk && chunk.Retries == old(chunk.Retries) + r.retries
    ensures file != null ==> file.data == Written(old(file.data), r.trials)
    ensures tracker.downloadedBytes == old(tracker.downloadedBytes) + Counted(r.trials, fault)
    ensures tracker.completedChunks == old(tracker.completedChunks) + if fault == None then 1 else 0
    ensures again ==> fault != None
    ensures fault == None ==> buffer != null
    ensures if buffer == null then r.trials == [] else |r.trials| == 1 && r.trials[0].taken == buffer.taken
  {
    r := TurnOf(chunk.View(), s, attempt);
    hide Written, Attempt;
    WrittenNil(if file == null then [] else file.data);
    again, buffer := false, null;
    if s.cancelledBefore {
      fault := Some(Cancelled);
    } else {
      if attempt > 0 {
        chunk.Retries := chunk.Retries + 1;
      }
      if attempt > 0 && s.cancelledInBackoff {
        fault := Some(Cancelled);
      } else if s.factoryFails {
        fault := Some(WriterNotCreated);
      } else {
        buffer := new ChunkWriter(file, Nat(chunk.Start + chunk.Downloaded));
        fault := TryOnce(chunk, buffer, s, tracker);
        if fault == None {
          chunk.MarkCompleted();
          tracker.ChunkCompleted();
        } else {
          again := !Fatal(fault.value);
        }
      }
    }
  }

  /** Bytes a log leaves in the progress count: those of the attempt that succeeded, if one did. */
  function Counted(log: seq<Trial>, fault: Option<Fault>): int {
    if fault == None && log != [] then log[|log| - 1].got else 0
  }

  /** `buffer` is the last writer the factory made. */
  method DownloadChunk(chunk: Chunk, file: FileHandle?, scripts: seq<Script>, maxRetries: int, tracker: ProgressTracker)
    returns (fault: Option<Fault>, buffer: ChunkWriter?, ghost out: Outcome)
    requires 0 <= tracker.downloadedBytes
    modifies chunk`Downloaded, chunk`Completed, chunk`Retries, file, tracker`downloadedBytes, tracker`completedChunks
    ensures out == Retry(old(chunk.View()), scripts, 0, 0, maxRetries, [])
    ensures fault == out.fault && chunk.View() == out.chunk && chunk.Retries == old(chunk.Retries) + out.retries
    ensures file != null ==> file.data == Written(old(file.data), out.log)
    ensures tracker.downloadedBytes == old(tracker.downloadedBytes) + Counted(out.log, fault)
    ensures tracker.completedChunks == old(tracker.completedChunks) + if fault == None then 1 else 0
    ensures if buffer == null then out.log == [] else out.log != [] && buffer.taken == out.log[|out.log| - 1].taken
  {
    hide Written, TurnOf;
    buffer := null;
    out := Retry(chunk.View(), scripts, 0, 0, maxRetries, []);
    ghost var log: seq<Trial> := [];
    ghost var retries: nat := 0;
    ghost var original := if file == null then [] else file.data;
    WrittenNil(original);
    var attempt := 0;
    while attempt <= maxRetries
      invariant 0 <= attempt
      invariant out == Retry(chunk.View(), scripts, attempt, retries, maxRetries, log)
      invariant chunk.Retries == old(chunk.Retries) + retries
      invariant file != null ==> file.data == Written(original, log)
      invariant tracker.downloadedBytes == old(tracker.downloadedBytes)
      invariant tracker.completedChunks == old(tracker.completedChunks)
      invariant if buffer == null then log == [] else log != [] && buffer.taken == log[|log| - 1].taken
      decreases maxRetries + 1 - attempt
    {
      ghost var r;
      var again, err, writer;
      again, err, writer, r := RetryTurn(chunk, file, ScriptAt(scripts, attempt), attempt, tracker);
      WrittenAppend(original, log, r.trials);
      log, retries := log + r.trials, retries + r.retries;
      if writer != null {
        buffer := writer;
      }
      if !again {
        return err, buffer, out;
      }
      attempt := attempt + 1;
    }
    fault := Some(Exhausted);
  }

  // ------------------------------------------------- facts of one attempt

  /** The booked count drives the done prefix, and success means exactly `expected` bytes were booked. */
  lemma {:induction false} CopyBooks(c: ChunkVal, req: int, expected: int, got: nat, taken: seq<byte>, turns: seq<Turn>)
    requires c.start <= req && req + expected == c.end + 1 && 0 < expected
    requires c.downloaded == Min(got + req - c.start, c.Size())
    ensures var k := Copy(c, req, expected, got, taken, turns);
      && k.chunk == c.(downloaded := Min(k.got + req - c.start, c.Size()))
      && got <= k.got
      && (k.fault == None ==> k.got == expected)
    decreases |turns|
  {
    if turns != [] && !turns[0].cancelled {
      var t := turns[0];
      var n := |t.data|;
      var c' := if n > 0 then Clamped(c, got + n + req - c.start) else c;
      assert c' == c.(downloaded := Min(got + n + req - c.start, c.Size()));
      if !(n > 0 && (t.writeFails || Min(t.took, n) != n)) && t.err == NoErr {
        CopyBooks(c', req, expected, got + n, taken + t.data, turns[1..]);
      }
    }
  }

  /** The writer took a prefix of the body, at least the booked bytes, and on success exactly those. */
  lemma {:induction false} CopyTakes(c: ChunkVal, req: int, expected: int, got: nat, taken: seq<byte>, turns: seq<Turn>)
    ensures var k := Copy(c, req, expected, got, taken, turns);
      && taken <= k.taken <= taken + Body(turns)
      && k.got - got <= |k.taken| - |taken|
      && (k.fault == None ==> k.got - got == |k.taken| - |taken|)
    decreases |turns|
  {
    if turns != [] && !turns[0].cancelled {
      var t := turns[0];
      var n := |t.data|;
      if !(n > 0 && (t.writeFails || Min(t.took, n) != n)) && t.err == NoErr {
        var c' := if n > 0 then Clamped(c, got + n + req - c.start) else c;
        CopyTakes(c', req, expected, got + n, taken + t.data, turns[1..]);
        assert taken + Body(turns) == (taken + t.data) + Body(turns[1..]);
      } else {
        assert taken + Body(turns) == (taken + t.data) + Body(turns[1..]);
        assert t.data == t.data[..Min(t.took, n)] + t.data[Min(t.took, n)..];
      }
    }
  }

  /** What every attempt does to a sound chunk: its writer, its request and the body it reads start at the same byte, the
      done prefix grows by what was booked (up to the chunk's end), and success means the rest was booked. */
  ghost predicate TrialOk(t: Trial, n: int) {
    && t.before.Sound(n) && t.after.Sound(n)
    && t.base == t.req == t.before.start + t.before.downloaded
    && t.after == t.before.(downloaded := Min(t.before.downloaded + t.got, t.before.Size()))
    && t.taken <= t.body && t.got <= |t.taken|
    && (t.body != [] ==> t.reply.Some? && Origin(t.reply.value) == t.req)
    && (t.fault == None ==> t.asked && |t.taken| == t.got == t.before.end + 1 - t.req)
    && (t.asked ==> t.before.downloaded < t.before.Size())
    && (!t.asked ==> t.got == 0 && t.taken == [] && t.fault.Some? && !Fatal(t.fault.value))
  }

  lemma AttemptFacts(c: ChunkVal, s: Script, n: int)
    requires c.Sound(n)
    ensures TrialOk(Attempt(c, s), n) && Attempt(c, s).before == c
    ensures Attempt(c, s).asked <==> !s.requestFails && c.downloaded < c.Size()
  {
    if !s.requestFails && c.downloaded < c.Size() && !s.connectFails && Judge(s.reply, c.start + c.downloaded, c.end) == None {
      CopyBooks(c, c.start + c.downloaded, c.Size() - c.downloaded, 0, [], s.turns);
      CopyTakes(c, c.start + c.downloaded, c.Size() - c.downloaded, 0, [], s.turns);
      assert [] + Body(s.turns) == Body(s.turns);
    }
  }

  /** A read that comes before any cancellation, and is written in full if it brings anything. */
  predicate InTime(t: Turn) { !t.cancelled && (t.data != [] ==> !t.writeFails && |t.data| <= t.took) }

  /** Read `m` is the first to end the body, and all up to it are written. */
  ghost predicate EndsWell(turns: seq<Turn>, m: nat)
    requires m < |turns|
  {
    turns[m].err != NoErr && forall i :: 0 <= i <= m ==> InTime(turns[i]) && (i < m ==> turns[i].err == NoErr)
  }

  /** The body ends well, `need` bytes long. */
  ghost predicate EndsWith(turns: seq<Turn>, need: int) {
    exists m: nat :: m < |turns| && EndsWell(turns, m) && |Body(turns[..m + 1])| == need
  }

  lemma {:induction false} EndsLater(turns: seq<Turn>, m: nat)
    requires m + 1 < |turns| && turns[0].err == NoErr && InTime(turns[0])
    ensures EndsWell(turns, m + 1) <==> EndsWell(turns[1..], m)
    ensures |Body(turns[..m + 2])| == |turns[0].data| + |Body(turns[1..][..m + 1])|
  {
    assert turns[..m + 2][1..] == turns[1..][..m + 1];
    if EndsWell(turns[1..], m) {
      forall i | 0 <= i <= m + 1 ensures InTime(turns[i]) && (i < m + 1 ==> turns[i].err == NoErr) {
        if i > 0 {
          assert turns[i] == turns[1..][i - 1];
        }
      }
    }
  }

  lemma {:induction false} EndsFirst(turns: seq<Turn>, need: int)
    requires turns != []
    ensures EndsWith(turns, need) <==>
      InTime(turns[0]) && if turns[0].err != NoErr then |turns[0].data| == need else EndsWith(turns[1..], need - |turns[0].data|)
  {
    var t, rest := turns[0], turns[1..];
    assert turns[..1][1..] == [] && |Body(turns[..1])| == |t.data|;
    hide Body;
    if EndsWith(turns, need) {
      var m: nat :| m < |turns| && EndsWell(turns, m) && |Body(turns[..m + 1])| == need;
      if m > 0 {
        EndsLater(turns, m - 1);
      }
    }
    if t.err == NoErr && InTime(t) && EndsWith(rest, need - |t.data|) {
      var m: nat :| m < |rest| && EndsWell(rest, m) && |Body(rest[..m + 1])| == need - |t.data|;
      EndsLater(turns, m);
    }
    if t.err != NoErr && InTime(t) {
      assert EndsWell(turns, 0);
    }
  }

  /** When the copy loop succeeds: some read ends the body, every one up to it comes in time and is written in full, and
      together they bring just what was expected. An error that comes with the last byte is no failure. */
  lemma {:induction false} CopySucceedsIff(c: ChunkVal, req: int, expected: int, got: nat, taken: seq<byte>, turns: seq<Turn>)
    ensures Copy(c, req, expected, got, taken, turns).fault == None <==> EndsWith(turns, expected - got)
    decreases |turns|
  {
    if turns != [] {
      EndsFirst(turns, expected - got);
      var t := turns[0];
      if t.err == NoErr && InTime(t) {
        var c' := if |t.data| > 0 then Clamped(c, got + |t.data| + req - c.start) else c;
        CopySucceedsIff(c', req, expected, got + |t.data|, taken + t.data, turns[1..]);
      }
      hide EndsWith;
    }
  }
}
