/** The persisted progress of a download (pkg/engine/checkpoint.go). */
module Checkpoints {
  import opened Bytes
  import opened Chunks

  /** What a probe reports. `lastModified` is already formatted, and empty for the zero time. */
  datatype FileInfo = FileInfo(contentLength: int, acceptRanges: bool, etag: string, lastModified: string)

  /** The value of a checkpoint; an entry is `None` where the stored list holds a null. */
  datatype CheckpointVal = CheckpointVal(
    contentLength: int, etag: string, lastModified: string, acceptRanges: bool, chunkSize: int,
    totalChunks: int, completedSize: int, chunks: seq<Option<ChunkVal>>)

  class ChunkState {
    const Index: int
    const Start: int
    const End: int
    var Downloaded: int
    var Completed: bool

    constructor (index: int, start: int, end: int, downloaded: int, completed: bool)
      ensures View() == ChunkVal(index, start, end, downloaded, completed)
    {
      Index, Start, End, Downloaded, Completed := index, start, end, downloaded, completed;
    }

    function View(): ChunkVal
      reads this
    {
      ChunkVal(Index, Start, End, Downloaded, Completed)
    }

    method Store(ch: Chunk)
      modifies this
      ensures View() == old(View()).(downloaded := ch.Downloaded, completed := ch.Completed)
    {
      Downloaded := ch.Downloaded;
      Completed := ch.Completed;
    }
  }

  function EntryOf(s: ChunkState?): Option<ChunkVal>
    reads s
  {
    if s == null then None else Some(s.View())
  }

  /** `strings.Trim(s, "\"")` */
  function TrimQuotes(s: string): string {
    if s != [] && s[0] == '"' then TrimQuotes(s[1..])
    else if s != [] && s[|s| - 1] == '"' then TrimQuotes(s[..|s| - 1])
    else s
  }

  /** The checkpoint is about the resource the fresh probe describes. */
  predicate SameResource(cp: CheckpointVal, info: FileInfo) {
    && info.acceptRanges && 0 < cp.contentLength == info.contentLength
    && (TrimQuotes(cp.etag) != "" ==> TrimQuotes(cp.etag) == TrimQuotes(info.etag))
    && (cp.lastModified != "" && info.lastModified != "" ==> cp.lastModified == info.lastModified)
  }

  function Values(es: seq<Option<ChunkVal>>): (vs: seq<ChunkVal>)
    requires forall i :: 0 <= i < |es| ==> es[i].Some?
    ensures |vs| == |es| && forall i :: 0 <= i < |es| ==> vs[i] == es[i].value
  {
    seq(|es|, i requires 0 <= i < |es| => es[i].value)
  }

  function Entries(vs: seq<ChunkVal>): (es: seq<Option<ChunkVal>>)
    ensures |es| == |vs| && forall i :: 0 <= i < |vs| ==> es[i] == Some(vs[i])
  {
    seq(|vs|, i requires 0 <= i < |vs| => Some(vs[i]))
  }

  /** The entries describe every byte of `[0, n)` once, each with a sound done prefix. */
  ghost predicate Describes(es: seq<Option<ChunkVal>>, n: int) {
    && (forall i :: 0 <= i < |es| ==> es[i].Some? && es[i].value.Sound(n))
    && Tiles(Values(es), n)
  }

  /** A checkpoint a run may resume from. */
  ghost predicate Resumable(cp: CheckpointVal, info: FileInfo) {
    SameResource(cp, info) && cp.totalChunks == |cp.chunks| && Describes(cp.chunks, cp.contentLength)
  }

  /** What `SyncFromChunks` makes of `cp` when it reads `Downloaded` of chunk `i` from `early[i]` and, under a
      second lock, `Completed` from `late[i]`. */
  function Synced(cp: CheckpointVal, early: seq<ChunkVal>, late: seq<ChunkVal>): CheckpointVal
    requires |early| == |late| && forall i :: 0 <= i < Min(|cp.chunks|, |early|) ==> cp.chunks[i].Some?
  {
    var k := Min(|cp.chunks|, |early|);
    cp.(chunks := seq(|cp.chunks|, i requires 0 <= i < |cp.chunks| =>
                    if i < k then SyncedEntry(cp.chunks[i], early[i], late[i]) else cp.chunks[i]),
        completedSize := TotalDone(early, k))
  }

  function SyncedEntry(e: Option<ChunkVal>, early: ChunkVal, late: ChunkVal): Option<ChunkVal>
    requires e.Some?
  {
    Some(e.value.(downloaded := early.downloaded, completed := late.completed))
  }

  /** Bytes done over the first `k` chunks. */
  function TotalDone(vs: seq<ChunkVal>, k: nat): int
    requires k <= |vs|
  {
    if k == 0 then 0 else TotalDone(vs, k - 1) + vs[k - 1].downloaded
  }

  function Fresh(info: FileInfo, vs: seq<ChunkVal>, chunkSize: int): CheckpointVal {
    CheckpointVal(info.contentLength, info.etag, info.lastModified, info.acceptRanges, chunkSize, |vs|, 0, Entries(vs))
  }

  class Checkpoint {
    const ContentLength: int
    const ETag: string
    const LastModified: string
    const AcceptRanges: bool
    const ChunkSize: int
    const TotalChunks: int
    var CompletedSize: int
    const Chunks: seq<ChunkState?>

    function View(): CheckpointVal
      reads this, Chunks
    {
      CheckpointVal(ContentLength, ETag, LastModified, AcceptRanges, ChunkSize, TotalChunks, CompletedSize,
                    seq(|Chunks|, i requires 0 <= i < |Chunks| reads this, Chunks => EntryOf(Chunks[i])))
    }

    /** No entry is shared. */
    ghost predicate Valid() {
      forall i, j :: 0 <= i < |Chunks| && 0 <= j < |Chunks| && i != j && Chunks[i] != null ==> Chunks[i] != Chunks[j]
    }

    constructor FromStates(cp: CheckpointVal, states: seq<ChunkState?>)
      ensures ContentLength == cp.contentLength && ETag == cp.etag && LastModified == cp.lastModified
      ensures AcceptRanges == cp.acceptRanges && ChunkSize == cp.chunkSize && TotalChunks == cp.totalChunks
      ensures CompletedSize == cp.completedSize && Chunks == states
    {
      ContentLength, ETag, LastModified, AcceptRanges := cp.contentLength, cp.etag, cp.lastModified, cp.acceptRanges;
      ChunkSize, TotalChunks, CompletedSize, Chunks := cp.chunkSize, cp.totalChunks, cp.completedSize, states;
    }

    method SyncFromChunks(chunks: seq<Chunk>)
      requires Valid()
      requires forall i :: 0 <= i < Min(|Chunks|, |chunks|) ==> Chunks[i] != null
      modifies this`CompletedSize, Chunks
      ensures View() == Synced(old(View()), Views(chunks), Views(chunks))
    {
      hide Views, SyncedUpTo;
      ghost var was, vs := View(), Views(chunks);
      var totalCompleted := SyncEntries(chunks);
      SyncedEnd(was, vs);
      CompletedSize := totalCompleted;
    }

    /** The loop of `SyncFromChunks`. */
    method SyncEntries(chunks: seq<Chunk>) returns (totalCompleted: int)
      requires Valid()
      requires forall i :: 0 <= i < Min(|Chunks|, |chunks|) ==> Chunks[i] != null
      modifies Chunks
      ensures SyncedUpTo(old(View().chunks), Views(chunks), Min(|chunks|, |Chunks|))
      ensures totalCompleted == TotalDone(Views(chunks), Min(|chunks|, |Chunks|))
    {
      hide Views, SyncedUpTo;
      totalCompleted := 0;
      ghost var was, vs := View().chunks, Views(chunks);
      SyncedStart(vs);
      var i := 0;
      while i < |chunks|
        invariant 0 <= i <= |chunks|
        invariant totalCompleted == TotalDone(vs, Min(i, |Chunks|))
        invariant SyncedUpTo(was, vs, Min(i, |Chunks|))
      {
        if i < |Chunks| {
          SyncOne(chunks[i], i, was, vs);
          totalCompleted := totalCompleted + Chunks[i].Downloaded;
        }
        i := i + 1;
      }
    }

    lemma SyncedStart(vs: seq<ChunkVal>)
      requires forall i :: 0 <= i < Min(|Chunks|, |vs|) ==> Chunks[i] != null
      ensures SyncedUpTo(View().chunks, vs, 0)
    {
    }

    lemma SyncedEnd(was: CheckpointVal, vs: seq<ChunkVal>)
      requires |was.chunks| == |Chunks| && SyncedUpTo(was.chunks, vs, Min(|vs|, |Chunks|))
      ensures forall i :: 0 <= i < Min(|was.chunks|, |vs|) ==> was.chunks[i].Some?
      ensures View().chunks == Synced(was, vs, vs).chunks
    {
    }

    /** The first `k` entries hold the counts and flags of `vs`, the others what they held before. */
    ghost predicate SyncedUpTo(was: seq<Option<ChunkVal>>, vs: seq<ChunkVal>, k: nat)
      reads this, Chunks
    {
      && |was| == |Chunks| && k <= |vs| && k <= |was|
      && (forall j :: 0 <= j < |vs| && j < |was| ==> was[j].Some?)
      && forall j :: 0 <= j < |Chunks| ==> EntryOf(Chunks[j]) == if j < k then SyncedEntry(was[j], vs[j], vs[j]) else was[j]
    }

    /** The body of the loop: one entry. */
    method SyncOne(ch: Chunk, i: nat, ghost was: seq<Option<ChunkVal>>, ghost vs: seq<ChunkVal>)
      requires Valid() && i < |Chunks| && Chunks[i] != null && i < |vs| && vs[i] == ch.View() && SyncedUpTo(was, vs, i)
      modifies Chunks[i]
      ensures SyncedUpTo(was, vs, i + 1) && Chunks[i].Downloaded == ch.Downloaded
    {
      assert EntryOf(Chunks[i]) == was[i];
      Chunks[i].Store(ch);
    }

    method IsResumeValid(freshInfo: Option<FileInfo>) returns (valid: bool)
      ensures valid <==> freshInfo.Some? && Resumable(View(), freshInfo.value)
    {
      if freshInfo == None || !freshInfo.value.acceptRanges || ContentLength <= 0 || ContentLength != freshInfo.value.contentLength {
        return false;
      }
      var storedETag, freshETag := TrimQuotes(ETag), TrimQuotes(freshInfo.value.etag);
      if storedETag != "" && storedETag != freshETag {
        return false;
      }
      if LastModified != "" && freshInfo.value.lastModified != "" && LastModified != freshInfo.value.lastModified {
        return false;
      }
      if |Chunks| == 0 || TotalChunks != |Chunks| {
        if |Chunks| == 0 {
          EmptyDescribesNothing(View().chunks, ContentLength);
        }
        return false;
      }
      valid := EntriesValid();
    }

    /** The loop of `IsResumeValid`. */
    method EntriesValid() returns (valid: bool)
      requires 0 < ContentLength
      ensures valid <==> Describes(View().chunks, ContentLength)
    {
      ghost var es := View().chunks;
      var expectedStart := 0;
      var i := 0;
      while i < |Chunks|
        invariant 0 <= i <= |Chunks|
        invariant ChainedUpTo(es, ContentLength, i, expectedStart)
      {
        var state := Chunks[i];
        if state == null || state.Index != i || state.Start != expectedStart || state.End < state.Start || state.End >= ContentLength {
          NotChained(es, ContentLength, i, expectedStart);
          return false;
        }
        var size := state.End - state.Start + 1;
        if state.Downloaded < 0 || state.Downloaded > size || (state.Completed && state.Downloaded != size) {
          assert es[i] == Some(state.View()) && !state.View().Sound(ContentLength);
          return false;
        }
        expectedStart := state.End + 1;
        i := i + 1;
      }
      ChainedDescribes(es, ContentLength, expectedStart);
      return expectedStart == ContentLength;
    }
  }

  method NewCheckpoint(info: FileInfo, chunks: seq<Chunk>, chunkSize: int) returns (cp: Checkpoint)
    ensures fresh(cp) && fresh(cp.Chunks) && cp.Valid()
    ensures cp.View() == Fresh(info, Views(chunks), chunkSize)
  {
    var states: seq<ChunkState?> := [];
    var i := 0;
    while i < |chunks|
      invariant 0 <= i == |states| <= |chunks| && fresh(states)
      invariant forall j :: 0 <= j < i ==> states[j] != null && states[j].View() == chunks[j].View()
      invariant forall j, k :: 0 <= j < k < i ==> states[j] != states[k]
    {
      var ch := chunks[i];
      var s := new ChunkState(ch.Index, ch.Start, ch.End, ch.Downloaded, ch.Completed);
      states := states + [s];
      i := i + 1;
    }
    cp := new Checkpoint.FromStates(Fresh(info, Views(chunks), chunkSize), states);
    assert cp.View().chunks == Entries(Views(chunks));
  }

  /** The chunks a run starts from when it resumes, and the bytes it counts as already there. */
  method RestoreChunks(cp: Checkpoint) returns (chunks: seq<Chunk>, initialDownloaded: int)
    requires forall i :: 0 <= i < |cp.Chunks| ==> cp.Chunks[i] != null
    ensures fresh(chunks) && Distinct(chunks)
    ensures Views(chunks) == Values(cp.View().chunks)
    ensures initialDownloaded == TotalDone(Views(chunks), |chunks|)
  {
    chunks, initialDownloaded := [], 0;
    ghost var es := cp.View().chunks;
    var i := 0;
    while i < |cp.Chunks|
      invariant 0 <= i == |chunks| <= |cp.Chunks| && fresh(chunks) && Distinct(chunks)
      invariant forall j :: 0 <= j < i ==> chunks[j].View() == es[j].value
      invariant initialDownloaded == TotalDone(Values(es), i)
    {
      var cs := cp.Chunks[i];
      var ch := new Chunk(cs.Index, cs.Start, cs.End, cs.Downloaded, cs.Completed);
      chunks := chunks + [ch];
      initialDownloaded := initialDownloaded + ch.Downloaded;
      i := i + 1;
    }
    assert Views(chunks) == Values(es);
  }

  // ------------------------------------------- the single pass and the tiling

  /** What the pass has established before entry `k`. */
  ghost predicate ChainedUpTo(es: seq<Option<ChunkVal>>, n: int, k: int, next: int) {
    && 0 <= k <= |es|
    && (forall i :: 0 <= i < k ==> es[i].Some? && es[i].value.Sound(n) && es[i].value.index == i)
    && (forall i {:trigger ExpectedStart(es, i)} :: 0 <= i < k ==> ExpectedStart(es, i) == Some(es[i].value.start))
    && ExpectedStart(es, k) == Some(next)
  }

  function ExpectedStart(es: seq<Option<ChunkVal>>, i: int): Option<int>
    requires 0 <= i <= |es|
  {
    if i == 0 then Some(0) else if es[i - 1].None? then None else Some(es[i - 1].value.end + 1)
  }

  lemma {:induction false} ChainedDescribes(es: seq<Option<ChunkVal>>, n: int, next: int)
    requires 0 < n && ChainedUpTo(es, n, |es|, next)
    ensures Describes(es, n) <==> next == n
  {
    var vs := Values(es);
    TilesIffChained(vs, n);
    forall i {:trigger NextStart(vs, i)} | 0 <= i < |vs| ensures vs[i].start == NextStart(vs, i) {
      assert ExpectedStart(es, i) == Some(es[i].value.start);
    }
  }

  /** An entry the pass stops at: null, out of place, or not the range that must come next. */
  lemma {:induction false} NotChained(es: seq<Option<ChunkVal>>, n: int, k: int, next: int)
    requires ChainedUpTo(es, n, k, next) && k < |es| && 0 < n
    requires es[k].Some? ==>
      var c := es[k].value; c.index != k || c.start != next || c.end < c.start || c.end >= n
    ensures !Describes(es, n)
  {
    if forall i :: 0 <= i < |es| ==> es[i].Some? {
      var vs := Values(es);
      TilesIffChained(vs, n);
      assert vs[k] == es[k].value && NextStart(vs, k) == next;
    }
  }

  lemma {:induction false} EmptyDescribesNothing(es: seq<Option<ChunkVal>>, n: int)
    requires es == [] && 0 < n
    ensures !Describes(es, n)
  {
    var vs := Values(es);
    assert Tiles(vs, n) ==> Covered(vs, 0);
  }

  // ------------------------------------------------------- what is persisted

  /** Progress over the same ranges. */
  ghost predicate SameRanges(a: seq<ChunkVal>, b: seq<ChunkVal>) {
    |a| == |b| && forall i :: 0 <= i < |a| ==> a[i].index == b[i].index && a[i].start == b[i].start && a[i].end == b[i].end
  }

  lemma {:induction false} TilesSameRanges(a: seq<ChunkVal>, b: seq<ChunkVal>, n: nat)
    requires SameRanges(a, b)
    ensures Tiles(a, n) <==> Tiles(b, n)
  {
    TilesIffChained(a, n);
    TilesIffChained(b, n);
    if Chained(a, n) {
      ChainedSameRanges(a, b, n);
    }
    if Chained(b, n) {
      ChainedSameRanges(b, a, n);
    }
  }

  lemma {:induction false} ChainedSameRanges(a: seq<ChunkVal>, b: seq<ChunkVal>, n: nat)
    requires SameRanges(a, b) && Chained(a, n)
    ensures Chained(b, n)
  {
    forall i {:trigger NextStart(b, i)} | 0 <= i < |b| ensures b[i].start == NextStart(b, i) {
      assert a[i].start == NextStart(a, i);
    }
    assert n == NextStart(a, |a|);
  }

  /** A snapshot taken while workers run reads each chunk twice, `Completed` after `Downloaded`. Stored over a
      resumable checkpoint it is resumable again exactly when no chunk was finished between its two reads. */
  lemma {:induction false} TornSnapshot(cp: CheckpointVal, info: FileInfo, early: seq<ChunkVal>, late: seq<ChunkVal>)
    requires Resumable(cp, info)
    requires SameRanges(early, Values(cp.chunks)) && SameRanges(late, early)
    requires forall i :: 0 <= i < |early| ==> early[i].Sound(info.contentLength) && late[i].Sound(info.contentLength)
    ensures Resumable(Synced(cp, early, late), info)
            <==> forall i :: 0 <= i < |early| && late[i].completed ==> early[i].downloaded == early[i].Size()
  {
    var es := Synced(cp, early, late).chunks;
    var n := info.contentLength;
    assert |es| == |early| == |late|;
    forall i | 0 <= i < |es|
      ensures es[i].Some? && es[i].value == early[i].(completed := late[i].completed)
      ensures es[i].value.Sound(n) <==> (late[i].completed ==> early[i].downloaded == early[i].Size())
    {
      assert early[i].Sound(n);
    }
    TilesSameRanges(Values(es), Values(cp.chunks), n);
  }

  /** Round trip: any sound progress over a computed layout, stored through `NewCheckpoint` and
      `SyncFromChunks`, is accepted against the same range-capable resource and restores to itself. */
  lemma {:induction false} RoundTrip(info: FileInfo, size: nat, chunkSize: int, vs: seq<ChunkVal>)
    requires info.acceptRanges && 0 < info.contentLength && 0 < size
    requires SameRanges(vs, Layout(info.contentLength, size))
    requires forall i :: 0 <= i < |vs| ==> vs[i].Sound(info.contentLength)
    ensures var cp := Synced(Fresh(info, Layout(info.contentLength, size), chunkSize), vs, vs);
      Resumable(cp, info) && Values(cp.chunks) == vs && cp.completedSize == TotalDone(vs, |vs|)
  {
    var layout := Layout(info.contentLength, size);
    var cp := Fresh(info, layout, chunkSize);
    LayoutTiles(info.contentLength, size);
    assert Values(cp.chunks) == layout;
    forall i | 0 <= i < |layout| ensures layout[i].Sound(info.contentLength) {
    }
    assert Resumable(cp, info);
    TornSnapshot(cp, info, vs, vs);
    assert Values(Synced(cp, vs, vs).chunks) == vs;
  }

  // -------------------------------------------- which resource is the same

  function Quotes(n: nat): (q: string)
    ensures |q| == n && forall i :: 0 <= i < n ==> q[i] == '"'
  {
    seq(n, i => '"')
  }

  /** No quote at either end. */
  predicate Bare(s: string) { s != [] ==> s[0] != '"' && s[|s| - 1] != '"' }

  /** `raw` is `tag` between any number of quotes. */
  ghost predicate Tagged(raw: string, tag: string) {
    Bare(tag) && exists i: nat, j: nat :: raw == Quotes(i) + tag + Quotes(j)
  }

  lemma {:induction false} TrimmedIff(raw: string, tag: string)
    ensures TrimQuotes(raw) == tag <==> Tagged(raw, tag)
  {
    TrimDecomposes(raw);
    if Tagged(raw, tag) {
      var i: nat, j: nat :| raw == Quotes(i) + tag + Quotes(j);
      TrimRecovers(tag, i, j);
    }
  }

  lemma {:induction false} TrimDecomposes(raw: string)
    ensures Tagged(raw, TrimQuotes(raw))
    decreases |raw|
  {
    var tag := TrimQuotes(raw);
    if raw != [] && raw[0] == '"' {
      TrimDecomposes(raw[1..]);
      var i: nat, j: nat :| raw[1..] == Quotes(i) + tag + Quotes(j);
      assert raw == [raw[0]] + raw[1..] && Quotes(i + 1) == ['"'] + Quotes(i);
      assert raw == Quotes(i + 1) + tag + Quotes(j);
    } else if raw != [] && raw[|raw| - 1] == '"' {
      TrimDecomposes(raw[..|raw| - 1]);
      var i: nat, j: nat :| raw[..|raw| - 1] == Quotes(i) + tag + Quotes(j);
      assert raw == raw[..|raw| - 1] + [raw[|raw| - 1]] && Quotes(j + 1) == Quotes(j) + ['"'];
      assert raw == Quotes(i) + tag + Quotes(j + 1);
    } else {
      assert raw == Quotes(0) + raw + Quotes(0);
    }
  }

  lemma {:induction false} TrimRecovers(tag: string, i: nat, j: nat)
    requires Bare(tag)
    ensures TrimQuotes(Quotes(i) + tag + Quotes(j)) == tag
    decreases i + j
  {
    var raw := Quotes(i) + tag + Quotes(j);
    if i > 0 {
      assert raw[1..] == Quotes(i - 1) + tag + Quotes(j);
      TrimRecovers(tag, i - 1, j);
    } else if j > 0 {
      if tag == [] {
        assert raw[1..] == Quotes(0) + tag + Quotes(j - 1);
      } else {
        assert raw[0] == tag[0] && raw[..|raw| - 1] == Quotes(0) + tag + Quotes(j - 1);
      }
      TrimRecovers(tag, 0, j - 1);
    } else {
      assert raw == tag;
    }
  }

  /** When a checkpoint may be resumed from, with nothing left to interpret: the probe offers ranges and the stored
      length, the tags agree but for quotes around them unless none is stored, the dates agree unless one is missing,
      and the entries describe the resource. */
  lemma ResumableIff(cp: CheckpointVal, info: FileInfo, stored: string, probed: string)
    requires Tagged(cp.etag, stored) && Tagged(info.etag, probed)
    ensures Resumable(cp, info) <==>
      && info.acceptRanges && 0 < cp.contentLength && cp.contentLength == info.contentLength
      && (stored == "" || stored == probed)
      && (cp.lastModified == "" || info.lastModified == "" || cp.lastModified == info.lastModified)
      && cp.totalChunks == |cp.chunks| && Describes(cp.chunks, cp.contentLength)
  {
    hide Describes, TrimQuotes;
    TrimmedIff(cp.etag, stored);
    TrimmedIff(info.etag, probed);
  }

  /** A changed tag refuses, quoted or not on either side; the same tag never does. */
  lemma TagDecides(cp: CheckpointVal, info: FileInfo, a: string, b: string)
    requires a != "" && b != "" && '"' !in a && '"' !in b
    requires cp.etag in {a, "\"" + a + "\""} && info.etag in {b, "\"" + b + "\""}
    ensures Resumable(cp, info) <==> a == b && Resumable(cp.(etag := ""), info)
  {
    hide Describes, Resumable;
    Wrapped(cp.etag, a);
    Wrapped(info.etag, b);
    Wrapped("", "");
    ResumableIff(cp, info, a, b);
    ResumableIff(cp.(etag := ""), info, "", b);
  }

  lemma Wrapped(raw: string, tag: string)
    requires '"' !in tag && raw in {tag, "\"" + tag + "\""}
    ensures Tagged(raw, tag)
  {
    assert tag == Quotes(0) + tag + Quotes(0) && "\"" + tag + "\"" == Quotes(1) + tag + Quotes(1);
  }

  /** What a new checkpoint is good for: a later probe of the same resource, by length, tag and date. */
  lemma FreshIff(info: FileInfo, vs: seq<ChunkVal>, chunkSize: int, probe: FileInfo, stored: string, probed: string)
    requires 0 < info.contentLength && Describes(Entries(vs), info.contentLength)
    requires Tagged(info.etag, stored) && Tagged(probe.etag, probed)
    ensures Resumable(Fresh(info, vs, chunkSize), probe) <==>
      && probe.acceptRanges && probe.contentLength == info.contentLength
      && (stored == "" || stored == probed)
      && (info.lastModified == "" || probe.lastModified == "" || info.lastModified == probe.lastModified)
  {
    hide Describes, Resumable;
    ResumableIff(Fresh(info, vs, chunkSize), probe, stored, probed);
  }
}
