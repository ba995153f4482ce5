/** Chunk layout and per-chunk state (pkg/engine/chunk.go). */
module Chunks {
  import opened Bytes

  const DEFAULT_CONCURRENCY := 8
  const MIB := 1024 * 1024
  const MIN_DYNAMIC := 2 * MIB
  const MAX_DYNAMIC := 64 * MIB

  /** The value of a chunk: the byte range `[start, end]`, how much of its front is done, and the flag. */
  datatype ChunkVal = ChunkVal(index: int, start: int, end: int, downloaded: int, completed: bool) {
    function Size(): int { end - start + 1 }

    /** A range within `[0, n)`, a prefix of it done, and `completed` only with all of it done. */
    predicate Sound(n: int) {
      && 0 <= start <= end < n
      && 0 <= downloaded <= Size()
      && (completed ==> downloaded == Size())
    }
  }

  function Clamped(c: ChunkVal, bytes: int): ChunkVal {
    c.(downloaded := Max(0, Min(bytes, c.Size())))
  }

  function Marked(c: ChunkVal): ChunkVal {
    c.(downloaded := c.Size(), completed := true)
  }

  class Chunk {
    const Index: int
    const Start: int
    const End: int
    var Downloaded: int
    var Completed: bool
    var Retries: int

    constructor (index: int, start: int, end: int, downloaded: int, completed: bool)
      ensures View() == ChunkVal(index, start, end, downloaded, completed) && Retries == 0
    {
      Index, Start, End, Downloaded, Completed, Retries := index, start, end, downloaded, completed, 0;
    }

    function View(): ChunkVal
      reads this
    {
      ChunkVal(Index, Start, End, Downloaded, Completed)
    }

    function Size(): int { End - Start + 1 }

    method SetDownloaded(bytes: int)
      requires 0 <= Size()
      modifies this`Downloaded
      ensures View() == Clamped(old(View()), bytes)
    {
      var b := bytes;
      if b < 0 {
        b := 0;
      }
      if b > Size() {
        b := Size();
      }
      Downloaded := b;
    }

    method MarkCompleted()
      modifies this`Downloaded, this`Completed
      ensures View() == Marked(old(View()))
    {
      Downloaded := Size();
      Completed := true;
    }
  }

  // ---------------------------------------------------------------- layout

  /** ceil(a / b) */
  function CeilDiv(a: nat, b: nat): (q: nat)
    requires 0 < b
    ensures (q - 1) * b < a <= q * b || (a == 0 && q == 0)
  {
    (a + b - 1) / b
  }

  /** The chunk size in force: the preferred one, or 1/(4*concurrency) of the file within [2 MiB, 64 MiB],
      in both cases no larger than the file. */
  function EffectiveSize(totalSize: int, preferred: int, concurrency: int): (size: int)
    requires 0 < totalSize
    ensures 0 < size <= totalSize
  {
    var wanted :=
      if preferred > 0 then preferred
      else
        var workers := if concurrency <= 0 then DEFAULT_CONCURRENCY else concurrency;
        Min(Max(totalSize / (workers * 4), MIN_DYNAMIC), MAX_DYNAMIC);
    Min(wanted, totalSize)
  }

  /** Two's-complement reading of an integer as an int64. */
  function Wrap64(x: int): int {
    (x + TWO_63) % TWO_64 - TWO_63
  }

  /** The end the loop computes in int64 arithmetic, sum by sum. */
  function EndOf(start: int, chunkSize: int, totalSize: int): int {
    var end := Wrap64(Wrap64(start + chunkSize) - 1);
    if end >= totalSize then totalSize - 1 else end
  }

  /** For every start the loop can reach, the int64 end is the intended one exactly when
      `start + chunkSize` is at most 2^63; past that it is negative, before the chunk it should end. */
  lemma {:induction false} EndOfExact(start: int, chunkSize: int, totalSize: int)
    requires 0 <= start < totalSize < TWO_63 && 0 < chunkSize <= totalSize
    ensures EndOf(start, chunkSize, totalSize) == Min(start + chunkSize, totalSize) - 1
            <==> start + chunkSize <= TWO_63
    ensures start + chunkSize > TWO_63 ==> EndOf(start, chunkSize, totalSize) < 0
  {
    if start + chunkSize < TWO_63 {
      assert Wrap64(start + chunkSize) == start + chunkSize;
    } else {
      assert Wrap64(start + chunkSize) == start + chunkSize - TWO_64;
    }
  }

  /** The layout by its closed form. */
  function LayoutAt(totalSize: int, size: int, i: int): ChunkVal {
    ChunkVal(i, i * size, Min((i + 1) * size, totalSize) - 1, 0, false)
  }

  function Layout(totalSize: nat, size: nat): (cs: seq<ChunkVal>)
    requires 0 < size
    ensures |cs| == CeilDiv(totalSize, size)
    ensures forall i :: 0 <= i < |cs| ==> cs[i] == LayoutAt(totalSize, size, i)
  {
    seq(CeilDiv(totalSize, size), i => LayoutAt(totalSize, size, i))
  }

  /** No sum of the layout loop leaves int64: its last `start + chunkSize` is the file size rounded up. */
  predicate FitsInt64(totalSize: int, size: int)
    requires 0 < size && 0 <= totalSize
  {
    CeilDiv(totalSize, size) * size <= TWO_63
  }

  lemma {:induction false} FitsUpTo2To62(totalSize: int, size: int)
    requires 0 < size <= totalSize <= TWO_63 / 2
    ensures FitsInt64(totalSize, size)
  {
    var q := CeilDiv(totalSize, size);
    assert q * size < totalSize + size by {
      assert q * size == (q - 1) * size + size;
    }
  }

  /** `FitsInt64` is exactly the condition under which every end of the loop is the intended one. */
  lemma {:induction false} FitsInt64Exact(totalSize: int, size: int)
    requires 0 < size <= totalSize < TWO_63
    ensures FitsInt64(totalSize, size)
            <==> forall i :: 0 <= i < CeilDiv(totalSize, size) ==> EndOf(i * size, size, totalSize) == LayoutAt(totalSize, size, i).end
  {
    var q := CeilDiv(totalSize, size);
    assert 0 <= (q - 1) * size < totalSize;
    EndOfExact((q - 1) * size, size, totalSize);
    assert (q - 1) * size + size == q * size;
    assert EndOf((q - 1) * size, size, totalSize) == LayoutAt(totalSize, size, q - 1).end ==> q * size <= TWO_63;
    if FitsInt64(totalSize, size) {
      forall i | 0 <= i < q ensures EndOf(i * size, size, totalSize) == LayoutAt(totalSize, size, i).end {
        StartBelowTotal(totalSize, size, i);
        assert i * size + size == (i + 1) * size;
        assert (i + 1) * size <= q * size;
        EndOfExact(i * size, size, totalSize);
      }
    }
  }

  lemma {:induction false} StartBelowTotal(totalSize: int, size: int, i: int)
    requires 0 < size && 0 < totalSize && 0 <= i < CeilDiv(totalSize, size)
    ensures 0 <= i * size < totalSize
    ensures i + 1 < CeilDiv(totalSize, size) ==> (i + 1) * size < totalSize
    ensures i + 1 == CeilDiv(totalSize, size) ==> (i + 1) * size >= totalSize
  {
    hide CeilDiv;
    var q := CeilDiv(totalSize, size);
    MulMonotone(i, q - 1, size);
    if i + 1 < q {
      MulMonotone(i + 1, q - 1, size);
    }
  }

  /** What the layout loop relies on: each chunk ends where the int64 sums say, and the next starts behind it. */
  ghost predicate LoopsThrough(want: seq<ChunkVal>, totalSize: int, size: int) {
    && want != [] && want[0].start == 0
    && forall i :: 0 <= i < |want| ==>
      && want[i] == ChunkVal(i, want[i].start, EndOf(want[i].start, size, totalSize), 0, false)
      && want[i].start < totalSize
      && want[i].end + 1 == if i + 1 < |want| then want[i + 1].start else totalSize
  }

  lemma {:induction false} LayoutLoops(totalSize: int, size: int)
    requires 0 < size <= totalSize < TWO_63 && FitsInt64(totalSize, size)
    ensures LoopsThrough(Layout(totalSize, size), totalSize, size)
  {
    var want := Layout(totalSize, size);
    FitsInt64Exact(totalSize, size);
    forall i | 0 <= i < |want|
      ensures want[i].start < totalSize
      ensures want[i].end + 1 == if i + 1 < |want| then want[i + 1].start else totalSize
    {
      StartBelowTotal(totalSize, size, i);
    }
  }

  method CalculateChunks(totalSize: int, preferredChunkSize: int, concurrency: int) returns (chunks: seq<Chunk>)
    requires totalSize < TWO_63 && concurrency < TWO_63 / 4
    requires totalSize > 0 ==> FitsInt64(totalSize, EffectiveSize(totalSize, preferredChunkSize, concurrency))
    ensures totalSize <= 0 ==> chunks == []
    ensures totalSize > 0 ==> Views(chunks) == Layout(totalSize, EffectiveSize(totalSize, preferredChunkSize, concurrency))
    ensures fresh(chunks) && Distinct(chunks)
  {
    if totalSize <= 0 {
      return [];
    }
    var chunkSize := preferredChunkSize;
    if chunkSize <= 0 {
      var workers := concurrency;
      if workers <= 0 {
        workers := DEFAULT_CONCURRENCY;
      }
      var dynamicSize := totalSize / (workers * 4);
      if dynamicSize < MIN_DYNAMIC {
        dynamicSize := MIN_DYNAMIC;
      }
      if dynamicSize > MAX_DYNAMIC {
        dynamicSize := MAX_DYNAMIC;
      }
      chunkSize := dynamicSize;
    }
    if chunkSize > totalSize {
      chunkSize := totalSize;
    }
    LayoutLoops(totalSize, chunkSize);
    chunks := LayoutLoop(totalSize, chunkSize, Layout(totalSize, chunkSize));
  }

  /** The loop of `CalculateChunks`. */
  method LayoutLoop(totalSize: int, chunkSize: int, ghost want: seq<ChunkVal>) returns (chunks: seq<Chunk>)
    requires LoopsThrough(want, totalSize, chunkSize)
    ensures Views(chunks) == want
    ensures fresh(chunks) && Distinct(chunks)
  {
    hide Wrap64;
    chunks := [];
    var start, index := 0, 0;
    while start < totalSize
      invariant 0 <= index <= |want| && start == if index < |want| then want[index].start else totalSize
      invariant |chunks| == index && fresh(chunks) && Distinct(chunks)
      invariant forall i :: 0 <= i < index ==> chunks[i].View() == want[i]
      decreases |want| - index
    {
      assert want[index] == ChunkVal(index, start, EndOf(start, chunkSize, totalSize), 0, false);
      assert want[index].end + 1 == if index + 1 < |want| then want[index + 1].start else totalSize;
      var end := Wrap64(Wrap64(start + chunkSize) - 1);
      if end >= totalSize {
        end := totalSize - 1;
      }
      assert end == want[index].end;
      var c := new Chunk(index, start, end, 0, false);
      chunks := chunks + [c];
      start := end + 1;
      index := index + 1;
    }
  }

  ghost predicate Distinct(chunks: seq<Chunk>) {
    forall i, j :: 0 <= i < j < |chunks| ==> chunks[i] != chunks[j]
  }

  function Views(chunks: seq<Chunk>): (vs: seq<ChunkVal>)
    reads chunks
    ensures |vs| == |chunks|
    ensures forall i :: 0 <= i < |vs| ==> vs[i] == chunks[i].View()
  {
    seq(|chunks|, i requires 0 <= i < |chunks| reads chunks => chunks[i].View())
  }

  // ---------------------------------------------------------------- tiling

  predicate Inside(c: ChunkVal, p: int) { c.start <= p <= c.end }

  ghost predicate Covered(cs: seq<ChunkVal>, p: int) {
    exists i :: 0 <= i < |cs| && Inside(cs[i], p)
  }

  /** The reference meaning of a layout: ranges in order, and every byte of the file in exactly one. */
  ghost predicate Tiles(cs: seq<ChunkVal>, n: int) {
    && (forall i :: 0 <= i < |cs| ==> cs[i].index == i && 0 <= cs[i].start <= cs[i].end < n)
    && (forall i, j :: 0 <= i < j < |cs| ==> cs[i].start < cs[j].start)
    && (forall p :: 0 <= p < n ==> Covered(cs, p))
    && (forall p, i, j :: 0 <= i < |cs| && 0 <= j < |cs| && Inside(cs[i], p) && Inside(cs[j], p) ==> i == j)
  }

  /** The chained form a single pass can check. */
  ghost predicate Chained(cs: seq<ChunkVal>, n: int) {
    && (forall i :: 0 <= i < |cs| ==> cs[i].index == i && 0 <= cs[i].start <= cs[i].end < n)
    && (forall i {:trigger NextStart(cs, i)} :: 0 <= i < |cs| ==> cs[i].start == NextStart(cs, i))
    && n == NextStart(cs, |cs|)
  }

  /** Where chunk `i` must start to follow the one before it. */
  function NextStart(cs: seq<ChunkVal>, i: int): int
    requires 0 <= i <= |cs|
  {
    if i == 0 then 0 else cs[i - 1].end + 1
  }

  lemma {:induction false} ChainedSorted(cs: seq<ChunkVal>, n: int, i: int, j: int)
    requires Chained(cs, n) && 0 <= i < j < |cs|
    ensures cs[i].end < cs[j].start
    decreases j
  {
    assert cs[j].start == NextStart(cs, j);
    if i < j - 1 {
      ChainedSorted(cs, n, i, j - 1);
    }
  }

  /** The chunk that holds byte `p` of a chained list, among the first `k`. */
  lemma {:induction false} ChainedFind(cs: seq<ChunkVal>, n: int, p: int, k: nat) returns (i: int)
    requires Chained(cs, n) && 0 < k <= |cs| && 0 <= p <= cs[k - 1].end
    ensures 0 <= i < k && Inside(cs[i], p)
  {
    i := k - 1;
    if p < cs[i].start {
      assert cs[i].start == NextStart(cs, i);
      i := ChainedFind(cs, n, p, k - 1);
    }
  }

  /** A single pass that chains starts to ends accepts exactly the lists that tile the file. */
  lemma {:induction false} TilesIffChained(cs: seq<ChunkVal>, n: nat)
    ensures Tiles(cs, n) <==> Chained(cs, n)
  {
    if Chained(cs, n) {
      forall i, j | 0 <= i < j < |cs| ensures cs[i].end < cs[j].start {
        ChainedSorted(cs, n, i, j);
      }
      forall p | 0 <= p < n ensures Covered(cs, p) {
        var i := ChainedFind(cs, n, p, |cs|);
      }
    }
    if Tiles(cs, n) {
      TilesOrdered(cs, n);
      forall i {:trigger NextStart(cs, i)} | 0 <= i < |cs| ensures cs[i].start == NextStart(cs, i) {
        TilesNext(cs, n, i);
      }
      if cs == [] {
        assert n > 0 ==> Covered(cs, 0);
      } else {
        var next := cs[|cs| - 1].end + 1;
        assert next < n ==> Covered(cs, next);
      }
    }
  }

  lemma {:induction false} TilesOrdered(cs: seq<ChunkVal>, n: nat)
    requires Tiles(cs, n)
    ensures forall i, j :: 0 <= i < j < |cs| ==> cs[i].end < cs[j].start
  {
    forall i, j | 0 <= i < j < |cs| ensures cs[i].end < cs[j].start {
      assert Inside(cs[j], cs[j].start);
      assert !Inside(cs[i], cs[j].start);
    }
  }

  lemma {:induction false} TilesNext(cs: seq<ChunkVal>, n: nat, i: nat)
    requires Tiles(cs, n) && i < |cs|
    requires forall i, j :: 0 <= i < j < |cs| ==> cs[i].end < cs[j].start
    ensures cs[i].start == NextStart(cs, i)
  {
    var p := NextStart(cs, i);
    assert p <= cs[i].start;
    assert Covered(cs, p);
    var j :| 0 <= j < |cs| && Inside(cs[j], p);
  }

  /** `CalculateChunks` covers every byte of the file exactly once. */
  lemma {:induction false} LayoutTiles(totalSize: nat, size: nat)
    requires 0 < size && 0 < totalSize
    ensures Tiles(Layout(totalSize, size), totalSize)
  {
    hide CeilDiv, LayoutAt;
    var cs := Layout(totalSize, size);
    forall i | 0 <= i < |cs| ensures 0 <= cs[i].start <= cs[i].end < totalSize && cs[i].index == i {
      LayoutAtInside(totalSize, size, i);
    }
    forall i {:trigger NextStart(cs, i)} | 0 <= i < |cs| ensures cs[i].start == NextStart(cs, i) {
      LayoutAtInside(totalSize, size, i);
      if i > 0 {
        LayoutAtInside(totalSize, size, i - 1);
      }
    }
    LayoutAtInside(totalSize, size, |cs| - 1);
    assert totalSize == NextStart(cs, |cs|);
    TilesIffChained(cs, totalSize);
  }

  lemma {:induction false} LayoutAtInside(totalSize: nat, size: nat, i: nat)
    requires 0 < size && 0 < totalSize && i < CeilDiv(totalSize, size)
    ensures var c := LayoutAt(totalSize, size, i);
      && c.index == i && 0 <= c.start <= c.end < totalSize
      && c.end + 1 == (if i + 1 < CeilDiv(totalSize, size) then LayoutAt(totalSize, size, i + 1).start else totalSize)
      && (i == 0 ==> c.start == 0)
  {
    StartBelowTotal(totalSize, size, i);
  }

  lemma {:induction false} CeilDivAtLeast(a: nat, b: nat, k: nat)
    requires 0 < a && 0 < b && 0 < k
    ensures CeilDiv(a, b) >= k <==> a > (k - 1) * b
  {
    var q := CeilDiv(a, b);
    if q >= k {
      MulMonotone(k - 1, q - 1, b);
    } else {
      MulMonotone(q, k - 1, b);
    }
  }

  lemma {:induction false} MulMonotone(x: nat, y: nat, z: nat)
    requires x <= y
    ensures x * z <= y * z && z * x <= z * y
  {
  }

  /** Dynamic mode gives at least four chunks a worker exactly when the file is larger than
      (4*concurrency - 1) * 2 MiB, so in particular from 4*concurrency*2 MiB on. */
  lemma {:induction false} DynamicChunkCount(totalSize: nat, preferred: int, concurrency: int)
    requires 0 < totalSize && preferred <= 0 && 0 < concurrency
    ensures |Layout(totalSize, EffectiveSize(totalSize, preferred, concurrency))| >= 4 * concurrency
            <==> totalSize > (4 * concurrency - 1) * MIN_DYNAMIC
  {
    var parts := 4 * concurrency;
    var size := EffectiveSize(totalSize, preferred, concurrency);
    CeilDivAtLeast(totalSize, size, parts);
    var share := totalSize / parts;
    DivBounds(totalSize, parts);
    assert concurrency * 4 == parts;
    assert size == Min(Min(Max(share, MIN_DYNAMIC), MAX_DYNAMIC), totalSize);
    if share >= MIN_DYNAMIC {
      MulMonotone(size, share, parts - 1);
      MulMonotone(MIN_DYNAMIC, share, parts - 1);
    } else if totalSize <= MIN_DYNAMIC {
      MulMonotone(1, parts - 1, size);
      MulMonotone(1, parts - 1, MIN_DYNAMIC);
    }
  }

  lemma {:induction false} DivBounds(a: nat, b: nat)
    requires 1 < b
    ensures (b - 1) * (a / b) <= a
    ensures 0 < a / b ==> (b - 1) * (a / b) < a
  {
    assert b * (a / b) <= a;
    assert (b - 1) * (a / b) == b * (a / b) - a / b;
  }

  /** How large chunks are. All but the last have one size, and the last is no larger: the preferred size, or the file's
      if that is smaller; without a preference a fourth of each worker's share, between 2 and 64 MiB. */
  lemma ChunkSizes(totalSize: int, preferred: int, concurrency: int) returns (size: int)
    requires 0 < totalSize
    ensures var cs := Layout(totalSize, EffectiveSize(totalSize, preferred, concurrency));
      cs != [] && forall i :: 0 <= i < |cs| ==> if i + 1 < |cs| then cs[i].Size() == size else 0 < cs[i].Size() <= size
    ensures size <= totalSize
    ensures 0 < preferred <= totalSize ==> size == preferred
    ensures totalSize < preferred ==> size == totalSize
    ensures preferred <= 0 ==>
      var share := totalSize / (4 * if concurrency <= 0 then 8 else concurrency);
      && size <= 67108864 && (size == totalSize || 2097152 <= size)
      && (2097152 <= share <= 67108864 ==> size == share)
      && (share < 2097152 <= totalSize ==> size == 2097152) && (67108864 < share ==> size == 67108864)
  {
    size := EffectiveSize(totalSize, preferred, concurrency);
    var cs := Layout(totalSize, size);
    forall i | 0 <= i < |cs| ensures if i + 1 < |cs| then cs[i].Size() == size else 0 < cs[i].Size() <= size {
      StartBelowTotal(totalSize, size, i);
      assert (i + 1) * size == i * size + size;
    }
    if preferred <= 0 {
      ShareWithin(totalSize, 4 * if concurrency <= 0 then 8 else concurrency);
    }
  }

  lemma ShareWithin(a: nat, b: nat)
    requires 1 < b
    ensures a / b <= a
  {
    DivBounds(a, b);
    MulMonotone(1, b - 1, a / b);
  }
}
