/** Byte strings, the destination file as a byte string, finite sums, and the bounds of 64-bit integers. */
module Bytes {

  newtype byte = x: int | 0 <= x < 256

  datatype Option<+T> = None | Some(value: T)

  const TWO_63 := 0x8000_0000_0000_0000
  const TWO_64 := 0x1_0000_0000_0000_0000

  function Min(a: int, b: int): int { if a < b then a else b }

  function Max(a: int, b: int): int { if a < b then b else a }

  ghost predicate Holds(file: seq<byte>, source: seq<byte>, p: int) {
    0 <= p < |file| && p < |source| && file[p] == source[p]
  }

  /** `file` holds the bytes of `source` at every offset of `[lo, hi)`. */
  ghost predicate Agree(file: seq<byte>, source: seq<byte>, lo: int, hi: int) {
    forall p :: lo <= p < hi ==> Holds(file, source, p)
  }

  function Zeros(n: nat): (z: seq<byte>)
    ensures |z| == n && forall i :: 0 <= i < n ==> z[i] == 0
  {
    seq(n, i => 0)
  }

  /** Positioned write: a write past the end leaves a hole of zeros, as a file system does. */
  function WriteAt(file: seq<byte>, off: nat, data: seq<byte>): seq<byte> {
    if data == [] then file
    else
      var padded := if |file| < off then file + Zeros(off - |file|) else file;
      padded[..off] + data + (if off + |data| < |padded| then padded[off + |data|..] else [])
  }

  lemma WriteAtFacts(file: seq<byte>, off: nat, data: seq<byte>)
    ensures var r := WriteAt(file, off, data);
      && |r| == (if data == [] then |file| else Max(|file|, off + |data|))
      && (forall p :: off <= p < off + |data| ==> r[p] == data[p - off])
      && (forall p :: 0 <= p < |file| && !(off <= p < off + |data|) ==> r[p] == file[p])
      && (forall p :: |file| <= p < off && data != [] ==> r[p] == 0)
  {
  }

  /** Two writes back to back are one write. */
  lemma WriteTwice(file: seq<byte>, off: nat, a: seq<byte>, b: seq<byte>)
    ensures WriteAt(WriteAt(file, off, a), off + |a|, b) == WriteAt(file, off, a + b)
  {
    WriteAtFacts(file, off, a);
    WriteAtFacts(WriteAt(file, off, a), off + |a|, b);
    WriteAtFacts(file, off, a + b);
    if a == [] {
      assert a + b == b;
    }
  }

  /** `Truncate`: cuts, or extends with zeros. */
  function Resize(file: seq<byte>, n: nat): (r: seq<byte>)
    ensures |r| == n
    ensures forall p :: 0 <= p < n && p < |file| ==> r[p] == file[p]
  {
    if n <= |file| then file[..n] else file + Zeros(n - |file|)
  }

  /** Writing source bytes at their own offset never spoils what the file already holds. */
  lemma WriteKeepsAgree(file: seq<byte>, source: seq<byte>, off: nat, k: nat, lo: int, hi: int)
    requires off + k <= |source|
    requires Agree(file, source, lo, hi)
    ensures Agree(WriteAt(file, off, source[off..off + k]), source, lo, hi)
  {
    var after := WriteAt(file, off, source[off..off + k]);
    WriteAtFacts(file, off, source[off..off + k]);
    forall p | lo <= p < hi ensures Holds(after, source, p) {
      assert Holds(file, source, p);
    }
  }

  /** ... and the bytes just written are held. */
  lemma WriteExtendsAgree(file: seq<byte>, source: seq<byte>, off: nat, k: nat, lo: int)
    requires off + k <= |source|
    requires Agree(file, source, lo, off)
    ensures Agree(WriteAt(file, off, source[off..off + k]), source, lo, off + k)
  {
    WriteKeepsAgree(file, source, off, k, lo, off);
    WriteAtFacts(file, off, source[off..off + k]);
  }

  /** A file that agrees with the source on the whole of `[0, |source|)` starts with it. */
  lemma AgreeIsPrefix(file: seq<byte>, source: seq<byte>)
    requires Agree(file, source, 0, |source|)
    ensures source <= file
  {
    assert |source| > 0 ==> Holds(file, source, |source| - 1);
    forall p | 0 <= p < |source| ensures file[p] == source[p] {
      assert Holds(file, source, p);
    }
  }

  function Concat<T>(parts: seq<seq<T>>): seq<T> {
    if parts == [] then [] else parts[0] + Concat(parts[1..])
  }

  lemma {:induction false} ConcatAppend<T>(a: seq<seq<T>>, b: seq<seq<T>>)
    ensures Concat(a + b) == Concat(a) + Concat(b)
  {
    if a == [] {
      assert a + b == b;
    } else {
      assert (a + b)[0] == a[0] && (a + b)[1..] == a[1..] + b;
      ConcatAppend(a[1..], b);
    }
  }

  lemma ConcatSnoc<T>(a: seq<seq<T>>, x: seq<T>)
    ensures Concat(a + [x]) == Concat(a) + x
  {
    ConcatAppend(a, [x]);
    assert [x][1..] == [];
    assert Concat([x]) == x + Concat<T>([]);
  }

  /** The sum of `f` over a sequence. */
  function Sum<T>(f: T -> int, xs: seq<T>): int {
    if xs == [] then 0 else f(xs[0]) + Sum(f, xs[1..])
  }

  lemma {:induction false} SumUpdate<T>(f: T -> int, xs: seq<T>, i: nat, x: T)
    requires i < |xs|
    ensures Sum(f, xs[i := x]) == Sum(f, xs) - f(xs[i]) + f(x)
  {
    if i == 0 {
      assert xs[0 := x][1..] == xs[1..];
    } else {
      assert xs[i := x][1..] == xs[1..][i - 1 := x];
      SumUpdate(f, xs[1..], i - 1, x);
    }
  }

  lemma {:induction false} SumAppend<T>(f: T -> int, a: seq<T>, b: seq<T>)
    ensures Sum(f, a + b) == Sum(f, a) + Sum(f, b)
  {
    if a == [] {
      assert a + b == b;
    } else {
      assert (a + b)[1..] == a[1..] + b;
      SumAppend(f, a[1..], b);
    }
  }

  lemma SumSnoc<T>(f: T -> int, a: seq<T>, x: T)
    ensures Sum(f, a + [x]) == Sum(f, a) + f(x)
  {
    SumAppend(f, a, [x]);
    assert [x][1..] == [];
  }

  lemma {:induction false} SumAtLeast<T>(f: T -> int, xs: seq<T>, i: nat)
    requires i < |xs|
    requires forall x :: x in xs ==> 0 <= f(x)
    ensures f(xs[i]) <= Sum(f, xs)
  {
    SumNonNegative(f, xs[1..]);
    if i > 0 {
      SumAtLeast(f, xs[1..], i - 1);
    }
  }

  lemma {:induction false} SumNonNegative<T>(f: T -> int, xs: seq<T>)
    requires forall x :: x in xs ==> 0 <= f(x)
    ensures 0 <= Sum(f, xs)
  {
    if xs != [] {
      SumNonNegative(f, xs[1..]);
    }
  }

  lemma {:induction false} SumZero<T>(f: T -> int, xs: seq<T>)
    requires forall x :: x in xs ==> f(x) == 0
    ensures Sum(f, xs) == 0
  {
    if xs != [] {
      SumZero(f, xs[1..]);
    }
  }

  lemma {:induction false} SubsetSize<T>(a: set<T>, b: set<T>)
    requires a <= b
    ensures |a| <= |b|
  {
    assert b == a + (b - a);
  }
}
