/** Choosing a destination that does not exist yet (pkg/engine/file_sink.go:214-242). */
module Rename {
  import opened Bytes
  import opened Decimal

  const SEPARATOR := '/'

  /** `filepath.Ext`: from the last dot of the last path element on, or nothing. */
  function Ext(path: string): (e: string)
    ensures |e| <= |path| && path[|path| - |e|..] == e
  {
    if path == [] || path[|path| - 1] == SEPARATOR then []
    else if path[|path| - 1] == '.' then ['.']
    else
      var e := Ext(path[..|path| - 1]);
      if e == [] then [] else e + [path[|path| - 1]]
  }

  /** The directory part, with its separator. */
  function Dir(path: string): (d: string)
    ensures d <= path
  {
    if path == [] || path[|path| - 1] == SEPARATOR then path else Dir(path[..|path| - 1])
  }

  function Numbered(candidate: string, n: nat): string {
    candidate[..|candidate| - |Ext(candidate)|] + " (" + Digits(n) + ")" + Ext(candidate)
  }

  /** The candidate after `k` renames; each is built from the one before. */
  function Candidate(path: string, k: nat): string {
    if k == 0 then path else Numbered(Candidate(path, k - 1), k)
  }

  datatype Entry = File | Directory | Unreadable

  /** What `os.Stat` says of a path: no such file, something there, or another error. */
  datatype Stat = Missing | Present | Broken

  function StatOf(fs: map<string, Entry>, path: string): Stat {
    if path !in fs then Missing else if fs[path] == Unreadable then Broken else Present
  }

  /** The caller names a directory: one that is there, or a path that ends like one. */
  predicate NamesDirectory(fs: map<string, Entry>, destPath: string) {
    destPath != [] && ((destPath in fs && fs[destPath] == Directory) || destPath[|destPath| - 1] == SEPARATOR)
  }

  /** The path a caller asks for; `join` is `filepath.Join`. */
  function Wished(fs: map<string, Entry>, destPath: string, filename: string,
                  join: (string, string) -> string): string
  {
    if destPath == [] then filename else if NamesDirectory(fs, destPath) then join(destPath, filename) else destPath
  }

  /** Names in use that are at least as long as a candidate. */
  function LongNames(fs: map<string, Entry>, len: nat): set<string> {
    set x | x in fs && |x| >= len
  }

  lemma {:induction false} LongNamesShrink(fs: map<string, Entry>, path: string, next: string)
    requires path in fs && |path| < |next|
    ensures |LongNames(fs, |next|)| < |LongNames(fs, |path|)|
  {
    var a, b := LongNames(fs, |next|), LongNames(fs, |path|);
    assert path in b && path !in a && a <= b;
    assert b == a + (b - a) && path in b - a;
  }

  /** A plain stretch of a file name: no separator, no dot. */
  predicate Plain(s: string) { SEPARATOR !in s && '.' !in s }

  lemma {:induction false} OneMore(path: string, c: char)
    ensures Dir(path + [c]) == if c == SEPARATOR then path + [c] else Dir(path)
    ensures Ext(path + [c]) == if c == SEPARATOR then [] else if c == '.' then ['.'] else if Ext(path) == [] then [] else Ext(path) + [c]
  {
    assert (path + [c])[..|path|] == path;
  }

  lemma Regroup(a: string, b: string, c: string)
    ensures a + (b + c) == (a + b) + c
  {
  }

  lemma {:induction false} PlainTail(path: string, tail: string)
    requires Plain(tail)
    ensures Dir(path + tail) == Dir(path)
    ensures Ext(path + tail) == if Ext(path) == [] then [] else Ext(path) + tail
  {
    hide Dir, Ext;
    if tail == [] {
      assert path + tail == path;
    } else {
      var front, c := tail[..|tail| - 1], tail[|tail| - 1];
      assert Plain(front) && Plain([c]) && tail == front + [c];
      PlainTail(path, front);
      PlainSnoc(path, front, c);
    }
  }

  lemma {:induction false} PlainSnoc(path: string, front: string, c: char)
    requires Plain([c])
    requires Dir(path + front) == Dir(path)
    requires Ext(path + front) == if Ext(path) == [] then [] else Ext(path) + front
    ensures Dir(path + (front + [c])) == Dir(path)
    ensures Ext(path + (front + [c])) == if Ext(path) == [] then [] else Ext(path) + (front + [c])
  {
    hide Dir, Ext;
    assert c in [c];
    Regroup(path, front, [c]);
    OneMore(path + front, c);
    Regroup(Ext(path), front, [c]);
  }

  /** `base` and `e` split a path where `Ext` does: at nothing, or at a dot with a plain stretch after it. */
  ghost predicate Cut(path: string, base: string, e: string) {
    path == base + e && (e != [] ==> e[0] == '.' && Plain(e[1..]) && Dir(base) == Dir(path))
  }

  lemma {:induction false} ExtCuts(path: string) returns (base: string)
    ensures Cut(path, base, Ext(path))
  {
    if path == [] {
      base := [];
    } else {
      hide Cut, Dir, Ext;
      var front, c := path[..|path| - 1], path[|path| - 1];
      assert path == front + [c];
      base := ExtCuts(front);
      CutSnoc(front, c, base);
      base := if Ext(path) == [] then path else if c == '.' then front else base;
    }
  }

  lemma {:induction false} CutSnoc(front: string, c: char, base: string)
    requires Cut(front, base, Ext(front))
    ensures var e := Ext(front + [c]);
      if e == [] then Cut(front + [c], front + [c], e)
      else if c == '.' then e == ['.'] && Cut(front + [c], front, e)
      else e == Ext(front) + [c] && Cut(front + [c], base, e)
  {
    hide Dir, Ext;
    OneMore(front, c);
    var e := Ext(front + [c]);
    if e == [] {
      assert front + [c] + [] == front + [c];
    } else if c == '.' {
      assert ['.'][1..] == [];
    } else {
      Regroup(base, Ext(front), [c]);
      assert (Ext(front) + [c])[1..] == Ext(front)[1..] + [c];
    }
  }

  /** A numbered name is longer than the one it is built from, in the same directory, with the same extension. */
  lemma {:induction false} NumberedKeeps(candidate: string, n: nat)
    ensures |candidate| + 4 <= |Numbered(candidate, n)|
    ensures Dir(Numbered(candidate, n)) == Dir(candidate)
    ensures Ext(Numbered(candidate, n)) == Ext(candidate)
  {
    hide Dir, Ext;
    var e, base, tag := Ext(candidate), candidate[..|candidate| - |Ext(candidate)|], " (" + Digits(n) + ")";
    assert Plain(tag);
    assert Numbered(candidate, n) == base + tag + e;
    var cut := ExtCuts(candidate);
    assert cut == base;
    hide Numbered, Plain;
    if e == [] {
      assert base == candidate && base + tag + e == base + tag;
      PlainTail(base, tag);
    } else {
      PlainTail(base, tag);
      Reattach(base + tag, e);
    }
  }

  lemma {:induction false} Reattach(base: string, e: string)
    requires e != [] && e[0] == '.' && Plain(e[1..])
    ensures Dir(base + e) == Dir(base) && Ext(base + e) == e
  {
    hide Dir, Ext;
    assert e == ['.'] + e[1..];
    Regroup(base, ['.'], e[1..]);
    OneMore(base, '.');
    PlainTail(base + ['.'], e[1..]);
  }

  lemma {:induction false} CandidateKeeps(path: string, k: nat)
    ensures |path| + 4 * k <= |Candidate(path, k)|
    ensures Dir(Candidate(path, k)) == Dir(path) && Ext(Candidate(path, k)) == Ext(path)
  {
    if k > 0 {
      CandidateKeeps(path, k - 1);
      NumberedKeeps(Candidate(path, k - 1), k);
    }
  }

  /** The first candidate that is not a file in use, after `k` renames. */
  ghost predicate StopsAt(fs: map<string, Entry>, path: string, k: nat) {
    (forall j :: 0 <= j < k ==> StatOf(fs, Candidate(path, j)) == Present) && StatOf(fs, Candidate(path, k)) != Present
  }

  /** For every finite file system the loop ends, at the first candidate that is not in use, in the directory and
      with the extension asked for; only an unreadable path makes it fail. */
  method ResolveDestPath(destPath: string, filename: string, fs: map<string, Entry>, join: (string, string) -> string, autoRename: bool, preserveExisting: bool)
    returns (r: Option<string>)
    ensures var path := Wished(fs, destPath, filename, join);
      && (!autoRename || preserveExisting ==> r == Some(path))
      && (autoRename && !preserveExisting ==>
            exists k :: StopsAt(fs, path, k) && r == if StatOf(fs, Candidate(path, k)) == Missing then Some(Candidate(path, k)) else None)
      && (r.Some? ==> Dir(r.value) == Dir(path) && Ext(r.value) == Ext(path))
  {
    hide Dir, Ext, LongNames, Numbered;
    var candidate := filename;
    if destPath != [] {
      if destPath in fs && fs[destPath] == Directory {
        candidate := join(destPath, filename);
      } else if destPath[|destPath| - 1] == SEPARATOR {
        candidate := join(destPath, filename);
      } else {
        candidate := destPath;
      }
    }
    if !autoRename || preserveExisting {
      return Some(candidate);
    }
    assert candidate == Wished(fs, destPath, filename, join);
    r := FirstFree(candidate, fs);
  }

  /** The loop of `resolveDestPath`. */
  method FirstFree(path: string, fs: map<string, Entry>) returns (r: Option<string>)
    ensures exists k :: StopsAt(fs, path, k) && r == if StatOf(fs, Candidate(path, k)) == Missing then Some(Candidate(path, k)) else None
    ensures r.Some? ==> Dir(r.value) == Dir(path) && Ext(r.value) == Ext(path)
  {
    hide Dir, Ext, LongNames, Numbered;
    var candidate, n := path, 1;
    ghost var k := 0;
    while true
      invariant n == k + 1 && candidate == Candidate(path, k)
      invariant forall j :: 0 <= j < k ==> StatOf(fs, Candidate(path, j)) == Present
      decreases |LongNames(fs, |candidate|)|
    {
      CandidateKeeps(path, k);
      assert StatOf(fs, candidate) != Present ==> StopsAt(fs, path, k);
      match StatOf(fs, candidate) {
        case Missing => return Some(candidate);
        case Broken => return None;
        case Present =>
          NumberedKeeps(candidate, n);
          LongNamesShrink(fs, candidate, Numbered(candidate, n));
          candidate, n, k := Numbered(candidate, n), n + 1, k + 1;
      }
    }
  }

  /** The path asked for: the file's own name without a destination, a path in the destination if that is a directory or
      is written like one, and the destination itself otherwise. */
  lemma WishedMeans(fs: map<string, Entry>, destPath: string, filename: string, join: (string, string) -> string)
    ensures var path := Wished(fs, destPath, filename, join);
      && (destPath == "" ==> path == filename)
      && (destPath != "" && (destPath in fs && fs[destPath] == Directory) ==> path == join(destPath, filename))
      && (destPath != "" && destPath[|destPath| - 1] == '/' ==> path == join(destPath, filename))
      && (destPath != "" && !(destPath in fs && fs[destPath] == Directory) && destPath[|destPath| - 1] != '/' ==> path == destPath)
  {
  }

  /** The number goes in front of the extension: the last dot of the file name and what follows it. */
  lemma {:induction false} NumberedName(base: string, e: string, n: nat)
    requires if e == [] then Ext(base) == [] else e[0] == '.' && Plain(e[1..])
    ensures Numbered(base + e, n) == base + " (" + Digits(n) + ")" + e
  {
    hide Ext, Plain;
    if e == [] {
      assert base + e == base;
    } else {
      Reattach(base, e);
    }
    assert (base + e)[..|base|] == base;
  }

  /** A name without a dot has no extension. */
  lemma {:induction false} NoDotNoExt(dir: string, name: string)
    requires Plain(name) && (dir == [] || dir[|dir| - 1] == '/')
    ensures Ext(dir + name) == []
  {
    assert Ext(dir) == [];
    hide Ext;
    PlainTail(dir, name);
  }
}
