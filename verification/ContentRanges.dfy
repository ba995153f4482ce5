/** The Content-Range header of a partial response (pkg/engine/worker.go:196-216). */
module ContentRanges {
  import opened Bytes
  import opened Decimal
  import W = Worker

  /** `unicode.IsSpace` up to U+00FF. */
  predicate IsSpace(c: char) {
    c == ' ' || '\t' <= c <= '\r' || c == '\U{0085}' || c == '\U{00A0}'
  }

  function Skip(s: string): (r: string)
    ensures |r| <= |s| && (r != [] ==> !IsSpace(r[0]))
  {
    if s != [] && IsSpace(s[0]) then Skip(s[1..]) else s
  }

  /** The leading stretch without spaces. */
  function Word(s: string): (w: string)
    ensures w <= s
  {
    if s == [] || IsSpace(s[0]) then [] else [s[0]] + Word(s[1..])
  }

  /** `strings.Fields`. */
  function Fields(s: string): seq<string>
    decreases |s|
  {
    var r := Skip(s);
    if r == [] then [] else [Word(r)] + Fields(r[|Word(r)|..])
  }

  /** Simple case folding as far as the letters of "bytes" go. */
  function Fold(c: char): char {
    if 'A' <= c <= 'Z' then (c as int + 32) as char else if c == '\U{017F}' then 's' else c
  }

  function FoldAll(s: string): string {
    if s == [] then [] else [Fold(s[0])] + FoldAll(s[1..])
  }

  /** `strings.SplitN(s, sep, 2)` with one character to split at: both parts, if it occurs. */
  function SplitAt(s: string, sep: char): Option<(string, string)> {
    if s == [] then None
    else if s[0] == sep then Some(([], s[1..]))
    else match SplitAt(s[1..], sep)
      case None => None
      case Some((a, b)) => Some(([s[0]] + a, b))
  }

  function ParseContentRange(value: string): Option<W.ContentRange> {
    var parts := Fields(value);
    if |parts| != 2 || FoldAll(parts[0]) != "bytes" then None
    else match SplitAt(parts[1], '/')
      case None => None
      case Some((range, size)) => match SplitAt(range, '-')
        case None => None
        case Some((from, to)) =>
          match (ParseInt(from), ParseInt(to), ParseInt(size))
          case (Some(first), Some(last), Some(total)) =>
            if first < 0 || last < first then None else Some(W.ContentRange(first, last, total))
          case _ => None
  }

  lemma {:induction false} SplitAtJoin(a: string, sep: char, b: string)
    requires sep !in a
    ensures SplitAt(a + [sep] + b, sep) == Some((a, b))
  {
    var s := a + [sep] + b;
    if a == [] {
      assert s == [sep] + b;
    } else {
      assert s[0] == a[0] && s[1..] == a[1..] + [sep] + b;
      SplitAtJoin(a[1..], sep, b);
      assert a == [a[0]] + a[1..];
    }
  }

  lemma {:induction false} SplitAtFirst(s: string, sep: char)
    ensures match SplitAt(s, sep)
      case None => sep !in s
      case Some((a, b)) => sep !in a && s == a + [sep] + b
  {
    if s != [] && s[0] != sep {
      SplitAtFirst(s[1..], sep);
      assert s == [s[0]] + s[1..];
    }
  }

  predicate NoSpace(s: string) { forall i :: 0 <= i < |s| ==> !IsSpace(s[i]) }

  predicate Blank(s: string) { forall i :: 0 <= i < |s| ==> IsSpace(s[i]) }

  lemma {:induction false} SkipBlank(blank: string, s: string)
    requires Blank(blank) && (s == [] || !IsSpace(s[0]))
    ensures Skip(blank + s) == s
  {
    if blank != [] {
      assert (blank + s)[1..] == blank[1..] + s;
      SkipBlank(blank[1..], s);
    } else {
      assert blank + s == s;
    }
  }

  lemma {:induction false} Skipped(s: string) returns (blank: string)
    ensures Blank(blank) && s == blank + Skip(s)
  {
    if s != [] && IsSpace(s[0]) {
      var rest := Skipped(s[1..]);
      blank := [s[0]] + rest;
    } else {
      blank := [];
    }
  }

  lemma {:induction false} WordWhole(w: string, rest: string)
    requires NoSpace(w) && (rest == [] || IsSpace(rest[0]))
    ensures Word(w + rest) == w
  {
    if w != [] {
      assert (w + rest)[1..] == w[1..] + rest;
      WordWhole(w[1..], rest);
    } else {
      assert w + rest == rest;
    }
  }

  lemma {:induction false} WordEnds(s: string)
    ensures NoSpace(Word(s)) && |Word(s)| <= |s|
    ensures var rest := s[|Word(s)|..]; rest == [] || IsSpace(rest[0])
  {
    if s != [] && !IsSpace(s[0]) {
      WordEnds(s[1..]);
      assert s[|Word(s)|..] == s[1..][|Word(s[1..])|..];
    }
  }

  lemma {:induction false} OneField(blank: string, w: string, rest: string)
    requires Blank(blank) && NoSpace(w) && w != [] && (rest == [] || IsSpace(rest[0]))
    ensures Fields(blank + (w + rest)) == [w] + Fields(rest)
  {
    SkipBlank(blank, w + rest);
    WordWhole(w, rest);
    assert (w + rest)[|w|..] == rest;
    hide Skip, Word;
  }

  lemma {:induction false} OneFieldOnly(s: string) returns (blank: string, rest: string)
    requires Fields(s) != []
    ensures Blank(blank) && s == blank + (Fields(s)[0] + rest) && Fields(rest) == Fields(s)[1..]
    ensures NoSpace(Fields(s)[0]) && Fields(s)[0] != [] && (rest == [] || IsSpace(rest[0]))
  {
    blank := Skipped(s);
    var word := Word(Skip(s));
    WordEnds(Skip(s));
    rest := Skip(s)[|word|..];
    assert Skip(s) == word + rest;
    hide Skip, Word;
  }

  lemma {:induction false} NoFields(s: string)
    ensures Fields(s) == [] <==> Blank(s)
  {
    var blank := Skipped(s);
    if Blank(s) {
      SkipBlank(s, []);
      assert s + [] == s;
    }
    hide Skip, Word;
    assert Fields(s) == [] ==> s == blank + [];
  }

  /** Two words with spaces around them are two fields. */
  lemma {:induction false} TwoFields(before: string, a: string, between: string, b: string, behind: string)
    requires Blank(before) && Blank(between) && Blank(behind) && between != []
    requires NoSpace(a) && NoSpace(b) && a != [] && b != []
    ensures Fields(before + a + between + b + behind) == [a, b]
  {
    hide Fields, NoSpace;
    var second := between + (b + behind);
    assert before + a + between + b + behind == before + (a + second);
    OneField(before, a, second);
    OneField(between, b, behind);
    NoFields(behind);
  }

  /** And a text with two fields is made so. */
  lemma {:induction false} TwoFieldsOnly(s: string) returns (before: string, between: string, behind: string)
    requires |Fields(s)| == 2
    ensures var a, b := Fields(s)[0], Fields(s)[1];
      && Blank(before) && Blank(between) && Blank(behind) && between != []
      && s == before + a + between + b + behind
  {
    hide Fields;
    var rest: string;
    before, rest := OneFieldOnly(s);
    assert |Fields(rest)| == 1;
    between, behind := OneFieldOnly(rest);
    NoFields(behind);
    var a, b := Fields(s)[0], Fields(s)[1];
    assert Fields(rest)[0] == b;
    assert between != [] by {
      SecondIsApart(rest, between, b, behind);
    }
    assert s == before + (a + (between + (b + behind)));
  }

  lemma {:induction false} SecondIsApart(rest: string, between: string, b: string, behind: string)
    requires rest == between + (b + behind) && (rest == [] || IsSpace(rest[0])) && b != [] && NoSpace(b)
    ensures between != []
  {
    assert rest[|between|] == b[0];
  }

  /** How a server writes the header (section 14.4 of RFC 9110); `size` is a length or an asterisk. */
  function Header(first: nat, last: nat, size: string): string {
    "bytes" + " " + (Digits(first) + ['-'] + Digits(last) + ['/'] + size)
  }

  lemma {:induction false} HeaderParts(first: nat, last: nat, size: string)
    requires NoSpace(size)
    ensures var range := Digits(first) + ['-'] + Digits(last);
      && Fields(Header(first, last, size)) == ["bytes", range + ['/'] + size]
      && SplitAt(range + ['/'] + size, '/') == Some((range, size))
      && SplitAt(range, '-') == Some((Digits(first), Digits(last)))
  {
    var a, b := Digits(first), Digits(last);
    var range := a + ['-'] + b;
    assert NoSpace(range + ['/'] + size) by {
      DigitsPlain(a);
      DigitsPlain(b);
    }
    TwoFields("", "bytes", " ", range + ['/'] + size, "");
    assert "" + "bytes" + " " + (range + ['/'] + size) + "" == Header(first, last, size);
    DigitsPlain(a);
    DigitsPlain(b);
    SplitAtJoin(range, '/', size);
    SplitAtJoin(a, '-', b);
  }

  lemma DigitsPlain(s: string)
    requires AllDigits(s)
    ensures NoSpace(s) && '/' !in s && '-' !in s
  {
  }

  lemma {:induction false} FoldEach(s: string)
    ensures |FoldAll(s)| == |s| && forall i :: 0 <= i < |s| ==> FoldAll(s)[i] == Fold(s[i])
  {
    if s != [] {
      FoldEach(s[1..]);
    }
  }

  /** "bytes" in any mixture of cases, and with the long s that folds to one. */
  predicate SaysBytes(unit: string) {
    |unit| == 5 && unit[0] in "bB" && unit[1] in "yY" && unit[2] in "tT" && unit[3] in "eE" && unit[4] in "sS\U{017F}"
  }

  lemma FoldsToBytes(unit: string)
    ensures FoldAll(unit) == "bytes" <==> SaysBytes(unit)
  {
    FoldEach(unit);
    if |unit| == 5 {
      assert FoldAll(unit) == [Fold(unit[0]), Fold(unit[1]), Fold(unit[2]), Fold(unit[3]), Fold(unit[4])];
    }
  }

  /** Every range a server can state with a length is read back exactly. */
  lemma RangeRoundTrip(first: nat, last: nat, total: nat)
    requires first <= last < TWO_63 && total < TWO_63
    ensures ParseContentRange(Header(first, last, Digits(total))) == Some(W.ContentRange(first, last, total))
  {
    hide Header, Fields, SplitAt, Digits, FoldAll, ParseInt;
    DigitsPlain(Digits(total));
    HeaderParts(first, last, Digits(total));
    FoldsToBytes("bytes");
    ParseDigits(first);
    ParseDigits(last);
    ParseDigits(total);
  }

  lemma AsteriskIsNoNumber()
    ensures ParseInt("*") == None && NoSpace("*")
  {
  }

  lemma {:induction false} UnknownTotal(first: nat, last: nat)
    ensures ParseContentRange(Header(first, last, "*")) == None
  {
    hide ParseInt, Header, Fields, SplitAt, Digits, FoldAll;
    AsteriskIsNoNumber();
    HeaderParts(first, last, "*");
  }

  /** A response that leaves the complete length unknown, as RFC 9110 allows, is refused, and with it the attempt. */
  lemma UnknownTotalRefused(first: nat, last: nat)
    ensures ParseContentRange(Header(first, last, "*")) == None
    ensures first <= last ==>
      W.Judge(W.Reply(206, ParseContentRange(Header(first, last, "*"))), first, last) == Some(W.BadRange)
  {
    hide ParseContentRange, Header;
    UnknownTotal(first, last);
  }

  /** A header with spaces wherever they are allowed is read as the numbers in it. */
  lemma {:induction false} SpelledIsRead(before: string, unit: string, between: string, from: string, to: string, size: string,
                                         behind: string)
    requires Blank(before) && Blank(between) && Blank(behind) && between != [] && SaysBytes(unit) && '-' !in from
    requires ParseInt(from).Some? && ParseInt(to).Some? && ParseInt(size).Some?
    ensures var first, last := ParseInt(from).value, ParseInt(to).value;
      ParseContentRange(before + unit + between + (from + ['-'] + to + ['/'] + size) + behind)
        == if 0 <= first <= last then Some(W.ContentRange(first, last, ParseInt(size).value)) else None
  {
    var range := from + ['-'] + to;
    NumberPlain(from);
    NumberPlain(to);
    NumberPlain(size);
    FoldsToBytes(unit);
    hide ParseInt, FoldAll, SplitAt;
    TwoFields(before, unit, between, range + ['/'] + size, behind);
    SplitAtJoin(range, '/', size);
    SplitAtJoin(from, '-', to);
    hide Fields;
  }

  lemma NumberPlain(s: string)
    requires ParseInt(s).Some?
    ensures NoSpace(s) && '/' !in s
  {
  }

  /** And nothing else is accepted. */
  lemma {:induction false} ReadIsSpelled(value: string)
    returns (before: string, unit: string, between: string, from: string, to: string, size: string, behind: string)
    requires ParseContentRange(value).Some?
    ensures value == before + unit + between + (from + ['-'] + to + ['/'] + size) + behind
    ensures Blank(before) && Blank(between) && Blank(behind) && between != [] && SaysBytes(unit) && '-' !in from
    ensures ParseInt(from).Some? && ParseInt(to).Some? && ParseInt(size).Some?
    ensures ParseContentRange(value).value
         == W.ContentRange(ParseInt(from).value, ParseInt(to).value, ParseInt(size).value)
  {
    before, between, behind := TwoFieldsOnly(value);
    var parts := Fields(value);
    unit := parts[0];
    FoldsToBytes(unit);
    SplitAtFirst(parts[1], '/');
    var range := SplitAt(parts[1], '/').value.0;
    size := SplitAt(parts[1], '/').value.1;
    SplitAtFirst(range, '-');
    from := SplitAt(range, '-').value.0;
    to := SplitAt(range, '-').value.1;
    hide Fields, SplitAt, ParseInt, FoldAll, SaysBytes;
  }

  /** What is accepted is always a proper range, whatever the header says. */
  lemma RangeIsProper(value: string)
    ensures ParseContentRange(value).Some? ==> var r := ParseContentRange(value).value; 0 <= r.first <= r.last < TWO_63
  {
  }
}
