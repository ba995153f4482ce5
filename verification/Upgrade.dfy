/** The HTTP upgrade handshake and the hand-over of bytes read past it (pkg/tunnel/dialer.go:14-172, from the
    injected payload on). */
module Upgrade {
  import opened Bytes
  import opened Wire

  const CR: byte := 13
  const SPACE: byte := 32

  /** Library text functions the status line goes through: `strings.TrimSpace` and `strconv.Atoi`. */
  datatype Text = Text(trim: seq<byte> -> seq<byte>, atoi: seq<byte> -> Option<int>)

  /** `strings.Split(s, " ")`. */
  function SplitSpaces(s: seq<byte>): (parts: seq<seq<byte>>)
    ensures parts != []
  {
    if s == [] then [[]]
    else
      var parts := SplitSpaces(s[1..]);
      if s[0] == SPACE then [[]] + parts else [[s[0]] + parts[0]] + parts[1..]
  }

  datatype Fault = PayloadNotSent | NoStatusLine | BadStatusLine | BadStatusCode | NoHeaderEnd | BadStatus

  datatype Handshaken = Failed(fault: Fault) | Open(rest: seq<byte>)

  /** A line of nothing but CR and LF. */
  predicate Blank(line: seq<byte>) { forall c :: c in line ==> c == CR || c == NEWLINE }

  /** What follows the first blank line. */
  function AfterHeaders(all: seq<byte>): Option<seq<byte>>
    decreases |all|
  {
    match FirstLine(all)
    case NoLine => None
    case Line(l, rest) =>
      FirstLineWithin(all, []);
      if Blank(l) then Some(rest) else AfterHeaders(rest)
  }

  predicate Accepted(status: int, expected: int) {
    status == 101 || status == 200 || (expected > 0 && status == expected)
  }

  /** The handshake as a function of all the bytes the server ever sends. */
  function Handshake(all: seq<byte>, expected: int, text: Text): Handshaken {
    match FirstLine(all)
    case NoLine => Failed(NoStatusLine)
    case Line(l, rest) =>
      var parts := SplitSpaces(text.trim(l));
      if |parts| < 2 then Failed(BadStatusLine)
      else match text.atoi(parts[1])
        case None => Failed(BadStatusCode)
        case Some(status) => match AfterHeaders(rest)
          case None => Failed(NoHeaderEnd)
          case Some(body) => if Accepted(status, expected) then Open(body) else Failed(BadStatus)
  }

  /** A connection with bytes already read in front; with an empty prefix it is the connection itself. */
  class PrefixedConn {
    const conn: Conn
    var prefix: seq<byte>

    constructor (conn: Conn, prefix: seq<byte>)
      ensures this.conn == conn && this.prefix == prefix
    {
      this.conn, this.prefix := conn, prefix;
    }

    function Rest(): seq<byte>
      reads this, conn`incoming
    {
      prefix + conn.Rest()
    }

    /** Every read continues where the last one stopped; an end means nothing is left. */
    method Read(max: nat) returns (data: seq<byte>, end: bool)
      requires conn.Valid()
      modifies this`prefix, conn`incoming
      ensures conn.Valid() && data + Rest() == old(Rest()) && |data| <= max
      ensures data == [] ==> max == 0 || (end && Rest() == [])
      ensures end ==> Rest() == []
    {
      if |prefix| > 0 {
        var n := Min(max, |prefix|);
        data, end := prefix[..n], false;
        prefix := prefix[n..];
        assert old(prefix) == data + prefix;
        return;
      }
      data, end := conn.Read(max);
    }
  }

  /** From the payload to the stream the tunnel goes on with. Whatever reads the server's bytes arrive in, the
      stream gives exactly those behind the first blank line. */
  method DialPayload(conn: Conn, payload: seq<seq<byte>>, expected: int, text: Text)
    returns (stream: PrefixedConn?, fault: Option<Fault>)
    requires conn.Valid()
    modifies conn
    ensures conn.Valid() && conn.written == old(conn.written) + Concat(payload)[..Min(|Concat(payload)|, old(conn.room))]
    ensures if old(conn.room) < |Concat(payload)| then stream == null && fault == Some(PayloadNotSent)
            else match Handshake(old(conn.Rest()), expected, text)
              case Failed(f) => stream == null && fault == Some(f)
              case Open(rest) => stream != null && fault == None && stream.conn == conn && stream.Rest() == rest
  {
    stream, fault := null, None;
    var failed := SendPayload(conn, payload);
    if failed {
      return null, Some(PayloadNotSent);
    }
    ghost var all := conn.Rest();
    var reader := new BufReader(conn);
    var line, err := reader.ReadLine();
    if err {
      return null, Some(NoStatusLine);
    }
    var parts := SplitSpaces(text.trim(line));
    if |parts| < 2 {
      return null, Some(BadStatusLine);
    }
    var status := text.atoi(parts[1]);
    if status == None {
      return null, Some(BadStatusCode);
    }
    var ended := SkipHeaders(reader);
    if !ended {
      return null, Some(NoHeaderEnd);
    }
    var isValid := false;
    if status.value == 101 || status.value == 200 {
      isValid := true;
    } else if expected > 0 && status.value == expected {
      isValid := true;
    }
    if !isValid {
      return null, Some(BadStatus);
    }
    var leftover := reader.Drain();
    stream := new PrefixedConn(conn, leftover);
  }

  /** The write loop over the payload's packets. */
  method SendPayload(conn: Conn, payload: seq<seq<byte>>) returns (failed: bool)
    modifies conn`written, conn`room
    ensures failed <==> old(conn.room) < |Concat(payload)|
    ensures conn.written == old(conn.written) + Concat(payload)[..Min(|Concat(payload)|, old(conn.room))]
  {
    var i := 0;
    failed := false;
    assert payload[..0] == [];
    while i < |payload|
      invariant 0 <= i <= |payload| && |Concat(payload[..i])| + conn.room == old(conn.room)
      invariant conn.written == old(conn.written) + Concat(payload[..i])
    {
      var room := conn.room;
      failed := conn.Write(payload[i]);
      SentSoFar(payload, i);
      if failed {
        assert Concat(payload)[..|Concat(payload[..i])| + room] == Concat(payload[..i]) + payload[i][..room];
        return;
      }
      i := i + 1;
    }
    assert payload[..i] == payload;
  }

  lemma {:induction false} SentSoFar(payload: seq<seq<byte>>, i: nat)
    requires i < |payload|
    ensures Concat(payload[..i + 1]) == Concat(payload[..i]) + payload[i]
    ensures Concat(payload) == Concat(payload[..i + 1]) + Concat(payload[i + 1..])
  {
    hide Concat;
    assert payload[..i + 1] == payload[..i] + [payload[i]];
    ConcatSnoc(payload[..i], payload[i]);
    ConcatSplit(payload, i + 1);
  }

  lemma {:induction false} ConcatSplit(payload: seq<seq<byte>>, i: nat)
    requires i <= |payload|
    ensures Concat(payload) == Concat(payload[..i]) + Concat(payload[i..])
  {
    hide Concat;
    assert payload == payload[..i] + payload[i..];
    ConcatAppend(payload[..i], payload[i..]);
  }

  /** The header loop. */
  method SkipHeaders(reader: BufReader) returns (ended: bool)
    requires reader.Valid()
    modifies reader`buf, reader`ended, reader.conn`incoming
    ensures reader.Valid()
    ensures match AfterHeaders(old(reader.All()))
      case None => !ended
      case Some(rest) => ended && reader.All() == rest
  {
    ghost var was := reader.All();
    while true
      invariant reader.Valid() && AfterHeaders(reader.All()) == AfterHeaders(was)
      decreases |reader.All()|
    {
      ghost var all := reader.All();
      FirstLineWithin(all, []);
      var line, err := reader.ReadLine();
      if err {
        return false;
      }
      if Blank(line) {
        return true;
      }
    }
  }

  // ------------------------------------------------- reference meaning

  /** A line as a server sends it: its only newline is its last byte. */
  predicate WholeLine(l: seq<byte>) { l != [] && l[|l| - 1] == NEWLINE && NEWLINE !in l[..|l| - 1] }

  predicate OnlyCR(s: seq<byte>) { forall c :: c in s ==> c == CR }

  predicate BlankLine(l: seq<byte>) { WholeLine(l) && OnlyCR(l[..|l| - 1]) }

  predicate HeaderLine(l: seq<byte>) { WholeLine(l) && !BlankLine(l) }

  /** `all` is header lines, a blank line, and `body`. */
  ghost predicate Headed(all: seq<byte>, lines: seq<seq<byte>>, blank: seq<byte>, body: seq<byte>) {
    (forall l :: l in lines ==> HeaderLine(l)) && BlankLine(blank) && all == Concat(lines) + blank + body
  }

  lemma {:induction false} WholeLineIsFirst(l: seq<byte>, rest: seq<byte>)
    requires WholeLine(l)
    ensures FirstLine(l + rest) == Line(l, rest)
  {
    var front := l[..|l| - 1];
    NoNewline(front);
    assert l == front + [NEWLINE] && l + rest == front + ([NEWLINE] + rest);
    FirstLineWithin(front, [NEWLINE] + rest);
    assert ([NEWLINE] + rest)[1..] == rest;
  }

  lemma {:induction false} FirstIsWholeLine(all: seq<byte>)
    requires FirstLine(all).Line?
    ensures WholeLine(FirstLine(all).line) && all == FirstLine(all).line + FirstLine(all).rest
  {
    if all[0] != NEWLINE {
      FirstIsWholeLine(all[1..]);
      var l := FirstLine(all[1..]).line;
      assert ([all[0]] + l)[..|l|] == [all[0]] + l[..|l| - 1];
    }
  }

  lemma {:induction false} BlankOrHeader(l: seq<byte>)
    requires WholeLine(l)
    ensures Blank(l) <==> BlankLine(l)
    ensures !Blank(l) <==> HeaderLine(l)
  {
    var front := l[..|l| - 1];
    assert l == front + [NEWLINE];
    assert forall c :: c in l <==> c in front || c == NEWLINE;
  }

  lemma {:induction false} HeadedEnds(all: seq<byte>, lines: seq<seq<byte>>, blank: seq<byte>, body: seq<byte>)
    requires Headed(all, lines, blank, body)
    ensures AfterHeaders(all) == Some(body)
    decreases |lines|
  {
    if lines == [] {
      assert all == blank + body;
      WholeLineIsFirst(blank, body);
      BlankOrHeader(blank);
    } else {
      var l, tail := lines[0], Concat(lines[1..]) + blank + body;
      assert l in lines && all == l + tail;
      WholeLineIsFirst(l, tail);
      BlankOrHeader(l);
      assert forall x :: x in lines[1..] ==> x in lines;
      HeadedEnds(tail, lines[1..], blank, body);
    }
  }

  lemma {:induction false} EndsHeaded(all: seq<byte>, body: seq<byte>) returns (lines: seq<seq<byte>>, blank: seq<byte>)
    requires AfterHeaders(all) == Some(body)
    ensures Headed(all, lines, blank, body)
    decreases |all|
  {
    FirstIsWholeLine(all);
    var l, rest := FirstLine(all).line, FirstLine(all).rest;
    BlankOrHeader(l);
    if Blank(l) {
      lines, blank := [], l;
    } else {
      lines, blank := EndsHeaded(rest, body);
      assert ([l] + lines)[1..] == lines;
      assert Concat([l] + lines) == l + Concat(lines);
      lines := [l] + lines;
    }
  }

  /** The hand-over is exact: the stream goes on with `body` if and only if the server sent header lines, a blank
      line, and then `body`. */
  lemma AfterHeadersIff(all: seq<byte>, body: seq<byte>)
    ensures AfterHeaders(all) == Some(body) <==> exists lines, blank :: Headed(all, lines, blank, body)
  {
    if AfterHeaders(all) == Some(body) {
      var lines, blank := EndsHeaded(all, body);
    }
    forall lines, blank | Headed(all, lines, blank, body) ensures AfterHeaders(all) == Some(body) {
      HeadedEnds(all, lines, blank, body);
    }
  }

  // ------------------------------------------------------ the status line

  /** `line` is a protocol, a space, a code, and nothing or whatever follows the next space. */
  predicate StatusLine(line: seq<byte>, proto: seq<byte>, code: seq<byte>, tail: seq<byte>) {
    line == proto + [SPACE] + code + tail && SPACE !in proto && SPACE !in code && (tail != [] ==> tail[0] == SPACE)
  }

  lemma {:induction false} SplitWord(word: seq<byte>, tail: seq<byte>)
    requires SPACE !in word && (tail != [] ==> tail[0] == SPACE)
    ensures SplitSpaces(word + tail) == [word] + if tail == [] then [] else SplitSpaces(tail[1..])
  {
    if word == [] {
      assert word + tail == tail;
      assert tail == [] ==> SplitSpaces(tail) == [word];
    } else {
      assert (word + tail)[1..] == word[1..] + tail;
      SplitWord(word[1..], tail);
      assert [word[0]] + word[1..] == word;
    }
  }

  lemma {:induction false} SplitStatus(line: seq<byte>, proto: seq<byte>, code: seq<byte>, tail: seq<byte>)
    requires StatusLine(line, proto, code, tail)
    ensures var parts := SplitSpaces(line); |parts| >= 2 && parts[0] == proto && parts[1] == code
  {
    var after := [SPACE] + (code + tail);
    assert line == proto + after && after[1..] == code + tail;
    SplitWord(proto, after);
    SplitWord(code, tail);
  }

  /** A line with a space is such a line; one without is a single word. */
  lemma {:induction false} StatusParts(line: seq<byte>) returns (proto: seq<byte>, code: seq<byte>, tail: seq<byte>)
    ensures if SPACE in line then StatusLine(line, proto, code, tail) else SplitSpaces(line) == [line]
  {
    var after;
    proto, after := UpToSpace(line);
    code, tail := [], [];
    if after == [] {
      assert line == proto && line + [] == line;
      SplitWord(line, []);
    } else {
      code, tail := UpToSpace(after[1..]);
      assert line == proto + [SPACE] + code + tail;
    }
  }

  lemma {:induction false} UpToSpace(line: seq<byte>) returns (word: seq<byte>, tail: seq<byte>)
    ensures line == word + tail && SPACE !in word && (tail != [] ==> tail[0] == SPACE)
  {
    word, tail := [], line;
    if line != [] && line[0] != SPACE {
      word, tail := UpToSpace(line[1..]);
      word := [line[0]] + word;
    }
  }

  /** ... and the whole handshake: behind a status line with a code that parses, it opens the tunnel on `body`
      exactly when the code is 101, 200 or the configured one. */
  lemma HandshakeOpens(status: seq<byte>, proto: seq<byte>, code: seq<byte>, tail: seq<byte>, lines: seq<seq<byte>>,
                       blank: seq<byte>, body: seq<byte>, expected: int, text: Text)
    requires WholeLine(status) && (forall l :: l in lines ==> HeaderLine(l)) && BlankLine(blank)
    requires StatusLine(text.trim(status), proto, code, tail) && text.atoi(code).Some?
    ensures var value := text.atoi(code).value;
      Handshake(status + Concat(lines) + blank + body, expected, text)
        == if value == 101 || value == 200 || (expected > 0 && value == expected) then Open(body) else Failed(BadStatus)
  {
    var rest := Concat(lines) + blank + body;
    assert status + Concat(lines) + blank + body == status + rest;
    WholeLineIsFirst(status, rest);
    HeadedEnds(rest, lines, blank, body);
    SplitStatus(text.trim(status), proto, code, tail);
    hide SplitSpaces, AfterHeaders;
  }

  /** Nothing else opens it. */
  lemma OpensOnlySo(all: seq<byte>, body: seq<byte>, expected: int, text: Text)
    returns (status: seq<byte>, proto: seq<byte>, code: seq<byte>, tail: seq<byte>, lines: seq<seq<byte>>, blank: seq<byte>)
    requires Handshake(all, expected, text) == Open(body)
    ensures WholeLine(status) && (forall l :: l in lines ==> HeaderLine(l)) && BlankLine(blank)
    ensures StatusLine(text.trim(status), proto, code, tail) && text.atoi(code).Some?
    ensures var value := text.atoi(code).value; value == 101 || value == 200 || (expected > 0 && value == expected)
    ensures all == status + Concat(lines) + blank + body
  {
    FirstIsWholeLine(all);
    status := FirstLine(all).line;
    var rest := FirstLine(all).rest;
    proto, code, tail := StatusParts(text.trim(status));
    lines, blank := EndsHeaded(rest, body);
    if SPACE in text.trim(status) {
      SplitStatus(text.trim(status), proto, code, tail);
    }
    hide SplitSpaces, AfterHeaders;
    assert all == status + (Concat(lines) + blank + body);
  }

  /** How it fails before the headers: without a line at all, ... */
  lemma NoStatusLineIff(all: seq<byte>, expected: int, text: Text)
    ensures Handshake(all, expected, text) == Failed(NoStatusLine) <==> NEWLINE !in all
  {
    FirstLineWithin(all, []);
    if FirstLine(all).Line? {
      FirstIsWholeLine(all);
      var l := FirstLine(all).line;
      assert all[|l| - 1] == NEWLINE;
    }
    hide SplitSpaces, AfterHeaders;
  }

  /** ... on a line without a space, or on a code that does not parse. */
  lemma {:induction false} StatusLineFails(status: seq<byte>, rest: seq<byte>, expected: int, text: Text)
    returns (proto: seq<byte>, code: seq<byte>, tail: seq<byte>)
    requires WholeLine(status)
    ensures Handshake(status + rest, expected, text) == Failed(BadStatusLine) <==> SPACE !in text.trim(status)
    ensures SPACE in text.trim(status) ==> StatusLine(text.trim(status), proto, code, tail)
    ensures SPACE in text.trim(status) ==>
      (Handshake(status + rest, expected, text) == Failed(BadStatusCode) <==> text.atoi(code) == None)
  {
    WholeLineIsFirst(status, rest);
    proto, code, tail := StatusParts(text.trim(status));
    if SPACE in text.trim(status) {
      SplitStatus(text.trim(status), proto, code, tail);
    }
    hide SplitSpaces, AfterHeaders, FirstLine;
  }
}
