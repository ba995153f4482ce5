/** Network connections as the tunnel sees them: bytes arrive in arbitrary pieces, and a peer takes only so many
    before writes fail; with `io.ReadFull` and the buffered line reader on top. */
module Wire {
  import opened Bytes

  const BUFFER_SIZE := 4096

  ghost predicate NoneEmpty(pieces: seq<seq<byte>>) { forall s :: s in pieces ==> s != [] }

  /** The pieces that are left when `k` bytes of them have been read. */
  function Dropped(pieces: seq<seq<byte>>, k: nat): seq<seq<byte>> {
    if k == 0 || pieces == [] then pieces
    else if k < |pieces[0]| then [pieces[0][k..]] + pieces[1..]
    else Dropped(pieces[1..], k - |pieces[0]|)
  }

  lemma {:induction false} DroppedMore(pieces: seq<seq<byte>>, a: nat, b: nat)
    requires NoneEmpty(pieces)
    ensures Dropped(Dropped(pieces, a), b) == Dropped(pieces, a + b)
  {
    if pieces != [] && a > 0 {
      if a < |pieces[0]| {
        if 0 < b < |pieces[0]| - a {
          assert pieces[0][a..][b..] == pieces[0][a + b..];
        }
      } else {
        assert forall s :: s in pieces[1..] ==> s in pieces;
        DroppedMore(pieces[1..], a - |pieces[0]|, b);
      }
    }
  }

  /** Reading took bytes off the front of `was` and left `now`. */
  ghost predicate Consumed(was: seq<seq<byte>>, now: seq<seq<byte>>) {
    |Concat(now)| <= |Concat(was)| && now == Dropped(was, |Concat(was)| - |Concat(now)|)
  }

  lemma {:induction false} ConsumedMore(a: seq<seq<byte>>, b: seq<seq<byte>>, c: seq<seq<byte>>)
    requires NoneEmpty(a) && Consumed(a, b) && Consumed(b, c)
    ensures Consumed(a, c)
  {
    DroppedMore(a, |Concat(a)| - |Concat(b)|, |Concat(b)| - |Concat(c)|);
  }

  /** `incoming` is what successive reads will deliver, piece by piece, before the connection reports its end;
      `endsEarly` connections report it together with the last bytes. `room` is how many bytes the peer still takes,
      and `shut` whether it has been told that no more will come. */
  class Conn {
    var incoming: seq<seq<byte>>
    const endsEarly: bool
    var written: seq<byte>
    var room: nat
    var shut: bool

    constructor (incoming: seq<seq<byte>>, endsEarly: bool, room: nat)
      requires forall s :: s in incoming ==> s != []
      ensures this.incoming == incoming && this.endsEarly == endsEarly && this.room == room && written == [] && !shut && Valid()
    {
      this.incoming, this.endsEarly, this.written, this.room, this.shut := incoming, endsEarly, [], room, false;
    }

    /** A read that gives neither bytes nor an end would be a spin; there are no empty pieces. */
    predicate Valid()
      reads this`incoming
    {
      forall s :: s in incoming ==> s != []
    }

    function Rest(): seq<byte>
      reads this`incoming
    {
      Concat(incoming)
    }

    method Read(max: nat) returns (data: seq<byte>, end: bool)
      requires Valid()
      modifies this`incoming
      ensures Valid() && data + Rest() == old(Rest()) && |data| <= max
      ensures data == [] ==> max == 0 || (end && Rest() == [])
      ensures end ==> Rest() == [] && |incoming| <= |old(incoming)|
      ensures data != [] ==> |Rest()| < |old(Rest())|
      ensures |data| == (if old(incoming) == [] then 0 else Min(max, |old(incoming)[0]|))
      ensures incoming == Dropped(old(incoming), |data|)
    {
      if incoming == [] {
        return [], true;
      }
      var piece := incoming[0];
      assert piece in incoming;
      assert forall s :: s in incoming[1..] ==> s in incoming;
      if max < |piece| {
        data, end := piece[..max], false;
        incoming := [piece[max..]] + incoming[1..];
        assert incoming[1..] == old(incoming)[1..];
        assert data + piece[max..] == piece;
      } else {
        data := piece;
        incoming := incoming[1..];
        end := incoming == [] && endsEarly;
      }
    }

    method Write(data: seq<byte>) returns (fails: bool)
      modifies this`written, this`room
      ensures var n := Min(|data|, old(room));
        written == old(written) + data[..n] && room == old(room) - n && (fails <==> old(room) < |data|)
    {
      fails := room < |data|;
      var n := Min(|data|, room);
      written, room := written + data[..n], room - n;
    }

    /** Ends the writing side only: what the peer still sends can be read. */
    method CloseWrite()
      modifies this`shut
      ensures shut
    {
      shut := true;
    }
  }

  /** `io.ReadFull`: all `n` bytes, or everything there is and an error. */
  method ReadFull(conn: Conn, n: nat) returns (data: seq<byte>, short: bool)
    requires conn.Valid()
    modifies conn`incoming
    ensures conn.Valid() && data + conn.Rest() == old(conn.Rest())
    ensures short <==> |old(conn.Rest())| < n
    ensures if short then conn.Rest() == [] else |data| == n
    ensures conn.incoming == Dropped(old(conn.incoming), |data|)
  {
    data := [];
    var end := false;
    while |data| < n && !end
      invariant conn.Valid() && data + conn.Rest() == old(conn.Rest())
      invariant |data| <= n && (end ==> conn.Rest() == [])
      invariant conn.incoming == Dropped(old(conn.incoming), |data|)
      decreases n - |data|, !end
    {
      var more;
      more, end := conn.Read(n - |data|);
      DroppedMore(old(conn.incoming), |data|, |more|);
      data := data + more;
    }
    short := |data| < n;
  }

  const NEWLINE: byte := 10

  /** The first line, newline included, and what follows it. */
  datatype Cut = NoLine | Line(line: seq<byte>, rest: seq<byte>)

  function FirstLine(all: seq<byte>): Cut {
    if all == [] then NoLine
    else if all[0] == NEWLINE then Line([all[0]], all[1..])
    else match FirstLine(all[1..])
      case NoLine => NoLine
      case Line(l, rest) => Line([all[0]] + l, rest)
  }

  lemma {:induction false} FirstLineWithin(front: seq<byte>, back: seq<byte>)
    ensures match FirstLine(front)
      case NoLine => NEWLINE !in front && (match FirstLine(back)
        case NoLine => FirstLine(front + back) == NoLine
        case Line(l, rest) => FirstLine(front + back) == Line(front + l, rest))
      case Line(l, rest) => front == l + rest && FirstLine(front + back) == Line(l, rest + back)
  {
    if front == [] {
      assert front + back == back;
      match FirstLine(back)
      case NoLine =>
      case Line(l, rest) => assert front + l == l;
    } else {
      assert (front + back)[1..] == front[1..] + back;
      FirstLineWithin(front[1..], back);
    }
  }

  /** `bufio.Reader`: bytes read ahead, and the connection's end if it has been seen. */
  class BufReader {
    const conn: Conn
    var buf: seq<byte>
    var ended: bool

    constructor (conn: Conn)
      requires conn.Valid()
      ensures this.conn == conn && Valid() && All() == conn.Rest()
    {
      this.conn, this.buf, this.ended := conn, [], false;
      new;
      assert buf + conn.Rest() == conn.Rest();
    }

    predicate Valid()
      reads this, conn`incoming
    {
      conn.Valid() && |buf| <= BUFFER_SIZE && (ended ==> conn.Rest() == [])
    }

    /** Everything still to be read through this reader. */
    function All(): seq<byte>
      reads this, conn`incoming
    {
      buf + conn.Rest()
    }

    /** One more read into the buffer. */
    method Fill()
      requires Valid() && !ended && |buf| < BUFFER_SIZE
      modifies this`buf, this`ended, conn`incoming
      ensures Valid() && All() == old(All()) && old(buf) <= buf
      ensures |conn.Rest()| < |old(conn.Rest())| || (ended && |conn.Rest()| == |old(conn.Rest())|)
    {
      var data;
      data, ended := conn.Read(BUFFER_SIZE - |buf|);
      buf := buf + data;
    }

    /** `ReadString('\n')`: the first line of everything that is to come, however it is cut into reads and however
        long it is; without one, an error after everything has been read. */
    method ReadLine() returns (line: seq<byte>, fails: bool)
      requires Valid()
      modifies this`buf, this`ended, conn`incoming
      ensures Valid()
      ensures match FirstLine(old(All()))
        case NoLine => fails && line == old(All()) && All() == []
        case Line(l, rest) => !fails && line == l && All() == rest
    {
      line, fails := [], false;
      ghost var was := All();
      assert line + All() == was;
      while true
        invariant Valid() && line + All() == was && NEWLINE !in line
        decreases |conn.Rest()|, !ended, |buf|
      {
        ghost var before, ahead := line, conn.Rest();
        FirstLineWithin(line, All());
        FirstLineWithin(buf, conn.Rest());
        NoNewline(line);
        match FirstLine(buf) {
          case Line(l, rest) =>
            line, buf := line + l, rest;
            return;
          case NoLine =>
            if ended {
              line, buf, fails := line + buf, [], true;
              return;
            }
            if |buf| == BUFFER_SIZE {
              line, buf := line + buf, [];
            } else {
              Fill();
            }
        }
      }
    }

    /** What is left in the buffer, handed over in one piece. */
    method Drain() returns (data: seq<byte>)
      requires Valid()
      modifies this`buf
      ensures Valid() && buf == [] && data == old(buf)
    {
      data, buf := buf, [];
    }
  }

  lemma {:induction false} NoNewline(s: seq<byte>)
    requires NEWLINE !in s
    ensures FirstLine(s) == NoLine
  {
    if s != [] {
      NoNewline(s[1..]);
    }
  }
}
