/** The SOCKS5 handshake and the forwarding loops behind it (pkg/tunnel/socks5.go:125-310); message layouts are
    those of sections 3 to 6 of RFC 1928. */
module Socks {
  import opened Bytes
  import opened Wire

  datatype Host = V4(ip: seq<byte>) | Name(name: seq<byte>) | V6(ip: seq<byte>)

  predicate ValidHost(h: Host) {
    match h
    case V4(ip) => |ip| == 4
    case Name(name) => |name| < 256
    case V6(ip) => |ip| == 16
  }

  // ------------------------------------------------- what clients send

  function EncodeGreeting(methods: seq<byte>): seq<byte>
    requires |methods| < 256
  {
    [5, |methods| as byte] + methods
  }

  function EncodeHost(h: Host): seq<byte>
    requires ValidHost(h)
  {
    match h
    case V4(ip) => [1] + ip
    case Name(name) => [3, |name| as byte] + name
    case V6(ip) => [4] + ip
  }

  function EncodePort(port: nat): seq<byte>
    requires port < 65536
  {
    [(port / 256) as byte, (port % 256) as byte]
  }

  /** A CONNECT request; `rsv` is the reserved byte. */
  function EncodeRequest(rsv: byte, h: Host, port: nat): seq<byte>
    requires ValidHost(h) && port < 65536
  {
    [5, 1, rsv] + EncodeHost(h) + EncodePort(port)
  }

  // ---------------------------------------------- what the server makes of it

  datatype Greeted = NoGreeting | WrongVersion | Greeted(rest: seq<byte>)

  function Greeting(all: seq<byte>): Greeted {
    if |all| < 2 then NoGreeting
    else if all[0] != 5 then WrongVersion
    else if |all| < 2 + all[1] as int then NoGreeting
    else Greeted(all[2 + all[1] as int..])
  }

  datatype Hosted = CutShort | UnknownType | Hosted(host: Host, rest: seq<byte>)

  function HostAt(atyp: byte, all: seq<byte>): Hosted {
    if atyp == 1 then (if |all| < 4 then CutShort else Hosted(V4(all[..4]), all[4..]))
    else if atyp == 3 then
      if all == [] || |all| < 1 + all[0] as int then CutShort
      else Hosted(Name(all[1..1 + all[0] as int]), all[1 + all[0] as int..])
    else if atyp == 4 then (if |all| < 16 then CutShort else Hosted(V6(all[..16]), all[16..]))
    else UnknownType
  }

  datatype Asked = Incomplete | Refused(code: byte) | Asked(host: Host, port: nat, rest: seq<byte>)

  function Request(all: seq<byte>): Asked {
    if |all| < 4 then Incomplete
    else if all[0] != 5 || all[1] != 1 then Refused(7)
    else match HostAt(all[3], all[4..])
      case CutShort => Incomplete
      case UnknownType => Refused(8)
      case Hosted(host, rest) =>
        if |rest| < 2 then Incomplete else Asked(host, rest[0] as int * 256 + rest[1] as int, rest[2..])
  }

  function Reply(code: byte): seq<byte> { [5, code, 0, 1, 0, 0, 0, 0, 0, 0] }

  /** The last reply for a CONNECT: no tunnel, destination refused, or success. */
  function ConnectCode(hasClient: bool, dials: bool): byte {
    if !hasClient then 4 else if !dials then 5 else 0
  }

  function LastWord(asked: Asked, hasClient: bool, dials: bool): seq<byte> {
    match asked
    case Incomplete => []
    case Refused(code) => Reply(code)
    case Asked(_, _, _) => Reply(ConnectCode(hasClient, dials))
  }

  /** Everything the server says during the handshake. */
  function Answer(all: seq<byte>, hasClient: bool, dials: bool): seq<byte> {
    match Greeting(all)
    case NoGreeting => []
    case WrongVersion => []
    case Greeted(rest) => [5, 0] + LastWord(Request(rest), hasClient, dials)
  }

  /** What the client asked for, if both its messages came through. */
  function Wanted(all: seq<byte>): Asked {
    match Greeting(all)
    case NoGreeting => Incomplete
    case WrongVersion => Incomplete
    case Greeted(rest) => Request(rest)
  }

  /** As much of `data` as a peer with `room` takes. */
  function Taken(data: seq<byte>, room: nat): seq<byte> { data[..Min(|data|, room)] }

  /** What a forwarding loop reads, piece by piece and at most one buffer at a time, up to and with the bytes of a
      write that goes past `room`. */
  function Counted(pieces: seq<seq<byte>>, room: nat): (n: nat)
    ensures if |Concat(pieces)| <= room then n == |Concat(pieces)| else room < n <= Min(|Concat(pieces)|, room + PIPE_BUFFER)
    decreases |pieces|, if pieces == [] then 0 else |pieces[0]|
  {
    if pieces == [] then 0
    else if |pieces[0]| <= PIPE_BUFFER then
      if room < |pieces[0]| then |pieces[0]| else |pieces[0]| + Counted(pieces[1..], room - |pieces[0]|)
    else
      if room < PIPE_BUFFER then PIPE_BUFFER
      else PIPE_BUFFER + Counted([pieces[0][PIPE_BUFFER..]] + pieces[1..], room - PIPE_BUFFER)
  }

  lemma {:induction false} CountedStep(pieces: seq<seq<byte>>, room: nat)
    requires pieces != [] && pieces[0] != []
    ensures var n := Min(PIPE_BUFFER, |pieces[0]|);
      Counted(pieces, room) == if room < n then n else n + Counted(Dropped(pieces, n), room - n)
  {
  }

  // ------------------------------------------------------------ the code

  method ReadGreeting(conn: Conn) returns (ok: bool)
    requires conn.Valid()
    modifies conn`incoming
    ensures conn.Valid()
    ensures match Greeting(old(conn.Rest()))
      case NoGreeting => !ok
      case WrongVersion => !ok
      case Greeted(rest) => ok && conn.Rest() == rest
    ensures Consumed(old(conn.incoming), conn.incoming)
  {
    hide Dropped;
    ghost var all := conn.Rest();
    var header, short := ReadFull(conn, 2);
    if short || header[0] != 5 {
      return false;
    }
    assert all[..2] == header && conn.Rest() == all[2..];
    ghost var pieces := conn.incoming;
    var methods;
    methods, short := ReadFull(conn, header[1] as nat);
    ConsumedMore(old(conn.incoming), pieces, conn.incoming);
    if short {
      return false;
    }
    assert conn.Rest() == all[2..][|methods|..];
    return true;
  }

  method ReadHost(conn: Conn, atyp: byte) returns (host: Option<Host>)
    requires conn.Valid() && atyp in {1, 3, 4}
    modifies conn`incoming
    ensures conn.Valid()
    ensures match HostAt(atyp, old(conn.Rest()))
      case CutShort => host == None
      case Hosted(h, rest) => host == Some(h) && conn.Rest() == rest
      case UnknownType => false
    ensures Consumed(old(conn.incoming), conn.incoming)
  {
    ghost var all := conn.Rest();
    var n := if atyp == 1 then 4 else 16;
    if atyp == 3 {
      var len, cut := ReadFull(conn, 1);
      if cut {
        return None;
      }
      n := len[0] as nat;
      assert all[0] == len[0] && conn.Rest() == all[1..];
    }
    ghost var before, pieces := conn.Rest(), conn.incoming;
    assert Consumed(old(conn.incoming), pieces);
    var data, short := ReadFull(conn, n);
    ConsumedMore(old(conn.incoming), pieces, conn.incoming);
    if short {
      return None;
    }
    assert data == before[..n] && conn.Rest() == before[n..];
    assert atyp == 3 ==> before[..n] == all[1..1 + n] && before[n..] == all[1 + n..];
    return Some(if atyp == 1 then V4(data) else if atyp == 3 then Name(data) else V6(data));
  }

  /** The request; `reply` is the refusal to send, if any. */
  method ReadRequest(conn: Conn) returns (target: Option<(Host, nat)>, reply: Option<byte>)
    requires conn.Valid()
    modifies conn`incoming
    ensures conn.Valid()
    ensures match Request(old(conn.Rest()))
      case Incomplete => target == None && reply == None
      case Refused(code) => target == None && reply == Some(code)
      case Asked(host, port, rest) => target == Some((host, port)) && reply == None && conn.Rest() == rest
    ensures Consumed(old(conn.incoming), conn.incoming)
  {
    hide Dropped;
    ghost var all := conn.Rest();
    target, reply := None, None;
    var header, short := ReadFull(conn, 4);
    if short {
      return;
    }
    assert header == all[..4] && conn.Rest() == all[4..];
    if header[0] != 5 || header[1] != 1 {
      reply := Some(7);
      return;
    }
    if header[3] !in {1, 3, 4} {
      reply := Some(8);
      return;
    }
    ghost var pieces := conn.incoming;
    var host := ReadHost(conn, header[3]);
    ConsumedMore(old(conn.incoming), pieces, conn.incoming);
    if host == None {
      return;
    }
    ghost var before := conn.Rest();
    pieces := conn.incoming;
    var port;
    port, short := ReadFull(conn, 2);
    ConsumedMore(old(conn.incoming), pieces, conn.incoming);
    if short {
      return;
    }
    assert port == before[..2] && conn.Rest() == before[2..];
    target := Some((host.value, port[0] as int * 256 + port[1] as int));
  }

  class SocksServer {
    var bytesIn: nat
    var bytesOut: nat

    /** The request and the reply to it. */
    method ServeRequest(local: Conn, hasClient: bool, dials: bool) returns (target: Option<(Host, nat)>)
      requires local.Valid()
      modifies local
      ensures local.Valid()
      ensures var asked := Request(old(local.Rest()));
        var word := LastWord(asked, hasClient, dials);
        && local.written == old(local.written) + Taken(word, old(local.room))
        && local.room == old(local.room) - |Taken(word, old(local.room))|
        && (target.Some? <==> asked.Asked? && hasClient && dials && |word| <= old(local.room))
        && (target.Some? ==> target.value == (asked.host, asked.port) && local.Rest() == asked.rest)
      ensures Consumed(old(local.incoming), local.incoming)
    {
      hide Request, Consumed, Dropped;
      var reply;
      target, reply := ReadRequest(local);
      if target == None {
        if reply.Some? {
          var _ := local.Write(Reply(reply.value));
        }
      } else if !hasClient {
        var _ := local.Write(Reply(4));
        target := None;
      } else if !dials {
        var _ := local.Write(Reply(5));
        target := None;
      } else {
        var fails := local.Write(Reply(0));
        if fails {
          target := None;
        }
      }
    }

    /** The handshake with one client, whose connection may break at any point. */
    method Handshake(local: Conn, hasClient: bool, dials: bool) returns (target: Option<(Host, nat)>)
      requires local.Valid()
      modifies local
      ensures local.Valid()
      ensures var asked, answer := Wanted(old(local.Rest())), Answer(old(local.Rest()), hasClient, dials);
        && local.written == old(local.written) + Taken(answer, old(local.room))
        && local.room == old(local.room) - |Taken(answer, old(local.room))|
        && (target.Some? <==> asked.Asked? && hasClient && dials && |answer| <= old(local.room))
        && (target.Some? ==> target.value == (asked.host, asked.port) && local.Rest() == asked.rest)
      ensures Consumed(old(local.incoming), local.incoming)
    {
      hide Request, Greeting, LastWord, Consumed, Dropped;
      ghost var room := local.room;
      var greeted := ReadGreeting(local);
      ghost var pieces := local.incoming;
      if !greeted {
        return None;
      }
      var fails := local.Write([5, 0]);
      if fails {
        return None;
      }
      target := ServeRequest(local, hasClient, dials);
      ConsumedMore(old(local.incoming), pieces, local.incoming);
    }

    /** One turn of a forwarding loop: reads `count` bytes and writes them on. */
    method RelayOnce(src: Conn, dst: Conn) returns (count: nat, end: bool, fails: bool)
      requires src.Valid() && src != dst
      modifies src`incoming, dst`written, dst`room
      ensures src.Valid() && count <= |old(src.Rest())| && src.Rest() == old(src.Rest())[count..]
      ensures end ==> src.Rest() == []
      ensures !end ==> 0 < count
      ensures var data := old(src.Rest())[..count];
        && dst.written == old(dst.written) + Taken(data, old(dst.room)) && dst.room == old(dst.room) - |Taken(data, old(dst.room))|
        && (fails <==> old(dst.room) < count)
      ensures Counted(old(src.incoming), old(dst.room)) == count + if fails then 0 else Counted(src.incoming, dst.room)
    {
      hide Counted, Dropped;
      ghost var all, pieces, room := src.Rest(), src.incoming, dst.room;
      var data;
      data, end := src.Read(PIPE_BUFFER);
      count, fails := |data|, false;
      assert data == all[..count] && src.Rest() == all[count..];
      if data != [] {
        fails := dst.Write(data);
        CountedStep(pieces, room);
      }
    }

    /** What arrives at `src` goes out at `dst` in order and without loss until a write fails; `count` counts the
        bytes read, including those of a failing write. */
    method Relay(src: Conn, dst: Conn) returns (count: nat)
      requires src.Valid() && src != dst
      modifies src`incoming, dst`written, dst`room
      ensures src.Valid()
      ensures var all, n := old(src.Rest()), |Taken(old(src.Rest()), old(dst.room))|;
        && dst.written == old(dst.written) + Taken(all, old(dst.room))
        && dst.room == old(dst.room) - n
        && count <= |all| && src.Rest() == all[count..]
      ensures count == Counted(old(src.incoming), old(dst.room))
    {
      hide Counted, Taken;
      count := 0;
      var end, fails := false, false;
      ghost var all := src.Rest();
      TakenNone(all, dst.room);
      while !end && !fails
        invariant src.Valid() && count <= |all| && src.Rest() == all[count..]
        invariant fails <==> old(dst.room) < count
        invariant dst.room == Max(0, old(dst.room) - count)
        invariant dst.written == old(dst.written) + Taken(all[..count], old(dst.room))
        invariant end ==> src.Rest() == []
        invariant count + (if fails then 0 else Counted(src.incoming, dst.room)) == Counted(old(src.incoming), old(dst.room))
        decreases |src.Rest()|, !end
      {
        ghost var before := count;
        var n;
        n, end, fails := RelayOnce(src, dst);
        RelayedMore(all, before, n, old(dst.room));
        count := count + n;
      }
      TakenEnough(all, count, old(dst.room));
    }

    /** One forwarding goroutine: the loop, and then the writing side of `dst` is closed, whatever ended the loop. */
    method Forward(src: Conn, dst: Conn) returns (count: nat)
      requires src.Valid() && src != dst
      modifies src`incoming, dst`written, dst`room, dst`shut
      ensures src.Valid() && dst.shut
      ensures var all, n := old(src.Rest()), |Taken(old(src.Rest()), old(dst.room))|;
        && dst.written == old(dst.written) + Taken(all, old(dst.room))
        && dst.room == old(dst.room) - n
        && count <= |all| && src.Rest() == all[count..]
      ensures count == Counted(old(src.incoming), old(dst.room))
    {
      count := Relay(src, dst);
      dst.CloseWrite();
    }

    /** Both forwarding goroutines. They run at the same time; they share nothing, so one order stands for all. */
    method Pipes(local: Conn, remote: Conn)
      requires local.Valid() && remote.Valid() && local != remote
      modifies local, remote, this
      ensures remote.written == old(remote.written) + Taken(old(local.Rest()), old(remote.room))
      ensures local.written == old(local.written) + Taken(old(remote.Rest()), old(local.room))
      ensures bytesOut == (old(bytesOut) + Counted(old(local.incoming), old(remote.room))) % TWO_64
      ensures bytesIn == (old(bytesIn) + Counted(old(remote.incoming), old(local.room))) % TWO_64
      ensures local.shut && remote.shut
    {
      hide Counted;
      var out := Forward(local, remote);
      var back := Forward(remote, local);
      bytesOut, bytesIn := (bytesOut + out) % TWO_64, (bytesIn + back) % TWO_64;
    }

    /** A whole connection. */
    method HandleConnection(local: Conn, remote: Conn, hasClient: bool, dials: bool)
      returns (target: Option<(Host, nat)>)
      requires local.Valid() && remote.Valid() && local != remote
      modifies local, remote, this
      ensures var asked, answer := Wanted(old(local.Rest())), Answer(old(local.Rest()), hasClient, dials);
        if asked.Asked? && hasClient && dials && |answer| <= old(local.room) then
          var ahead := Dropped(old(local.incoming), |old(local.Rest())| - |asked.rest|);
          && target == Some((asked.host, asked.port))
          && remote.written == old(remote.written) + Taken(asked.rest, old(remote.room))
          && local.written == old(local.written) + Taken(answer + old(remote.Rest()), old(local.room))
          && bytesOut == (old(bytesOut) + Counted(ahead, old(remote.room))) % TWO_64
          && bytesIn == (old(bytesIn) + Counted(old(remote.incoming), old(local.room) - |answer|)) % TWO_64
          && local.shut && remote.shut
        else
          && target == None && remote.written == old(remote.written)
          && local.written == old(local.written) + Taken(answer, old(local.room))
          && bytesIn == old(bytesIn) && bytesOut == old(bytesOut)
      ensures var said := local.written[|old(local.written)|..];
        |old(local.written)| <= |local.written| && (target.Some? <==> 12 <= |said| && Heard(said[..12]) == Some(0))
    {
      hide Wanted, Answer, Dropped, Counted, Heard;
      AnswerHeard(local.Rest(), hasClient, dials, remote.Rest(), local.room);
      WantedWithin(local.Rest());
      TakenMore(Answer(local.Rest(), hasClient, dials), remote.Rest(), local.room);
      target := Handshake(local, hasClient, dials);
      if target.Some? {
        Pipes(local, remote);
      }
    }
  }

  const PIPE_BUFFER := 65536

  lemma RelayedMore(all: seq<byte>, count: nat, n: nat, room: nat)
    requires count + n <= |all| && count <= room
    ensures Taken(all[..count], room) + Taken(all[count..][..n], room - count) == Taken(all[..count + n], room)
    ensures all[count..][n..] == all[count + n..] && |Taken(all[count..][..n], room - count)| == Min(n, room - count)
  {
  }

  lemma TakenNone(all: seq<byte>, room: nat)
    ensures Taken(all[..0], room) == []
  {
  }

  /** Once all is read, or more than fits, the peer has taken what it will. */
  lemma TakenEnough(all: seq<byte>, count: nat, room: nat)
    requires count <= |all| && (count == |all| || room < count)
    ensures Taken(all[..count], room) == Taken(all, room) && |Taken(all, room)| == Min(count, room)
  {
  }

  lemma TakenMore(a: seq<byte>, b: seq<byte>, room: nat)
    ensures Taken(a + b, room) == if |a| <= room then a + Taken(b, room - |a|) else Taken(a, room)
  {
  }

  lemma WantedWithin(all: seq<byte>)
    ensures Wanted(all).Asked? ==> |Wanted(all).rest| <= |all|
  {
  }

  // ------------------------------------------------- reference meaning

  lemma {:induction false} GreetingIff(all: seq<byte>, rest: seq<byte>)
    ensures Greeting(all) == Greeted(rest) <==> exists methods :: |methods| < 256 && all == EncodeGreeting(methods) + rest
  {
    if Greeting(all) == Greeted(rest) {
      var methods := all[2..2 + all[1] as int];
      assert all == EncodeGreeting(methods) + rest;
    }
    forall methods: seq<byte> | |methods| < 256 && all == EncodeGreeting(methods) + rest ensures Greeting(all) == Greeted(rest) {
      assert all[2 + |methods|..] == rest;
    }
  }

  lemma {:induction false} HostRead(atyp: byte, all: seq<byte>)
    requires HostAt(atyp, all).Hosted?
    ensures var r := HostAt(atyp, all); ValidHost(r.host) && [atyp] + all == EncodeHost(r.host) + r.rest
  {
    var r := HostAt(atyp, all);
    match r.host
    case V4(ip) => assert all == ip + r.rest;
    case Name(name) => assert all == [all[0]] + name + r.rest;
    case V6(ip) => assert all == ip + r.rest;
  }

  lemma {:induction false} HostDecoded(h: Host, rest: seq<byte>)
    requires ValidHost(h)
    ensures HostAt(EncodeHost(h)[0], EncodeHost(h)[1..] + rest) == Hosted(h, rest)
  {
    var all := EncodeHost(h)[1..] + rest;
    match h
    case V4(ip) => assert all == ip + rest;
    case Name(name) => assert all == [|name| as byte] + name + rest;
    case V6(ip) => assert all == ip + rest;
  }

  lemma {:induction false} RequestRead(all: seq<byte>)
    requires Request(all).Asked?
    ensures var r := Request(all);
      && |all| >= 4 && ValidHost(r.host) && r.port < 65536
      && all == EncodeRequest(all[2], r.host, r.port) + r.rest
  {
    hide HostAt, EncodeHost;
    var r, hosted := Request(all), HostAt(all[3], all[4..]);
    HostRead(all[3], all[4..]);
    assert hosted.rest == EncodePort(r.port) + r.rest by {
      assert hosted.rest == [hosted.rest[0], hosted.rest[1]] + hosted.rest[2..];
    }
    hide EncodePort;
    assert all == [5, 1, all[2]] + ([all[3]] + all[4..]);
    Reassociate([5, 1, all[2]], EncodeHost(r.host), EncodePort(r.port), r.rest);
  }

  lemma Reassociate(a: seq<byte>, b: seq<byte>, c: seq<byte>, d: seq<byte>)
    ensures a + (b + (c + d)) == a + b + c + d
  {
  }

  lemma RequestSplit(rsv: byte, e: seq<byte>, tail: seq<byte>)
    requires e != []
    ensures var all := [5, 1, rsv] + (e + tail);
      all[0] == 5 && all[1] == 1 && all[3] == e[0] && all[4..] == e[1..] + tail
  {
  }

  lemma {:induction false} RequestDecoded(rsv: byte, h: Host, port: nat, rest: seq<byte>)
    requires ValidHost(h) && port < 65536
    ensures Request(EncodeRequest(rsv, h, port) + rest) == Asked(h, port, rest)
  {
    var e, tail := EncodeHost(h), EncodePort(port) + rest;
    HostDecoded(h, tail);
    hide HostAt, EncodeHost, ValidHost;
    Reassociate([5, 1, rsv], e, EncodePort(port), rest);
    RequestSplit(rsv, e, tail);
    assert tail[2..] == rest;
  }

  /** The handshake inverts the encoding of RFC 1928: the server comes to dial `host` and `port`, with exactly
      `rest` still unread, if and only if the client sent some greeting, then a CONNECT request for `host` and
      `port`, then `rest`. */
  lemma HandshakeIff(all: seq<byte>, host: Host, port: nat, rest: seq<byte>)
    ensures Wanted(all) == Asked(host, port, rest)
      <==> ValidHost(host) && port < 65536 &&
           exists methods, rsv :: |methods| < 256 && all == EncodeGreeting(methods) + EncodeRequest(rsv, host, port) + rest
  {
    hide Request, Greeting, EncodeGreeting, EncodeRequest, ValidHost;
    if Wanted(all) == Asked(host, port, rest) {
      var ahead := Greeting(all).rest;
      GreetingIff(all, ahead);
      RequestRead(ahead);
      var methods :| |methods| < 256 && all == EncodeGreeting(methods) + ahead;
      assert all == EncodeGreeting(methods) + EncodeRequest(ahead[2], host, port) + rest;
    }
    if ValidHost(host) && port < 65536 {
      forall methods: seq<byte>, rsv | |methods| < 256 && all == EncodeGreeting(methods) + EncodeRequest(rsv, host, port) + rest
        ensures Wanted(all) == Asked(host, port, rest)
      {
        var ahead := EncodeRequest(rsv, host, port) + rest;
        assert all == EncodeGreeting(methods) + ahead;
        GreetingIff(all, ahead);
        RequestDecoded(rsv, host, port, rest);
      }
    }
  }

  // ---------------------------------------------------- what the client hears

  /** The answer as a client reads it (sections 3 and 6 of RFC 1928): version 5 with no authentication, then version 5, a
      reply code, the reserved byte, and an IPv4 address and port of zeros. */
  function Heard(answer: seq<byte>): Option<byte> {
    if |answer| == 12 && answer[..3] == [5, 0, 5] && answer[4..] == [0, 1, 0, 0, 0, 0, 0, 0] then Some(answer[3]) else None
  }

  /** The client asks to connect somewhere. */
  ghost predicate AsksConnect(all: seq<byte>) {
    exists methods, rsv, host, port, rest ::
      |methods| < 256 && ValidHost(host) && port < 65536
      && all == EncodeGreeting(methods) + EncodeRequest(rsv, host, port) + rest
  }

  /** The client greets, and sends `tail` after that. */
  ghost predicate Greets(all: seq<byte>, tail: seq<byte>) {
    exists methods :: |methods| < 256 && all == EncodeGreeting(methods) + tail
  }

  lemma {:induction false} ConnectAsked(all: seq<byte>)
    ensures Wanted(all).Asked? <==> AsksConnect(all)
  {
    hide Wanted, EncodeGreeting, EncodeRequest, ValidHost;
    if Wanted(all).Asked? {
      var host, port, rest := Wanted(all).host, Wanted(all).port, Wanted(all).rest;
      HandshakeIff(all, host, port, rest);
    }
    if AsksConnect(all) {
      var methods, rsv, host, port, rest :|
        |methods| < 256 && ValidHost(host) && port < 65536
        && all == EncodeGreeting(methods) + EncodeRequest(rsv, host, port) + rest;
      HandshakeIff(all, host, port, rest);
    }
  }

  lemma {:induction false} TailGreeted(all: seq<byte>, tail: seq<byte>)
    ensures Greets(all, tail) <==> Greeting(all) == Greeted(tail)
  {
    GreetingIff(all, tail);
  }

  /** What the code means: 0, 4 and 5 answer a request to connect, by whether there is a tunnel and the dial succeeds;
      7 answers a request of another version or command, 8 one with an address type that is unknown. There is no other
      code, and without a code nothing but the answer to the greeting has been said. */
  lemma {:induction false} CodesIff(all: seq<byte>, hasClient: bool, dials: bool)
    ensures var code := Heard(Answer(all, hasClient, dials));
      && (code == Some(0) <==> AsksConnect(all) && hasClient && dials)
      && (code == Some(4) <==> AsksConnect(all) && !hasClient)
      && (code == Some(5) <==> AsksConnect(all) && hasClient && !dials)
      && (code == Some(7) <==> exists tail :: Greets(all, tail) && |tail| >= 4 && (tail[0] != 5 || tail[1] != 1))
      && (code == Some(8) <==>
            exists tail :: Greets(all, tail) && |tail| >= 4 && tail[0] == 5 && tail[1] == 1 && tail[3] !in {1, 3, 4})
      && (code == None <==> Answer(all, hasClient, dials) in {[], [5, 0]})
      && (code.Some? ==> code.value in {0, 4, 5, 7, 8})
  {
    ConnectAsked(all);
    HeardReply(all, hasClient, dials);
    hide Heard, AsksConnect, Greets;
    if Greeting(all).Greeted? {
      TailGreeted(all, Greeting(all).rest);
    }
    forall tail | Greets(all, tail) ensures Greeting(all) == Greeted(tail) {
      TailGreeted(all, tail);
    }
    hide Greeting;
  }

  lemma {:induction false} HeardReply(all: seq<byte>, hasClient: bool, dials: bool)
    ensures var code := Heard(Answer(all, hasClient, dials));
      && (code == None <==> Answer(all, hasClient, dials) in {[], [5, 0]})
      && match Wanted(all)
         case Incomplete => code == None
         case Refused(c) => code == Some(c) && c in {7, 8}
         case Asked(_, _, _) => code == Some(if !hasClient then 4 else if !dials then 5 else 0)
  {
    RefusedCodes(all);
    ReplyHeard(if Wanted(all).Refused? then Wanted(all).code else ConnectCode(hasClient, dials));
    hide Greeting, Request, Heard, Reply;
    assert [5, 0] + [] == [5, 0];
  }

  lemma ReplyHeard(code: byte)
    ensures Heard([5, 0] + Reply(code)) == Some(code) && |[5, 0] + Reply(code)| == 12
  {
    var answer := [5, 0] + Reply(code);
    assert answer == [5, 0, 5, code, 0, 1, 0, 0, 0, 0, 0, 0];
  }

  lemma RefusedCodes(all: seq<byte>)
    ensures Wanted(all).Refused? ==> Wanted(all).code in {7, 8}
  {
    hide HostAt;
  }

  /** A connection that gets through is one whose client hears 0. */
  lemma {:induction false} AnswerHeard(all: seq<byte>, hasClient: bool, dials: bool, back: seq<byte>, room: nat)
    ensures var asked, answer := Wanted(all), Answer(all, hasClient, dials);
      var ok := asked.Asked? && hasClient && dials && |answer| <= room;
      var said := Taken(if ok then answer + back else answer, room);
      ok <==> 12 <= |said| && Heard(said[..12]) == Some(0)
  {
    HeardReply(all, hasClient, dials);
    AnswerLength(all, hasClient, dials);
    var asked, answer := Wanted(all), Answer(all, hasClient, dials);
    hide Wanted, Answer;
    if asked.Asked? && hasClient && dials && |answer| <= room {
      assert Taken(answer + back, room)[..12] == answer;
    } else {
      assert Taken(answer, room) == answer || |Taken(answer, room)| < |answer|;
      assert |answer| == 12 ==> answer[..12] == answer;
    }
  }

  lemma AnswerLength(all: seq<byte>, hasClient: bool, dials: bool)
    ensures |Answer(all, hasClient, dials)| in {0, 2, 12}
    ensures Wanted(all).Asked? ==> |Answer(all, hasClient, dials)| == 12
  {
    hide Greeting, Request;
  }
}
