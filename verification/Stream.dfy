/** The ordered prefetching reader (pkg/engine/stream_sink.go:134-157, 195-339): its buffer, `Read` and `Close`. */
module Stream {
  import opened Bytes
  import W = Worker

  datatype Slot = Slot(data: seq<byte>, err: Option<W.Fault>)

  /** Delivered chunks not yet read, the next chunk to read, and the unread part of the current one. */
  datatype Buffer = Buffer(slots: map<nat, Slot>, index: nat, buf: seq<byte>)

  datatype ReadResult = Data(bytes: seq<byte>) | Eof | Stopped | ChunkError(fault: W.Fault) | Wait

  /** One turn of the loop in `Read`: either it moves on to the next slot, or it returns or waits. */
  datatype Turn = Again(b: Buffer) | Out(b: Buffer, r: ReadResult)

  function ReadOnce(b: Buffer, total: nat, cancelled: bool, max: nat): Turn {
    if cancelled then Out(b, Stopped)
    else if b.buf != [] then
      var k := Min(max, |b.buf|);
      Out(b.(buf := b.buf[k..]), Data(b.buf[..k]))
    else if b.index >= total then Out(b, Eof)
    else if b.index !in b.slots then Out(b, Wait)
    else if b.slots[b.index].err.Some? then Out(b, ChunkError(b.slots[b.index].err.value))
    else Again(Buffer(b.slots - {b.index}, b.index + 1, b.slots[b.index].data))
  }

  /** `Read` up to where it returns or waits. */
  function ReadFrom(b: Buffer, total: nat, cancelled: bool, max: nat): (Buffer, ReadResult)
    decreases total - b.index
  {
    match ReadOnce(b, total, cancelled, max)
    case Out(b', r) => (b', r)
    case Again(b') => ReadFrom(b', total, cancelled, max)
  }

  /** The bytes of consecutive delivered slots from `i` on, up to the first one missing or failed. */
  function Ahead(slots: map<nat, Slot>, i: nat, total: nat): seq<byte>
    decreases total - i
  {
    if i < total && i in slots && slots[i].err == None then slots[i].data + Ahead(slots, i + 1, total) else []
  }

  lemma {:induction false} AheadFrame(slots: map<nat, Slot>, gone: nat, i: nat, total: nat)
    requires gone < i
    ensures Ahead(slots - {gone}, i, total) == Ahead(slots, i, total)
    decreases total - i
  {
    if i < total && i in slots && slots[i].err == None {
      AheadFrame(slots, gone, i + 1, total);
    }
  }

  /** A read hands out the next bytes of what is buffered, in slot order, and loses none: what it returns
      followed by what stays readable is what was readable before. With a stream that is not cancelled it returns bytes
      exactly if any are readable; otherwise it ends, reports the error of the next slot, or waits for it. */
  lemma {:induction false} ReadKeepsOrder(b: Buffer, total: nat, cancelled: bool, max: nat)
    ensures var (b', r) := ReadFrom(b, total, cancelled, max);
      && (if r.Data? then r.bytes else []) + b'.buf + Ahead(b'.slots, b'.index, total)
         == b.buf + Ahead(b.slots, b.index, total)
      && (r.Data? ==> |r.bytes| <= max && (max > 0 ==> r.bytes != []))
      && var readable, slot := b.buf + Ahead(b.slots, b.index, total), b'.index;
      && (r == Stopped <==> cancelled) && (cancelled ==> b' == b)
      && (r.Data? <==> !cancelled && readable != [])
      && (r.Data? || cancelled || b'.buf == [])
      && (r == Eof <==> !cancelled && readable == [] && slot >= total)
      && (r == Wait <==> !cancelled && readable == [] && slot < total && slot !in b'.slots)
      && (r.ChunkError? ==> slot < total && slot in b'.slots && b'.slots[slot].err == Some(r.fault))
      && b.index <= b'.index
    decreases total - b.index
  {
    match ReadOnce(b, total, cancelled, max)
    case Out(b', r) =>
      if r.Data? {
        assert b.buf == r.bytes + b'.buf;
      }
    case Again(b') =>
      AheadFrame(b.slots, b.index, b.index + 1, total);
      ReadKeepsOrder(b', total, cancelled, max);
  }

  class PrefetchStreamReader {
    const total: nat
    var chunkSlots: map<nat, Slot>
    var nilSlots: bool  // Close drops the map
    var currentIndex: nat
    var currentBuf: seq<byte>
    var closed: bool
    var closeErr: Option<W.Fault>
    var cancelled: bool

    constructor (total: nat)
      ensures this.total == total && View() == Buffer(map[], 0, [])
      ensures !closed && !cancelled && !nilSlots && closeErr == None
    {
      this.total, chunkSlots, nilSlots, currentIndex, currentBuf := total, map[], false, 0, [];
      closed, closeErr, cancelled := false, None, false;
    }

    function View(): Buffer
      reads this
    {
      Buffer(chunkSlots, currentIndex, currentBuf)
    }

    /** `Wait` stands for blocking on the condition variable; the caller runs `Read` again when woken. */
    method Read(max: nat) returns (r: ReadResult)
      modifies this`chunkSlots, this`currentIndex, this`currentBuf
      ensures old(closed) ==> View() == old(View()) && r == (if closeErr == None then Eof else ChunkError(closeErr.value))
      ensures !old(closed) ==> (View(), r) == ReadFrom(old(View()), total, cancelled, max)
    {
      if closed {
        if closeErr != None {
          return ChunkError(closeErr.value);
        }
        return Eof;
      }
      ghost var start := View();
      while true
        invariant ReadFrom(View(), total, cancelled, max) == ReadFrom(start, total, cancelled, max)
        decreases total - currentIndex
      {
        if cancelled {
          return Stopped;
        }
        if currentBuf != [] {
          var n := if max < |currentBuf| then max else |currentBuf|;
          var p := currentBuf[..n];
          currentBuf := currentBuf[n..];
          return Data(p);
        }
        if currentIndex >= total {
          return Eof;
        }
        if currentIndex in chunkSlots {
          var res := chunkSlots[currentIndex];
          if res.err != None {
            return ChunkError(res.err.value);
          }
          currentBuf := res.data;
          chunkSlots := chunkSlots - {currentIndex};
          currentIndex := currentIndex + 1;
        } else {
          return Wait;
        }
      }
    }

    /** What a worker does with a finished chunk; storing into the nil map is Go's run-time panic. */
    method Store(i: nat, slot: Slot) returns (panics: bool)
      modifies this`chunkSlots
      ensures panics == nilSlots
      ensures View() == if panics then old(View()) else old(View()).(slots := old(chunkSlots)[i := slot])
    {
      if nilSlots {
        return true;
      }
      chunkSlots := chunkSlots[i := slot];
      return false;
    }

    method Close()
      modifies this
      ensures closed && closeErr == old(closeErr)
      ensures old(closed) ==> View() == old(View()) && cancelled == old(cancelled) && nilSlots == old(nilSlots)
      ensures !old(closed) ==> cancelled && nilSlots && View() == Buffer(map[], old(currentIndex), [])
    {
      if closed {
        return;
      }
      closed := true;
      cancelled := true;
      chunkSlots, nilSlots := map[], true;
      currentBuf := [];
    }
  }
}
