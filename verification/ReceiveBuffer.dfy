/** Reassembly of packets from a TCP byte stream: the server's offset buffer
    (src/ReceiveBuffer.cpp) and the client's plain queue
    (client/scripts/Protocol/TcpReceiveBuffer.cs) against one specification. */
module ReceiveBuffers {
  import opened Common
  import opened Packet

  const COMPACT_THRESHOLD := 4096

  /** Malformed stands for the exception DecodeHeader throws out of TryPop. */
  datatype PopResult = Incomplete | Popped(packet: Packet) | Malformed

  /** The front of a byte queue, and what is left behind it. */
  ghost function Pop(s: seq<Byte>): (r: (PopResult, seq<Byte>))
    ensures r.0.Popped? ==> |r.1| < |s|
  {
    if |s| < PACKET_HEADER_SIZE then (Incomplete, s)
    else
      var header := DecodeHeader(s[..PACKET_HEADER_SIZE]);
      if header.None? then (Malformed, s)
      else if |s| < header.value.packetSize then (Incomplete, s)
      else
        (Popped(Packet(header.value, s[PACKET_HEADER_SIZE..header.value.packetSize])),
         s[header.value.packetSize..])
  }

  /** A packet is popped exactly when the queue starts with that packet's frame. */
  lemma PoppedIffFramed(s: seq<Byte>, p: Packet, rest: seq<Byte>)
    ensures Pop(s) == (Popped(p), rest) <==>
      exists n: nat | n <= |s| :: Frames(s[..n], p) && s[n..] == rest
  {
    if Pop(s) == (Popped(p), rest) {
      var n := p.header.packetSize;
      assert s[..n][..PACKET_HEADER_SIZE] == s[..PACKET_HEADER_SIZE];
      assert s[..n][PACKET_HEADER_SIZE..] == s[PACKET_HEADER_SIZE..n];
      assert Frames(s[..n], p) && s[n..] == rest;
    }
    forall n: nat | n <= |s| && Frames(s[..n], p) && s[n..] == rest
      ensures Pop(s) == (Popped(p), rest)
    {
      assert s[..n][..PACKET_HEADER_SIZE] == s[..PACKET_HEADER_SIZE];
      assert s[..n][PACKET_HEADER_SIZE..] == s[PACKET_HEADER_SIZE..n];
    }
  }

  /** Bytes that arrive later never change what is already at the front. */
  lemma LaterBytesDoNotMatter(s: seq<Byte>, more: seq<Byte>)
    ensures Pop(s).0.Popped? ==> Pop(s + more) == (Pop(s).0, Pop(s).1 + more)
    ensures Pop(s).0.Malformed? ==> Pop(s + more) == (Malformed, s + more)
  {
    if |s| >= PACKET_HEADER_SIZE {
      assert (s + more)[..PACKET_HEADER_SIZE] == s[..PACKET_HEADER_SIZE];
      var header := DecodeHeader(s[..PACKET_HEADER_SIZE]);
      if header.Some? && header.value.packetSize <= |s| {
        var n := header.value.packetSize;
        assert (s + more)[PACKET_HEADER_SIZE..n] == s[PACKET_HEADER_SIZE..n];
        assert (s + more)[n..] == s[n..] + more;
      }
    }
  }

  // ---------------------------------------------------------------- whole streams

  /** A byte stream read to its end in one piece. */
  datatype Parsed = Parsed(packets: seq<Packet>, rest: seq<Byte>, malformed: bool)

  ghost function Parse(s: seq<Byte>): Parsed
    decreases |s|
  {
    match Pop(s)
    case (Incomplete, _) => Parsed([], s, false)
    case (Malformed, _) => Parsed([], s, true)
    case (Popped(p), rest) =>
      var tail := Parse(rest);
      tail.(packets := [p] + tail.packets)
  }

  /** Reading `all` is reading `before`, then going on as `left` does. */
  ghost predicate Continues(all: Parsed, before: seq<Packet>, left: Parsed) {
    all.packets == before + left.packets && all.rest == left.rest && all.malformed == left.malformed
  }

  datatype Op = Append(data: seq<Byte>) | TryPop

  /** A reader: the bytes it holds and the packets it has delivered. */
  datatype Reader = Reader(content: seq<Byte>, delivered: seq<Packet>)

  ghost function Step(r: Reader, op: Op): Reader {
    match op
    case Append(data) => r.(content := r.content + data)
    case TryPop =>
      match Pop(r.content)
      case (Popped(p), rest) => Reader(rest, r.delivered + [p])
      case _ => r
  }

  ghost function Run(ops: seq<Op>): Reader {
    if ops == [] then Reader([], [])
    else Step(Run(ops[..|ops| - 1]), ops[|ops| - 1])
  }

  ghost function Received(ops: seq<Op>): seq<Byte> {
    if ops == [] then []
    else Received(ops[..|ops| - 1]) + (match ops[|ops| - 1] case Append(data) => data case TryPop => [])
  }

  /** `all` is `first` carried on over later bytes: a malformed front stays in the way,
      otherwise reading resumes at the unread rest. */
  ghost predicate CommutesWith(more: seq<Byte>, first: Parsed, all: Parsed) {
    if first.malformed then all == Parsed(first.packets, first.rest + more, true)
    else Continues(all, first.packets, Parse(first.rest + more))
  }

  /** Parsing commutes with later arrivals. */
  lemma {:induction false} ParseAppend(s: seq<Byte>, more: seq<Byte>)
    ensures CommutesWith(more, Parse(s), Parse(s + more))
    decreases |s|
  {
    LaterBytesDoNotMatter(s, more);
    var (result, rest) := Pop(s);
    match result
    case Popped(p) =>
      ParseAppend(rest, more);
      PrependPacket(p, more, Parse(rest), Parse(rest + more));
      assert Parse(s) == Parsed([p] + Parse(rest).packets, Parse(rest).rest, Parse(rest).malformed);
      assert Parse(s + more) == Parsed([p] + Parse(rest + more).packets, Parse(rest + more).rest, Parse(rest + more).malformed);
    case Malformed =>
    case Incomplete =>
      assert Parse(s) == Parsed([], s, false);
  }

  lemma PrependPacket(p: Packet, more: seq<Byte>, first: Parsed, all: Parsed)
    requires CommutesWith(more, first, all)
    ensures CommutesWith(more, first.(packets := [p] + first.packets), all.(packets := [p] + all.packets))
  {
    if !first.malformed {
      var left := Parse(first.rest + more).packets;
      assert [p] + (first.packets + left) == ([p] + first.packets) + left;
    }
  }

  /** Chunking does not matter, whatever the bytes: at every moment of every run,
      the packets delivered so far followed by the packets still in the buffer are
      the packets of the received stream read in one piece. */
  lemma {:induction false} ChunkingInvariant(ops: seq<Op>)
    ensures Continues(Parse(Received(ops)), Run(ops).delivered, Parse(Run(ops).content))
  {
    if ops == [] {
    } else {
      var before := ops[..|ops| - 1];
      ChunkingInvariant(before);
      match ops[|ops| - 1]
      case Append(data) =>
        AppendKeepsChunking(Received(before), Run(before), data);
      case TryPop =>
        assert Received(ops) == Received(before);
        PopKeepsChunking(Parse(Received(before)), Run(before));
    }
  }

  lemma AppendKeepsChunking(received: seq<Byte>, r: Reader, data: seq<Byte>)
    requires Continues(Parse(received), r.delivered, Parse(r.content))
    ensures Continues(Parse(received + data), r.delivered, Parse(r.content + data))
  {
    ParseAppend(received, data);
    ParseAppend(r.content, data);
    var all, left := Parse(received + data), Parse(r.content + data);
    Resume(Parse(received), r.delivered, Parse(r.content), data, all, left);
  }

  lemma Resume(first: Parsed, before: seq<Packet>, part: Parsed, data: seq<Byte>, all: Parsed, left: Parsed)
    requires Continues(first, before, part)
    requires CommutesWith(data, first, all) && CommutesWith(data, part, left)
    ensures Continues(all, before, left)
  {
    if !first.malformed {
      var tail := Parse(first.rest + data);
      assert before + (part.packets + tail.packets) == (before + part.packets) + tail.packets;
    }
  }

  lemma PopKeepsChunking(all: Parsed, r: Reader)
    requires Continues(all, r.delivered, Parse(r.content))
    ensures Continues(all, Step(r, TryPop).delivered, Parse(Step(r, TryPop).content))
  {
    var (result, rest) := Pop(r.content);
    if result.Popped? {
      assert Parse(r.content).packets == [result.packet] + Parse(rest).packets;
      assert r.delivered + Parse(r.content).packets == (r.delivered + [result.packet]) + Parse(rest).packets;
    }
  }

  lemma DrainedParse(s: seq<Byte>)
    requires !Pop(s).0.Popped?
    ensures Parse(s).packets == [] && Parse(s).rest == s
  {
  }

  /** Two drained readers of one byte stream agree, however it was cut. */
  lemma SameBytesSamePackets(a: seq<Op>, b: seq<Op>)
    requires Received(a) == Received(b)
    requires !Pop(Run(a).content).0.Popped? && !Pop(Run(b).content).0.Popped?
    ensures Run(a) == Run(b)
  {
    ChunkingInvariant(a);
    ChunkingInvariant(b);
    DrainedParse(Run(a).content);
    DrainedParse(Run(b).content);
    assert Run(a).delivered + [] == Run(a).delivered && Run(b).delivered + [] == Run(b).delivered;
  }

  // ---------------------------------------------------------------- well-formed streams

  ghost function Concat(frames: seq<seq<Byte>>): seq<Byte> {
    if frames == [] then [] else frames[0] + Concat(frames[1..])
  }

  ghost predicate FrameList(frames: seq<seq<Byte>>, packets: seq<Packet>) {
    |frames| == |packets| && forall i :: 0 <= i < |frames| ==> Frames(frames[i], packets[i])
  }

  /** Reading any prefix of a sender's stream yields a prefix of what was sent, never an
      error, and keeps exactly the unread part of the prefix. */
  lemma {:induction false} ParsePrefix(s: seq<Byte>, frames: seq<seq<Byte>>, packets: seq<Packet>) returns (k: nat)
    requires FrameList(frames, packets)
    requires s <= Concat(frames)
    ensures k <= |packets| && !Parse(s).malformed
    ensures Parse(s).packets == packets[..k]
    ensures Parse(s).rest <= Concat(frames[k..])
    ensures k < |packets| ==> |Parse(s).rest| < |frames[k]|
    ensures k == |packets| ==> Parse(s).rest == []
    ensures s == Concat(frames) ==> k == |packets|
  {
    if frames == [] {
      return 0;
    }
    var whole := Concat(frames);
    if |s| < |frames[0]| {
      if |s| >= PACKET_HEADER_SIZE {
        assert s[..PACKET_HEADER_SIZE] == frames[0][..PACKET_HEADER_SIZE];
      }
      assert frames[0..] == frames;
      return 0;
    }
    var n := |frames[0]|;
    assert s[..n] == frames[0];
    assert whole[n..] == Concat(frames[1..]);
    assert s[n..] <= Concat(frames[1..]);
    PoppedIffFramed(s, packets[0], s[n..]);
    assert FrameList(frames[1..], packets[1..]);
    var rest := ParsePrefix(s[n..], frames[1..], packets[1..]);
    k := rest + 1;
    assert frames[1..][rest..] == frames[k..];
    assert packets[..k] == [packets[0]] + packets[1..][..rest];
  }

  /** Framing is independent of chunking: cut a sender's stream into Append calls anywhere
      and interleave TryPop calls anyhow; the reader never fails, what it has delivered is a
      prefix of what was sent, and once it has all bytes and is drained it has delivered
      exactly the packets sent, in order, and holds nothing. */
  lemma FramingIsIndependentOfChunking(ops: seq<Op>, frames: seq<seq<Byte>>, packets: seq<Packet>)
    requires FrameList(frames, packets)
    requires Received(ops) <= Concat(frames)
    ensures Run(ops).delivered <= packets
    ensures !Pop(Run(ops).content).0.Malformed?
    ensures Received(ops) == Concat(frames) ==>
      (Pop(Run(ops).content).0.Popped? <==> Run(ops).delivered != packets)
    ensures Received(ops) == Concat(frames) && Run(ops).delivered == packets ==> Run(ops).content == []
  {
    ChunkingInvariant(ops);
    var k := ParsePrefix(Received(ops), frames, packets);
    PrefixReader(Run(ops), Parse(Run(ops).content), packets, k);
  }

  lemma PrefixReader(r: Reader, left: Parsed, packets: seq<Packet>, k: nat)
    requires k <= |packets| && left == Parse(r.content)
    requires r.delivered + left.packets == packets[..k] && !left.malformed
    requires k == |packets| ==> left.rest == []
    ensures r.delivered <= packets && !Pop(r.content).0.Malformed?
    ensures k == |packets| ==> (Pop(r.content).0.Popped? <==> r.delivered != packets)
    ensures k == |packets| && r.delivered == packets ==> r.content == []
  {
    hide Pop;
    assert r.delivered == packets[..|r.delivered|];
    if !Pop(r.content).0.Popped? {
      DrainedParse(r.content);
      assert r.delivered + [] == r.delivered;
    } else {
      assert |left.packets| > 0;
    }
  }

  // ---------------------------------------------------------------- the two buffers

  /** Client side: remove-from-front on a plain list. */
  class TcpReceiveBuffer {
    var buffer: seq<Byte>

    constructor ()
      ensures buffer == []
    {
      buffer := [];
    }

    method Append(data: seq<Byte>)
      modifies this
      ensures buffer == old(buffer) + data
    {
      buffer := buffer + data;
    }

    method Clear()
      modifies this
      ensures buffer == []
    {
      buffer := [];
    }

    method TryPop() returns (result: PopResult)
      modifies this
      ensures (result, buffer) == Pop(old(buffer))
    {
      if |buffer| < PACKET_HEADER_SIZE {
        return Incomplete;
      }
      var header := DecodeHeader(buffer[..PACKET_HEADER_SIZE]);
      if header.None? {
        return Malformed;
      }
      if |buffer| < header.value.packetSize {
        return Incomplete;
      }
      var payloadSize := header.value.packetSize - PACKET_HEADER_SIZE;
      var payload := buffer[PACKET_HEADER_SIZE..PACKET_HEADER_SIZE + payloadSize];
      buffer := buffer[header.value.packetSize..];
      result := Popped(Packet(header.value, payload));
    }
  }

  /** Server side: a vector with a read offset, compacted now and then. The two ghost
      counters record the cost of compaction and the bytes delivered over the object's life. */
  class ReceiveBuffer {
    var buffer: seq<Byte>
    var readOffset: nat
    ghost var movedBytes: nat
    ghost var poppedBytes: nat

    /** Every compaction so far has been paid for by bytes popped before it; the bytes
        popped since the last one, readOffset of them, are still to spend. */
    ghost predicate Valid() reads this {
      && (readOffset == 0 || readOffset < |buffer|)
      && movedBytes + readOffset <= poppedBytes
    }

    /** At least 4096 bytes at the front are dead, and they are at least half of the buffer. */
    ghost predicate NeedsCompaction() reads this {
      readOffset >= COMPACT_THRESHOLD && readOffset * 2 >= |buffer|
    }

    ghost function Content(): seq<Byte>
      requires Valid()
      reads this
    {
      buffer[readOffset..]
    }

    constructor ()
      ensures Valid() && Content() == [] && movedBytes == poppedBytes == 0
    {
      buffer, readOffset, movedBytes, poppedBytes := [], 0, 0, 0;
    }

    method Append(data: seq<Byte>)
      requires Valid()
      modifies this
      ensures Valid() && Content() == old(Content()) + data
      ensures poppedBytes == old(poppedBytes)
      ensures movedBytes == old(movedBytes) + if old(NeedsCompaction()) then |old(Content())| else 0
      ensures readOffset == if old(NeedsCompaction()) then 0 else old(readOffset)
      ensures readOffset < COMPACT_THRESHOLD || readOffset < |Content()|
    {
      CompactIfNeeded();
      buffer := buffer + data;
    }

    method TryPop() returns (result: PopResult)
      requires Valid()
      modifies this
      ensures Valid() && (result, Content()) == Pop(old(Content()))
      ensures movedBytes == old(movedBytes)
      ensures poppedBytes == old(poppedBytes) + (if result.Popped? then result.packet.header.packetSize else 0)
    {
      var availableSize := Size();
      if availableSize < PACKET_HEADER_SIZE {
        return Incomplete;
      }
      ghost var content := Content();
      var headerBytes := buffer[readOffset..readOffset + PACKET_HEADER_SIZE];
      assert headerBytes == content[..PACKET_HEADER_SIZE];
      var header := DecodeHeader(headerBytes);
      if header.None? {
        return Malformed;
      }
      if availableSize < header.value.packetSize {
        return Incomplete;
      }
      var packetEnd := readOffset + header.value.packetSize;
      result := Popped(Packet(header.value, buffer[readOffset + PACKET_HEADER_SIZE..packetEnd]));
      assert result.packet.payload == content[PACKET_HEADER_SIZE..header.value.packetSize];
      readOffset := packetEnd;
      poppedBytes := poppedBytes + header.value.packetSize;
      assert buffer[readOffset..] == content[header.value.packetSize..];
      if readOffset == |buffer| {
        buffer := [];
        readOffset := 0;
      }
    }

    method Size() returns (size: nat)
      requires Valid()
      ensures size == |Content()|
    {
      size := |buffer| - readOffset;
    }

    method CompactIfNeeded()
      requires Valid()
      modifies this
      ensures Valid() && Content() == old(Content()) && poppedBytes == old(poppedBytes)
      ensures !NeedsCompaction()
      ensures old(NeedsCompaction()) ==>
        buffer == old(Content()) && readOffset == 0 && movedBytes == old(movedBytes) + |old(Content())|
      ensures !old(NeedsCompaction()) ==>
        buffer == old(buffer) && readOffset == old(readOffset) && movedBytes == old(movedBytes)
    {
      if readOffset < COMPACT_THRESHOLD || readOffset * 2 < |buffer| {
        return;
      }
      movedBytes := movedBytes + (|buffer| - readOffset);
      buffer := buffer[readOffset..];
      readOffset := 0;
    }
  }
}
