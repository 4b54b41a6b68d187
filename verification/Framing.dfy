/**
 Packets on a byte stream. A packet's length is the 16-bit number behind its opcode, but
 never less than the three octets of the packet header itself.
 */
module Framing {
  import opened Octets
  import opened Buffers

  /** A packet: opcode, total length (its low 16 bits), payload. */
  function Frame(opcode: byte, payload: seq<byte>): (packet: seq<byte>)
    ensures |packet| == |payload| + 3
  {
    [opcode] + Big16((|payload| + 3) % 0x1_0000) + payload
  }

  function PacketSize(s: seq<byte>): nat
    requires |s| >= 3
  {
    Max(3, Read16(s, 1))
  }

  predicate Incomplete(s: seq<byte>) {
    |s| < 3 || |s| < PacketSize(s)
  }

  predicate WholePacket(s: seq<byte>) {
    |s| >= 3 && |s| == PacketSize(s)
  }

  lemma FrameIsWhole(opcode: byte, payload: seq<byte>)
    requires |payload| + 3 < 0x1_0000
    ensures WholePacket(Frame(opcode, payload)) && Frame(opcode, payload)[3..] == payload
  {
    assert Read16(Frame(opcode, payload), 1) == |payload| + 3;
  }

  /** The same by arithmetic: the size comes most significant octet first. */
  lemma FrameOctets(opcode: byte, payload: seq<byte>)
    ensures var d := Frame(opcode, payload);
            && |d| == |payload| + 3 && d[0] == opcode && d[3..] == payload
            && (d[1] as int) * 0x100 + d[2] == |d| % 0x1_0000
  {
    var d := Frame(opcode, payload);
    assert d == [opcode, d[1], d[2]] + payload;
  }

  // ---- The packets of a stream ----

  datatype Frames = Frames(packets: seq<seq<byte>>, rest: seq<byte>)

  function Split(s: seq<byte>): Frames
    decreases |s|
  {
    if Incomplete(s) then Frames([], s)
    else
      var n := PacketSize(s);
      var f := Split(s[n..]);
      Frames([s[..n]] + f.packets, f.rest)
  }

  lemma {:induction false} SplitExtended(s: seq<byte>, more: seq<byte>)
    ensures var f := Split(s);
            var g := Split(f.rest + more);
            Incomplete(f.rest) && Split(s + more) == Frames(f.packets + g.packets, g.rest)
    decreases |s|
  {
    if Incomplete(s) {
    } else {
      var n := PacketSize(s);
      var t := s + more;
      assert t[1] == s[1] && t[2] == s[2];
      assert t[..n] == s[..n] && t[n..] == s[n..] + more;
      SplitExtended(s[n..], more);
      var g := Split(s[n..]);
      Associate([s[..n]], g.packets, Split(g.rest + more).packets);
    }
  }

  lemma SplitNothing()
    ensures Split([]) == Frames([], [])
  {
  }

  lemma SplitWhole(p: seq<byte>)
    requires WholePacket(p)
    ensures Split(p) == Frames([p], [])
  {
    assert p[..|p|] == p && p[|p|..] == [];
  }

  function Wire(packets: seq<seq<byte>>): seq<byte> {
    if packets == [] then [] else packets[0] + Wire(packets[1..])
  }

  /** Packets written back to back are recovered one by one. */
  lemma {:induction false} SplitJoined(packets: seq<seq<byte>>)
    requires forall i :: 0 <= i < |packets| ==> WholePacket(packets[i])
    ensures Split(Wire(packets)) == Frames(packets, [])
  {
    hide Split, WholePacket;
    if packets == [] {
      SplitNothing();
    } else {
      var rest := Wire(packets[1..]);
      SplitJoined(packets[1..]);
      SplitWhole(packets[0]);
      SplitExtended(packets[0], rest);
      assert [] + rest == rest;
      assert [packets[0]] + packets[1..] == packets;
    }
  }

  lemma {:induction false} SplitWholes(s: seq<byte>)
    ensures forall i :: 0 <= i < |Split(s).packets| ==> WholePacket(Split(s).packets[i])
    decreases |s|
  {
    if Incomplete(s) {
    } else {
      var n := PacketSize(s);
      SplitWholes(s[n..]);
      assert s[..n][1] == s[1] && s[..n][2] == s[2];
    }
  }

  /** Packets are recovered from the wire exactly when each is a whole packet, that is, when
      its length field gives its length. */
  lemma SplitExactly(packets: seq<seq<byte>>)
    ensures Split(Wire(packets)) == Frames(packets, []) <==>
            forall i :: 0 <= i < |packets| ==> WholePacket(packets[i])
  {
    if forall i :: 0 <= i < |packets| ==> WholePacket(packets[i]) {
      SplitJoined(packets);
    } else {
      SplitWholes(Wire(packets));
    }
  }

  /** And it does so exactly when that length is at most 65535. */
  lemma FrameWholeExactly(opcode: byte, payload: seq<byte>)
    ensures WholePacket(Frame(opcode, payload)) <==> |payload| + 3 < 0x1_0000
  {
    assert Read16(Frame(opcode, payload), 1) == (|payload| + 3) % 0x1_0000;
  }

  /** The packet at the front of the wire. */
  lemma FirstPacket(packet: seq<byte>, rest: seq<byte>)
    requires WholePacket(packet)
    ensures var s := packet + rest;
            !Incomplete(s) && PacketSize(s) == |packet| && s[..|packet|] == packet && s[|packet|..] == rest
  {
    assert (packet + rest)[1] == packet[1] && (packet + rest)[2] == packet[2];
  }

  // ---- One call of the engine's input routine ----

  /** A packet is handed out with a mark if the buffer has moved since the call looked at its
      length: what it says of the final bit is then looked up where nothing is allocated. */
  datatype Indication = LinkLost | NeedMore | Packet(octets: seq<byte>, moved: bool)

  /** The octets that must have been allocated for what has come of a packet. */
  function Wanted(acc: seq<byte>): nat {
    if |acc| < 3 then 3 else PacketSize(acc)
  }

  /** What a call may do that loses nothing: wait with an incomplete packet, or hand out
      a whole one, taking octets from the stream only as the packet at hand needs them. Room is
      made for all of a packet as soon as its length is known. */
  predicate Turn(acc: seq<byte>, incoming: seq<byte>, room: nat, out: Indication, acc': seq<byte>,
                 incoming': seq<byte>, room': nat)
  {
    match out
    case LinkLost => true
    case NeedMore =>
      && Incomplete(acc') && acc' + incoming' == acc + incoming && |incoming'| <= |incoming|
      && room' == Max(room, Wanted(acc'))
    case Packet(p, moved) =>
      && WholePacket(p) && acc' == [] && p + incoming' == acc + incoming && |incoming'| <= |incoming|
      && room' == Max(room, |p|) && (moved <==> |p| > Max(3, room))
  }

  /** The receive buffer, the unread stream and the octets allocated after a call, and what the
      call answered. */
  datatype Call = Call(out: Indication, acc: seq<byte>, incoming: seq<byte>, room: nat)

  function BufferAfter(calls: seq<Call>): seq<byte> {
    if calls == [] then [] else calls[|calls| - 1].acc
  }

  function UnreadAfter(stream: seq<byte>, calls: seq<Call>): seq<byte> {
    if calls == [] then stream else calls[|calls| - 1].incoming
  }

  function RoomAfter(room: nat, calls: seq<Call>): nat {
    if calls == [] then room else calls[|calls| - 1].room
  }

  /** Successive calls over one stream, none of which lost the link. */
  predicate Calls(stream: seq<byte>, room: nat, calls: seq<Call>)
    decreases |calls|
  {
    calls == [] ||
    var before, last := calls[..|calls| - 1], calls[|calls| - 1];
    && Calls(stream, room, before) && !last.out.LinkLost?
    && Turn(BufferAfter(before), UnreadAfter(stream, before), RoomAfter(room, before),
            last.out, last.acc, last.incoming, last.room)
  }

  function Dispatched(calls: seq<Call>): seq<seq<byte>>
    decreases |calls|
  {
    if calls == [] then []
    else Dispatched(calls[..|calls| - 1]) + HandedOut(calls[|calls| - 1].out)
  }

  function HandedOut(out: Indication): seq<seq<byte>> {
    if out.Packet? then [out.octets] else []
  }

  lemma PrefixGrows<T>(s: seq<T>, used: nat, taken: nat)
    requires used + taken <= |s|
    ensures s[..used] + s[used..][..taken] == s[..used + taken] && s[used..][taken..] == s[used + taken..]
  {
  }

  /** However the stream is cut into reads, the packets dispatched are those of the part
      consumed, and the buffer holds just the beginning of the next one. */
  lemma {:induction false} ChunkingIsIrrelevant(stream: seq<byte>, room: nat, calls: seq<Call>)
    requires Calls(stream, room, calls)
    ensures var unread := UnreadAfter(stream, calls);
            && |unread| <= |stream| && stream[|stream| - |unread|..] == unread
            && Split(stream[..|stream| - |unread|]) == Frames(Dispatched(calls), BufferAfter(calls))
    decreases |calls|
  {
    hide Split, Turn, HandedOut;
    if calls == [] {
      assert stream[..0] == [];
      SplitNothing();
    } else {
      var before, last := calls[..|calls| - 1], calls[|calls| - 1];
      ChunkingIsIrrelevant(stream, room, before);
      ChunkingStep(stream, Dispatched(before), BufferAfter(before), UnreadAfter(stream, before),
                   RoomAfter(room, before), last);
    }
  }

  lemma ChunkingStep(stream: seq<byte>, packets: seq<seq<byte>>, acc: seq<byte>, unread: seq<byte>, room: nat,
                     last: Call)
    requires |unread| <= |stream| && stream[|stream| - |unread|..] == unread
    requires Split(stream[..|stream| - |unread|]) == Frames(packets, acc)
    requires !last.out.LinkLost? && Turn(acc, unread, room, last.out, last.acc, last.incoming, last.room)
    ensures |last.incoming| <= |stream| && stream[|stream| - |last.incoming|..] == last.incoming
    ensures Split(stream[..|stream| - |last.incoming|]) == Frames(packets + HandedOut(last.out), last.acc)
  {
    hide Split, Turn, HandedOut;
    var used := |stream| - |unread|;
    TurnSplits(stream[..used], packets, acc, unread, room, last);
    PrefixGrows(stream, used, |unread| - |last.incoming|);
  }

  /** One call: the octets it takes extend the part consumed, and its packet the list. */
  lemma TurnSplits(consumed: seq<byte>, packets: seq<seq<byte>>, acc: seq<byte>, unread: seq<byte>, room: nat,
                   last: Call)
    requires Split(consumed) == Frames(packets, acc)
    requires !last.out.LinkLost? && Turn(acc, unread, room, last.out, last.acc, last.incoming, last.room)
    ensures |last.incoming| <= |unread|
    ensures var taken := |unread| - |last.incoming|;
            && unread[taken..] == last.incoming
            && Split(consumed + unread[..taken]) == Frames(packets + HandedOut(last.out), last.acc)
  {
    var whole := if last.out.Packet? then last.out.octets else last.acc;
    Regroup(acc, unread, whole, last.incoming);
    SplitExtended(consumed, unread[..|unread| - |last.incoming|]);
    if last.out.Packet? {
      SplitWhole(whole);
    }
  }

  /** However the octets are read, the calls up to the one that hands out a packet take
      exactly the packet at the front of the wire. */
  lemma CallsTakeFirst(stream: seq<byte>, room: nat, calls: seq<Call>)
    requires Calls(stream, room, calls) && calls != [] && calls[|calls| - 1].out.Packet?
    requires Dispatched(calls[..|calls| - 1]) == []
    ensures !Incomplete(stream) && calls[|calls| - 1].out.octets == stream[..PacketSize(stream)]
    ensures UnreadAfter(stream, calls) == stream[PacketSize(stream)..] && BufferAfter(calls) == []
  {
    hide Split, Calls, Turn;
    var packet, unread := calls[|calls| - 1].out.octets, UnreadAfter(stream, calls);
    LastCall(stream, room, calls);
    ChunkingIsIrrelevant(stream, room, calls);
    var taken := stream[..|stream| - |unread|];
    assert Dispatched(calls) == [packet];
    SplitOne(taken, packet);
    FirstPacket(packet, unread);
    assert packet + unread == stream;
  }

  lemma LastCall(stream: seq<byte>, room: nat, calls: seq<Call>)
    requires Calls(stream, room, calls) && calls != [] && calls[|calls| - 1].out.Packet?
    ensures WholePacket(calls[|calls| - 1].out.octets) && BufferAfter(calls) == []
  {
  }

  lemma SplitOne(s: seq<byte>, packet: seq<byte>)
    requires Split(s) == Frames([packet], []) && WholePacket(packet)
    ensures s == packet
  {
    assert !Incomplete(s);
    var n := PacketSize(s);
    var f := Split(s[n..]);
    assert [packet] == [s[..n]] + f.packets;
    assert [packet][0] == s[..n] && |f.packets| == 0;
    assert Incomplete(s[n..]) && s[n..] == [];
    assert s == s[..n] + s[n..];
  }

  // ---- What depends on the cut after all ----

  lemma {:induction false} RoomGrows(stream: seq<byte>, room: nat, calls: seq<Call>)
    requires Calls(stream, room, calls)
    ensures RoomAfter(room, calls) >= room
    decreases |calls|
  {
    if calls == [] {
    } else {
      RoomGrows(stream, room, calls[..|calls| - 1]);
    }
  }

  /** A packet that the buffer can hold never makes it move, however it is read. */
  lemma FittingStays(stream: seq<byte>, room: nat, calls: seq<Call>)
    requires Calls(stream, room, calls) && calls != [] && calls[|calls| - 1].out.Packet?
    ensures var last := calls[|calls| - 1].out; |last.octets| <= Max(3, room) ==> !last.moved
  {
    RoomGrows(stream, room, calls[..|calls| - 1]);
  }

  /** For a larger one it depends on the cut: read in one call it does, and when the first three
      octets are read in a call of their own it does not. */
  lemma LargerDepends(stream: seq<byte>, room: nat) returns (whole: seq<Call>, apart: seq<Call>)
    requires !Incomplete(stream) && PacketSize(stream) > Max(3, room)
    ensures Calls(stream, room, whole) && Calls(stream, room, apart)
    ensures Dispatched(whole) == Dispatched(apart) == [stream[..PacketSize(stream)]]
    ensures whole[|whole| - 1].out.Packet? && whole[|whole| - 1].out.moved
    ensures apart[|apart| - 1].out.Packet? && !apart[|apart| - 1].out.moved
  {
    var n := PacketSize(stream);
    var packet, rest := stream[..n], stream[n..];
    assert packet[1] == stream[1] && packet[2] == stream[2];
    whole := [Call(Packet(packet, true), [], rest, n)];
    assert whole[..0] == [] && Dispatched(whole[..0]) == [];
    assert [] + stream == stream == packet + rest;
    var begun := Call(NeedMore, packet[..3], stream[3..], n);
    apart := [begun, Call(Packet(packet, false), [], rest, n)];
    assert begun.acc + begun.incoming == stream && PacketSize(begun.acc) == n;
    assert apart[..1] == [begun] && [begun][..0] == [];
    assert Calls(stream, room, [begun][..0]);
    assert Turn([], stream, room, NeedMore, begun.acc, begun.incoming, n);
    assert Calls(stream, room, [begun]);
    assert Dispatched([begun]) == [] + HandedOut(NeedMore) == [];
  }

  // ---- The link ----

  /** The two ends of a byte stream, with a record of how the reads and writes went. */
  class Link {
    var incoming: seq<byte>
    var outgoing: seq<byte>
    var writes: seq<seq<byte>>  // what each write took
    var recvs: nat              // number of reads so far
    var failed: bool            // a read or write gave nothing
    var short: bool             // a write took less than it was given

    /** recv and read: any non-empty prefix of what is there, up to `max`, or a failure. */
    method Recv(max: nat) returns (actual: int, octets: seq<byte>)
      modifies this`incoming, this`recvs, this`failed
      ensures recvs == old(recvs) + 1 && failed == (old(failed) || actual <= 0)
      ensures actual > 0 ==>
                actual <= max && |octets| == actual && octets + incoming == old(incoming)
      ensures actual <= 0 ==> octets == [] && incoming == old(incoming)
    {
      var k: nat :| k <= max && k <= |incoming|;
      recvs := recvs + 1;
      if k == 0 {
        failed := true;
        octets := [];
        if * { actual := 0; } else { actual := -1; }
      } else {
        actual, octets := k, incoming[..k];
        incoming := incoming[k..];
      }
    }

    /** send and write: any non-empty prefix of what is offered, or a failure. */
    method Send(octets: seq<byte>) returns (actual: int)
      modifies this`outgoing, this`writes, this`failed, this`short
      ensures failed == (old(failed) || actual <= 0)
      ensures actual > 0 ==>
                && actual <= |octets| && outgoing == old(outgoing) + octets[..actual]
                && writes == old(writes) + [octets[..actual]]
                && short == (old(short) || actual < |octets|)
      ensures actual <= 0 ==> outgoing == old(outgoing) && writes == old(writes) && short == old(short)
    {
      var k: nat :| k <= |octets|;
      if k == 0 {
        failed := true;
        if * { actual := 0; } else { actual := -1; }
      } else {
        actual := k;
        outgoing := outgoing + octets[..k];
        writes := writes + [octets[..k]];
        short := short || k < |octets|;
      }
    }
  }

  /** Reads into reserved space and gives back what the read did not fill. After a failed
      read the reserved octets stay, unfilled, at the end of the message. */
  method TransportRead(link: Link, msg: DataBuffer, max: nat) returns (actual: int)
    requires msg.Valid() && msg.head == 0
    modifies link`incoming, link`recvs, link`failed, msg, msg.buffer
    ensures msg.Valid() && msg.head == 0 && (msg.buffer == old(msg.buffer) || fresh(msg.buffer))
    ensures link.recvs == old(link.recvs) + 1 && link.failed == (old(link.failed) || actual <= 0)
    ensures |msg.Contents()| == |old(msg.Contents())| + if actual > 0 then actual else max
    ensures msg.Contents()[..|old(msg.Contents())|] == old(msg.Contents())
    ensures actual > 0 ==>
              actual <= max && msg.Contents() + link.incoming == old(msg.Contents()) + old(link.incoming)
    ensures actual <= 0 ==> link.incoming == old(link.incoming)
    ensures msg.TotalSize() == Max(old(msg.TotalSize()), old(msg.used) + max)
    ensures msg.buffer == old(msg.buffer) <==> old(msg.used) + max <= old(msg.TotalSize())
  {
    ghost var before := msg.Contents();
    var at := msg.ReserveEnd(max);
    var octets;
    actual, octets := link.Recv(max);
    if actual > 0 {
      msg.Fill(at, octets);
      msg.RemoveEnd(max - actual);
      assert msg.Contents() == before + octets;
    }
  }

  /**
   One call of the input routine on a connected transport: up to three octets first, to
   learn the size, then up to the rest of the packet. A failed read ends the link only
   when it is the first read of the call: otherwise the packet is completed by octets
   that were never received. The final bit is looked up where the packet was when its length
   was read.
   */
  method DataIndication(link: Link, msg: DataBuffer) returns (out: Indication)
    requires msg.Valid() && msg.head == 0 && Incomplete(msg.Contents()) && !link.failed
    modifies link`incoming, link`recvs, link`failed, msg, msg.buffer
    ensures msg.Valid() && (msg.buffer == old(msg.buffer) || fresh(msg.buffer))
    ensures !out.LinkLost? ==> msg.head == 0 && Incomplete(msg.Contents())
    ensures !link.failed ==>
              && !out.LinkLost?
              && Turn(old(msg.Contents()), old(link.incoming), old(msg.TotalSize()),
                      out, msg.Contents(), link.incoming, msg.TotalSize())
    ensures link.failed ==>
              && (out.LinkLost? <==> link.recvs == old(link.recvs) + 1)
              && (out.LinkLost? || (out.Packet? && WholePacket(out.octets) && |out.octets| > 3))
              && (out.Packet? ==> out.octets[..3] + link.incoming == old(msg.Contents()) + old(link.incoming))
    ensures out.Packet? ==>
              && |out.octets| >= 3 && msg.Contents() == []
              && msg.TotalSize() == Max(old(msg.TotalSize()), |out.octets|)
              && (out.moved <==> |out.octets| > Max(3, old(msg.TotalSize())))
    ensures msg.TotalSize() >= old(msg.TotalSize())
    ensures msg.TotalSize() == old(msg.TotalSize()) ==> msg.buffer == old(msg.buffer)
  {
    hide DataBuffer.Contents;
    ghost var whole := msg.Contents() + link.incoming;
    msg.UsedIs();
    var begun := false;  // a read of this call has succeeded
    if msg.used < 3 {
      var actual := TransportRead(link, msg, 3 - msg.used);
      if actual <= 0 {
        return LinkLost;
      }
      begun := true;
    }
    msg.UsedIs();
    if msg.used < 3 {
      return NeedMore;
    }
    var size: nat := Read16(msg.Contents(), 1);
    var hdr := msg.buffer;
    if msg.used < size {
      ghost var prefix := msg.Contents()[..3];
      var actual := TransportRead(link, msg, size - msg.used);
      assert msg.Contents()[..3] == prefix && Read16(msg.Contents(), 1) == size;
      if actual <= 0 && !begun {
        return LinkLost;
      }
    }
    msg.UsedIs();
    if size > msg.used {
      return NeedMore;
    }
    out := Packet(msg.Contents(), msg.buffer != hdr);
    msg.Reuse();
  }

  // ---- Octets fed by a custom transport ----

  predicate Crosses(s: seq<byte>) {
    |s| >= 3 && PacketSize(s) < |s|
  }

  /** The answer to one feed, with the octets of the feed that are left over. Room is made only
      for what is fed. */
  function Feed(acc: seq<byte>, room: nat, chunk: seq<byte>): Call {
    var s := acc + chunk;
    if Incomplete(s) then Call(NeedMore, s, [], Max(room, |s|))
    else
      var n := PacketSize(s);
      Call(Packet(s[..n], n > Max(3, room)), [], s[n..], Max(room, n))
  }

  /** Copies up to `max` of the octets fed to the end of the message. */
  method CopyFeed(msg: DataBuffer, fed: seq<byte>, max: nat) returns (left: seq<byte>)
    requires msg.Valid() && msg.head == 0
    modifies msg, msg.buffer
    ensures msg.Valid() && msg.head == 0 && (msg.buffer == old(msg.buffer) || fresh(msg.buffer))
    ensures msg.Contents() + left == old(msg.Contents()) + fed && |left| == Monus(|fed|, max)
    ensures msg.TotalSize() == Max(old(msg.TotalSize()), |msg.Contents()|)
    ensures msg.buffer == old(msg.buffer) <==> |msg.Contents()| <= old(msg.TotalSize())
  {
    hide DataBuffer.Contents;
    var n := if |fed| > max then max else |fed|;
    msg.UsedIs();
    msg.InsertEnd(fed[..n]);
    left := fed[n..];
  }

  /** What does not belong to the packet at hand is copied nowhere: it is lost. */
  method CustomDataFeed(msg: DataBuffer, chunk: seq<byte>) returns (out: Indication, ghost lost: seq<byte>)
    requires msg.Valid() && msg.head == 0 && Incomplete(msg.Contents()) && |msg.Contents()| <= msg.TotalSize()
    modifies msg, msg.buffer
    ensures msg.Valid() && msg.head == 0 && (msg.buffer == old(msg.buffer) || fresh(msg.buffer))
    ensures Call(out, msg.Contents(), lost, msg.TotalSize()) ==
            Feed(old(msg.Contents()), old(msg.TotalSize()), chunk)
  {
    hide DataBuffer.Contents, DataBuffer.Valid;
    ghost var whole := msg.Contents() + chunk;
    var left := chunk;
    lost := [];
    msg.UsedIs();
    if msg.used < 3 {
      left := CopyFeed(msg, left, 3 - msg.used);
      msg.UsedIs();
    }
    if msg.used < 3 {
      assert msg.Contents() == whole;
      return NeedMore, lost;
    }
    var size: nat := Read16(msg.Contents(), 1);
    var hdr := msg.buffer;
    assert size == Read16(whole, 1);
    if msg.used < size {
      left := CopyFeed(msg, left, size - msg.used);
      msg.UsedIs();
    }
    if size > msg.used {
      assert msg.Contents() == whole;
      return NeedMore, lost;
    }
    assert msg.Contents() == whole[..PacketSize(whole)] && left == whole[PacketSize(whole)..];
    out := Packet(msg.Contents(), msg.buffer != hdr);
    lost := left;
    msg.Reuse();
  }

  function FeedAll(acc: seq<byte>, room: nat, chunks: seq<seq<byte>>): Frames
    decreases |chunks|
  {
    if chunks == [] then Frames([], acc)
    else
      var c := Feed(acc, room, chunks[0]);
      var f := FeedAll(c.acc, c.room, chunks[1..]);
      Frames(HandedOut(c.out) + f.packets, f.rest)
  }

  /** No feed reaches past the end of the packet at hand. */
  predicate NoneCross(acc: seq<byte>, room: nat, chunks: seq<seq<byte>>)
    decreases |chunks|
  {
    chunks == [] ||
    var c := Feed(acc, room, chunks[0]);
    !Crosses(acc + chunks[0]) && NoneCross(c.acc, c.room, chunks[1..])
  }

  /** Feeding agrees with splitting the octets fed, as long as no feed crosses. */
  lemma {:induction false} FeedsAgree(acc: seq<byte>, room: nat, chunks: seq<seq<byte>>)
    requires Incomplete(acc) && NoneCross(acc, room, chunks)
    ensures FeedAll(acc, room, chunks) == Split(acc + Wire(chunks))
    decreases |chunks|
  {
    if chunks == [] {
      assert acc + [] == acc;
    } else {
      var c := Feed(acc, room, chunks[0]);
      var s := acc + chunks[0];
      FeedsAgree(c.acc, c.room, chunks[1..]);
      Associate(acc, chunks[0], Wire(chunks[1..]));
      SplitExtended(s, Wire(chunks[1..]));
      if c.out.Packet? {
        assert s[..PacketSize(s)] == s;
        SplitWhole(s);
      }
    }
  }

  /** Octets fed are lost as soon as one feed crosses, and only then. */
  lemma {:induction false} FeedLoses(acc: seq<byte>, room: nat, chunks: seq<seq<byte>>)
    ensures var f := FeedAll(acc, room, chunks);
            && |Wire(f.packets)| + |f.rest| <= |acc| + |Wire(chunks)|
            && (|Wire(f.packets)| + |f.rest| == |acc| + |Wire(chunks)| <==> NoneCross(acc, room, chunks))
    decreases |chunks|
  {
    if chunks == [] {
    } else {
      var c := Feed(acc, room, chunks[0]);
      FeedLoses(c.acc, c.room, chunks[1..]);
      var f := FeedAll(c.acc, c.room, chunks[1..]);
      if c.out.Packet? {
        assert (HandedOut(c.out) + f.packets)[1..] == f.packets;
      } else {
        assert HandedOut(c.out) + f.packets == f.packets;
      }
    }
  }

  /** On a custom transport nothing depends on the cut: two feeds do what one does, the packet
      handed out is marked or not alike, and the buffer comes to the same size. */
  lemma FeedInPieces(acc: seq<byte>, room: nat, a: seq<byte>, b: seq<byte>)
    requires Feed(acc, room, a).out.NeedMore?
    ensures var c := Feed(acc, room, a); Feed(c.acc, c.room, b) == Feed(acc, room, a + b)
  {
    var s, t := acc + a, acc + (a + b);
    Associate(acc, a, b);
    if |s| >= 3 { assert t[1] == s[1] && t[2] == s[2]; }
  }

  // ---- Fragmented writing ----

  /** A message cut into writes of at most `mtu` octets. */
  function Chop(s: seq<byte>, mtu: nat): seq<seq<byte>>
    requires mtu > 0
  {
    if s == [] then [] else [s[..Min(mtu, |s|)]] + Chop(s[Min(mtu, |s|)..], mtu)
  }

  /** One write, of at most `mtu` octets, and the message without what was taken. */
  method WriteSome(link: Link, msg: DataBuffer, mtu: nat) returns (actual: int)
    requires msg.Valid()
    modifies link`outgoing, link`writes, link`failed, link`short, msg
    ensures msg.Valid() && msg.buffer == old(msg.buffer) && (old(link.short) ==> link.short)
    ensures actual > 0 ==>
              var whole, size := old(msg.Contents()), Min(mtu, old(msg.used));
              && actual <= size && link.outgoing == old(link.outgoing) + whole[..actual]
              && msg.Contents() == whole[actual..]
              && (!link.short ==> actual == size && link.writes == old(link.writes) + [whole[..size]])
    ensures actual <= 0 ==>
              link.outgoing == old(link.outgoing) && msg.Contents() == old(msg.Contents())
  {
    var size := if msg.used > mtu then mtu else msg.used;
    actual := link.Send(msg.Contents()[..size]);
    if actual > 0 {
      assert actual == size ==> msg.Contents()[..size][..actual] == msg.Contents()[..size];
      msg.RemoveBegin(actual);
    }
  }

  /** Writes until nothing is left. A message is sent whole exactly when the last write
      gave something; a write that gives nothing ends it early. */
  method DoWrite(link: Link, msg: DataBuffer, mtu: nat) returns (actual: int)
    requires msg.Valid()
    modifies link`outgoing, link`writes, link`failed, link`short, msg
    ensures msg.Valid() && msg.buffer == old(msg.buffer)
    ensures link.outgoing + msg.Contents() == old(link.outgoing) + old(msg.Contents())
    ensures old(msg.Contents()) != [] ==> (actual > 0 <==> msg.Contents() == [])
    ensures old(msg.Contents()) == [] ==> actual == -1
    ensures mtu == 0 && old(msg.Contents()) != [] ==> actual <= 0 && link.outgoing == old(link.outgoing)
    ensures mtu > 0 && actual > 0 && !link.short ==>
              link.writes == old(link.writes) + Chop(old(msg.Contents()), mtu)
  {
    hide DataBuffer.Contents, DataBuffer.Valid;
    actual := -1;
    ghost var whole := msg.Contents();
    msg.UsedIs();
    while msg.used > 0
      invariant msg.Valid() && msg.buffer == old(msg.buffer) && msg.used == |msg.Contents()|
      invariant link.outgoing + msg.Contents() == old(link.outgoing) + whole
      invariant actual == -1 ==> msg.Contents() == whole && link.outgoing == old(link.outgoing)
      invariant actual == -1 || (actual > 0 && whole != [] && mtu > 0)
      invariant mtu > 0 && !link.short ==>
                  link.writes + Chop(msg.Contents(), mtu) == old(link.writes) + Chop(whole, mtu)
      decreases msg.used
    {
      ghost var left, out, written := msg.Contents(), link.outgoing, link.writes;
      actual := WriteSome(link, msg, mtu);
      msg.UsedIs();
      if actual <= 0 {
        return;
      }
      SplitAt(left, actual, []);
      Associate(out, left[..actual], msg.Contents());
      if !link.short {
        Associate(written, [left[..actual]], Chop(msg.Contents(), mtu));
      }
    }
  }

  /** A message whose length is a multiple of the link MTU leaves in full-size writes. */
  lemma {:induction false} ChopEven(s: seq<byte>, mtu: nat, n: nat)
    requires mtu > 0 && |s| == n * mtu
    ensures |Chop(s, mtu)| == n && forall i :: 0 <= i < n ==> |Chop(s, mtu)[i]| == mtu
  {
    if n == 0 {
    } else {
      assert n * mtu == (n - 1) * mtu + mtu;
      assert (n - 1) * mtu >= 0;
      ChopEven(s[mtu..], mtu, n - 1);
    }
  }
}
