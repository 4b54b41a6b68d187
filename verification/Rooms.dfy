/** How much room a handle has for what it receives makes no difference to what it does with a
    packet that it can hold. */
module Rooms {
  import opened Octets
  import opened Headers
  import opened Session
  import opened SessionFacts

  /** The same handle with another receive buffer. */
  function Roomed(p: Party, room: nat): Party {
    p.(rxRoom := room)
  }

  lemma RoomedDeliver(p: Party, room: nat, kind: EventKind, cmd: nat, rsp: nat, delete: bool)
    ensures Deliver(Roomed(p, room), kind, cmd, rsp, delete) == Roomed(Deliver(p, kind, cmd, rsp, delete), room)
  {
    hide ApplyAll;
  }

  lemma RoomedChunk(p: Party, room: nat, chunk: seq<byte>)
    requires p.current.Some?
    ensures StreamChunk(Roomed(p, room), chunk) == Roomed(StreamChunk(p, chunk), room)
    ensures StreamChunk(p, chunk).current.Some?
  {
    hide Deliver;
    var p0 := Update(p, p.current.value.(stream := p.current.value.stream.(data := chunk)));
    RoomedDeliver(p0, room, EvStreamAvail, 0, 0, false);
    DeliverKeeps(p0, EvStreamAvail, 0, 0);
  }

  lemma RoomedHeader(p: Party, room: nat, h: Header)
    requires p.current.Some?
    ensures AcceptHeader(Roomed(p, room), h) == Roomed(AcceptHeader(p, h), room)
    ensures AcceptHeader(p, h).current.Some?
  {
    hide StreamChunk;
    RoomedChunk(p, room, h.value);
    RoomedChunk(StreamChunk(p, h.value), room, []);
  }

  lemma {:induction false} RoomedHeaders(p: Party, room: nat, hs: seq<Header>)
    requires p.current.Some?
    ensures AcceptAll(Roomed(p, room), hs) == Roomed(AcceptAll(p, hs), room)
    decreases |hs|
  {
    hide AcceptHeader;
    if hs == [] {
    } else {
      RoomedHeader(p, room, hs[0]);
      RoomedHeaders(AcceptHeader(p, hs[0]), room, hs[1..]);
    }
  }

  lemma RoomedReceive(p: Party, room: nat, packet: seq<byte>)
    requires p.current.Some? && p.current.value.headerOffset == 0
    ensures Receive(Roomed(p, room), packet) == (Roomed(Receive(p, packet).0, room), Receive(p, packet).1)
    ensures Receive(p, packet).0.current.Some?
  {
    hide AcceptAll, ParseHeaders;
    var d := packet[Min(3, |packet|)..];
    RoomedHeaders(p, room, ParseHeaders(d[0..], p.current.value.rx.streaming).headers);
  }

  lemma RoomedSend(p: Party, room: nat, allowFinal: bool, forceFinal: bool)
    requires p.current.Some?
    ensures var (p', sent) := SendObject(p, allowFinal, forceFinal);
            SendObject(Roomed(p, room), allowFinal, forceFinal) == (Roomed(p', room), sent) && p'.current.Some?
  {
    hide Fragmenter.Pack, Repeat;
    assert Packed(Roomed(p, room)) == Packed(p);
    assert AfterPacking(Roomed(p, room)) == Roomed(AfterPacking(p), room);
  }

  lemma RoomedReply(p: Party, room: nat)
    requires p.current.Some?
    ensures ServerReply(Roomed(p, room), PUT) == Roomed(ServerReply(p, PUT), room)
  {
    hide SendObject, Deliver;
    var p0 := Update(p, p.current.value.(continueReceived := true));
    RoomedSend(p0, room, true, true);
    var (p1, sent) := SendObject(p0, true, true);
    assert Update(Roomed(p, room), p0.current.value) == Roomed(p0, room);
    if p1.fault {
    } else {
      match sent
      case SendError => RoomedDeliver(p1, room, EvLinkErr, PUT, 0, true);
      case SendDone => RoomedDeliver(ServerIdle(p1), room, EvReqDone, PUT, 0, true);
      case SendMore =>
        RoomedDeliver(p1, room, EvProgress, PUT, 0, false);
        DeliverKeeps(p1, EvProgress, PUT, 0);
    }
  }

  lemma RoomedFinish(p: Party, room: nat, rsp: byte, kind: EventKind, evRsp: nat)
    ensures Finish(Roomed(p, room), rsp, kind, evRsp) == Roomed(Finish(p, rsp, kind, evRsp), room)
  {
    hide Deliver;
    if p.current.Some? {
      RoomedDeliver(ServerIdle(Respond(p, rsp)), room, kind, p.current.value.opcode, evRsp, true);
    }
  }

  /** The last packet of a request, or one that asks for more of the response. */
  lemma RoomedLast(p: Party, room: nat, packet: seq<byte>)
    requires p.current.Some? && p.current.value.headerOffset == 0 && !p.current.value.firstSent
    requires |packet| >= 3 && Final(packet[0]) && ClearFinal(packet[0]) == PUT
    ensures ServerReceive(Roomed(p, room), packet) == Roomed(ServerReceive(p, packet), room)
  {
    hide Receive, Finish, ServerRequest;
    RoomedFinish(p, room, BAD_REQUEST, EvParseErr, PUT);
    RoomedReceive(p, room, packet);
    ReceiveReceives(p, packet);
    var p1 := Receive(p, packet).0;
    RoomedFinish(p1, room, BAD_REQUEST, EvParseErr, 0);
    RoomedRequest(p1, room, packet);
  }

  lemma RoomedRequest(p: Party, room: nat, packet: seq<byte>)
    requires p.current.Some? && !p.current.value.firstSent && |packet| >= 3
    ensures ServerRequest(Roomed(p, room), packet, PUT, false) == Roomed(ServerRequest(p, packet, PUT, false), room)
  {
    hide ServerReply, Deliver;
    RoomedDeliver(p, room, EvReq, PUT, 0, false);
    DeliverKeeps(p, EvReq, PUT, 0);
    var p1 := Deliver(p, EvReq, PUT, 0, false).(state := Responding, serverMode := true);
    RoomedReply(p1, room);
    assert ServerRequest(p, packet, PUT, false) == ServerReply(p1, PUT);
    assert ServerRequest(Roomed(p, room), packet, PUT, false) == ServerReply(Roomed(p1, room), PUT);
  }
}
