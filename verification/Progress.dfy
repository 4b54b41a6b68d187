/** What the application hears while its request goes on: every packet sent for a request that is
    not over yet is followed by a PROGRESS event, and headers that come in the middle of a response
    by an UNEXPECTED one. */
module Progress {
  import opened Octets
  import opened Reassembler
  import opened Session
  import opened SessionFacts
  import opened Reports

  /** A request that is still at hand has been told PROGRESS of last. */
  predicate Kept(before: seq<Event>, p': Party) {
    p'.fault || p'.current.None? ||
    (|p'.events| > |before| && p'.events[|p'.events| - 1].kind.EvProgress?)
  }

  lemma ToldKeeps(p: Party, p1: Party, cmd: nat, o: Object)
    requires p1.current.Some? && p.events <= p1.events
    ensures var p2 := Deliver(p1, EvProgress, cmd, 0, false); Kept(p.events, p2) && Kept(p.events, Update(p2, o))
  {
  }

  lemma EndKeeps(before: seq<Event>, p: Party, kind: EventKind, cmd: nat, rsp: nat)
    ensures Kept(before, Deliver(p, kind, cmd, rsp, true)) || p.current.None?
  {
  }

  lemma KeptSince(a: seq<Event>, b: seq<Event>, p': Party)
    requires a <= b && Kept(b, p')
    ensures Kept(a, p')
  {
  }

  // ---- The server ----

  lemma ReplyKeeps(p: Party, cmd: byte)
    requires p.current.Some?
    ensures Kept(p.events, ServerReply(p, cmd))
  {
    hide SendObject, Deliver, Kept;
    var p0 := Update(p, p.current.value.(continueReceived := true));
    SendKeeps(p0, true, true);
    var p1 := SendObject(p0, true, true).0;
    var p2 := Deliver(p1, EvProgress, cmd, 0, false);
    DeliverKeeps(p1, EvProgress, cmd, 0);
    ToldKeeps(p, p1, cmd, p2.current.value.(firstSent := true, continueReceived := false));
    EndKeeps(p.events, p1, EvLinkErr, cmd, 0);
    EndKeeps(p.events, ServerIdle(if cmd == DISCONNECT then p1.(mtuTx := MINIMUM_MTU) else p1), EvReqDone, cmd, 0);
    FaultKeeps(p.events, p1);
  }

  lemma FaultKeeps(before: seq<Event>, p: Party)
    ensures p.fault || p.current.None? ==> Kept(before, p)
  {
  }

  lemma FinishKeeps(before: seq<Event>, p: Party, rsp: byte, kind: EventKind, evRsp: nat)
    ensures Kept(before, Finish(p, rsp, kind, evRsp))
  {
  }

  lemma RespondKeeps(p: Party, packet: seq<byte>, cmd: byte, length: nat)
    ensures Kept(p.events, ServerRespond(p, packet, cmd, length))
  {
    hide Receive, Finish, ServerReply, Deliver, Kept;
    FaultKeeps(p.events, p.(fault := true));
    if p.current.Some? {
      FinishKeeps(p.events, p, SUCCESS, EvAbort, cmd);
      FinishKeeps(p.events, p, BAD_REQUEST, EvParseErr, 0);
      ReplyKeeps(p, cmd);
      ReceiveReceives(p, packet);
      var p1 := Receive(p, packet).0;
      FaultKeeps(p.events, p1.(fault := true));
      FinishKeeps(p.events, p1, BAD_REQUEST, EvParseErr, 0);
      DeliverKeeps(p1, EvUnexpected, p1.current.value.opcode, 0);
      var p2 := DeliverOwn(p1, EvUnexpected, 0, false);
      ReplyKeeps(p2, cmd);
      KeptSince(p.events, p2.events, ServerReply(p2, cmd));
    }
  }

  lemma RequestKeeps(p: Party, packet: seq<byte>, cmd: byte, deny: bool)
    requires p.current.Some? && |packet| >= 3
    ensures Kept(p.events, ServerRequest(p, packet, cmd, deny))
  {
    hide ServerRespond, Deliver, Kept;
    RespondKeeps(p, [], cmd, Read16(packet, 1));
    var p1 := if cmd == CONNECT then Update(p, p.current.value.(nonHeader := Some(ConnectFrame(p.mtuRx)))) else p;
    DeliverKeeps(p1, EvReq, cmd, 0);
    var p2 := (if deny then p1 else Deliver(p1, EvReq, cmd, 0, false)).(state := Responding, serverMode := true);
    RespondKeeps(p2, [], cmd, 3);
    KeptSince(p.events, p2.events, ServerRespond(p2, [], cmd, 3));
  }

  lemma MoreKeeps(p: Party, packet: seq<byte>, cmd: byte)
    requires p.current.Some? && |packet| >= 3
    ensures Kept(p.events, ServerMore(p, packet, cmd))
  {
    hide SendObject, ServerRequest, Deliver, Kept;
    RequestKeeps(p, packet, cmd, true);
    SendKeeps(p, false, true);
    var p1 := SendObject(p, false, true).0;
    ToldKeeps(p, p1, cmd, p1.current.value);
    EndKeeps(p.events, p1, EvLinkErr, cmd, 0);
    FaultKeeps(p.events, p1);
  }

  lemma ReceivingKeeps(p: Party, packet: seq<byte>)
    requires |packet| >= 3
    ensures Kept(p.events, ServerReceive(p, packet))
  {
    hide Receive, Finish, ServerRequest, ServerMore, Deliver, Kept;
    var cmd := ClearFinal(packet[0]);
    FaultKeeps(p.events, p.(fault := true));
    if p.current.Some? {
      FinishKeeps(p.events, p, SUCCESS, EvAbort, cmd);
      FinishKeeps(p.events, p, BAD_REQUEST, EvParseErr, cmd);
      ReceiveReceives(p, packet);
      var p1 := Receive(p, packet).0;
      FaultKeeps(p.events, p1.(fault := true));
      FinishKeeps(p.events, p1, BAD_REQUEST, EvParseErr, 0);
      RequestKeeps(p1, packet, cmd, false);
      DeliverKeeps(p1, EvReqCheck, cmd, 0);
      var p2 := Checked(p1, cmd);
      MoreKeeps(p2, packet, cmd);
      KeptSince(p.events, p1.events, ServerRequest(p1, packet, cmd, false));
      KeptSince(p.events, p2.events, ServerMore(p2, packet, cmd));
    }
  }

  /** A server that still has its request after a packet has told the application PROGRESS. */
  lemma ServerProgress(p: Party, packet: seq<byte>)
    requires p.serverMode && |packet| >= 3 && (p.state.Idle? <==> p.current.None?)
    ensures Kept(p.events, ServerStep(p, packet))
  {
    hide ServerReceive, ServerRespond, Deliver, Kept;
    var cmd := ClearFinal(packet[0]);
    match p.state
    case Idle => OpenKeeps(p, packet);
    case Receiving => ReceivingKeeps(p, packet);
    case Responding => RespondKeeps(p, packet, cmd, Read16(packet, 1));
    case Starting => EndKeeps(p.events, Respond(p, BAD_REQUEST), EvParseErr, cmd, 0);
  }

  lemma OpenKeeps(p: Party, packet: seq<byte>)
    requires p.current.None? && |packet| >= 3
    ensures Kept(p.events, ServerOpen(p, packet))
  {
    hide ServerReceive, Deliver, Kept;
    var cmd := ClearFinal(packet[0]);
    var p0 := p.(current := Some(NewObject(p.nextId).(cmd := cmd)), nextId := p.nextId + 1);
    DeliverKeeps(p0, EvReqHint, cmd, 0);
    var p1 := Deliver(p0, EvReqHint, cmd, 0, false);
    EndKeeps(p.events, Respond(p1, BAD_REQUEST), EvParseErr, p1.current.value.opcode, 0);
    ReceivingKeeps(p1.(state := Receiving, serverMode := true), packet);
    ReceivingKeeps(Opened(p1, 2), packet);
    KeptSince(p.events, p1.events, ServerReceive(p1.(state := Receiving, serverMode := true), packet));
    KeptSince(p.events, p1.events, ServerReceive(Opened(p1, 2), packet));
    if cmd == CONNECT && ParseConnect(p1, packet).Some? {
      var p2 := ParseConnect(p1, packet).value;
      ReceivingKeeps(Opened(p2, 4), packet);
      KeptSince(p.events, p1.events, ServerReceive(Opened(p2, 4), packet));
    }
  }

  /** Headers that come in the middle of a response are told of, before the next packet of it. */
  lemma UnexpectedTold(p: Party, packet: seq<byte>)
    requires p.serverMode && p.state.Responding? && p.current.Some? && |packet| >= 3 && Read16(packet, 1) > 3
    requires packet[0] % 0x80 != ABORT && packet[0] % 0x80 != CONNECT && Receive(p, packet).1.Clean?
    ensures var n, events := |Receive(p, packet).0.events|, ServerStep(p, packet).events;
            && |events| > n && events[n].kind.EvUnexpected? && events[n].received == HeldWith(p, packet)
  {
    hide Receive, ServerReply, Received, ApplyAll, Says, Shows;
    ReceiveSays(p, packet, ClearFinal(packet[0]));
    var p1 := Receive(p, packet).0;
    var cmd := p1.current.value.opcode;
    DeliverShows(p1, EvUnexpected, cmd, 0);
    var p2 := Deliver(p1, EvUnexpected, cmd, 0, false);
    assert p2.events == p1.events + [EventOf(p1, EvUnexpected, cmd, 0)];
    ReplyTells(p2, ClearFinal(packet[0]), Received(p2.current.value.rx));
    assert p2.events <= ServerReply(p2, ClearFinal(packet[0])).events by { TellsGrows(p2, packet); }
    assert ServerStep(p, packet) == ServerReply(p2, ClearFinal(packet[0]));
  }

  lemma TellsGrows(p: Party, packet: seq<byte>)
    requires p.serverMode && p.current.Some? && |packet| >= 3
    ensures p.events <= ServerReply(p, ClearFinal(packet[0])).events
  {
    hide ServerReply, Received;
    ReplyTells(p, ClearFinal(packet[0]), Received(p.current.value.rx));
  }

  // ---- The client ----

  /** A client that has sent the first packet of its request has told the application. */
  lemma StartProgress(p: Party)
    requires p.current.Some?
    ensures Kept(p.events, ClientStart(p, BAD_REQUEST))
  {
    hide SendObject, Deliver, Kept;
    SendKeeps(p, true, false);
    var p1 := SendObject(p, true, false).0;
    EndKeeps(p.events, p1.(state := Idle, serverMode := false), EvLinkErr, p1.current.value.opcode, 0);
    var p2 := Update(p1, p1.current.value.(firstSent := true));
    ToldKeeps(p, p2, p2.current.value.opcode, p2.current.value);
    KeptMode(p.events, Deliver(p2, EvProgress, p2.current.value.opcode, 0, false));
    FaultKeeps(p.events, p1);
  }

  lemma KeptMode(before: seq<Event>, p: Party)
    requires Kept(before, p)
    ensures Kept(before, p.(state := Receiving, serverMode := false))
  {
  }

  lemma ContinueProgress(p: Party)
    requires p.current.Some? && !p.current.value.abort
    ensures Kept(p.events, ClientContinue(p))
  {
    hide SendObject, Deliver, Kept;
    var p0 := Update(p, p.current.value.(continueReceived := true));
    SendKeeps(p0, true, false);
    var p1 := SendObject(p0, true, false).0;
    EndKeeps(p.events, p1, EvLinkErr, p1.current.value.opcode, 0);
    DeliverKeeps(p1, EvProgress, p1.current.value.opcode, 0);
    var p2 := Deliver(p1, EvProgress, p1.current.value.opcode, 0, false);
    ToldKeeps(p, p1, p1.current.value.opcode, p2.current.value.(continueReceived := false));
    FaultKeeps(p.events, p1);
  }

  /** And so has one that still has its request after a packet of the response, unless the request
      has been cancelled. */
  lemma ClientProgress(p: Party, packet: seq<byte>)
    requires p.state.Receiving? && p.current.Some? && !p.current.value.abort && |packet| >= 3
    ensures Kept(p.events, ClientStep(p, Some(packet)))
  {
    hide ClientHeaders, Deliver, Kept;
    var rsp := ClearFinal(packet[0]);
    EndKeeps(p.events, ServerIdle(p), EvParseErr, p.current.value.opcode, 0);
    HeadersProgress(p, packet, rsp);
    HeadersProgress(p.(mtuTx := MINIMUM_MTU), packet, rsp);
    if p.current.value.opcode == CONNECT && ParseConnect(p, packet).Some? {
      var p1 := ParseConnect(p, packet).value;
      HeadersProgress(Update(p1, p1.current.value.(headerOffset := 4)), packet, rsp);
    }
  }

  lemma HeadersProgress(p: Party, packet: seq<byte>, rsp: byte)
    requires p.current.Some? && !p.current.value.abort && |packet| >= 3
    ensures Kept(p.events, ClientHeaders(p, packet, rsp))
  {
    hide Receive, ClientContinue, Deliver, Kept;
    ReceiveReceives(p, packet);
    var p1 := Receive(p, packet).0;
    FaultKeeps(p.events, p1.(fault := true));
    EndKeeps(p.events, ServerIdle(p1), EvParseErr, p1.current.value.opcode, 0);
    EndKeeps(p.events, ServerIdle(p1), EvReqDone, p1.current.value.opcode, rsp);
    ContinueProgress(p1);
    KeptSince(p.events, p1.events, ClientContinue(p1));
  }
}
