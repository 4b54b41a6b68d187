/** Packets that end a request at once: those that make no sense, and ABORT. And what a client
    makes of the answer when it has cancelled. */
module Rejections {
  import opened Octets
  import opened Headers
  import opened Framing
  import opened Session
  import opened SessionFacts
  import opened Lockstep

  /** One bare packet with this opcode has gone out, the last event is of this kind and about the
      request, and the handle is at rest without it. */
  predicate EndedBy(p: Party, p': Party, op: byte, kind: EventKind) {
    && AtRest(p') && p'.out == p.out + [[op, 0, 3]] && p.current.Some?
    && p'.released == p.released + [p.current.value.id]
    && |p'.events| > |p.events| && p.events <= p'.events
    && p'.events[|p'.events| - 1].kind == kind && p'.events[|p'.events| - 1].id == IdOf(p.current)
  }

  lemma FinishEnds(p: Party, rsp: byte, kind: EventKind, evRsp: nat)
    requires p.current.Some? && p.linkFaults == []
    ensures EndedBy(p, Finish(p, rsp, kind, evRsp), SetFinal(rsp), kind)
  {
    assert Frame(SetFinal(rsp), []) == [SetFinal(rsp), 0, 3];
    var e := EventOf(ServerIdle(Respond(p, rsp)), kind, p.current.value.opcode, evRsp);
    assert Finish(p, rsp, kind, evRsp).events == p.events + [e];
  }

  /** The same, when only stream data has been offered in between. */
  lemma EndsSince(p: Party, p1: Party, p': Party, op: byte, kind: EventKind)
    requires OnlyReceives(p, p1) && EndedBy(p1, p', op, kind)
    ensures EndedBy(p, p', op, kind)
  {
  }

  /** A server takes a packet of its request, or of a response it is sending. */
  predicate Engaged(p: Party) {
    p.serverMode && p.current.Some? && p.linkFaults == [] && (p.state.Receiving? || p.state.Responding?)
  }

  /** ABORT is answered with SUCCESS, and the application told, at any point of a request or its
      response. */
  lemma AbortEnds(p: Party, packet: seq<byte>)
    requires Engaged(p) && |packet| >= 3 && packet[0] % 0x80 == 0x7f
    ensures EndedBy(p, ServerStep(p, packet), 0xa0, EvAbort)
  {
    hide Finish;
    FinishEnds(p, SUCCESS, EvAbort, 0x7f);
  }

  /** A packet of another command in the middle of a request is answered with BAD_REQUEST. */
  lemma StrangerEnds(p: Party, packet: seq<byte>)
    requires Engaged(p) && p.state.Receiving? && |packet| >= 3
    requires packet[0] % 0x80 != 0x7f && packet[0] % 0x80 != p.current.value.cmd
    ensures EndedBy(p, ServerStep(p, packet), 0xc0, EvParseErr)
  {
    hide Finish;
    FinishEnds(p, BAD_REQUEST, EvParseErr, ClearFinal(packet[0]));
  }

  /** And so is a packet whose headers make no sense, of a request or in the middle of a response. */
  lemma BrokenEnds(p: Party, packet: seq<byte>)
    requires Engaged(p) && |packet| >= 3 && Receive(p, packet).1.Broken? && packet[0] % 0x80 != 0x7f
    requires if p.state.Receiving? then packet[0] % 0x80 == p.current.value.cmd
             else Read16(packet, 1) > 3 && packet[0] % 0x80 != CONNECT
    ensures EndedBy(p, ServerStep(p, packet), 0xc0, EvParseErr)
  {
    hide Finish, Receive, OnlyReceives, EndedBy;
    ReceiveReceives(p, packet);
    var p1 := Receive(p, packet).0;
    TakenSome(p, p1);
    FinishEnds(p1, BAD_REQUEST, EvParseErr, 0);
    EndsSince(p, p1, Finish(p1, BAD_REQUEST, EvParseErr, 0), 0xc0, EvParseErr);
  }

  /** A CONNECT that brings more headers while it is being answered is not taken either. */
  lemma ConnectTailEnds(p: Party, packet: seq<byte>)
    requires Engaged(p) && p.state.Responding? && |packet| >= 3
    requires packet[0] % 0x80 == 0x00 && (packet[1] as int) * 0x100 + packet[2] > 3
    ensures EndedBy(p, ServerStep(p, packet), 0xc0, EvParseErr)
  {
    hide Finish;
    FinishEnds(p, BAD_REQUEST, EvParseErr, 0);
  }

  lemma TakenSome(p: Party, p1: Party)
    requires OnlyReceives(p, p1)
    ensures p1.current.Some? && p1.linkFaults == p.linkFaults
  {
  }

  /** A CONNECT too short to carry a packet size is not taken at all. */
  lemma ShortConnectEnds(p: Party, packet: seq<byte>)
    requires AtRest(p) && p.linkFaults == [] && 3 <= |packet| < 7 && packet[0] == 0x80
    ensures var p' := ServerStep(p, packet);
            && AtRest(p') && p'.out == p.out + [[0xc0, 0, 3]] && p'.mtuTx == p.mtuTx
            && p'.released == p.released + [p.nextId]
            && |p'.events| == |p.events| + 2 && p.events <= p'.events
            && p'.events[|p.events|].kind.EvReqHint? && p'.events[|p.events| + 1].kind.EvParseErr?
  {
    hide ApplyAll, ServerReceive;
    var p0 := p.(current := Some(NewObject(p.nextId).(cmd := CONNECT)), nextId := p.nextId + 1);
    DeliverKeeps(p0, EvReqHint, CONNECT, 0);
    var p1 := Deliver(p0, EvReqHint, CONNECT, 0, false);
    assert Frame(SetFinal(BAD_REQUEST), []) == [0xc0, 0, 3];
    assert ServerStep(p, packet) == DeliverOwn(Respond(p1, BAD_REQUEST), EvParseErr, 0, true);
  }

  // ---- After cancelling ----

  /** A client that has cancelled: CONTINUE keeps it waiting, SUCCESS ends the request with an
      ABORT event, and any other answer counts as a loss of the link. Nothing is sent. */
  lemma CancelledAnswer(p: Party, packet: seq<byte>)
    requires !p.serverMode && p.state.Receiving? && p.current.Some? && p.current.value.abort && |packet| >= 3
    requires p.current.value.opcode != CONNECT && Receive(p, packet).1.Clean?
    requires p.current.value.opcode == DISCONNECT ==> p.mtuTx == 255
    ensures var p' := ClientStep(p, Some(packet));
            var rsp := packet[0] % 0x80;
            && p'.out == p.out
            && if rsp == 0x10 then
                 p'.state.Receiving? && !p'.serverMode && IdOf(p'.current) == IdOf(p.current) && p'.current.value.abort
                 && (p'.events == p.events || p.current.value.rx.streaming)
               else
                 AtRest(p') && |p'.events| > |p.events|
                 && p'.events[|p'.events| - 1].kind == (if rsp == 0x20 then EvAbort else EvLinkErr)
                 && p'.events[|p'.events| - 1].id == IdOf(p.current)
  {
    hide Receive;
    ReceiveReceives(p, packet);
    var p1 := Receive(p, packet).0;
    if !p.current.value.rx.streaming { StoredQuietly(p, packet); }
    assert p.current.value.opcode == DISCONNECT ==> p.(mtuTx := MINIMUM_MTU) == p;
  }

  lemma StoredQuietly(p: Party, packet: seq<byte>)
    requires p.current.Some? && !p.current.value.rx.streaming
    ensures Receive(p, packet).0.events == p.events
  {
    hide ParseHeaders, Stale;
    var o, d := p.current.value, packet[Min(3, |packet|)..];
    if |d| >= o.headerOffset {
      AcceptedQuietly(TakeNonHeader(p, d), ParseHeaders(d[o.headerOffset..], false).headers);
    }
  }

  lemma {:induction false} AcceptedQuietly(p: Party, hs: seq<Header>)
    requires p.current.Some? && !p.current.value.rx.streaming
    ensures AcceptAll(p, hs).events == p.events
    decreases |hs|
  {
    if hs == [] {
    } else {
      AcceptedQuietly(AcceptHeader(p, hs[0]), hs[1..]);
    }
  }

  /** A cancel that cannot be written changes nothing about the request. */
  lemma CancelUnsent(p: Party)
    requires !p.fault && p.current.Some? && p.linkFaults != [] && p.linkFaults[0]
    ensures var p' := CancelNicely(p);
            p'.current == p.current && p'.state == p.state && p'.serverMode == p.serverMode && p'.out == p.out
            && p'.events == p.events
  {
  }

  // ---- When the link is lost ----

  /** The application has been told of it, and the request is gone. */
  predicate Lost(p: Party, p': Party) {
    && p'.current.None? && p.current.Some? && p'.released == p.released + [p.current.value.id] && p'.out == p.out
    && |p'.events| > |p.events| && p'.events[|p'.events| - 1].kind.EvLinkErr?
    && p'.events[|p'.events| - 1].id == IdOf(p.current)
  }

  lemma LostSince(p: Party, p1: Party, cmd: nat)
    requires p.current.Some? && p1.current.Some? && IdOf(p1.current) == IdOf(p.current)
    requires p1.released == p.released && p1.out == p.out && p.events <= p1.events
    ensures Lost(p, Deliver(p1, EvLinkErr, cmd, 0, true))
  {
  }

  lemma LinkDownEnds(p: Party)
    requires !p.fault && p.current.Some?
    ensures Lost(p, LinkDown(p))
  {
    LostSince(p, p, 0);
  }

  /** A packet that cannot be packed or written ends the request: one of a response, */
  lemma ReplyFailureEnds(p: Party, cmd: byte)
    requires p.current.Some?
    requires var p0 := Update(p, p.current.value.(continueReceived := true));
             SendObject(p0, true, true).1.SendError? && !SendObject(p0, true, true).0.fault
    ensures Lost(p, ServerReply(p, cmd))
  {
    hide SendObject, Deliver, Lost;
    var p0 := Update(p, p.current.value.(continueReceived := true));
    SendKeeps(p0, true, true);
    LostSince(p, SendObject(p0, true, true).0, cmd);
  }

  /** one that asks for more of a request, */
  lemma MoreFailureEnds(p: Party, packet: seq<byte>, cmd: byte)
    requires p.current.Some? && |packet| >= 3 && Accepting(p.current.value.opcode)
    requires SendObject(p, false, true).1.SendError? && !SendObject(p, false, true).0.fault
    ensures Lost(p, ServerMore(p, packet, cmd))
  {
    hide SendObject, Deliver, Lost;
    SendKeeps(p, false, true);
    LostSince(p, SendObject(p, false, true).0, cmd);
  }

  /** the first of a request, */
  lemma StartFailureEnds(p: Party)
    requires p.current.Some? && SendObject(p, true, false).1.SendError? && !SendObject(p, true, false).0.fault
    ensures Lost(p, ClientStart(p, BAD_REQUEST))
  {
    hide SendObject, Deliver, Lost;
    SendKeeps(p, true, false);
    var p1 := SendObject(p, true, false).0;
    LostSince(p, p1.(state := Idle, serverMode := false), p1.current.value.opcode);
  }

  /** and any later one. */
  lemma ContinueFailureEnds(p: Party)
    requires p.current.Some? && !p.current.value.abort
    requires var p0 := Update(p, p.current.value.(continueReceived := true));
             SendObject(p0, true, false).1.SendError? && !SendObject(p0, true, false).0.fault
    ensures Lost(p, ClientContinue(p))
  {
    hide SendObject, Deliver, Lost;
    var p0 := Update(p, p.current.value.(continueReceived := true));
    SendKeeps(p0, true, false);
    var p1 := SendObject(p0, true, false).0;
    LostSince(p, p1, p1.current.value.opcode);
  }
}
