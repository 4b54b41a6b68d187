/** A request refused on a packet that is not its last never arrives, however the run goes on. */
module Refusal {
  import opened Octets
  import opened Framing
  import opened Session
  import opened SessionFacts
  import opened Lifetime

  // ---- The decision ----

  /** The server as it decides about a packet that is not the last of its request: its headers
      are taken in, and the application has judged them. */
  function Deciding(p: Party, packet: seq<byte>): Option<Party>
    requires |packet| >= 3
  {
    var cmd := ClearFinal(packet[0]);
    if p.current.None? || Final(packet[0]) || cmd == ABORT || cmd != p.current.value.cmd then None
    else
      var (p1, outcome) := Receive(p, packet);
      if outcome.Clean? then Some(Checked(p1, cmd)) else None
  }

  /** The server with the request it takes the packet for: the one at hand, or a new one. */
  function Taker(p: Party, packet: seq<byte>): Option<Party>
    requires |packet| >= 3
  {
    var cmd := ClearFinal(packet[0]);
    if p.state.Receiving? then Some(p)
    else if !p.state.Idle? || p.current.Some? then None
    else
      var p1 := Deliver(p.(current := Some(NewObject(p.nextId).(cmd := cmd)), nextId := p.nextId + 1),
                        EvReqHint, cmd, 0, false);
      if p1.current.None? then None
      else if cmd == CONNECT then
        match ParseConnect(p1, packet)
        case None => None
        case Some(p2) => if p2.current.Some? then Some(Opened(p2, 4)) else None
      else if cmd == SETPATH then Some(Opened(p1, 2))
      else Some(p1.(state := Receiving, serverMode := true))
  }

  /** Which responses let a request go on: those whose high digit is 1 or 2, the final bit aside. */
  lemma AcceptingExactly(opcode: byte)
    ensures Accepting(opcode) <==> 0x10 <= opcode % 0x80 < 0x30
  {
  }

  /** The application has left a response on the request that does not let it go on. */
  predicate Refuses(p: Party, packet: seq<byte>)
    requires |packet| >= 3
  {
    && Taker(p, packet).Some?
    && var d := Deciding(Taker(p, packet).value, packet);
    d.Some? && d.value.current.Some? && !Accepting(d.value.current.value.opcode)
  }

  /** The request refused. */
  function RefusedId(p: Party, packet: seq<byte>): Option<nat>
    requires |packet| >= 3 && Refuses(p, packet)
  {
    IdOf(Deciding(Taker(p, packet).value, packet).value.current)
  }

  // ---- No request of that number ----

  /** No event since then has said that it has arrived. */
  predicate Unasked(events: seq<Event>, id: nat, n: nat) {
    n <= |events| && forall i :: n <= i < |events| && events[i].kind.EvReq? ==> events[i].id != Some(id)
  }

  /** The same for a handle; `mine` allows it to be the request at hand. */
  predicate Kept(p: Party, id: nat, n: nat, mine: bool) {
    Unasked(p.events, id, n) && id < p.nextId && (mine || IdOf(p.current) != Some(id))
  }

  lemma KeptAdds(before: seq<Event>, after: seq<Event>, kind: EventKind, of: Option<nat>, id: nat, n: nat)
    requires Unasked(before, id, n) && Adds(before, after, kind, of) && (!kind.EvReq? || of != Some(id))
    ensures Unasked(after, id, n)
  {
    assert forall i :: 0 <= i < |before| ==> after[i] == before[i];
  }

  lemma KeptDelivered(p: Party, kind: EventKind, cmd: nat, rsp: nat, delete: bool, id: nat, n: nat, mine: bool)
    requires Kept(p, id, n, mine) && (!mine || !kind.EvReq?)
    ensures Kept(Deliver(p, kind, cmd, rsp, delete), id, n, mine)
    ensures p.current.Some? && !delete ==> Deliver(p, kind, cmd, rsp, delete).current.Some?
  {
    hide ApplyAll, Unasked;
    KeptAdds(p.events, p.events + [EventOf(p, kind, cmd, rsp)], kind, IdOf(p.current), id, n);
    if p.current.Some? { DeliverKeeps(p, kind, cmd, rsp); }
  }

  lemma KeptDeliverOwn(p: Party, kind: EventKind, rsp: nat, delete: bool, id: nat, n: nat, mine: bool)
    requires Kept(p, id, n, mine) && !kind.EvReq? && p.current.Some?
    ensures Kept(DeliverOwn(p, kind, rsp, delete), id, n, mine)
    ensures !delete ==> DeliverOwn(p, kind, rsp, delete).current.Some?
  {
    hide Deliver, Kept;
    KeptDelivered(p, kind, p.current.value.opcode, rsp, delete, id, n, mine);
  }

  /** Changes of other fields make no difference. */
  lemma KeptSame(p: Party, p': Party, id: nat, n: nat, mine: bool)
    requires Kept(p, id, n, mine) && p'.events == p.events && p'.nextId == p.nextId &&
             IdOf(p'.current) == IdOf(p.current)
    ensures Kept(p', id, n, mine)
  {
  }

  lemma KeptSent(p: Party, allowFinal: bool, forceFinal: bool, id: nat, n: nat, mine: bool)
    requires Kept(p, id, n, mine) && p.current.Some?
    ensures var p' := SendObject(p, allowFinal, forceFinal).0; p'.current.Some? && Kept(p', id, n, mine)
  {
    hide SendObject, Unasked;
    SendKeeps(p, allowFinal, forceFinal);
    KeptAdds(p.events, SendObject(p, allowFinal, forceFinal).0.events, EvStreamEmpty, IdOf(p.current), id, n);
  }

  lemma KeptReceived(p: Party, packet: seq<byte>, id: nat, n: nat, mine: bool)
    requires Kept(p, id, n, mine) && p.current.Some?
    ensures var p' := Receive(p, packet).0; p'.current.Some? && Kept(p', id, n, mine)
  {
    hide Receive, Unasked;
    ReceiveReceives(p, packet);
    KeptAdds(p.events, Receive(p, packet).0.events, EvStreamAvail, IdOf(p.current), id, n);
  }

  // ---- The server ----

  lemma KeptFinish(p: Party, rsp: byte, kind: EventKind, evRsp: nat, id: nat, n: nat, mine: bool)
    requires Kept(p, id, n, mine) && !kind.EvReq?
    ensures Kept(Finish(p, rsp, kind, evRsp), id, n, mine)
  {
    hide Deliver, Kept, Frame, Transmitted;
    KeptSame(p, p.(fault := true), id, n, mine);
    KeptSame(p, ServerIdle(Respond(p, rsp)), id, n, mine);
    if p.current.Some? { KeptDeliverOwn(ServerIdle(Respond(p, rsp)), kind, evRsp, true, id, n, mine); }
  }

  lemma KeptReply(p: Party, cmd: byte, id: nat, n: nat, mine: bool)
    requires Kept(p, id, n, mine) && p.current.Some?
    ensures Kept(ServerReply(p, cmd), id, n, mine)
  {
    hide Deliver, Kept, SendObject;
    var p0 := Update(p, p.current.value.(continueReceived := true));
    KeptSame(p, p0, id, n, mine);
    KeptSent(p0, true, true, id, n, mine);
    var p1 := SendObject(p0, true, true).0;
    KeptDelivered(p1, EvLinkErr, cmd, 0, true, id, n, mine);
    KeptDelivered(p1, EvProgress, cmd, 0, false, id, n, mine);
    var p2 := Deliver(p1, EvProgress, cmd, 0, false);
    KeptSame(p2, Update(p2, p2.current.value.(firstSent := true, continueReceived := false)), id, n, mine);
    var p3 := if cmd == DISCONNECT then p1.(mtuTx := MINIMUM_MTU) else p1;
    KeptSame(p1, ServerIdle(p3), id, n, mine);
    KeptDelivered(ServerIdle(p3), EvReqDone, cmd, 0, true, id, n, mine);
  }

  lemma KeptRespond(p: Party, packet: seq<byte>, cmd: byte, length: nat, id: nat, n: nat, mine: bool)
    requires Kept(p, id, n, mine)
    ensures Kept(ServerRespond(p, packet, cmd, length), id, n, mine)
  {
    hide Deliver, Kept, Receive, ServerReply, Finish;
    KeptSame(p, p.(fault := true), id, n, mine);
    if p.current.Some? {
      KeptFinish(p, SUCCESS, EvAbort, cmd, id, n, mine);
      KeptReply(p, cmd, id, n, mine);
      KeptFinish(p, BAD_REQUEST, EvParseErr, 0, id, n, mine);
      KeptReceived(p, packet, id, n, mine);
      var p1 := Receive(p, packet).0;
      KeptSame(p1, p1.(fault := true), id, n, mine);
      KeptFinish(p1, BAD_REQUEST, EvParseErr, 0, id, n, mine);
      KeptDeliverOwn(p1, EvUnexpected, 0, false, id, n, mine);
      KeptReply(DeliverOwn(p1, EvUnexpected, 0, false), cmd, id, n, mine);
    }
  }

  lemma KeptRequest(p: Party, packet: seq<byte>, cmd: byte, deny: bool, id: nat, n: nat, mine: bool)
    requires Kept(p, id, n, mine) && p.current.Some? && |packet| >= 3
    requires deny || !mine || p.current.value.firstSent
    ensures Kept(ServerRequest(p, packet, cmd, deny), id, n, mine)
  {
    hide Deliver, Kept, ServerRespond;
    KeptRespond(p, [], cmd, Read16(packet, 1), id, n, mine);
    var p1 := if cmd == CONNECT then Update(p, p.current.value.(nonHeader := Some(ConnectFrame(p.mtuRx)))) else p;
    KeptSame(p, p1, id, n, mine);
    if deny || !mine {
      if !deny { KeptDelivered(p1, EvReq, cmd, 0, false, id, n, mine); }
      var p2 := if deny then p1 else Deliver(p1, EvReq, cmd, 0, false);
      KeptSame(p2, p2.(state := Responding, serverMode := true), id, n, mine);
      KeptRespond(p2.(state := Responding, serverMode := true), [], cmd, 3, id, n, mine);
    }
  }

  /** A request that is refused here is not reported. */
  lemma KeptMore(p: Party, packet: seq<byte>, cmd: byte, id: nat, n: nat, mine: bool)
    requires Kept(p, id, n, mine) && p.current.Some? && |packet| >= 3
    ensures Kept(ServerMore(p, packet, cmd), id, n, mine)
  {
    hide Deliver, Kept, SendObject, ServerRequest;
    KeptRequest(p, packet, cmd, true, id, n, mine);
    KeptSent(p, false, true, id, n, mine);
    var p1 := SendObject(p, false, true).0;
    KeptDelivered(p1, EvLinkErr, cmd, 0, true, id, n, mine);
    KeptDelivered(p1, EvProgress, cmd, 0, false, id, n, mine);
  }

  lemma KeptChecked(p: Party, cmd: byte, id: nat, n: nat, mine: bool)
    requires Kept(p, id, n, mine) && p.current.Some?
    ensures Kept(Checked(p, cmd), id, n, mine)
  {
    hide Deliver, Kept;
    KeptDelivered(p, EvReqCheck, cmd, 0, false, id, n, mine);
    var p1 := Deliver(p, EvReqCheck, cmd, 0, false);
    KeptSame(p1, Update(p1, p1.current.value.(checked := true)), id, n, mine);
  }

  lemma KeptServerReceive(p: Party, packet: seq<byte>, id: nat, n: nat, mine: bool)
    requires Kept(p, id, n, mine) && |packet| >= 3
    requires !mine || !Final(packet[0]) || (p.current.Some? && p.current.value.firstSent)
    ensures Kept(ServerReceive(p, packet), id, n, mine)
  {
    hide Kept, Receive, ServerRequest, ServerMore, Checked, Finish;
    var cmd := ClearFinal(packet[0]);
    KeptSame(p, p.(fault := true), id, n, mine);
    if p.current.Some? {
      KeptFinish(p, SUCCESS, EvAbort, cmd, id, n, mine);
      KeptFinish(p, BAD_REQUEST, EvParseErr, cmd, id, n, mine);
      KeptReceived(p, packet, id, n, mine);
      var p1 := Receive(p, packet).0;
      KeptSame(p1, p1.(fault := true), id, n, mine);
      KeptFinish(p1, BAD_REQUEST, EvParseErr, 0, id, n, mine);
      ReceiveReceives(p, packet);
      if !mine || p.current.value.firstSent { KeptRequest(p1, packet, cmd, false, id, n, mine); }
      KeptChecked(p1, cmd, id, n, mine);
      KeptMore(Checked(p1, cmd), packet, cmd, id, n, mine);
    }
  }

  lemma KeptNew(p: Party, o: Object, id: nat, n: nat)
    requires Kept(p, id, n, false) && o.id == p.nextId
    ensures Kept(p.(current := Some(o), nextId := p.nextId + 1), id, n, false)
  {
  }

  lemma KeptOpen(p: Party, packet: seq<byte>, id: nat, n: nat)
    requires Kept(p, id, n, false) && |packet| >= 3
    ensures Kept(ServerOpen(p, packet), id, n, false)
  {
    hide Kept, Deliver, ServerReceive, Transmit;
    var cmd := ClearFinal(packet[0]);
    var o := NewObject(p.nextId).(cmd := cmd);
    var p0 := p.(current := Some(o), nextId := p.nextId + 1);
    KeptNew(p, o, id, n);
    KeptDelivered(p0, EvReqHint, cmd, 0, false, id, n, false);
    var p1 := Deliver(p0, EvReqHint, cmd, 0, false);
    if cmd == CONNECT {
      match ParseConnect(p1, packet)
      case None =>
        KeptResponded(p1, BAD_REQUEST, id, n, false);
        KeptDeliverOwn(Respond(p1, BAD_REQUEST), EvParseErr, 0, true, id, n, false);
      case Some(p2) =>
        KeptSame(p1, Opened(p2, 4), id, n, false);
        KeptServerReceive(Opened(p2, 4), packet, id, n, false);
    } else if cmd == SETPATH {
      KeptSame(p1, Opened(p1, 2), id, n, false);
      KeptServerReceive(Opened(p1, 2), packet, id, n, false);
    } else {
      KeptSame(p1, p1.(state := Receiving, serverMode := true), id, n, false);
      KeptServerReceive(p1.(state := Receiving, serverMode := true), packet, id, n, false);
    }
  }

  lemma KeptResponded(p: Party, rsp: byte, id: nat, n: nat, mine: bool)
    requires Kept(p, id, n, mine)
    ensures Kept(Respond(p, rsp), id, n, mine) && Respond(p, rsp).current == p.current
  {
    hide Kept, Frame;
    KeptSame(p, Respond(p, rsp), id, n, mine);
  }

  /** A request other than the one at hand. */
  lemma KeptServerStep(p: Party, packet: seq<byte>, id: nat, n: nat)
    requires Kept(p, id, n, false) && |packet| >= 3
    ensures Kept(ServerStep(p, packet), id, n, false)
  {
    hide Kept, Deliver, ServerReceive, ServerOpen, ServerRespond, Respond;
    var cmd := ClearFinal(packet[0]);
    KeptResponded(p, INTERNAL_SERVER_ERROR, id, n, false);
    KeptResponded(p, BAD_REQUEST, id, n, false);
    KeptOpen(p, packet, id, n);
    KeptServerReceive(p, packet, id, n, false);
    KeptRespond(p, packet, cmd, Read16(packet, 1), id, n, false);
    KeptDelivered(Respond(p, BAD_REQUEST), EvParseErr, cmd, 0, true, id, n, false);
  }

  // ---- The client ----

  lemma KeptStart(p: Party, rsp: byte, id: nat, n: nat, mine: bool)
    requires Kept(p, id, n, mine)
    ensures Kept(ClientStart(p, rsp), id, n, mine)
  {
    hide Kept, SendObject, Deliver;
    KeptDelivered(p, EvParseErr, rsp, 0, true, id, n, mine);
    if p.current.Some? {
      KeptSent(p, true, false, id, n, mine);
      var p1 := SendObject(p, true, false).0;
      KeptSame(p1, p1.(state := Idle, serverMode := false), id, n, mine);
      KeptDeliverOwn(p1.(state := Idle, serverMode := false), EvLinkErr, 0, true, id, n, mine);
      var p2 := Update(p1, p1.current.value.(firstSent := true));
      KeptSame(p1, p2, id, n, mine);
      KeptDeliverOwn(p2, EvProgress, 0, false, id, n, mine);
      var p3 := DeliverOwn(p2, EvProgress, 0, false);
      KeptSame(p3, p3.(state := Receiving, serverMode := false), id, n, mine);
    }
  }

  lemma KeptContinue(p: Party, id: nat, n: nat, mine: bool)
    requires Kept(p, id, n, mine) && p.current.Some?
    ensures Kept(ClientContinue(p), id, n, mine)
  {
    hide Kept, SendObject, Deliver;
    var p0 := Update(p, p.current.value.(continueReceived := true));
    KeptSame(p, p0, id, n, mine);
    KeptSent(p0, true, false, id, n, mine);
    var p1 := SendObject(p0, true, false).0;
    KeptDeliverOwn(p1, EvLinkErr, 0, true, id, n, mine);
    KeptDeliverOwn(p1, EvProgress, 0, false, id, n, mine);
    var p2 := DeliverOwn(p1, EvProgress, 0, false);
    KeptSame(p2, Update(p2, p2.current.value.(continueReceived := false)), id, n, mine);
  }

  lemma KeptHeaders(p: Party, packet: seq<byte>, rsp: byte, id: nat, n: nat, mine: bool)
    requires Kept(p, id, n, mine) && p.current.Some? && |packet| >= 3
    ensures Kept(ClientHeaders(p, packet, rsp), id, n, mine)
  {
    hide Kept, Receive, ClientContinue, Deliver;
    KeptReceived(p, packet, id, n, mine);
    var p1 := Receive(p, packet).0;
    KeptSame(p1, p1.(fault := true), id, n, mine);
    KeptSame(p1, ServerIdle(p1), id, n, mine);
    KeptDeliverOwn(ServerIdle(p1), EvParseErr, 0, true, id, n, mine);
    KeptContinue(p1, id, n, mine);
    KeptDeliverOwn(ServerIdle(p1),
        if !p1.current.value.abort then EvReqDone else if rsp == SUCCESS then EvAbort else EvLinkErr,
                   rsp, true, id, n, mine);
  }

  lemma KeptClientReceive(p: Party, packet: seq<byte>, rsp: byte, id: nat, n: nat, mine: bool)
    requires Kept(p, id, n, mine) && p.current.Some? && |packet| >= 3
    ensures Kept(ClientReceive(p, packet, rsp), id, n, mine)
  {
    hide Kept, ClientHeaders, Deliver;
    KeptSame(p, ServerIdle(p), id, n, mine);
    KeptDeliverOwn(ServerIdle(p), EvParseErr, 0, true, id, n, mine);
    if p.current.value.opcode == CONNECT && ParseConnect(p, packet).Some? {
      var p1 := ParseConnect(p, packet).value;
      KeptSame(p, Update(p1, p1.current.value.(headerOffset := 4)), id, n, mine);
      KeptHeaders(Update(p1, p1.current.value.(headerOffset := 4)), packet, rsp, id, n, mine);
    }
    KeptSame(p, p.(mtuTx := MINIMUM_MTU), id, n, mine);
    KeptHeaders(p.(mtuTx := MINIMUM_MTU), packet, rsp, id, n, mine);
    KeptHeaders(p, packet, rsp, id, n, mine);
  }

  lemma KeptBusy(p: Party, packet: Option<seq<byte>>, rsp: byte, id: nat, n: nat, mine: bool)
    requires Kept(p, id, n, mine) && (packet.Some? ==> |packet.value| >= 3)
    ensures Kept(ClientBusy(p, packet, rsp), id, n, mine)
  {
    hide Kept, Receive, ClientStart, Deliver;
    KeptSame(p, p.(fault := true), id, n, mine);
    KeptSame(p, ServerIdle(p), id, n, mine);
    if p.current.Some? {
      KeptDeliverOwn(p, EvReqDone, rsp, true, id, n, mine);
      KeptDeliverOwn(ServerIdle(p), EvParseErr, 0, true, id, n, mine);
      KeptStart(p, rsp, id, n, mine);
      if packet.Some? {
        KeptReceived(p, packet.value, id, n, mine);
        var p1 := Receive(p, packet.value).0;
        KeptSame(p1, p1.(fault := true), id, n, mine);
        KeptSame(p1, ServerIdle(p1), id, n, mine);
        KeptDeliverOwn(ServerIdle(p1), EvParseErr, 0, true, id, n, mine);
        KeptDeliverOwn(p1, EvUnexpected, 0, false, id, n, mine);
        KeptStart(DeliverOwn(p1, EvUnexpected, 0, false), rsp, id, n, mine);
      }
    }
  }

  /** No client is told that a request has arrived. */
  lemma KeptClientStep(p: Party, packet: Option<seq<byte>>, id: nat, n: nat, mine: bool)
    requires Kept(p, id, n, mine) && (packet.Some? ==> |packet.value| >= 3)
    ensures Kept(ClientStep(p, packet), id, n, mine)
  {
    hide Kept, ClientBusy, ClientStart, ClientReceive, Deliver;
    var rsp := if packet.Some? then ClearFinal(packet.value[0]) else BAD_REQUEST;
    KeptBusy(p, packet, rsp, id, n, mine);
    KeptStart(p, rsp, id, n, mine);
    KeptSame(p, p.(fault := true), id, n, mine);
    KeptDelivered(p, EvParseErr, rsp, 0, true, id, n, mine);
    if packet.Some? && p.current.Some? { KeptClientReceive(p, packet.value, rsp, id, n, mine); }
  }

  // ---- A refused request stays refused ----

  /** The request at hand can no longer be reported: its response has been begun. */
  predicate Begun(p: Party) {
    p.current.Some? && (p.state.Responding? || (p.state.Receiving? && p.current.value.firstSent))
  }

  /** Over, or begun. */
  predicate Locked(p: Party) {
    p.fault || p.current.None? || !p.serverMode || Begun(p)
  }

  lemma FinishLocked(p: Party, rsp: byte, kind: EventKind, evRsp: nat)
    ensures Locked(Finish(p, rsp, kind, evRsp))
  {
  }

  lemma ReplyLocked(p: Party, cmd: byte)
    requires p.current.Some? && (p.state.Responding? || p.state.Receiving?)
    ensures Locked(ServerReply(p, cmd))
  {
    hide SendObject, ApplyAll, EventOf;
    var p0 := Update(p, p.current.value.(continueReceived := true));
    SendKeeps(p0, true, true);
    DeliverKeeps(SendObject(p0, true, true).0, EvProgress, cmd, 0);
  }

  lemma RespondLocked(p: Party, packet: seq<byte>, cmd: byte, length: nat)
    requires p.current.Some? && (p.state.Responding? || p.state.Receiving?)
    ensures Locked(ServerRespond(p, packet, cmd, length))
  {
    hide Receive, Finish, ServerReply, Deliver, Locked;
    FinishLocked(p, SUCCESS, EvAbort, cmd);
    FinishLocked(p, BAD_REQUEST, EvParseErr, 0);
    ReplyLocked(p, cmd);
    ReceiveReceives(p, packet);
    var p1 := Receive(p, packet).0;
    FinishLocked(p1, BAD_REQUEST, EvParseErr, 0);
    DeliverKeeps(p1, EvUnexpected, p1.current.value.opcode, 0);
    ReplyLocked(DeliverOwn(p1, EvUnexpected, 0, false), cmd);
    FaultLocked(p1);
  }

  lemma FaultLocked(p: Party)
    ensures Locked(p.(fault := true))
  {
  }

  lemma RequestLocked(p: Party, packet: seq<byte>, cmd: byte, deny: bool)
    requires p.current.Some? && p.state.Receiving? && |packet| >= 3
    ensures Locked(ServerRequest(p, packet, cmd, deny))
  {
    hide ServerRespond, Deliver, Locked;
    RespondLocked(p, [], cmd, Read16(packet, 1));
    var p1 := if cmd == CONNECT then Update(p, p.current.value.(nonHeader := Some(ConnectFrame(p.mtuRx)))) else p;
    DeliverKeeps(p1, EvReq, cmd, 0);
    var p2 := if deny then p1 else Deliver(p1, EvReq, cmd, 0, false);
    RespondLocked(p2.(state := Responding, serverMode := true), [], cmd, 3);
  }

  lemma MoreLocked(p: Party, packet: seq<byte>, cmd: byte)
    requires p.current.Some? && p.state.Receiving? && |packet| >= 3
    requires p.current.value.firstSent || !Accepting(p.current.value.opcode)
    ensures Locked(ServerMore(p, packet, cmd))
  {
    hide ServerRequest, SendObject, ApplyAll, EventOf;
    RequestLocked(p, packet, cmd, true);
    SendKeeps(p, false, true);
    DeliverKeeps(SendObject(p, false, true).0, EvProgress, cmd, 0);
  }

  lemma ReceiveLocked(p: Party, packet: seq<byte>)
    requires p.current.Some? && p.state.Receiving? && |packet| >= 3
    requires p.current.value.firstSent || Refuses(p, packet)
    ensures Locked(ServerReceive(p, packet))
  {
    hide Receive, Finish, ServerRequest, ServerMore, Deliver, Locked;
    var cmd := ClearFinal(packet[0]);
    FinishLocked(p, SUCCESS, EvAbort, cmd);
    FinishLocked(p, BAD_REQUEST, EvParseErr, cmd);
    ReceiveReceives(p, packet);
    var p1 := Receive(p, packet).0;
    FaultLocked(p1);
    FinishLocked(p1, BAD_REQUEST, EvParseErr, 0);
    RequestLocked(p1, packet, cmd, false);
    DeliverKeeps(p1, EvReqCheck, cmd, 0);
    if Receive(p, packet).1.Clean? && !Final(packet[0]) && cmd != ABORT && cmd == p.current.value.cmd {
      MoreLocked(Checked(p1, cmd), packet, cmd);
    }
  }

  // ---- Nor does a client get there ----

  lemma DeliverGone(p: Party, kind: EventKind, cmd: nat, rsp: nat)
    ensures Locked(Deliver(p, kind, cmd, rsp, true))
  {
  }

  lemma OwnGone(p: Party, kind: EventKind, rsp: nat)
    requires p.current.Some?
    ensures Locked(DeliverOwn(p, kind, rsp, true))
  {
    hide Locked, Deliver;
    DeliverGone(p, kind, p.current.value.opcode, rsp);
  }

  lemma StartLocked(p: Party, rsp: byte)
    ensures Locked(ClientStart(p, rsp))
  {
    hide SendObject, ApplyAll, EventOf;
  }

  lemma ContinueLocked(p: Party)
    requires p.current.Some? && !p.serverMode
    ensures Locked(ClientContinue(p))
  {
    hide SendObject, ApplyAll, EventOf;
    var p0 := Update(p, p.current.value.(continueReceived := true));
    SendKeeps(p0, true, false);
    DeliverKeeps(SendObject(p0, true, false).0, EvProgress, p0.current.value.opcode, 0);
  }

  lemma HeadersLocked(p: Party, packet: seq<byte>, rsp: byte)
    requires p.current.Some? && !p.serverMode && |packet| >= 3
    ensures Locked(ClientHeaders(p, packet, rsp))
  {
    hide Receive, ClientContinue, DeliverOwn, Locked;
    ReceiveReceives(p, packet);
    var p1 := Receive(p, packet).0;
    FaultLocked(p1);
    OwnGone(ServerIdle(p1), EvParseErr, 0);
    OwnGone(ServerIdle(p1),
        if !p1.current.value.abort then EvReqDone else if rsp == SUCCESS then EvAbort else EvLinkErr, rsp);
    ContinueLocked(p1);
  }

  lemma BusyLocked(p: Party, packet: Option<seq<byte>>, rsp: byte)
    requires !p.serverMode && (packet.Some? ==> |packet.value| >= 3)
    ensures Locked(ClientBusy(p, packet, rsp))
  {
    hide Receive, ClientStart, DeliverOwn, Locked;
    FaultLocked(p);
    if p.current.Some? {
      OwnGone(p, EvReqDone, rsp);
      OwnGone(ServerIdle(p), EvParseErr, 0);
      StartLocked(p, rsp);
      if packet.Some? {
        ReceiveReceives(p, packet.value);
        var p1 := Receive(p, packet.value).0;
        FaultLocked(p1);
        OwnGone(ServerIdle(p1), EvParseErr, 0);
        StartLocked(DeliverOwn(p1, EvUnexpected, 0, false), rsp);
      }
    }
  }

  lemma ClientLocked(p: Party, packet: Option<seq<byte>>)
    requires !p.serverMode && (packet.Some? ==> |packet.value| >= 3)
    ensures Locked(ClientStep(p, packet))
  {
    hide ClientStart, ClientBusy, ClientHeaders, Deliver, Locked;
    var rsp := if packet.Some? then ClearFinal(packet.value[0]) else BAD_REQUEST;
    FaultLocked(p);
    DeliverGone(p, EvParseErr, rsp, 0);
    StartLocked(p, rsp);
    BusyLocked(p, packet, rsp);
    if packet.Some? && p.current.Some? {
      OwnGone(ServerIdle(p), EvParseErr, 0);
      HeadersLocked(p, packet.value, rsp);
      HeadersLocked(p.(mtuTx := MINIMUM_MTU), packet.value, rsp);
      if ParseConnect(p, packet.value).Some? {
        var p1 := ParseConnect(p, packet.value).value;
        HeadersLocked(Update(p1, p1.current.value.(headerOffset := 4)), packet.value, rsp);
      }
    }
  }

  // ---- Over whole runs ----

  /** The request has not arrived since, and will not. */
  predicate Sunk(p: Party, id: nat, n: nat) {
    Kept(p, id, n, true) && (IdOf(p.current) == Some(id) ==> Locked(p))
  }

  lemma OthersSunk(p: Party, id: nat, n: nat)
    ensures Kept(p, id, n, false) ==> Sunk(p, id, n)
    ensures Sunk(p, id, n) && IdOf(p.current) != Some(id) ==> Kept(p, id, n, false)
  {
    hide Unasked, Locked;
  }

  lemma SunkServerStep(p: Party, packet: seq<byte>, id: nat, n: nat)
    requires Sunk(p, id, n) && !p.fault && p.serverMode && |packet| >= 3
    ensures Sunk(ServerStep(p, packet), id, n)
  {
    hide Unasked, ServerReceive, ServerOpen, ServerRespond;
    var cmd := ClearFinal(packet[0]);
    if IdOf(p.current) == Some(id) {
      if p.state.Responding? {
        KeptRespond(p, packet, cmd, Read16(packet, 1), id, n, true);
        RespondLocked(p, packet, cmd, Read16(packet, 1));
      } else {
        KeptServerReceive(p, packet, id, n, true);
        ReceiveLocked(p, packet);
      }
    } else {
      KeptServerStep(p, packet, id, n);
      OthersSunk(ServerStep(p, packet), id, n);
    }
  }

  lemma SunkClientStep(p: Party, packet: Option<seq<byte>>, id: nat, n: nat)
    requires Sunk(p, id, n) && !p.serverMode && (packet.Some? ==> |packet.value| >= 3)
    ensures Sunk(ClientStep(p, packet), id, n)
  {
    hide Unasked, ClientStep, Locked;
    KeptClientStep(p, packet, id, n, true);
    ClientLocked(p, packet);
  }

  lemma SunkHandled(p: Party, i: Input, id: nat, n: nat)
    requires Sunk(p, id, n) && !p.fault
    ensures Sunk(Handle(p, i), id, n)
  {
    hide Unasked, ClientStep, ServerStep, BuildRequest, Deliver, Frame, Transmitted;
    match i
    case Begins(size) =>
    case Arrives(packet) =>
      if |packet| >= 3 {
        if p.serverMode { SunkServerStep(p, packet, id, n); } else { SunkClientStep(p, Some(packet), id, n); }
      }
    case Asks(cmd, calls) =>
      if p.current.None? {
        var o := BuildRequest(p, cmd, calls).(id := p.nextId);
        var p1 := p.(current := Some(o), nextId := p.nextId + 1, state := Starting, serverMode := false);
        KeptNew(p, o, id, n);
        KeptSame(p.(current := Some(o), nextId := p.nextId + 1), p1, id, n, false);
        OthersSunk(p1, id, n);
        SunkClientStep(p1, None, id, n);
      }
    case Cancels =>
    case Breaks =>
      KeptDelivered(p, EvLinkErr, 0, 0, true, id, n, true);
      DeliverGone(p, EvLinkErr, 0, 0);
  }

  /** The packet on which the request is refused. */
  lemma RefusedSinks(p: Party, packet: seq<byte>)
    requires Life(p) && p.serverMode && !p.fault && |packet| >= 3 && Refuses(p, packet) && RefusedId(p, packet).Some?
    ensures Sunk(ServerStep(p, packet), RefusedId(p, packet).value, |p.events|)
  {
    hide ServerReceive, Receive, Deliver, Unasked, Locked, Orderly, Checked;
    var id, n := RefusedId(p, packet).value, |p.events|;
    var cmd := ClearFinal(packet[0]);
    var t := Taker(p, packet).value;
    TakenId(t, packet);
    TakerIs(p, packet, id, n);
    KeptServerReceive(t, packet, id, n, true);
    RefusesSame(p, t, packet);
    ReceiveLocked(t, packet);
  }

  /** Judging a request does not change which it is. */
  lemma TakenId(t: Party, packet: seq<byte>)
    requires |packet| >= 3 && Deciding(t, packet).Some?
    ensures t.current.Some? && Deciding(t, packet).value.current.Some?
    ensures IdOf(Deciding(t, packet).value.current) == IdOf(t.current)
  {
    hide Receive, Deliver;
    ReceiveReceives(t, packet);
    DeliverKeeps(Receive(t, packet).0, EvReqCheck, ClearFinal(packet[0]), 0);
  }

  lemma TakerIs(p: Party, packet: seq<byte>, id: nat, n: nat)
    requires Life(p) && |packet| >= 3 && Taker(p, packet).Some? && IdOf(Taker(p, packet).value.current) == Some(id)
    requires n == |p.events|
    ensures var t := Taker(p, packet).value;
            && ServerStep(p, packet) == ServerReceive(t, packet) && t.state.Receiving? && Kept(t, id, n, true)
  {
    hide ServerReceive, Deliver, Orderly;
    var cmd := ClearFinal(packet[0]);
    if p.state.Receiving? {
      LiveIdKnown(p);
    } else {
      var p0 := p.(current := Some(NewObject(p.nextId).(cmd := cmd)), nextId := p.nextId + 1);
      DeliverKeeps(p0, EvReqHint, cmd, 0);
    }
  }

  lemma LiveIdKnown(p: Party)
    requires Life(p) && p.current.Some?
    ensures p.current.value.id < p.nextId
  {
  }

  lemma RefusesSame(p: Party, t: Party, packet: seq<byte>)
    requires |packet| >= 3 && Refuses(p, packet) && t == Taker(p, packet).value && t.state.Receiving?
    ensures Refuses(t, packet)
  {
  }

  lemma {:induction false} SunkRun(p: Party, inputs: seq<Input>, id: nat, n: nat)
    requires p.fault || Sunk(p, id, n)
    ensures var q := Run(p, inputs); q.fault || Sunk(q, id, n)
    decreases |inputs|
  {
    hide Handle, Sunk;
    if inputs == [] {
    } else {
      SunkRun(p, inputs[..|inputs| - 1], id, n);
      var before := Run(p, inputs[..|inputs| - 1]);
      if !before.fault { SunkHandled(before, inputs[|inputs| - 1], id, n); }
    }
  }

  /**
   Over every run: a request whose opcode the application has left refusing, when it was
   asked on a packet that is not the request's last, is never reported as having arrived,
   whatever packets come after, whatever the application does, and whatever else is
   requested, cancelled or lost meanwhile.
   */
  lemma RefusedTheorem(p: Party, before: seq<Input>, packet: seq<byte>, after: seq<Input>)
    requires Fresh(p) && |packet| >= 3
    requires var q := Run(p, before);
             !q.fault && !LinkErrorIn(q.events) && q.serverMode && Refuses(q, packet)
    ensures var q := Run(p, before);
            var r := Run(Handle(q, Arrives(packet)), after);
            RefusedId(q, packet).Some? && (r.fault || Unasked(r.events, RefusedId(q, packet).value, |q.events|))
  {
    hide Run, Handle, Refuses, Unasked, Orderly, LinkErrorIn, Fresh, Settled;
    LifetimeTheorem(p, before);
    var q := Run(p, before);
    RefusedHasId(q, packet);
    RefusedSinks(q, packet);
    HandledAs(q, packet);
    SunkRun(Handle(q, Arrives(packet)), after, RefusedId(q, packet).value, |q.events|);
  }

  lemma RefusedHasId(p: Party, packet: seq<byte>)
    requires |packet| >= 3 && Refuses(p, packet)
    ensures RefusedId(p, packet).Some?
  {
    hide Deciding, Taker;
  }

  lemma HandledAs(p: Party, packet: seq<byte>)
    requires |packet| >= 3 && p.serverMode && !p.fault
    ensures var p' := Handle(p, Arrives(packet)); p'.fault || p' == ServerStep(p, packet)
  {
    hide ServerStep;
  }
}
