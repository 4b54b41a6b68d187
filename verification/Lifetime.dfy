/**
 The life of request objects over whole runs of one handle, whatever packets arrive and
 whatever the application and the link do: every object ends with exactly one terminal
 event, is not named again, and is released once; and between calls, until the link is
 lost, the handle is idle exactly when it holds no object.
 */
module Lifetime {
  import opened Octets
  import opened Session
  import opened SessionFacts

  /** The objects named by terminal events, in order. */
  function TerminalIds(events: seq<Event>): seq<nat>
    decreases |events|
  {
    if events == [] then []
    else
      var last := events[|events| - 1];
      TerminalIds(events[..|events| - 1]) + if Terminal(last.kind) && last.id.Some? then [last.id.value] else []
  }

  predicate Distinct(ids: seq<nat>) {
    forall i, j :: 0 <= i < j < |ids| ==> ids[i] != ids[j]
  }

  /** Every object ever made is alive, or was released with its one terminal event, after
      which no event names it. */
  predicate Orderly(events: seq<Event>, released: seq<nat>, nextId: nat, live: Option<nat>) {
    && released == TerminalIds(events) && Distinct(released)
    && (live.Some? ==> live.value < nextId && live.value !in released)
    && (forall n: nat :: n < nextId ==> n in released || live == Some(n))
    && (forall i :: 0 <= i < |events| && events[i].id.Some? ==>
          events[i].id.value < nextId && (events[i].id == live || events[i].id.value in released))
    && (forall i, j :: 0 <= i < j < |events| && Terminal(events[i].kind) && events[i].id.Some? ==>
          events[j].id != events[i].id)
  }

  lemma {:induction false} TerminalIdReleased(events: seq<Event>, i: nat)
    requires i < |events| && Terminal(events[i].kind) && events[i].id.Some?
    ensures events[i].id.value in TerminalIds(events)
    decreases |events|
  {
    var before := events[..|events| - 1];
    if i < |before| {
      TerminalIdReleased(before, i);
      assert before[i] == events[i];
    }
  }

  /** No terminal event so far has named an object that is not released. */
  lemma NotEnded(events: seq<Event>, id: Option<nat>)
    requires id.Some? ==> id.value !in TerminalIds(events)
    ensures forall i :: 0 <= i < |events| && Terminal(events[i].kind) && events[i].id.Some? ==> id != events[i].id
  {
    forall i | 0 <= i < |events| && Terminal(events[i].kind) && events[i].id.Some?
      ensures id != events[i].id
    {
      TerminalIdReleased(events, i);
    }
  }

  lemma TerminalIdsSnoc(events: seq<Event>, e: Event)
    ensures TerminalIds(events + [e]) ==
            TerminalIds(events) + if Terminal(e.kind) && e.id.Some? then [e.id.value] else []
  {
    assert (events + [e])[..|events|] == events;
  }

  /** An event of the live object that does not end it, or an event of no object, may follow. */
  lemma OrderlyNote(events: seq<Event>, released: seq<nat>, nextId: nat, live: Option<nat>, e: Event)
    requires Orderly(events, released, nextId, live) && e.id == live && (Terminal(e.kind) ==> live.None?)
    ensures Orderly(events + [e], released, nextId, live)
  {
    TerminalIdsSnoc(events, e);
    NotEnded(events, e.id);
  }

  /** A terminal event ends the live object and releases it. */
  lemma OrderlyEnd(events: seq<Event>, released: seq<nat>, nextId: nat, live: Option<nat>, e: Event)
    requires Orderly(events, released, nextId, live) && e.id == live && Terminal(e.kind) && live.Some?
    ensures Orderly(events + [e], released + [live.value], nextId, None)
  {
    TerminalIdsSnoc(events, e);
    NotEnded(events, e.id);
    assert forall n :: n in released ==> n in released + [live.value];
    assert live.value in released + [live.value];
  }

  lemma {:induction false} OrderlyAdds(before: seq<Event>, after: seq<Event>, released: seq<nat>, nextId: nat,
                                       live: Option<nat>, kind: EventKind)
    requires Orderly(before, released, nextId, live) && Adds(before, after, kind, live) && !Terminal(kind)
    ensures Orderly(after, released, nextId, live)
    decreases |after|
  {
    if |after| > |before| {
      var init := after[..|after| - 1];
      OrderlyAdds(before, init, released, nextId, live, kind);
      OrderlyNote(init, released, nextId, live, after[|after| - 1]);
      assert init + [after[|after| - 1]] == after;
    } else {
      assert after == before;
    }
  }

  lemma OrderlyBirth(events: seq<Event>, released: seq<nat>, nextId: nat)
    requires Orderly(events, released, nextId, None)
    ensures Orderly(events, released, nextId + 1, Some(nextId))
  {
    assert nextId !in released by {
      if nextId in released { ReleasedNamed(events, nextId); }
    }
  }

  lemma {:induction false} ReleasedNamed(events: seq<Event>, n: nat)
    requires n in TerminalIds(events)
    ensures exists i :: 0 <= i < |events| && events[i].id == Some(n)
    decreases |events|
  {
    var before := events[..|events| - 1];
    if n in TerminalIds(before) {
      ReleasedNamed(before, n);
      var i :| 0 <= i < |before| && before[i].id == Some(n);
      assert events[i].id == Some(n);
    } else {
      assert events[|events| - 1].id == Some(n);
    }
  }

  // ---- The handle ----

  /** The packet size in use is within the handle's own limit. */
  predicate Limited(p: Party) {
    MINIMUM_MTU <= p.mtuTxMax && p.mtuTx <= p.mtuTxMax
  }

  /** What a handle keeps from one step to the next. */
  predicate Life(p: Party) {
    Orderly(p.events, p.released, p.nextId, IdOf(p.current)) && Limited(p)
  }

  predicate LinkErrorIn(events: seq<Event>) {
    exists i | 0 <= i < |events| :: events[i].kind.EvLinkErr?
  }

  /** Idle without an object, or busy with one; a client never waits in the server's state
      of sending a response. */
  predicate Settled(p: Party) {
    && (p.state.Idle? <==> p.current.None?)
    && !p.state.Starting?
    && (p.state.Idle? || p.state.Responding? ==> p.serverMode)
  }

  predicate Good(p: Party) {
    p.fault || (Life(p) && (LinkErrorIn(p.events) || Settled(p)))
  }

  lemma DeliverLife(p: Party, kind: EventKind, cmd: nat, rsp: nat)
    requires Life(p)
    ensures Terminal(kind) ==> Life(Deliver(p, kind, cmd, rsp, true))
    ensures !Terminal(kind) && p.current.Some? ==> Life(Deliver(p, kind, cmd, rsp, false))
    ensures kind.EvLinkErr? ==> LinkErrorIn(Deliver(p, kind, cmd, rsp, true).events)
  {
    hide Orderly;
    var e := EventOf(p, kind, cmd, rsp);
    if Terminal(kind) && p.current.Some? {
      OrderlyEnd(p.events, p.released, p.nextId, IdOf(p.current), e);
    } else {
      OrderlyNote(p.events, p.released, p.nextId, IdOf(p.current), e);
    }
    assert (p.events + [e])[|p.events|] == e;
    if p.current.Some? { DeliverKeeps(p, kind, cmd, rsp); }
  }

  lemma SendLife(p: Party, allowFinal: bool, forceFinal: bool)
    requires Life(p) && p.current.Some?
    ensures Life(SendObject(p, allowFinal, forceFinal).0)
  {
    hide Orderly, SendObject;
    SendKeeps(p, allowFinal, forceFinal);
    var p' := SendObject(p, allowFinal, forceFinal).0;
    OrderlyAdds(p.events, p'.events, p.released, p.nextId, IdOf(p.current), EvStreamEmpty);
  }

  lemma ReceiveLife(p: Party, packet: seq<byte>)
    requires Life(p) && p.current.Some?
    ensures Life(Receive(p, packet).0)
  {
    hide Orderly, Receive;
    ReceiveReceives(p, packet);
    var p' := Receive(p, packet).0;
    OrderlyAdds(p.events, p'.events, p.released, p.nextId, IdOf(p.current), EvStreamAvail);
  }

  lemma FinishGood(p: Party, rsp: byte, kind: EventKind, evRsp: nat)
    requires Life(p) && Terminal(kind)
    ensures Good(Finish(p, rsp, kind, evRsp))
  {
    hide Orderly;
    if p.current.Some? {
      DeliverLife(ServerIdle(Respond(p, rsp)), kind, p.current.value.opcode, evRsp);
    }
  }

  lemma ServerReplyGood(p: Party, cmd: byte)
    requires Life(p) && p.current.Some? && p.serverMode && (p.state.Responding? || p.state.Receiving?)
    ensures Good(ServerReply(p, cmd))
  {
    hide Orderly, SendObject, EventOf, ApplyAll;
    var p0 := Update(p, p.current.value.(continueReceived := true));
    SendKeeps(p0, true, true);
    SendLife(p0, true, true);
    var (p1, sent) := SendObject(p0, true, true);
    match sent
    case SendMore =>
      DeliverLife(p1, EvProgress, cmd, 0);
      DeliverKeeps(p1, EvProgress, cmd, 0);
    case SendError => DeliverLife(p1, EvLinkErr, cmd, 0);
    case SendDone =>
      var p2 := if cmd == DISCONNECT then p1.(mtuTx := MINIMUM_MTU) else p1;
      DeliverLife(ServerIdle(p2), EvReqDone, cmd, 0);
  }

  lemma ServerRespondGood(p: Party, packet: seq<byte>, cmd: byte, length: nat)
    requires Life(p) && p.serverMode && (p.state.Responding? || p.state.Receiving?)
    ensures Good(ServerRespond(p, packet, cmd, length))
  {
    hide Orderly, Receive, Finish, ServerReply;
    if p.current.None? {
    } else if cmd == ABORT {
      FinishGood(p, SUCCESS, EvAbort, cmd);
    } else if length <= 3 {
      ServerReplyGood(p, cmd);
    } else if cmd == CONNECT {
      FinishGood(p, BAD_REQUEST, EvParseErr, 0);
    } else {
      ReceiveReceives(p, packet);
      ReceiveLife(p, packet);
      var p1 := Receive(p, packet).0;
      FinishGood(p1, BAD_REQUEST, EvParseErr, 0);
      DeliverKeeps(p1, EvUnexpected, p1.current.value.opcode, 0);
      DeliverLife(p1, EvUnexpected, p1.current.value.opcode, 0);
      ServerReplyGood(DeliverOwn(p1, EvUnexpected, 0, false), cmd);
    }
  }

  lemma ServerRequestGood(p: Party, packet: seq<byte>, cmd: byte, deny: bool)
    requires Life(p) && p.current.Some? && p.serverMode && p.state.Receiving? && |packet| >= 3
    ensures Good(ServerRequest(p, packet, cmd, deny))
  {
    hide Orderly, ServerRespond;
    if p.current.value.firstSent {
      ServerRespondGood(p, [], cmd, Read16(packet, 1));
    } else {
      var p1 := if cmd == CONNECT then Update(p, p.current.value.(nonHeader := Some(ConnectFrame(p.mtuRx)))) else p;
      DeliverLife(p1, EvReq, cmd, 0);
      DeliverKeeps(p1, EvReq, cmd, 0);
      var p2 := if deny then p1 else Deliver(p1, EvReq, cmd, 0, false);
      ServerRespondGood(p2.(state := Responding, serverMode := true), [], cmd, 3);
    }
  }

  lemma ServerMoreGood(p: Party, packet: seq<byte>, cmd: byte)
    requires Life(p) && p.current.Some? && p.serverMode && p.state.Receiving? && |packet| >= 3
    ensures Good(ServerMore(p, packet, cmd))
  {
    hide Orderly, SendObject, ServerRequest;
    if !Accepting(p.current.value.opcode) {
      ServerRequestGood(p, packet, cmd, true);
    } else {
      SendKeeps(p, false, true);
      SendLife(p, false, true);
      var (p1, sent) := SendObject(p, false, true);
      DeliverLife(p1, if sent.SendError? then EvLinkErr else EvProgress, cmd, 0);
      DeliverKeeps(p1, EvProgress, cmd, 0);
    }
  }

  lemma CheckedLife(p: Party, cmd: byte)
    requires Life(p) && p.current.Some?
    ensures Life(Checked(p, cmd)) && SameHandle(p, Checked(p, cmd))
  {
    hide Orderly;
    DeliverLife(p, EvReqCheck, cmd, 0);
    DeliverKeeps(p, EvReqCheck, cmd, 0);
  }

  lemma ServerReceiveGood(p: Party, packet: seq<byte>)
    requires Life(p) && p.serverMode && p.state.Receiving? && |packet| >= 3
    ensures Good(ServerReceive(p, packet))
  {
    hide Orderly, Receive, Finish, ServerRequest, Checked, ServerMore;
    var cmd := ClearFinal(packet[0]);
    if p.current.Some? {
      FinishGood(p, SUCCESS, EvAbort, cmd);
      FinishGood(p, BAD_REQUEST, EvParseErr, cmd);
      ReceiveReceives(p, packet);
      ReceiveLife(p, packet);
      var p1 := Receive(p, packet).0;
      FinishGood(p1, BAD_REQUEST, EvParseErr, 0);
      ServerRequestGood(p1, packet, cmd, false);
      CheckedLife(p1, cmd);
      ServerMoreGood(Checked(p1, cmd), packet, cmd);
    }
  }

  lemma ServerOpenGood(p: Party, packet: seq<byte>)
    requires Life(p) && p.current.None? && p.serverMode && p.state.Idle? && |packet| >= 3
    ensures Good(ServerOpen(p, packet))
  {
    hide Orderly, ServerReceive;
    var cmd := ClearFinal(packet[0]);
    var p0 := p.(current := Some(NewObject(p.nextId).(cmd := cmd)), nextId := p.nextId + 1);
    OrderlyBirth(p.events, p.released, p.nextId);
    DeliverLife(p0, EvReqHint, cmd, 0);
    DeliverKeeps(p0, EvReqHint, cmd, 0);
    var p1 := Deliver(p0, EvReqHint, cmd, 0, false);
    if cmd == CONNECT {
      match ParseConnect(p1, packet)
      case None =>
        DeliverLife(Respond(p1, BAD_REQUEST), EvParseErr, p1.current.value.opcode, 0);
      case Some(p2) => ServerReceiveGood(Opened(p2, 4), packet);
    } else if cmd == SETPATH {
      ServerReceiveGood(Opened(p1, 2), packet);
    } else {
      ServerReceiveGood(p1.(state := Receiving, serverMode := true), packet);
    }
  }

  lemma ServerStepGood(p: Party, packet: seq<byte>)
    requires Life(p) && Settled(p) && p.serverMode && |packet| >= 3
    ensures Good(ServerStep(p, packet))
  {
    hide Orderly, ServerReceive, ServerRespond, ServerOpen;
    match p.state
    case Idle => ServerOpenGood(p, packet);
    case Receiving => ServerReceiveGood(p, packet);
    case Responding => ServerRespondGood(p, packet, ClearFinal(packet[0]), Read16(packet, 1));
    case Starting =>
  }

  lemma ClientStartGood(p: Party, rsp: byte)
    requires Life(p) && p.current.Some?
    ensures Good(ClientStart(p, rsp))
  {
    hide Orderly, SendObject;
    SendKeeps(p, true, false);
    SendLife(p, true, false);
    var (p1, sent) := SendObject(p, true, false);
    if sent.SendError? {
      DeliverLife(p1.(state := Idle, serverMode := false), EvLinkErr, p1.current.value.opcode, 0);
    } else {
      var p2 := Update(p1, p1.current.value.(firstSent := true));
      DeliverLife(p2, EvProgress, p2.current.value.opcode, 0);
      DeliverKeeps(p2, EvProgress, p2.current.value.opcode, 0);
    }
  }

  lemma ClientContinueGood(p: Party)
    requires Life(p) && p.current.Some? && p.state.Receiving? && !p.serverMode
    ensures Good(ClientContinue(p))
  {
    hide Orderly, SendObject;
    var p0 := Update(p, p.current.value.(continueReceived := true));
    if !p.current.value.abort {
      SendKeeps(p0, true, false);
      SendLife(p0, true, false);
      var (p1, sent) := SendObject(p0, true, false);
      DeliverLife(p1, if sent.SendError? then EvLinkErr else EvProgress, p1.current.value.opcode, 0);
      DeliverKeeps(p1, EvProgress, p1.current.value.opcode, 0);
    }
  }

  lemma ClientHeadersGood(p: Party, packet: seq<byte>, rsp: byte)
    requires Life(p) && p.current.Some? && p.state.Receiving? && !p.serverMode && |packet| >= 3
    ensures Good(ClientHeaders(p, packet, rsp))
  {
    hide Orderly, Receive, ClientContinue;
    ReceiveReceives(p, packet);
    ReceiveLife(p, packet);
    var p1 := Receive(p, packet).0;
    var kind := if !p1.current.value.abort then EvReqDone else if rsp == SUCCESS then EvAbort else EvLinkErr;
    DeliverLife(ServerIdle(p1), EvParseErr, p1.current.value.opcode, 0);
    DeliverLife(ServerIdle(p1), kind, p1.current.value.opcode, rsp);
    ClientContinueGood(p1);
  }

  lemma ClientReceiveGood(p: Party, packet: seq<byte>, rsp: byte)
    requires Life(p) && p.current.Some? && p.state.Receiving? && !p.serverMode && |packet| >= 3
    ensures Good(ClientReceive(p, packet, rsp))
  {
    hide Orderly, ClientHeaders;
    if p.current.value.opcode == CONNECT {
      match ParseConnect(p, packet)
      case None => DeliverLife(ServerIdle(p), EvParseErr, p.current.value.opcode, 0);
      case Some(p1) => ClientHeadersGood(Update(p1, p1.current.value.(headerOffset := 4)), packet, rsp);
    } else if p.current.value.opcode == DISCONNECT {
      ClientHeadersGood(p.(mtuTx := MINIMUM_MTU), packet, rsp);
    } else {
      ClientHeadersGood(p, packet, rsp);
    }
  }

  // ---- Whole runs ----

  /** What may happen to a handle between two returns to the application. */
  datatype Input =
    | Begins(size: nat)
    | Arrives(packet: seq<byte>)
    | Asks(cmd: byte, calls: seq<ApiCall>)
    | Cancels
    | Breaks

  function Handle(p: Party, i: Input): Party {
    match i
    case Begins(size) => Begin(p, size)
    case Arrives(packet) => if |packet| >= 3 then Indicate(p, packet) else p
    case Asks(cmd, calls) => Request(p, BuildRequest(p, cmd, calls))
    case Cancels => CancelNicely(p)
    case Breaks => LinkDown(p)
  }

  lemma HandleGood(p: Party, i: Input)
    requires !p.fault && Life(p) && Settled(p)
    ensures Good(Handle(p, i))
  {
    hide Orderly, ServerStep, ClientReceive, ClientStart;
    match i
    case Begins(size) =>
    case Arrives(packet) =>
      if |packet| >= 3 {
        if p.serverMode {
          ServerStepGood(p, packet);
        } else {
          ClientReceiveGood(p, packet, ClearFinal(packet[0]));
        }
      }
    case Asks(cmd, calls) =>
      if p.current.None? {
        var o := BuildRequest(p, cmd, calls);
        OrderlyBirth(p.events, p.released, p.nextId);
        ClientStartGood(p.(current := Some(o.(id := p.nextId)), nextId := p.nextId + 1,
                           state := Starting, serverMode := false), BAD_REQUEST);
      }
    case Cancels =>
    case Breaks => DeliverLife(p, EvLinkErr, 0, 0);
  }

  /** A fresh handle, before anything has happened. */
  predicate Fresh(p: Party) {
    && p.state.Idle? && p.serverMode && p.current.None? && !p.fault
    && p.events == [] && p.released == [] && p.nextId == 0 && p.out == [] && Limited(p)
  }

  /** A run, which ends when the link is lost. */
  function Run(p: Party, inputs: seq<Input>): Party
    decreases |inputs|
  {
    if inputs == [] then p
    else
      var before := Run(p, inputs[..|inputs| - 1]);
      if before.fault || LinkErrorIn(before.events) then before else Handle(before, inputs[|inputs| - 1])
  }

  /** Object lifetime, idleness and the limit on the packet size, at every point of every run. */
  lemma {:induction false} LifetimeTheorem(p: Party, inputs: seq<Input>)
    requires Fresh(p)
    ensures var q := Run(p, inputs);
            q.fault || (Life(q) && (LinkErrorIn(q.events) || Settled(q)))
    decreases |inputs|
  {
    if inputs == [] {
      assert TerminalIds([]) == [];
    } else {
      LifetimeTheorem(p, inputs[..|inputs| - 1]);
      var before := Run(p, inputs[..|inputs| - 1]);
      if !before.fault && !LinkErrorIn(before.events) {
        HandleGood(before, inputs[|inputs| - 1]);
      }
    }
  }
}
