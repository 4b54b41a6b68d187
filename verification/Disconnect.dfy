/** After a DISCONNECT both ends are back at the smallest packet size. */
module Disconnect {
  import opened Octets
  import opened Framing
  import opened Session
  import opened SessionFacts
  import opened Lifetime
  import opened Lockstep
  import opened PutRun
  import opened ClientReports

  // ---- The server ----

  /** No request has been answered whole since then. */
  predicate NoneDone(events: seq<Event>, n: nat) {
    forall i :: n <= i < |events| ==> !events[i].kind.EvReqDone?
  }

  /** Nothing answered whole, and the packet size as it was. */
  predicate Meanwhile(p: Party, p': Party) {
    p.events <= p'.events && NoneDone(p'.events, |p.events|) && p'.mtuTx == p.mtuTx
  }

  /** Once a request has been answered whole, the packet size is the smallest there is, and the
      handle at rest; and a handle at that size stays there. */
  predicate Resets(p: Party, p': Party) {
    && p.events <= p'.events
    && (NoneDone(p'.events, |p.events|) || (p'.mtuTx == 255 && AtRest(p')))
    && (p.mtuTx == 255 ==> p'.mtuTx == 255)
  }

  lemma ResetsLater(p: Party, p1: Party, p2: Party)
    requires Meanwhile(p, p1) && Resets(p1, p2)
    ensures Resets(p, p2)
  {
    if NoneDone(p2.events, |p1.events|) {
      forall i | |p.events| <= i < |p2.events| ensures !p2.events[i].kind.EvReqDone? {
        if i < |p1.events| { assert p2.events[i] == p1.events[i]; }
      }
    }
  }

  lemma MeanwhileResets(p: Party, p': Party)
    requires Meanwhile(p, p')
    ensures Resets(p, p')
  {
  }

  lemma AddsMeanwhile(p: Party, p': Party, kind: EventKind, id: Option<nat>)
    requires Adds(p.events, p'.events, kind, id) && !kind.EvReqDone? && p'.mtuTx == p.mtuTx
    ensures Meanwhile(p, p')
  {
  }

  lemma DeliverMeanwhile(p: Party, kind: EventKind, cmd: nat, rsp: nat, delete: bool)
    requires !kind.EvReqDone?
    ensures Meanwhile(p, Deliver(p, kind, cmd, rsp, delete))
    ensures p.current.Some? && !delete ==> Deliver(p, kind, cmd, rsp, delete).current.Some?
  {
    hide ApplyAll;
  }

  lemma FinishResets(p: Party, rsp: byte, kind: EventKind, evRsp: nat)
    requires !kind.EvReqDone?
    ensures Resets(p, Finish(p, rsp, kind, evRsp))
  {
    hide Deliver;
    if p.current.Some? {
      DeliverMeanwhile(ServerIdle(Respond(p, rsp)), kind, p.current.value.opcode, evRsp, true);
    }
  }

  lemma ReplyResets(p: Party)
    requires p.current.Some?
    ensures Resets(p, ServerReply(p, 0x01))
  {
    hide SendObject, Deliver, Resets, Meanwhile;
    var p0 := Update(p, p.current.value.(continueReceived := true));
    SendKeeps(p0, true, true);
    var (p1, sent) := SendObject(p0, true, true);
    AddsMeanwhile(p, p1, EvStreamEmpty, IdOf(p.current));
    MeanwhileResets(p, p1);
    DeliverMeanwhile(p1, EvLinkErr, 0x01, 0, true);
    DeliverMeanwhile(p1, EvProgress, 0x01, 0, false);
    if !p1.fault {
      if sent.SendDone? {
        DoneResets(p1);
      } else {
        MeanwhileUpdated(p1, sent.SendError?);
      }
      ResetsLater(p, p1, ServerReply(p, 0x01));
    }
  }

  lemma MeanwhileUpdated(p: Party, lost: bool)
    requires p.current.Some?
    ensures lost ==> Resets(p, Deliver(p, EvLinkErr, 0x01, 0, true))
    ensures var p' := Deliver(p, EvProgress, 0x01, 0, false);
            p'.current.Some? && Resets(p, Update(p', p'.current.value.(firstSent := true, continueReceived := false)))
  {
    hide Deliver;
    DeliverMeanwhile(p, EvLinkErr, 0x01, 0, true);
    DeliverMeanwhile(p, EvProgress, 0x01, 0, false);
  }

  lemma DoneResets(p: Party)
    requires p.current.Some?
    ensures Resets(p, Deliver(ServerIdle(p.(mtuTx := MINIMUM_MTU)), EvReqDone, 0x01, 0, true))
  {
  }

  lemma RespondResets(p: Party, packet: seq<byte>, length: nat)
    ensures Resets(p, ServerRespond(p, packet, 0x01, length))
  {
    hide Receive, Finish, ServerReply, Deliver, Resets, Meanwhile;
    if p.current.None? {
      Same(p, p.(fault := true));
    } else {
      ReplyResets(p);
      ReceiveReceives(p, packet);
      var p1 := Receive(p, packet).0;
      AddsMeanwhile(p, p1, EvStreamAvail, IdOf(p.current));
      FinishResets(p1, BAD_REQUEST, EvParseErr, 0);
      Same(p1, p1.(fault := true));
      DeliverMeanwhile(p1, EvUnexpected, p1.current.value.opcode, 0, false);
      var p2 := DeliverOwn(p1, EvUnexpected, 0, false);
      ReplyResets(p2);
      ResetsLater(p1, p2, ServerReply(p2, 0x01));
      if length > 3 { ResetsLater(p, p1, ServerRespond(p, packet, 0x01, length)); }
    }
  }

  lemma Same(p: Party, p': Party)
    requires p'.events == p.events && p'.mtuTx == p.mtuTx
    ensures Resets(p, p') && Meanwhile(p, p')
  {
  }

  lemma RequestResets(p: Party, packet: seq<byte>, deny: bool)
    requires p.current.Some? && |packet| >= 3
    ensures Resets(p, ServerRequest(p, packet, 0x01, deny))
  {
    hide ServerRespond, Deliver, Resets, Meanwhile;
    RespondResets(p, [], Read16(packet, 1));
    DeliverMeanwhile(p, EvReq, 0x01, 0, false);
    Same(p, p);
    var p1 := if deny then p else Deliver(p, EvReq, 0x01, 0, false);
    var p2 := p1.(state := Responding, serverMode := true);
    RespondResets(p2, [], 3);
    MeanwhileSince(p, p1, p2);
    ResetsLater(p, p2, ServerRespond(p2, [], 0x01, 3));
  }

  lemma MeanwhileSince(p: Party, p1: Party, p2: Party)
    requires Meanwhile(p, p1) && p2.events == p1.events && p2.mtuTx == p1.mtuTx
    ensures Meanwhile(p, p2)
  {
  }

  lemma MoreResets(p: Party, packet: seq<byte>)
    requires p.current.Some? && |packet| >= 3
    ensures Resets(p, ServerMore(p, packet, 0x01))
  {
    hide SendObject, ServerRequest, Deliver, Resets, Meanwhile;
    RequestResets(p, packet, true);
    SendKeeps(p, false, true);
    var p1 := SendObject(p, false, true).0;
    AddsMeanwhile(p, p1, EvStreamEmpty, IdOf(p.current));
    MeanwhileResets(p, p1);
    DeliverMeanwhile(p1, EvLinkErr, 0x01, 0, true);
    DeliverMeanwhile(p1, EvProgress, 0x01, 0, false);
    MeanwhileResets(p1, Deliver(p1, EvLinkErr, 0x01, 0, true));
    MeanwhileResets(p1, Deliver(p1, EvProgress, 0x01, 0, false));
    if Accepting(p.current.value.opcode) && !p1.fault { ResetsLater(p, p1, ServerMore(p, packet, 0x01)); }
  }

  lemma ReceivingResets(p: Party, packet: seq<byte>)
    requires |packet| >= 3 && ClearFinal(packet[0]) == 0x01
    ensures Resets(p, ServerReceive(p, packet))
  {
    hide Receive, Finish, ServerRequest, ServerMore, Checked, Resets, Meanwhile;
    if p.current.None? {
      Same(p, p.(fault := true));
    } else {
      FinishResets(p, BAD_REQUEST, EvParseErr, 0x01);
      ReceiveReceives(p, packet);
      var p1 := Receive(p, packet).0;
      AddsMeanwhile(p, p1, EvStreamAvail, IdOf(p.current));
      Same(p1, p1.(fault := true));
      FinishResets(p1, BAD_REQUEST, EvParseErr, 0);
      RequestResets(p1, packet, false);
      CheckedMeanwhile(p1);
      MoreResets(Checked(p1, 0x01), packet);
      ResetsLater(p1, Checked(p1, 0x01), ServerMore(Checked(p1, 0x01), packet, 0x01));
      if p.current.value.cmd == 0x01 { ResetsLater(p, p1, ServerReceive(p, packet)); }
    }
  }

  lemma CheckedMeanwhile(p: Party)
    requires p.current.Some?
    ensures Meanwhile(p, Checked(p, 0x01))
  {
    hide Deliver;
    DeliverMeanwhile(p, EvReqCheck, 0x01, 0, false);
  }

  /** A server that has sent the last packet of its answer to a DISCONNECT is at rest, and its
      packet size the smallest there is: whatever its application does, in whatever state the
      packet that asks for the answer, or for the rest of it, finds it. */
  lemma ServerResets(p: Party, packet: seq<byte>)
    requires |packet| >= 3 && packet[0] % 0x80 == 0x01
    ensures Resets(p, ServerStep(p, packet))
  {
    hide ServerReceive, ServerRespond, Deliver, Resets, Meanwhile;
    match p.state
    case Idle =>
      if p.current.Some? {
        Same(p, Respond(p, INTERNAL_SERVER_ERROR));
      } else {
        var p0 := p.(current := Some(NewObject(p.nextId).(cmd := 0x01)), nextId := p.nextId + 1);
        DeliverMeanwhile(p0, EvReqHint, 0x01, 0, false);
        var p1 := Deliver(p0, EvReqHint, 0x01, 0, false).(state := Receiving, serverMode := true);
        MeanwhileSince(p0, Deliver(p0, EvReqHint, 0x01, 0, false), p1);
        ReceivingResets(p1, packet);
        ResetsLater(p0, p1, ServerReceive(p1, packet));
        ResetsFrom(p, p0, ServerReceive(p1, packet));
        assert ServerStep(p, packet) == ServerReceive(p1, packet);
      }
    case Receiving => ReceivingResets(p, packet);
    case Responding => RespondResets(p, packet, Read16(packet, 1));
    case Starting =>
      var p1 := Respond(p, BAD_REQUEST);
      DeliverMeanwhile(p1, EvParseErr, 0x01, 0, true);
      MeanwhileResets(p1, Deliver(p1, EvParseErr, 0x01, 0, true));
      ResetsFrom(p, p1, ServerStep(p, packet));
  }

  lemma ResetsFrom(p: Party, p0: Party, p': Party)
    requires Resets(p0, p') && p0.events == p.events && p0.mtuTx == p.mtuTx
    ensures Resets(p, p')
  {
  }

  // ---- The client ----

  lemma SizeKept(p: Party, packet: seq<byte>, rsp: byte)
    requires |packet| >= 3 && p.current.Some?
    ensures ClientHeaders(p, packet, rsp).mtuTx == p.mtuTx
  {
    hide Receive, SendObject, Deliver;
    ReceiveReceives(p, packet);
    var p1 := Receive(p, packet).0;
    DeliverMeanwhile(ServerIdle(p1), EvParseErr, p1.current.value.opcode, 0, true);
    var kind := if !p1.current.value.abort then EvReqDone else if rsp == SUCCESS then EvAbort else EvLinkErr;
    DeliverOut(ServerIdle(p1), kind, p1.current.value.opcode, rsp, true);
    var p2 := Update(p1, p1.current.value.(continueReceived := true));
    SendKeeps(p2, true, false);
    var p3 := SendObject(p2, true, false).0;
    DeliverOut(p3, EvLinkErr, p3.current.value.opcode, 0, true);
    DeliverOut(p3, EvProgress, p3.current.value.opcode, 0, false);
    DeliverKeeps(p3, EvProgress, p3.current.value.opcode, 0);
  }

  /** A client that waits for the answer to a DISCONNECT has the smallest packet size there is
      after any packet, the first of the answer already. */
  lemma ClientResets(p: Party, packet: seq<byte>)
    requires !p.serverMode && p.state.Receiving? && p.current.Some? && p.current.value.opcode == 0x01
    requires |packet| >= 3
    ensures ClientStep(p, Some(packet)).mtuTx == 255
  {
    hide ClientHeaders;
    SizeKept(p.(mtuTx := MINIMUM_MTU), packet, ClearFinal(packet[0]));
  }

  // ---- What a client puts out ----

  /** Every packet put out in between carries this command. */
  predicate Naming(p: Party, p': Party, cmd: byte) {
    && |p.out| <= |p'.out|
    && forall i :: |p.out| <= i < |p'.out| ==> |p'.out[i]| >= 3 && ClearFinal(p'.out[i][0]) == ClearFinal(cmd)
  }

  lemma SendNames(p: Party, id: nat, cmd: byte)
    requires Own(p, id, cmd)
    ensures Naming(p, SendObject(p, true, false).0, cmd)
  {
    hide SendObject, Packed, PacketPayload, LeavesCommands;
    SendKeeps(p, true, false);
    var packet := PacketOf(p, true, false);
    assert packet[0] == PacketOpcode(p.current.value, Packed(p).queue, true, false);
  }

  lemma StartNames(p: Party, id: nat, cmd: byte)
    requires Own(p, id, cmd)
    ensures Naming(p, ClientStart(p, BAD_REQUEST), cmd) && !ClientStart(p, BAD_REQUEST).serverMode
  {
    hide SendObject, Deliver, LeavesCommands;
    SendKeeps(p, true, false);
    SendNames(p, id, cmd);
    var p1 := SendObject(p, true, false).0;
    DeliverOut(p1.(state := Idle, serverMode := false), EvLinkErr, p1.current.value.opcode, 0, true);
    var p2 := Update(p1, p1.current.value.(firstSent := true));
    DeliverOut(p2, EvProgress, p2.current.value.opcode, 0, false);
  }

  lemma ContinueNames(p: Party, id: nat, cmd: byte)
    requires Own(p, id, cmd)
    ensures Naming(p, ClientContinue(p), cmd)
  {
    hide SendObject, Deliver, LeavesCommands;
    var p0 := Update(p, p.current.value.(continueReceived := true));
    SendKeeps(p0, true, false);
    SendNames(p0, id, cmd);
    var p1 := SendObject(p0, true, false).0;
    DeliverOut(p1, EvLinkErr, p1.current.value.opcode, 0, true);
    DeliverOut(p1, EvProgress, p1.current.value.opcode, 0, false);
    DeliverKeeps(p1, EvProgress, p1.current.value.opcode, 0);
  }

  lemma HeadersName(p: Party, packet: seq<byte>, rsp: byte, id: nat, cmd: byte)
    requires Own(p, id, cmd) && |packet| >= 3
    ensures Naming(p, ClientHeaders(p, packet, rsp), cmd)
  {
    hide Receive, ClientContinue, Deliver, LeavesCommands, Utters;
    ReceiveReceives(p, packet);
    ReceiveGoes(p, packet, id, cmd, rsp);
    var p1 := Receive(p, packet).0;
    ContinueNames(p1, id, cmd);
    DeliverOut(ServerIdle(p1), EvParseErr, p1.current.value.opcode, 0, true);
    var kind := if !p1.current.value.abort then EvReqDone else if rsp == SUCCESS then EvAbort else EvLinkErr;
    DeliverOut(ServerIdle(p1), kind, p1.current.value.opcode, rsp, true);
  }

  // ---- Both together ----

  /** The client waits for the answer to its DISCONNECT, or has had it. */
  predicate Leaving(c: Party, id: nat) {
    && c.linkFaults == [] && !c.fault
    && ((Waiting(c) && Own(c, id, 0x01)) || (AtRest(c) && c.mtuTx == 255))
  }

  /** The server has not answered it whole, or is at the smallest packet size. */
  predicate Left(s: Party, n: nat) {
    && s.serverMode && s.linkFaults == [] && !s.fault
    && n <= |s.events| && (NoneDone(s.events, n) || s.mtuTx == 255)
  }

  /** While the client waits one packet is under way, and the server is only sent DISCONNECTs. */
  predicate Parting(w: World, id: nat, n: nat) {
    && Leaving(w.client, id) && Left(w.server, n)
    && if AtRest(w.client) then Silent(w)
       else (WholePacket(w.up) && w.up[0] % 0x80 == 0x01 && w.down == []) || (w.up == [] && WholePacket(w.down))
  }

  lemma LeftStays(s: Party, s': Party, n: nat)
    requires Left(s, n) && Resets(s, s') && s'.serverMode && s'.linkFaults == [] && !s'.fault
    ensures Left(s', n)
  {
    if NoneDone(s.events, n) && NoneDone(s'.events, |s.events|) {
      forall i | n <= i < |s'.events| ensures !s'.events[i].kind.EvReqDone? {
        if i < |s.events| { assert s'.events[i] == s.events[i]; }
      }
    }
  }

  lemma ServerParts(w: World, id: nat, n: nat)
    requires !Over(w) && Parting(w, id, n)
    ensures var w' := Play(w, ServerTurn); Over(w') || Parting(w', id, n)
  {
    hide ServerStep, LinkErrorIn, Oversized, WholePacket, Leaving, NoneDone, Resets;
    NothingToTake(w);
    if WholePacket(w.up) {
      WholeSize(w.up);
      TurnTreats(w, w.up);
      ServerStepAnswers(w.server, w.up);
      ServerResets(w.server, w.up);
      var w' := Play(w, ServerTurn);
      if !Over(w') {
        LastWhole(w.server, w'.server);
        LeftStays(w.server, w'.server, n);
        assert w'.down == w'.server.out[|w.server.out|];
      }
    }
  }

  lemma ClientParts(w: World, id: nat, n: nat)
    requires !Over(w) && Parting(w, id, n)
    ensures var w' := Play(w, ClientTurn); Over(w') || Parting(w', id, n)
  {
    hide ClientStep, LinkErrorIn, Oversized, WholePacket, NoneDone, Own, Left, Naming;
    NothingToTake(w);
    if w.down != [] {
      WholeSize(w.down);
      TurnTreats(w, w.down);
      var w' := Play(w, ClientTurn);
      if Session.Holding(w.client, w.down) {
        ClientLeaves(w.client, w.down, id);
        ClientParted(w, w', id, n);
      }
    }
  }

  /** The client has gone on, or is done. */
  predicate WentOn(p: Party, p': Party, id: nat) {
    && Proceeded(p, p') && Naming(p, p', 0x01)
    && (p'.fault || LinkErrorIn(p'.events) || (Waiting(p') && Own(p', id, 0x01)) || (AtRest(p') && p'.mtuTx == 255))
  }

  lemma ClientLeaves(p: Party, packet: seq<byte>, id: nat)
    requires Waiting(p) && Own(p, id, 0x01) && p.linkFaults == [] && |packet| >= 3
    ensures WentOn(p, ClientStep(p, Some(packet)), id)
  {
    hide ClientHeaders, LinkErrorIn, LeavesCommands, Utters, Naming;
    var rsp := ClearFinal(packet[0]);
    ClientReceiveProceeds(p, packet, rsp);
    ClientResets(p, packet);
    ReceiveMoves(p, packet, id, 0x01);
    HeadersName(p.(mtuTx := MINIMUM_MTU), packet, rsp, id, 0x01);
    NamedSame(p, p.(mtuTx := MINIMUM_MTU), ClientStep(p, Some(packet)));
  }

  lemma NamedSame(p: Party, p0: Party, p': Party)
    requires p0.out == p.out && Naming(p0, p', 0x01)
    ensures Naming(p, p', 0x01)
  {
  }

  lemma ClientParted(w: World, w': World, id: nat, n: nat)
    requires Parting(w, id, n) && WentOn(w.client, w'.client, id)
    requires w' == w.(client := w'.client, up := Sent(w.client, w'.client), down := [])
    ensures Over(w') || Parting(w', id, n)
  {
    hide LinkErrorIn, Oversized, WholePacket, NoneDone, Own, Left;
    if !Over(w') {
      if Waiting(w'.client) {
        LastWhole(w.client, w'.client);
      } else {
        SentNone(w.client, w'.client);
      }
    }
  }

  /** What is read beforehand makes no difference. */
  lemma ReadsPart(w: World, id: nat, n: nat)
    requires Parting(w, id, n)
    ensures Parting(Play(w, ServerReads), id, n) && Parting(Play(w, ClientReads), id, n)
  {
    hide WholePacket, LeavesCommands;
  }

  /** Nor do calls that leave the command alone. */
  lemma CallsPart(w: World, id: nat, n: nat, calls: seq<ApiCall>)
    requires Parting(w, id, n) && LeavesCommand(calls)
    ensures Parting(Play(w, ClientCalls(calls)), id, n)
  {
    hide WholePacket, ApplyAll, LeavesCommands;
    if w.client.current.Some? {
      CommandLeft(w.client.current.value, w.client.mtuTx, calls);
      ApplyAllKeeps(w.client.current.value, w.client.mtuTx, calls);
    }
  }

  lemma DisconnectStarts(w: World, calls: seq<ApiCall>)
    requires Resting(w) && LeavesCommand(calls) && LeavesCommands(w.client.script)
    ensures var w' := Play(w, Start(DISCONNECT, calls));
            Over(w') || Parting(w', w.client.nextId, |w.server.events|)
  {
    hide ClientStart, BuildRequest, LinkErrorIn, Oversized, WholePacket, LeavesCommands, Naming, Utters, Closes;
    var p := Asking(w.client, DISCONNECT, calls);
    RequestNotAborted(w.client, DISCONNECT, calls);
    BuiltOpcode(w.client, calls);
    ClientStartProceeds(p, BAD_REQUEST);
    StartMoves(p, BAD_REQUEST, w.client.nextId, DISCONNECT, 0);
    StartNames(p, w.client.nextId, DISCONNECT);
    var w' := Play(w, Start(DISCONNECT, calls));
    assert w'.client == ClientStart(p, BAD_REQUEST);
    assert w'.up == Sent(w.client, w'.client);
    if !Over(w') { StartedParting(w, p, w'); }
  }

  lemma BuiltOpcode(p: Party, calls: seq<ApiCall>)
    requires LeavesCommand(calls)
    ensures BuildRequest(p, DISCONNECT, calls).opcode == DISCONNECT
    ensures BuildRequest(p, DISCONNECT, calls).lastOpcode == SetFinal(DISCONNECT)
  {
    CommandLeft(NewRequest(DISCONNECT, p.mtuRx), p.mtuTx, calls);
  }

  lemma StartedParting(w: World, p: Party, w': World)
    requires Resting(w) && !Over(w') && p.out == w.client.out && p.serverMode == false
    requires Moved(p, w'.client, w.client.nextId, DISCONNECT, 0) && Proceeded(p, w'.client)
    requires Naming(p, w'.client, DISCONNECT)
    requires w' == w.(client := w'.client, up := Sent(w.client, w'.client)) && !AtRest(w'.client)
    ensures Parting(w', w.client.nextId, |w.server.events|)
  {
    hide LinkErrorIn, Oversized, WholePacket, LeavesCommands, Utters;
    LastWhole(w.client, w'.client);
  }

  /** Taking packets, reading on, and calls that leave the command alone. */
  predicate Ordinary(acts: seq<Act>) {
    forall i :: 0 <= i < |acts| ==> Passive(acts[i]) || (acts[i].ClientCalls? && LeavesCommand(acts[i].calls))
  }

  lemma {:induction false} PartingKeeps(w: World, id: nat, n: nat, acts: seq<Act>)
    requires (Over(w) || Parting(w, id, n)) && Ordinary(acts)
    ensures var w' := PlayAll(w, acts); Over(w') || Parting(w', id, n)
    decreases |acts|
  {
    hide Play, Over, Parting;
    if acts == [] {
    } else {
      var before := PlayAll(w, acts[..|acts| - 1]);
      PartingKeeps(w, id, n, acts[..|acts| - 1]);
      if !Over(before) {
        match acts[|acts| - 1]
        case ServerTurn => ServerParts(before, id, n);
        case ClientTurn => ClientParts(before, id, n);
        case ServerReads => ReadsPart(before, id, n);
        case ClientReads => ReadsPart(before, id, n);
        case ClientCalls(calls) => CallsPart(before, id, n, calls);
        case Start(_, _) =>
        case Cancel =>
      }
    }
  }

  /** In every run of a DISCONNECT, whatever the server's application does: a client that is done
      has the smallest packet size there is, and so has a server that has answered it whole. */
  lemma DisconnectTheorem(w: World, calls: seq<ApiCall>, acts: seq<Act>)
    requires Resting(w) && LeavesCommand(calls) && LeavesCommands(w.client.script) && Ordinary(acts)
    ensures var w' := PlayAll(Play(w, Start(DISCONNECT, calls)), acts);
            Over(w') ||
            (&& (AtRest(w'.client) ==> w'.client.mtuTx == 255)
             && |w.server.events| <= |w'.server.events|
             && (forall i :: |w.server.events| <= i < |w'.server.events| && w'.server.events[i].kind.EvReqDone? ==>
                   w'.server.mtuTx == 255))
  {
    hide Play, Over;
    DisconnectStarts(w, calls);
    PartingKeeps(Play(w, Start(DISCONNECT, calls)), w.client.nextId, |w.server.events|, acts);
  }
}
