/**
 A client and a server joined by two reliable channels. Whatever the requests, the
 applications and the order of events, the two take turns: as long as no request is
 cancelled and no link fails, at most one packet is under way.
 */
module Lockstep {
  import opened Octets
  import opened Framing
  import opened Session
  import opened SessionFacts
  import opened Lifetime
  import opened Grammar

  // ---- One packet for every packet ----

  /** One more packet has gone out, with the final bit set. */
  predicate SentFinal(before: seq<seq<byte>>, after: seq<seq<byte>>) {
    |after| == |before| + 1 && before <= after && |after[|before|]| >= 3 && Final(after[|before|][0])
  }

  /** The server has answered, unless its run is over. */
  predicate Answered(p: Party, p': Party) {
    && p'.linkFaults == [] && (p.serverMode ==> p'.serverMode) && p'.mtuRx == p.mtuRx && p'.rxRoom == p.rxRoom
    && (p'.fault || LinkErrorIn(p'.events) || SentFinal(p.out, p'.out))
  }

  lemma FinishAnswers(p: Party, rsp: byte, kind: EventKind, evRsp: nat)
    requires p.linkFaults == []
    ensures Answered(p, Finish(p, rsp, kind, evRsp))
    ensures Finish(p, rsp, kind, evRsp).mtuTx == p.mtuTx
  {
    hide Deliver;
    var packet := Frame(SetFinal(rsp), []);
    assert (p.out + [packet])[|p.out|] == packet;
    if p.current.Some? {
      DeliverOut(ServerIdle(Respond(p, rsp)), kind, p.current.value.opcode, evRsp, true);
    }
  }

  lemma DeliverOut(p: Party, kind: EventKind, cmd: nat, rsp: nat, delete: bool)
    ensures var p' := Deliver(p, kind, cmd, rsp, delete);
            && p'.out == p.out && p'.linkFaults == p.linkFaults && p'.fault == p.fault
            && (kind.EvLinkErr? ==> LinkErrorIn(p'.events))
            && (delete ==> p'.current.None?)
            && p'.state == p.state && p'.serverMode == p.serverMode && p'.mtuTx == p.mtuTx && p'.mtuRx == p.mtuRx
            && p'.rxRoom == p.rxRoom
  {
    var e := EventOf(p, kind, cmd, rsp);
    assert (p.events + [e])[|p.events|] == e;
  }

  /** With a working link a packet goes out unless the queue cannot be packed. */
  lemma SendOut(p: Party, allowFinal: bool, forceFinal: bool)
    requires p.current.Some? && p.linkFaults == []
    ensures var (p', sent) := SendObject(p, allowFinal, forceFinal);
            && p'.linkFaults == []
            && (!p'.fault && !sent.SendError? ==>
                  p'.out == p.out + [PacketOf(p, allowFinal, forceFinal)]
                  && |PacketOf(p, allowFinal, forceFinal)| >= 3
                  && (forceFinal ==> Final(PacketOf(p, allowFinal, forceFinal)[0])))
  {
  }

  lemma ServerReplyAnswers(p: Party, cmd: byte)
    requires p.current.Some? && p.linkFaults == []
    ensures Answered(p, ServerReply(p, cmd))
    ensures cmd != DISCONNECT ==> ServerReply(p, cmd).mtuTx == p.mtuTx
  {
    hide SendObject, Deliver;
    var p0 := Update(p, p.current.value.(continueReceived := true));
    SendOut(p0, true, true);
    SendKeeps(p0, true, true);
    var (p1, sent) := SendObject(p0, true, true);
    DeliverOut(p1, EvProgress, cmd, 0, false);
    DeliverKeeps(p1, EvProgress, cmd, 0);
    DeliverOut(p1, EvLinkErr, cmd, 0, true);
    DeliverOut(ServerIdle(if cmd == DISCONNECT then p1.(mtuTx := MINIMUM_MTU) else p1), EvReqDone, cmd, 0, true);
  }

  lemma ServerRespondAnswers(p: Party, packet: seq<byte>, cmd: byte, length: nat)
    requires p.linkFaults == []
    ensures Answered(p, ServerRespond(p, packet, cmd, length))
    ensures cmd != DISCONNECT ==> ServerRespond(p, packet, cmd, length).mtuTx == p.mtuTx
  {
    hide Receive, Finish, ServerReply, Deliver;
    if p.current.Some? {
      FinishAnswers(p, SUCCESS, EvAbort, cmd);
      FinishAnswers(p, BAD_REQUEST, EvParseErr, 0);
      ServerReplyAnswers(p, cmd);
      ReceiveReceives(p, packet);
      var p1 := Receive(p, packet).0;
      FinishAnswers(p1, BAD_REQUEST, EvParseErr, 0);
      DeliverOut(p1, EvUnexpected, p1.current.value.opcode, 0, false);
      DeliverKeeps(p1, EvUnexpected, p1.current.value.opcode, 0);
      ServerReplyAnswers(DeliverOwn(p1, EvUnexpected, 0, false), cmd);
    }
  }

  lemma ServerRequestAnswers(p: Party, packet: seq<byte>, cmd: byte, deny: bool)
    requires p.current.Some? && |packet| >= 3 && p.linkFaults == []
    ensures Answered(p, ServerRequest(p, packet, cmd, deny))
    ensures cmd != DISCONNECT ==> ServerRequest(p, packet, cmd, deny).mtuTx == p.mtuTx
  {
    hide ServerRespond, Deliver;
    ServerRespondAnswers(p, [], cmd, Read16(packet, 1));
    var p1 := if cmd == CONNECT then Update(p, p.current.value.(nonHeader := Some(ConnectFrame(p.mtuRx)))) else p;
    DeliverOut(p1, EvReq, cmd, 0, false);
    var p2 := if deny then p1 else Deliver(p1, EvReq, cmd, 0, false);
    ServerRespondAnswers(p2.(state := Responding, serverMode := true), [], cmd, 3);
  }

  lemma ServerMoreAnswers(p: Party, packet: seq<byte>, cmd: byte)
    requires p.current.Some? && |packet| >= 3 && p.linkFaults == []
    ensures Answered(p, ServerMore(p, packet, cmd))
    ensures cmd != DISCONNECT ==> ServerMore(p, packet, cmd).mtuTx == p.mtuTx
  {
    hide SendObject, ServerRequest, Deliver;
    ServerRequestAnswers(p, packet, cmd, true);
    SendOut(p, false, true);
    SendKeeps(p, false, true);
    var p1 := SendObject(p, false, true).0;
    DeliverOut(p1, EvLinkErr, cmd, 0, true);
    DeliverOut(p1, EvProgress, cmd, 0, false);
  }

  lemma ServerReceiveAnswers(p: Party, packet: seq<byte>)
    requires |packet| >= 3 && p.linkFaults == []
    ensures Answered(p, ServerReceive(p, packet))
    ensures ClearFinal(packet[0]) != DISCONNECT ==> ServerReceive(p, packet).mtuTx == p.mtuTx
  {
    hide Receive, Finish, ServerRequest, ServerMore, Checked, Answered;
    if p.current.None? {
      AnsweredSince(p, p, p);
    } else {
      var cmd := ClearFinal(packet[0]);
      FinishAnswers(p, SUCCESS, EvAbort, cmd);
      FinishAnswers(p, BAD_REQUEST, EvParseErr, cmd);
      ReceiveReceives(p, packet);
      var p1 := Receive(p, packet).0;
      FinishAnswers(p1, BAD_REQUEST, EvParseErr, 0);
      TakenAnswers(p1, packet, cmd);
      AnsweredSince(p, p1, ServerReceive(p, packet));
    }
  }

  /** A packet that could be read. */
  lemma TakenAnswers(p: Party, packet: seq<byte>, cmd: byte)
    requires p.current.Some? && |packet| >= 3 && p.linkFaults == []
    ensures var p' := if Final(packet[0]) then ServerRequest(p, packet, cmd, false)
                      else ServerMore(Checked(p, cmd), packet, cmd);
            Answered(p, p') && (cmd != DISCONNECT ==> p'.mtuTx == p.mtuTx)
  {
    hide ServerRequest, ServerMore, Deliver, Answered;
    if Final(packet[0]) {
      ServerRequestAnswers(p, packet, cmd, false);
    } else {
      DeliverOut(p, EvReqCheck, cmd, 0, false);
      DeliverKeeps(p, EvReqCheck, cmd, 0);
      ServerMoreAnswers(Checked(p, cmd), packet, cmd);
      AnsweredSince(p, Checked(p, cmd), ServerMore(Checked(p, cmd), packet, cmd));
    }
  }

  /** Nothing has been sent between the first two states. */
  lemma AnsweredSince(p: Party, p1: Party, p': Party)
    requires SameHandle(p, p1) && p1.out == p.out
    ensures Answered(p1, p') ==> Answered(p, p')
    ensures p.linkFaults == p1.linkFaults == [] ==> Answered(p, p1.(fault := true))
  {
  }

  lemma ServerOpenAnswers(p: Party, packet: seq<byte>)
    requires |packet| >= 3 && p.linkFaults == []
    ensures Answered(p, ServerOpen(p, packet))
    ensures var cmd := ClearFinal(packet[0]);
            cmd != DISCONNECT && cmd != CONNECT ==> ServerOpen(p, packet).mtuTx == p.mtuTx
  {
    hide ServerReceive, Deliver;
    var cmd := ClearFinal(packet[0]);
    var p0 := p.(current := Some(NewObject(p.nextId).(cmd := cmd)), nextId := p.nextId + 1);
    DeliverOut(p0, EvReqHint, cmd, 0, false);
    DeliverKeeps(p0, EvReqHint, cmd, 0);
    var p1 := Deliver(p0, EvReqHint, cmd, 0, false);
    if cmd == CONNECT {
      match ParseConnect(p1, packet)
      case None =>
        var p2 := Respond(p1, BAD_REQUEST);
        DeliverOut(p2, EvParseErr, p1.current.value.opcode, 0, true);
        assert p2.out[|p.out|] == Frame(SetFinal(BAD_REQUEST), []);
      case Some(p2) => ServerReceiveAnswers(Opened(p2, 4), packet);
    } else if cmd == SETPATH {
      ServerReceiveAnswers(Opened(p1, 2), packet);
    } else {
      ServerReceiveAnswers(p1.(state := Receiving, serverMode := true), packet);
    }
  }

  /** The server answers every packet with exactly one, whose final bit is set. Only a
      CONNECT or DISCONNECT changes the packet size. */
  lemma ServerStepAnswers(p: Party, packet: seq<byte>)
    requires |packet| >= 3 && p.linkFaults == []
    ensures Answered(p, ServerStep(p, packet))
    ensures var cmd := ClearFinal(packet[0]);
            cmd != DISCONNECT && cmd != CONNECT ==> ServerStep(p, packet).mtuTx == p.mtuTx
  {
    hide ServerReceive, ServerRespond, ServerOpen, Deliver;
    match p.state
    case Idle =>
      ServerOpenAnswers(p, packet);
      assert Respond(p, INTERNAL_SERVER_ERROR).out[|p.out|] == Frame(SetFinal(INTERNAL_SERVER_ERROR), []);
    case Receiving => ServerReceiveAnswers(p, packet);
    case Responding => ServerRespondAnswers(p, packet, ClearFinal(packet[0]), Read16(packet, 1));
    case Starting =>
      var p1 := Respond(p, BAD_REQUEST);
      DeliverOut(p1, EvParseErr, ClearFinal(packet[0]), 0, true);
      assert p1.out[|p.out|] == Frame(SetFinal(BAD_REQUEST), []);
  }

  // ---- The client's side ----

  /** Waiting for the server's answer, with no abort under way. */
  predicate Waiting(p: Party) {
    p.state.Receiving? && !p.serverMode && p.current.Some? && !p.current.value.abort
  }

  predicate AtRest(p: Party) {
    p.state.Idle? && p.serverMode && p.current.None?
  }

  /** The client has sent one packet and waits, or is done and has sent none. */
  predicate Proceeded(p: Party, p': Party) {
    && p'.linkFaults == [] && p'.mtuRx == p.mtuRx
    && (p'.fault || LinkErrorIn(p'.events) ||
        (Waiting(p') && |p'.out| == |p.out| + 1 && p.out <= p'.out && |p'.out[|p.out|]| >= 3) ||
        (AtRest(p') && p'.out == p.out))
  }

  lemma ClientStartProceeds(p: Party, rsp: byte)
    requires p.current.Some? && !p.current.value.abort && p.linkFaults == []
    ensures Proceeded(p, ClientStart(p, rsp))
    ensures ClientStart(p, rsp).mtuTx == p.mtuTx
  {
    hide SendObject, Deliver;
    SendOut(p, true, false);
    SendKeeps(p, true, false);
    var p1 := SendObject(p, true, false).0;
    DeliverOut(p1.(state := Idle, serverMode := false), EvLinkErr, p1.current.value.opcode, 0, true);
    var p2 := Update(p1, p1.current.value.(firstSent := true));
    DeliverOut(p2, EvProgress, p2.current.value.opcode, 0, false);
    DeliverKeeps(p2, EvProgress, p2.current.value.opcode, 0);
  }

  lemma ClientContinueProceeds(p: Party)
    requires Waiting(p) && p.linkFaults == []
    ensures Proceeded(p, ClientContinue(p))
    ensures ClientContinue(p).mtuTx == p.mtuTx
  {
    hide SendObject, Deliver;
    var p0 := Update(p, p.current.value.(continueReceived := true));
    SendOut(p0, true, false);
    SendKeeps(p0, true, false);
    var p1 := SendObject(p0, true, false).0;
    DeliverOut(p1, EvLinkErr, p1.current.value.opcode, 0, true);
    DeliverOut(p1, EvProgress, p1.current.value.opcode, 0, false);
    DeliverKeeps(p1, EvProgress, p1.current.value.opcode, 0);
  }

  lemma ClientHeadersProceeds(p: Party, packet: seq<byte>, rsp: byte)
    requires Waiting(p) && |packet| >= 3 && p.linkFaults == []
    ensures Proceeded(p, ClientHeaders(p, packet, rsp))
    ensures ClientHeaders(p, packet, rsp).mtuTx == p.mtuTx
  {
    hide Receive, ClientContinue, Deliver;
    ReceiveReceives(p, packet);
    var p1 := Receive(p, packet).0;
    DeliverOut(ServerIdle(p1), EvParseErr, p1.current.value.opcode, 0, true);
    DeliverOut(ServerIdle(p1), EvReqDone, p1.current.value.opcode, rsp, true);
    ClientContinueProceeds(p1);
  }

  lemma ClientReceiveProceeds(p: Party, packet: seq<byte>, rsp: byte)
    requires Waiting(p) && |packet| >= 3 && p.linkFaults == []
    ensures Proceeded(p, ClientReceive(p, packet, rsp))
    ensures p.current.value.opcode != CONNECT && p.current.value.opcode != DISCONNECT ==>
              ClientReceive(p, packet, rsp).mtuTx == p.mtuTx
  {
    hide ClientHeaders, Deliver;
    if p.current.value.opcode == CONNECT {
      match ParseConnect(p, packet)
      case None => DeliverOut(ServerIdle(p), EvParseErr, p.current.value.opcode, 0, true);
      case Some(p1) => ClientHeadersProceeds(Update(p1, p1.current.value.(headerOffset := 4)), packet, rsp);
    } else if p.current.value.opcode == DISCONNECT {
      ClientHeadersProceeds(p.(mtuTx := MINIMUM_MTU), packet, rsp);
    } else {
      ClientHeadersProceeds(p, packet, rsp);
    }
  }

  lemma RequestNotAborted(p: Party, cmd: byte, calls: seq<ApiCall>)
    ensures !BuildRequest(p, cmd, calls).abort
  {
    ApplyAllKeeps(NewRequest(cmd, p.mtuRx), p.mtuTx, calls);
  }

  // ---- Both together ----

  /** Two handles, and the octets under way between them. */
  datatype World = World(client: Party, server: Party, up: seq<byte>, down: seq<byte>)

  datatype Act =
    | ServerTurn
    | ClientTurn
    | ServerReads
    | ClientReads
    | Start(cmd: byte, calls: seq<ApiCall>)
    | Cancel
    | ClientCalls(calls: seq<ApiCall>)

  /** The octets a handle has put on the wire in a step. */
  function Sent(before: Party, after: Party): seq<byte> {
    if |before.out| <= |after.out| then Wire(after.out[|before.out|..]) else []
  }

  /** The beginning of the packet at the front is read, and the rest left to a later call. */
  function ReadOn(p: Party, wire: seq<byte>): Party {
    if |wire| < 3 then p else Begin(p, PacketSize(wire))
  }

  /** The application makes calls on the object of its request, whenever it likes. */
  function Called(p: Party, calls: seq<ApiCall>): Party {
    if p.fault || p.current.None? then p else Update(p, ApplyAll(p.current.value, p.mtuTx, calls))
  }

  /** A turn takes the packet at the front of the wire, once all of it is there: in one call,
      unless it has been read on before. */
  function Play(w: World, a: Act): World {
    match a
    case ServerTurn =>
      if Incomplete(w.up) then w
      else
        var n := PacketSize(w.up);
        var s := Indicate(w.server, w.up[..n]);
        w.(server := s, up := w.up[n..], down := w.down + Sent(w.server, s))
    case ClientTurn =>
      if Incomplete(w.down) then w
      else
        var n := PacketSize(w.down);
        var c := Indicate(w.client, w.down[..n]);
        w.(client := c, down := w.down[n..], up := w.up + Sent(w.client, c))
    case ServerReads => w.(server := ReadOn(w.server, w.up))
    case ClientReads => w.(client := ReadOn(w.client, w.down))
    case Start(cmd, calls) =>
      var c := Request(w.client, BuildRequest(w.client, cmd, calls));
      w.(client := c, up := w.up + Sent(w.client, c))
    case Cancel =>
      var c := CancelNicely(w.client);
      w.(client := c, up := w.up + Sent(w.client, c))
    case ClientCalls(calls) => w.(client := Called(w.client, calls))
  }

  lemma SentOne(p: Party, p': Party, packet: seq<byte>)
    requires p'.out == p.out + [packet]
    ensures Sent(p, p') == packet
  {
    assert p'.out[|p.out|..] == [packet];
    assert Wire([packet]) == packet + Wire([packet][1..]);
    assert packet + Wire([]) == packet;
  }

  lemma SentNone(p: Party, p': Party)
    requires p'.out == p.out
    ensures Sent(p, p') == []
  {
    assert p'.out[|p.out|..] == [];
  }

  lemma WholeSize(packet: seq<byte>)
    requires WholePacket(packet)
    ensures |packet| >= 3
  {
  }

  /** The packet under way is the only one, or the first of several. */
  lemma TurnTakes(w: World, packet: seq<byte>, rest: seq<byte>)
    requires WholePacket(packet)
    ensures w.up == packet + rest ==>
              var s := Indicate(w.server, packet);
              Play(w, ServerTurn) == w.(server := s, up := rest, down := w.down + Sent(w.server, s))
    ensures w.down == packet + rest ==>
              var c := Indicate(w.client, packet);
              Play(w, ClientTurn) == w.(client := c, down := rest, up := w.up + Sent(w.client, c))
  {
    hide Indicate;
    FirstPacket(packet, rest);
  }

  lemma TurnTakesOnly(w: World, packet: seq<byte>)
    requires WholePacket(packet)
    ensures w.up == packet ==>
              var s := Indicate(w.server, packet);
              Play(w, ServerTurn) == w.(server := s, up := [], down := w.down + Sent(w.server, s))
    ensures w.down == packet ==>
              var c := Indicate(w.client, packet);
              Play(w, ClientTurn) == w.(client := c, down := [], up := w.up + Sent(w.client, c))
  {
    hide Indicate, Play;
    TurnTakes(w, packet, []);
    assert packet + [] == packet;
  }

  /** The only packet under way is treated, or is too large for the buffer. */
  lemma TurnTreats(w: World, packet: seq<byte>)
    requires WholePacket(packet)
    ensures w.up == packet && w.server.serverMode && !w.server.fault ==>
              var w' := Play(w, ServerTurn);
              if Holding(w.server, packet) then
                var s := ServerStep(w.server, packet);
                w' == w.(server := s, up := [], down := w.down + Sent(w.server, s))
              else w'.server.fault && w'.client == w.client
    ensures w.down == packet && !w.client.serverMode && !w.client.fault ==>
              var w' := Play(w, ClientTurn);
              if Holding(w.client, packet) then
                var c := ClientStep(w.client, Some(packet));
                w' == w.(client := c, down := [], up := w.up + Sent(w.client, c))
              else w'.client.fault && w'.server == w.server
  {
    hide ServerStep, ClientStep, Play, WholePacket;
    WholeSize(packet);
    TurnTakesOnly(w, packet);
  }

  /** A packet has been put out that its length field cannot express. */
  predicate Oversized(p: Party) {
    exists i | 0 <= i < |p.out| :: !WholePacket(p.out[i])
  }

  /** The run is over: the link failed, the code left defined behaviour, or a packet was put
      out whose end the other side cannot find. */
  predicate Over(w: World) {
    || w.client.fault || w.server.fault
    || LinkErrorIn(w.client.events) || LinkErrorIn(w.server.events)
    || Oversized(w.client) || Oversized(w.server)
  }

  lemma FaultOver(w: World)
    ensures w.client.fault || w.server.fault ==> Over(w)
  {
  }

  /** A run, up to where it is over. */
  function PlayAll(w: World, acts: seq<Act>): World
    decreases |acts|
  {
    if acts == [] then w
    else
      var before := PlayAll(w, acts[..|acts| - 1]);
      if Over(before) then before else Play(before, acts[|acts| - 1])
  }

  predicate Silent(w: World) {
    w.up == [] && w.down == []
  }

  /** One whole packet is under way, in one direction. */
  predicate OneUnderWay(w: World) {
    (WholePacket(w.up) && w.down == []) || (w.up == [] && WholePacket(w.down))
  }

  predicate AllFinal(out: seq<seq<byte>>) {
    forall i :: 0 <= i < |out| ==> |out[i]| >= 3 && Final(out[i][0])
  }

  predicate InTurn(w: World) {
    && w.client.linkFaults == [] && w.server.linkFaults == []
    && AllFinal(w.server.out) && w.server.serverMode
    && ((Waiting(w.client) && OneUnderWay(w)) || (AtRest(w.client) && Silent(w)))
  }

  predicate Started(w: World) {
    && AtRest(w.client) && AtRest(w.server) && !w.client.fault && !w.server.fault
    && w.client.linkFaults == [] && w.server.linkFaults == []
    && w.client.out == [] && w.server.out == [] && Silent(w)
    && w.client.events == [] && w.server.events == []
  }

  /** In a run that goes on, the packet just put out is a whole one. */
  lemma LastWhole(p: Party, p': Party)
    requires |p'.out| == |p.out| + 1 && p.out <= p'.out && !Oversized(p')
    ensures WholePacket(p'.out[|p.out|]) && Sent(p, p') == p'.out[|p.out|]
  {
    assert p'.out == p.out + [p'.out[|p.out|]];
    SentOne(p, p', p'.out[|p.out|]);
  }

  lemma AnswerFinal(before: seq<seq<byte>>, after: seq<seq<byte>>)
    requires AllFinal(before) && SentFinal(before, after)
    ensures AllFinal(after)
  {
    assert before == after[..|before|];
  }

  lemma ServerTurnInTurn(w: World)
    requires !Over(w) && InTurn(w) && Tracked(w.server)
    ensures var w' := Play(w, ServerTurn); Over(w') || (InTurn(w') && Tracked(w'.server))
  {
    hide ServerStep, LinkErrorIn, PhaseOf, Oversized, WholePacket;
    if WholePacket(w.up) {
      WholeSize(w.up);
      TurnTakesOnly(w, w.up);
      ServerStepAnswers(w.server, w.up);
      ServerStepRegular(w.server, w.up);
      var w' := Play(w, ServerTurn);
      if !Over(w') {
        LastWhole(w.server, w'.server);
        AnswerFinal(w.server.out, w'.server.out);
        assert w'.down == w'.server.out[|w.server.out|];
      }
    } else {
      assert Play(w, ServerTurn) == w;
    }
  }

  lemma ClientTurnInTurn(w: World)
    requires !Over(w) && InTurn(w)
    ensures var w' := Play(w, ClientTurn); w'.server == w.server && (Over(w') || InTurn(w'))
  {
    hide ClientReceive, LinkErrorIn, Oversized, WholePacket;
    if WholePacket(w.down) {
      WholeSize(w.down);
      TurnTakesOnly(w, w.down);
      ClientReceiveProceeds(w.client, w.down, ClearFinal(w.down[0]));
      ClientMoved(w, Play(w, ClientTurn));
    } else {
      assert Play(w, ClientTurn) == w;
    }
  }

  /** A client that has sent one packet, or is done, leaves the world in turn. */
  lemma ClientMoved(w: World, w': World)
    requires InTurn(w) && w' == w.(client := w'.client, up := Sent(w.client, w'.client), down := [])
    requires Proceeded(w.client, w'.client)
    ensures Over(w') || InTurn(w')
  {
    hide LinkErrorIn, Oversized, WholePacket;
    if !Over(w') {
      if Waiting(w'.client) {
        LastWhole(w.client, w'.client);
      } else {
        SentNone(w.client, w'.client);
      }
    }
  }

  lemma StartInTurn(w: World, cmd: byte, calls: seq<ApiCall>)
    requires !Over(w) && InTurn(w)
    ensures var w' := Play(w, Start(cmd, calls)); w'.server == w.server && (Over(w') || InTurn(w'))
  {
    hide ClientStart, LinkErrorIn, BuildRequest, Oversized, WholePacket;
    var p := w.client;
    var w' := Play(w, Start(cmd, calls));
    if p.current.None? {
      var o := BuildRequest(p, cmd, calls);
      RequestNotAborted(p, cmd, calls);
      var p1 := p.(current := Some(o.(id := p.nextId)), nextId := p.nextId + 1, state := Starting, serverMode := false);
      ClientStartProceeds(p1, BAD_REQUEST);
      assert w'.up == Sent(p, w'.client);
      ClientMoved(w, w');
    } else {
      SentNone(p, w'.client);
      assert w.up + [] == w.up;
    }
  }

  lemma ReadsInTurn(w: World)
    requires InTurn(w) && Tracked(w.server)
    ensures InTurn(Play(w, ServerReads)) && Tracked(Play(w, ServerReads).server)
    ensures InTurn(Play(w, ClientReads)) && Tracked(Play(w, ClientReads).server)
  {
    hide PhaseOf, WholePacket;
  }

  lemma CallsInTurn(w: World, calls: seq<ApiCall>)
    requires InTurn(w) && Tracked(w.server)
    ensures var w' := Play(w, ClientCalls(calls)); InTurn(w') && Tracked(w'.server)
  {
    hide PhaseOf, WholePacket, ApplyAll;
    if w.client.current.Some? { ApplyAllKeeps(w.client.current.value, w.client.mtuTx, calls); }
  }

  predicate NoCancel(acts: seq<Act>) {
    forall i :: 0 <= i < |acts| ==> !acts[i].Cancel?
  }

  /** Lock-step: at every point of every run without cancelling, one whole packet is under
      way while the client waits and none while it rests; every packet of the server has
      the final bit. */
  lemma {:induction false} LockstepTheorem(w: World, acts: seq<Act>)
    requires Started(w) && NoCancel(acts)
    ensures var w' := PlayAll(w, acts); Over(w') || (InTurn(w') && Tracked(w'.server))
    decreases |acts|
  {
    hide Play, PhaseOf, Oversized;
    if acts == [] {
      QuietAtFirst();
    } else {
      var before := PlayAll(w, acts[..|acts| - 1]);
      LockstepTheorem(w, acts[..|acts| - 1]);
      if !Over(before) {
        match acts[|acts| - 1]
        case ServerTurn => ServerTurnInTurn(before);
        case ClientTurn => ClientTurnInTurn(before);
        case ServerReads => ReadsInTurn(before);
        case ClientReads => ReadsInTurn(before);
        case Start(cmd, calls) => StartInTurn(before, cmd, calls);
        case ClientCalls(calls) => CallsInTurn(before, calls);
        case Cancel =>
      }
    }
  }
}
