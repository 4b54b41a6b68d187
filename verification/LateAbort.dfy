/**
 Cancelling too late. When the server is done with the request by the time the ABORT reaches
 it, the client takes the answer to the request for the answer to the ABORT, becomes a server
 again, and answers the second answer as if it were a request: from then on the two ends
 answer each other for ever.
 */
module LateAbort {
  import opened Octets
  import opened Headers
  import opened Fragmenter
  import opened Reassembler
  import opened Framing
  import opened Session
  import opened SessionFacts
  import opened Events
  import opened Lifetime
  import opened Lockstep
  import opened Put
  import opened PutServer
  import opened PutClient
  import opened PutRun
  import opened Loads
  import opened PutEnds
  import opened PutExact
  import opened Rooms
  import opened Abort

  // ---- Two servers that answer each other ----

  /** Both handles take what arrives for requests, and one packet is under way. */
  predicate Adrift(w: World) {
    && w.client.serverMode && w.server.serverMode && w.client.linkFaults == [] && w.server.linkFaults == []
    && OneUnderWay(w)
  }

  /** A handle in its server's role, given a whole packet, answers with one. */
  lemma AnswersOne(p: Party, packet: seq<byte>)
    requires p.serverMode && p.linkFaults == [] && WholePacket(packet)
    ensures |packet| >= 3
    ensures var p' := Indicate(p, packet);
            p'.fault || LinkErrorIn(p'.events) || Oversized(p')
            || (p'.serverMode && p'.linkFaults == [] && WholePacket(Sent(p, p')))
  {
    hide ServerStep, LinkErrorIn, Oversized, WholePacket;
    WholeSize(packet);
    if !p.fault && Holding(p, packet) {
      ServerStepAnswers(p, packet);
      var p' := Indicate(p, packet);
      if !p'.fault && !LinkErrorIn(p'.events) && !Oversized(p') { LastWhole(p, p'); }
    }
  }

  lemma AdriftTurn(w: World, a: Act)
    requires !Over(w) && Adrift(w) && Turning(a)
    ensures Over(Play(w, a)) || Adrift(Play(w, a))
  {
    hide Indicate, LinkErrorIn, Oversized, WholePacket;
    NothingToTake(w);
    if w.up == [] {
      AnswersOne(w.client, w.down);
      if a.ClientTurn? { TurnTakesOnly(w, w.down); }
      assert [] + Sent(w.client, Indicate(w.client, w.down)) == Sent(w.client, Indicate(w.client, w.down));
    } else {
      AnswersOne(w.server, w.up);
      if a.ServerTurn? { TurnTakesOnly(w, w.up); }
      assert [] + Sent(w.server, Indicate(w.server, w.up)) == Sent(w.server, Indicate(w.server, w.up));
    }
  }

  // ---- The way there, whatever the response ----

  /** A response that ends the client's request. */
  predicate LastAnswer(packet: seq<byte>) {
    WholePacket(packet) && ClearFinal(packet[0]) != CONTINUE && HeadersIn(packet).outcome.Clean?
  }

  /** The last answer to the request is ahead of everything else on its way to the client. */
  predicate AnswerAhead(w: World, x: Exchange, answer: seq<byte>) {
    && ClientAborting(w.client, x.m) && w.server.serverMode && w.server.linkFaults == [] && LastAnswer(answer)
    && ((WholePacket(w.up) && w.down == answer) ||
        (w.up == [] && |w.down| >= |answer| && w.down[..|answer|] == answer && WholePacket(w.down[|answer|..])))
  }

  /** The last part of the request is still on its way, and the server will be done with it. */
  predicate LastBehind(w: World, x: Exchange, req: seq<byte>, sim: Rx) {
    && ClientAborting(w.client, x.m) && w.down == [] && w.up == req + AbortPacket()
    && LastPart(w.server, x, req, sim) && ServerStep(w.server, req).current.None?
  }

  ghost predicate Drifting(w: World, x: Exchange) {
    || (exists req, sim :: LastBehind(w, x, req, sim)) || (exists answer :: AnswerAhead(w, x, answer)) || Adrift(w)
  }

  lemma DriftCollects(w: World, x: Exchange, req: seq<byte>, sim: Rx)
    requires LastBehind(w, x, req, sim) && Restrained(x.app)
    ensures var w' := Play(w, ServerTurn); Over(w') || AnswerAhead(w', x, w'.down)
  {
    hide ServerStep, HeadersIn, LinkErrorIn, Oversized, WholePacket, ClientAborting, LastPart, Reported, Rested, RestOk;
    AbortWhole();
    PartServes(w.server, x, req, sim);
    PartWhole(w.server, x, req, sim);
    TurnTakes(w, req, AbortPacket());
    var w', s := Play(w, ServerTurn), ServerStep(w.server, req);
    if !Holding(w.server, req) {
      FaultOver(w');
    } else {
      LastPartTaken(w.server, x, req, sim);
      if Stopped(s) {
        StoppedOver(w');
      } else {
        AnswerLong(w.server, s, x.app);
        ReportedHolds(s, x, AnswerOf(w.server, s));
        RestedServes(s);
        if !Over(w') {
          LastWhole(w.server, s);
          assert [] + Sent(w.server, s) == Sent(w.server, s);
        }
      }
    }
  }

  lemma RestedServes(p: Party)
    requires Rested(p)
    ensures p.serverMode && p.linkFaults == [] && !p.fault && p.current.None?
  {
  }

  /** The client, given the last answer to its request, ends it one way or another. */
  lemma AbortingEnds(p: Party, answer: seq<byte>, m: nat)
    requires ClientAborting(p, m) && LastAnswer(answer)
    ensures |answer| >= 3
    ensures var p' := Indicate(p, answer);
            p'.fault || LinkErrorIn(p'.events) || (p'.serverMode && p'.linkFaults == [] && p'.out == p.out)
  {
    hide Receive, NoEnd, PassiveScript, HeadersIn, LinkErrorIn, WholePacket;
    WholeSize(answer);
    AbortingLooks(p, answer, m);
    var rsp := ClearFinal(answer[0]);
    var p1 := Receive(p, answer).0;
    if Holding(p, answer) {
      assert ClientStep(p, Some(answer)) == ClientDone(p1, rsp);
      DeliverOut(ServerIdle(p1), EvAbort, PUT, rsp, true);
      DeliverOut(ServerIdle(p1), EvLinkErr, PUT, rsp, true);
    }
  }

  lemma DriftTaken(w: World, x: Exchange, answer: seq<byte>)
    requires AnswerAhead(w, x, answer)
    ensures var w' := Play(w, ClientTurn); Over(w') || Adrift(w')
  {
    hide Indicate, LinkErrorIn, Oversized, WholePacket, ClientAborting, LastAnswer;
    AbortingEnds(w.client, answer, x.m);
    LastWholeAnswer(answer);
    var rest := w.down[|answer|..];
    assert w.down == answer + rest;
    TurnTakes(w, answer, rest);
    var c := Indicate(w.client, answer);
    if c.out == w.client.out {
      SentNone(w.client, c);
      assert w.up + [] == w.up;
    }
  }

  lemma LastWholeAnswer(answer: seq<byte>)
    requires LastAnswer(answer)
    ensures WholePacket(answer)
  {
  }

  lemma DriftAnswered(w: World, x: Exchange, answer: seq<byte>)
    requires AnswerAhead(w, x, answer)
    ensures var w' := Play(w, ServerTurn); Over(w') || AnswerAhead(w', x, answer)
  {
    hide Indicate, LinkErrorIn, Oversized, WholePacket, ClientAborting, LastAnswer;
    NothingToTake(w);
    if w.up != [] {
      AnswersOne(w.server, w.up);
      TurnTakesOnly(w, w.up);
      var w' := Play(w, ServerTurn);
      assert w'.down[..|answer|] == answer && w'.down[|answer|..] == Sent(w.server, w'.server);
    }
  }

  lemma DriftReads(w: World, x: Exchange, a: Act)
    requires Drifting(w, x) && (a.ServerReads? || a.ClientReads?)
    ensures Drifting(Play(w, a), x)
  {
    hide Play, LastAnswer, ClientAborting, LastPart, ServerStep, WholePacket;
    var w' := Play(w, a);
    ReadingOn(w, a);
    if req, sim :| LastBehind(w, x, req, sim) {
      AbortingReads(w, w', x);
      assert w'.server == Roomed(w.server, w'.server.rxRoom);
      PartServes(w.server, x, req, sim);
      LastPartRoomed(w.server, x, req, sim, w'.server.rxRoom);
      assert LastBehind(w', x, req, sim);
    } else if answer :| AnswerAhead(w, x, answer) {
      AbortingReads(w, w', x);
      assert AnswerAhead(w', x, answer);
    }
  }

  lemma DriftStep(w: World, x: Exchange, a: Act)
    requires !Over(w) && Drifting(w, x) && Restrained(x.app) && Passive(a)
    ensures Over(Play(w, a)) || Drifting(Play(w, a), x)
  {
    hide Play, AnswerAhead, LastBehind, Adrift, Over;
    NothingToTake(w);
    if !Turning(a) {
      DriftReads(w, x, a);
    } else if req, sim :| LastBehind(w, x, req, sim) {
      LastWire(w, x, req, sim);
      if a.ServerTurn? { DriftCollects(w, x, req, sim); }
    } else if answer :| AnswerAhead(w, x, answer) {
      if a.ServerTurn? { DriftAnswered(w, x, answer); } else { DriftTaken(w, x, answer); }
    } else {
      AdriftTurn(w, a);
    }
  }

  lemma LastWire(w: World, x: Exchange, req: seq<byte>, sim: Rx)
    requires LastBehind(w, x, req, sim)
    ensures w.down == []
  {
  }

  lemma DriftMoves(w: World, x: Exchange)
    requires Drifting(w, x)
    ensures !Silent(w)
  {
    hide ClientAborting, LastPart, HeadersIn, ServerStep;
    if req, sim :| LastBehind(w, x, req, sim) { AbortWhole(); }
  }

  lemma {:induction false} DriftKeeps(w: World, x: Exchange, acts: seq<Act>)
    requires (Over(w) || Drifting(w, x)) && Restrained(x.app) && Turns(acts)
    ensures var w' := PlayAll(w, acts); Over(w') || Drifting(w', x)
    decreases |acts|
  {
    hide Play, Drifting, Over;
    if acts == [] {
    } else {
      DriftKeeps(w, x, acts[..|acts| - 1]);
      var before := PlayAll(w, acts[..|acts| - 1]);
      if !Over(before) { DriftStep(before, x, acts[|acts| - 1]); }
    }
  }

  /** The request is complete and the client waits, and the server will not hold on to it. */
  ghost predicate TooLate(w: World, x: Exchange) {
    (exists sim :: Finishing(w, x, sim)) && Reached(w).current.None?
  }

  lemma DriftStarts(w: World, x: Exchange)
    requires TooLate(w, x) && Restrained(x.app)
    ensures Drifting(Play(w, Cancel), x)
  {
    hide Play, HeadersIn, ServerStep, Keeping, ClientAborting, LastPart, WholePacket, Finishing, Settling, RestOk,
         Engaged;
    var sim :| Finishing(w, x, sim);
    var w' := Play(w, Cancel);
    FinishingWaits(w, x, sim);
    CancelAdds(w, x);
    if w.up != [] {
      FinishingPart(w, x, sim);
      assert LastBehind(w', x, w.up, sim);
    } else {
      FinishingSettles(w, x, sim);
      SettlingHolds(w, x);
      AbortWhole();
      assert [] + AbortPacket() == AbortPacket();
      assert AnswerAhead(w', x, w.down);
    }
  }

  /**
   The condition of the abort theorem is exact: a client that cancels when the server will be
   done with the request before the ABORT reaches it never comes to rest, in any order of
   turns, unless the link fails, the code leaves defined behaviour or a packet has no end.
   */
  lemma LateAbortNeverRests(w: World, x: Exchange, acts: seq<Act>)
    requires TooLate(w, x) && Restrained(x.app) && Turns(acts)
    ensures var w' := PlayAll(Play(w, Cancel), acts); Over(w') || !Silent(w')
  {
    hide Play, Over, Drifting, TooLate;
    DriftStarts(w, x);
    DriftKeeps(Play(w, Cancel), x, acts);
    if !Over(PlayAll(Play(w, Cancel), acts)) { DriftMoves(PlayAll(Play(w, Cancel), acts), x); }
  }

  // ---- With a willing server it goes on for ever ----

  /** An idle handle whose application does no more than read and accept. */
  predicate EchoReady(p: Party) {
    Rested(p) && RestOk(Willing, p.script) && !LinkErrorIn(p.events) && !Oversized(p)
  }

  /** A bare ABORT, or one of the bare responses two such handles give each other. */
  predicate EchoPacket(packet: seq<byte>) {
    packet in {AbortPacket(), SuccessPacket(), Frame(SetFinal(NOT_IMPLEMENTED), [])}
  }

  /** An object that came in with such a packet, and the response it will get. */
  predicate EchoObject(o: Object, cmd: byte) {
    && o.cmd == cmd && o.txQueue == [] && o.nonHeader.None? && o.headerOffset == 0 && !o.firstSent
    && (o.lastOpcode == SUCCESS || o.lastOpcode == NOT_IMPLEMENTED)
  }

  lemma PassiveIsWilling(script: seq<seq<ApiCall>>)
    requires PassiveScript(script)
    ensures RestOk(Willing, script)
  {
    forall i | 0 <= i < |script| ensures CallsOk(Willing, script[i], false) {
      assert AllReading(script[i]);
    }
  }

  lemma EchoCall(o: Object, mtuTx: u16, c: ApiCall, cmd: byte)
    requires CallOk(Willing, c, false) && EchoObject(o, cmd)
    ensures EchoObject(Apply(o, mtuTx, c), cmd)
  {
  }

  lemma {:induction false} EchoCalls(o: Object, mtuTx: u16, calls: seq<ApiCall>, cmd: byte)
    requires CallsOk(Willing, calls, false) && EchoObject(o, cmd)
    ensures EchoObject(ApplyAll(o, mtuTx, calls), cmd)
    decreases |calls|
  {
    hide Apply, CallOk, EchoObject;
    if calls == [] {
    } else {
      EchoCall(o, mtuTx, calls[0], cmd);
      EchoCalls(Apply(o, mtuTx, calls[0]), mtuTx, calls[1..], cmd);
    }
  }

  lemma EchoDelivery(p: Party, kind: EventKind, cmd: byte)
    requires p.current.Some? && RestOk(Willing, p.script) && EchoObject(p.current.value, cmd) && !kind.EvLinkErr?
    ensures var p' := Deliver(p, kind, cmd, 0, false);
            && p'.current.Some? && EchoObject(p'.current.value, cmd) && SameHandle(p, p')
            && RestOk(Willing, p'.script) && p'.out == p.out && p'.linkFaults == p.linkFaults
            && (LinkErrorIn(p'.events) ==> LinkErrorIn(p.events))
  {
    hide ApplyAll, LinkErrorIn, EventOf, EchoObject, RestOk, CallsOk;
    CallsNow(Willing, p.script);
    EchoCalls(p.current.value, p.mtuTx, if p.script == [] then [] else p.script[0], cmd);
    DeliverQuietly(p, kind, cmd, 0, false);
  }

  lemma EchoLast(p: Party, kind: EventKind, cmd: nat, rsp: nat)
    requires RestOk(Willing, p.script) && !kind.EvLinkErr?
    ensures var p' := Deliver(p, kind, cmd, rsp, true);
            RestOk(Willing, p'.script) && (LinkErrorIn(p'.events) ==> LinkErrorIn(p.events))
  {
    hide LinkErrorIn, EventOf;
    DeliverQuietly(p, kind, cmd, rsp, true);
  }

  /** Sending for a server that has nothing queued. */
  lemma EmptySend(p: Party)
    requires p.current.Some? && p.current.value.txQueue == [] && p.current.value.nonHeader.None? && p.linkFaults == []
    requires !p.fault
    ensures SendObject(p, true, true) ==
            (p.(out := p.out + [Frame(SetFinal(p.current.value.lastOpcode), [])], txRoom := Max(p.txRoom, 3)), SendDone)
  {
    var k := Packed(p);
    assert k == Packing([], [], TxBudget(p), p.current.value.stream, p.feed, 0, Full);
    assert p.events + [] == p.events;
    assert PacketPayload(p) == [];
    assert Tail(p.linkFaults) == p.linkFaults;
    assert AfterPacking(p) == p;
  }

  lemma EmptyReceive(p: Party, packet: seq<byte>)
    requires p.current.Some? && p.current.value.headerOffset == 0 && |packet| == 3
    ensures Receive(p, packet) == (p, Clean)
  {
    assert packet[3..] == [];
  }

  lemma EchoWhole(packet: seq<byte>)
    requires EchoPacket(packet)
    ensures WholePacket(packet) && |packet| == 3
  {
    BareWhole(SetFinal(ABORT));
    BareWhole(SetFinal(SUCCESS));
    BareWhole(SetFinal(NOT_IMPLEMENTED));
  }

  /** One more such packet. */
  predicate EchoSent(p: Party, p': Party) {
    |p'.out| == |p.out| + 1 && p.out <= p'.out && EchoPacket(p'.out[|p.out|])
  }

  /** The response of a handle that has just been told of such a request. */
  lemma EchoReceive(p: Party, packet: seq<byte>)
    requires EchoPacket(packet) && p.current.Some? && EchoObject(p.current.value, ClearFinal(packet[0]))
    requires p.state.Receiving? && p.serverMode && !p.fault && p.linkFaults == [] && RestOk(Willing, p.script)
    requires !LinkErrorIn(p.events)
    ensures var p' := ServerReceive(p, packet);
            Rested(p') && RestOk(Willing, p'.script) && !LinkErrorIn(p'.events) && EchoSent(p, p')
  {
    hide Deliver, Receive, SendObject, LinkErrorIn, RestOk;
    var cmd := ClearFinal(packet[0]);
    if cmd == ABORT {
      var p1 := ServerIdle(Respond(p, SUCCESS));
      assert ServerReceive(p, packet) == DeliverOwn(p1, EvAbort, cmd, true);
      DeliverOut(p1, EvAbort, p1.current.value.opcode, cmd, true);
      EchoLast(p1, EvAbort, p1.current.value.opcode, cmd);
    } else {
      EmptyReceive(p, packet);
      assert ServerReceive(p, packet) == ServerRequest(p, packet, cmd, false);
      EchoDelivery(p, EvReq, cmd);
      var p2 := Deliver(p, EvReq, cmd, 0, false).(state := Responding, serverMode := true);
      assert ServerRequest(p, packet, cmd, false) == ServerReply(p2, cmd);
      var p3 := Update(p2, p2.current.value.(continueReceived := true));
      EmptySend(p3);
      var p4 := ServerIdle(SendObject(p3, true, true).0);
      assert ServerReply(p2, cmd) == Deliver(p4, EvReqDone, cmd, 0, true);
      DeliverOut(p4, EvReqDone, cmd, 0, true);
      EchoLast(p4, EvReqDone, cmd, 0);
    }
  }

  lemma EchoAnswers(p: Party, packet: seq<byte>)
    requires EchoReady(p) && EchoPacket(packet)
    ensures var p' := ServerStep(p, packet); EchoReady(p') && EchoSent(p, p')
  {
    hide Deliver, ServerReceive, LinkErrorIn, RestOk, Oversized;
    var cmd := ClearFinal(packet[0]);
    var p0 := p.(current := Some(NewObject(p.nextId).(cmd := cmd)), nextId := p.nextId + 1);
    EchoDelivery(p0, EvReqHint, cmd);
    var p1 := Deliver(p0, EvReqHint, cmd, 0, false).(state := Receiving, serverMode := true);
    assert ServerStep(p, packet) == ServerReceive(p1, packet);
    EchoReceive(p1, packet);
    var p' := ServerStep(p, packet);
    EchoWhole(p'.out[|p.out|]);
    WholeAdded(p, p');
  }

  /** A turn of an idle handle that gets such a packet. */
  lemma EchoTurn(w: World, packet: seq<byte>)
    requires EchoPacket(packet)
    ensures w.up == packet && EchoReady(w.server) ==>
              var w' := Play(w, ServerTurn);
              && w' == w.(server := w'.server, up := [], down := w.down + Sent(w.server, w'.server))
              && EchoReady(w'.server) && EchoPacket(Sent(w.server, w'.server))
    ensures w.down == packet && EchoReady(w.client) ==>
              var w' := Play(w, ClientTurn);
              && w' == w.(client := w'.client, down := [], up := w.up + Sent(w.client, w'.client))
              && EchoReady(w'.client) && EchoPacket(Sent(w.client, w'.client))
  {
    hide ServerStep, LinkErrorIn, EchoPacket, RestOk, Oversized;
    EchoWhole(packet);
    TurnTakesOnly(w, packet);
    if w.up == packet && EchoReady(w.server) { EchoParty(w.server, packet); }
    if w.down == packet && EchoReady(w.client) { EchoParty(w.client, packet); }
  }

  lemma EchoParty(p: Party, packet: seq<byte>)
    requires EchoReady(p) && EchoPacket(packet)
    ensures |packet| >= 3 && var p' := Indicate(p, packet); EchoReady(p') && EchoPacket(Sent(p, p'))
  {
    hide ServerStep, LinkErrorIn, EchoPacket, RestOk, Oversized;
    EchoWhole(packet);
    EchoAnswers(p, packet);
    var p' := Indicate(p, packet);
    assert p'.out == p.out + [p'.out[|p.out|]];
    SentOne(p, p', p'.out[|p.out|]);
  }

  /** A response that a client takes for the answer to its ABORT. */
  predicate AbortAnswer(packet: seq<byte>) {
    WholePacket(packet) && ClearFinal(packet[0]) == SUCCESS && HeadersIn(packet).outcome.Clean?
  }

  /** A client that aborts, on a handle that has not failed. */
  predicate AbortingWell(p: Party, m: nat) {
    ClientAborting(p, m) && !LinkErrorIn(p.events) && !Oversized(p)
  }

  /** The answer to the request is ahead of everything else on its way to the client. */
  predicate SuccessAhead(w: World, x: Exchange, answer: seq<byte>) {
    && AbortingWell(w.client, x.m) && EchoReady(w.server) && AbortAnswer(answer) && Holding(w.client, answer)
    && ((EchoPacket(w.up) && w.down == answer) ||
        (w.up == [] && |w.down| >= |answer| && w.down[..|answer|] == answer && EchoPacket(w.down[|answer|..])))
  }

  /** The final request is still on its way to the server, the ABORT behind it. */
  predicate FinalAhead(w: World, x: Exchange, req: seq<byte>, sim: Rx) {
    && AbortingWell(w.client, x.m) && w.down == [] && w.up == req + AbortPacket()
    && LastPart(w.server, x, req, sim) && Holding(w.server, req) && !Stopped(w.server) && !Oversized(w.server)
  }

  /** The two answer each other with bare packets. */
  predicate Echoing(w: World) {
    && EchoReady(w.client) && EchoReady(w.server)
    && ((EchoPacket(w.up) && w.down == []) || (w.up == [] && EchoPacket(w.down)))
  }

  ghost predicate GoingOn(w: World, x: Exchange) {
    || (exists req, sim :: FinalAhead(w, x, req, sim)) || (exists answer :: SuccessAhead(w, x, answer)) || Echoing(w)
  }

  lemma WillingTakes(w: World, x: Exchange, req: seq<byte>, sim: Rx)
    requires FinalAhead(w, x, req, sim) && x.app.Willing?
    ensures |req| >= 3 && w.server.serverMode && !w.server.fault
    ensures var s := ServerStep(w.server, req);
            && OneAnswer(w.server, s, x.app) && AbortAnswer(s.out[|w.server.out|]) && EchoReady(s)
  {
    hide ServerStep, ServerReceive, HeadersIn, StoreAll, Holds, NoEnd, ReadyScript, Reqs, Announced, LinkErrorIn, Fits,
         RestOk, OpcodesOk, QueueOk, WholePacket, Oversized, AbortingWell, Told, Reported, Received, Answering;
    PartServes(w.server, x, req, sim);
    PartWhole(w.server, x, req, sim);
    WillingWaits(w.server, x, req, sim);
    LastPartTaken(w.server, x, req, sim);
    var t := PartTaken(w.server, x, req, sim);
    WillingAlwaysFits(w.server, x.st, x.n);
    ReadyNotTaking(w.server, x);
    ServerLoad(w.server, t, x.app, x.st, req, x.n, sim);
    var s := ServerStep(w.server, req);
    AnswerLong(w.server, s, x.app);
    WillingSays(s, x.st, x.n, x.whole, AnswerOf(w.server, s));
    WholeAdded(w.server, s);
  }

  /** A willing server never has a response under way. */
  lemma WillingWaits(s: Party, x: Exchange, req: seq<byte>, sim: Rx)
    requires LastPart(s, x, req, sim) && x.app.Willing?
    ensures !s.state.Responding?
  {
    hide HeadersIn, StoreAll, Holds, NoEnd, Reqs, RestOk, OpcodesOk, Told, WholePacket;
  }

  lemma WillingTurn(w: World, x: Exchange, req: seq<byte>, sim: Rx)
    requires FinalAhead(w, x, req, sim) && x.app.Willing?
    ensures var w' := Play(w, ServerTurn); SuccessAhead(w', x, w'.down)
  {
    hide ServerStep, HeadersIn, LastPart, WholePacket, Oversized, AbortingWell, LinkErrorIn, RestOk;
    PartWhole(w.server, x, req, sim);
    WillingTakes(w, x, req, sim);
    TurnTakes(w, req, AbortPacket());
    var s := ServerStep(w.server, req);
    assert Indicate(w.server, req) == s;
    assert s.out == w.server.out + [s.out[|w.server.out|]];
    SentOne(w.server, s, s.out[|w.server.out|]);
    assert [] + Sent(w.server, s) == Sent(w.server, s);
  }

  lemma AbortAnswered(p: Party, answer: seq<byte>, m: nat)
    requires AbortingWell(p, m) && AbortAnswer(answer) && Holding(p, answer)
    ensures |answer| >= 3 && var p' := Indicate(p, answer); EchoReady(p') && p'.out == p.out
  {
    hide ClientStep, NoEnd, LinkErrorIn, Oversized, PassiveScript, HeadersIn, RestOk;
    WholeSize(answer);
    ClientAborts(p, answer, m);
    var p' := ClientStep(p, Some(answer));
    PassiveIsWilling(p'.script);
    SameOut(p, p');
  }

  lemma SuccessTaken(w: World, x: Exchange, answer: seq<byte>)
    requires SuccessAhead(w, x, answer)
    ensures Echoing(Play(w, ClientTurn))
  {
    hide Indicate, LinkErrorIn, WholePacket, AbortingWell, EchoReady, EchoPacket, HeadersIn;
    AbortAnswered(w.client, answer, x.m);
    var rest := w.down[|answer|..];
    assert w.down == answer + rest;
    TurnTakes(w, answer, rest);
    SentNone(w.client, Indicate(w.client, answer));
    assert w.up + [] == w.up;
  }

  lemma SuccessAnswered(w: World, x: Exchange, answer: seq<byte>)
    requires SuccessAhead(w, x, answer)
    ensures SuccessAhead(Play(w, ServerTurn), x, answer)
  {
    hide Play, AbortAnswer, EchoReady, EchoPacket, AbortingWell;
    NothingToTake(w);
    if w.up != [] {
      EchoTurn(w, w.up);
      var w' := Play(w, ServerTurn);
      assert w'.down[..|answer|] == answer && w'.down[|answer|..] == Sent(w.server, w'.server);
    }
  }

  lemma EchoingTurn(w: World, a: Act)
    requires Echoing(w) && Turning(a)
    ensures Echoing(Play(w, a))
  {
    hide Play, EchoReady, EchoPacket;
    NothingToTake(w);
    if w.up == [] {
      EchoTurn(w, w.down);
      assert [] + Sent(w.client, Play(w, ClientTurn).client) == Sent(w.client, Play(w, ClientTurn).client);
    } else {
      EchoTurn(w, w.up);
      assert [] + Sent(w.server, Play(w, ServerTurn).server) == Sent(w.server, Play(w, ServerTurn).server);
    }
  }

  lemma EchoReads(w: World, w': World)
    requires SameButRoom(w, w')
    ensures EchoReady(w'.server) == EchoReady(w.server) && EchoReady(w'.client) == EchoReady(w.client)
    ensures Oversized(w'.server) == Oversized(w.server) && Oversized(w'.client) == Oversized(w.client)
  {
    hide LinkErrorIn, WholePacket, RestOk;
  }

  lemma ReadMakesRoom(w: World, a: Act)
    requires a.ServerReads? || a.ClientReads?
    ensures Play(w, a).server.rxRoom >= w.server.rxRoom && Play(w, a).client.rxRoom >= w.client.rxRoom
  {
  }

  lemma GoingReads(w: World, x: Exchange, a: Act)
    requires GoingOn(w, x) && (a.ServerReads? || a.ClientReads?)
    ensures GoingOn(Play(w, a), x)
  {
    hide Play, AbortAnswer, ClientAborting, LastPart, ServerStep, LinkErrorIn, EchoReady, EchoPacket, Oversized;
    var w' := Play(w, a);
    ReadingOn(w, a);
    ReadMakesRoom(w, a);
    EchoReads(w, w');
    if req, sim :| FinalAhead(w, x, req, sim) {
      AbortingReads(w, w', x);
      assert w'.server == Roomed(w.server, w'.server.rxRoom);
      LastPartRoomed(w.server, x, req, sim, w'.server.rxRoom);
      assert FinalAhead(w', x, req, sim);
    } else if answer :| SuccessAhead(w, x, answer) {
      AbortingReads(w, w', x);
      assert SuccessAhead(w', x, answer);
    }
  }

  lemma GoingStep(w: World, x: Exchange, a: Act)
    requires GoingOn(w, x) && x.app.Willing? && Passive(a)
    ensures GoingOn(Play(w, a), x)
  {
    hide Play, SuccessAhead, FinalAhead, Echoing;
    NothingToTake(w);
    if !Turning(a) {
      GoingReads(w, x, a);
    } else if req, sim :| FinalAhead(w, x, req, sim) {
      FinalWire(w, x, req, sim);
      if a.ServerTurn? { WillingTurn(w, x, req, sim); }
    } else if answer :| SuccessAhead(w, x, answer) {
      if a.ServerTurn? { SuccessAnswered(w, x, answer); } else { SuccessTaken(w, x, answer); }
    } else {
      EchoingTurn(w, a);
    }
  }

  lemma FinalWire(w: World, x: Exchange, req: seq<byte>, sim: Rx)
    requires FinalAhead(w, x, req, sim)
    ensures w.down == []
  {
  }

  lemma GoingFine(w: World, x: Exchange)
    requires GoingOn(w, x)
    ensures !Over(w)
  {
    hide NoEnd, LinkErrorIn, Oversized, PassiveScript, HeadersIn, RestOk, EchoPacket, WholePacket, LastPart;
    if req, sim :| FinalAhead(w, x, req, sim) { PartServes(w.server, x, req, sim); }
  }

  lemma {:induction false} GoingKeeps(w: World, x: Exchange, acts: seq<Act>)
    requires GoingOn(w, x) && x.app.Willing? && Turns(acts)
    ensures GoingOn(PlayAll(w, acts), x)
    decreases |acts|
  {
    hide Play, GoingOn, Over;
    if acts == [] {
    } else {
      GoingKeeps(w, x, acts[..|acts| - 1]);
      GoingStep(PlayAll(w, acts[..|acts| - 1]), x, acts[|acts| - 1]);
    }
  }

  lemma GoingStarts(w: World, x: Exchange)
    requires !Over(w) && FrontsHeld(w) && TooLate(w, x) && x.app.Willing?
    ensures GoingOn(Play(w, Cancel), x)
  {
    hide Play, HeadersIn, ServerStep, Keeping, ClientAborting, LastPart, WholePacket, Finishing, Settling, RestOk,
         Engaged, LinkErrorIn, Oversized;
    var sim :| Finishing(w, x, sim);
    var w' := Play(w, Cancel);
    FinishingWaits(w, x, sim);
    CancelAdds(w, x);
    if w.up != [] {
      FinishingPart(w, x, sim);
      WholeFront(w.up);
      assert FinalAhead(w', x, w.up, sim);
    } else {
      FinishingSettles(w, x, sim);
      SettlingHolds(w, x);
      SettlingWilling(w, x);
      WholeFront(w.down);
      WholeSize(w.down);
      assert [] + AbortPacket() == AbortPacket();
      assert SuccessAhead(w', x, w.down);
    }
  }

  /** With a server that has nothing to add, and packets that fit the buffers they are read
      into, nothing ever stops them. */
  lemma LateAbortGoesOn(w: World, x: Exchange, acts: seq<Act>)
    requires !Over(w) && FrontsHeld(w) && TooLate(w, x) && x.app.Willing? && Turns(acts)
    ensures !Over(PlayAll(Play(w, Cancel), acts))
  {
    hide Play, Over, GoingOn, TooLate, FrontsHeld;
    GoingStarts(w, x);
    GoingKeeps(Play(w, Cancel), x, acts);
    GoingFine(PlayAll(Play(w, Cancel), acts), x);
  }

  // ---- Cancelling at any point ----

  /**
   Cancelling, at any point of any run of a PUT to a server that accepts it and may add headers
   of its own. If the server still holds the request when the ABORT reaches it both ends abort
   and come to rest, in at most four moves; if not they never do. With a server that has
   nothing to add, and packets that fit the buffers they are read into, nothing else happens.
   */
  lemma CancelTheorem(w: World, calls: seq<ApiCall>, app: App, before: seq<Act>, after: seq<Act>)
    requires PutSetting(w, calls, app) && Restrained(app) && Turns(before) && Turns(after)
    ensures var x := ExchangeOf(w, calls, app);
            var w1 := PlayAll(Play(w, Start(PUT, calls)), before);
            var w2 := PlayAll(Play(w1, Cancel), after);
            Over(w1) || Completed(w1, x) ||
            (&& w1.client.current.Some? && (app.Willing? && FrontsHeld(w1) ==> !Over(w2))
             && var late := w1.client.current.value.txQueue == [];
             if late && Reached(w1).current.None? then Over(w2) || !Silent(w2)
             else
               && Moves(Play(w1, Cancel), after) <= 4
               && (Over(w2) || (Play(w2, ServerTurn) == w2 && Play(w2, ClientTurn) == w2 ==> BothAborted(w2, x, late))))
  {
    hide Play, Over, BothAborted, Completed, PutSetting, Putting, Collecting, Moves, PlayAll, InTime, TooLate, Reached,
         FrontsHeld;
    var x := ExchangeOf(w, calls, app);
    var start := Play(w, Start(PUT, calls));
    PutStarts(w, calls, app);
    if !Over(start) { StartIsPutting(start, x); }
    PutKeeps(start, x, before);
    var w1 := PlayAll(start, before);
    if !Over(w1) && !Completed(w1, x) {
      OnTheWay(w1, x);
      if w1.client.current.value.txQueue == [] && Reached(w1).current.None? {
        LateAbortNeverRests(w1, x, after);
        if app.Willing? && FrontsHeld(w1) { LateAbortGoesOn(w1, x, after); }
      } else {
        AbortTheorem(w1, x, after);
      }
    }
  }

  lemma OnTheWay(w: World, x: Exchange)
    requires Putting(w, x) && Restrained(x.app) && !Completed(w, x)
    ensures w.client.current.Some?
    ensures var late := w.client.current.value.txQueue == [] && Reached(w).current.None?;
            (late ==> TooLate(w, x)) && (!late ==> InTime(w, x))
  {
    hide Collecting, AskingOn, Midway, Settling, Finished, Reached;
    if sim :| Collecting(w, x, sim) {
      RequestPhase(w, x, sim);
      assert if w.client.current.value.txQueue == [] then Finishing(w, x, sim) else Unfinished(w, x, sim);
    } else if AskingOn(w, x) {
      RequestPhase(w, x, NewRx());
      assert Finishing(w, x, NewRx());
    } else if sim :| Midway(w, x, sim) {
      AnswerPhase(w, x, sim);
      assert Unfinished(w, x, sim);
    } else if Settling(w, x) {
      SettlingQueue(w, x);
      assert Finishing(w, x, NewRx());
    } else {
      FinishedPhase(w, x);
      assert false;
    }
  }
}
