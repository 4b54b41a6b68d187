/**
 Cancelling a PUT in mid-flight. As long as the server still holds the request when the ABORT
 reaches it, the two ends agree on the abort, wherever the outstanding packet is.
 */
module Abort {
  import opened Octets
  import opened Headers
  import opened Fragmenter
  import opened Reassembler
  import opened Framing
  import opened Session
  import opened Events
  import opened Lifetime
  import opened Lockstep
  import opened Put
  import opened PutServer
  import opened PutClient
  import opened PutRun
  import opened Loads
  import opened PutEnds
  import opened PutExact
  import opened Rooms

  // ---- The two sides of an abort ----

  /** A client that has sent ABORT and waits for the answer. */
  predicate ClientAborting(p: Party, m: nat) {
    && p.state.Receiving? && !p.serverMode && !p.fault && p.linkFaults == [] && p.current.Some?
    && p.current.value.abort && p.current.value.opcode == PUT && p.current.value.headerOffset == 0
    && !p.current.value.rx.streaming && PassiveScript(p.script)
    && m <= |p.events| && NoEnd(p.events, m)
  }

  /** The request has ended, and by the abort. */
  predicate AbortedBy(events: seq<Event>, n: nat) {
    |events| > n && NoEnd(events[..|events| - 1], n) && events[|events| - 1].kind.EvAbort?
  }

  function AbortPacket(): seq<byte> {
    Frame(SetFinal(ABORT), [])
  }

  lemma AbortWhole()
    ensures WholePacket(AbortPacket()) && |AbortPacket()| == 3
  {
    BareWhole(SetFinal(ABORT));
  }

  lemma ClientCancels(p: Party, m: nat)
    requires Keeping(p, m)
    ensures var p' := CancelNicely(p);
            ClientAborting(p', m) && p'.out == p.out + [AbortPacket()] && p'.events == p.events
  {
    hide NoEnd, PassiveScript;
    assert Tail(p.linkFaults) == p.linkFaults;
  }

  /** Headers of a packet that crosses the abort are stored all the same. */
  lemma AbortingLooks(p: Party, packet: seq<byte>, m: nat)
    requires ClientAborting(p, m) && |packet| >= 3
    ensures var (p1, outcome) := Receive(p, packet);
            && ClientAborting(p1, m) && p1 == Update(p, p.current.value.(rx := p1.current.value.rx))
            && outcome == HeadersIn(packet).outcome
  {
    hide AcceptAll, ParseHeaders, NoEnd, PassiveScript;
    ReceiveIs(p, packet);
    AcceptAllStores(p, HeadersIn(packet).headers);
    StoreAllKeepsMode(p.current.value.rx, HeadersIn(packet).headers);
  }

  /** A CONTINUE that crosses the ABORT is ignored. */
  lemma ClientIgnores(p: Party, packet: seq<byte>, m: nat)
    requires ClientAborting(p, m) && |packet| >= 3 && ClearFinal(packet[0]) == CONTINUE &&
             HeadersIn(packet).outcome.Clean?
    ensures var p' := ClientStep(p, Some(packet)); ClientAborting(p', m) && p'.out == p.out && p'.events == p.events
  {
    hide Receive, NoEnd, PassiveScript, HeadersIn;
    AbortingLooks(p, packet, m);
    assert ClientStep(p, Some(packet)) == ClientContinue(Receive(p, packet).0);
  }

  lemma ClientAborts(p: Party, packet: seq<byte>, m: nat)
    requires ClientAborting(p, m) && |packet| >= 3 && ClearFinal(packet[0]) == SUCCESS &&
             HeadersIn(packet).outcome.Clean?
    ensures var p' := ClientStep(p, Some(packet));
            Rested(p') && PassiveScript(p'.script) && p'.out == p.out && AbortedBy(p'.events, m)
            && (LinkErrorIn(p'.events) ==> LinkErrorIn(p.events))
  {
    hide Receive, NoEnd, HeadersIn, LinkErrorIn, Reqs, EventOf;
    AbortingLooks(p, packet, m);
    var p1 := ServerIdle(Receive(p, packet).0);
    var e := EventOf(p1, EvAbort, PUT, SUCCESS);
    assert ClientStep(p, Some(packet)) == Deliver(p1, EvAbort, PUT, SUCCESS, true);
    DeliverQuietly(p1, EvAbort, PUT, SUCCESS, true);
    EventKindOf(p1, EvAbort, PUT, SUCCESS);
    assert (p.events + [e])[..|p.events|] == p.events;
  }

  lemma EventKindOf(p: Party, kind: EventKind, cmd: nat, rsp: nat)
    ensures EventOf(p, kind, cmd, rsp).kind == kind
  {
  }

  /** What the server has reported of the request: all of it, or nothing yet. */
  predicate ReportsSoFar(s: Party, x: Exchange, late: bool) {
    x.n <= |s.events| && if late then Told(s.events, x.n, x.whole, x.st) else Reqs(s.events, x.n) == []
  }

  /** The server holds the request, for the rest of it to come in or of the response to go out. */
  predicate Engaged(s: Party, x: Exchange, late: bool) {
    && Serving(s, x.app, x.st) && (s.state.Receiving? || s.state.Responding?) && NoEnd(s.events, x.n)
    && ReportsSoFar(s, x, late)
  }

  predicate ServerAborted(s: Party, x: Exchange, late: bool) {
    Rested(s) && AbortedBy(s.events, x.n) && ReportsSoFar(s, x, late)
  }

  function SuccessPacket(): seq<byte> {
    Frame(SetFinal(SUCCESS), [])
  }

  /** The server, told of the abort while it holds the request. */
  lemma ServerAborts(p: Party, x: Exchange, late: bool)
    requires Engaged(p, x, late)
    ensures var p' := ServerStep(p, AbortPacket());
            && ServerAborted(p', x, late) && p'.out == p.out + [SuccessPacket()]
            && (LinkErrorIn(p'.events) ==> LinkErrorIn(p.events))
  {
    hide NoEnd, LinkErrorIn, Reqs, Chunks, Told, RestOk, OpcodesOk, QueueOk, Finish, ServerAborted;
    FinishAborted(p, x, late);
    assert ServerStep(p, AbortPacket()) == Finish(p, SUCCESS, EvAbort, ABORT);
  }

  lemma FinishAborted(p: Party, x: Exchange, late: bool)
    requires Engaged(p, x, late)
    ensures var p' := Finish(p, SUCCESS, EvAbort, ABORT);
            && ServerAborted(p', x, late) && p'.out == p.out + [SuccessPacket()]
            && (LinkErrorIn(p'.events) ==> LinkErrorIn(p.events))
  {
    hide NoEnd, LinkErrorIn, Reqs, Chunks, EventOf, RestOk, OpcodesOk, QueueOk, Told, Received;
    var p1 := ServerIdle(Respond(p, SUCCESS));
    var op := p.current.value.opcode;
    var e := EventOf(p1, EvAbort, op, ABORT);
    assert Tail(p.linkFaults) == p.linkFaults;
    DeliverQuietly(p1, EvAbort, op, ABORT, true);
    OneMore(p.events, e, x.n);
    EventKindOf(p1, EvAbort, op, ABORT);
    assert (p.events + [e])[..|p.events|] == p.events;
    if late { ToldStays(p.events, p.events + [e], x.n, x.whole, x.st); }
  }

  // ---- The rest of the request ----

  /** The last packet of the request on its way to the server, or one that asks for more of
      the response. */
  predicate LastPart(s: Party, x: Exchange, req: seq<byte>, sim: Rx) {
    && WholePacket(req) && req[0] == SetFinal(PUT) && HeadersIn(req).outcome.Clean?
    && if s.state.Responding? then
         && Answering(s, x.app, x.st, x.n) && s.current.value.txQueue != []
         && Told(s.events, x.n, x.whole, x.st) && req == Frame(SetFinal(PUT), [])
       else
         && (Ready(s, x.app, x.st, x.n) || Taking(s, x.app, x.st, x.n)) && Gathered(s, x.n, sim)
         && var sim' := StoreAll(sim, HeadersIn(req).headers); sim'.body.None? && Received(sim') == x.whole
  }

  /** A part of the request before its last. */
  predicate FirstPart(s: Party, x: Exchange, req: seq<byte>, sim: Rx) {
    && WholePacket(req) && req[0] == PUT && HeadersIn(req).outcome.Clean?
    && (Ready(s, x.app, x.st, x.n) || Taking(s, x.app, x.st, x.n)) && Gathered(s, x.n, sim)
  }

  lemma PartServes(s: Party, x: Exchange, req: seq<byte>, sim: Rx)
    requires LastPart(s, x, req, sim) || FirstPart(s, x, req, sim)
    ensures s.serverMode && !s.fault && s.linkFaults == [] && |req| >= 3
  {
    hide HeadersIn, StoreAll, Holds, OpcodesOk, QueueOk, RestOk, ReadyScript, Reqs, NoEnd, Told;
  }

  /** What the server takes the packet for: the request just announced, or the one at hand. */
  lemma PartTaken(s: Party, x: Exchange, req: seq<byte>, sim: Rx) returns (t: Party)
    requires |req| >= 3 && ClearFinal(req[0]) == PUT && Gathered(s, x.n, sim)
    requires Ready(s, x.app, x.st, x.n) || Taking(s, x.app, x.st, x.n)
    ensures ServerStep(s, req) == ServerReceive(t, req) && t.out == s.out
    ensures Taking(t, x.app, x.st, x.n) && Holds(t, x.n, sim)
    ensures t == if Ready(s, x.app, x.st, x.n) then Announced(s) else s
  {
    hide ServerReceive, Holds, OpcodesOk, QueueOk, RestOk, ReadyScript, Reqs, Announced;
    if Ready(s, x.app, x.st, x.n) {
      Announces(s, x.app, x.st, x.n, req);
      t := Announced(s);
    } else {
      t := s;
      ReceivingStep(s, req);
    }
  }

  lemma FirstPartTaken(s: Party, x: Exchange, req: seq<byte>, sim: Rx)
    requires FirstPart(s, x, req, sim) && Restrained(x.app)
    ensures var s' := ServerStep(s, req);
            && (Stopped(s') || (Engaged(s', x, false) && OneAnswer(s, s', x.app) && AnswerOf(s, s') == CONTINUE))
            && (x.app.Willing? && !Stopped(s) ==> !Stopped(s'))
  {
    hide ServerStep, ServerReceive, HeadersIn, StoreAll, Holds, NoEnd, ReadyScript, Reqs, Announced, LinkErrorIn, Fits,
         RestOk, OpcodesOk, QueueOk, Ruling;
    WholeSize(req);
    var t := PartTaken(s, x, req, sim);
    TakesMore(t, x.app, x.st, req, x.n, sim);
    if x.app.Willing? {
      WillingAlwaysFits(s, x.st, x.n);
      ReadyNotTaking(s, x);
      ServerLoad(s, t, x.app, x.st, req, x.n, sim);
    }
  }

  lemma ReadyNotTaking(s: Party, x: Exchange)
    ensures Ready(s, x.app, x.st, x.n) ==> !Taking(s, x.app, x.st, x.n)
  {
    if Ready(s, x.app, x.st, x.n) { NotTaking(s, x.app, x.st, x.n); }
  }

  lemma WillingAlwaysFits(p: Party, st: bool, n: nat)
    requires Ready(p, Willing, st, n) || Taking(p, Willing, st, n)
    ensures Fits(p)
  {
    hide Reqs, NoEnd, OpcodesOk, TxBudget, Responds;
    var s := p.script;
    forall i | 0 <= i < |s| ensures CallsFit(s[i], TxBudget(p)) {
      if i > 0 { assert s[1..][i - 1] == s[i]; }
      assert forall j :: 0 <= j < |s[i]| ==> CallOk(Willing, s[i][j], true);
    }
  }

  lemma LastPartTaken(s: Party, x: Exchange, req: seq<byte>, sim: Rx)
    requires LastPart(s, x, req, sim) && Restrained(x.app)
    ensures var s' := ServerStep(s, req);
            Stopped(s') || (OneAnswer(s, s', x.app) && Reported(s', x.app, x.st, x.n, x.whole, AnswerOf(s, s')))
  {
    hide ServerStep, ServerReceive, HeadersIn, StoreAll, Holds, NoEnd, ReadyScript, Reqs, LinkErrorIn, RestOk,
         OpcodesOk, QueueOk, Told, Reported, Received;
    WholeSize(req);
    if s.state.Responding? {
      GoesOn(s, x.app, x.st, req, x.n, x.whole);
    } else {
      var t := PartTaken(s, x, req, sim);
      TakesLast(t, x.app, x.st, req, x.n, sim);
    }
  }

  /** A server that has reported the request, and still holds it or not. */
  lemma ReportedHolds(s: Party, x: Exchange, a: byte)
    requires Reported(s, x.app, x.st, x.n, x.whole, a) && Restrained(x.app)
    ensures s.current.Some? ==> Engaged(s, x, true) && a == CONTINUE
    ensures s.current.None? ==>
              Rested(s) && RestOk(x.app, s.script) && a != CONTINUE && (x.app.Willing? ==> a == SUCCESS)
  {
    hide Told, RestOk, OpcodesOk, QueueOk, NoEnd;
  }

  /** What becomes of the last packet does not depend on the room it is read into. */
  lemma LastPartRoomed(s: Party, x: Exchange, req: seq<byte>, sim: Rx, room: nat)
    requires LastPart(s, x, req, sim)
    ensures LastPart(Roomed(s, room), x, req, sim)
    ensures ServerStep(Roomed(s, room), req) == Roomed(ServerStep(s, req), room)
  {
    hide ServerReceive, HeadersIn, StoreAll, NoEnd, ReadyScript, Reqs, LinkErrorIn, RestOk, OpcodesOk, QueueOk, Told,
         Received, Holds, Announced, ServerReply;
    var w, w' := World(s, s, [], []), World(s, Roomed(s, room), [], []);
    RoomyServer(w, w', x, sim);
    WholeSize(req);
    if s.state.Responding? {
      RoomedReply(s, room);
      assert ServerStep(s, req) == ServerReply(s, PUT);
      assert ServerStep(Roomed(s, room), req) == ServerReply(Roomed(s, room), PUT);
    } else {
      var t := PartTaken(s, x, req, sim);
      var u := PartTaken(Roomed(s, room), x, req, sim);
      if Ready(s, x.app, x.st, x.n) { RoomedAnnounced(s, room); }
      RoomedLast(t, room, req);
    }
  }

  lemma RoomedAnnounced(s: Party, room: nat)
    ensures Announced(Roomed(s, room)) == Roomed(Announced(s), room)
  {
    hide Deliver;
    RoomedDeliver(s.(current := Some(NewObject(s.nextId).(cmd := PUT)), nextId := s.nextId + 1), room, EvReqHint, PUT,
                  0, false);
  }

  lemma FirstPartRoomed(s: Party, x: Exchange, req: seq<byte>, sim: Rx, room: nat)
    requires FirstPart(s, x, req, sim)
    ensures FirstPart(Roomed(s, room), x, req, sim)
  {
    hide HeadersIn, Ready, Taking, Holds, WholePacket;
    RoomyServer(World(s, s, [], []), World(s, Roomed(s, room), [], []), x, sim);
  }

  // ---- The stages of an abort ----

  /** A packet that is ignored by a client that aborts. */
  predicate Crossing(packet: seq<byte>) {
    WholePacket(packet) && ClearFinal(packet[0]) == CONTINUE && HeadersIn(packet).outcome.Clean?
  }

  /** A part of the request is still under way to a server that will hold on to it, the ABORT
      behind it. */
  predicate BehindRequest(w: World, x: Exchange, req: seq<byte>, sim: Rx, late: bool) {
    && ClientAborting(w.client, x.m) && w.down == [] && w.up == req + AbortPacket()
    && if late then LastPart(w.server, x, req, sim) && ServerStep(w.server, req).current.Some?
       else FirstPart(w.server, x, req, sim)
  }

  /** Only the ABORT is under way to the server; perhaps a CONTINUE to the client. */
  predicate AbortOnWay(w: World, x: Exchange, crossing: bool, late: bool) {
    && ClientAborting(w.client, x.m) && w.up == AbortPacket() && Engaged(w.server, x, late)
    && if crossing then Crossing(w.down) else w.down == []
  }

  /** The server has aborted; its SUCCESS is under way, perhaps behind a CONTINUE. */
  predicate AnswerOnWay(w: World, x: Exchange, crossing: seq<byte>, late: bool) {
    && ClientAborting(w.client, x.m) && ServerAborted(w.server, x, late) && w.up == []
    && (crossing == [] || Crossing(crossing)) && w.down == crossing + SuccessPacket()
  }

  /** Both ends have reported the abort, once, and hold no object. */
  predicate BothAborted(w: World, x: Exchange, late: bool) {
    Rested(w.client) && AbortedBy(w.client.events, x.m) && ServerAborted(w.server, x, late) && Silent(w)
  }

  /** How far the abort has come, with a bound on the moves still to be made. */
  ghost predicate Aborting(w: World, x: Exchange, late: bool, moves: nat) {
    match moves
    case 4 => exists req, sim :: BehindRequest(w, x, req, sim, late)
    case 3 => AbortOnWay(w, x, true, late)
    case 2 =>
      AbortOnWay(w, x, false, late) || exists crossing :: crossing != [] && AnswerOnWay(w, x, crossing, late)
    case 1 => AnswerOnWay(w, x, [], late)
    case 0 => BothAborted(w, x, late)
    case _ => false
  }

  /** The packets at the front of the wires fit the buffers they are read into. */
  predicate FrontsHeld(w: World) {
    && (|w.up| >= 3 ==> PacketSize(w.up) <= Max(3, w.server.rxRoom))
    && (|w.down| >= 3 ==> PacketSize(w.down) <= Max(3, w.client.rxRoom))
  }

  lemma FrontFirst(packet: seq<byte>, rest: seq<byte>)
    requires WholePacket(packet)
    ensures |packet + rest| >= 3 && PacketSize(packet + rest) == |packet|
  {
    FirstPacket(packet, rest);
  }

  // ---- The turns ----

  lemma CancelOnly(w: World)
    ensures var c := CancelNicely(w.client); Play(w, Cancel) == w.(client := c, up := w.up + Sent(w.client, c))
  {
  }

  /** The ABORT goes behind what is outstanding. */
  lemma CancelAdds(w: World, x: Exchange)
    requires Keeping(w.client, x.m)
    ensures var w' := Play(w, Cancel);
            && w' == w.(client := w'.client, up := w.up + AbortPacket()) && ClientAborting(w'.client, x.m)
            && w'.client.rxRoom == w.client.rxRoom && w'.client.events == w.client.events
            && (Over(w') ==> Over(w)) && (!Oversized(w.client) ==> !Oversized(w'.client))
  {
    hide NoEnd, LinkErrorIn, CancelNicely, Oversized, WholePacket, PassiveScript;
    KeepsObject(w.client, x.m);
    ClientCancels(w.client, x.m);
    var c := CancelNicely(w.client);
    CancelOnly(w);
    SentOne(w.client, c, AbortPacket());
    AbortWhole();
    if !Oversized(w.client) { WholeAdded(w.client, c); }
    CancelRoom(w.client);
  }

  lemma CancelRoom(p: Party)
    ensures CancelNicely(p).rxRoom == p.rxRoom
  {
  }

  lemma PartThenAbort(w: World, x: Exchange, req: seq<byte>, sim: Rx, late: bool)
    requires BehindRequest(w, x, req, sim, late) && Restrained(x.app)
    ensures var w' := Play(w, ServerTurn);
            && w' != w && (Over(w') || AbortOnWay(w', x, true, late))
            && (x.app.Willing? && !late && !Over(w) && FrontsHeld(w) ==> !Over(w') && FrontsHeld(w'))
  {
    hide ServerStep, HeadersIn, LinkErrorIn, Oversized, WholePacket, ClientAborting, Engaged, LastPart, FirstPart,
         OneAnswer, ServerReceive;
    AbortWhole();
    PartServes(w.server, x, req, sim);
    PartWhole(w.server, x, req, sim);
    TurnTakes(w, req, AbortPacket());
    FrontFirst(req, AbortPacket());
    var w' := Play(w, ServerTurn);
    assert |w'.up| < |w.up|;
    if !Holding(w.server, req) {
      FaultOver(w');
    } else {
      PartHolds(w.server, x, req, sim, late);
      PartMoved(w, w', x, req, late);
    }
  }

  lemma PartWhole(s: Party, x: Exchange, req: seq<byte>, sim: Rx)
    requires LastPart(s, x, req, sim) || FirstPart(s, x, req, sim)
    ensures WholePacket(req)
  {
  }

  lemma PartHolds(s: Party, x: Exchange, req: seq<byte>, sim: Rx, late: bool)
    requires Restrained(x.app) && |req| >= 3
    requires if late then LastPart(s, x, req, sim) && ServerStep(s, req).current.Some? else FirstPart(s, x, req, sim)
    ensures var s' := ServerStep(s, req);
            && (Stopped(s') || (Engaged(s', x, late) && OneAnswer(s, s', x.app) && AnswerOf(s, s') == CONTINUE))
            && (x.app.Willing? && !late && !Stopped(s) ==> !Stopped(s'))
  {
    hide ServerStep, LastPart, FirstPart, Engaged, OneAnswer, Reported, LinkErrorIn;
    if late {
      LastPartTaken(s, x, req, sim);
      var s' := ServerStep(s, req);
      if !Stopped(s') {
        AnswerLong(s, s', x.app);
        ReportedHolds(s', x, AnswerOf(s, s'));
      }
    } else {
      FirstPartTaken(s, x, req, sim);
    }
  }

  lemma AnswerLong(p: Party, p': Party, app: App)
    requires OneAnswer(p, p', app)
    ensures |p'.out| > |p.out| && |p'.out[|p.out|]| >= 3
  {
  }

  lemma PartMoved(w: World, w': World, x: Exchange, req: seq<byte>, late: bool)
    requires ClientAborting(w.client, x.m) && Restrained(x.app) && w.down == [] && |req| >= 3
    requires w' == w.(server := w'.server, up := AbortPacket(), down := [] + Sent(w.server, w'.server))
    requires || Stopped(w'.server)
             || (Engaged(w'.server, x, late) && OneAnswer(w.server, w'.server, x.app)
                 && AnswerOf(w.server, w'.server) == CONTINUE)
    requires x.app.Willing? && !late && !Stopped(w.server) ==> !Stopped(w'.server)
    ensures Over(w') || AbortOnWay(w', x, true, late)
    ensures x.app.Willing? && !late && !Over(w) ==> !Over(w') && FrontsHeld(w')
  {
    hide HeadersIn, LinkErrorIn, Oversized, WholePacket, ClientAborting, Engaged;
    AbortWhole();
    FrontFirst(AbortPacket(), []);
    assert AbortPacket() + [] == AbortPacket();
    assert [] + Sent(w.server, w'.server) == Sent(w.server, w'.server);
    if Stopped(w.server) { StoppedOver(w); }
    if Stopped(w'.server) {
      StoppedOver(w');
    } else {
      if x.app.Willing? && !Over(w) {
        WholeAdded(w.server, w'.server);
        NotOver(w, w');
      }
      if !Over(w') {
        LastWhole(w.server, w'.server);
        WholeFront(w'.down);
      }
    }
  }

  lemma WholeFront(packet: seq<byte>)
    requires WholePacket(packet)
    ensures PacketSize(packet) == |packet|
  {
  }

  lemma NotOver(w: World, w': World)
    requires !Over(w) && w'.client == w.client && !Stopped(w'.server) && !Oversized(w'.server)
    ensures !Over(w')
  {
  }

  lemma AbortArrives(w: World, x: Exchange, crossing: bool, late: bool)
    requires AbortOnWay(w, x, crossing, late)
    ensures var w' := Play(w, ServerTurn);
            && w' != w && AnswerOnWay(w', x, if crossing then w.down else [], late) && (Over(w') ==> Over(w))
            && (FrontsHeld(w) ==> FrontsHeld(w'))
  {
    hide ServerStep, NoEnd, LinkErrorIn, Reqs, Serving, Oversized, WholePacket, HeadersIn, ClientAborting, AbortedBy,
         ReportsSoFar;
    AbortWhole();
    ServesOn(w.server, x.app, x.st);
    ServerAborts(w.server, x, late);
    TurnTreats(w, AbortPacket());
    var w' := Play(w, ServerTurn);
    BareWhole(SetFinal(SUCCESS));
    SentOne(w.server, w'.server, SuccessPacket());
    if !Oversized(w.server) { WholeAdded(w.server, w'.server); }
    if crossing { FrontFirst(w.down, SuccessPacket()); WholeFront(w.down); } else { WholeFront(SuccessPacket()); }
    assert [] + SuccessPacket() == SuccessPacket();
  }

  /** The CONTINUE in front of everything else on its way to the client. */
  lemma ContinueIgnored(w: World, x: Exchange, crossing: seq<byte>, rest: seq<byte>)
    requires ClientAborting(w.client, x.m) && Crossing(crossing) && w.down == crossing + rest
    ensures var w' := Play(w, ClientTurn);
            && w' == w.(client := w'.client, down := rest) && w' != w
            && (Over(w') || (ClientAborting(w'.client, x.m)
                             && w'.client.out == w.client.out && w'.client.events == w.client.events))
            && (FrontsHeld(w) ==> ClientAborting(w'.client, x.m) && w'.client.out == w.client.out
                                  && w'.client.events == w.client.events)
  {
    hide ClientStep, NoEnd, PassiveScript, HeadersIn, LinkErrorIn, Oversized;
    WholeSize(crossing);
    ClientIgnores(w.client, crossing, x.m);
    TurnTakes(w, crossing, rest);
    FrontFirst(crossing, rest);
    var w' := Play(w, ClientTurn);
    assert |rest| < |w.down|;
    SentNone(w.client, w'.client);
    assert w.up + [] == w.up;
    FaultOver(w');
  }

  lemma AnswerArrives(w: World, x: Exchange, late: bool)
    requires AnswerOnWay(w, x, [], late)
    ensures var w' := Play(w, ClientTurn);
            w' != w && BothAborted(w', x, late) && (Over(w') ==> Over(w)) && FrontsHeld(w')
  {
    hide ClientStep, NoEnd, PassiveScript, LinkErrorIn, Reqs, Oversized, ServerAborted;
    BareWhole(SetFinal(SUCCESS));
    assert [] + SuccessPacket() == SuccessPacket();
    ClientAborts(w.client, SuccessPacket(), x.m);
    TurnTreats(w, SuccessPacket());
    SentNone(w.client, Play(w, ClientTurn).client);
    SameOut(w.client, Play(w, ClientTurn).client);
  }

  lemma SameOver(w: World, w': World)
    requires w'.server == w.server && w'.client.out == w.client.out && w'.client.events == w.client.events
    requires !w'.client.fault
    ensures Over(w') ==> Over(w)
  {
  }

  lemma AbortingGoesOn(p: Party, m: nat)
    requires ClientAborting(p, m)
    ensures !p.fault
  {
  }

  lemma CrossedOne(w: World, x: Exchange, late: bool)
    requires AbortOnWay(w, x, true, late)
    ensures var w' := Play(w, ClientTurn);
            && w' != w && (Over(w') || AbortOnWay(w', x, false, late))
            && (FrontsHeld(w) ==> (Over(w') ==> Over(w)) && FrontsHeld(w'))
  {
    hide Play, Over, ClientAborting, Engaged, Crossing, PacketSize;
    assert w.down + [] == w.down;
    ContinueIgnored(w, x, w.down, []);
    var w' := Play(w, ClientTurn);
    if ClientAborting(w'.client, x.m) && w'.client.out == w.client.out && w'.client.events == w.client.events {
      AbortingGoesOn(w'.client, x.m);
      SameOver(w, w');
    }
  }

  lemma CrossedTwo(w: World, x: Exchange, crossing: seq<byte>, late: bool)
    requires AnswerOnWay(w, x, crossing, late) && crossing != []
    ensures var w' := Play(w, ClientTurn);
            && w' != w && (Over(w') || AnswerOnWay(w', x, [], late))
            && (FrontsHeld(w) ==> (Over(w') ==> Over(w)) && FrontsHeld(w'))
  {
    hide Play, Over, ClientAborting, ServerAborted, Crossing, PacketSize;
    ContinueIgnored(w, x, crossing, SuccessPacket());
    assert [] + SuccessPacket() == SuccessPacket();
    var w' := Play(w, ClientTurn);
    SuccessFront();
    if ClientAborting(w'.client, x.m) && w'.client.out == w.client.out && w'.client.events == w.client.events {
      AbortingGoesOn(w'.client, x.m);
      SameOver(w, w');
    }
  }

  lemma SuccessFront()
    ensures |SuccessPacket()| >= 3 && PacketSize(SuccessPacket()) == 3
  {
    BareWhole(SetFinal(SUCCESS));
  }

  // ---- Any order of turns ----

  /** Every turn keeps the abort on course and brings its end nearer. */
  lemma AbortStep(w: World, x: Exchange, late: bool, moves: nat, a: Act) returns (left: nat)
    requires Aborting(w, x, late, moves) && Restrained(x.app) && Turning(a)
    ensures var w' := Play(w, a);
            && (w' == w || (Over(w') && moves > 0) || (Aborting(w', x, late, left) && left < moves))
            && (x.app.Willing? && !late && !Over(w) && FrontsHeld(w) ==> !Over(w') && FrontsHeld(w'))
  {
    hide Play, AbortOnWay, AnswerOnWay, BehindRequest, BothAborted, Over, FrontsHeld;
    NothingToTake(w);
    left := 0;
    if moves == 4 {
      var req, sim :| BehindRequest(w, x, req, sim, late);
      BehindWire(w, x, req, sim, late);
      if a.ServerTurn? { PartThenAbort(w, x, req, sim, late); }
      left := 3;
    } else if moves == 3 {
      if a.ServerTurn? {
        AbortArrives(w, x, true, late);
        CrossingThere(w, x, late);
      } else {
        CrossedOne(w, x, late);
      }
      left := 2;
    } else if moves == 2 {
      left := 1;
      if AbortOnWay(w, x, false, late) {
        if a.ServerTurn? { AbortArrives(w, x, false, late); } else { NoCrossing(w, x, late); }
      } else {
        var crossing :| crossing != [] && AnswerOnWay(w, x, crossing, late);
        if a.ServerTurn? { AnswerWire(w, x, crossing, late); } else { CrossedTwo(w, x, crossing, late); }
      }
    } else if moves == 1 {
      AnswerWire(w, x, [], late);
      if a.ClientTurn? { AnswerArrives(w, x, late); }
    } else {
      CompletedAbort(w, x, late);
    }
  }

  lemma BehindWire(w: World, x: Exchange, req: seq<byte>, sim: Rx, late: bool)
    requires BehindRequest(w, x, req, sim, late)
    ensures w.down == []
  {
  }

  lemma CrossingThere(w: World, x: Exchange, late: bool)
    requires AbortOnWay(w, x, true, late)
    ensures w.down != []
  {
  }

  lemma NoCrossing(w: World, x: Exchange, late: bool)
    requires AbortOnWay(w, x, false, late)
    ensures w.down == []
  {
  }

  lemma AnswerWire(w: World, x: Exchange, crossing: seq<byte>, late: bool)
    requires AnswerOnWay(w, x, crossing, late)
    ensures w.up == []
  {
  }

  lemma CompletedAbort(w: World, x: Exchange, late: bool)
    requires BothAborted(w, x, late)
    ensures w.up == [] && w.down == []
  {
  }

  lemma AbortMoves(w: World, x: Exchange, late: bool, moves: nat)
    requires Aborting(w, x, late, moves) && Restrained(x.app) && moves > 0
    ensures Play(w, ServerTurn) != w || Play(w, ClientTurn) != w
  {
    hide Play, AbortOnWay, AnswerOnWay, BehindRequest, Over, FrontsHeld;
    if moves == 4 {
      var req, sim :| BehindRequest(w, x, req, sim, late);
      PartThenAbort(w, x, req, sim, late);
    } else if moves == 3 {
      AbortArrives(w, x, true, late);
    } else if moves == 2 {
      if AbortOnWay(w, x, false, late) {
        AbortArrives(w, x, false, late);
      } else {
        var crossing :| crossing != [] && AnswerOnWay(w, x, crossing, late);
        CrossedTwo(w, x, crossing, late);
      }
    } else {
      AnswerArrives(w, x, late);
    }
  }

  /** Reading on keeps the abort where it is. */
  lemma AbortReads(w: World, x: Exchange, late: bool, moves: nat, a: Act)
    requires Aborting(w, x, late, moves) && (a.ServerReads? || a.ClientReads?)
    ensures Aborting(Play(w, a), x, late, moves) && Over(Play(w, a)) == Over(w)
    ensures FrontsHeld(w) ==> FrontsHeld(Play(w, a))
  {
    hide Play, AbortOnWay, AnswerOnWay, BehindRequest, BothAborted, Over;
    var w' := Play(w, a);
    ReadingOn(w, a);
    ReadingFits(w, a);
    RoomyOver(w, w');
    if moves == 4 {
      var req, sim :| BehindRequest(w, x, req, sim, late);
      BehindReads(w, w', x, req, sim, late);
    } else if moves == 3 {
      AbortReadsOn(w, w', x, true, late);
    } else if moves == 2 && AbortOnWay(w, x, false, late) {
      AbortReadsOn(w, w', x, false, late);
    } else if moves == 2 {
      var crossing :| crossing != [] && AnswerOnWay(w, x, crossing, late);
      AnswerReadsOn(w, w', x, crossing, late);
    } else if moves == 1 {
      AnswerReadsOn(w, w', x, [], late);
    } else {
      AbortedReads(w, w', x, late);
    }
  }

  lemma ReadingFits(w: World, a: Act)
    requires a.ServerReads? || a.ClientReads?
    ensures FrontsHeld(w) ==> FrontsHeld(Play(w, a))
  {
  }

  lemma AbortingReads(w: World, w': World, x: Exchange)
    requires ClientAborting(w.client, x.m) && SameButRoom(w, w')
    ensures ClientAborting(w'.client, x.m)
  {
    hide NoEnd, PassiveScript;
  }

  lemma EngagedReads(w: World, w': World, x: Exchange, late: bool)
    requires SameButRoom(w, w')
    ensures Engaged(w'.server, x, late) == Engaged(w.server, x, late)
    ensures ServerAborted(w'.server, x, late) == ServerAborted(w.server, x, late)
  {
    hide NoEnd, OpcodesOk, QueueOk, RestOk, Told, Reqs, AbortedBy;
  }

  lemma BehindReads(w: World, w': World, x: Exchange, req: seq<byte>, sim: Rx, late: bool)
    requires BehindRequest(w, x, req, sim, late) && SameButRoom(w, w')
    ensures BehindRequest(w', x, req, sim, late)
  {
    hide ClientAborting, LastPart, FirstPart, ServerStep;
    AbortingReads(w, w', x);
    assert w'.server == Roomed(w.server, w'.server.rxRoom);
    PartServes(w.server, x, req, sim);
    if late {
      LastPartRoomed(w.server, x, req, sim, w'.server.rxRoom);
    } else {
      FirstPartRoomed(w.server, x, req, sim, w'.server.rxRoom);
    }
  }

  lemma AbortReadsOn(w: World, w': World, x: Exchange, crossing: bool, late: bool)
    requires AbortOnWay(w, x, crossing, late) && SameButRoom(w, w')
    ensures AbortOnWay(w', x, crossing, late)
  {
    hide ClientAborting, Engaged, Crossing;
    AbortingReads(w, w', x);
    EngagedReads(w, w', x, late);
  }

  lemma AnswerReadsOn(w: World, w': World, x: Exchange, crossing: seq<byte>, late: bool)
    requires AnswerOnWay(w, x, crossing, late) && SameButRoom(w, w')
    ensures AnswerOnWay(w', x, crossing, late)
  {
    hide ClientAborting, ServerAborted, Crossing;
    AbortingReads(w, w', x);
    EngagedReads(w, w', x, late);
  }

  lemma AbortedReads(w: World, w': World, x: Exchange, late: bool)
    requires BothAborted(w, x, late) && SameButRoom(w, w')
    ensures BothAborted(w', x, late)
  {
    hide ServerAborted, AbortedBy;
    EngagedReads(w, w', x, late);
  }

  lemma {:induction false} AbortKeeps(w: World, x: Exchange, late: bool, moves: nat, acts: seq<Act>) returns (left: nat)
    requires Aborting(w, x, late, moves) && Restrained(x.app) && Turns(acts)
    ensures var w' := PlayAll(w, acts);
            && ((Over(w') && Moves(w, acts) <= moves)
                || (Aborting(w', x, late, left) && left + Moves(w, acts) <= moves))
            && (x.app.Willing? && !late && !Over(w) && FrontsHeld(w) ==> !Over(w') && FrontsHeld(w'))
    decreases |acts|
  {
    hide Play, Aborting, Over, FrontsHeld;
    left := moves;
    if acts == [] {
    } else {
      var before, a := PlayAll(w, acts[..|acts| - 1]), acts[|acts| - 1];
      left := AbortKeeps(w, x, late, moves, acts[..|acts| - 1]);
      if Over(before) {
      } else if Turning(a) {
        var next := AbortStep(before, x, late, left, a);
        if Play(before, a) != before { left := next; }
      } else {
        AbortReads(before, x, late, left, a);
      }
    }
  }

  // ---- Cancelling in time ----

  /** The server as the ABORT will find it. */
  function Reached(w: World): Party {
    if |w.up| < 3 then w.server else ServerStep(w.server, w.up)
  }

  /** While the client asks for the rest of a response, what decides is whether the next packet
      takes all of it. */
  lemma ResponseDecides(w: World, x: Exchange)
    requires AskingOn(w, x) && !Stopped(Reached(w))
    ensures Reached(w).current.Some? <==> Packed(w.server).queue != []
  {
    hide ServerReply, HeadersIn, Keeping, Told, LinkErrorIn, Reqs, Chunks, Packed, Serving;
    BareWhole(SetFinal(PUT));
    ServesOn(w.server, x.app, x.st);
    Replies(w.server, x.app, x.st, x.n);
    AsksStep(w.server, x);
  }

  lemma AsksStep(s: Party, x: Exchange)
    requires Answering(s, x.app, x.st, x.n)
    ensures ServerStep(s, Frame(SetFinal(PUT), [])) == ServerReply(s, PUT)
  {
    hide ServerReply, Reqs, RestOk, OpcodesOk, QueueOk;
    BareWhole(SetFinal(PUT));
  }

  /** Some of the request has not been sent. */
  predicate Unfinished(w: World, x: Exchange, sim: Rx) {
    (Collecting(w, x, sim) && w.client.current.value.txQueue != []) || Midway(w, x, sim)
  }

  /** All of it has been sent, and the client waits. */
  predicate Finishing(w: World, x: Exchange, sim: Rx) {
    || (Collecting(w, x, sim) && w.client.current.value.txQueue == []) || AskingOn(w, x)
    || (Settling(w, x) && Restrained(x.app))
  }

  lemma CancelStarts(w: World, x: Exchange, sim: Rx)
    requires Unfinished(w, x, sim) && Restrained(x.app)
    ensures var w' := Play(w, Cancel);
            && (if Collecting(w, x, sim) then BehindRequest(w', x, w.up, sim, false)
                else AbortOnWay(w', x, true, false))
  {
    hide Play, HeadersIn, StoreAll, Balanced, Holds, NoEnd, Serving, ReadyScript, Reqs, Keeping, ClientAborting,
         WholePacket, Ready, SentNext;
    CancelAdds(w, x);
    assert [] + AbortPacket() == AbortPacket();
  }

  /** After the last packet: a server that will still hold the request is told of the abort. */
  lemma LateCancelStarts(w: World, x: Exchange, sim: Rx)
    requires Finishing(w, x, sim) && Restrained(x.app) && Reached(w).current.Some?
    ensures var w' := Play(w, Cancel);
            if w.up != [] then BehindRequest(w', x, w.up, sim, true) else AbortOnWay(w', x, true, true)
  {
    hide Play, HeadersIn, StoreAll, ServerStep, Keeping, ClientAborting, LastPart, Engaged, WholePacket, Reported,
         Ready, Taking, Gathered, InStep, Answering, Told;
    CancelAdds(w, x);
    assert [] + AbortPacket() == AbortPacket();
    if w.up != [] {
      FinishingPart(w, x, sim);
    } else {
      FinishingSettles(w, x, sim);
      SettlingHolds(w, x);
    }
  }

  lemma FinishingSettles(w: World, x: Exchange, sim: Rx)
    requires Finishing(w, x, sim) && w.up == []
    ensures Settling(w, x)
  {
    hide HeadersIn, StoreAll, Keeping, Gathered, InStep, Ready, Taking, Answering, Told, Settling;
  }

  /** The last part of the request, seen from the server. */
  lemma FinishingPart(w: World, x: Exchange, sim: Rx)
    requires Finishing(w, x, sim) && w.up != []
    ensures LastPart(w.server, x, w.up, sim) && |w.up| >= 3 && w.down == [] && Keeping(w.client, x.m)
  {
    hide HeadersIn, StoreAll, NoEnd, ReadyScript, Reqs, RestOk, OpcodesOk, QueueOk, Told, Received, Holds, Keeping,
         WholePacket, InStep;
    BareWhole(SetFinal(PUT));
    if Collecting(w, x, sim) {
      KeepsObject(w.client, x.m);
      CollectingServer(w, x, sim);
      WholeSize(w.up);
      WholeIn(StoreAll(sim, HeadersIn(w.up).headers), w.client, x.whole);
    }
  }

  lemma SettlingHolds(w: World, x: Exchange)
    requires Settling(w, x) && Restrained(x.app)
    ensures w.up == [] && WholePacket(w.down) && HeadersIn(w.down).outcome.Clean?
    ensures w.server.current.Some? ==> Engaged(w.server, x, true) && ClearFinal(w.down[0]) == CONTINUE
    ensures w.server.current.None? ==>
              Rested(w.server) && ClearFinal(w.down[0]) != CONTINUE && RestOk(x.app, w.server.script)
              && (x.app.Willing? ==> ClearFinal(w.down[0]) == SUCCESS)
  {
    hide HeadersIn, Keeping, WholePacket, Reported, Engaged, RestOk;
    WholeSize(w.down);
    SettlingQueue(w, x);
    ReportedHolds(w.server, x, ClearFinal(w.down[0]));
  }

  /** Whether the ABORT will find the request at the server, before anything else moves. */
  ghost predicate InTime(w: World, x: Exchange) {
    (exists sim :: Unfinished(w, x, sim)) || ((exists sim :: Finishing(w, x, sim)) && Reached(w).current.Some?)
  }

  /**
   A client that cancels while the server still holds the request, before the final packet or
   in the middle of a long response: in every order of turns there are no more than four
   moves, and once neither side can move both have reported the abort exactly once and are
   idle without an object; before the final packet the request has not been reported, after
   it whole. With a server that has nothing to add nothing can go wrong either, as long as
   the packets under way fit the buffers they are read into.
   */
  lemma AbortTheorem(w: World, x: Exchange, acts: seq<Act>)
    requires InTime(w, x) && Restrained(x.app) && Turns(acts)
    ensures var start := Play(w, Cancel);
            var w' := PlayAll(start, acts);
            var late := w.client.current.Some? && w.client.current.value.txQueue == [];
            && Moves(start, acts) <= 4
            && (Over(w') || (Play(w', ServerTurn) == w' && Play(w', ClientTurn) == w' ==> BothAborted(w', x, late)))
            && (x.app.Willing? && !Over(w) && FrontsHeld(w) ==> !Over(w'))
  {
    hide Play, PlayAll, Over, Unfinished, Finishing, BothAborted, Moves, FrontsHeld, Reached;
    var start := Play(w, Cancel);
    var late, moves := AbortBegins(w, x);
    var left := AbortKeeps(start, x, late, moves, acts);
    var w' := PlayAll(start, acts);
    if !Over(w') && left > 0 { AbortMoves(w', x, late, left); }
  }

  lemma AbortBegins(w: World, x: Exchange) returns (late: bool, moves: nat)
    requires InTime(w, x) && Restrained(x.app)
    ensures var start := Play(w, Cancel);
            && moves <= 4 && Aborting(start, x, late, moves) && (Over(start) ==> Over(w))
            && w.client.current.Some? && (late <==> w.client.current.value.txQueue == [])
            && (FrontsHeld(w) ==> FrontsHeld(start)) && (x.app.Willing? && !Over(w) ==> !late)
  {
    hide Play, Over, BehindRequest, AbortOnWay, AnswerOnWay, BothAborted, Keeping, Collecting, Midway, Settling,
         AskingOn, Reached;
    var start := Play(w, Cancel);
    if sim :| Unfinished(w, x, sim) {
      late := false;
      CancelStarts(w, x, sim);
      moves := if Collecting(w, x, sim) then 4 else 3;
      UnfinishedWaits(w, x, sim);
    } else {
      var sim :| Finishing(w, x, sim);
      late := true;
      LateCancelStarts(w, x, sim);
      moves := if w.up != [] then 4 else 3;
      FinishingWaits(w, x, sim);
      if x.app.Willing? && !Over(w) { WillingDone(w, x, sim); }
    }
    CancelAdds(w, x);
    CancelFronts(w, start);
  }

  lemma UnfinishedWaits(w: World, x: Exchange, sim: Rx)
    requires Unfinished(w, x, sim)
    ensures Keeping(w.client, x.m) && w.client.current.Some? && w.client.current.value.txQueue != []
    ensures w.up == [] || WholePacket(w.up)
  {
    hide Keeping, HeadersIn, StoreAll, Holds, InStep, Ready, Taking, WholePacket;
    KeepsObject(w.client, x.m);
  }

  lemma FinishingWaits(w: World, x: Exchange, sim: Rx)
    requires Finishing(w, x, sim)
    ensures Keeping(w.client, x.m) && w.client.current.Some? && w.client.current.value.txQueue == []
    ensures w.up == [] || WholePacket(w.up)
  {
    hide HeadersIn, StoreAll, Holds, InStep, Ready, Taking, WholePacket, Sending, Told, Answering;
    BareWhole(SetFinal(PUT));
    KeepsObject(w.client, x.m);
    if Settling(w, x) && Restrained(x.app) { SettlingQueue(w, x); }
  }

  lemma SettlingQueue(w: World, x: Exchange)
    requires Settling(w, x) && Restrained(x.app)
    ensures w.client.current.Some? && w.client.current.value.txQueue == []
  {
    SettlingSent(w, x);
  }

  /** A willing server has nothing left to say once the request has arrived. */
  lemma WillingDone(w: World, x: Exchange, sim: Rx)
    requires Finishing(w, x, sim) && x.app.Willing? && !Over(w)
    ensures Reached(w).current.None?
  {
    hide HeadersIn, StoreAll, ServerStep, Keeping, WholePacket, Told, LinkErrorIn, Oversized, Collecting, AskingOn,
         Settling;
    if AskingOn(w, x) {
      AskingNotCollecting(w, x);
      assert false;
    } else if Collecting(w, x, sim) {
      WillingTakesLast(w, x, sim);
    } else {
      SettlingHolds(w, x);
      SettlingWilling(w, x);
    }
  }

  lemma SettlingWilling(w: World, x: Exchange)
    requires Settling(w, x) && x.app.Willing?
    ensures w.server.current.None?
  {
    hide HeadersIn, Keeping, WholePacket, Reported;
    WholeSize(w.down);
    WillingSays(w.server, x.st, x.n, x.whole, ClearFinal(w.down[0]));
  }

  lemma WillingTakesLast(w: World, x: Exchange, sim: Rx)
    requires Finishing(w, x, sim) && Collecting(w, x, sim) && x.app.Willing? && !Over(w)
    ensures Reached(w).current.None?
  {
    hide HeadersIn, StoreAll, ServerStep, ServerReceive, Keeping, LastPart, WholePacket, Told, LinkErrorIn, Oversized,
         Ready, Taking, Gathered, InStep, Holds, Fits, Announced, Reported;
    WholeSize(w.up);
    FinishingPart(w, x, sim);
    LastPartTaken(w.server, x, w.up, sim);
    var s := ServerStep(w.server, w.up);
    var t := ServerTakes(w, x, sim);
    WillingAlwaysFits(w.server, x.st, x.n);
    ReadyNotTaking(w.server, x);
    ServerLoad(w.server, t, x.app, x.st, w.up, x.n, sim);
    AnswerLong(w.server, s, x.app);
    WillingSays(s, x.st, x.n, x.whole, AnswerOf(w.server, s));
  }

  lemma CancelFronts(w: World, w': World)
    requires w' == w.(client := w'.client, up := w.up + AbortPacket()) && w'.client.rxRoom == w.client.rxRoom
    requires w.up == [] || WholePacket(w.up)
    ensures FrontsHeld(w) ==> FrontsHeld(w')
  {
    hide WholePacket;
    AbortWhole();
    FrontFirst(AbortPacket(), []);
    assert AbortPacket() + [] == AbortPacket() && [] + AbortPacket() == AbortPacket();
    if w.up != [] {
      FrontFirst(w.up, AbortPacket());
      WholeFront(w.up);
      WholeSize(w.up);
    }
  }
}
