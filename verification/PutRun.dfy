/** The runs of a PUT: which packet is under way, and what both ends hold. */
module PutRun {
  import opened Octets
  import opened Headers
  import opened Fragmenter
  import opened Reassembler
  import opened Streaming
  import opened Framing
  import opened Session
  import opened Events
  import opened Lifetime
  import opened Refusal
  import opened Lockstep
  import opened Put
  import opened PutServer
  import opened PutClient

  /** What a run is about: the server's application, whether it takes the body as a stream,
      how many events server and client had on record before, and the headers queued. */
  datatype Exchange = Exchange(app: App, st: bool, n: nat, m: nat, whole: seq<Header>)

  // ---- The phases ----

  /** What such an application answers reads cleanly. */
  predicate ReadsCleanly(x: Exchange, packet: seq<byte>)
    requires |packet| >= 3
  {
    Measured(x.app) ==> HeadersIn(packet).outcome.Clean?
  }

  /** A packet of the request is on its way. */
  predicate Collecting(w: World, x: Exchange, sim: Rx) {
    && Keeping(w.client, x.m) && w.down == [] && WholePacket(w.up)
    && w.up[0] == (if w.client.current.value.txQueue == [] then SetFinal(PUT) else PUT)
    && HeadersIn(w.up).outcome.Clean?
    && (Ready(w.server, x.app, x.st, x.n) || Taking(w.server, x.app, x.st, x.n)) && Gathered(w.server, x.n, sim)
    && Balanced(StoreAll(sim, HeadersIn(w.up).headers), w.client, x.whole)
  }

  /** The request has arrived; the client asks for the rest of a long response. */
  predicate AskingOn(w: World, x: Exchange) {
    && Keeping(w.client, x.m) && w.client.current.value.txQueue == []
    && w.down == [] && w.up == Frame(SetFinal(PUT), [])
    && Answering(w.server, x.app, x.st, x.n) && w.server.current.value.txQueue != []
    && Told(w.server.events, x.n, x.whole, x.st)
  }

  /** An answer is on its way that may ask for more of the request. */
  predicate Midway(w: World, x: Exchange, sim: Rx) {
    && Keeping(w.client, x.m) && w.client.current.value.txQueue != []
    && w.up == [] && WholePacket(w.down) && ReadsCleanly(x, w.down) && Interim(x.app, ClearFinal(w.down[0]))
    && Taking(w.server, x.app, x.st, x.n) && Holds(w.server, x.n, sim) && Balanced(sim, w.client, x.whole)
  }

  /** A response is on its way, to a request that was refused or has arrived. */
  predicate Settling(w: World, x: Exchange) {
    && Keeping(w.client, x.m) && w.up == [] && WholePacket(w.down) && ReadsCleanly(x, w.down)
    && (Refused(w.server, x.app, x.n, ClearFinal(w.down[0])) ||
        (w.client.current.value.txQueue == []
         && Reported(w.server, x.app, x.st, x.n, x.whole, ClearFinal(w.down[0]))))
  }

  /** Nothing since then, or the whole request. */
  predicate NothingOrAll(s: Party, x: Exchange) {
    x.n <= |s.events| && (Reqs(s.events, x.n) == [] || Told(s.events, x.n, x.whole, x.st))
  }

  /** The client's request has ended in success. */
  predicate Succeeded(c: Party) {
    |c.events| > 0 && var last := c.events[|c.events| - 1]; last.kind.EvReqDone? && last.rsp == SUCCESS
  }

  /** It has ended with a response of the server. */
  predicate HasResponse(c: Party) {
    |c.events| > 0 && c.events[|c.events| - 1].kind.EvReqDone?
  }

  predicate Ended(c: Party, m: nat) {
    |c.events| > 0 && Closed(c.events, m, c.events[|c.events| - 1].rsp)
  }

  /** The client has been told how it ended. */
  predicate Finished(w: World, x: Exchange) {
    && Rested(w.client) && PassiveScript(w.client.script) && Silent(w) && Ended(w.client, x.m)
    && NothingOrAll(w.server, x)
    && (Restrained(x.app) ==> Completed(w, x))
  }

  /** Both ends are at rest, the request was reported whole and the client got its response. */
  predicate Completed(w: World, x: Exchange) {
    && Rested(w.client) && Rested(w.server) && Silent(w) && Ended(w.client, x.m)
    && x.n <= |w.server.events| && Told(w.server.events, x.n, x.whole, x.st)
    && w.client.events[|w.client.events| - 1].kind.EvReqDone?
    && (x.app.Willing? ==> Succeeded(w.client))
  }

  ghost predicate Putting(w: World, x: Exchange) {
    || (exists sim :: Collecting(w, x, sim)) || AskingOn(w, x)
    || (exists sim :: Midway(w, x, sim)) || Settling(w, x) || Finished(w, x)
  }

  // ---- The server's turn ----

  lemma ServerMoved(w: World, w': World, x: Exchange)
    requires w' == w.(server := w'.server, up := [], down := Sent(w.server, w'.server))
    requires OneAnswer(w.server, w'.server, x.app) && !Over(w')
    ensures WholePacket(w'.down) && ReadsCleanly(x, w'.down) && ClearFinal(w'.down[0]) == AnswerOf(w.server, w'.server)
  {
    hide Oversized, LinkErrorIn, HeadersIn, WholePacket;
    LastWhole(w.server, w'.server);
  }

  lemma StoppedOver(w: World)
    requires Stopped(w.server) || Stopped(w.client)
    ensures Over(w)
  {
  }

  /** The server in the middle of the request, just announced or not. */
  lemma ServerTakes(w: World, x: Exchange, sim: Rx) returns (s: Party)
    requires Collecting(w, x, sim)
    ensures ServerStep(w.server, w.up) == ServerReceive(s, w.up) && s.out == w.server.out
    ensures Taking(s, x.app, x.st, x.n) && Holds(s, x.n, sim) && w.server.serverMode && !w.server.fault
    ensures s == if Ready(w.server, x.app, x.st, x.n) then Announced(w.server) else w.server
    ensures |w.up| >= 3 && Taker(w.server, w.up) == Some(s)
  {
    hide ServerReceive, HeadersIn, StoreAll, Balanced, Holds, OpcodesOk, QueueOk, RestOk, ReadyScript, Reqs, Keeping,
         Announced, Deliver;
    if Ready(w.server, x.app, x.st, x.n) {
      AnnouncedTaker(w.server, w.up);
      Announces(w.server, x.app, x.st, x.n, w.up);
      s := Announced(w.server);
    } else {
      s := w.server;
      ReceivingStep(s, w.up);
    }
  }

  lemma ReceivingStep(s: Party, packet: seq<byte>)
    requires s.state.Receiving? && |packet| >= 3
    ensures ServerStep(s, packet) == ServerReceive(s, packet)
  {
  }

  lemma WholeIn(rx: Rx, c: Party, whole: seq<Header>)
    requires c.current.Some? && Balanced(rx, c, whole) && c.current.value.txQueue == []
    ensures rx.body.None? && Received(rx) == whole
  {
    assert Received(rx) + [] == Received(rx);
  }

  /** The server is about to answer SUCCESS to a request it does not have yet. */
  predicate Early(w: World) {
    !Incomplete(w.up) && AnswersEarly(w.server, w.up[..PacketSize(w.up)])
  }

  /** SUCCESS is on its way for a request that the server has not reported. */
  predicate SuccessOnWay(w: World, x: Exchange) {
    x.n <= |w.server.events| && |w.down| >= 3 && ClearFinal(w.down[0]) == SUCCESS && Reqs(w.server.events, x.n) == []
  }

  lemma EarlyWhole(w: World)
    requires WholePacket(w.up)
    ensures Early(w) <==> AnswersEarly(w.server, w.up)
    ensures Final(w.up[0]) ==> !Early(w)
  {
    hide Receive, Checked, Ruling, Deliver, Taker;
    assert w.up[..|w.up|] == w.up;
  }

  lemma ToldSome(events: seq<Event>, n: nat, whole: seq<Header>, st: bool)
    requires n <= |events| && Told(events, n, whole, st)
    ensures Reqs(events, n) != []
  {
  }

  /** A packet of the request, in a buffer that can hold it. */
  lemma CollectingHeld(w: World, x: Exchange, sim: Rx)
    requires Collecting(w, x, sim) && Holding(w.server, w.up)
    ensures var w' := Play(w, ServerTurn);
            && (Over(w') || Midway(w', x, StoreAll(sim, HeadersIn(w.up).headers)) || Settling(w', x))
            && (Stopped(w'.server) || OneAnswer(w.server, w'.server, x.app))
            && (Over(w') || (SuccessOnWay(w', x) <==> Early(w)))
  {
    hide ServerStep, ServerReceive, StoreAll, HeadersIn, InStep, Holds, Keeping, Ready, Received, Gathered,
         Stopped, Oversized, LinkErrorIn, WholePacket, Ruling, Deciding, Taker, Told, Reqs, Serving, NoEnd, Over;
    KeepsObject(w.client, x.m);
    WholeSize(w.up);
    EarlyWhole(w);
    var s := ServerTakes(w, x, sim);
    TurnTreats(w, w.up);
    var w' := Play(w, ServerTurn);
    var sim' := StoreAll(sim, HeadersIn(w.up).headers);
    if w.client.current.value.txQueue == [] {
      WholeIn(sim', w.client, x.whole);
      TakesLast(s, x.app, x.st, w.up, x.n, sim);
    } else {
      TakesMore(s, x.app, x.st, w.up, x.n, sim);
    }
    if Stopped(w'.server) {
      StoppedOver(w');
    } else if !Over(w') {
      ServerMoved(w, w', x);
      if w.client.current.value.txQueue == [] { ToldSome(w'.server.events, x.n, x.whole, x.st); }
    }
  }

  lemma CollectingStep(w: World, x: Exchange, sim: Rx)
    requires Collecting(w, x, sim)
    ensures var w' := Play(w, ServerTurn);
            && (Over(w') || Midway(w', x, StoreAll(sim, HeadersIn(w.up).headers)) || Settling(w', x))
            && (Stopped(w'.server) || OneAnswer(w.server, w'.server, x.app))
            && (Over(w') || (SuccessOnWay(w', x) <==> Early(w)))
            && (Holding(w.server, w.up) || w'.server.fault)
  {
    hide Play, Midway, Settling, OneAnswer, HeadersIn, StoreAll, Early, SuccessOnWay, Ready, Taking, Gathered, Balanced,
         LinkErrorIn, Oversized, WholePacket, Keeping;
    if Holding(w.server, w.up) {
      CollectingHeld(w, x, sim);
    } else {
      CollectingServer(w, x, sim);
      TurnTreats(w, w.up);
    }
  }

  lemma CollectingServer(w: World, x: Exchange, sim: Rx)
    requires Collecting(w, x, sim)
    ensures w.server.serverMode && !w.server.fault
  {
    hide HeadersIn, StoreAll, Balanced, Holds, OpcodesOk, QueueOk, RestOk, ReadyScript, Reqs, Keeping, NoEnd;
  }

  lemma AskingStep(w: World, x: Exchange)
    requires AskingOn(w, x)
    ensures var w' := Play(w, ServerTurn);
            (Over(w') || Settling(w', x)) && (Stopped(w'.server) || OneAnswer(w.server, w'.server, x.app))
  {
    hide ServerStep, StoreAll, HeadersIn, InStep, Keeping, Told, Reported, Refused, Stopped, Oversized, LinkErrorIn,
         Serving;
    BareWhole(SetFinal(PUT));
    TurnTreats(w, w.up);
    ServesOn(w.server, x.app, x.st);
    var w' := Play(w, ServerTurn);
    GoesOn(w.server, x.app, x.st, w.up, x.n, x.whole);
    if Stopped(w'.server) { StoppedOver(w'); }
    if !Over(w') { ServerMoved(w, w', x); }
  }

  lemma ServesOn(p: Party, app: App, st: bool)
    requires Serving(p, app, st)
    ensures p.serverMode && !p.fault && p.current.Some?
  {
  }

  lemma BareWhole(op: byte)
    ensures WholePacket(Frame(op, [])) && |Frame(op, [])| == 3 && Frame(op, [])[0] == op
    ensures HeadersIn(Frame(op, [])) == Parsed([], Clean)
  {
    FrameIsWhole(op, []);
    assert Frame(op, [])[3..] == [];
  }

  // ---- The client's turn ----

  /** The packet a client has just made is on its way. */
  lemma ClientMadeNext(w: World, w': World, x: Exchange, p: Party, sim: Rx)
    requires w'.up == Sent(p, w'.client) && w'.down == [] && w'.server == w.server
    requires Keeping(w'.client, x.m) && SentNext(p, w'.client) && !Over(w')
    requires Ready(w.server, x.app, x.st, x.n) || Taking(w.server, x.app, x.st, x.n)
    requires Gathered(w.server, x.n, sim) && p.current.Some? && Balanced(sim, p, x.whole)
    ensures Collecting(w', x, sim)
  {
    hide StoreAll, HeadersIn, InStep, Holds, Taking, Ready, Oversized, LinkErrorIn, Keeping, SentNext, WholePacket;
    KeepsObject(w'.client, x.m);
    NextPacket(sim, p, w'.client, x.whole);
    LastWhole(p, w'.client);
  }

  lemma KeepsObject(c: Party, m: nat)
    requires Keeping(c, m)
    ensures c.current.Some? && !c.serverMode && !c.fault && m <= |c.events|
  {
  }

  /** The client has ended its request, and sent nothing more. */
  predicate HasClosed(w: World, w': World, x: Exchange)
    requires |w.down| >= 3
  {
    && Rested(w'.client) && PassiveScript(w'.client.script) && Silent(w') && Ended(w'.client, x.m)
    && (HeadersIn(w.down).outcome.Clean? ==> HasResponse(w'.client))
    && (HasResponse(w'.client) ==> (Succeeded(w'.client) <==> ClearFinal(w.down[0]) == SUCCESS))
  }

  /** The client's end tells what the response was. */
  predicate ResponseTaken(w: World, w': World, x: Exchange) {
    w'.server == w.server && |w.down| >= 3
    && (HasResponse(w'.client) ==> (Succeeded(w'.client) <==> ClearFinal(w.down[0]) == SUCCESS))
  }

  lemma ClientClosed(w: World, w': World, x: Exchange)
    requires w' == w.(client := w'.client, down := [], up := w.up + Sent(w.client, w'.client))
    requires |w.down| >= 3 && w.up == []
    requires var rsp := ClearFinal(w.down[0]);
             || (HeadersIn(w.down).outcome.Broken? && ClosedBy(w.client, w'.client, EvParseErr, rsp, x.m))
             || (HeadersIn(w.down).outcome.Clean? && ClosedBy(w.client, w'.client, EvReqDone, rsp, x.m))
    ensures HasClosed(w, w', x) && ResponseTaken(w, w', x)
  {
    hide HeadersIn, NoEnd, PassiveScript, LinkErrorIn;
    SentNone(w.client, w'.client);
  }

  lemma MidwayStep(w: World, x: Exchange, sim: Rx)
    requires Midway(w, x, sim)
    ensures var w' := Play(w, ClientTurn);
            || Over(w') || (Collecting(w', x, sim) && ClearFinal(w.down[0]) == CONTINUE)
            || (Finished(w', x) && ResponseTaken(w, w', x))
  {
    hide ClientStep, StoreAll, HeadersIn, InStep, Holds, Keeping, Reqs, NoEnd, Oversized, LinkErrorIn, Packed,
         PassiveScript, SentNext, Serving, Told;
    KeepsObject(w.client, x.m);
    TurnTreats(w, w.down);
    WholeSize(w.down);
    TakesAnswer(w.client, w.down, x.m);
    ServerOfMidway(w, x, sim);
    var w' := Play(w, ClientTurn);
    if Stopped(w'.client) { StoppedOver(w'); }
    if !Over(w') {
      if HeadersIn(w.down).outcome.Clean? && ClearFinal(w.down[0]) == CONTINUE {
        ClientMadeNext(w, w', x, w.client, sim);
      } else {
        ClientClosed(w, w', x);
      }
    }
  }

  lemma ServerOfMidway(w: World, x: Exchange, sim: Rx)
    requires Midway(w, x, sim)
    ensures NothingOrAll(w.server, x) && Gathered(w.server, x.n, sim)
    ensures Restrained(x.app) ==> ClearFinal(w.down[0]) == CONTINUE
  {
  }

  lemma SettlingStep(w: World, x: Exchange)
    requires Settling(w, x)
    ensures var w' := Play(w, ClientTurn);
            || Over(w') || (AskingOn(w', x) && ClearFinal(w.down[0]) == CONTINUE)
            || (Finished(w', x) && ResponseTaken(w, w', x))
  {
    hide ClientStep, HeadersIn, Keeping, Reqs, NoEnd, Oversized, LinkErrorIn, Packed, PassiveScript, SentNext, Serving,
         Told, HasClosed;
    KeepsObject(w.client, x.m);
    TurnTreats(w, w.down);
    WholeSize(w.down);
    TakesAnswer(w.client, w.down, x.m);
    var w' := Play(w, ClientTurn);
    if Stopped(w'.client) { StoppedOver(w'); }
    if !Over(w') {
      if HeadersIn(w.down).outcome.Clean? && ClearFinal(w.down[0]) == CONTINUE {
        ClientAsksOn(w, w', x);
      } else {
        ClientClosed(w, w', x);
        SettledEnds(w, w', x);
      }
    }
  }

  lemma ClientAsksOn(w: World, w': World, x: Exchange)
    requires Settling(w, x) && ClearFinal(w.down[0]) == CONTINUE
    requires w' == w.(client := w'.client, down := [], up := w.up + Sent(w.client, w'.client))
    requires Keeping(w'.client, x.m) && SentNext(w.client, w'.client)
    ensures AskingOn(w', x)
  {
    hide HeadersIn, Keeping, Reqs, Told, Serving, SentNext;
    KeepsObject(w.client, x.m);
    EmptyPacket(w.client, w'.client);
    SentOne(w.client, w'.client, Frame(SetFinal(PUT), []));
  }

  lemma SettledEnds(w: World, w': World, x: Exchange)
    requires Settling(w, x) && (ClearFinal(w.down[0]) != CONTINUE || !HeadersIn(w.down).outcome.Clean?)
    requires w'.server == w.server && HasClosed(w, w', x)
    ensures Finished(w', x)
  {
    hide HeadersIn, NoEnd, Reqs, Told, PassiveScript, Succeeded, Serving;
  }

  // ---- Any turn ----

  /** A turn with nothing to take does nothing. */
  lemma NothingToTake(w: World)
    ensures w.up == [] ==> Play(w, ServerTurn) == w
    ensures w.down == [] ==> Play(w, ClientTurn) == w
  {
  }

  /** Taking packets, and reading on before that. */
  predicate Passive(a: Act) {
    a.ServerTurn? || a.ClientTurn? || a.ServerReads? || a.ClientReads?
  }

  predicate Turns(acts: seq<Act>) {
    forall i :: 0 <= i < |acts| ==> Passive(acts[i])
  }

  lemma PutStep(w: World, x: Exchange, a: Act)
    requires Putting(w, x) && Passive(a)
    ensures var w' := Play(w, a); Over(w') || Putting(w', x)
  {
    hide Play, Keeping, Balanced, HeadersIn, StoreAll, Taking, Ready, Holds, Told, Over, Gathered, Reported, Refused;
    NothingToTake(w);
    if a.ServerReads? || a.ClientReads? {
      PutReads(w, x, a);
    } else if sim :| Collecting(w, x, sim) {
      if a.ServerTurn? { CollectingStep(w, x, sim); }
    } else if AskingOn(w, x) {
      if a.ServerTurn? { AskingStep(w, x); }
    } else if sim :| Midway(w, x, sim) {
      if a.ClientTurn? { MidwayStep(w, x, sim); }
    } else if Settling(w, x) {
      if a.ClientTurn? { SettlingStep(w, x); }
    }
  }

  // ---- Reading on ----

  /** Worlds that differ at most in the room for what the handles receive. */
  predicate SameButRoom(w: World, w': World) {
    && w'.up == w.up && w'.down == w.down
    && w'.client == w.client.(rxRoom := w'.client.rxRoom) && w'.server == w.server.(rxRoom := w'.server.rxRoom)
  }

  lemma ReadingOn(w: World, a: Act)
    requires a.ServerReads? || a.ClientReads?
    ensures SameButRoom(w, Play(w, a))
  {
  }

  lemma RoomyServer(w: World, w': World, x: Exchange, sim: Rx)
    requires SameButRoom(w, w')
    ensures Ready(w'.server, x.app, x.st, x.n) == Ready(w.server, x.app, x.st, x.n)
    ensures Taking(w'.server, x.app, x.st, x.n) == Taking(w.server, x.app, x.st, x.n)
    ensures Answering(w'.server, x.app, x.st, x.n) == Answering(w.server, x.app, x.st, x.n)
    ensures Rested(w'.server) == Rested(w.server)
    ensures Holds(w'.server, x.n, sim) == Holds(w.server, x.n, sim)
  {
    hide OpcodesOk, QueueOk, RestOk, ReadyScript, Reqs, NoEnd, Received, Agrees, Chunks, Plain;
  }

  lemma RoomyClient(w: World, w': World, x: Exchange)
    requires SameButRoom(w, w')
    ensures Keeping(w'.client, x.m) == Keeping(w.client, x.m)
    ensures Rested(w'.client) == Rested(w.client) && Ended(w'.client, x.m) == Ended(w.client, x.m)
    ensures Keeping(w.client, x.m) ==> w.client.current.Some?
  {
    hide NoEnd, PassiveScript, Closed;
  }

  lemma RoomyOver(w: World, w': World)
    requires SameButRoom(w, w')
    ensures Over(w') == Over(w)
  {
    hide LinkErrorIn, WholePacket;
  }

  lemma PutReads(w: World, x: Exchange, a: Act)
    requires Putting(w, x) && (a.ServerReads? || a.ClientReads?)
    ensures Putting(Play(w, a), x)
  {
    hide Play, Collecting, AskingOn, Midway, Settling, Finished, SameButRoom;
    var w' := Play(w, a);
    ReadingOn(w, a);
    if sim :| Collecting(w, x, sim) {
      CollectingReads(w, w', x, sim);
    } else if AskingOn(w, x) {
      AskingReads(w, w', x);
    } else if sim :| Midway(w, x, sim) {
      MidwayReads(w, w', x, sim);
    } else if Settling(w, x) {
      SettlingReads(w, w', x);
    } else {
      FinishedReads(w, w', x);
    }
  }

  lemma CollectingReads(w: World, w': World, x: Exchange, sim: Rx)
    requires Collecting(w, x, sim) && SameButRoom(w, w')
    ensures Collecting(w', x, sim)
  {
    hide Keeping, HeadersIn, StoreAll, Taking, Ready, Holds, InStep, WholePacket;
    RoomyClient(w, w', x);
    RoomyServer(w, w', x, sim);
  }

  lemma AskingReads(w: World, w': World, x: Exchange)
    requires AskingOn(w, x) && SameButRoom(w, w')
    ensures AskingOn(w', x)
  {
    hide Keeping, Answering, Told, Frame;
    RoomyClient(w, w', x);
    RoomyServer(w, w', x, NewRx());
  }

  lemma MidwayReads(w: World, w': World, x: Exchange, sim: Rx)
    requires Midway(w, x, sim) && SameButRoom(w, w')
    ensures Midway(w', x, sim)
  {
    hide Keeping, HeadersIn, Taking, Holds, InStep, WholePacket;
    RoomyClient(w, w', x);
    RoomyServer(w, w', x, sim);
  }

  lemma SettlingReads(w: World, w': World, x: Exchange)
    requires Settling(w, x) && SameButRoom(w, w')
    ensures Settling(w', x)
  {
    hide Keeping, HeadersIn, Answering, Rested, Told, Reqs, WholePacket;
    RoomyClient(w, w', x);
    RoomyServer(w, w', x, NewRx());
  }

  lemma FinishedReads(w: World, w': World, x: Exchange)
    requires Finished(w, x) && SameButRoom(w, w')
    ensures Finished(w', x)
  {
    hide Rested, Ended, Told, Reqs;
    RoomyClient(w, w', x);
    RoomyServer(w, w', x, NewRx());
  }

  // ---- The request ----

  /** A PUT request ready to go. */
  predicate PutRequest(o: Object) {
    && o.opcode == PUT && o.lastOpcode == SetFinal(PUT) && o.nonHeader.None? && o.headerOffset == 0
    && !o.rx.streaming
  }

  /** Both handles at rest, whatever has happened before, and nothing under way. */
  predicate Resting(w: World) {
    Rested(w.client) && Rested(w.server) && Silent(w) && !Over(w)
  }

  /** A sendable request, a client that then leaves it alone, and a server application. */
  predicate PutSetting(w: World, calls: seq<ApiCall>, app: App) {
    var o := BuildRequest(w.client, PUT, calls);
    && Resting(w) && PassiveScript(w.client.script) && ReadyScript(app, w.server.script)
    && InBudget(app, Budget(w.server.mtuTx, w.server.irda, w.server.linkMtu), w.server.mtuTx)
    && PutRequest(o) && Sendable(o.txQueue, o.stream, w.client.feed)
  }

  /** What the client has queued for the request. */
  function Queued(w: World, calls: seq<ApiCall>): seq<Header> {
    var o := BuildRequest(w.client, PUT, calls);
    Meaning(o.txQueue, o.stream, w.client.feed)
  }

  function ExchangeOf(w: World, calls: seq<ApiCall>, app: App): Exchange {
    Exchange(app, Streams(w.server.script), |w.server.events|, |w.client.events|, Queued(w, calls))
  }

  /** The client with the request, about to send its first packet. */
  function Requesting(p: Party, calls: seq<ApiCall>): Party {
    p.(current := Some(BuildRequest(p, PUT, calls).(id := p.nextId)), nextId := p.nextId + 1,
       state := Starting, serverMode := false)
  }

  lemma RequestSent(w: World, calls: seq<ApiCall>, app: App)
    requires PutSetting(w, calls, app)
    ensures var p := Requesting(w.client, calls);
            var w' := Play(w, Start(PUT, calls));
            && Sending(p, |w.client.events|) && Balanced(NewRx(), p, Queued(w, calls))
            && w' == w.(client := ClientStart(p, BAD_REQUEST), up := Sent(p, w'.client))
            && if Packed(p).status.Full? then Keeping(w'.client, |w.client.events|) && SentNext(p, w'.client)
               else Stopped(w'.client)
  {
    hide BuildRequest, ClientStart, Pack, NoEnd, PassiveScript, Meaning, Sendable, LinkErrorIn, ReadyScript;
    var p := w.client;
    var o := BuildRequest(p, PUT, calls);
    RequestNotAborted(p, PUT, calls);
    NothingYet(p.events);
    PendingNothing(o.txQueue, o.stream, p.feed);
    assert Received(NewRx()) + Queued(w, calls) == Queued(w, calls);
    ClientStarts(Requesting(p, calls), |p.events|);
  }

  lemma PutStarts(w: World, calls: seq<ApiCall>, app: App)
    requires PutSetting(w, calls, app)
    ensures var w' := Play(w, Start(PUT, calls));
            Over(w') || Collecting(w', ExchangeOf(w, calls, app), NewRx())
  {
    hide Play, BuildRequest, ClientStart, Keeping, Packed, PassiveScript, Balanced, SentNext, LinkErrorIn, Oversized,
         ReadyScript, Sendable, PutRequest, Queued;
    RequestSent(w, calls, app);
    var x := ExchangeOf(w, calls, app);
    var w' := Play(w, Start(PUT, calls));
    if Stopped(w'.client) { StoppedOver(w'); }
    if !Over(w') {
      ClientMadeNext(w, w', x, Requesting(w.client, calls), NewRx());
    }
  }

  lemma {:induction false} PutKeeps(w: World, x: Exchange, acts: seq<Act>)
    requires (Over(w) || Putting(w, x)) && Turns(acts)
    ensures var w' := PlayAll(w, acts); Over(w') || Putting(w', x)
    decreases |acts|
  {
    hide Play, Putting, Over;
    if acts == [] {
    } else {
      var before := PlayAll(w, acts[..|acts| - 1]);
      PutKeeps(w, x, acts[..|acts| - 1]);
      if !Over(before) { PutStep(before, x, acts[|acts| - 1]); }
    }
  }

  // ---- Success before the request has arrived ----

  /** Whether the server has answered SUCCESS early, told by the packets and events there are. */
  predicate Marked(w: World, x: Exchange, early: bool) {
    if !AtRest(w.client) then early <==> SuccessOnWay(w, x)
    else
      && x.n <= |w.server.events|
      && (HasResponse(w.client) ==> (early <==> Succeeded(w.client) && Reqs(w.server.events, x.n) == []))
  }

  lemma MarkStep(w: World, x: Exchange, early: bool, a: Act)
    requires Putting(w, x) && Marked(w, x, early) && Passive(a)
    ensures var w' := Play(w, a); Over(w') || Marked(w', x, early || (a.ServerTurn? && Early(w)))
  {
    hide Play, Collecting, AskingOn, Midway, Settling, Finished, Over, Early, SuccessOnWay, Marked, HeadersIn, StoreAll;
    NothingToTake(w);
    var w' := Play(w, a);
    var now := early || (a.ServerTurn? && Early(w));
    if a.ServerReads? || a.ClientReads? {
      ReadingOn(w, a);
      MarkReads(w, w', x, early, now);
    } else if sim :| Collecting(w, x, sim) {
      MarkRequest(w, x, early);
      if a.ServerTurn? { MarkCollecting(w, x, sim, now); }
    } else if AskingOn(w, x) {
      MarkRequest(w, x, early);
      if a.ServerTurn? { MarkAsking(w, x, now); }
    } else {
      MarkNothing(w, x);
      if sim :| Midway(w, x, sim) {
        if a.ClientTurn? {
          MidwayStep(w, x, sim);
          MarkTaken(w, w', x, sim, early, now);
        }
      } else if Settling(w, x) {
        if a.ClientTurn? {
          SettlingStep(w, x);
          MarkTaken(w, w', x, NewRx(), early, now);
        }
      }
    }
    if w' == w && (now <==> early) { MarkReads(w, w, x, early, now); }
  }

  lemma MarkCollecting(w: World, x: Exchange, sim: Rx, early: bool)
    requires Collecting(w, x, sim) && (early <==> Early(w))
    ensures var w' := Play(w, ServerTurn); Over(w') || Marked(w', x, early)
  {
    hide Play, Midway, Settling, Over, Early, SuccessOnWay, Marked, HeadersIn, StoreAll, Keeping, Taking, Ready,
         Gathered, InStep;
    CollectingStep(w, x, sim);
    WholeSize(w.up);
    if !Over(Play(w, ServerTurn)) {
      MarkAnswer(Play(w, ServerTurn), x, StoreAll(sim, HeadersIn(w.up).headers), early);
    }
  }

  lemma MarkReads(w: World, w': World, x: Exchange, early: bool, now: bool)
    requires Marked(w, x, early) && SameButRoom(w, w') && (now <==> early)
    ensures Marked(w', x, now)
  {
  }

  /** A packet on its way to the server: nothing has been answered early so far. */
  lemma MarkRequest(w: World, x: Exchange, early: bool)
    requires ((exists sim :: Collecting(w, x, sim)) || AskingOn(w, x)) && Marked(w, x, early)
    ensures !early && w.down == []
  {
    hide Keeping, HeadersIn, StoreAll, Taking, Ready, Answering, Gathered, InStep, Told, WholePacket, Reqs;
    if sim :| Collecting(w, x, sim) { NotResting(w.client, x.m); } else { NotResting(w.client, x.m); }
  }

  lemma NotResting(c: Party, m: nat)
    requires Keeping(c, m)
    ensures !AtRest(c)
  {
  }

  /** An answer on its way. */
  lemma MarkAnswer(w: World, x: Exchange, sim: Rx, early: bool)
    requires (Midway(w, x, sim) || Settling(w, x)) && (SuccessOnWay(w, x) <==> early)
    ensures Marked(w, x, early)
  {
    hide Keeping, HeadersIn, Taking, Reported, Refused, Holds, InStep, WholePacket, SuccessOnWay;
    NotResting(w.client, x.m);
  }

  lemma MarkAsking(w: World, x: Exchange, early: bool)
    requires AskingOn(w, x) && (early <==> Early(w))
    ensures var w' := Play(w, ServerTurn); Over(w') || Marked(w', x, early)
  {
    hide Keeping, HeadersIn, Answering, Told, Over, Play, ServerStep, SuccessOnWay, Early, Settling, Reqs;
    BareWhole(SetFinal(PUT));
    EarlyWhole(w);
    AskingStep(w, x);
    if !Over(Play(w, ServerTurn)) {
      AskedTold(w, x);
      MarkAnswer(Play(w, ServerTurn), x, NewRx(), early);
    }
  }

  /** Once reported, a request stays reported. */
  lemma AskedTold(w: World, x: Exchange)
    requires AskingOn(w, x) && !Over(Play(w, ServerTurn))
    ensures !SuccessOnWay(Play(w, ServerTurn), x)
  {
    hide ServerStep, HeadersIn, Keeping, Told, Serving, LinkErrorIn, Oversized;
    BareWhole(SetFinal(PUT));
    TurnTreats(w, w.up);
    ServesOn(w.server, x.app, x.st);
    GoesOn(w.server, x.app, x.st, w.up, x.n, x.whole);
    var w' := Play(w, ServerTurn);
    if Stopped(w'.server) {
      StoppedOver(w');
    } else {
      ToldSome(w'.server.events, x.n, x.whole, x.st);
    }
  }

  lemma MarkNothing(w: World, x: Exchange)
    requires (exists sim :: Midway(w, x, sim)) || Settling(w, x) || Finished(w, x)
    ensures !Early(w) && w.up == [] && (Finished(w, x) ==> w.down == [])
  {
    hide Keeping, HeadersIn, Taking, Reported, Refused, Holds, InStep, WholePacket, AnswersEarly, Rested, NothingOrAll,
         Completed, Ended;
  }

  /** The client takes what it was answered. */
  lemma MarkTaken(w: World, w': World, x: Exchange, sim: Rx, early: bool, now: bool)
    requires (Midway(w, x, sim) || Settling(w, x)) && Marked(w, x, early) && (now <==> early)
    requires || Over(w')
             || ((Collecting(w', x, sim) || AskingOn(w', x)) && ClearFinal(w.down[0]) == CONTINUE)
             || (Finished(w', x) && ResponseTaken(w, w', x))
    ensures Over(w') || Marked(w', x, now)
  {
    hide Keeping, HeadersIn, StoreAll, Taking, Ready, Answering, Gathered, InStep, Told, WholePacket, Reqs, Reported,
         Refused, Holds, Over, Completed, Ended;
    NotResting(w.client, x.m);
    if Over(w') {
    } else if Finished(w', x) && ResponseTaken(w, w', x) {
      assert AtRest(w'.client) by { RestsNow(w'.client); }
    } else {
      NotResting(w'.client, x.m);
    }
  }

  lemma RestsNow(c: Party)
    requires Rested(c)
    ensures AtRest(c)
  {
  }

  /** In the run the server has answered SUCCESS to a request it did not have yet. */
  predicate EarlyIn(w: World, acts: seq<Act>) {
    exists i | 0 <= i < |acts| :: acts[i].ServerTurn? && Early(PlayAll(w, acts[..i])) && !Over(PlayAll(w, acts[..i]))
  }

  lemma EarlyMore(w: World, acts: seq<Act>)
    requires acts != []
    ensures var init := acts[..|acts| - 1];
            EarlyIn(w, acts) <==>
            EarlyIn(w, init) || (acts[|acts| - 1].ServerTurn? && Early(PlayAll(w, init)) && !Over(PlayAll(w, init)))
  {
    hide PlayAll, Early, Over;
    var init := acts[..|acts| - 1];
    if i :| 0 <= i < |acts| && acts[i].ServerTurn? && Early(PlayAll(w, acts[..i])) && !Over(PlayAll(w, acts[..i])) {
      if i < |init| { assert init[i] == acts[i] && init[..i] == acts[..i]; }
    }
    if i :| 0 <= i < |init| && init[i].ServerTurn? && Early(PlayAll(w, init[..i])) && !Over(PlayAll(w, init[..i])) {
      assert init[i] == acts[i] && init[..i] == acts[..i];
    }
    assert acts[..|init|] == init;
  }

  lemma {:induction false} MarkKeeps(w: World, x: Exchange, acts: seq<Act>)
    requires (Over(w) || (Putting(w, x) && Marked(w, x, false))) && Turns(acts)
    ensures var w' := PlayAll(w, acts); Over(w') || (Putting(w', x) && Marked(w', x, EarlyIn(w, acts)))
    decreases |acts|
  {
    hide Play, Putting, Over, Marked, Early, EarlyIn;
    if acts == [] {
      assert !EarlyIn(w, []) by { NeverEarly(w); }
    } else {
      var init := acts[..|acts| - 1];
      var before := PlayAll(w, init);
      MarkKeeps(w, x, init);
      EarlyMore(w, acts);
      if !Over(before) {
        PutStep(before, x, acts[|acts| - 1]);
        MarkStep(before, x, EarlyIn(w, init), acts[|acts| - 1]);
      }
    }
  }

  lemma NeverEarly(w: World)
    ensures !EarlyIn(w, [])
  {
  }

  /** What can be said of a PUT at any time. */
  lemma PuttingMeans(w: World, x: Exchange, early: bool)
    requires Putting(w, x) && Marked(w, x, early)
    ensures NothingOrAll(w.server, x)
    ensures (x.m <= |w.client.events| && NoEnd(w.client.events, x.m)) || Ended(w.client, x.m)
    ensures Ended(w.client, x.m) && HasResponse(w.client) ==>
              (early <==> Succeeded(w.client) && Reqs(w.server.events, x.n) == [])
    ensures Ended(w.client, x.m) && Restrained(x.app) ==> Reqs(w.server.events, x.n) != []
  {
    hide Balanced, HeadersIn, StoreAll, Holds, Told, Reqs, OpcodesOk, QueueOk, RestOk, PassiveScript, ReadyScript;
    if sim :| Collecting(w, x, sim) { NothingYet(w.server.events); }
    if Finished(w, x) {
      if Completed(w, x) { ToldSome(w.server.events, x.n, x.whole, x.st); }
    } else {
      NotEndedYet(w.client, x.m);
    }
  }

  lemma NotEndedYet(c: Party, m: nat)
    requires m <= |c.events| && NoEnd(c.events, m)
    ensures !Ended(c, m)
  {
  }

  lemma StartIsUnmarked(w: World, x: Exchange)
    requires Collecting(w, x, NewRx())
    ensures Marked(w, x, false)
  {
    hide Keeping, HeadersIn, StoreAll, Taking, Ready, Gathered, InStep, WholePacket, Reqs;
    NotResting(w.client, x.m);
  }

  lemma StartIsPutting(w: World, x: Exchange)
    ensures Collecting(w, x, NewRx()) ==> Putting(w, x)
  {
  }
}
