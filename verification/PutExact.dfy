/**
 Exactly which PUTs complete, when the server adds nothing but small headers: those whose queue
 can be cut into packets at all, and into packets that their 16-bit length fields can express
 and the server's buffer can hold.
 */
module PutExact {
  import opened Octets
  import opened Headers
  import opened Fragmenter
  import opened Reassembler
  import opened Sizes
  import opened Outcomes
  import opened Framing
  import opened Session
  import opened Events
  import opened Lifetime
  import opened Lockstep
  import opened Put
  import opened PutServer
  import opened PutClient
  import opened PutRun
  import opened Loads
  import opened PutEnds

  // ---- Nothing goes wrong ----

  lemma WholeAdded(p: Party, p': Party)
    requires |p'.out| == |p.out| + 1 && p.out <= p'.out && WholePacket(p'.out[|p.out|]) && !Oversized(p)
    ensures !Oversized(p')
  {
    hide WholePacket;
    forall i | 0 <= i < |p'.out| ensures WholePacket(p'.out[i]) {
      if i < |p.out| { assert p'.out[i] == p.out[i]; }
    }
  }

  /** The next packet of a queue that is sure to pass is made, and whole. */
  lemma SureSent(p: Party, p': Party, most: nat)
    requires Able(p, Sure(most)) && 3 <= most < 0x1_0000 && !Oversized(p) && SentNext(p, p')
    ensures !Oversized(p') && Lockstep.Sent(p, p') == p'.out[|p.out|] && |Lockstep.Sent(p, p')| <= most
  {
    hide Pack, EncodeAll, Passes, TxBudget, Oversized, Heft;
    PassingPack(p, most);
    FrameWholeExactly(if Packed(p).queue == [] then SetFinal(PUT) else PUT, EncodeAll(Packed(p).frags));
    WholeAdded(p, p');
    SentOne(p, p', p'.out[|p.out|]);
  }

  /** What is under way is of a size that is sure, and the client can hold what it is sent. */
  predicate Slim(w: World, app: App, most: nat) {
    && |w.up| <= most && |w.down| <= Most(app)
    && (w.client.current.Some? ==> Most(app) <= Max(3, w.client.rxRoom))
  }

  lemma SureCollecting(w: World, x: Exchange, sim: Rx, most: nat)
    requires Afoot(w, x, Sure(most)) && Neat(x.app) && Collecting(w, x, sim) && Holding(w.server, w.up)
    requires Slim(w, x.app, most)
    ensures var w' := Play(w, ServerTurn); !Over(w') && Slim(w', x.app, most)
  {
    hide Play, Afoot, Slim, Over, Collecting, Midway, Settling, OneAnswer, Stopped, ServerStepsOn, HeadersIn, StoreAll;
    AfootFits(w, x, Sure(most));
    CollectingStep(w, x, sim);
    CollectingLoad(w, x, sim);
    RequestPhase(w, x, sim);
    WireWhole(w, x, Sure(most));
    ServerSure(w, x, most);
  }

  lemma SureAsking(w: World, x: Exchange, most: nat)
    requires Afoot(w, x, Sure(most)) && Neat(x.app) && AskingOn(w, x) && Slim(w, x.app, most)
    ensures var w' := Play(w, ServerTurn); !Over(w') && Slim(w', x.app, most)
  {
    hide Play, Afoot, Slim, Over, AskingOn, Settling, OneAnswer, Stopped, ServerStepsOn;
    AfootFits(w, x, Sure(most));
    AskingStep(w, x);
    AskingLoad(w, x);
    RequestPhase(w, x, NewRx());
    WireWhole(w, x, Sure(most));
    ServerSure(w, x, most);
  }

  lemma AfootFits(w: World, x: Exchange, hope: Hope)
    requires Afoot(w, x, hope)
    ensures !Over(w) && Putting(w, x) && Measured(x.app) && Fits(w.server)
  {
  }

  /** A turn in which the server has answered. */
  lemma ServerSure(w: World, x: Exchange, most: nat)
    requires !Over(w) && Neat(x.app) && Slim(w, x.app, most) && w.down == [] && WholePacket(w.up)
    requires var w' := Play(w, ServerTurn);
             ServerStepsOn(w, w', x) && (Stopped(w'.server) || OneAnswer(w.server, w'.server, x.app))
    ensures var w' := Play(w, ServerTurn); !Over(w') && Slim(w', x.app, most)
  {
    hide OneAnswer, Oversized, LinkErrorIn, Lighter, Most, Indicate, Incomplete, PacketSize, WholePacket;
    WholeSize(w.up);
    var w' := Play(w, ServerTurn);
    AnswerAdded(w.server, w'.server, x.app);
    assert w'.down == [] + Lockstep.Sent(w.server, w'.server) == Lockstep.Sent(w.server, w'.server);
  }

  lemma AnswerAdded(p: Party, p': Party, app: App)
    requires OneAnswer(p, p', app) && Neat(app) && !Oversized(p)
    ensures !Oversized(p') && |Lockstep.Sent(p, p')| <= Most(app)
  {
    hide HeadersIn, WholePacket, Oversized;
    WholeAdded(p, p');
    assert p'.out == p.out + [p'.out[|p.out|]];
    SentOne(p, p', p'.out[|p.out|]);
  }

  lemma SureMidway(w: World, x: Exchange, sim: Rx, most: nat)
    requires Afoot(w, x, Sure(most)) && Neat(x.app) && Midway(w, x, sim) && 3 <= most < 0x1_0000 && Slim(w, x.app, most)
    ensures var w' := Play(w, ClientTurn); !Over(w') && Slim(w', x.app, most)
  {
    hide Play, Putting, Finished, Able, Fits, Oversized, LinkErrorIn, HeadersIn, Holds, InStep, Taking, Packed,
         WholePacket, Keeping, Collecting, ClientStep;
    KeepsObject(w.client, x.m);
    MidwaySent(w, x, sim);
    PassingPack(w.client, most);
    SureSent(w.client, Play(w, ClientTurn).client, most);
    MidwayClient(w, x, sim);
    TurnTreats(w, w.down);
  }

  lemma MidwayClient(w: World, x: Exchange, sim: Rx)
    requires Midway(w, x, sim) && Neat(x.app) && Packed(w.client).status.Full? && Holding(w.client, w.down)
    ensures Keeping(Play(w, ClientTurn).client, x.m) && !Play(w, ClientTurn).client.fault
  {
    hide ClientStep, HeadersIn, Reqs, NoEnd, LinkErrorIn, Packed, PassiveScript, SentNext, Serving, Told, InStep, Holds,
         Play;
    KeepsObject(w.client, x.m);
    TurnTreats(w, w.down);
    WholeSize(w.down);
    TakesAnswer(w.client, w.down, x.m);
  }

  lemma SureSettling(w: World, x: Exchange, most: nat)
    requires Afoot(w, x, Sure(most)) && Neat(x.app) && Settling(w, x) && 3 <= most < 0x1_0000 && Slim(w, x.app, most)
    ensures var w' := Play(w, ClientTurn); !Over(w') && Slim(w', x.app, most)
  {
    hide Play, Putting, AskingOn, Able, Fits, LinkErrorIn, ClosedBy, WholePacket, Keeping, HeadersIn, ClientStep,
         Reported, Refused, Oversized, SentNext, Most;
    SettlingSent(w, x);
    KeepsObject(w.client, x.m);
    WholeSize(w.down);
    TurnTreats(w, w.down);
    var c, c' := w.client, Play(w, ClientTurn).client;
    if ClearFinal(w.down[0]) == CONTINUE {
      KeepsObject(c', x.m);
      SureSent(c, c', most);
      SentRoom(c, c');
    } else {
      ClosedOut(c, c', EvReqDone, ClearFinal(w.down[0]), x.m);
    }
  }

  lemma ClosedOut(c: Party, c': Party, kind: EventKind, rsp: nat, m: nat)
    requires ClosedBy(c, c', kind, rsp, m)
    ensures Lockstep.Sent(c, c') == [] && Oversized(c') == Oversized(c) && c'.current.None? && !c'.fault
    ensures LinkErrorIn(c'.events) ==> LinkErrorIn(c.events)
  {
    hide PassiveScript, Closed, LinkErrorIn, Oversized;
    SentNone(c, c');
    SameOut(c, c');
  }

  lemma SentRoom(c: Party, c': Party)
    requires SentNext(c, c')
    ensures c'.rxRoom == c.rxRoom && (LinkErrorIn(c'.events) ==> LinkErrorIn(c.events))
  {
  }

  /** A turn of packets that are sure and that the server has room for goes well. */
  lemma SureTurn(w: World, x: Exchange, a: Act, most: nat)
    requires Afoot(w, x, Sure(most)) && Neat(x.app) && 3 <= most < 0x1_0000 && Slim(w, x.app, most) && Turning(a)
    requires a.ServerTurn? ==> Holding(w.server, w.up)
    ensures var w' := Play(w, a); !Over(w') && Slim(w', x.app, most) && Afoot(w', x, Sure(most))
  {
    hide Play, Collecting, AskingOn, Midway, Settling, Finished, Over, Completed, Able, Fits;
    NothingToTake(w);
    TurnStays(w, x, Sure(most), a);
    if sim :| Collecting(w, x, sim) {
      RequestPhase(w, x, sim);
      if a.ServerTurn? { SureCollecting(w, x, sim, most); }
    } else if AskingOn(w, x) {
      RequestPhase(w, x, NewRx());
      if a.ServerTurn? { SureAsking(w, x, most); }
    } else if sim :| Midway(w, x, sim) {
      AnswerPhase(w, x, sim);
      if a.ClientTurn? { SureMidway(w, x, sim, most); }
    } else if Settling(w, x) {
      AnswerPhase(w, x, NewRx());
      if a.ClientTurn? { SureSettling(w, x, most); }
    } else {
      FinishedPhase(w, x);
    }
  }

  /** The server's room for what it receives never shrinks. */
  lemma RoomStays(w: World, x: Exchange, hope: Hope, a: Act)
    requires Afoot(w, x, hope) && Passive(a) && !Over(Play(w, a))
    ensures var s, s' := w.server, Play(w, a).server;
            s'.rxRoom >= s.rxRoom && (!a.ServerReads? ==> s'.rxRoom == s.rxRoom)
  {
    hide Play, Collecting, AskingOn, Midway, Settling, Finished, LinkErrorIn, Oversized, Able, Fits;
    if a.ServerTurn? {
      NothingToTake(w);
      if w.up != [] { RoomTreated(w, x); }
    } else {
      ServerApart(w, a);
    }
  }

  lemma ServerApart(w: World, a: Act)
    requires a.ClientTurn? || a.ServerReads? || a.ClientReads?
    ensures Play(w, a).server == if a.ServerReads? then ReadOn(w.server, w.up) else w.server
  {
  }

  lemma RoomTreated(w: World, x: Exchange)
    requires Putting(w, x) && w.up != [] && !Play(w, ServerTurn).server.fault
    ensures Play(w, ServerTurn).server.rxRoom == w.server.rxRoom
  {
    hide Play, Midway, Settling, Finished, ServerStep, HeadersIn, StoreAll, Keeping, Gathered, InStep, Told, Reqs,
         NoEnd, OpcodesOk, QueueOk, RestOk, ReadyScript, WholePacket, LinkErrorIn;
    if sim :| Collecting(w, x, sim) {
      WholeSize(w.up);
      TurnTreats(w, w.up);
      ServerStepAnswers(w.server, w.up);
    } else if AskingOn(w, x) {
      BareWhole(SetFinal(PUT));
      TurnTreats(w, w.up);
      ServerStepAnswers(w.server, w.up);
    } else {
      MarkNothing(w, x);
    }
  }

  lemma SlimReads(w: World, app: App, a: Act, most: nat)
    requires Slim(w, app, most) && (a.ServerReads? || a.ClientReads?)
    ensures Slim(Play(w, a), app, most)
  {
  }

  /** Whatever the order of turns, and however the packets are read. */
  lemma {:induction false} SureRun(w: World, x: Exchange, acts: seq<Act>, most: nat)
    requires Afoot(w, x, Sure(most)) && Neat(x.app) && 3 <= most < 0x1_0000 && Slim(w, x.app, most) && Turns(acts)
    requires most <= Max(3, w.server.rxRoom)
    ensures var w' := PlayAll(w, acts);
            !Over(w') && Afoot(w', x, Sure(most)) && Slim(w', x.app, most) && most <= Max(3, w'.server.rxRoom)
    decreases |acts|
  {
    hide Play, Putting, Over, Able, Fits, Moves, Remaining;
    if acts == [] {
    } else {
      var before, a := PlayAll(w, acts[..|acts| - 1]), acts[|acts| - 1];
      SureRun(w, x, acts[..|acts| - 1], most);
      if Turning(a) {
        SureTurn(before, x, a, most);
      } else {
        ReadsStay(before, x, Sure(most), a);
        SlimReads(before, x.app, a, most);
        StillAfoot(Play(before, a), x, Sure(most));
      }
      RoomStays(before, x, Sure(most), a);
    }
  }

  lemma StillAfoot(w: World, x: Exchange, hope: Hope)
    requires Afoot(w, x, hope)
    ensures !Over(w)
  {
  }

  // ---- The rest never completes ----

  /** What there was passes exactly if the packet made is small enough and what is left passes. */
  lemma PassingKept(c: Party, c': Party, most: nat)
    requires Gauged(c) && SentNext(c, c') && most >= 3
    ensures Gauged(c') && (Passing(c, most) <==> |c'.out[|c.out|]| <= most && Passing(c', most))
  {
    hide Pack, Filled, Content, EncodeAll, Proper, TxBudget, Heft, LinkErrorIn;
    var o := c.current.value;
    BudgetSame(c, c');
    if o.txQueue == [] {
      EmptyPacket(c, c');
    } else {
      PackFilled(o.txQueue, TxBudget(c), TxLimits(c), o.stream, c.feed);
      PackSize(o.txQueue, TxBudget(c), TxLimits(c), o.stream, c.feed);
      FilledLighter(PiecesLeft(c), TxBudget(c), TxLimits(c));
      var f := Filled(PiecesLeft(c), TxBudget(c), TxLimits(c));
      assert |c'.out[|c.out|]| == Size(TxBudget(c), f) + 3;
      assert TxLimits(c') == Following(TxLimits(c), TxBudget(c), f);
      if Heft(f.rest) >= Heft(PiecesLeft(c)) {
        StuckSame(PiecesLeft(c), TxBudget(c), TxLimits(c), TxLimits(c'));
      }
    }
  }

  /** On the wire no packet is larger than 65535 octets. */
  lemma WholeLimited(packet: seq<byte>)
    requires WholePacket(packet)
    ensures |packet| < 0x1_0000
  {
  }

  /** Nothing left passes. */
  lemma NothingPasses(c: Party, most: nat)
    requires c.current.Some? && c.current.value.txQueue == []
    ensures Passing(c, most)
  {
  }

  /** Nothing has been reported, and more is left than will ever get through. */
  ghost predicate Doomed(w: World, x: Exchange) {
    && Putting(w, x) && x.n <= |w.server.events| && Reqs(w.server.events, x.n) == []
    && (w.client.current.Some? ==> Gauged(w.client) && !Passing(w.client, 0xffff))
  }

  lemma DoomedUnsent(w: World, x: Exchange)
    requires Doomed(w, x) && w.client.current.Some?
    ensures w.client.current.value.txQueue != []
  {
    hide Putting, Gauged, Passing;
    if w.client.current.value.txQueue == [] { NothingPasses(w.client, 0xffff); }
  }

  lemma DoomedCollecting(w: World, x: Exchange, sim: Rx)
    requires Doomed(w, x) && Collecting(w, x, sim)
    ensures var w' := Play(w, ServerTurn); Over(w') || Doomed(w', x)
  {
    hide Play, Putting, Collecting, Over, Gauged, Passing, HeadersIn, StoreAll, Holds, Keeping, Told, InStep,
         WholePacket, Reqs, NoEnd, OpcodesOk, QueueOk, RestOk;
    RequestPhase(w, x, sim);
    CollectingStep(w, x, sim);
    ServerTurnKeepsClient(w);
    DoomedUnsent(w, x);
    var w' := Play(w, ServerTurn);
    if !Over(w') {
      var sim' := StoreAll(sim, HeadersIn(w.up).headers);
      AnswerPhase(w', x, sim');
      if Midway(w', x, sim') { ServerOfMidway(w', x, sim'); }
    }
  }

  lemma DoomedMidway(w: World, x: Exchange, sim: Rx)
    requires Doomed(w, x) && Midway(w, x, sim)
    ensures var w' := Play(w, ClientTurn); Over(w') || Doomed(w', x)
  {
    hide Play, Putting, Collecting, Finished, Over, Gauged, Passing, Stopped, SentNext, HeadersIn, Midway, Reqs;
    AnswerPhase(w, x, sim);
    MidwayStep(w, x, sim);
    MidwaySent(w, x, sim);
    var w' := Play(w, ClientTurn);
    if Stopped(w'.client) { StoppedOver(w'); }
    if !Over(w') {
      if Collecting(w', x, sim) {
        RequestPhase(w', x, sim);
        SentWhole(w.client, w');
        PassingKept(w.client, w'.client, 0xffff);
      } else {
        FinishedPhase(w', x);
      }
    }
  }

  lemma SentWhole(p: Party, w': World)
    requires SentNext(p, w'.client) && !Over(w')
    ensures WholePacket(w'.client.out[|p.out|]) && |w'.client.out[|p.out|]| < 0x1_0000
    ensures Lockstep.Sent(p, w'.client) == w'.client.out[|p.out|]
  {
    hide Packed, EncodeAll, LinkErrorIn, Oversized, WholePacket;
    LastWhole(p, w'.client);
    WholeLimited(w'.client.out[|p.out|]);
  }

  lemma DoomedSettling(w: World, x: Exchange)
    requires Doomed(w, x) && Settling(w, x)
    ensures var w' := Play(w, ClientTurn); Over(w') || Doomed(w', x)
  {
    hide Play, Putting, AskingOn, Finished, Over, Gauged, Passing, Settling, Reqs;
    AnswerPhase(w, x, NewRx());
    SettlingStep(w, x);
    SettlingSent(w, x);
    DoomedUnsent(w, x);
    if !Over(Play(w, ClientTurn)) { FinishedPhase(Play(w, ClientTurn), x); }
  }

  lemma DoomedTurn(w: World, x: Exchange, a: Act)
    requires Doomed(w, x) && Passive(a)
    ensures var w' := Play(w, a); Over(w') || Doomed(w', x)
  {
    hide Play, Collecting, AskingOn, Midway, Settling, Finished, Over, Gauged, Passing, Reqs;
    NothingToTake(w);
    if a.ServerReads? || a.ClientReads? {
      DoomedReads(w, x, a);
    } else if sim :| Collecting(w, x, sim) {
      RequestPhase(w, x, sim);
      if a.ServerTurn? { DoomedCollecting(w, x, sim); }
    } else if AskingOn(w, x) {
      RequestPhase(w, x, NewRx());
      DoomedUnsent(w, x);
    } else if sim :| Midway(w, x, sim) {
      AnswerPhase(w, x, sim);
      if a.ClientTurn? { DoomedMidway(w, x, sim); }
    } else if Settling(w, x) {
      AnswerPhase(w, x, NewRx());
      if a.ClientTurn? { DoomedSettling(w, x); }
    } else {
      FinishedRests(w, x);
    }
  }

  lemma DoomedReads(w: World, x: Exchange, a: Act)
    requires Doomed(w, x) && (a.ServerReads? || a.ClientReads?)
    ensures Doomed(Play(w, a), x)
  {
    hide Play, Putting, Passes, Pieces, Content, Proper;
    PutReads(w, x, a);
    ReadingOn(w, a);
  }

  lemma ServerTurnKeepsClient(w: World)
    ensures Play(w, ServerTurn).client == w.client
  {
  }

  lemma {:induction false} DoomedRun(w: World, x: Exchange, acts: seq<Act>)
    requires (Over(w) || Doomed(w, x)) && Turns(acts)
    ensures var w' := PlayAll(w, acts); Over(w') || Doomed(w', x)
    decreases |acts|
  {
    hide Play, Doomed, Over;
    if acts == [] {
    } else {
      var before := PlayAll(w, acts[..|acts| - 1]);
      DoomedRun(w, x, acts[..|acts| - 1]);
      if !Over(before) { DoomedTurn(before, x, acts[|acts| - 1]); }
    }
  }

  // ---- The rest depends on how packets are read ----

  lemma {:induction false} PlayFirst(w: World, a: Act, acts: seq<Act>)
    requires !Over(w)
    ensures PlayAll(w, [a] + acts) == PlayAll(Play(w, a), acts)
    decreases |acts|
  {
    hide Play, Over;
    var all := [a] + acts;
    if acts == [] {
      assert all[..|all| - 1] == [];
    } else {
      assert all[..|all| - 1] == [a] + acts[..|acts| - 1];
      PlayFirst(w, a, acts[..|acts| - 1]);
    }
  }

  lemma TurnsMore(a: Act, acts: seq<Act>)
    requires Passive(a) && Turns(acts)
    ensures Turns([a] + acts)
  {
  }

  lemma ReadIsHolding(w: World)
    requires !w.server.fault && (w.up == [] || WholePacket(w.up))
    ensures var w' := Play(w, ServerReads); Holding(w'.server, w'.up) && w'.up == w.up
  {
  }

  lemma WireWhole(w: World, x: Exchange, hope: Hope)
    requires Afoot(w, x, hope)
    ensures !w.server.fault && (w.up == [] || WholePacket(w.up))
  {
    hide Able, Fits, LinkErrorIn, Oversized, WholePacket, Keeping, HeadersIn, StoreAll, Taking, Ready, Gathered, InStep,
         Holds, Told, Reported, Refused, Completed, Ended, NothingOrAll, Answering;
    BareWhole(SetFinal(PUT));
  }

  /** When every packet is read on before it is taken, the PUT completes. */
  lemma {:induction false} ReadFirst(w: World, x: Exchange, most: nat) returns (acts: seq<Act>)
    requires Afoot(w, x, Sure(most)) && Neat(x.app) && 3 <= most < 0x1_0000 && Slim(w, x.app, most)
    ensures Turns(acts) && !Over(PlayAll(w, acts)) && Completed(PlayAll(w, acts), x)
    decreases Remaining(w, Sure(most))
  {
    hide Play, Putting, Over, Completed, Able, Fits, Remaining, Slim;
    acts := [];
    StillAfoot(w, x, Sure(most));
    if !Completed(w, x) {
      var hope := Sure(most);
      var w1, a := Play(w, ServerReads), NextTurn(w);
      ReadsStay(w, x, hope, ServerReads);
      SlimReads(w, x.app, ServerReads, most);
      WireWhole(w, x, hope);
      ReadIsHolding(w);
      StillAfoot(w1, x, hope);
      if Completed(w1, x) {
        acts := [ServerReads];
        PlayFirst(w, ServerReads, []);
      } else {
        SureTurn(w1, x, a, most);
        PutAdvances(w1, x, hope);
        var rest := ReadFirst(Play(w1, a), x, most);
        acts := [ServerReads] + ([a] + rest);
        PlayFirst(w1, a, rest);
        PlayFirst(w, ServerReads, [a] + rest);
        TurnsMore(a, rest);
        TurnsMore(ServerReads, [a] + rest);
      }
    }
  }

  /** A packet too large for the server's buffer is under way, or will be. */
  predicate Outgrowing(w: World) {
    var room := Max(3, w.server.rxRoom);
    |w.up| > room || (w.client.current.Some? && Gauged(w.client) && !Passing(w.client, room))
  }

  lemma OutgrowingMidway(w: World, x: Exchange, sim: Rx, w': World)
    requires Midway(w, x, sim) && Neat(x.app) && !Over(w') && w' == Play(w, ClientTurn)
    requires |w.down| <= Max(3, w.client.rxRoom) && Outgrowing(w)
    ensures Outgrowing(w')
  {
    hide Play, Gauged, Passing, HeadersIn, SentNext, Over, Keeping, WholePacket, Holds, InStep, Taking, Finished;
    MidwaySent(w, x, sim);
    if Stopped(w'.client) { StoppedOver(w'); }
    KeepsObject(w.client, x.m);
    TurnTreats(w, w.down);
    SentWhole(w.client, w');
    SentGauged(w.client, w'.client);
    PassingKept(w.client, w'.client, Max(3, w.server.rxRoom));
  }

  lemma SentGauged(c: Party, c': Party)
    requires SentNext(c, c')
    ensures c.current.Some? && c'.current.Some?
  {
  }

  lemma OutgrowingTurn(w: World, x: Exchange, most: nat)
    requires Afoot(w, x, Sure(most)) && Neat(x.app) && 3 <= most < 0x1_0000 && Slim(w, x.app, most)
    requires Outgrowing(w) && Holding(w.server, w.up)
    ensures !Completed(w, x) && Outgrowing(Play(w, NextTurn(w)))
  {
    hide Play, Collecting, AskingOn, Settling, Finished, Over, Able, Fits, Gauged, Passing, Midway;
    var a := NextTurn(w);
    SureTurn(w, x, a, most);
    RoomStays(w, x, Sure(most), a);
    if sim :| Collecting(w, x, sim) {
      RequestPhase(w, x, sim);
      ServerTurnKeepsClient(w);
    } else if AskingOn(w, x) {
      RequestPhase(w, x, NewRx());
      NothingPasses(w.client, Max(3, w.server.rxRoom));
      assert false;
    } else if sim :| Midway(w, x, sim) {
      AnswerPhase(w, x, sim);
      OutgrowingMidway(w, x, sim, Play(w, a));
    } else if Settling(w, x) {
      AnswerPhase(w, x, NewRx());
      SettlingSent(w, x);
      NothingPasses(w.client, Max(3, w.server.rxRoom));
      assert false;
    } else {
      FinishedPhase(w, x);
      assert false;
    }
  }

  /** When no packet is read on before it is taken, the server's buffer moves in the end. */
  lemma {:induction false} TakenWhole(w: World, x: Exchange, most: nat) returns (acts: seq<Act>)
    requires Afoot(w, x, Sure(most)) && Neat(x.app) && 3 <= most < 0x1_0000 && Slim(w, x.app, most)
    requires Outgrowing(w)
    ensures Turns(acts) && PlayAll(w, acts).server.fault
    decreases Remaining(w, Sure(most))
  {
    hide Play, Putting, Over, Completed, Able, Fits, Remaining, Slim, Outgrowing;
    StillAfoot(w, x, Sure(most));
    if Holding(w.server, w.up) {
      var a := NextTurn(w);
      OutgrowingTurn(w, x, most);
      SureTurn(w, x, a, most);
      PutAdvances(w, x, Sure(most));
      var rest := TakenWhole(Play(w, a), x, most);
      acts := [a] + rest;
      PlayFirst(w, a, rest);
      TurnsMore(a, rest);
    } else {
      acts := [ServerTurn];
      PlayFirst(w, ServerTurn, []);
      OutgrownFaults(w, x, Sure(most));
    }
  }

  lemma OutgrownFaults(w: World, x: Exchange, hope: Hope)
    requires Afoot(w, x, hope) && !Holding(w.server, w.up)
    ensures Play(w, ServerTurn).server.fault
  {
    hide Play, Able, Fits, LinkErrorIn, Oversized, WholePacket, Midway, Settling, Finished, Collecting, AskingOn;
    WireWhole(w, x, hope);
    if sim :| Collecting(w, x, sim) {
      CollectingServer(w, x, sim);
      TurnTreats(w, w.up);
    } else if AskingOn(w, x) {
      AskingBare(w, x);
    } else {
      MarkNothing(w, x);
      assert false;
    }
  }

  lemma AskingBare(w: World, x: Exchange)
    requires AskingOn(w, x)
    ensures |w.up| == 3
  {
  }

  // ---- The condition ----

  /** The sizes of the queue, as the client can tell them before it sends anything. */
  predicate Sizable(w: World, calls: seq<ApiCall>) {
    var o := BuildRequest(w.client, PUT, calls);
    HasStream(o.txQueue) ==> Proper(o.stream, w.client.feed)
  }

  /** The queue gets through in packets of at most so many octets. */
  predicate PassingPut(w: World, calls: seq<ApiCall>, most: nat) {
    var o := BuildRequest(w.client, PUT, calls);
    Passes(Pieces(o.txQueue, |Content(o.stream, w.client.feed)|), TxBudget(w.client),
           TxLimits(Requesting(w.client, calls)), most)
  }

  lemma RequestingIs(w: World, calls: seq<ApiCall>, most: nat)
    ensures var p := Requesting(w.client, calls);
            && (Gauged(p) <==> Sizable(w, calls)) && (Passing(p, most) <==> PassingPut(w, calls, most))
            && (Gauged(p) && Passing(p, most) <==> Able(p, Sure(most))) && p.out == w.client.out
  {
    hide BuildRequest, Proper, Passes, Content, Pieces;
  }

  lemma NeatFits(w: World, calls: seq<ApiCall>, app: App)
    requires PutSetting(w, calls, app) && Neat(app)
    ensures Fits(w.server) && (app.Brief? ==> TxBudget(w.server) == app.budget)
  {
    hide BuildRequest, Sendable, LinkErrorIn, Oversized, Budget, Responds, PassiveScript, EncodedSize;
    var s := w.server.script;
    forall i | 0 <= i < |s| ensures CallsFit(s[i], TxBudget(w.server)) {
      if i > 0 { assert s[1..][i - 1] == s[i]; }
      forall j | 0 <= j < |s[i]| ensures CallFits(s[i][j], TxBudget(w.server)) {
        assert CallOk(app, s[i][j], i == 0);
      }
    }
  }

  lemma SameOut(p: Party, p': Party)
    requires p'.out == p.out
    ensures Oversized(p') == Oversized(p)
  {
  }

  /** The client can hold what such a server sends. */
  predicate RepliesHeld(w: World, app: App) {
    Neat(app) && Most(app) <= Max(3, w.client.rxRoom) && (app.Brief? ==> app.budget > 3)
  }

  lemma SureStart(w: World, calls: seq<ApiCall>, app: App, most: nat)
    requires PutSetting(w, calls, app) && RepliesHeld(w, app)
    requires Able(Requesting(w.client, calls), Sure(most)) && 3 <= most < 0x1_0000
    ensures var start := Play(w, Start(PUT, calls)); !Over(start) && Slim(start, app, most) && start.server == w.server
  {
    hide Play, Able, BuildRequest, Keeping, Packed, LinkErrorIn, Oversized, Sendable, Queued, Balanced, PutRequest,
         ReadyScript, PassiveScript;
    var p, w' := Requesting(w.client, calls), Play(w, Start(PUT, calls));
    RequestSent(w, calls, app);
    PassingPack(p, most);
    SameOut(w.client, p);
    SureSent(p, w'.client, most);
    KeepsObject(w'.client, |w.client.events|);
    StartWorld(w, calls);
  }

  lemma StartWorld(w: World, calls: seq<ApiCall>)
    ensures var start := Play(w, Start(PUT, calls)); start.server == w.server && start.down == w.down
  {
  }

  lemma DoomedStart(w: World, calls: seq<ApiCall>, app: App)
    requires PutSetting(w, calls, app) && Sizable(w, calls) && !PassingPut(w, calls, 0xffff)
    ensures var start := Play(w, Start(PUT, calls)); Over(start) || Doomed(start, ExchangeOf(w, calls, app))
  {
    hide Play, Gauged, Passing, BuildRequest, Keeping, Packed, LinkErrorIn, Oversized, Queued, Balanced, PutSetting,
         SentNext, Stopped, Sizable, PassingPut, Collecting, Over;
    var p, start := Requesting(w.client, calls), Play(w, Start(PUT, calls));
    RequestSent(w, calls, app);
    RequestingIs(w, calls, 0xffff);
    StartWorld(w, calls);
    NothingYet(w.server.events);
    PutStarts(w, calls, app);
    if Stopped(start.client) { StoppedOver(start); }
    if !Over(start) {
      StartIsPutting(start, ExchangeOf(w, calls, app));
      KeepsObject(start.client, |w.client.events|);
      SentWhole(p, start);
      PassingKept(p, start.client, 0xffff);
    }
  }

  /** If the sizes in the queue do not pass in packets of any size, then whatever the server's
      application answers or adds, no order of turns ever gets the request reported. */
  lemma PutNeverTheorem(w: World, calls: seq<ApiCall>, app: App, acts: seq<Act>)
    requires PutSetting(w, calls, app) && Sizable(w, calls) && Turns(acts) && !PassingPut(w, calls, 0xffff)
    ensures var w' := PlayAll(Play(w, Start(PUT, calls)), acts);
            Over(w') || (|w.server.events| <= |w'.server.events| && Reqs(w'.server.events, |w.server.events|) == [])
  {
    hide Play, PlayAll, Putting, Over, PutSetting, BuildRequest, Sizable, PassingPut, Queued, Passing, Gauged, Reqs;
    DoomedStart(w, calls, app);
    DoomedRun(Play(w, Start(PUT, calls)), ExchangeOf(w, calls, app), acts);
  }

  /** The octets the server can take at once, and a packet can have. */
  function AtOnce(w: World): nat {
    Min(0xffff, Max(3, w.server.rxRoom))
  }

  /**
   Which PUTs complete whatever happens, and which never do, with a server that adds nothing, or
   headers that each fit a packet the client can hold. If the sizes in the queue pass in packets
   the server has room for, every order of turns is bounded and without mishap and comes to rest
   only when the PUT is complete; if they do not pass in packets of any size, no order of turns
   ever completes it.
   */
  lemma PutExactTheorem(w: World, calls: seq<ApiCall>, app: App, acts: seq<Act>)
    requires PutSetting(w, calls, app) && RepliesHeld(w, app) && Sizable(w, calls) && Turns(acts)
    ensures var start := Play(w, Start(PUT, calls));
            var w' := PlayAll(start, acts);
            var x := ExchangeOf(w, calls, app);
            if PassingPut(w, calls, AtOnce(w)) then
              && !Over(w') && Moves(start, acts) <= Remaining(start, Sure(AtOnce(w)))
              && (Play(w', ServerTurn) == w' && Play(w', ClientTurn) == w' ==> Completed(w', x))
            else PassingPut(w, calls, 0xffff) || !Completed(w', x) || Over(w')
  {
    hide Play, PlayAll, Putting, Over, Completed, PutSetting, Fits, Able, BuildRequest, Sizable, PassingPut, Queued,
         Passing, Gauged, Slim;
    var x := ExchangeOf(w, calls, app);
    var start := Play(w, Start(PUT, calls));
    var w' := PlayAll(start, acts);
    var most := AtOnce(w);
    RequestingIs(w, calls, most);
    if PassingPut(w, calls, most) {
      NeatFits(w, calls, app);
      SureStart(w, calls, app, most);
      PutGetsAfoot(w, calls, app, Sure(most));
      MovesBounded(start, x, Sure(most), acts);
      SureRun(start, x, acts, most);
      if !Completed(w', x) { PutAdvances(w', x, Sure(most)); }
    } else if !PassingPut(w, calls, 0xffff) {
      PutNeverTheorem(w, calls, app, acts);
      if !Over(w') && Completed(w', x) { CompletedTold(w', x); }
    }
  }

  lemma CompletedTold(w: World, x: Exchange)
    requires Completed(w, x)
    ensures Reqs(w.server.events, x.n) != []
  {
    hide Told, Reqs, Ended;
    ToldSome(w.server.events, x.n, x.whole, x.st);
  }

  lemma OutgrowingStart(w: World, calls: seq<ApiCall>, app: App)
    requires PutSetting(w, calls, app) && Sizable(w, calls)
    requires PassingPut(w, calls, 0xffff) && !PassingPut(w, calls, AtOnce(w))
    ensures var start := Play(w, Start(PUT, calls)); !Over(start) ==> Outgrowing(start)
  {
    hide Play, Gauged, Passing, BuildRequest, Keeping, Packed, LinkErrorIn, Oversized, Queued, Balanced, PutSetting,
         SentNext, Stopped, Sizable, PassingPut, Collecting, Over;
    var p, start := Requesting(w.client, calls), Play(w, Start(PUT, calls));
    RequestSent(w, calls, app);
    RequestingIs(w, calls, 0xffff);
    RequestingIs(w, calls, AtOnce(w));
    StartWorld(w, calls);
    if Stopped(start.client) { StoppedOver(start); }
    if !Over(start) {
      SentGauged(p, start.client);
      SentWhole(p, start);
      PassingKept(p, start.client, AtOnce(w));
    }
  }

  /** In between it depends on how packets are read: when the beginning of each is read in a
      call of its own the PUT completes; when each is read whole, the server loses its way. */
  lemma PutDependsTheorem(w: World, calls: seq<ApiCall>, app: App) returns (apart: seq<Act>, whole: seq<Act>)
    requires PutSetting(w, calls, app) && RepliesHeld(w, app) && Sizable(w, calls)
    requires PassingPut(w, calls, 0xffff) && !PassingPut(w, calls, AtOnce(w))
    ensures var start := Play(w, Start(PUT, calls));
            && Turns(apart) && Turns(whole)
            && !Over(PlayAll(start, apart)) && Completed(PlayAll(start, apart), ExchangeOf(w, calls, app))
            && PlayAll(start, whole).server.fault
  {
    hide Play, PlayAll, Putting, Over, Completed, PutSetting, Fits, Able, BuildRequest, Sizable, PassingPut, Queued,
         Passing, Gauged, Slim, Outgrowing;
    var x := ExchangeOf(w, calls, app);
    var start := Play(w, Start(PUT, calls));
    RequestingIs(w, calls, 0xffff);
    NeatFits(w, calls, app);
    SureStart(w, calls, app, 0xffff);
    PutGetsAfoot(w, calls, app, Sure(0xffff));
    apart := ReadFirst(start, x, 0xffff);
    OutgrowingStart(w, calls, app);
    whole := TakenWhole(start, x, 0xffff);
  }
}
