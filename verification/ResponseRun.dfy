/** The runs of a request, seen from its response: what the client holds when it is told that the
    request is done. */
module ResponseRun {
  import opened Octets
  import opened Headers
  import opened Fragmenter
  import opened Reassembler
  import opened Streaming
  import opened Framing
  import opened Session
  import opened SessionFacts
  import opened Events
  import opened Lifetime
  import opened Lockstep
  import opened Put
  import opened PutServer
  import opened PutRun
  import opened Reports
  import opened ClientReports
  import opened Disconnect
  import opened Responses

  // ---- The client ----

  /** Which request it is: its number and command, how many events the client had on record
      before, and whether the application takes bodies as streams. */
  datatype Ear = Ear(id: nat, cmd: byte, m: nat, st: bool)

  predicate PlainlyAll(script: seq<seq<ApiCall>>) {
    forall i :: 0 <= i < |script| ==> Plainly(script[i])
  }

  /** The request at hand, its application leaving it to the engine where headers start and
      bodies go. */
  predicate Listening(c: Party, e: Ear) {
    && Own(c, e.id, e.cmd) && PlainlyAll(c.script) && !c.fault && c.linkFaults == []
    && e.m <= |c.events| && NoEnd(c.events, e.m)
    && c.current.value.headerOffset == 0 && c.current.value.rx.streaming == e.st && !c.current.value.abort
  }

  predicate Keen(c: Party, e: Ear) {
    Waiting(c) && Listening(c, e) && ClearFinal(e.cmd) != CONNECT
  }

  lemma PlainlyNext(script: seq<seq<ApiCall>>)
    requires PlainlyAll(script)
    ensures Plainly(if script == [] then [] else script[0]) && PlainlyAll(Tail(script))
  {
  }

  /** An event, and what the application makes of it. */
  lemma DeliverListens(c: Party, kind: EventKind, cmd: nat, rsp: nat, e: Ear)
    requires Listening(c, e) && !Terminal(kind)
    ensures var c' := Deliver(c, kind, cmd, rsp, false);
            && Listening(c', e) && SameHandle(c, c') && c'.out == c.out
            && SameHolding(c'.current.value.rx, c.current.value.rx)
            && (!kind.EvStreamAvail? ==> Chunks(c'.events, e.m) == Chunks(c.events, e.m))
  {
    hide ApplyAll, NoEnd, Chunks, Reqs, LeavesCommands, LeavesCommand, PlainlyAll, Plainly, Received;
    var calls := if c.script == [] then [] else c.script[0];
    PlainlyNext(c.script);
    CallsNext(c.script);
    CommandLeft(c.current.value, c.mtuTx, calls);
    PlainlyKeeps(c.current.value, c.mtuTx, calls);
    ApplyAllKeeps(c.current.value, c.mtuTx, calls);
    OneMore(c.events, EventOf(c, kind, cmd, rsp), e.m);
  }

  lemma ChunkListens(c: Party, chunk: seq<byte>, e: Ear)
    requires Listening(c, e)
    ensures Listening(StreamChunk(c, chunk), e)
  {
    hide Deliver, NoEnd, LeavesCommands, PlainlyAll, Chunks, SameHolding;
    var o := c.current.value;
    DeliverListens(Update(c, o.(stream := o.stream.(data := chunk))), EvStreamAvail, 0, 0, e);
  }

  lemma AcceptListens(c: Party, h: Header, e: Ear)
    requires Listening(c, e)
    ensures Listening(AcceptHeader(c, h), e)
  {
    hide StreamChunk, NoEnd, LeavesCommands, PlainlyAll;
    ChunkListens(c, h.value, e);
    ChunkListens(StreamChunk(c, h.value), [], e);
  }

  lemma {:induction false} AcceptAllListens(c: Party, hs: seq<Header>, e: Ear)
    requires Listening(c, e)
    ensures Listening(AcceptAll(c, hs), e)
    decreases |hs|
  {
    hide AcceptHeader, Listening;
    ListensSome(c, e);
    if hs == [] {
    } else {
      AcceptListens(c, hs[0], e);
      ListensSome(AcceptHeader(c, hs[0]), e);
      AcceptAllListens(AcceptHeader(c, hs[0]), hs[1..], e);
    }
  }

  lemma ListensSome(c: Party, e: Ear)
    requires Listening(c, e)
    ensures c.current.Some? && c.linkFaults == [] && !c.fault && e.m <= |c.events| && !c.serverMode
  {
  }

  /** The headers of a packet of the response are taken in, as a store or as a stream. */
  lemma Hears(c: Party, packet: seq<byte>, e: Ear, sim: Rx)
    requires Listening(c, e) && Holds(c, e.m, sim) && |packet| >= 3 && HeadersIn(packet).outcome.Clean?
    ensures var (c', outcome) := Receive(c, packet);
            && outcome.Clean? && Listening(c', e) && SameHandle(c, c') && c'.out == c.out
            && Holds(c', e.m, StoreAll(sim, HeadersIn(packet).headers))
  {
    hide AcceptAll, HeadersIn, StoreAll, Holds, NoEnd, LeavesCommands, PlainlyAll;
    var hs := HeadersIn(packet).headers;
    ReceiveIs(c, packet);
    AcceptAllListens(c, hs, e);
    AcceptAllReceives(c, hs);
    if e.st { StreamHolds(c, hs, e.m, sim); } else { StoreHolds(c, hs, e.m, sim); }
  }

  /** Asked for more, the client goes on, with everything it holds. */
  lemma ListensOn(c: Party, e: Ear, sim: Rx)
    requires Keen(c, e) && Holds(c, e.m, sim)
    ensures var c' := ClientContinue(c); Stopped(c') || (Keen(c', e) && Holds(c', e.m, sim))
  {
    hide SendObject, Deliver, LinkErrorIn, NoEnd, LeavesCommands, PlainlyAll, Holds, Chunks, SameHolding;
    var c0 := Update(c, c.current.value.(continueReceived := true));
    SendListens(c0, e);
    HoldsSame(c, c0, e.m, sim) by { SameRx(c.current.value.rx); }
    var (c1, sent) := SendObject(c0, true, false);
    DeliverOut(c1, EvLinkErr, c1.current.value.opcode, 0, true);
    if !c1.fault && !sent.SendError? {
      SameRx(c0.current.value.rx);
      HoldsSame(c0, c1, e.m, sim);
      DeliverListens(c1, EvProgress, c1.current.value.opcode, 0, e);
      var c2 := Deliver(c1, EvProgress, c1.current.value.opcode, 0, false);
      HoldsSame(c1, c2, e.m, sim);
      SameRx(c2.current.value.rx);
      HoldsSame(c2, ClientContinue(c), e.m, sim);
    }
  }

  lemma SameRx(rx: Rx)
    ensures SameHolding(rx, rx)
  {
  }

  lemma SendListens(c: Party, e: Ear)
    requires Listening(c, e)
    ensures var (c', sent) := SendObject(c, true, false);
            && c'.current.Some? && c'.current.value.rx == c.current.value.rx && c'.state == c.state
            && Chunks(c'.events, e.m) == Chunks(c.events, e.m)
            && (c'.fault || sent.SendError? || Listening(c', e))
  {
    hide SendObject, NoEnd, LeavesCommands, PlainlyAll, Chunks, Reqs, Received;
    SendKeeps(c, true, false);
    SendRecord(c, true, false);
    SendOut(c, true, false);
    SendOffset(c);
    ManyMore(c.events, SendObject(c, true, false).0.events, EvStreamEmpty, IdOf(c.current), e.m);
  }

  lemma SendOffset(c: Party)
    requires c.current.Some?
    ensures var c' := SendObject(c, true, false).0;
            c'.current.Some? && c'.current.value.headerOffset == c.current.value.headerOffset
  {
    hide Packed, PacketPayload, PacketOpcode;
  }

  // ---- Being told of the end ----

  /** The last event shows what a receiver that gathers everything would hold; bodies taken as
      streams have been offered in chunks instead. */
  predicate Shown(events: seq<Event>, e: Ear, sim: Rx) {
    && |events| > e.m
    && var last := events[|events| - 1];
    && last.kind.EvReqDone? && last.cmd == e.cmd && last.id == Some(e.id)
    && if e.st then
         last.received == Plain(Received(sim)) && Agrees(Assemble(Assembly([], []), Chunks(events, e.m)), sim)
       else last.received == Received(sim) && Chunks(events, e.m) == []
  }

  /** The client is done, and has been told so with everything it holds. */
  predicate Done(c: Party, e: Ear, sim: Rx) {
    Rested(c) && Shown(c.events, e, sim) && NoEnd(c.events[..|c.events| - 1], e.m)
  }

  lemma EndShows(c: Party, rsp: byte, e: Ear, sim: Rx)
    requires Keen(c, e) && Holds(c, e.m, sim)
    ensures Done(ClientDone(c, rsp), e, sim) && ClientDone(c, rsp).out == c.out
  {
    hide NoEnd, LeavesCommands, PlainlyAll, Chunks, Reqs, Received, Agrees, Assemble, Plain;
    var ev := EventOf(ServerIdle(c), EvReqDone, c.current.value.opcode, rsp);
    OneMore(c.events, ev, e.m);
    assert (c.events + [ev])[..|c.events|] == c.events;
    assert Chunks(c.events, e.m) + [] == Chunks(c.events, e.m);
  }

  /** A client that gets a packet of the response takes in its headers, and then either asks for
      more or is done. */
  predicate Heeded(c: Party, c': Party, e: Ear, packet: seq<byte>, sim: Rx)
    requires |packet| >= 3
  {
    var rx := StoreAll(sim, HeadersIn(packet).headers);
    && Proceeded(c, c') && Naming(c, c', e.cmd)
    && (Stopped(c')
        || (ClearFinal(packet[0]) == CONTINUE && Keen(c', e) && Holds(c', e.m, rx))
        || (ClearFinal(packet[0]) != CONTINUE && Done(c', e, rx)))
  }

  lemma ClientHeeds(c: Party, packet: seq<byte>, e: Ear, sim: Rx)
    requires Keen(c, e) && Holds(c, e.m, sim) && |packet| >= 3 && HeadersIn(packet).outcome.Clean?
    ensures Heeded(c, ClientStep(c, Some(packet)), e, packet, sim)
  {
    hide ClientHeaders, HeadersIn, StoreAll, Holds, Keen, Done, LinkErrorIn, Naming;
    KeenFacts(c, e);
    var rsp := ClearFinal(packet[0]);
    ClientReceiveProceeds(c, packet, rsp);
    var c0 := if e.cmd == DISCONNECT then c.(mtuTx := MINIMUM_MTU) else c;
    KeenResized(c, c0, e, sim);
    HeadersHeeded(c0, packet, e, sim);
    HeadersName(c0, packet, rsp, e.id, e.cmd);
    assert ClientStep(c, Some(packet)) == ClientHeaders(c0, packet, rsp);
    NamedAlike(c, c0, ClientStep(c, Some(packet)), e.cmd);
  }

  lemma NamedAlike(c: Party, c0: Party, c': Party, cmd: byte)
    requires c0.out == c.out && Naming(c0, c', cmd)
    ensures Naming(c, c', cmd)
  {
  }

  lemma KeenFacts(c: Party, e: Ear)
    requires Keen(c, e)
    ensures Waiting(c) && c.linkFaults == [] && !c.fault && Own(c, e.id, e.cmd) && e.cmd != CONNECT
    ensures e.m <= |c.events| && !AtRest(c)
  {
  }

  lemma KeenResized(c: Party, c': Party, e: Ear, sim: Rx)
    requires c' == c.(mtuTx := c'.mtuTx, rxRoom := c'.rxRoom)
    ensures Keen(c, e) ==> Keen(c', e)
    ensures Holds(c, e.m, sim) ==> Holds(c', e.m, sim)
    ensures Done(c, e, sim) ==> Done(c', e, sim)
    ensures Own(c, e.id, e.cmd) ==> Own(c', e.id, e.cmd)
  {
    hide NoEnd, LeavesCommands, PlainlyAll, Chunks, Received, Agrees, Plain;
  }

  lemma HeadersHeeded(c: Party, packet: seq<byte>, e: Ear, sim: Rx)
    requires Keen(c, e) && Holds(c, e.m, sim) && |packet| >= 3 && HeadersIn(packet).outcome.Clean?
    ensures var c' := ClientHeaders(c, packet, ClearFinal(packet[0]));
            var rx := StoreAll(sim, HeadersIn(packet).headers);
            || Stopped(c')
            || (ClearFinal(packet[0]) == CONTINUE && Keen(c', e) && Holds(c', e.m, rx))
            || (ClearFinal(packet[0]) != CONTINUE && Done(c', e, rx))
  {
    hide Receive, ClientContinue, ClientDone, HeadersIn, StoreAll, Holds, Listening, Done, LinkErrorIn;
    Hears(c, packet, e, sim);
    var c1 := Receive(c, packet).0;
    ListensSome(c1, e);
    KeenAfter(c, c1, e);
    ListensOn(c1, e, StoreAll(sim, HeadersIn(packet).headers));
    EndShows(c1, ClearFinal(packet[0]), e, StoreAll(sim, HeadersIn(packet).headers));
  }

  lemma KeenAfter(c: Party, c1: Party, e: Ear)
    requires Keen(c, e) && Listening(c1, e) && SameHandle(c, c1)
    ensures Keen(c1, e)
  {
    hide NoEnd, LeavesCommands, PlainlyAll;
  }

  // ---- Both together ----

  /** A packet of the request is on its way; the client holds this much of the response. */
  predicate Asking(w: World, y: Talk, e: Ear, sim: Rx) {
    && Keen(w.client, e) && Holds(w.client, e.m, sim)
    && w.down == [] && WholePacket(w.up) && ClearFinal(w.up[0]) == ClearFinal(e.cmd)
    && (Expecting(w.server, y, sim) || Speaking(w.server, y, sim))
  }

  /** How the server stands, the client holding this much of the response, or about to. */
  predicate Stands(s: Party, y: Talk, rx: Rx, more: bool) {
    if more then Speaking(s, y, rx) else (Speaking(s, y, rx) && !y.z.patient) || Spoke(s, y, rx) || Dropped(s, y)
  }

  /** A packet of the response is on its way. */
  predicate Replying(w: World, y: Talk, e: Ear, sim: Rx) {
    && Keen(w.client, e) && Holds(w.client, e.m, sim)
    && w.up == [] && WholePacket(w.down) && HeadersIn(w.down).outcome.Clean?
    && Stands(w.server, y, StoreAll(sim, HeadersIn(w.down).headers), ClearFinal(w.down[0]) == CONTINUE)
  }

  /** The client is done. */
  predicate Heard(w: World, y: Talk, e: Ear, sim: Rx) {
    Done(w.client, e, sim) && Silent(w) && Stands(w.server, y, sim, false)
  }

  ghost predicate Conversing(w: World, y: Talk, e: Ear) {
    exists sim :: Asking(w, y, e, sim) || Replying(w, y, e, sim) || Heard(w, y, e, sim)
  }

  lemma ServerConverses(w: World, y: Talk, e: Ear, sim: Rx)
    requires !Over(w) && Asking(w, y, e, sim)
    ensures var w' := Play(w, ServerTurn); Over(w') || Replying(w', y, e, sim)
  {
    hide ServerStep, Keen, Holds, HeadersIn, StoreAll, Speaking, Spoke, Dropped, LinkErrorIn, Oversized, WholePacket,
         TalkOk, Received;
    WholeSize(w.up);
    KeenFacts(w.client, e);
    KeenCommand(w.client, e);
    if Speaking(w.server, y, sim) { SpeaksSome(w.server, y, sim); }
    TurnTreats(w, w.up);
    if Session.Holding(w.server, w.up) {
      ServerSpeaks(w.server, w.up, y, sim);
      var w' := Play(w, ServerTurn);
      if !Over(w') {
        LastWhole(w.server, w'.server);
        assert w'.down == w'.server.out[|w.server.out|];
      }
    }
  }

  lemma KeenCommand(c: Party, e: Ear)
    requires Keen(c, e)
    ensures ClearFinal(e.cmd) != CONNECT
  {
  }

  lemma ClientConverses(w: World, y: Talk, e: Ear, sim: Rx)
    requires !Over(w) && Replying(w, y, e, sim)
    ensures var w' := Play(w, ClientTurn);
            var sim' := StoreAll(sim, HeadersIn(w.down).headers);
            Over(w') || Asking(w', y, e, sim') || Heard(w', y, e, sim')
  {
    hide ClientStep, Keen, Holds, HeadersIn, StoreAll, Stands, LinkErrorIn, Oversized, WholePacket, Done;
    WholeSize(w.down);
    KeenFacts(w.client, e);
    TurnTreats(w, w.down);
    if Session.Holding(w.client, w.down) {
      ClientHeeds(w.client, w.down, e, sim);
      ClientConversed(w, Play(w, ClientTurn), y, e, sim);
    }
  }

  lemma ClientConversed(w: World, w': World, y: Talk, e: Ear, sim: Rx)
    requires Replying(w, y, e, sim) && |w.down| >= 3 && Heeded(w.client, w'.client, e, w.down, sim)
    requires w' == w.(client := w'.client, up := Sent(w.client, w'.client), down := [])
    ensures var sim' := StoreAll(sim, HeadersIn(w.down).headers);
            Over(w') || Asking(w', y, e, sim') || Heard(w', y, e, sim')
  {
    hide Listening, Holds, HeadersIn, StoreAll, Speaking, Spoke, Dropped, LinkErrorIn, Oversized, WholePacket, Shown,
         NoEnd, Received;
    if !Over(w') {
      if Waiting(w'.client) {
        LastWhole(w.client, w'.client);
      } else {
        SentNone(w.client, w'.client);
      }
    }
  }

  // ---- Reading on, and calls between turns ----

  lemma RoomyStands(s: Party, s': Party, y: Talk, rx: Rx)
    requires s' == s.(rxRoom := s'.rxRoom)
    ensures Speaking(s', y, rx) == Speaking(s, y, rx) && Spoke(s', y, rx) == Spoke(s, y, rx)
    ensures Dropped(s', y) == Dropped(s, y) && Expecting(s', y, rx) == Expecting(s, y, rx)
  {
    hide NoEnd, Contributed, Spoken, Unspoken, Voiced, TalkOk, Received;
  }

  lemma ReadsConverse(w: World, y: Talk, e: Ear, a: Act)
    requires Conversing(w, y, e) && (a.ServerReads? || a.ClientReads?)
    ensures Conversing(Play(w, a), y, e)
  {
    hide Play, Keen, Holds, HeadersIn, StoreAll, Speaking, Spoke, Dropped, Expecting, WholePacket, Done;
    var w' := Play(w, a);
    ReadingOn(w, a);
    var sim :| Asking(w, y, e, sim) || Replying(w, y, e, sim) || Heard(w, y, e, sim);
    KeenResized(w.client, w'.client, e, sim);
    RoomyStands(w.server, w'.server, y, sim);
    if Replying(w, y, e, sim) {
      WholeSize(w.down);
      RoomyStands(w.server, w'.server, y, StoreAll(sim, HeadersIn(w.down).headers));
      assert Replying(w', y, e, sim);
    } else if Asking(w, y, e, sim) {
      assert Asking(w', y, e, sim);
    } else {
      assert Heard(w', y, e, sim);
    }
  }

  /** Calls of the client's application that change neither the command nor how it takes in the
      response. */
  predicate Aside(calls: seq<ApiCall>) {
    LeavesCommand(calls) && Plainly(calls)
  }

  lemma CalledListens(c: Party, e: Ear, sim: Rx, calls: seq<ApiCall>)
    requires Keen(c, e) && Holds(c, e.m, sim) && Aside(calls)
    ensures Keen(Called(c, calls), e) && Holds(Called(c, calls), e.m, sim)
  {
    hide ApplyAll, NoEnd, Chunks, LeavesCommands, LeavesCommand, PlainlyAll, Plainly, Holds, SameHolding;
    CommandLeft(c.current.value, c.mtuTx, calls);
    PlainlyKeeps(c.current.value, c.mtuTx, calls);
    ApplyAllKeeps(c.current.value, c.mtuTx, calls);
    HoldsSame(c, Called(c, calls), e.m, sim);
  }

  lemma DoneRests(c: Party, e: Ear, sim: Rx)
    requires Done(c, e, sim)
    ensures AtRest(c) && !c.fault && c.current.None?
  {
  }

  lemma CallsConverse(w: World, y: Talk, e: Ear, calls: seq<ApiCall>)
    requires Conversing(w, y, e) && Aside(calls)
    ensures Conversing(Play(w, ClientCalls(calls)), y, e)
  {
    hide Called, Keen, Holds, HeadersIn, StoreAll, Speaking, Expecting, Stands, WholePacket, Done, Aside;
    var sim :| Asking(w, y, e, sim) || Replying(w, y, e, sim) || Heard(w, y, e, sim);
    var w' := Play(w, ClientCalls(calls));
    if Heard(w, y, e, sim) {
      DoneRests(w.client, e, sim);
      NothingCalled(w.client, calls);
      assert Heard(w', y, e, sim);
    } else {
      CalledListens(w.client, e, sim, calls);
      assert Asking(w, y, e, sim) ==> Asking(w', y, e, sim);
      assert Replying(w, y, e, sim) ==> Replying(w', y, e, sim);
    }
  }

  lemma NothingCalled(c: Party, calls: seq<ApiCall>)
    requires c.current.None?
    ensures Called(c, calls) == c
  {
  }

  // ---- Every run ----

  lemma TurnConverses(w: World, y: Talk, e: Ear, a: Act)
    requires !Over(w) && Conversing(w, y, e) && Passive(a)
    ensures Over(Play(w, a)) || Conversing(Play(w, a), y, e)
  {
    hide Play, Over, Keen, Holds, HeadersIn, StoreAll, Speaking, Expecting, Stands, WholePacket, Done;
    NothingToTake(w);
    var sim :| Asking(w, y, e, sim) || Replying(w, y, e, sim) || Heard(w, y, e, sim);
    if a.ServerReads? || a.ClientReads? {
      ReadsConverse(w, y, e, a);
    } else if Asking(w, y, e, sim) {
      if a.ServerTurn? {
        ServerConverses(w, y, e, sim);
        assert Over(Play(w, a)) || Replying(Play(w, a), y, e, sim);
      }
    } else if Replying(w, y, e, sim) {
      if a.ClientTurn? {
        ClientConverses(w, y, e, sim);
        WholeSize(w.down);
        var sim' := StoreAll(sim, HeadersIn(w.down).headers);
        assert Over(Play(w, a)) || Asking(Play(w, a), y, e, sim') || Heard(Play(w, a), y, e, sim');
      }
    }
  }

  /** Taking packets, reading on, and such calls. */
  predicate Attending(acts: seq<Act>) {
    forall i :: 0 <= i < |acts| ==> Passive(acts[i]) || (acts[i].ClientCalls? && Aside(acts[i].calls))
  }

  lemma {:induction false} ConversingKeeps(w: World, y: Talk, e: Ear, acts: seq<Act>)
    requires (Over(w) || Conversing(w, y, e)) && Attending(acts)
    ensures var w' := PlayAll(w, acts); Over(w') || Conversing(w', y, e)
    decreases |acts|
  {
    hide Play, Over, Conversing, Passive, Aside;
    if acts == [] {
    } else {
      var before, last := PlayAll(w, acts[..|acts| - 1]), acts[|acts| - 1];
      ConversingKeeps(w, y, e, acts[..|acts| - 1]);
      if !Over(before) {
        if Passive(last) {
          TurnConverses(before, y, e, last);
        } else {
          CallsConverse(before, y, e, last.calls);
        }
      }
    }
  }

  // ---- The theorem ----

  /** Answers CONTINUE from the announcement on, until the last packet. */
  predicate Patient(script: seq<seq<ApiCall>>) {
    script != [] && Responds(script[0]) && forall i :: 0 <= i < |script| ==> AnswersContinue(script[i])
  }

  /** The server's application responds with a stream, among other things. */
  predicate WithStream(script: seq<seq<ApiCall>>) {
    Streamings(Spoken(script, |script|)) > 0
  }

  /** A server that responds with headers, and with one stream at most, fed until it ends. */
  predicate Answerer(s: Party) {
    && ResponsiveScript(s.script, WithStream(s.script)) && OneStream(s.script)
    && (WithStream(s.script) ==> WellFed(Stream([], false), s.feed))
  }

  /** Two handles at rest, a request of any command but CONNECT, and a client that leaves its
      command and the taking in of the response to the engine. */
  predicate ResponseSetting(w: World, cmd: byte, calls: seq<ApiCall>) {
    && Resting(w) && ClearFinal(cmd) != CONNECT && Answerer(w.server)
    && LeavesCommand(calls) && LeavesCommands(w.client.script) && PlainlyAll(w.client.script)
    && BuildRequest(w.client, cmd, calls).headerOffset == 0
  }

  function EarOf(w: World, cmd: byte, calls: seq<ApiCall>): Ear {
    Ear(w.client.nextId, cmd, |w.client.events|, BuildRequest(w.client, cmd, calls).rx.streaming)
  }

  function TalkOf(w: World): Talk {
    Talk(w.server.script, |w.server.events|, w.server.mtuTx,
         Manner(Patient(w.server.script), WithStream(w.server.script), w.server.feed))
  }

  lemma BuiltFresh(p: Party, cmd: byte, calls: seq<ApiCall>)
    requires LeavesCommand(calls)
    ensures var o := BuildRequest(p, cmd, calls);
            && o.opcode == cmd && o.lastOpcode == SetFinal(cmd) && !o.abort
            && Received(o.rx) == [] && o.rx.body.None?
  {
    CommandLeft(NewRequest(cmd, p.mtuRx), p.mtuTx, calls);
    ApplyAllKeeps(NewRequest(cmd, p.mtuRx), p.mtuTx, calls);
  }

  /** Nothing of the response has come in. */
  lemma HoldsNothing(c: Party, m: nat)
    requires c.current.Some? && Received(c.current.value.rx) == [] && c.current.value.rx.body.None?
    requires Chunks(c.events, m) == []
    ensures Holds(c, m, NewRx())
  {
    hide Received, Agrees, Assemble;
    NothingGathered();
    assert Received(NewRx()) == [];
  }

  lemma StartListens(w: World, cmd: byte, calls: seq<ApiCall>)
    requires ResponseSetting(w, cmd, calls)
    ensures var c := ClientReports.Asking(w.client, cmd, calls);
            Listening(c, EarOf(w, cmd, calls)) && Holds(c, |w.client.events|, NewRx())
  {
    hide BuildRequest, NoEnd, Chunks, Reqs, LeavesCommands, LeavesCommand, PlainlyAll, Received, Answerer, Over;
    NothingYet(w.client.events);
    BuiltFresh(w.client, cmd, calls);
    HoldsNothing(ClientReports.Asking(w.client, cmd, calls), |w.client.events|);
  }

  /** The first packet of the request. */
  lemma StartKeen(c: Party, e: Ear, sim: Rx)
    requires Listening(c, e) && Holds(c, e.m, sim) && ClearFinal(e.cmd) != CONNECT
    ensures var c' := ClientStart(c, BAD_REQUEST); Stopped(c') || (Keen(c', e) && Holds(c', e.m, sim))
  {
    hide SendObject, Deliver, LinkErrorIn, NoEnd, LeavesCommands, PlainlyAll, Holds, Chunks, SameHolding;
    SendListens(c, e);
    var (c1, sent) := SendObject(c, true, false);
    DeliverOut(c1.(state := Idle, serverMode := false), EvLinkErr, c1.current.value.opcode, 0, true);
    if !c1.fault && !sent.SendError? {
      SameRx(c.current.value.rx);
      HoldsSame(c, c1, e.m, sim);
      var c2 := Update(c1, c1.current.value.(firstSent := true));
      SameRx(c2.current.value.rx);
      HoldsSame(c1, c2, e.m, sim);
      DeliverListens(c2, EvProgress, c2.current.value.opcode, 0, e);
      var c3 := Deliver(c2, EvProgress, c2.current.value.opcode, 0, false);
      HoldsSame(c2, c3, e.m, sim);
      SameRx(c3.current.value.rx);
      HoldsSame(c3, ClientStart(c, BAD_REQUEST), e.m, sim);
    }
  }

  lemma RequestAsks(w: World, cmd: byte, calls: seq<ApiCall>)
    requires ResponseSetting(w, cmd, calls)
    ensures var w' := Play(w, Start(cmd, calls));
            Over(w') || Asking(w', TalkOf(w), EarOf(w, cmd, calls), NewRx())
  {
    hide ClientStart, BuildRequest, LinkErrorIn, Oversized, WholePacket, LeavesCommands, LeavesCommand, PlainlyAll,
         Holds, Listening, Keen, Expecting;
    var c, e := ClientReports.Asking(w.client, cmd, calls), EarOf(w, cmd, calls);
    RequestNotAborted(w.client, cmd, calls);
    StartListens(w, cmd, calls);
    ListensOwn(c, e);
    ClientStartProceeds(c, BAD_REQUEST);
    StartKeen(c, e, NewRx());
    StartNames(c, e.id, e.cmd);
    ServerExpects(w);
    var w' := Play(w, Start(cmd, calls));
    assert w'.client == ClientStart(c, BAD_REQUEST);
    assert w'.up == Sent(w.client, w'.client);
    if !Over(w') {
      KeenFacts(w'.client, e);
      LastWhole(w.client, w'.client);
    }
  }

  lemma ListensOwn(c: Party, e: Ear)
    requires Listening(c, e)
    ensures Own(c, e.id, e.cmd)
  {
  }

  lemma ServerExpects(w: World)
    requires Rested(w.server) && Answerer(w.server)
    ensures Expecting(w.server, TalkOf(w), NewRx())
  {
    hide ResponsiveScript, OneStream, WellFed;
  }

  /** What was queued for the response, as the client has been shown it. */
  predicate ShownAll(events: seq<Event>, m: nat, whole: seq<Header>, st: bool) {
    && |events| > m
    && var last := events[|events| - 1];
    if st then
      && last.received == Plain(whole)
      && Assemble(Assembly([], []), Chunks(events, m)) == Assembly(BodyValues(whole), [])
    else last.received == whole && Chunks(events, m) == []
  }

  /** The server has given the request up, because of an ABORT or because it made no sense. */
  predicate GivenUp(events: seq<Event>, n: nat) {
    |events| > n && var last := events[|events| - 1]; last.kind.EvAbort? || last.kind.EvParseErr?
  }

  /** The server has answered the request whole. */
  predicate AnsweredWhole(events: seq<Event>, n: nat) {
    |events| > n && events[|events| - 1].kind.EvReqDone? && Reactions(events, n) >= 1
  }

  lemma SpokeShown(events: seq<Event>, e: Ear, s: Party, y: Talk, sim: Rx)
    requires Shown(events, e, sim) && Spoke(s, y, sim)
    ensures ShownAll(events, e.m, Whole(s, y), e.st)
  {
    hide Chunks, Assemble, NoEnd, Plain, BodyValues, Contributed;
    var a := Assemble(Assembly([], []), Chunks(events, e.m));
    if e.st { assert a == Assembly(BodyValues(Received(sim)), []); }
  }

  lemma SpeakingShown(events: seq<Event>, e: Ear, s: Party, y: Talk, sim: Rx)
    requires Shown(events, e, sim) && Speaking(s, y, sim)
    ensures events[|events| - 1].received <= (if e.st then Plain(Whole(s, y)) else Whole(s, y))
  {
    hide Chunks, Assemble, NoEnd, Plain, BodyValues, Contributed, Received, Pending, Spoken, Unspoken, TalkOk;
    var o := s.current.value;
    var rest := if y.z.streams then Pending(sim.body, o.txQueue, o.stream, s.feed)
                else Pending(sim.body, o.txQueue, Stream([], true), []);
    assert Received(sim) + rest == Whole(s, y);
    PlainAppend(Received(sim), rest);
  }

  lemma HeardMeans(w: World, y: Talk, e: Ear, sim: Rx)
    requires Heard(w, y, e, sim)
    ensures |w.client.events| > e.m
    ensures var last := w.client.events[|w.client.events| - 1];
            var whole := Whole(w.server, y);
            && last.kind.EvReqDone? && last.cmd == e.cmd
            && (|| GivenUp(w.server.events, y.n)
                || (w.server.current.Some? && !y.z.patient && last.received <= (if e.st then Plain(whole) else whole))
                || (w.server.current.None? && AnsweredWhole(w.server.events, y.n)
                    && ShownAll(w.client.events, e.m, whole, e.st)))
  {
    hide Chunks, Assemble, NoEnd, Plain, BodyValues, Contributed, Received, Speaking, ShownAll;
    if Spoke(w.server, y, sim) {
      SpokeShown(w.client.events, e, w.server, y, sim);
    } else if Speaking(w.server, y, sim) {
      SpeakingShown(w.client.events, e, w.server, y, sim);
      SpeaksSome(w.server, y, sim);
    }
  }

  /**
   The response, end to end: in every run of a request of any command but CONNECT, whatever the
   client sends, however packets are read, and over however many packets, the headers shown with
   the client's REQDONE event are the beginning of what the server's application has queued for
   the response, in order, with bodies rejoined and a stream as the body it makes. They are all
   of it when the server has answered the request whole, which it has, unless it gave the request
   up, if its application answers CONTINUE until the last packet. Bodies taken as streams come in
   chunks that make up the same bodies.
   */
  lemma ResponseTheorem(w: World, cmd: byte, calls: seq<ApiCall>, acts: seq<Act>)
    requires ResponseSetting(w, cmd, calls) && Attending(acts)
    ensures var w' := PlayAll(Play(w, Start(cmd, calls)), acts);
            var n, m := |w.server.events|, |w.client.events|;
            var st := BuildRequest(w.client, cmd, calls).rx.streaming;
            var whole := Contributed(w.server.script, w.server.mtuTx, w.server.feed, Reactions(w'.server.events, n));
            || Over(w')
            || (m <= |w'.client.events| && NoEnd(w'.client.events, m))
            || (&& |w'.client.events| > m
                && var last := w'.client.events[|w'.client.events| - 1];
                && last.kind.EvReqDone? && last.cmd == cmd
                && (|| GivenUp(w'.server.events, n)
                    || (w'.server.current.Some? && !Patient(w.server.script)
                        && last.received <= (if st then Plain(whole) else whole))
                    || (w'.server.current.None? && AnsweredWhole(w'.server.events, n)
                        && ShownAll(w'.client.events, m, whole, st))))
  {
    hide Play, Over, ResponseSetting, Asking, Replying, Heard, NoEnd, ShownAll, GivenUp, AnsweredWhole, Patient,
         Contributed, Plain, BuildRequest;
    var y, e := TalkOf(w), EarOf(w, cmd, calls);
    RequestAsks(w, cmd, calls);
    ConversingKeeps(Play(w, Start(cmd, calls)), y, e, acts);
    var w' := PlayAll(Play(w, Start(cmd, calls)), acts);
    if !Over(w') {
      var sim :| Asking(w', y, e, sim) || Replying(w', y, e, sim) || Heard(w', y, e, sim);
      if Heard(w', y, e, sim) {
        HeardMeans(w', y, e, sim);
      } else {
        NotYetHeard(w', y, e, sim);
      }
    }
  }

  lemma NotYetHeard(w: World, y: Talk, e: Ear, sim: Rx)
    requires Asking(w, y, e, sim) || Replying(w, y, e, sim)
    ensures e.m <= |w.client.events| && NoEnd(w.client.events, e.m)
  {
    hide Holds, HeadersIn, StoreAll, Stands, WholePacket, LeavesCommands, PlainlyAll, NoEnd, Expecting, Speaking;
  }

  // ---- A body as the response ----

  /** An application that answers a request with this body. */
  function BodyScript(bs: seq<byte>): seq<seq<ApiCall>> {
    [[SetResponse(CONTINUE, SUCCESS), AddHeader(BODY, HeaderData(0, 0, bs), false, false)]]
  }

  lemma {:induction false} SpokenOnce(calls: seq<ApiCall>, k: nat)
    requires k >= 1
    ensures Spoken([calls], k) == calls
  {
    assert [calls][1..] == [] && calls + [] == calls;
  }

  lemma BodyContributed(bs: seq<byte>, mtuTx: u16, feed: seq<StreamCall>, k: nat)
    requires k >= 1
    ensures Contributed(BodyScript(bs), mtuTx, feed, k) == [Header(BODY, bs)]
  {
    var calls := BodyScript(bs)[0];
    var o := Apply(NewObject(0), mtuTx, calls[0]);
    SpokenOnce(calls, k);
    assert calls[1..] == [calls[1]] && [calls[1]][1..] == [];
    assert Offered(o, mtuTx, feed, [calls[1]]) == OfferedOne(o, mtuTx, feed, calls[1]) + [];
    assert OfferedOne(o, mtuTx, feed, calls[1]) == [Header(BODY, bs)];
    assert OfferedOne(NewObject(0), mtuTx, feed, calls[0]) == [];
  }

  lemma BodyScriptPatient(bs: seq<byte>)
    ensures Patient(BodyScript(bs))
  {
    assert BodyScript(bs)[0][0].SetResponse?;
    assert Responds(BodyScript(bs)[0]);
  }

  /** So a GET that a server answers with a body, of any length, ends with the client being shown
      that body and nothing else, unless the server has given the request up. */
  lemma GetTheorem(w: World, bs: seq<byte>, calls: seq<ApiCall>, acts: seq<Act>)
    requires w.server.script == BodyScript(bs) && ResponseSetting(w, 0x03, calls) && Attending(acts)
    requires !BuildRequest(w.client, 0x03, calls).rx.streaming
    ensures var w' := PlayAll(Play(w, Start(0x03, calls)), acts);
            var n, m := |w.server.events|, |w.client.events|;
            || Over(w')
            || (m <= |w'.client.events| && NoEnd(w'.client.events, m))
            || GivenUp(w'.server.events, n)
            || (&& |w'.client.events| > m
                && var last := w'.client.events[|w'.client.events| - 1];
                && last.kind.EvReqDone? && last.cmd == 0x03 && last.received == [Header(BODY, bs)])
  {
    hide Play, PlayAll, Over, ResponseSetting, NoEnd, GivenUp, Contributed, BuildRequest, Patient, BodyScript;
    hide Attending;
    ResponseTheorem(w, 0x03, calls, acts);
    BodyScriptPatient(bs);
    var w' := PlayAll(Play(w, Start(0x03, calls)), acts);
    if AnsweredWhole(w'.server.events, |w.server.events|) {
      BodyContributed(bs, w.server.mtuTx, w.server.feed, Reactions(w'.server.events, |w.server.events|));
    }
  }
}
