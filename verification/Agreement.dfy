/**
 What the agreement on packet sizes is for: from then on, until somebody connects or
 disconnects, every packet fits the receive buffer of the other end.
 */
module Agreement {
  import opened Octets
  import opened Headers
  import opened Reassembler
  import opened Framing
  import opened Session
  import opened SessionFacts
  import opened Lifetime
  import opened Lockstep
  import opened Put
  import opened Connect
  import opened Bounds

  /** Octets on the wire that are whole modest packets. */
  predicate Laden(s: seq<byte>, size: nat) {
    Split(s).rest == [] && forall i :: 0 <= i < |Split(s).packets| ==> Modest(Split(s).packets[i], size)
  }

  lemma LadenNothing(size: nat)
    ensures Laden([], size)
  {
    SplitNothing();
  }

  /** Further packets behind what is on the wire. */
  lemma LadenMore(s: seq<byte>, packets: seq<seq<byte>>, size: nat)
    requires Laden(s, size)
    requires forall i :: 0 <= i < |packets| ==> WholePacket(packets[i]) && Modest(packets[i], size)
    ensures Laden(s + Wire(packets), size)
  {
    hide Split, Modest, WholePacket;
    SplitExtended(s, Wire(packets));
    SplitJoined(packets);
    assert [] + Wire(packets) == Wire(packets);
  }

  /** The packet at the front is modest, and so are the others. */
  lemma LadenFirst(s: seq<byte>, size: nat)
    requires Laden(s, size)
    ensures Incomplete(s) <==> s == []
    ensures !Incomplete(s) ==>
              && WholePacket(s[..PacketSize(s)]) && Modest(s[..PacketSize(s)], size) && Laden(s[PacketSize(s)..], size)
  {
    hide Modest;
    SplitWholes(s);
    if !Incomplete(s) {
      var n := PacketSize(s);
      var f := Split(s[n..]);
      assert Split(s) == Frames([s[..n]] + f.packets, f.rest);
      assert Split(s).packets[0] == s[..n];
      assert forall i :: 0 <= i < |f.packets| ==> Split(s).packets[i + 1] == f.packets[i];
    }
  }

  /** What a step of a tame handle puts on the wire. */
  lemma LadenSent(s: seq<byte>, p: Party, p': Party, base: Party)
    requires Laden(s, base.mtuTx) && Tame(p, base) && Tame(p', base) && !Oversized(p')
    ensures Laden(s + Sent(p, p'), base.mtuTx)
  {
    hide Modest, WholePacket, Laden, TameObject, TameScript, SoundBudget;
    if |p.out| <= |p'.out| {
      var packets := p'.out[|p.out|..];
      forall i | 0 <= i < |packets| ensures WholePacket(packets[i]) && Modest(packets[i], base.mtuTx) {
        assert packets[i] == p'.out[|p.out| + i];
      }
      LadenMore(s, packets, base.mtuTx);
    } else {
      assert s + [] == s;
    }
  }

  // ---- Two handles that have agreed ----

  /** Acts that neither connect nor disconnect, nor put data before the headers. */
  predicate NeutralAct(a: Act) {
    && (a.Start? ==> Neutral(a.cmd) && TameCalls(a.calls))
    && (a.ClientCalls? ==> TameCalls(a.calls))
  }

  predicate NeutralActs(acts: seq<Act>) {
    forall i :: 0 <= i < |acts| ==> NeutralAct(acts[i])
  }

  /** Both handles tame since the base, and what is under way modest. */
  predicate Within(w: World, base: World) {
    && Tame(w.client, base.client) && Tame(w.server, base.server)
    && Laden(w.up, base.client.mtuTx) && Laden(w.down, base.server.mtuTx)
  }

  lemma WithinServerTurn(w: World, base: World)
    requires Within(w, base)
    ensures var w' := Play(w, ServerTurn); Over(w') || Within(w', base)
  {
    hide Indicate, Tame, Laden, Modest, Oversized, LinkErrorIn;
    LadenFirst(w.up, base.client.mtuTx);
    if !Incomplete(w.up) {
      var packet := w.up[..PacketSize(w.up)];
      IndicatedTame(w.server, packet, base.server, base.client.mtuTx);
      var w' := Play(w, ServerTurn);
      if !Over(w') { LadenSent(w.down, w.server, w'.server, base.server); }
    }
  }

  lemma WithinClientTurn(w: World, base: World)
    requires Within(w, base)
    ensures var w' := Play(w, ClientTurn); Over(w') || Within(w', base)
  {
    hide Indicate, Tame, Laden, Modest, Oversized, LinkErrorIn;
    LadenFirst(w.down, base.server.mtuTx);
    if !Incomplete(w.down) {
      var packet := w.down[..PacketSize(w.down)];
      IndicatedTame(w.client, packet, base.client, base.server.mtuTx);
      var w' := Play(w, ClientTurn);
      if !Over(w') { LadenSent(w.up, w.client, w'.client, base.client); }
    }
  }

  lemma IndicatedTame(p: Party, packet: seq<byte>, base: Party, size: nat)
    requires Tame(p, base) && |packet| >= 3 && Modest(packet, size)
    ensures Tame(Indicate(p, packet), base)
  {
    hide Tame, ServerStep, ClientStep, HeadersIn;
    TameMoved(p, p.(fault := true, rxRoom := |packet|), base);
    TameServerStep(p, packet, base);
    TameClientStep(p, Some(packet), base);
  }

  lemma WithinReads(w: World, base: World)
    requires Within(w, base)
    ensures Within(Play(w, ServerReads), base) && Within(Play(w, ClientReads), base)
  {
    hide Tame, Laden;
    TameMoved(w.server, Play(w, ServerReads).server, base.server);
    TameMoved(w.client, Play(w, ClientReads).client, base.client);
  }

  lemma WithinCalls(w: World, base: World, calls: seq<ApiCall>)
    requires Within(w, base) && TameCalls(calls)
    ensures Within(Play(w, ClientCalls(calls)), base)
  {
    hide Laden, Modest, TameObject, TameScript, ApplyAll;
    if w.client.current.Some? { TameApplied(w.client.current.value, w.client.mtuTx, calls); }
    SoundSame(w.client, Play(w, ClientCalls(calls)).client);
  }

  lemma WithinStep(w: World, base: World, a: Act)
    requires Within(w, base) && NeutralAct(a)
    ensures var w' := Play(w, a); Over(w') || Within(w', base)
  {
    hide Tame, Laden, Oversized, LinkErrorIn, Request, BuildRequest, CancelNicely, Indicate;
    match a
    case ServerReads => WithinReads(w, base);
    case ClientReads => WithinReads(w, base);
    case ServerTurn => WithinServerTurn(w, base);
    case ClientTurn => WithinClientTurn(w, base);
    case Start(cmd, calls) =>
      TameRequest(w.client, cmd, calls, base.client);
      var w' := Play(w, a);
      if !Over(w') { LadenSent(w.up, w.client, w'.client, base.client); }
    case ClientCalls(calls) => WithinCalls(w, base, calls);
    case Cancel =>
      TameCancel(w.client, base.client);
      var w' := Play(w, a);
      if !Over(w') { LadenSent(w.up, w.client, w'.client, base.client); }
  }

  lemma {:induction false} WithinRun(w: World, base: World, acts: seq<Act>)
    requires (Over(w) || Within(w, base)) && NeutralActs(acts)
    ensures var w' := PlayAll(w, acts); Over(w') || Within(w', base)
    decreases |acts|
  {
    hide Play, Within, Over;
    if acts == [] {
    } else {
      var before := PlayAll(w, acts[..|acts| - 1]);
      WithinRun(w, base, acts[..|acts| - 1]);
      if !Over(before) { WithinStep(before, base, acts[|acts| - 1]); }
    }
  }

  /** A packet whose only finished body is its last header. */
  predicate BodyEnds(packet: seq<byte>)
    requires |packet| >= 3
  {
    var hs := HeadersIn(packet).headers;
    forall i :: 0 <= i < |hs| - 1 ==> hs[i].hi != END_OF_BODY
  }

  /** Every packet sent since then fits, unless a body ends early in it. */
  predicate AllFit(p: Party, base: Party, room: nat) {
    forall i :: |base.out| <= i < |p.out| ==> |p.out[i]| >= 3 && (BodyEnds(p.out[i]) ==> |p.out[i]| <= room)
  }

  lemma TameFits(p: Party, base: Party, room: nat)
    requires Tame(p, base) && base.mtuTx <= room
    ensures AllFit(p, base, room)
  {
    hide TameObject, TameScript, SoundBudget, Early;
    forall i | |base.out| <= i < |p.out|
      ensures |p.out[i]| >= 3 && (BodyEnds(p.out[i]) ==> |p.out[i]| <= room)
    {
      assert Modest(p.out[i], base.mtuTx);
      if BodyEnds(p.out[i]) { EarlyNone(HeadersIn(p.out[i]).headers); }
    }
  }

  /** Handles that have agreed, with nothing under way. */
  predicate Ready(w: World) {
    Agree(w) && Silent(w) && Tame(w.client, w.client) && Tame(w.server, w.server)
  }

  /**
   In every run from there without a CONNECT or DISCONNECT, whatever requests are made and
   cancelled and whatever the applications do, every packet that either end has sent and no
   body ends early in fits the receive buffer of the other, and so does the packet that is
   taken from the wire next.
   */
  lemma FitsTheorem(w: World, acts: seq<Act>)
    requires Ready(w) && NeutralActs(acts)
    ensures var w' := PlayAll(w, acts);
            || Over(w')
            || (&& Agree(w') && w'.client.mtuRx == w.client.mtuRx && w'.server.mtuRx == w.server.mtuRx
                && AllFit(w'.client, w.client, w'.server.mtuRx) && AllFit(w'.server, w.server, w'.client.mtuRx)
                && FrontFits(w'.up, w'.server.mtuRx) && FrontFits(w'.down, w'.client.mtuRx))
  {
    hide PlayAll, Over, Tame, Laden, AllFit, FrontFits;
    LadenNothing(w.client.mtuTx);
    LadenNothing(w.server.mtuTx);
    WithinRun(w, w, acts);
    var w' := PlayAll(w, acts);
    if !Over(w') {
      SizesKept(w'.client, w.client);
      SizesKept(w'.server, w.server);
      TameFits(w'.client, w.client, w.server.mtuRx);
      TameFits(w'.server, w.server, w.client.mtuRx);
      LadenFits(w'.up, w.client.mtuTx, w.server.mtuRx);
      LadenFits(w'.down, w.server.mtuTx, w.client.mtuRx);
    }
  }

  lemma SizesKept(p: Party, base: Party)
    requires Tame(p, base)
    ensures p.mtuTx == base.mtuTx && p.mtuRx == base.mtuRx
  {
    hide Modest, TameObject, TameScript, SoundBudget;
  }

  /** The packet at the front of the wire. */
  predicate FrontFits(s: seq<byte>, room: nat) {
    !Incomplete(s) ==> (BodyEnds(s[..PacketSize(s)]) ==> PacketSize(s) <= room)
  }

  lemma LadenFits(s: seq<byte>, size: nat, room: nat)
    requires Laden(s, size) && size <= room
    ensures FrontFits(s, room)
  {
    hide Laden, Early;
    LadenFirst(s, size);
    if !Incomplete(s) && BodyEnds(s[..PacketSize(s)]) { EarlyNone(HeadersIn(s[..PacketSize(s)]).headers); }
  }

  // ---- What connecting leaves alone ----

  /** The link is the same, and the application still as tame as it was. */
  predicate Kin(p: Party, p': Party) {
    p'.irda == p.irda && p'.linkMtu == p.linkMtu && (TameScript(p.script) ==> TameScript(p'.script))
  }

  lemma KinTwice(p: Party, p1: Party, p2: Party)
    requires Kin(p, p1) && Kin(p1, p2)
    ensures Kin(p, p2)
  {
    hide TameScript;
  }

  /** Nothing of it has been touched. */
  lemma KinSame(p: Party, p': Party)
    requires p'.irda == p.irda && p'.linkMtu == p.linkMtu && p'.script == p.script
    ensures Kin(p, p')
  {
  }

  lemma KinDelivered(p: Party, kind: EventKind, cmd: nat, rsp: nat, delete: bool)
    ensures Kin(p, Deliver(p, kind, cmd, rsp, delete))
  {
    hide ApplyAll, EventOf;
  }

  lemma KinAccepted(p: Party, h: Header)
    requires p.current.Some?
    ensures AcceptHeader(p, h).current.Some? && Kin(p, AcceptHeader(p, h))
  {
    hide Deliver, Kin;
    AcceptReceives(p, h);
    var o := p.current.value;
    var p0 := Update(p, o.(stream := o.stream.(data := h.value)));
    KinSame(p, p0);
    KinSame(p, p);
    KinSame(p, Update(p, o.(rx := Store(o.rx, h))));
    KinDelivered(p0, EvStreamAvail, 0, 0, false);
    DeliverKeeps(p0, EvStreamAvail, 0, 0);
    var p1 := StreamChunk(p, h.value);
    KinTwice(p, p0, p1);
    var p2 := Update(p1, p1.current.value.(stream := p1.current.value.stream.(data := [])));
    KinSame(p1, p2);
    KinDelivered(p2, EvStreamAvail, 0, 0, false);
    KinTwice(p, p1, p2);
    KinTwice(p, p2, StreamChunk(p1, []));
  }

  lemma {:induction false} KinAcceptedAll(p: Party, hs: seq<Header>)
    requires p.current.Some?
    ensures Kin(p, AcceptAll(p, hs))
    decreases |hs|
  {
    hide AcceptHeader, Kin;
    if hs == [] {
      KinSame(p, p);
    } else {
      KinAccepted(p, hs[0]);
      KinAcceptedAll(AcceptHeader(p, hs[0]), hs[1..]);
      KinTwice(p, AcceptHeader(p, hs[0]), AcceptAll(p, hs));
    }
  }

  lemma KinReceived(p: Party, packet: seq<byte>)
    requires p.current.Some?
    ensures Receive(p, packet).0.current.Some? && Kin(p, Receive(p, packet).0)
  {
    hide AcceptAll, ParseHeaders, Kin, Stale;
    ReceiveReceives(p, packet);
    var o, d := p.current.value, packet[Min(3, |packet|)..];
    if |d| < o.headerOffset {
      KinSame(p, TakeStale(p, packet).0);
    } else {
      var p1 := TakeNonHeader(p, d);
      KinSame(p, p1);
      KinAcceptedAll(p1, ParseHeaders(d[o.headerOffset..], o.rx.streaming).headers);
      KinTwice(p, p1, Receive(p, packet).0);
    }
  }

  lemma KinSent(p: Party, allowFinal: bool, forceFinal: bool)
    requires p.current.Some?
    ensures var p' := SendObject(p, allowFinal, forceFinal).0; p'.current.Some? && Kin(p, p')
  {
    hide SendObject, Kin;
    SendKeeps(p, allowFinal, forceFinal);
    KinSame(p, SendObject(p, allowFinal, forceFinal).0);
  }

  lemma KinReply(p: Party, cmd: byte)
    requires p.current.Some? && cmd != DISCONNECT
    ensures Kin(p, ServerReply(p, cmd))
  {
    hide SendObject, Deliver, Kin;
    var p0 := Update(p, p.current.value.(continueReceived := true));
    KinSame(p, p0);
    KinSent(p0, true, true);
    var p1 := SendObject(p0, true, true).0;
    KinTwice(p, p0, p1);
    KinSame(p1, ServerIdle(p1));
    KinTwice(p, p1, ServerIdle(p1));
    KinDelivered(ServerIdle(p1), EvReqDone, cmd, 0, true);
    KinTwice(p, ServerIdle(p1), Deliver(ServerIdle(p1), EvReqDone, cmd, 0, true));
    KinDelivered(p1, EvLinkErr, cmd, 0, true);
    KinTwice(p, p1, Deliver(p1, EvLinkErr, cmd, 0, true));
    KinDelivered(p1, EvProgress, cmd, 0, false);
    DeliverKeeps(p1, EvProgress, cmd, 0);
    var p2 := Deliver(p1, EvProgress, cmd, 0, false);
    KinTwice(p, p1, p2);
    var p3 := Update(p2, p2.current.value.(firstSent := true, continueReceived := false));
    KinSame(p2, p3);
    KinTwice(p, p2, p3);
  }

  /** A whole CONNECT, taken by a server at rest. */
  lemma KinConnected(p: Party, packet: seq<byte>)
    requires AtRest(p) && |packet| >= 7 && packet[0] == SetFinal(CONNECT)
    ensures Kin(p, ServerStep(p, packet))
  {
    hide Deliver, Receive, ServerReply, Kin;
    var p0 := p.(current := Some(NewObject(p.nextId).(cmd := CONNECT)), nextId := p.nextId + 1);
    KinSame(p, p0);
    KinDelivered(p0, EvReqHint, CONNECT, 0, false);
    DeliverKeeps(p0, EvReqHint, CONNECT, 0);
    var p1 := Deliver(p0, EvReqHint, CONNECT, 0, false);
    KinTwice(p, p0, p1);
    var p2 := Opened(ParseConnect(p1, packet).value, 4);
    KinSame(p1, p2);
    KinTwice(p, p1, p2);
    KinReceived(p2, packet);
    ReceiveReceives(p2, packet);
    var p3 := Receive(p2, packet).0;
    KinTwice(p, p2, p3);
    KinAnswered(p3, packet);
    KinSame(p3, p3.(fault := true));
    KinTwice(p, p3, p3.(fault := true));
    KinTwice(p, p3, Finish(p3, BAD_REQUEST, EvParseErr, 0));
    KinTwice(p, p3, ServerRequest(p3, packet, CONNECT, false));
    assert ServerStep(p, packet) == ServerReceive(p2, packet);
  }

  lemma KinAnswered(p: Party, packet: seq<byte>)
    requires p.current.Some? && !p.current.value.firstSent && |packet| >= 3
    ensures Kin(p, Finish(p, BAD_REQUEST, EvParseErr, 0)) && Kin(p, ServerRequest(p, packet, CONNECT, false))
  {
    hide Deliver, ServerReply, Kin;
    var p1 := ServerIdle(Respond(p, BAD_REQUEST));
    KinSame(p, p1);
    KinDelivered(p1, EvParseErr, p.current.value.opcode, 0, true);
    KinTwice(p, p1, Finish(p, BAD_REQUEST, EvParseErr, 0));
    var p2 := Update(p, p.current.value.(nonHeader := Some(ConnectFrame(p.mtuRx))));
    KinSame(p, p2);
    KinDelivered(p2, EvReq, CONNECT, 0, false);
    DeliverKeeps(p2, EvReq, CONNECT, 0);
    var p3 := Deliver(p2, EvReq, CONNECT, 0, false);
    KinTwice(p, p2, p3);
    var p4 := p3.(state := Responding, serverMode := true);
    KinSame(p3, p4);
    KinTwice(p, p3, p4);
    KinReply(p4, CONNECT);
    KinTwice(p, p4, ServerReply(p4, CONNECT));
    assert ServerRequest(p, packet, CONNECT, false) == ServerReply(p4, CONNECT);
  }

  lemma KinStarted(p: Party, rsp: byte)
    requires p.current.Some?
    ensures Kin(p, ClientStart(p, rsp))
  {
    hide SendObject, Deliver, Kin;
    KinSent(p, true, false);
    SendKeeps(p, true, false);
    var p1 := SendObject(p, true, false).0;
    var p2 := p1.(state := Idle, serverMode := false);
    KinSame(p1, p2);
    KinTwice(p, p1, p2);
    KinDelivered(p2, EvLinkErr, p2.current.value.opcode, 0, true);
    KinTwice(p, p2, DeliverOwn(p2, EvLinkErr, 0, true));
    var p3 := Update(p1, p1.current.value.(firstSent := true));
    KinSame(p1, p3);
    KinTwice(p, p1, p3);
    KinDelivered(p3, EvProgress, p3.current.value.opcode, 0, false);
    var p4 := DeliverOwn(p3, EvProgress, 0, false);
    KinTwice(p, p3, p4);
    var p5 := p4.(state := Receiving, serverMode := false);
    KinSame(p4, p5);
    KinTwice(p, p4, p5);
  }

  /** A response other than CONTINUE ends the client's request. */
  lemma KinEnded(p: Party, packet: seq<byte>)
    requires Waiting(p) && |packet| >= 7 && p.current.value.opcode == CONNECT && ClearFinal(packet[0]) == SUCCESS
    ensures var p' := ClientStep(p, Some(packet)); Kin(p, p') && (p'.fault || p'.current.None?)
  {
    hide Deliver, Receive, Kin;
    var p1 := ParseConnect(p, packet).value;
    var p2 := Update(p1, p1.current.value.(headerOffset := 4));
    KinSame(p, p2);
    KinReceived(p2, packet);
    ReceiveReceives(p2, packet);
    var p3 := Receive(p2, packet).0;
    KinTwice(p, p2, p3);
    KinSame(p3, p3.(fault := true));
    KinTwice(p, p3, p3.(fault := true));
    KinSame(p3, ServerIdle(p3));
    KinTwice(p, p3, ServerIdle(p3));
    var op := p3.current.value.opcode;
    KinDelivered(ServerIdle(p3), EvParseErr, op, 0, true);
    DeliverOut(ServerIdle(p3), EvParseErr, op, 0, true);
    KinTwice(p, ServerIdle(p3), Deliver(ServerIdle(p3), EvParseErr, op, 0, true));
    KinDelivered(ServerIdle(p3), EvReqDone, op, SUCCESS, true);
    DeliverOut(ServerIdle(p3), EvReqDone, op, SUCCESS, true);
    KinTwice(p, ServerIdle(p3), Deliver(ServerIdle(p3), EvReqDone, op, SUCCESS, true));
  }

  // ---- From a CONNECT on ----

  /** The world while the answer to a CONNECT is on its way. */
  function Answering(w: World, calls: seq<ApiCall>): World {
    Play(Play(w, Start(CONNECT, calls)), ServerTurn)
  }

  /** The answer is all the server has to say, and the client's buffer can hold it. */
  predicate AnsweredAtOnce(w: World, calls: seq<ApiCall>) {
    AtRest(Answering(w, calls).server) && Holding(Answering(w, calls).client, Answering(w, calls).down)
  }

  /** Applications that neither connect, disconnect, nor put data before the headers, and sizes
      to agree on in which a packet has room. */
  predicate Conforming(w: World) {
    && TameScript(w.client.script) && TameScript(w.server.script)
    && SoundBudget(w.client.(mtuTx := Agreed(w.server.mtuRx, w.client.mtuTxMax)))
    && SoundBudget(w.server.(mtuTx := Agreed(w.client.mtuRx, w.server.mtuTxMax)))
  }

  /** A handle at rest that is kin to a tame one. */
  lemma KinTame(p: Party, p': Party)
    requires Kin(p, p') && TameScript(p.script) && AtRest(p') && SoundBudget(p.(mtuTx := p'.mtuTx))
    ensures Tame(p', p')
  {
    hide TameScript;
    SoundSame(p.(mtuTx := p'.mtuTx), p');
  }

  lemma ConnectKin(w: World, calls: seq<ApiCall>)
    requires Started(w) && ConnectRequest(BuildRequest(w.client, CONNECT, calls)) && Connected(w, calls)
    requires AnsweredAtOnce(w, calls)
    ensures var w2 := Answering(w, calls);
            var w3 := Play(w2, ClientTurn);
            && Kin(w.client, w3.client) && Kin(w.server, w3.server) && w3.server == w2.server
            && (w3.client.fault || w3.client.current.None?)
  {
    hide Request, BuildRequest, ServerStep, ClientStep, Carries, LinkErrorIn, Oversized, WholePacket, Kin;
    ConnectSent(w, calls);
    var w1 := Play(w, Start(CONNECT, calls));
    var packet := w1.client.out[0];
    CarryingLength(packet, w.client.mtuRx);
    RequestKin(w.client, calls);
    KinConnected(w.server, packet);
    ServerTells(w.server, packet, w.client.mtuRx);
    TurnTreats(w1, packet);
    var w2 := Answering(w, calls);
    var answer := w2.server.out[0];
    LastWhole(w.server, w2.server);
    assert [] + answer == answer;
    CarryingLength(answer, w.server.mtuRx);
    TurnTreats(w2, answer);
    KinEnded(w1.client, answer);
    KinTwice(w.client, w1.client, Play(w2, ClientTurn).client);
  }

  lemma CarryingLength(packet: seq<byte>, mtuRx: u16)
    requires Carries(packet, mtuRx)
    ensures |packet| >= 7
  {
  }

  lemma RequestKin(p: Party, calls: seq<ApiCall>)
    requires AtRest(p) && !p.fault
    ensures Kin(p, Request(p, BuildRequest(p, CONNECT, calls)))
  {
    hide ClientStart, BuildRequest, Kin;
    var o := BuildRequest(p, CONNECT, calls).(id := p.nextId);
    var p1 := p.(current := Some(o), nextId := p.nextId + 1, state := Starting, serverMode := false);
    KinSame(p, p1);
    KinStarted(p1, BAD_REQUEST);
    KinTwice(p, p1, ClientStart(p1, BAD_REQUEST));
  }

  /** After these turns nothing is under way. */
  lemma ConnectSilent(w: World, calls: seq<ApiCall>)
    requires Started(w) && Connected(w, calls)
    ensures var w3 := Play(Answering(w, calls), ClientTurn);
            Over(w3) || w3.client.current.Some? || (Silent(w3) && AtRest(w3.client))
  {
    hide Play, Over, Started, OnlyPacket;
    var acts := [Start(CONNECT, calls), ServerTurn, ClientTurn];
    var w1, w2 := Play(w, Start(CONNECT, calls)), Answering(w, calls);
    StartedRuns(w);
    LockstepTheorem(w, acts);
    assert acts[..2] == [Start(CONNECT, calls), ServerTurn] && acts[..2][..1] == [Start(CONNECT, calls)];
    assert PlayAll(w, acts[..2][..1]) == w1 by { assert [Start(CONNECT, calls)][..0] == []; }
    assert PlayAll(w, acts[..2]) == w2;
    assert PlayAll(w, acts) == Play(w2, ClientTurn);
  }

  lemma StartedRuns(w: World)
    requires Started(w)
    ensures !Over(w)
  {
  }

  /** From a CONNECT in one packet, answered with success in one packet, to the next CONNECT or
      DISCONNECT. */
  lemma ConnectedFits(w: World, calls: seq<ApiCall>, acts: seq<Act>)
    requires Started(w) && ConnectRequest(BuildRequest(w.client, CONNECT, calls)) && Connected(w, calls)
    requires AnsweredAtOnce(w, calls) && Conforming(w) && NeutralActs(acts)
    ensures var w3 := Play(Answering(w, calls), ClientTurn);
            var w' := PlayAll(w3, acts);
            || Over(w3) || Over(w')
            || (&& Ready(w3)
                && AllFit(w'.client, w3.client, w.server.mtuRx) && AllFit(w'.server, w3.server, w.client.mtuRx)
                && FrontFits(w'.up, w.server.mtuRx) && FrontFits(w'.down, w.client.mtuRx))
  {
    hide Play, PlayAll, Over, Tame, AllFit, FrontFits, Connected, Started, ConnectRequest, BuildRequest, Kin,
         TameScript, SoundBudget;
    var w3 := Play(Answering(w, calls), ClientTurn);
    AgreementTheorem(w, calls);
    if !Over(w3) {
      ConnectKin(w, calls);
      ConnectSilent(w, calls);
      FaultOver(w3);
      KinTame(w.client, w3.client);
      KinTame(w.server, w3.server);
      FitsTheorem(w3, acts);
    }
  }
}
