/** The two ends agree on packet sizes when they connect (section 3.3.1 of IrOBEX). */
module Connect {
  import opened Octets
  import opened Headers
  import opened Fragmenter
  import opened Framing
  import opened Session
  import opened SessionFacts
  import opened Lifetime
  import opened Lockstep

  /** The packet size used towards a peer that takes packets of the given size. */
  function Agreed(peerRx: u16, ownMax: u16): u16 {
    Min(peerRx, ownMax)
  }

  /** A CONNECT or its answer, carrying before any headers the version 1.0 of the protocol, no
      flags, and the sender's receive size, most significant octet first. */
  predicate Carries(packet: seq<byte>, mtuRx: u16) {
    |packet| >= 7 && packet[3] == 0x10 && packet[4] == 0 && (packet[5] as int) * 0x100 + packet[6] == mtuRx
  }

  predicate HasOpcode(packet: seq<byte>, op: byte) {
    |packet| >= 3 && packet[0] == op
  }

  lemma CarriedSize(packet: seq<byte>, mtuRx: u16)
    requires Carries(packet, mtuRx)
    ensures Read16(packet, 5) == mtuRx
  {
  }

  lemma FrameCarries(op: byte, mtuRx: u16, rest: seq<byte>)
    ensures Carries(Frame(op, ConnectFrame(mtuRx) + rest), mtuRx)
  {
    var packet := Frame(op, ConnectFrame(mtuRx) + rest);
    assert packet[3..] == ConnectFrame(mtuRx) + rest;
    assert forall i :: 0 <= i < 4 ==> packet[3 + i] == ConnectFrame(mtuRx)[i];
  }

  lemma {:induction false} ApplyAllNonHeader(o: Object, mtuTx: u16, calls: seq<ApiCall>)
    requires o.nonHeader.Some?
    ensures ApplyAll(o, mtuTx, calls).nonHeader == o.nonHeader
    decreases |calls|
  {
    if calls == [] {
    } else {
      ApplyAllNonHeader(Apply(o, mtuTx, calls[0]), mtuTx, calls[1..]);
    }
  }

  // ---- The server ----

  /** Whatever its application does, a server that takes a CONNECT learns its sender's size. */
  lemma ServerLearns(p: Party, packet: seq<byte>, mtuRx: u16)
    requires AtRest(p) && p.linkFaults == [] && Carries(packet, mtuRx) && packet[0] == SetFinal(CONNECT)
    ensures ServerStep(p, packet).mtuTx == Agreed(mtuRx, p.mtuTxMax) && ServerStep(p, packet).mtuRx == p.mtuRx
  {
    hide Deliver, ServerReceive, Frame;
    CarriedSize(packet, mtuRx);
    var p0 := p.(current := Some(NewObject(p.nextId).(cmd := CONNECT)), nextId := p.nextId + 1);
    DeliverOut(p0, EvReqHint, CONNECT, 0, false);
    DeliverKeeps(p0, EvReqHint, CONNECT, 0);
    var p1 := Deliver(p0, EvReqHint, CONNECT, 0, false);
    var p2 := ParseConnect(p1, packet).value;
    assert ServerStep(p, packet) == ServerReceive(Opened(p2, 4), packet);
    ServerReceiveAnswers(Opened(p2, 4), packet);
  }

  lemma ReplyCarries(p: Party, mtuRx: u16)
    requires p.current.Some? && p.linkFaults == [] && p.current.value.nonHeader == Some(ConnectFrame(mtuRx))
    ensures var p' := ServerReply(p, CONNECT);
            |p'.out| > |p.out| ==> Carries(p'.out[|p.out|], mtuRx)
  {
    hide SendObject, Deliver, Packed;
    var p0 := Update(p, p.current.value.(continueReceived := true));
    SendKeeps(p0, true, true);
    SendOut(p0, true, true);
    var p1 := SendObject(p0, true, true).0;
    DeliverOut(p1, EvProgress, CONNECT, 0, false);
    DeliverKeeps(p1, EvProgress, CONNECT, 0);
    DeliverOut(p1, EvLinkErr, CONNECT, 0, true);
    DeliverOut(ServerIdle(p1), EvReqDone, CONNECT, 0, true);
    FrameCarries(PacketOpcode(p0.current.value, Packed(p0).queue, true, true), mtuRx, EncodeAll(Packed(p0).frags));
  }

  lemma ConnectReply(p: Party, packet: seq<byte>)
    requires p.current.Some? && p.linkFaults == [] && !p.current.value.firstSent && p.current.value.cmd == CONNECT
    requires |packet| >= 3 && packet[0] == SetFinal(CONNECT)
    ensures var p' := ServerReceive(p, packet);
            |p'.out| > |p.out| && HasOpcode(p'.out[|p.out|], SetFinal(SUCCESS)) ==> Carries(p'.out[|p.out|], p.mtuRx)
  {
    hide Receive, Deliver, ServerReply;
    ReceiveReceives(p, packet);
    var p1 := Receive(p, packet).0;
    match Receive(p, packet).1
    case Beyond =>
    case Broken =>
      DeliverOut(ServerIdle(Respond(p1, BAD_REQUEST)), EvParseErr, p1.current.value.opcode, 0, true);
      assert Respond(p1, BAD_REQUEST).out[|p.out|] == Frame(SetFinal(BAD_REQUEST), []);
    case Clean =>
      var p2 := Update(p1, p1.current.value.(nonHeader := Some(ConnectFrame(p1.mtuRx))));
      DeliverOut(p2, EvReq, CONNECT, 0, false);
      DeliveredObject(p2, EvReq, CONNECT);
      var p3 := Deliver(p2, EvReq, CONNECT, 0, false).(state := Responding, serverMode := true);
      ReplyCarries(p3, p.mtuRx);
  }

  lemma DeliveredObject(p: Party, kind: EventKind, cmd: nat)
    requires p.current.Some? && p.current.value.nonHeader.Some?
    ensures var p' := Deliver(p, kind, cmd, 0, false);
            p'.current.Some? && p'.current.value.nonHeader == p.current.value.nonHeader
  {
    hide ApplyAll;
    ApplyAllNonHeader(p.current.value, p.mtuTx, if p.script == [] then [] else p.script[0]);
  }

  /** A server's successful answer to a CONNECT carries its own size. */
  lemma ServerTells(p: Party, packet: seq<byte>, mtuRx: u16)
    requires AtRest(p) && p.linkFaults == [] && Carries(packet, mtuRx) && packet[0] == SetFinal(CONNECT)
    ensures var p' := ServerStep(p, packet);
            |p'.out| > |p.out| && HasOpcode(p'.out[|p.out|], SetFinal(SUCCESS)) ==> Carries(p'.out[|p.out|], p.mtuRx)
  {
    hide Deliver, ServerReceive, Frame;
    var p0 := p.(current := Some(NewObject(p.nextId).(cmd := CONNECT)), nextId := p.nextId + 1);
    DeliverOut(p0, EvReqHint, CONNECT, 0, false);
    DeliverKeeps(p0, EvReqHint, CONNECT, 0);
    var p1 := Deliver(p0, EvReqHint, CONNECT, 0, false);
    var p2 := ParseConnect(p1, packet).value;
    assert ServerStep(p, packet) == ServerReceive(Opened(p2, 4), packet);
    ConnectReply(Opened(p2, 4), packet);
  }

  // ---- The client ----

  /** A client that gets a successful answer to its CONNECT learns the server's size. */
  lemma ClientLearns(p: Party, packet: seq<byte>, mtuRx: u16)
    requires Waiting(p) && p.linkFaults == [] && p.current.value.opcode == CONNECT
    requires Carries(packet, mtuRx) && packet[0] == SetFinal(SUCCESS)
    ensures ClientStep(p, Some(packet)).mtuTx == Agreed(mtuRx, p.mtuTxMax) &&
             ClientStep(p, Some(packet)).mtuRx == p.mtuRx
  {
    hide ClientHeaders;
    CarriedSize(packet, mtuRx);
    var p1 := ParseConnect(p, packet).value;
    ClientHeadersProceeds(Update(p1, p1.current.value.(headerOffset := 4)), packet, SUCCESS);
  }

  /** A response other than success is not read for a size, whatever it carries. */
  lemma RefusalTeachesNothing(p: Party, packet: seq<byte>)
    requires Waiting(p) && p.linkFaults == [] && p.current.value.opcode == CONNECT
    requires |packet| >= 3 && packet[0] != 0xa0 && packet[0] != 0x80
    ensures ClientStep(p, Some(packet)).mtuTx == p.mtuTx
  {
    hide ClientHeaders;
    ClientHeadersProceeds(Update(p, p.current.value.(headerOffset := 4)), packet, ClearFinal(packet[0]));
  }

  /** A CONNECT request as the application makes it, its opcode left alone. */
  predicate ConnectRequest(o: Object) {
    o.opcode == CONNECT && o.lastOpcode == SetFinal(CONNECT)
  }

  /** The CONNECT goes out carrying the client's size. If the application touches nothing
      during the event that follows, the client still waits for a CONNECT's answer. */
  lemma ClientTells(p: Party, o: Object)
    requires p.linkFaults == [] && !o.abort && ConnectRequest(o) && o.nonHeader == Some(ConnectFrame(p.mtuRx))
    ensures var p' := ClientStart(p.(current := Some(o)), BAD_REQUEST);
            !p'.fault && |p'.out| > |p.out| ==>
              && Carries(p'.out[|p.out|], p.mtuRx) && p'.mtuTxMax == p.mtuTxMax && p'.mtuRx == p.mtuRx
  {
    hide SendObject, Deliver, Packed;
    var p0 := p.(current := Some(o));
    SendKeeps(p0, true, false);
    SendOut(p0, true, false);
    var p1 := SendObject(p0, true, false).0;
    DeliverOut(p1.(state := Idle, serverMode := false), EvLinkErr, p1.current.value.opcode, 0, true);
    var p2 := Update(p1, p1.current.value.(firstSent := true));
    DeliverOut(p2, EvProgress, p2.current.value.opcode, 0, false);
    DeliverKeeps(p2, EvProgress, p2.current.value.opcode, 0);
    FrameCarries(PacketOpcode(o, Packed(p0).queue, true, false), p.mtuRx, EncodeAll(Packed(p0).frags));
  }

  // ---- Agreement ----

  lemma ConnectObject(p: Party, calls: seq<ApiCall>)
    ensures BuildRequest(p, CONNECT, calls).nonHeader == Some(ConnectFrame(p.mtuRx))
  {
    hide ApplyAll;
    ApplyAllNonHeader(NewRequest(CONNECT, p.mtuRx), p.mtuTx, calls);
  }

  /** The only packet so far has this opcode. */
  predicate OnlyPacket(out: seq<seq<byte>>, op: byte) {
    |out| == 1 && HasOpcode(out[0], op)
  }

  lemma ConnectSent(w: World, calls: seq<ApiCall>)
    requires Started(w) && ConnectRequest(BuildRequest(w.client, CONNECT, calls))
    ensures var w1 := Play(w, Start(CONNECT, calls));
            && w1.server == w.server && w1.down == [] && w1.client.linkFaults == [] && w1.client.mtuRx == w.client.mtuRx
            && (!Over(w1) && OnlyPacket(w1.client.out, SetFinal(CONNECT)) ==>
                  && Carries(w1.client.out[0], w.client.mtuRx) && w1.client.mtuTxMax == w.client.mtuTxMax
                  && WholePacket(w1.client.out[0]) && w1.up == w1.client.out[0])
  {
    hide ClientStart, BuildRequest, LinkErrorIn, Oversized, WholePacket, Carries;
    var o := BuildRequest(w.client, CONNECT, calls);
    ConnectObject(w.client, calls);
    RequestNotAborted(w.client, CONNECT, calls);
    var p := w.client.(nextId := w.client.nextId + 1, state := Starting, serverMode := false);
    var o' := o.(id := w.client.nextId);
    ClientTells(p, o');
    ClientStartProceeds(p.(current := Some(o')), BAD_REQUEST);
    var w1 := Play(w, Start(CONNECT, calls));
    assert w1.client == ClientStart(p.(current := Some(o')), BAD_REQUEST);
    if !Over(w1) && OnlyPacket(w1.client.out, SetFinal(CONNECT)) {
      LastWhole(w.client, w1.client);
      assert [] + w1.client.out[0] == w1.client.out[0];
    }
  }

  /** Each sends in packets the other has room for. */
  predicate Agree(w: World) {
    w.client.mtuTx <= w.server.mtuRx && w.server.mtuTx <= w.client.mtuRx
  }

  /** A CONNECT is sent as one packet and answered with success. */
  predicate Connected(w: World, calls: seq<ApiCall>) {
    var w1 := Play(w, Start(CONNECT, calls));
    var w2 := Play(w1, ServerTurn);
    && OnlyPacket(w1.client.out, SetFinal(CONNECT)) && !Over(w1)
    && Waiting(w1.client) && w1.client.current.value.opcode == CONNECT
    && OnlyPacket(w2.server.out, SetFinal(SUCCESS)) && !Over(w2)
  }

  /**
   Agreement: a CONNECT sent as one packet and answered with success leaves each end with
   the smaller of the other's receive size and its own limit, whatever headers travel
   along and whatever the applications do, if the client's buffer can hold the answer.
   */
  lemma AgreementTheorem(w: World, calls: seq<ApiCall>)
    requires Started(w) && ConnectRequest(BuildRequest(w.client, CONNECT, calls)) && Connected(w, calls)
    ensures var w1 := Play(w, Start(CONNECT, calls));
            var w2 := Play(w1, ServerTurn);
            var w3 := Play(w2, ClientTurn);
            Holding(w2.client, w2.down) ==>
            && w3.server.mtuTx == Agreed(w.client.mtuRx, w.server.mtuTxMax)
            && w3.client.mtuTx == Agreed(w.server.mtuRx, w.client.mtuTxMax)
            && w3.client.mtuRx == w.client.mtuRx && w3.server.mtuRx == w.server.mtuRx && Agree(w3)
  {
    hide Request, BuildRequest, ServerStep, ClientStep, Carries, LinkErrorIn, Oversized, WholePacket;
    ConnectSent(w, calls);
    var w1 := Play(w, Start(CONNECT, calls));
    var packet := w1.client.out[0];
    ServerLearns(w.server, packet, w.client.mtuRx);
    ServerTells(w.server, packet, w.client.mtuRx);
    TurnTreats(w1, packet);
    var w2 := Play(w1, ServerTurn);
    assert w2.server == ServerStep(w.server, packet);
    var answer := w2.server.out[0];
    LastWhole(w.server, w2.server);
    assert [] + answer == answer;
    TurnTreats(w2, answer);
    ClientLearns(w1.client, answer, w.server.mtuRx);
  }

  /** A CONNECT cut over several packets is not read for its size: the first of them lacks
      the final bit, and the server goes on with the size it had. */
  lemma UnfinishedConnectIgnored(p: Party, packet: seq<byte>)
    requires AtRest(p) && p.linkFaults == [] && HasOpcode(packet, CONNECT)
    ensures ServerStep(p, packet).mtuTx == p.mtuTx
  {
    hide Deliver, ServerReceive;
    var p0 := p.(current := Some(NewObject(p.nextId).(cmd := CONNECT)), nextId := p.nextId + 1);
    DeliverOut(p0, EvReqHint, CONNECT, 0, false);
    DeliverKeeps(p0, EvReqHint, CONNECT, 0);
    var p1 := Deliver(p0, EvReqHint, CONNECT, 0, false);
    assert ServerStep(p, packet) == ServerReceive(Opened(p1, 4), packet);
    ServerReceiveAnswers(Opened(p1, 4), packet);
  }

  // ---- Packets after that ----

  /** A packet is its header, the data the application has put in front, and the headers; that
      data goes out once. */
  lemma PacketLayout(p: Party, allowFinal: bool, forceFinal: bool)
    requires p.current.Some?
    ensures var o := p.current.value;
            var d := PacketOf(p, allowFinal, forceFinal);
            && d[3..] == (if o.nonHeader.Some? then o.nonHeader.value else []) + EncodeAll(Packed(p).frags)
            && (d[1] as int) * 0x100 + d[2] == |d| % 0x1_0000
            && SendObject(p, allowFinal, forceFinal).0.current.Some?
            && SendObject(p, allowFinal, forceFinal).0.current.value.nonHeader.None?
  {
    hide Packed, EncodeAll;
    FrameOctets(PacketOpcode(p.current.value, Packed(p).queue, allowFinal, forceFinal), PacketPayload(p));
  }

  /** The budget leaves room for the packet header, and rounding has not wrapped around. */
  predicate SoundBudget(p: Party) {
    TxBudget(p) + 3 <= p.mtuTx
  }

  /** Wrap-around needs a packet size below three, or link frames that small. */
  lemma BudgetSound(p: Party)
    ensures SoundBudget(p) <==>
            p.mtuTx >= 3 + (if p.irda && p.linkMtu > 0 && p.mtuTx > p.linkMtu then p.mtuTx % p.linkMtu else 0)
  {
  }

  /** A packet without data before its headers and with its body last is no larger than
      agreed, and is a whole packet on the wire. */
  lemma PacketFits(p: Party, allowFinal: bool, forceFinal: bool)
    requires p.current.Some? && SoundBudget(p)
    requires p.current.value.nonHeader.None? && BodyLast(p.current.value.txQueue)
    ensures var packet := PacketOf(p, allowFinal, forceFinal);
            |packet| <= p.mtuTx && WholePacket(packet)
  {
    hide Pack;
    var o := p.current.value;
    PackWithinBudget(o.txQueue, TxBudget(p), TxLimits(p), o.stream, p.feed);
    assert [] + EncodeAll(Packed(p).frags) == EncodeAll(Packed(p).frags);
    FrameIsWhole(PacketOpcode(o, Packed(p).queue, allowFinal, forceFinal), PacketPayload(p));
  }

  /** In general the excess is the data before the headers and three octets for every body
      that was finished with something behind it. */
  lemma PacketExcess(p: Party, allowFinal: bool, forceFinal: bool)
    requires p.current.Some? && SoundBudget(p)
    ensures var o := p.current.value;
            |PacketOf(p, allowFinal, forceFinal)| <=
            p.mtuTx + (if o.nonHeader.Some? then |o.nonHeader.value| else 0)
            + 3 * Overdrawn(o.txQueue, TxBudget(p), TxLimits(p), o.stream, p.feed)
  {
    hide Pack, Overdrawn;
    var o := p.current.value;
    PackBound(o.txQueue, TxBudget(p), TxLimits(p), o.stream, p.feed);
  }

  /** A packet filled up on IrDA is a whole number of link frames: nothing before the
      headers, no body finished in it. */
  lemma IrdaAlignment(p: Party, allowFinal: bool, forceFinal: bool)
    requires p.current.Some? && SoundBudget(p) && p.irda && 0 < p.linkMtu < p.mtuTx
    requires p.current.value.nonHeader.None? && Packed(p).left == 0
    requires Bodies(Packed(p).queue) == Bodies(p.current.value.txQueue)
    ensures |PacketOf(p, allowFinal, forceFinal)| == p.mtuTx - p.mtuTx % p.linkMtu
    ensures |PacketOf(p, allowFinal, forceFinal)| % p.linkMtu == 0
  {
    hide Pack, Bodies;
    var o := p.current.value;
    PackExact(o.txQueue, TxBudget(p), TxLimits(p), o.stream, p.feed);
    assert [] + EncodeAll(Packed(p).frags) == EncodeAll(Packed(p).frags);
    MultipleOf(p.mtuTx, p.linkMtu);
  }

  lemma MultipleOf(n: nat, m: nat)
    requires m > 0
    ensures (n - n % m) % m == 0
  {
    var q := n / m;
    assert n - n % m == q * m;
    ProductRemainder(q, m);
  }

  lemma {:induction false} ProductRemainder(q: nat, m: nat)
    requires m > 0
    ensures (q * m) % m == 0
  {
    if q == 0 {
    } else {
      ProductRemainder(q - 1, m);
      assert q * m == (q - 1) * m + m;
      AddRemainder((q - 1) * m, m);
    }
  }

  lemma Multiples(d: int, m: nat)
    ensures d >= 1 ==> d * m >= m
    ensures d <= -1 ==> d * m <= -(m as int)
  {
  }

  lemma AddRemainder(n: nat, m: nat)
    requires m > 0
    ensures (n + m) % m == n % m
  {
    var q, r := n / m, n % m;
    assert n + m == (q + 1) * m + r;
    assert ((n + m) / m) * m + (n + m) % m == n + m;
    var d := (n + m) / m - (q + 1);
    assert d * m == r - (n + m) % m;
    Multiples(d, m);
  }
}
