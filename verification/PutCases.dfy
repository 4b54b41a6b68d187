/** Inputs on which a PUT goes astray, and the chunks of a streamed body. */
module PutCases {
  import opened Octets
  import opened Headers
  import opened Fragmenter
  import opened Reassembler
  import opened Transfer
  import opened Sizes
  import opened Outcomes
  import opened Streaming
  import opened Framing
  import opened Session
  import opened Events
  import opened Lifetime
  import opened Lockstep
  import opened Put
  import opened PutServer
  import opened PutClient
  import opened PutRun
  import opened PutAdds
  import opened Loads
  import opened PutEnds
  import opened PutExact

  /** A handle with these packet sizes, before anything has happened. */
  function NewHandle(mtu: u16, script: seq<seq<ApiCall>>): Party {
    Party(Idle, true, None, mtu, mtu, mtu, false, 0, mtu, mtu, script, [], [], [], [], [], [], 0, false)
  }

  /** Two of them, whose server accepts. */
  function NewWorld(mtu: u16): World {
    World(NewHandle(mtu, []), NewHandle(mtu, [[SetResponse(CONTINUE, SUCCESS)]]), [], [])
  }

  /** A body that just fills a packet, and what follows it. */
  function SpillCalls(body: seq<byte>, v: byte, more: seq<ApiCall>): seq<ApiCall> {
    [AddHeader(BODY, HeaderData(0, 0, body), false, false), AddHeader(0x81, HeaderData(0, v, []), false, false)] + more
  }

  function SpillQueue(body: seq<byte>, v: byte, more: seq<TxElement>): seq<TxElement> {
    [TxBody(Encode(Header(BODY, body)), false), TxHeader(Header(0x81, [v]))] + more
  }

  lemma SpillRequest(mtu: u16, body: seq<byte>, v: byte, more: seq<ApiCall>)
    requires |body| == mtu - 6 && mtu >= 9
    ensures BuildRequest(NewHandle(mtu, []), PUT, SpillCalls(body, v, more)) ==
            ApplyAll(NewRequest(PUT, mtu).(txQueue := SpillQueue(body, v, []), total := mtu - 1), mtu, more)
  {
    hide Encode;
    var calls := SpillCalls(body, v, more);
    var o := NewRequest(PUT, mtu);
    var o1 := Apply(o, mtu, calls[0]);
    var o2 := Apply(o1, mtu, calls[1]);
    assert calls[1..][0] == calls[1] && calls[1..][1..] == more;
    assert ApplyAll(o, mtu, calls) == ApplyAll(o1, mtu, calls[1..]) == ApplyAll(o2, mtu, more);
    assert o1.txQueue == [TxBody(Encode(Header(BODY, body)), false)];
    assert o2.txQueue == SpillQueue(body, v, []);
  }

  /** The prefix of the body is not charged, and so the small header goes along. */
  lemma SpillFilled(mtu: nat, more: seq<Piece>)
    requires mtu >= 9 && (more == [] || (more[0].Fixed? && 1 < more[0].size <= mtu))
    ensures Filled([Solid(mtu - 6), Fixed(2)] + more, mtu - 3, Limits(mtu, mtu)) == Load(more, 1, 1, Full)
  {
    var ps := [Solid(mtu - 6), Fixed(2)] + more;
    assert ps[1..] == [Fixed(2)] + more && ps[1..][1..] == more;
    assert Filled(more, 1, Less(Less(Limits(mtu, mtu), mtu - 3), 2)) == Load(more, 1, 0, Full);
    assert Filled(ps[1..], 3, Less(Limits(mtu, mtu), mtu - 3)) == Load(more, 1, 0, Full);
  }

  lemma SpillTail(body: seq<byte>, v: byte, more: seq<TxElement>)
    ensures var q := SpillQueue(body, v, more);
            && q != [] && q[0] == TxBody(Encode(Header(BODY, body)), false)
            && q[1..] == [TxHeader(Header(0x81, [v]))] + more && q[1..][1..] == more
  {
  }

  lemma SpillPieces(body: seq<byte>, v: byte, more: seq<TxElement>)
    requires |body| + 3 < 0x1_0000
    ensures Pieces(SpillQueue(body, v, more), 0) == [Solid(|body|), Fixed(2)] + Pieces(more, 0)
  {
    hide Encode, BodyRest, SpillQueue;
    SpillTail(body, v, more);
    BodyEncoded(body);
    var rest := [TxHeader(Header(0x81, [v]))] + more;
    assert Pieces(rest, 0) == [Fixed(2)] + Pieces(more, 0);
  }

  lemma SpillNoStream(body: seq<byte>, v: byte, more: seq<TxElement>)
    requires forall i :: 0 <= i < |more| ==> more[i].TxHeader?
    ensures !HasStream(SpillQueue(body, v, more)) && Content(Stream([], false), []) == []
  {
    hide Encode;
  }

  lemma BodyEncoded(body: seq<byte>)
    requires |body| + 3 < 0x1_0000
    ensures BodyRest(Encode(Header(BODY, body)), false) == body
  {
  }

  /** The first packet: everything but what comes behind the small header. */
  lemma SpillPack(mtu: u16, body: seq<byte>, v: byte, more: seq<TxElement>)
    requires |body| == mtu - 6 && mtu >= 9
    requires forall i :: 0 <= i < |more| ==> more[i].TxHeader? && 1 < EncodedSize(more[i].header) <= mtu
    ensures var k := Pack(SpillQueue(body, v, more), mtu - 3, Limits(mtu, mtu), Stream([], false), []);
            k.status.Full? && (k.queue == [] <==> more == []) && |EncodeAll(k.frags)| == mtu - 1
  {
    hide Pack, Filled, Pieces, EncodeAll, Encode;
    var q, s, lim := SpillQueue(body, v, more), Stream([], false), Limits(mtu, mtu);
    SpillPieces(body, v, more);
    SpillNoStream(body, v, more);
    PiecesFirst(more);
    SpillFilled(mtu, Pieces(more, 0));
    PackFilled(q, mtu - 3, lim, s, []);
    PackSize(q, mtu - 3, lim, s, []);
    var k := Pack(q, mtu - 3, lim, s, []);
    PiecesEmpty(k.queue, |Content(k.stream, k.feed)|);
  }

  lemma PiecesEmpty(q: seq<TxElement>, content: nat)
    ensures Pieces(q, content) == [] <==> q == []
  {
  }

  lemma PiecesFirst(q: seq<TxElement>)
    ensures Pieces(q, 0) == [] <==> q == []
    ensures q != [] && q[0].TxHeader? ==> Pieces(q, 0)[0] == Fixed(EncodedSize(q[0].header))
  {
  }

  // ---- A packet larger than its length field can say ----

  /** The server gets the first three octets of it, and takes them for the whole request. */
  lemma LargeTaken(packet: seq<byte>)
    requires packet == [SetFinal(PUT), 0, 1]
    ensures Reqs(ServerStep(NewWorld(MAXIMUM_MTU).server, packet).events, 0) == [Report(PUT, [])]
  {
    hide ServerReceive, LinkErrorIn, Reqs;
    var s := NewWorld(MAXIMUM_MTU).server;
    var script := s.script;
    assert script[1..] == [];
    assert Responds(script[0]) by { assert script[0][0].SetResponse?; }
    assert Ready(s, Willing, false, 0);
    Announces(s, Willing, false, 0, packet);
    assert packet[3..] == [];
    TakesLast(Announced(s), Willing, false, packet, 0, NewRx());
    LargeLoad(s);
    TakeLoad(Announced(s), Willing, false, packet, 0, NewRx());
  }

  lemma LargeLoad(s: Party)
    requires s == NewWorld(MAXIMUM_MTU).server
    ensures Fits(Announced(s)) && !Stopped(Announced(s))
  {
    hide LinkErrorIn;
    var script := s.script;
    assert script[1..] == [] && Responds(script[0]) by { assert script[0][0].SetResponse?; }
    AnnounceLoad(s, Willing, false, 0);
    LighterFits(s, Announced(s));
    assert !LinkErrorIn(s.events) by { NothingHappened(); }
  }

  lemma NothingHappened()
    ensures !LinkErrorIn([])
  {
  }

  /**
   Where the end-to-end result stops: on handles of the largest packet size a PUT of two
   headers goes out as a packet whose 16-bit length is 1, and the server reports a request
   without headers.
   */
  lemma OversizePut(body: seq<byte>, v: byte)
    requires |body| == 65529
    ensures var w, calls := NewWorld(MAXIMUM_MTU), SpillCalls(body, v, []);
            var w1 := Play(w, Start(PUT, calls));
            var w2 := Play(w1, ServerTurn);
            && PutSetting(w, calls, Willing) && Queued(w, calls) == [Header(BODY, body), Header(0x81, [v])]
            && |w1.client.out| == 1 && |w1.client.out[0]| == 65537 && Oversized(w1.client)
            && Reqs(w2.server.events, 0) == [Report(PUT, [])]
  {
    hide Play, PutSetting, Queued, ServerStep, Reqs, SpillCalls;
    var w, calls := NewWorld(MAXIMUM_MTU), SpillCalls(body, v, []);
    LargeSetting(body, v);
    LargeSent(body, v);
    var w1 := Play(w, Start(PUT, calls));
    assert PacketSize(w1.up) == 3 && w1.up[..3] == [SetFinal(PUT), 0, 1];
    LargeTaken(w1.up[..3]);
    LargeTurn(w1);
  }

  lemma LargeTurn(w: World)
    requires |w.up| >= 3 && PacketSize(w.up) == 3 && w.server == NewWorld(MAXIMUM_MTU).server
    ensures Play(w, ServerTurn).server == ServerStep(w.server, w.up[..3])
  {
    hide ServerStep;
  }

  lemma LargeSent(body: seq<byte>, v: byte)
    requires |body| == 65529
    ensures var w := NewWorld(MAXIMUM_MTU);
            var w1 := Play(w, Start(PUT, SpillCalls(body, v, [])));
            && w1.server == w.server && |w1.up| == 65537 && w1.client.out == [w1.up] && !WholePacket(w1.up)
            && w1.up[0] == SetFinal(PUT) && w1.up[1] == 0 && w1.up[2] == 1
  {
    hide Pack, Encode, EncodeAll, BuildRequest, PutSetting, Queued, ClientStart, Keeping, Balanced, Sending, SpillQueue,
         SpillCalls;
    var w, calls := NewWorld(MAXIMUM_MTU), SpillCalls(body, v, []);
    LargeSetting(body, v);
    SpillRequest(MAXIMUM_MTU, body, v, []);
    SpillPack(MAXIMUM_MTU, body, v, []);
    RequestSent(w, calls, Willing);
    var w1 := Play(w, Start(PUT, calls));
    var packet := w1.client.out[0];
    SentOne(Requesting(w.client, calls), w1.client, packet);
    assert w1.client.out == [packet];
  }

  lemma LargeSetting(body: seq<byte>, v: byte)
    requires |body| == 65529
    ensures PutSetting(NewWorld(MAXIMUM_MTU), SpillCalls(body, v, []), Willing)
    ensures Queued(NewWorld(MAXIMUM_MTU), SpillCalls(body, v, [])) == [Header(BODY, body), Header(0x81, [v])]
  {
    hide BuildRequest, Encode, SpillCalls, SpillQueue, Meaning, LinkErrorIn;
    SpillRequest(MAXIMUM_MTU, body, v, []);
    SpillMeaning(body, v, []);
    SpillSendable(body, v, []);
    MeaningNothing(Stream([], false), []);
    AcceptingScript();
    NothingHappened();
    assert [Header(BODY, body), Header(0x81, [v])] + [] == [Header(BODY, body), Header(0x81, [v])];
  }

  lemma AcceptingScript()
    ensures ReadyScript(Willing, [[SetResponse(CONTINUE, SUCCESS)]])
  {
    var script := [[SetResponse(CONTINUE, SUCCESS)]];
    assert script[1..] == [] && Responds(script[0]) by { assert script[0][0].SetResponse?; }
  }

  lemma MeaningNothing(s: Stream, feed: seq<StreamCall>)
    ensures Meaning([], s, feed) == []
  {
  }

  lemma SpillMeaning(body: seq<byte>, v: byte, more: seq<TxElement>)
    requires |body| + 3 < 0x1_0000
    ensures Meaning(SpillQueue(body, v, more), Stream([], false), []) ==
            [Header(BODY, body), Header(0x81, [v])] + Meaning(more, Stream([], false), [])
  {
    hide Encode, BodyRest, SpillQueue;
    var s := Stream([], false);
    SpillTail(body, v, more);
    BodyEncoded(body);
    var rest := [TxHeader(Header(0x81, [v]))] + more;
    assert Meaning(rest, s, []) == [Header(0x81, [v])] + Meaning(more, s, []);
  }

  lemma SpillSendable(body: seq<byte>, v: byte, more: seq<TxElement>)
    requires forall i :: 0 <= i < |more| ==>
               more[i].TxHeader? && WellFormed(more[i].header) && !IsBody(more[i].header.hi)
    ensures Sendable(SpillQueue(body, v, more), Stream([], false), [])
  {
    hide Encode;
  }

  // ---- A packet larger than the server's receive buffer ----

  /** One more header, too large for the first packet. */
  function TypeHeader(value: seq<byte>): Header {
    Header(0x42, value)
  }

  function OutgrownCalls(body: seq<byte>, v: byte, value: seq<byte>): seq<ApiCall> {
    SpillCalls(body, v, [AddHeader(0x42, HeaderData(0, 0, value), false, false)])
  }

  lemma OutgrownRequest(body: seq<byte>, v: byte, value: seq<byte>)
    requires |body| == 249 && |value| == 200
    ensures BuildRequest(NewHandle(255, []), PUT, OutgrownCalls(body, v, value)) ==
            NewRequest(PUT, 255).(txQueue := SpillQueue(body, v, [TxHeader(TypeHeader(value))]), total := 457)
  {
    hide Encode;
    var o := NewRequest(PUT, 255).(txQueue := SpillQueue(body, v, []), total := 254);
    var c := AddHeader(0x42, HeaderData(0, 0, value), false, false);
    SpillRequest(255, body, v, [c]);
    assert [c][1..] == [];
    assert ApplyAll(o, 255, [c]) == ApplyAll(Apply(o, 255, c), 255, []) == Apply(o, 255, c);
    var e := TxHeader(TypeHeader(value));
    assert SpillQueue(body, v, []) + [e] == SpillQueue(body, v, [e]);
  }

  /** Two packets, the first of 257 octets. */
  lemma OutgrownPasses(most: nat)
    ensures Passes([Solid(249), Fixed(2), Fixed(203)], 252, Limits(255, 255), most) <==> most >= 257
  {
    var ps, lim := [Solid(249), Fixed(2), Fixed(203)], Limits(255, 255);
    SpillFilled(255, [Fixed(203)]);
    assert ps == [Solid(255 - 6), Fixed(2)] + [Fixed(203)];
    var f := Filled(ps, 252, lim);
    FilledLighter(ps, 252, lim);
    assert f == Load([Fixed(203)], 1, 1, Full);
    var g := Filled([Fixed(203)], 252, Following(lim, 252, f));
    assert [Fixed(203)][1..] == [];
    assert g == Load([], 49, 0, Full);
    FilledLighter([Fixed(203)], 252, Following(lim, 252, f));
  }

  lemma OutgrownSetting(body: seq<byte>, v: byte, value: seq<byte>)
    requires |body| == 249 && |value| == 200
    ensures FittingPut(NewWorld(255), OutgrownCalls(body, v, value), Willing)
  {
    hide BuildRequest, Encode, OutgrownCalls, SpillQueue, LinkErrorIn, Fitting, Sendable;
    var more := [TxHeader(TypeHeader(value))];
    OutgrownRequest(body, v, value);
    SpillSendable(body, v, more);
    SpillFitting(body, v, more);
    AcceptingScript();
    NothingHappened();
  }

  lemma OutgrownSizes(body: seq<byte>, v: byte, value: seq<byte>)
    requires |body| == 249 && |value| == 200
    ensures var w, calls := NewWorld(255), OutgrownCalls(body, v, value);
            Sizable(w, calls) && PassingPut(w, calls, 0xffff) && !PassingPut(w, calls, AtOnce(w))
  {
    hide BuildRequest, Encode, OutgrownCalls, SpillQueue, Passes, Pieces, Content, HasStream;
    var more := [TxHeader(TypeHeader(value))];
    OutgrownRequest(body, v, value);
    SpillNoStream(body, v, more);
    SpillPieces(body, v, more);
    PiecesOne(TypeHeader(value));
    OutgrownPasses(0xffff);
    OutgrownPasses(255);
    assert [Solid(249), Fixed(2)] + [Fixed(203)] == [Solid(249), Fixed(2), Fixed(203)];
  }

  lemma SpillFitting(body: seq<byte>, v: byte, more: seq<TxElement>)
    requires forall i :: 0 <= i < |more| ==> more[i].TxHeader? && EncodedSize(more[i].header) <= 252
    ensures Fitting(SpillQueue(body, v, more), 252)
  {
    hide Encode;
  }

  lemma PiecesOne(h: Header)
    ensures Pieces([TxHeader(h)], 0) == [Fixed(EncodedSize(h))]
  {
    assert [TxHeader(h)][1..] == [];
  }

  lemma OutgrownSent(body: seq<byte>, v: byte, value: seq<byte>)
    requires |body| == 249 && |value| == 200
    ensures var w := NewWorld(255);
            var w1 := Play(w, Start(PUT, OutgrownCalls(body, v, value)));
            w1.server == w.server && |w1.up| == 257 && WholePacket(w1.up) && w1.up[0] == PUT
  {
    hide Pack, Encode, EncodeAll, BuildRequest, PutSetting, Queued, ClientStart, Keeping, Balanced, Sending, SpillQueue,
         OutgrownCalls, FittingPut;
    var w, calls := NewWorld(255), OutgrownCalls(body, v, value);
    var more := [TxHeader(TypeHeader(value))];
    OutgrownSetting(body, v, value);
    FittingSets(w, calls, Willing);
    OutgrownRequest(body, v, value);
    SpillPack(255, body, v, more);
    RequestSent(w, calls, Willing);
    var w1 := Play(w, Start(PUT, calls));
    var p, packet := Requesting(w.client, calls), w1.client.out[0];
    assert w1.client.out == p.out + [packet];
    SentOne(p, w1.client, packet);
    FrameWholeExactly(PUT, EncodeAll(Packed(p).frags));
  }

  lemma FittingSets(w: World, calls: seq<ApiCall>, app: App)
    requires FittingPut(w, calls, app)
    ensures PutSetting(w, calls, app)
  {
  }

  /**
   Handles whose packet sizes agree, all 255 octets, and headers each of which fits a packet:
   a body that just fills the first packet lets one more small header in behind it, and so the
   packet has 257 octets. A server that reads it whole moves its buffer and then looks at the
   final bit in the old one; a server that happens to read the beginning of it first does not.
   */
  lemma OutgrownPut(body: seq<byte>, v: byte, value: seq<byte>)
    requires |body| == 249 && |value| == 200
    ensures var w, calls := NewWorld(255), OutgrownCalls(body, v, value);
            var w1 := Play(w, Start(PUT, calls));
            && FittingPut(w, calls, Willing) && Sizable(w, calls)
            && PassingPut(w, calls, 0xffff) && !PassingPut(w, calls, AtOnce(w))
            && |w1.up| == 257 && WholePacket(w1.up) && w1.up[0] == PUT
            && Play(w1, ServerTurn).server.fault
            && !Over(Play(Play(w1, ServerReads), ServerTurn))
  {
    hide Play, Over, Able, FittingPut, Sizable, PassingPut, PutSetting, Fits, OutgrownCalls, Putting, Slim,
         BuildRequest, WholePacket;
    var w, calls := NewWorld(255), OutgrownCalls(body, v, value);
    OutgrownSetting(body, v, value);
    OutgrownSizes(body, v, value);
    OutgrownSent(body, v, value);
    FittingSets(w, calls, Willing);
    RequestingIs(w, calls, 0xffff);
    NeatFits(w, calls, Willing);
    SureStart(w, calls, Willing, 0xffff);
    PutGetsAfoot(w, calls, Willing, Sure(0xffff));
    var start, x := Play(w, Start(PUT, calls)), ExchangeOf(w, calls, Willing);
    OutgrownFaults(start, x, Sure(0xffff));
    ReadsStay(start, x, Sure(0xffff), ServerReads);
    SlimReads(start, Willing, ServerReads, 0xffff);
    ReadIsHolding(start);
    SureTurn(Play(start, ServerReads), x, ServerTurn, 0xffff);
  }

  // ---- Success before the request has arrived ----

  /** Two handles whose server answers SUCCESS from the start, and a body for two packets. */
  function EarlyWorld(): World {
    World(NewHandle(255, []), NewHandle(255, [[SetResponse(SUCCESS, SUCCESS)]]), [], [])
  }

  function EarlyCalls(body: seq<byte>): seq<ApiCall> {
    [AddHeader(BODY, HeaderData(0, 0, body), false, false)]
  }

  lemma EarlyRequest(body: seq<byte>)
    requires |body| == 300
    ensures BuildRequest(NewHandle(255, []), PUT, EarlyCalls(body)) ==
            NewRequest(PUT, 255).(txQueue := [TxBody(Encode(Header(BODY, body)), false)], total := 303)
  {
    hide Encode;
    var c := EarlyCalls(body)[0];
    assert [c][1..] == [];
    assert ApplyAll(NewRequest(PUT, 255), 255, [c]) == ApplyAll(Apply(NewRequest(PUT, 255), 255, c), 255, []);
  }

  lemma EarlySetting(body: seq<byte>)
    requires |body| == 300
    ensures PutSetting(EarlyWorld(), EarlyCalls(body), Accepter)
  {
    hide BuildRequest, Encode, EarlyCalls, LinkErrorIn;
    EarlyRequest(body);
    NothingHappened();
    var script := [[SetResponse(SUCCESS, SUCCESS)]];
    assert script[1..] == [];
  }

  lemma EarlyPack(body: seq<byte>, lim: Limits)
    requires |body| == 300
    ensures var k := Pack([TxBody(Encode(Header(BODY, body)), false)], 252, lim, Stream([], false), []);
            k.status.Full? && k.queue != [] && |EncodeAll(k.frags)| == 252
  {
    hide Encode, BodyRest, EncodeAll;
    BodyEncoded(body);
    EncodeOne(Header(BODY, body[..249]));
    assert |Encode(Header(BODY, body[..249]))| == 252;
  }

  /** An answer with nothing in it, from an application that has nothing more to say. */
  lemma BareAnswer(p: Party, packet: seq<byte>)
    requires p.current.Some? && p.script == [] && p.linkFaults == [] && !Stopped(p)
    requires var o := p.current.value;
             && o.cmd == PUT && o.headerOffset == 0 && !o.rx.streaming && o.txQueue == [] && o.nonHeader.None?
             && Accepting(o.opcode)
    requires |packet| >= 3 && packet[0] == PUT && HeadersIn(packet).outcome.Clean?
    ensures var p' := ServerReceive(p, packet);
            && !Stopped(p') && p'.state == p.state && p'.current.Some?
            && p'.out == p.out + [Frame(SetFinal(p.current.value.opcode), [])]
  {
    hide ParseHeaders, AcceptAll, StoreAll, LinkErrorIn, EventOf, Accepting, HeadersIn, Receive, SendObject;
    var hs := HeadersIn(packet).headers;
    ReceiveIs(p, packet);
    AcceptAllStores(p, hs);
    StoreAllKeepsMode(p.current.value.rx, hs);
    var p1 := Receive(p, packet).0;
    var p2 := Checked(p1, PUT);
    if !p.current.value.checked { DeliverQuietly(p1, EvReqCheck, PUT, 0, false); }
    BareSent(p2);
    var p3 := SendObject(p2, false, true).0;
    SendQuietly(p2, false, true);
    DeliverQuietly(p3, EvProgress, PUT, 0, false);
    assert ServerReceive(p, packet) == ServerMore(p2, packet, PUT);
  }

  lemma BareSent(p: Party)
    requires p.current.Some? && p.linkFaults == [] && p.current.value.txQueue == [] && p.current.value.nonHeader.None?
    ensures var (p', sent) := SendObject(p, false, true);
            && sent.SendMore? && p'.fault == p.fault && p'.current.Some? && p'.state == p.state && p'.script == p.script
            && p'.out == p.out + [Frame(SetFinal(p.current.value.opcode), [])]
  {
    var o := p.current.value;
    assert Packed(p) == Packing([], [], TxBudget(p), o.stream, p.feed, 0, Full);
    assert [] + EncodeAll([]) == [];
  }

  lemma EarlySent(body: seq<byte>)
    requires |body| == 300
    ensures var w, calls := EarlyWorld(), EarlyCalls(body);
            var w1 := Play(w, Start(PUT, calls));
            && !Over(w1) && Collecting(w1, ExchangeOf(w, calls, Accepter), NewRx()) && w1.server == w.server
            && w1.client.current.Some? && w1.client.current.value.txQueue != [] && |w1.up| == 255
  {
    hide Pack, Encode, EncodeAll, BuildRequest, PutSetting, Queued, ClientStart, Keeping, Balanced, Sending, EarlyCalls,
         Collecting, LinkErrorIn, WholePacket;
    var w, calls := EarlyWorld(), EarlyCalls(body);
    EarlySetting(body);
    EarlyRequest(body);
    var p, w1 := Requesting(w.client, calls), Play(w, Start(PUT, calls));
    EarlyPack(body, TxLimits(p));
    RequestSent(w, calls, Accepter);
    PutStarts(w, calls, Accepter);
    KeepsObject(w1.client, 0);
    var packet := w1.client.out[0];
    assert w1.client.out == p.out + [packet];
    SentOne(p, w1.client, packet);
    FrameWholeExactly(PUT, EncodeAll(Packed(p).frags));
    NothingHappened();
  }

  /** The server, asked for its first answer. */
  lemma EarlyAnswer(w: World, x: Exchange)
    requires Collecting(w, x, NewRx()) && w.server == EarlyWorld().server && x.app == Accepter && !Over(w)
    requires w.client.current.Some? && w.client.current.value.txQueue != [] && |w.up| == 255
    ensures var w' := Play(w, ServerTurn);
            && !Over(w') && w'.client == w.client && w'.down == Frame(SetFinal(SUCCESS), [])
            && w'.server.state.Receiving? && w'.server.current.Some?
  {
    hide ServerReceive, ServerStep, LinkErrorIn, HeadersIn, StoreAll, Keeping, InStep, Ready, Taking, Gathered, Holds,
         WholePacket, Oversized, Early;
    var s := w.server;
    EarlyAnnounced();
    CollectingNow(w, x);
    var t := ServerTakes(w, x, NewRx());
    BareAnswer(t, w.up);
    TurnTreats(w, w.up);
    var w' := Play(w, ServerTurn);
    BareWhole(SetFinal(SUCCESS));
    SentOne(s, w'.server, Frame(SetFinal(SUCCESS), []));
    WholeAdded(s, w'.server);
  }

  lemma CollectingNow(w: World, x: Exchange)
    requires Collecting(w, x, NewRx()) && w.server == EarlyWorld().server
    ensures Ready(w.server, x.app, x.st, x.n)
  {
    hide Keeping, HeadersIn, StoreAll, Gathered, InStep, WholePacket, Ready, ReadyScript;
    assert !Taking(w.server, x.app, x.st, x.n);
  }

  lemma EarlyAnnounced()
    ensures var t := Announced(EarlyWorld().server);
            && t.current.Some? && t.script == [] && t.linkFaults == [] && !Stopped(t) && t.state.Receiving?
            && t.current.value == NewObject(0).(cmd := PUT, opcode := SUCCESS, lastOpcode := SUCCESS)
  {
    hide LinkErrorIn;
    var s := EarlyWorld().server;
    var p0 := s.(current := Some(NewObject(0).(cmd := PUT)), nextId := 1);
    var c := SetResponse(SUCCESS, SUCCESS);
    NothingHappened();
    DeliverQuietly(p0, EvReqHint, PUT, 0, false);
    assert s.script[1..] == [] && [c][1..] == [];
    assert ApplyAll(p0.current.value, 255, [c]) == ApplyAll(Apply(p0.current.value, 255, c), 255, []);
  }

  /**
   A server that accepts, but with SUCCESS in place of CONTINUE: the client is told of success
   after its first packet and rests, while the server still waits for the second and reports
   nothing.
   */
  lemma EarlySuccess(body: seq<byte>)
    requires |body| == 300
    ensures var w, calls := EarlyWorld(), EarlyCalls(body);
            var w1 := Play(w, Start(PUT, calls));
            var w3 := Play(Play(w1, ServerTurn), ClientTurn);
            && PutSetting(w, calls, Accepter) && Early(w1) && !Over(w3) && Rested(w3.client) && Succeeded(w3.client)
            && w3.server.state.Receiving? && w3.server.current.Some? && Reqs(w3.server.events, 0) == []
  {
    hide Play, PutSetting, Collecting, Midway, Settling, Over, Early, ClientStep, Keeping, HeadersIn, StoreAll, Queued,
         EarlyCalls, BuildRequest, Finished, AskingOn;
    var w, calls := EarlyWorld(), EarlyCalls(body);
    var x, w1 := ExchangeOf(w, calls, Accepter), Play(w, Start(PUT, calls));
    EarlySetting(body);
    EarlySent(body);
    EarlyAnswer(w1, x);
    CollectingStep(w1, x, NewRx());
    WholeUp(w1, x);
    EarlyTaken(Play(w1, ServerTurn), x, StoreAll(NewRx(), HeadersIn(w1.up).headers));
  }

  lemma WholeUp(w: World, x: Exchange)
    requires Collecting(w, x, NewRx())
    ensures |w.up| >= 3
  {
  }

  /** The client takes SUCCESS for the end of its request. */
  lemma EarlyTaken(w: World, x: Exchange, sim: Rx)
    requires (Midway(w, x, sim) || Settling(w, x)) && !Over(w) && x.n == 0
    requires w.down == Frame(SetFinal(SUCCESS), []) && w.client.current.Some? && w.client.current.value.txQueue != []
    ensures SuccessOnWay(w, x)
    ensures var w' := Play(w, ClientTurn);
            && !Over(w') && Rested(w'.client) && Succeeded(w'.client)
            && w'.server == w.server && Reqs(w.server.events, 0) == []
  {
    hide Play, HeadersIn, Keeping, Holds, InStep, WholePacket, Serving, Told, NoEnd, Reqs, LinkErrorIn, ClientStep,
         PassiveScript, Packed;
    BareWhole(SetFinal(SUCCESS));
    KeepsObject(w.client, x.m);
    TurnTreats(w, w.down);
    TakesAnswer(w.client, w.down, x.m);
    SentNone(w.client, Play(w, ClientTurn).client);
    SameOut(w.client, Play(w, ClientTurn).client);
  }

  // ---- A streamed body from application to application ----

  /** Chunks of one body: none of them empty, and an empty one at the end. */
  predicate BodyInChunks(chunks: seq<seq<byte>>, content: seq<byte>) {
    && chunks != [] && chunks[|chunks| - 1] == [] && AllNonEmpty(chunks[..|chunks| - 1])
    && Concat(chunks[..|chunks| - 1]) == content
  }

  /** What the client's application feeds into a stream behind other headers comes out of a
      streaming server as non-empty chunks of the same content and one empty chunk, in every
      run, whatever the packet sizes and whatever the server's application does. */
  lemma StreamedPut(w: World, calls: seq<ApiCall>, app: App, acts: seq<Act>, hs: seq<TxElement>)
    requires PutSetting(w, calls, app) && Turns(acts) && Streams(w.server.script)
    requires var o := BuildRequest(w.client, PUT, calls);
             o.txQueue == hs + [TxStream] && Preamble(hs) && o.stream == Stream([], false)
    ensures var w' := PlayAll(Play(w, Start(PUT, calls)), acts);
            var n := |w.server.events|;
            || Over(w') || Reqs(w'.server.events, n) == []
            || BodyInChunks(Chunks(w'.server.events, n), FeedContent(w.client.feed))
  {
    hide Play, PlayAll, Over, Reqs, Chunks, BuildRequest, Assemble, NoEnd, ReadyScript, PassiveScript, LinkErrorIn,
         Oversized, AllNonEmpty, Concat;
    TurnsAddNothing(Play(w, Start(PUT, calls)), acts);
    PutTheorem(w, calls, app, acts);
    assert Queued(w, calls) + [] == Queued(w, calls);
    var w' := PlayAll(Play(w, Start(PUT, calls)), acts);
    var n := |w.server.events|;
    if !Over(w') && Reqs(w'.server.events, n) != [] {
      var o := BuildRequest(w.client, PUT, calls);
      OnlyStreamValue(hs, o.stream, w.client.feed);
      var chunks := Chunks(w'.server.events, n);
      OneBody([], chunks, Content(o.stream, w.client.feed));
      assert [] + Concat(chunks[..|chunks| - 1]) == Concat(chunks[..|chunks| - 1]);
      assert Content(o.stream, w.client.feed) == FeedContent(w.client.feed);
    }
  }
}
