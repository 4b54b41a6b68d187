/** The two sides of a PUT: what each does with a packet, whatever its application does. */
module Put {
  import opened Octets
  import opened Headers
  import opened Fragmenter
  import opened Reassembler
  import opened Transfer
  import opened Streaming
  import opened Session
  import opened SessionFacts
  import opened Events

  // ---- Applications ----

  /** Calls that only look at what was received. */
  predicate Reading(c: ApiCall) {
    c.NextHeader? || c.ReparseHeaders?
  }

  predicate AllReading(calls: seq<ApiCall>) {
    forall i :: 0 <= i < |calls| ==> Reading(calls[i])
  }

  /** An application that only reads, at every event. */
  predicate PassiveScript(script: seq<seq<ApiCall>>) {
    forall i :: 0 <= i < |script| ==> AllReading(script[i])
  }

  /**
   Server applications, from the least to the most restrained: one that does as it likes;
   one that, if it answers at all, accepts, with any accepting response; one that answers as it
   likes, and puts nothing but headers into its response; one that does so, and accepts with
   CONTINUE as soon as the request is announced; one whose headers moreover are no bodies, and
   each fits a packet; one that accepts with CONTINUE and SUCCESS and has nothing to add.
   */
  datatype App = Free | Accepter | Sparing | Obliging | Brief(budget: nat) | Willing

  /** Accepts with CONTINUE, and at once. */
  predicate Restrained(app: App) {
    app.Obliging? || Neat(app)
  }

  /** And its responses always go out, in packets of a size that is known. */
  predicate Neat(app: App) {
    app.Brief? || app.Willing?
  }

  /** The budget is that of the handle. */
  predicate InBudget(app: App, budget: nat, mtuTx: nat) {
    app.Brief? ==> app.budget == budget && budget + 3 <= mtuTx < 0x1_0000
  }

  /** Responds with headers only. */
  predicate Measured(app: App) {
    app.Sparing? || Restrained(app)
  }

  /** The responses an application sets: for packets in between, and for the last. */
  predicate PairOk(app: App, rsp: byte, last: byte) {
    && ClearFinal(last) != CONTINUE
    && match app
       case Free => true
       case Accepter => Accepting(rsp)
       case Sparing => true
       case Obliging => rsp == CONTINUE
       case Brief(_) => rsp == CONTINUE
       case Willing => rsp == CONTINUE && last == SUCCESS
  }

  /** A header that can be sent in a response: well-formed, and no fragment in disguise. */
  predicate Sendable1(e: TxElement) {
    match e
    case TxHeader(h) => WellFormed(h) && !IsBody(h.hi)
    case TxStream => false
    case _ => true
  }

  predicate SendableOut(q: seq<TxElement>) {
    forall i :: 0 <= i < |q| ==> Sendable1(q[i])
  }

  /** Streaming is enabled at the first event of a request or not at all, and the server's
      headers start where the packet's do. */
  predicate CallOk(app: App, c: ApiCall, first: bool) {
    match c
    case SetResponse(rsp, last) => PairOk(app, rsp, last)
    case AddHeader(hi, hv, _, start) =>
      !Measured(app) ||
      (!app.Willing? && !start &&
       (hi == EMPTY || (hi == BODY && !app.Brief?)
        || (WellFormed(HeaderOf(hi, hv)) && !IsBody(hi)
            && (app.Brief? ==> EncodedSize(HeaderOf(hi, hv)) <= app.budget))))
    case SetNonHeaderData(_) => !Measured(app)
    case EnableStream => first && !app.Willing?
    case SetHeaderOffset(_) => false
    case NextHeader => true
    case ReparseHeaders => true
  }

  predicate CallsOk(app: App, calls: seq<ApiCall>, first: bool) {
    forall i :: 0 <= i < |calls| ==> CallOk(app, calls[i], first)
  }

  /** From the second event of the request on. */
  predicate RestOk(app: App, script: seq<seq<ApiCall>>) {
    forall i :: 0 <= i < |script| ==> CallsOk(app, script[i], false)
  }

  predicate Responds(calls: seq<ApiCall>) {
    exists i :: 0 <= i < |calls| && calls[i].SetResponse?
  }

  /** Ready for a request. */
  predicate ReadyScript(app: App, script: seq<seq<ApiCall>>) {
    && (script == [] || (CallsOk(app, script[0], true) && RestOk(app, script[1..])))
    && (!Restrained(app) || (script != [] && Responds(script[0])))
  }

  /** Whether the body is to be taken as a stream. */
  predicate Streams(script: seq<seq<ApiCall>>) {
    script != [] && EnableStream in script[0]
  }

  // ---- What reactions leave alone ----

  predicate QueueOk(app: App, o: Object) {
    && (Measured(app) ==> o.nonHeader.None? && SendableOut(o.txQueue))
    && (app.Brief? ==> Preamble(o.txQueue) && Fitting(o.txQueue, app.budget))
    && (app.Willing? ==> o.txQueue == [])
  }

  /** The responses on the object: the application's, or those it was made with. */
  predicate OpcodesOk(app: App, o: Object) {
    || PairOk(app, o.opcode, o.lastOpcode)
    || (app.Accepter? && o.opcode == NOT_IMPLEMENTED && o.lastOpcode == NOT_IMPLEMENTED)
  }

  /** Objects that agree in everything an application leaves alone during a PUT. */
  predicate Undisturbed(o: Object, o': Object) {
    SameObject(o, o') && o'.headerOffset == o.headerOffset
  }

  lemma OneCall(app: App, o: Object, mtuTx: u16, c: ApiCall, first: bool)
    requires CallOk(app, c, first) && QueueOk(app, o)
    ensures var o' := Apply(o, mtuTx, c);
            && Undisturbed(o, o') && QueueOk(app, o')
            && o'.rx.streaming == (o.rx.streaming || c.EnableStream?)
            && (OpcodesOk(app, o) || c.SetResponse? ==> OpcodesOk(app, o'))
  {
    hide QueueOk, OpcodesOk, CallOk, SameObject;
    ApplyKeeps(o, mtuTx, c);
    OneCallQueues(app, o, mtuTx, c, first);
    OneCallAnswers(app, o, mtuTx, c, first);
    OneCallLeaves(app, c, first);
  }

  lemma OneCallLeaves(app: App, c: ApiCall, first: bool)
    requires CallOk(app, c, first)
    ensures !c.SetHeaderOffset?
  {
  }

  lemma OneCallQueues(app: App, o: Object, mtuTx: u16, c: ApiCall, first: bool)
    requires CallOk(app, c, first) && QueueOk(app, o)
    ensures QueueOk(app, Apply(o, mtuTx, c))
  {
    hide Accepts, WellFormed, Encode;
  }

  lemma OneCallAnswers(app: App, o: Object, mtuTx: u16, c: ApiCall, first: bool)
    requires CallOk(app, c, first)
    ensures OpcodesOk(app, o) || c.SetResponse? ==> OpcodesOk(app, Apply(o, mtuTx, c))
  {
    hide Accepts, HeaderOf, Encode, PairOk;
  }

  lemma {:induction false} ManyCalls(app: App, o: Object, mtuTx: u16, calls: seq<ApiCall>, first: bool)
    requires CallsOk(app, calls, first) && QueueOk(app, o)
    ensures var o' := ApplyAll(o, mtuTx, calls);
            && Undisturbed(o, o') && QueueOk(app, o')
            && o'.rx.streaming == (o.rx.streaming || EnableStream in calls)
            && (OpcodesOk(app, o) || Responds(calls) ==> OpcodesOk(app, o'))
    decreases |calls|
  {
    hide Apply, QueueOk, OpcodesOk, Received, CallOk;
    if calls == [] {
    } else {
      var o1 := Apply(o, mtuTx, calls[0]);
      OneCall(app, o, mtuTx, calls[0], first);
      ManyCalls(app, o1, mtuTx, calls[1..], first);
      assert EnableStream in calls <==> calls[0].EnableStream? || EnableStream in calls[1..];
      if Responds(calls) && !calls[0].SetResponse? {
        var i :| 0 <= i < |calls| && calls[i].SetResponse?;
        assert calls[1..][i - 1].SetResponse?;
      }
    }
  }

  // ---- Receiving the headers of a PUT ----

  /** The headers in a packet that has no other data in front of them. */
  function HeadersIn(packet: seq<byte>): Parsed
    requires |packet| >= 3
  {
    ParseHeaders(packet[3..], false)
  }

  predicate SameHolding(a: Rx, b: Rx) {
    Received(a) == Received(b) && a.body == b.body
  }

  lemma {:induction false} SameHoldingStored(a: Rx, b: Rx, hs: seq<Header>)
    requires SameHolding(a, b)
    ensures SameHolding(StoreAll(a, hs), StoreAll(b, hs))
    decreases |hs|
  {
    if hs == [] {
    } else {
      StoreOne(a, hs[0]);
      StoreOne(b, hs[0]);
      SameHoldingStored(Store(a, hs[0]), Store(b, hs[0]), hs[1..]);
    }
  }

  /** What has come in since the n-th event is what a receiver that gathers everything would
      hold. A streaming server has the other headers, and has offered the chunks. */
  predicate Holds(p: Party, n: nat, sim: Rx) {
    && p.current.Some?
    && var rx := p.current.value.rx;
    if rx.streaming then
      && Received(rx) == Plain(Received(sim))
      && Agrees(Assemble(Assembly([], []), Chunks(p.events, n)), sim)
    else SameHolding(rx, sim) && Chunks(p.events, n) == []
  }

  lemma HoldsSame(p: Party, p': Party, n: nat, sim: Rx)
    requires Holds(p, n, sim) && p'.current.Some?
    requires var rx, rx' := p.current.value.rx, p'.current.value.rx;
             rx'.streaming == rx.streaming && SameHolding(rx', rx)
    requires Chunks(p'.events, n) == Chunks(p.events, n)
    ensures Holds(p', n, sim)
  {
  }

  lemma {:induction false} PlainStored(rx: Rx, hs: seq<Header>)
    ensures Plain(Received(StoreAll(rx, hs))) == Plain(Received(rx)) + Plain(hs)
    decreases |hs|
  {
    hide Received;
    if hs == [] {
    } else {
      PlainStoredOne(rx, hs[0]);
      PlainStored(Store(rx, hs[0]), hs[1..]);
      assert hs == [hs[0]] + hs[1..];
      PlainAppend([hs[0]], hs[1..]);
      Associate(Plain(Received(rx)), Plain([hs[0]]), Plain(hs[1..]));
    }
  }

  lemma PlainStoredOne(rx: Rx, h: Header)
    ensures Plain(Received(Store(rx, h))) == Plain(Received(rx)) + Plain([h])
  {
    StoreOne(rx, h);
    var body := Header(BODY, Partial(rx.body) + h.value);
    PlainAppend(Received(rx), [h]);
    PlainAppend(Received(rx), [body]);
    assert Plain([body]) == [];
  }

  // ---- The server in the middle of a PUT ----

  predicate Serving(p: Party, app: App, st: bool) {
    && p.serverMode && !p.fault && p.linkFaults == [] && RestOk(app, p.script) && p.current.Some?
    && var o := p.current.value;
    && o.cmd == PUT && o.headerOffset == 0 && !o.abort && OpcodesOk(app, o) && QueueOk(app, o) && o.rx.streaming == st
    && InBudget(app, Budget(p.mtuTx, p.irda, p.linkMtu), p.mtuTx)
  }

  /** Nothing but the record, the script and what an application may touch has changed. */
  predicate Steady(p: Party, p': Party, app: App, st: bool) {
    && Serving(p', app, st) && SameHandle(p, p') && p'.out == p.out
    && p.current.Some?
    && p'.current.value.checked == p.current.value.checked && p'.current.value.firstSent == p.current.value.firstSent
  }

  lemma CallsNow(app: App, script: seq<seq<ApiCall>>)
    requires RestOk(app, script)
    ensures CallsOk(app, if script == [] then [] else script[0], false) && RestOk(app, Tail(script))
    ensures EnableStream !in (if script == [] then [] else script[0])
  {
    if script != [] {
      forall i | 0 <= i < |script[0]| ensures CallOk(app, script[0][i], false) && script[0][i] != EnableStream {
      }
    }
  }

  /** An event other than stream data. */
  lemma Notified(p: Party, app: App, st: bool, kind: EventKind, cmd: nat, n: nat)
    requires Serving(p, app, st) && !kind.EvStreamAvail? && n <= |p.events|
    ensures var p' := Deliver(p, kind, cmd, 0, false);
            && Steady(p, p', app, st) && SameHolding(p'.current.value.rx, p.current.value.rx)
            && Chunks(p'.events, n) == Chunks(p.events, n)
            && Reqs(p'.events, n) == Reqs(p.events, n) +
               (if kind.EvReq? then [Report(cmd, Received(p.current.value.rx))] else [])
            && |p'.events| == |p.events| + 1 && |p'.current.value.txQueue| >= |p.current.value.txQueue|
            && (NoEnd(p.events, n) && !Terminal(kind) ==> NoEnd(p'.events, n))
  {
    hide Chunks, Reqs, NoEnd, ApplyAll, RestOk, CallsOk, OpcodesOk, QueueOk, Received;
    var calls := if p.script == [] then [] else p.script[0];
    CallsNow(app, p.script);
    ManyCalls(app, p.current.value, p.mtuTx, calls, false);
    QueueGrows(p.current.value, p.mtuTx, calls);
    OneMore(p.events, EventOf(p, kind, cmd, 0), n);
  }

  lemma {:induction false} QueueGrows(o: Object, mtuTx: u16, calls: seq<ApiCall>)
    ensures |ApplyAll(o, mtuTx, calls).txQueue| >= |o.txQueue|
    decreases |calls|
  {
    hide Accepts;
    if calls == [] {
    } else {
      QueueGrows(Apply(o, mtuTx, calls[0]), mtuTx, calls[1..]);
    }
  }

  // ---- The server takes in a packet ----

  lemma ChunkSteady(p: Party, app: App, st: bool, chunk: seq<byte>)
    requires Serving(p, app, st)
    ensures Serving(StreamChunk(p, chunk), app, st)
  {
    hide ApplyAll, RestOk, CallsOk, OpcodesOk, QueueOk, Received;
    var o := p.current.value.(stream := p.current.value.stream.(data := chunk));
    SameQueueOk(app, p.current.value, o);
    var calls := if p.script == [] then [] else p.script[0];
    CallsNow(app, p.script);
    ManyCalls(app, o, p.mtuTx, calls, false);
  }

  lemma SameQueueOk(app: App, o: Object, o': Object)
    requires o'.txQueue == o.txQueue && o'.nonHeader == o.nonHeader
    requires o'.opcode == o.opcode && o'.lastOpcode == o.lastOpcode
    ensures QueueOk(app, o') == QueueOk(app, o) && OpcodesOk(app, o') == OpcodesOk(app, o)
  {
  }

  lemma AcceptSteady(p: Party, app: App, st: bool, h: Header)
    requires Serving(p, app, st)
    ensures Serving(AcceptHeader(p, h), app, st)
  {
    hide StreamChunk, OpcodesOk, QueueOk, RestOk;
    var o := p.current.value;
    if IsBody(h.hi) && st {
      if h.hi == BODY && h.value == [] {
      } else {
        ChunkSteady(p, app, st, h.value);
        if h.hi == END_OF_BODY && h.value != [] { ChunkSteady(StreamChunk(p, h.value), app, st, []); }
      }
    } else {
      SameQueueOk(app, o, o.(rx := Store(o.rx, h)));
    }
  }

  lemma {:induction false} AcceptAllSteady(p: Party, app: App, st: bool, hs: seq<Header>)
    requires Serving(p, app, st)
    ensures Serving(AcceptAll(p, hs), app, st)
    decreases |hs|
  {
    hide AcceptHeader, Serving;
    if hs == [] {
    } else {
      AcceptSteady(p, app, st, hs[0]);
      SomeObject(p, app, st);
      AcceptAllSteady(AcceptHeader(p, hs[0]), app, st, hs[1..]);
    }
  }

  lemma SomeObject(p: Party, app: App, st: bool)
    requires Serving(p, app, st)
    ensures p.current.Some?
  {
  }

  lemma {:induction false} AcceptAllStores(p: Party, hs: seq<Header>)
    requires p.current.Some? && !p.current.value.rx.streaming
    ensures AcceptAll(p, hs) == Update(p, p.current.value.(rx := StoreAll(p.current.value.rx, hs)))
    decreases |hs|
  {
    if hs == [] {
    } else {
      AcceptAllStores(AcceptHeader(p, hs[0]), hs[1..]);
    }
  }

  /** A clean packet is read alike by every receiver. */
  lemma CleanAlike(d: seq<byte>, streaming: bool)
    requires ParseHeaders(d, false).outcome.Clean?
    ensures ParseHeaders(d, streaming) == ParseHeaders(d, false)
  {
    EncodeParsed(d, false);
    ParseEncoded(ParseHeaders(d, false).headers, streaming);
  }

  lemma ReceiveIs(p: Party, packet: seq<byte>)
    requires p.current.Some? && |packet| >= 3 && p.current.value.headerOffset == 0
    requires p.current.value.rx.streaming ==> HeadersIn(packet).outcome.Clean?
    ensures Receive(p, packet) == (AcceptAll(p, HeadersIn(packet).headers), HeadersIn(packet).outcome)
  {
    hide ParseHeaders, AcceptAll;
    var d := packet[3..];
    assert d[0..] == d;
    if p.current.value.rx.streaming { CleanAlike(d, true); }
  }

  /** What a streaming server has offered and kept agrees with what the packet adds. */
  lemma StreamHolds(p: Party, hs: seq<Header>, n: nat, sim: Rx)
    requires TakesStream(p) && n <= |p.events| && Holds(p, n, sim)
    ensures AcceptAll(p, hs).current.Some? && Holds(AcceptAll(p, hs), n, StoreAll(sim, hs))
  {
    hide AcceptAll, Assemble, Chunks, Received, StoreAll, Plain, ChunksOfAll, Agrees;
    ChunksOffered(p, hs, n);
    var none := Assembly([], []);
    AssembleAppend(none, Chunks(p.events, n), ChunksOfAll(hs));
    AgreesAll(Assemble(none, Chunks(p.events, n)), sim, hs);
    PlainStored(sim, hs);
  }

  lemma StoreHolds(p: Party, hs: seq<Header>, n: nat, sim: Rx)
    requires p.current.Some? && !p.current.value.rx.streaming && Holds(p, n, sim)
    ensures AcceptAll(p, hs).current.Some? && Holds(AcceptAll(p, hs), n, StoreAll(sim, hs))
  {
    hide AcceptAll, Chunks, StoreAll, Received;
    AcceptAllStores(p, hs);
    StoreAllKeepsMode(p.current.value.rx, hs);
    SameHoldingStored(p.current.value.rx, sim, hs);
  }

  /** The headers of a packet, taken in by a server that stores or streams. */
  lemma TakenIn(p: Party, app: App, st: bool, packet: seq<byte>, n: nat, sim: Rx)
    requires Serving(p, app, st) && |packet| >= 3 && HeadersIn(packet).outcome.Clean?
    requires n <= |p.events| && Holds(p, n, sim)
    ensures var (p', outcome) := Receive(p, packet);
            && outcome.Clean? && Steady(p, p', app, st) && n <= |p'.events|
            && Reqs(p'.events, n) == Reqs(p.events, n) && (NoEnd(p.events, n) ==> NoEnd(p'.events, n))
            && Holds(p', n, StoreAll(sim, HeadersIn(packet).headers))
  {
    hide Receive, AcceptAll, HeadersIn, StoreAll, Holds, RestOk, OpcodesOk, QueueOk, Reqs, Chunks, NoEnd;
    var hs := HeadersIn(packet).headers;
    ReceiveIs(p, packet);
    AcceptAllSteady(p, app, st, hs);
    AcceptAllReceives(p, hs);
    ManyMore(p.events, AcceptAll(p, hs).events, EvStreamAvail, IdOf(p.current), n);
    if st { StreamHolds(p, hs, n, sim); } else { StoreHolds(p, hs, n, sim); }
  }
}
