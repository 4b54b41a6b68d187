/** The server's side of a PUT: what it reports and answers, whatever its application does. */
module PutServer {
  import opened Octets
  import opened Headers
  import opened Fragmenter
  import opened Reassembler
  import opened Transfer
  import opened Streaming
  import opened Framing
  import opened Session
  import opened SessionFacts
  import opened Events
  import opened Lifetime
  import opened Refusal
  import opened Lockstep
  import opened Put

  // ---- Where the server stands ----

  /** Ready for the request, with the n events so far. */
  predicate Ready(p: Party, app: App, st: bool, n: nat) {
    && AtRest(p) && !p.fault && p.linkFaults == [] && ReadyScript(app, p.script) && st == Streams(p.script)
    && n == |p.events| && InBudget(app, Budget(p.mtuTx, p.irda, p.linkMtu), p.mtuTx)
  }

  /** Receiving the request, which has not arrived whole yet. */
  predicate Taking(p: Party, app: App, st: bool, n: nat) {
    && Serving(p, app, st) && p.state.Receiving? && !p.current.value.firstSent
    && n <= |p.events| && Reqs(p.events, n) == [] && NoEnd(p.events, n)
  }

  /** In the middle of a response. */
  predicate Answering(p: Party, app: App, st: bool, n: nat) {
    Serving(p, app, st) && p.state.Responding? && n <= |p.events| && NoEnd(p.events, n)
  }

  predicate Rested(p: Party) {
    AtRest(p) && !p.fault && p.linkFaults == []
  }

  /** What has come in since the n-th event; nothing before the request is announced. */
  predicate Gathered(p: Party, n: nat, sim: Rx) {
    if p.current.None? then sim == NewRx() else Holds(p, n, sim)
  }

  /** The request has been reported once, with all its headers; a streaming server has
      reported those that are no bodies, and its chunks make up the bodies. */
  predicate Told(events: seq<Event>, n: nat, whole: seq<Header>, st: bool) {
    if st then
      && Reqs(events, n) == [Report(PUT, Plain(whole))]
      && Assemble(Assembly([], []), Chunks(events, n)) == Assembly(BodyValues(whole), [])
    else Reqs(events, n) == [Report(PUT, whole)] && Chunks(events, n) == []
  }

  lemma ToldStays(before: seq<Event>, after: seq<Event>, n: nat, whole: seq<Header>, st: bool)
    requires Told(before, n, whole, st) && Reqs(after, n) == Reqs(before, n) && Chunks(after, n) == Chunks(before, n)
    ensures Told(after, n, whole, st)
  {
  }

  /** The same has been reported before and after. */
  predicate SameReports(p: Party, p': Party, n: nat) {
    n <= |p'.events| && Reqs(p'.events, n) == Reqs(p.events, n) && Chunks(p'.events, n) == Chunks(p.events, n)
  }

  /** The octets in a packet of such a response. */
  function Most(app: App): nat {
    if app.Brief? then app.budget + 3 else 3
  }

  /** Exactly one packet has gone out; that of a restrained application reads cleanly. */
  predicate OneAnswer(p: Party, p': Party, app: App) {
    && |p'.out| == |p.out| + 1 && p.out <= p'.out && |p'.out[|p.out|]| >= 3
    && (Measured(app) ==> HeadersIn(p'.out[|p.out|]).outcome.Clean?)
    && (Neat(app) ==> WholePacket(p'.out[|p.out|]) && |p'.out[|p.out|]| <= Most(app))
  }

  /** The same, with this opcode and the final bit. */
  predicate Sends(p: Party, p': Party, app: App, op: byte) {
    OneAnswer(p, p', app) && p'.out[|p.out|][0] == SetFinal(op)
  }

  /** The run is over for this handle. */
  predicate Stopped(p: Party) {
    p.fault || LinkErrorIn(p.events)
  }

  // ---- The announcement ----

  lemma NewPut(app: App, id: nat)
    ensures var o := NewObject(id).(cmd := PUT); QueueOk(app, o) && (!Restrained(app) ==> OpcodesOk(app, o))
  {
  }

  lemma NothingGathered()
    ensures Received(NewRx()) == [] && Plain([]) == [] && NewRx().body.None? && !NewRx().streaming
    ensures Agrees(Assemble(Assembly([], []), []), NewRx())
  {
  }

  lemma ReadyNow(app: App, script: seq<seq<ApiCall>>)
    requires ReadyScript(app, script)
    ensures var calls := if script == [] then [] else script[0];
            && CallsOk(app, calls, true) && RestOk(app, Tail(script))
            && (!Restrained(app) || Responds(calls))
            && (EnableStream in calls <==> Streams(script))
  {
  }

  /** Nothing of the request has come in yet. */
  lemma GatheredFirst(p: Party, n: nat)
    requires p.current.Some? && Received(p.current.value.rx) == [] && p.current.value.rx.body.None?
    requires Chunks(p.events, n) == []
    ensures Holds(p, n, NewRx())
  {
    hide Received, Agrees, Assemble;
    NothingGathered();
    assert Received(NewRx()) == [];
  }

  /** The request announced, its first packet still to be taken in. */
  function Announced(p: Party): Party {
    Deliver(p.(current := Some(NewObject(p.nextId).(cmd := PUT)), nextId := p.nextId + 1),
            EvReqHint, PUT, 0, false).(state := Receiving, serverMode := true)
  }

  lemma Announces(p: Party, app: App, st: bool, n: nat, packet: seq<byte>)
    requires Ready(p, app, st, n) && |packet| >= 3 && ClearFinal(packet[0]) == PUT
    ensures var p1 := Announced(p);
            && ServerStep(p, packet) == ServerReceive(p1, packet) && Taking(p1, app, st, n)
            && p1.out == p.out && Holds(p1, n, NewRx()) && p1.mtuTx == p.mtuTx
  {
    hide ServerReceive, ApplyAll, Reqs, Chunks, RestOk, CallsOk, OpcodesOk, QueueOk, Received, Holds, Streams, Responds,
         InBudget, NoEnd, ReadyScript;
    var p0 := p.(current := Some(NewObject(p.nextId).(cmd := PUT)), nextId := p.nextId + 1);
    var calls := if p.script == [] then [] else p.script[0];
    ReadyNow(app, p.script);
    NewPut(app, p.nextId);
    NothingGathered();
    ManyCalls(app, p0.current.value, p.mtuTx, calls, true);
    NothingYet(p.events);
    OneMore(p.events, EventOf(p0, EvReqHint, PUT, 0), n);
    GatheredFirst(Announced(p), n);
  }

  lemma AnnouncedTaker(p: Party, packet: seq<byte>)
    requires AtRest(p) && |packet| >= 3 && ClearFinal(packet[0]) == PUT
    ensures Taker(p, packet) == Some(Announced(p))
  {
    hide Deliver;
    DeliverKeeps(p.(current := Some(NewObject(p.nextId).(cmd := PUT)), nextId := p.nextId + 1), EvReqHint, PUT, 0);
  }

  // ---- Sending ----

  lemma {:induction false} PackSendable(q: seq<TxElement>, left: nat, lim: Limits, s: Stream, feed: seq<StreamCall>)
    requires SendableOut(q)
    ensures SendableOut(Pack(q, left, lim, s, feed).queue)
    decreases |q|, |feed|
  {
    if q == [] {
    } else {
      assert Sendable1(q[0]);
      var a := PackStep(q, left, lim, s, feed);
      assert SendableOut(a.queue);
      if a.status.More? { PackSendable(a.queue, a.left, After(lim, a), a.stream, a.feed); }
    }
  }

  /** A packet of headers that are all well-formed, with nothing before them, reads cleanly. */
  lemma SentCleanly(p: Party, allowFinal: bool)
    requires p.current.Some? && p.current.value.nonHeader.None? && SendableOut(p.current.value.txQueue)
    ensures HeadersIn(PacketOf(p, allowFinal, true)).outcome.Clean?
  {
    hide Pack;
    var o := p.current.value;
    assert WellFormedQueue(o.txQueue) by {
      forall i | 0 <= i < |o.txQueue| && o.txQueue[i].TxHeader? ensures WellFormed(o.txQueue[i].header) {
        assert Sendable1(o.txQueue[i]);
      }
    }
    PackWellFormed(o.txQueue, TxBudget(p), TxLimits(p), o.stream, p.feed);
    ParseEncoded(Packed(p).frags, false);
    assert PacketOf(p, allowFinal, true)[3..] == [] + EncodeAll(Packed(p).frags) == EncodeAll(Packed(p).frags);
  }

  /** Small headers always go out, within the budget. */
  lemma {:induction false} PackBrief(q: seq<TxElement>, left: nat, lim: Limits, s: Stream, feed: seq<StreamCall>,
                                     budget: nat)
    requires Preamble(q) && Fitting(q, budget) && budget <= lim.mtu
    ensures var p := Pack(q, left, lim, s, feed);
            && p.status.Full? && Preamble(p.queue) && Fitting(p.queue, budget) && |EncodeAll(p.frags)| <= left
    decreases |q|
  {
    hide EncodedSize;
    if q == [] {
    } else {
      var a := PackStep(q, left, lim, s, feed);
      StepSpends(q, left, lim, s, feed);
      if a.status.More? {
        PackBrief(a.queue, a.left, After(lim, a), a.stream, a.feed, budget);
        EncodeAllAppend(a.frags, Pack(a.queue, a.left, After(lim, a), a.stream, a.feed).frags);
      }
    }
  }

  lemma SentBriefly(p: Party, app: App, allowFinal: bool)
    requires p.current.Some? && app.Brief? && QueueOk(app, p.current.value)
    requires InBudget(app, TxBudget(p), p.mtuTx)
    ensures var packet := PacketOf(p, allowFinal, true); WholePacket(packet) && |packet| <= app.budget + 3
  {
    hide Pack, WholePacket, SendableOut, Preamble, Fitting;
    var o := p.current.value;
    PackBrief(o.txQueue, TxBudget(p), TxLimits(p), o.stream, p.feed, app.budget);
    var payload := [] + EncodeAll(Packed(p).frags);
    FrameIsWhole(PacketOpcode(o, Packed(p).queue, allowFinal, true), payload);
  }

  /** A packet of nothing is bare. */
  lemma SentBare(p: Party, allowFinal: bool)
    requires p.current.Some? && p.current.value.nonHeader.None? && p.current.value.txQueue == []
    ensures WholePacket(PacketOf(p, allowFinal, true)) && |PacketOf(p, allowFinal, true)| == 3
  {
    var o := p.current.value;
    assert Pack([], TxBudget(p), TxLimits(p), o.stream, p.feed).frags == [];
    FrameIsWhole(PacketOpcode(o, [], allowFinal, true), []);
  }

  /** What goes out in a response, or in between. */
  lemma SendAnswers(p: Party, app: App, st: bool, allowFinal: bool)
    requires Serving(p, app, st)
    ensures var (p', sent) := SendObject(p, allowFinal, true);
            p'.fault || sent.SendError? ||
            (&& p'.linkFaults == []
             && Sends(p, p', app, if sent.SendDone? then p.current.value.lastOpcode else p.current.value.opcode))
  {
    hide Pack, RestOk, OpcodesOk, SendableOut, HeadersIn, WholePacket, Tail;
    SendKeeps(p, allowFinal, true);
    NoneLeft<bool>();
    if Measured(app) { SentCleanly(p, allowFinal); }
    if app.Willing? { SentBare(p, allowFinal); }
    if app.Brief? { SentBriefly(p, app, allowFinal); }
  }

  lemma NoneLeft<T>()
    ensures Tail<T>([]) == []
  {
  }

  lemma QueuePacked(p: Party, app: App)
    requires p.current.Some? && QueueOk(app, p.current.value) && InBudget(app, TxBudget(p), p.mtuTx)
    ensures QueueOk(app, p.current.value.(txQueue := Packed(p).queue))
  {
    hide SendableOut;
    var o := p.current.value;
    PackNothing(TxBudget(p), TxLimits(p), o.stream, p.feed);
    if app.Brief? { PackBrief(o.txQueue, TxBudget(p), TxLimits(p), o.stream, p.feed, app.budget); }
    if Measured(app) { PackSendable(o.txQueue, TxBudget(p), TxLimits(p), o.stream, p.feed); }
  }

  /** A packet of a response, or of what goes in between. */
  lemma SendSteady(p: Party, app: App, st: bool, allowFinal: bool, n: nat)
    requires Serving(p, app, st) && n <= |p.events|
    ensures var (p', sent) := SendObject(p, allowFinal, true);
            p'.fault || sent.SendError? ||
            (&& Steady(p, p'.(out := p.out), app, st) && SameReports(p, p', n)
             && p'.current.value.rx == p.current.value.rx && p'.script == p.script
             && Sends(p, p', app, if sent.SendDone? then p.current.value.lastOpcode else p.current.value.opcode)
             && (allowFinal ==> (sent.SendDone? <==> p'.current.value.txQueue == []))
             && p'.current.value.txQueue == Packed(p).queue
             && (!allowFinal ==> sent.SendMore?) && (NoEnd(p.events, n) ==> NoEnd(p'.events, n))
             && p'.current.value.opcode == p.current.value.opcode
             && p'.current.value.lastOpcode == p.current.value.lastOpcode)
  {
    hide Pack, RestOk, Reqs, Chunks, OpcodesOk, SendableOut, Sends, NoEnd;
    var o := p.current.value;
    SendKeeps(p, allowFinal, true);
    ManyMore(p.events, SendObject(p, allowFinal, true).0.events, EvStreamEmpty, IdOf(p.current), n);
    SendAnswers(p, app, st, allowFinal);
    QueuePacked(p, app);
    OpcodesSame(app, o, SendObject(p, allowFinal, true).0.current.value);
  }

  lemma PackNothing(left: nat, lim: Limits, s: Stream, feed: seq<StreamCall>)
    ensures Pack([], left, lim, s, feed).queue == []
  {
  }

  lemma OpcodesSame(app: App, o: Object, o': Object)
    requires o'.opcode == o.opcode && o'.lastOpcode == o.lastOpcode
    ensures OpcodesOk(app, o') == OpcodesOk(app, o)
  {
  }

  // ---- Answers ----

  /** The response in the packet that has just gone out. */
  function AnswerOf(p: Party, p': Party): byte
    requires |p'.out| > |p.out| && |p'.out[|p.out|]| >= 3
  {
    ClearFinal(p'.out[|p.out|][0])
  }

  /** A response that lets the request go on. */
  predicate Interim(app: App, a: byte) {
    Accepting(a) && (Restrained(app) ==> a == CONTINUE)
  }

  /** The request was turned down: it is never reported, and the client is told at once. */
  predicate Refused(s: Party, app: App, n: nat, a: byte) {
    && !Restrained(app) && n <= |s.events| && Reqs(s.events, n) == []
    && a != CONTINUE && (app.Accepter? ==> a != SUCCESS)
  }

  /** The response to a packet that is not the last, by the opcodes the application has left on
      the request: a refusal is the last packet of a response once nothing is queued. */
  function Ruling(p: Party): byte
    requires p.current.Some?
  {
    var o := p.current.value;
    ClearFinal(if !Accepting(o.opcode) && Packed(p).queue == [] then o.lastOpcode else o.opcode)
  }

  /** The server, given this packet, would answer SUCCESS to a request it does not have yet. */
  predicate AnswersEarly(p: Party, packet: seq<byte>)
    requires |packet| >= 3
  {
    && Taker(p, packet).Some?
    && var d := Deciding(Taker(p, packet).value, packet);
    d.Some? && d.value.current.Some? && Ruling(d.value) == SUCCESS
  }

  /** The request was reported whole, and is being answered or done. */
  predicate Reported(s: Party, app: App, st: bool, n: nat, whole: seq<Header>, a: byte) {
    && n <= |s.events| && Told(s.events, n, whole, st)
    && ((Answering(s, app, st, n) && s.current.value.txQueue != [] &&
        (Restrained(app) ==> a == CONTINUE)) ||
        (Rested(s) && RestOk(app, s.script) && a != CONTINUE && (app.Willing? ==> a == SUCCESS)))
  }

  lemma OpcodeFact(op: byte)
    ensures ClearFinal(SetFinal(op)) == ClearFinal(op)
    ensures ClearFinal(op) == CONTINUE ==> Accepting(op)
    ensures Accepting(ClearFinal(op)) == Accepting(op)
    ensures ClearFinal(CONTINUE) == CONTINUE && ClearFinal(SUCCESS) == SUCCESS &&
             ClearFinal(NOT_IMPLEMENTED) == NOT_IMPLEMENTED
  {
  }

  lemma OpcodeFacts(app: App, o: Object)
    requires OpcodesOk(app, o)
    ensures ClearFinal(o.lastOpcode) != CONTINUE && (app.Willing? ==> ClearFinal(o.lastOpcode) == SUCCESS)
    ensures Accepting(o.opcode) ==> Interim(app, ClearFinal(o.opcode))
    ensures Restrained(app) ==> Accepting(o.opcode) && ClearFinal(o.opcode) == CONTINUE
    ensures !Accepting(o.opcode) ==> ClearFinal(o.opcode) != CONTINUE
    ensures !Accepting(o.opcode) && app.Accepter? ==> o.opcode == NOT_IMPLEMENTED && o.lastOpcode == NOT_IMPLEMENTED
    ensures ClearFinal(SetFinal(o.opcode)) == ClearFinal(o.opcode)
    ensures ClearFinal(SetFinal(o.lastOpcode)) == ClearFinal(o.lastOpcode)
  {
    hide Accepting, ClearFinal, SetFinal;
    OpcodeFact(o.opcode);
    OpcodeFact(o.lastOpcode);
  }

  lemma LastReply(p: Party, app: App, st: bool, n: nat)
    requires Serving(p, app, st) && n <= |p.events|
    ensures var p' := Deliver(ServerIdle(p), EvReqDone, PUT, 0, true);
            Rested(p') && RestOk(app, p'.script) && SameReports(p, p', n) && p'.out == p.out
  {
    hide Deliver, Reqs, Chunks, RestOk, OpcodesOk, QueueOk, Received;
    var p0 := ServerIdle(p);
    CallsNow(app, p.script);
    DeliverOut(p0, EvReqDone, PUT, 0, true);
    Delivered(p0, EvReqDone, PUT, 0, true);
    OneMore(p0.events, EventOf(p0, EvReqDone, PUT, 0), n);
  }

  /** The application is told of a packet of the response that is not its last. */
  lemma MoreReply(p: Party, app: App, st: bool, n: nat)
    requires Answering(p, app, st, n)
    ensures var p1 := Deliver(p, EvProgress, PUT, 0, false);
            && p1.current.Some?
            && var p' := Update(p1, p1.current.value.(firstSent := true, continueReceived := false));
            && Answering(p', app, st, n) && SameReports(p, p', n) && p'.out == p.out
            && (p.current.value.txQueue != [] ==> p'.current.value.txQueue != [])
  {
    hide Deliver, Reqs, Chunks, RestOk, OpcodesOk, QueueOk, NoEnd;
    Notified(p, app, st, EvProgress, PUT, n);
    var p1 := Deliver(p, EvProgress, PUT, 0, false);
    SameQueueOk(app, p1.current.value, p1.current.value.(firstSent := true, continueReceived := false));
  }

  /** The next packet of a response: the last one ends the request. */
  lemma Replies(p: Party, app: App, st: bool, n: nat)
    requires Answering(p, app, st, n)
    ensures var p' := ServerReply(p, PUT);
            || Stopped(p')
            || (&& SameReports(p, p', n) && OneAnswer(p, p', app)
                && (Packed(p).queue == [] <==> p'.current.None?)
                && ((Answering(p', app, st, n) && p'.current.value.txQueue != []
                     && AnswerOf(p, p') == ClearFinal(p.current.value.opcode))
                    || (Rested(p') && RestOk(app, p'.script)
                        && AnswerOf(p, p') == ClearFinal(p.current.value.lastOpcode))))
  {
    hide Packed, SendObject, Deliver, Reqs, Chunks, LinkErrorIn, HeadersIn, RestOk, OpcodesOk, QueueOk, Received, NoEnd,
         WholePacket, Most;
    var o := p.current.value;
    OpcodeFacts(app, o);
    var p0 := Update(p, o.(continueReceived := true));
    SameQueueOk(app, o, p0.current.value);
    PackedSame(p, p0.current.value);
    SendSteady(p0, app, st, true, n);
    var (p1, sent) := SendObject(p0, true, true);
    DeliverOut(p1, EvLinkErr, PUT, 0, true);
    if !p1.fault && !sent.SendError? {
      if sent.SendDone? {
        LastReply(p1, app, st, n);
      } else {
        assert sent.SendMore?;
        MoreReply(p1, app, st, n);
      }
    }
  }

  /** The first packet has been shown to the application. */
  lemma CheckedSteady(p: Party, app: App, st: bool, n: nat, sim: Rx)
    requires Taking(p, app, st, n) && Holds(p, n, sim)
    ensures var p' := Checked(p, PUT);
            Taking(p', app, st, n) && Holds(p', n, sim) && p'.out == p.out && SameHandle(p, p')
  {
    hide Deliver, Reqs, Chunks, RestOk, OpcodesOk, QueueOk, Holds;
    Notified(p, app, st, EvReqCheck, PUT, n);
    var p1 := Deliver(p, EvReqCheck, PUT, 0, false);
    HoldsSame(p, p1, n, sim);
    SameQueueOk(app, p1.current.value, p1.current.value.(checked := true));
    if !p.current.value.checked { HoldsSame(p1, Checked(p, PUT), n, sim); }
  }

  /** A packet that is not the last, answered or refused. */
  lemma AnswersMore(p: Party, app: App, st: bool, packet: seq<byte>, n: nat, sim: Rx)
    requires Taking(p, app, st, n) && Holds(p, n, sim) && |packet| >= 3
    ensures var p' := ServerMore(p, packet, PUT);
            || Stopped(p')
            || (&& OneAnswer(p, p', app) && AnswerOf(p, p') == Ruling(p)
                && ((Taking(p', app, st, n) && Holds(p', n, sim) && Interim(app, AnswerOf(p, p')))
                    || Refused(p', app, n, AnswerOf(p, p'))))
  {
    hide SendObject, Deliver, Reqs, Chunks, LinkErrorIn, HeadersIn, RestOk, OpcodesOk, QueueOk, Holds, ServerRequest,
         Packed;
    OpcodeFacts(app, p.current.value);
    if Accepting(p.current.value.opcode) {
      SendSteady(p, app, st, false, n);
      var (p1, sent) := SendObject(p, false, true);
      DeliverOut(p1, EvLinkErr, PUT, 0, true);
      if !p1.fault && !sent.SendError? {
        HoldsSame(p, p1, n, sim);
        Notified(p1, app, st, EvProgress, PUT, n);
        HoldsSame(p1, Deliver(p1, EvProgress, PUT, 0, false), n, sim);
      }
    } else {
      RefusesNow(p, app, st, packet, n);
    }
  }

  /** A request refused is answered at once, and is not reported. */
  lemma RefusesNow(p: Party, app: App, st: bool, packet: seq<byte>, n: nat)
    requires Taking(p, app, st, n) && !Accepting(p.current.value.opcode) && |packet| >= 3
    ensures var p' := ServerRequest(p, packet, PUT, true);
            || Stopped(p')
            || (OneAnswer(p, p', app) && AnswerOf(p, p') == Ruling(p) && Refused(p', app, n, AnswerOf(p, p')))
  {
    hide Reqs, Chunks, LinkErrorIn, HeadersIn, RestOk, OpcodesOk, QueueOk, ServerReply, Packed;
    OpcodeFacts(app, p.current.value);
    var p1 := p.(state := Responding, serverMode := true);
    assert ServerRequest(p, packet, PUT, true) == ServerReply(p1, PUT);
    Replies(p1, app, st, n);
    PackedWhole(p, p1);
  }

  lemma PackedWhole(p: Party, p1: Party)
    requires p.current.Some? && p1 == p.(state := p1.state, serverMode := p1.serverMode)
    ensures Packed(p1) == Packed(p)
  {
  }

  /** A packet of the request that is not its last. */
  lemma TakesMore(p: Party, app: App, st: bool, packet: seq<byte>, n: nat, sim: Rx)
    requires Taking(p, app, st, n) && Holds(p, n, sim)
    requires |packet| >= 3 && packet[0] == PUT && HeadersIn(packet).outcome.Clean?
    ensures var p' := ServerReceive(p, packet);
            || Stopped(p')
            || (&& OneAnswer(p, p', app)
                && Deciding(p, packet).Some? && Deciding(p, packet).value.current.Some?
                && AnswerOf(p, p') == Ruling(Deciding(p, packet).value)
                && ((Taking(p', app, st, n) && Holds(p', n, StoreAll(sim, HeadersIn(packet).headers))
                     && Interim(app, AnswerOf(p, p')))
                    || Refused(p', app, n, AnswerOf(p, p'))))
  {
    hide Receive, ServerMore, Checked, StoreAll, HeadersIn, Reqs, LinkErrorIn, RestOk, OpcodesOk, QueueOk, Holds;
    TakenIn(p, app, st, packet, n, sim);
    var p1 := Receive(p, packet).0;
    var sim' := StoreAll(sim, HeadersIn(packet).headers);
    CheckedSteady(p1, app, st, n, sim');
    AnswersMore(Checked(p1, PUT), app, st, packet, n, sim');
    assert ServerReceive(p, packet) == ServerMore(Checked(p1, PUT), packet, PUT);
  }

  /** The request is complete: it is reported with everything that has come in. */
  lemma Reports(p: Party, app: App, st: bool, n: nat, sim: Rx)
    requires Taking(p, app, st, n) && Holds(p, n, sim) && sim.body.None?
    ensures var p' := Deliver(p, EvReq, PUT, 0, false);
            Steady(p, p', app, st) && n <= |p'.events| && Told(p'.events, n, Received(sim), st) && NoEnd(p'.events, n)
  {
    hide Deliver, Reqs, Chunks, RestOk, OpcodesOk, QueueOk, Received, Plain, Assemble, BodyValues;
    Notified(p, app, st, EvReq, PUT, n);
    var report := Report(PUT, Received(p.current.value.rx));
    assert [] + [report] == [report];
  }

  /** The last packet of the request. */
  lemma TakesLast(p: Party, app: App, st: bool, packet: seq<byte>, n: nat, sim: Rx)
    requires Taking(p, app, st, n) && Holds(p, n, sim)
    requires |packet| >= 3 && packet[0] == SetFinal(PUT) && HeadersIn(packet).outcome.Clean?
    requires StoreAll(sim, HeadersIn(packet).headers).body.None?
    ensures var p' := ServerReceive(p, packet);
            || Stopped(p')
            || (OneAnswer(p, p', app)
                && Reported(p', app, st, n, Received(StoreAll(sim, HeadersIn(packet).headers)), AnswerOf(p, p')))
  {
    hide Receive, Deliver, StoreAll, HeadersIn, Reqs, Chunks, LinkErrorIn, RestOk, OpcodesOk, QueueOk, Holds, Told,
         Received, ServerReply;
    TakenIn(p, app, st, packet, n, sim);
    var p1 := Receive(p, packet).0;
    var sim' := StoreAll(sim, HeadersIn(packet).headers);
    Reports(p1, app, st, n, sim');
    var p2 := Deliver(p1, EvReq, PUT, 0, false).(state := Responding, serverMode := true);
    assert ServerReceive(p, packet) == ServerReply(p2, PUT);
    OpcodeFacts(app, p2.current.value);
    Replies(p2, app, st, n);
    var p' := ServerReply(p2, PUT);
    if !Stopped(p') { ToldStays(p2.events, p'.events, n, Received(sim'), st); }
  }

  /** A client that only asks on gets the next packet of the response. */
  lemma GoesOn(p: Party, app: App, st: bool, packet: seq<byte>, n: nat, whole: seq<Header>)
    requires Answering(p, app, st, n) && Told(p.events, n, whole, st) && packet == Frame(SetFinal(PUT), [])
    ensures var p' := ServerStep(p, packet);
            Stopped(p') || (OneAnswer(p, p', app) && Reported(p', app, st, n, whole, AnswerOf(p, p')))
  {
    hide Reqs, Chunks, LinkErrorIn, HeadersIn, RestOk, OpcodesOk, QueueOk, Told, ServerReply;
    OpcodeFacts(app, p.current.value);
    Replies(p, app, st, n);
    assert ServerStep(p, packet) == ServerReply(p, PUT);
    var p' := ServerReply(p, PUT);
    if !Stopped(p') { ToldStays(p.events, p'.events, n, whole, st); }
  }
}
