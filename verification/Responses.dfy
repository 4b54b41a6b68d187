/**
 What a client is told when its request ends: the headers of the server's response, over however
 many packets and whatever the request. The server's side is followed through every step, for
 any command but CONNECT, whose answers carry other data in front of their headers.
 */
module Responses {
  import opened Octets
  import opened Headers
  import opened Fragmenter
  import opened Reassembler
  import opened Framing
  import opened Session
  import opened SessionFacts
  import opened Events
  import opened Lifetime
  import opened Lockstep
  import opened Put
  import opened PutServer
  import opened Queueing
  import opened PutAdds
  import opened Reports

  // ---- What an application offers ----

  /** The call begins a stream. */
  predicate StartsStream(c: ApiCall) {
    c.AddHeader? && c.streamStart
  }

  /** A call that puts nothing into a response but headers that can be sent, or a stream, and does
      not ask the client to go on after the last packet. An application that responds with a
      stream does not take the request as one. */
  predicate Responsive(c: ApiCall, streams: bool) {
    && (c.AddHeader? ==> if c.streamStart then streams else Addition(c))
    && (c.SetResponse? ==> ClearFinal(c.last) != CONTINUE)
    && !c.SetNonHeaderData? && (streams ==> !c.EnableStream?)
  }

  predicate AllResponsive(calls: seq<ApiCall>, streams: bool) {
    forall i :: 0 <= i < |calls| ==> Responsive(calls[i], streams)
  }

  predicate ResponsiveScript(script: seq<seq<ApiCall>>, streams: bool) {
    forall i :: 0 <= i < |script| ==> AllResponsive(script[i], streams)
  }

  /** The streams begun by these calls. */
  function Streamings(calls: seq<ApiCall>): nat {
    if calls == [] then 0 else (if StartsStream(calls[0]) then 1 else 0) + Streamings(calls[1..])
  }

  lemma {:induction false} StreamingsAppend(a: seq<ApiCall>, b: seq<ApiCall>)
    ensures Streamings(a + b) == Streamings(a) + Streamings(b)
  {
    if a == [] {
      assert a + b == b;
    } else {
      assert (a + b)[1..] == a[1..] + b;
      StreamingsAppend(a[1..], b);
    }
  }

  /** The header of a call, if it adds one and the object accepts it; a stream stands for all that
      the application will feed it with. */
  function OfferedOne(o: Object, mtuTx: u16, feed: seq<StreamCall>, c: ApiCall): seq<Header> {
    if StartsStream(c) then [Header(BODY, FeedContent(feed))] else if c.AddHeader? then Accepted(o, mtuTx, c) else []
  }

  /** The headers that these calls put into the queue, one after another. */
  function Offered(o: Object, mtuTx: u16, feed: seq<StreamCall>, calls: seq<ApiCall>): seq<Header>
    decreases |calls|
  {
    if calls == [] then []
    else OfferedOne(o, mtuTx, feed, calls[0]) + Offered(Apply(o, mtuTx, calls[0]), mtuTx, feed, calls[1..])
  }

  lemma {:induction false} OfferedAppend(o: Object, mtuTx: u16, feed: seq<StreamCall>, a: seq<ApiCall>, b: seq<ApiCall>)
    ensures ApplyAll(o, mtuTx, a + b) == ApplyAll(ApplyAll(o, mtuTx, a), mtuTx, b)
    ensures Offered(o, mtuTx, feed, a + b) ==
            Offered(o, mtuTx, feed, a) + Offered(ApplyAll(o, mtuTx, a), mtuTx, feed, b)
    decreases |a|
  {
    hide Apply, OfferedOne;
    if a == [] {
      assert a + b == b;
    } else {
      assert (a + b)[0] == a[0] && (a + b)[1..] == a[1..] + b;
      var o1 := Apply(o, mtuTx, a[0]);
      OfferedAppend(o1, mtuTx, feed, a[1..], b);
      Associate(OfferedOne(o, mtuTx, feed, a[0]), Offered(o1, mtuTx, feed, a[1..]),
                Offered(ApplyAll(o, mtuTx, a), mtuTx, feed, b));
    }
  }

  lemma OfferedByTotal(o: Object, o': Object, mtuTx: u16, feed: seq<StreamCall>, c: ApiCall)
    requires o'.total == o.total
    ensures OfferedOne(o', mtuTx, feed, c) == OfferedOne(o, mtuTx, feed, c)
    ensures Apply(o', mtuTx, c).total == Apply(o, mtuTx, c).total
  {
    hide Apply, Accepts;
    if c.AddHeader? { AcceptsAlike(o, o', mtuTx, c); }
    TotalAlike(o, o', mtuTx, c);
  }

  /** What a call adds to the running total. */
  lemma TotalAfter(o: Object, mtuTx: u16, c: ApiCall)
    ensures Apply(o, mtuTx, c).total ==
            o.total + if c.AddHeader? && !c.streamStart && c.hi != EMPTY
                         && Accepts(o, mtuTx, c.hi, c.hv, c.fitOnePacket)
                      then EncodedSize(HeaderOf(c.hi, c.hv)) else 0
  {
    hide HeaderOf, EncodedSize, Encode, Accepts, Next, Reparse;
  }

  lemma TotalAlike(o: Object, o': Object, mtuTx: u16, c: ApiCall)
    requires o'.total == o.total
    ensures Apply(o', mtuTx, c).total == Apply(o, mtuTx, c).total
  {
    hide Apply, HeaderOf, EncodedSize, Accepts;
    TotalAfter(o, mtuTx, c);
    TotalAfter(o', mtuTx, c);
    if c.AddHeader? { AcceptsAlike(o, o', mtuTx, c); }
  }

  /** Whether a header is taken depends on nothing but what has been queued before. */
  lemma {:induction false} OfferedAlike(o: Object, o': Object, mtuTx: u16, feed: seq<StreamCall>, calls: seq<ApiCall>)
    requires o'.total == o.total
    ensures Offered(o', mtuTx, feed, calls) == Offered(o, mtuTx, feed, calls)
    ensures ApplyAll(o', mtuTx, calls).total == ApplyAll(o, mtuTx, calls).total
    decreases |calls|
  {
    hide Apply, OfferedOne;
    if calls == [] {
    } else {
      OfferedByTotal(o, o', mtuTx, feed, calls[0]);
      OfferedAlike(Apply(o, mtuTx, calls[0]), Apply(o', mtuTx, calls[0]), mtuTx, feed, calls[1..]);
    }
  }

  /** All calls of the first k entries. */
  function Spoken(script: seq<seq<ApiCall>>, k: nat): seq<ApiCall> {
    if k == 0 || script == [] then [] else script[0] + Spoken(script[1..], k - 1)
  }

  function Entry(script: seq<seq<ApiCall>>, k: nat): seq<ApiCall> {
    if k < |script| then script[k] else []
  }

  function Unspoken(script: seq<seq<ApiCall>>, k: nat): seq<seq<ApiCall>> {
    script[Min(k, |script|)..]
  }

  lemma {:induction false} SpokenMore(script: seq<seq<ApiCall>>, k: nat)
    ensures Spoken(script, k + 1) == Spoken(script, k) + Entry(script, k)
    ensures Tail(Unspoken(script, k)) == Unspoken(script, k + 1)
    ensures (if Unspoken(script, k) == [] then [] else Unspoken(script, k)[0]) == Entry(script, k)
    decreases k
  {
    if script == [] {
    } else if k == 0 {
      assert script[0] + [] == script[0] && [] + script[0] == script[0];
    } else {
      SpokenMore(script[1..], k - 1);
      Associate(script[0], Spoken(script[1..], k - 1), Entry(script[1..], k - 1));
    }
  }

  /** What the server's application has queued for the response in its first k reactions. */
  function Contributed(script: seq<seq<ApiCall>>, mtuTx: u16, feed: seq<StreamCall>, k: nat): seq<Header> {
    Offered(NewObject(0), mtuTx, feed, Spoken(script, k))
  }

  /** At most one stream is ever begun. */
  predicate OneStream(script: seq<seq<ApiCall>>) {
    Streamings(Spoken(script, |script|)) <= 1
  }

  lemma {:induction false} SpokenWithin(script: seq<seq<ApiCall>>, k: nat)
    ensures Streamings(Spoken(script, k)) <= Streamings(Spoken(script, |script|))
    decreases |script|
  {
    if script == [] || k == 0 {
    } else {
      SpokenWithin(script[1..], k - 1);
      StreamingsAppend(script[0], Spoken(script[1..], k - 1));
      StreamingsAppend(script[0], Spoken(script[1..], |script| - 1));
    }
  }

  // ---- An object whose response is under way ----

  /** How an application responds: always with CONTINUE until the last packet, and with a stream
      fed in this way. */
  datatype Manner = Manner(patient: bool, streams: bool, feed: seq<StreamCall>)

  predicate MannerOk(z: Manner) {
    z.streams ==> WellFed(Stream([], false), z.feed)
  }

  predicate NoStream(q: seq<TxElement>) {
    forall i :: 0 <= i < |q| ==> !q[i].TxStream?
  }

  /** What the other side holds, and what is queued here, make up these headers. */
  predicate Level(rx: Rx, o: Object, feed: seq<StreamCall>, z: Manner, whole: seq<Header>) {
    if z.streams then InStep(rx, o.txQueue, o.stream, feed, whole)
    else InStep(rx, o.txQueue, Stream([], true), [], whole)
  }

  /** The response so far: what the receiver holds and what is queued are what has been offered. */
  predicate Voiced(o: Object, feed: seq<StreamCall>, z: Manner, begun: bool, rx: Rx, whole: seq<Header>) {
    && MannerOk(z) && o.nonHeader.None? && ClearFinal(o.lastOpcode) != CONTINUE
    && (z.patient ==> ClearFinal(o.opcode) == CONTINUE)
    && (z.streams ==> !o.rx.streaming)
    && (z.streams && !begun ==> o.stream == Stream([], false) && feed == z.feed)
    && (!z.streams || !begun ==> NoStream(o.txQueue))
    && Level(rx, o, feed, z, whole)
  }

  /** Any response it sets is CONTINUE. */
  predicate AnswersContinue(calls: seq<ApiCall>) {
    forall i :: 0 <= i < |calls| && calls[i].SetResponse? ==> calls[i].rsp == CONTINUE
  }

  lemma StepAdded(rx: Rx, q: seq<TxElement>, e: TxElement, s: Stream, feed: seq<StreamCall>, whole: seq<Header>)
    requires InStep(rx, q, s, feed, whole) && !e.TxStream?
    requires e.TxHeader? ==> WellFormed(e.header) && !IsBody(e.header.hi)
    ensures InStep(rx, q + [e], s, feed, whole + MeaningOf(e))
  {
    hide Meaning, Received, WellFormed;
    if q == [] {
      assert q + [e] == [e] && [e][1..] == [];
      MeaningAppend([], e, s, feed);
      PendingNothing([e], s, feed);
      NothingMeant(s, feed);
      assert Received(rx) + [] == Received(rx) && [] + MeaningOf(e) == MeaningOf(e);
    } else {
      AddedInStep(rx, q, e, s, feed, whole);
    }
  }

  lemma NothingMeant(s: Stream, feed: seq<StreamCall>)
    ensures Meaning([], s, feed) == []
  {
  }

  lemma LevelAdded(rx: Rx, o: Object, o': Object, e: TxElement, feed: seq<StreamCall>, z: Manner, whole: seq<Header>)
    requires Level(rx, o, feed, z, whole) && !e.TxStream?
    requires e.TxHeader? ==> WellFormed(e.header) && !IsBody(e.header.hi)
    requires o'.txQueue == o.txQueue + [e] && o'.stream == o.stream
    ensures Level(rx, o', feed, z, whole + MeaningOf(e))
  {
    hide InStep, WellFormed, MeaningOf;
    if z.streams {
      StepAdded(rx, o.txQueue, e, o.stream, feed, whole);
    } else {
      StepAdded(rx, o.txQueue, e, Stream([], true), [], whole);
    }
  }

  /** A stream that has not begun to be sent comes behind everything else. */
  lemma StreamAdded(rx: Rx, q: seq<TxElement>, s: Stream, feed: seq<StreamCall>, whole: seq<Header>)
    requires InStep(rx, q, s, feed, whole) && NoStream(q) && WellFed(s, feed)
    ensures InStep(rx, q + [TxStream], s, feed, whole + [Header(BODY, Content(s, feed))])
  {
    hide Meaning, Received, WellFed, Content, WellFormed;
    var more := [Header(BODY, Content(s, feed))];
    FirstStream(q, s, feed);
    if q == [] {
      assert q + [TxStream] == [TxStream];
      PendingNothing([TxStream], s, feed);
      NothingMeant(s, feed);
      assert Received(rx) + [] == Received(rx) && [] + more == more;
    } else {
      assert (q + [TxStream])[0] == q[0] && (q + [TxStream])[1..] == q[1..] + [TxStream];
      FirstStream(q[1..], s, feed);
      StreamBehind(rx.body, q, s, feed);
      Associate(Received(rx), Pending(rx.body, q, s, feed), more);
    }
  }

  lemma StreamBehind(body: Option<seq<byte>>, q: seq<TxElement>, s: Stream, feed: seq<StreamCall>)
    requires q != [] && NoStream(q)
    ensures Pending(body, q + [TxStream], s, feed) ==
            Pending(body, q, s, feed) + [Header(BODY, Content(s, feed))]
  {
    assert (q + [TxStream])[0] == q[0] && (q + [TxStream])[1..] == q[1..] + [TxStream];
    FirstStream(q, s, feed);
    FirstStream(q[1..], s, feed);
  }

  /** What a call leaves alone, and what it does to the queue. */
  lemma OneVoiced(o: Object, mtuTx: u16, c: ApiCall, feed: seq<StreamCall>, z: Manner, begun: bool, rx: Rx,
                  whole: seq<Header>)
    requires Voiced(o, feed, z, begun, rx, whole) && Responsive(c, z.streams) && !StartsStream(c)
    requires z.patient && c.SetResponse? ==> c.rsp == CONTINUE
    ensures Voiced(Apply(o, mtuTx, c), feed, z, begun, rx, whole + OfferedOne(o, mtuTx, z.feed, c))
  {
    hide InStep, HeaderOf, Accepts, Accepted, Encode, MeaningOf, WellFormed, WellFed;
    assert whole + [] == whole;
    if c.AddHeader? {
      var es := AddedElement(o, mtuTx, c);
      HeaderKeepsId(c.hi, c.hv);
      if es == [] {
        assert o.txQueue + es == o.txQueue;
      } else {
        assert es == [es[0]];
        LevelAdded(rx, o, Apply(o, mtuTx, c), es[0], feed, z, whole);
      }
    }
  }

  lemma OneBegun(o: Object, mtuTx: u16, c: ApiCall, feed: seq<StreamCall>, z: Manner, rx: Rx, whole: seq<Header>)
    requires Voiced(o, feed, z, false, rx, whole) && Responsive(c, z.streams) && StartsStream(c)
    ensures Voiced(Apply(o, mtuTx, c), feed, z, true, rx, whole + OfferedOne(o, mtuTx, z.feed, c))
  {
    hide InStep, WellFed;
    StreamAdded(rx, o.txQueue, o.stream, feed, whole);
    assert Content(o.stream, feed) == FeedContent(z.feed);
  }

  lemma {:induction false} ManyVoiced(o: Object, mtuTx: u16, calls: seq<ApiCall>, feed: seq<StreamCall>, z: Manner,
                                      begun: bool, rx: Rx, whole: seq<Header>)
    requires Voiced(o, feed, z, begun, rx, whole) && AllResponsive(calls, z.streams)
    requires z.patient ==> AnswersContinue(calls)
    requires Streamings(calls) <= if begun then 0 else 1
    ensures Voiced(ApplyAll(o, mtuTx, calls), feed, z, begun || Streamings(calls) > 0, rx,
                   whole + Offered(o, mtuTx, z.feed, calls))
    decreases |calls|
  {
    hide Apply, OfferedOne, Voiced, Responsive;
    if calls == [] {
      assert whole + [] == whole;
    } else {
      if StartsStream(calls[0]) {
        OneBegun(o, mtuTx, calls[0], feed, z, rx, whole);
      } else {
        OneVoiced(o, mtuTx, calls[0], feed, z, begun, rx, whole);
      }
      var o1 := Apply(o, mtuTx, calls[0]);
      var more := OfferedOne(o, mtuTx, z.feed, calls[0]);
      ManyVoiced(o1, mtuTx, calls[1..], feed, z, begun || StartsStream(calls[0]), rx, whole + more);
      Associate(whole, more, Offered(o1, mtuTx, z.feed, calls[1..]));
    }
  }

  // ---- Sending ----

  /** Without streams, what the queue stands for does not depend on any. */
  lemma {:induction false} MeaningAlike(q: seq<TxElement>, s: Stream, feed: seq<StreamCall>, s': Stream,
                                        feed': seq<StreamCall>)
    requires NoStream(q)
    ensures Meaning(q, s', feed') == Meaning(q, s, feed)
  {
    if q == [] {
    } else {
      MeaningAlike(q[1..], s, feed, s', feed');
    }
  }

  lemma StepAlike(rx: Rx, q: seq<TxElement>, s: Stream, feed: seq<StreamCall>, s': Stream, feed': seq<StreamCall>,
                  whole: seq<Header>)
    requires NoStream(q)
    ensures InStep(rx, q, s, feed, whole) <==> InStep(rx, q, s', feed', whole)
  {
    hide Received, WellFed;
    MeaningAlike(q, s, feed, s', feed');
    if q != [] { MeaningAlike(q[1..], s, feed, s', feed'); }
  }

  /** A queue without streams is packed without asking for any. */
  lemma {:induction false} PackStreamless(q: seq<TxElement>, left: nat, lim: Limits, s: Stream, feed: seq<StreamCall>)
    requires NoStream(q)
    ensures var p := Pack(q, left, lim, s, feed); NoStream(p.queue) && p.stream == s && p.feed == feed
    decreases |q|
  {
    if q == [] {
    } else {
      var a := PackStep(q, left, lim, s, feed);
      assert NoStream(a.queue) && a.stream == s && a.feed == feed;
      if a.status.More? { PackStreamless(a.queue, a.left, After(lim, a), a.stream, a.feed); }
    }
  }

  lemma VoicedSendable(o: Object, feed: seq<StreamCall>, z: Manner, begun: bool, rx: Rx, whole: seq<Header>)
    requires Voiced(o, feed, z, begun, rx, whole)
    ensures WellFormedQueue(o.txQueue)
  {
    hide Received, WellFormed, WellFed, Pending;
  }

  /** The packet that goes out next takes the receiver on by what it takes off the queue. */
  lemma VoicedSent(p: Party, allowFinal: bool, z: Manner, begun: bool, rx: Rx, whole: seq<Header>)
    requires p.current.Some? && Voiced(p.current.value, p.feed, z, begun, rx, whole) && Packed(p).status.Full?
    ensures var parsed := HeadersIn(PacketOf(p, allowFinal, true));
            var k := Packed(p);
            && parsed.outcome.Clean?
            && Voiced(p.current.value.(txQueue := k.queue, stream := k.stream), k.feed, z, begun,
                      StoreAll(rx, parsed.headers), whole)
  {
    hide Pack, InStep, StoreAll, HeadersIn, WellFed;
    var o, k := p.current.value, Packed(p);
    VoicedSendable(o, p.feed, z, begun, rx, whole);
    SentHeaders(p, allowFinal);
    if !z.streams || !begun {
      PackStreamless(o.txQueue, TxBudget(p), TxLimits(p), o.stream, p.feed);
      StepAlike(rx, o.txQueue, o.stream, p.feed, Stream([], true), [], whole);
      StepAlike(StoreAll(rx, k.frags), k.queue, k.stream, k.feed, Stream([], true), [], whole);
    }
    PackKeeps(rx, o.txQueue, TxBudget(p), TxLimits(p), o.stream, p.feed, whole);
  }

  lemma SentHeaders(p: Party, allowFinal: bool)
    requires p.current.Some? && p.current.value.nonHeader.None? && WellFormedQueue(p.current.value.txQueue)
    ensures HeadersIn(PacketOf(p, allowFinal, true)) == Parsed(Packed(p).frags, Clean)
  {
    hide Pack;
    var o := p.current.value;
    PackWellFormed(o.txQueue, TxBudget(p), TxLimits(p), o.stream, p.feed);
    ParseEncoded(Packed(p).frags, false);
    assert PacketOf(p, allowFinal, true)[3..] == [] + EncodeAll(Packed(p).frags) == EncodeAll(Packed(p).frags);
  }

  // ---- The server ----

  /** Events at which the application may put something into the response. */
  function Reactions(events: seq<Event>, n: nat): nat
    decreases |events|
  {
    if |events| <= n then 0
    else
      var last := events[|events| - 1];
      Reactions(events[..|events| - 1], n) + if Terminal(last.kind) || last.kind.EvStreamEmpty? then 0 else 1
  }

  lemma OneReaction(events: seq<Event>, e: Event, n: nat)
    requires n <= |events|
    ensures Reactions(events + [e], n) ==
            Reactions(events, n) + if Terminal(e.kind) || e.kind.EvStreamEmpty? then 0 else 1
  {
    assert (events + [e])[..|events|] == events;
  }

  lemma {:induction false} NoReactions(before: seq<Event>, after: seq<Event>, id: Option<nat>, n: nat)
    requires Adds(before, after, EvStreamEmpty, id) && n <= |before|
    ensures Reactions(after, n) == Reactions(before, n) && (NoEnd(before, n) ==> NoEnd(after, n))
    decreases |after|
  {
    if |after| == |before| {
      assert after == before;
    } else {
      var init := after[..|after| - 1];
      NoReactions(before, init, id, n);
      OneReaction(init, after[|after| - 1], n);
      assert init + [after[|after| - 1]] == after;
    }
  }

  /** What a response is about: the application's script and manner, how many events the server had
      on record before, and its packet size. */
  datatype Talk = Talk(script: seq<seq<ApiCall>>, n: nat, mtu: u16, z: Manner)

  predicate TalkOk(y: Talk) {
    && ResponsiveScript(y.script, y.z.streams) && MannerOk(y.z) && OneStream(y.script)
    && (y.z.patient ==> forall i :: 0 <= i < |y.script| ==> AnswersContinue(y.script[i]))
  }

  function Whole(s: Party, y: Talk): seq<Header> {
    Contributed(y.script, y.mtu, y.z.feed, Reactions(s.events, y.n))
  }

  /** The stream has been begun in the first k reactions. */
  predicate Begun(y: Talk, k: nat) {
    Streamings(Spoken(y.script, k)) > 0
  }

  /** In the middle of a request, the receiver holding this much of the response. */
  predicate Speaking(s: Party, y: Talk, rx: Rx) {
    && TalkOk(y) && s.serverMode && !s.fault && s.linkFaults == [] && s.mtuTx == y.mtu && s.current.Some?
    && (s.state.Receiving? || s.state.Responding?)
    && y.n <= |s.events| && NoEnd(s.events, y.n)
    && Reactions(s.events, y.n) >= 1 && s.script == Unspoken(y.script, Reactions(s.events, y.n))
    && s.current.value.total == ApplyAll(NewObject(0), y.mtu, Spoken(y.script, Reactions(s.events, y.n))).total
    && Voiced(s.current.value, s.feed, y.z, Begun(y, Reactions(s.events, y.n)), rx, Whole(s, y))
  }

  /** The request answered whole. */
  predicate Spoke(s: Party, y: Talk, rx: Rx) {
    && Rested(s) && |s.events| > y.n && s.events[|s.events| - 1].kind.EvReqDone?
    && NoEnd(s.events[..|s.events| - 1], y.n)
    && Received(rx) == Whole(s, y) && rx.body.None? && Reactions(s.events, y.n) >= 1
  }

  /** The request given up, because of an ABORT or because it made no sense. */
  predicate Dropped(s: Party, y: Talk) {
    && Rested(s) && |s.events| > y.n
    && var last := s.events[|s.events| - 1]; last.kind.EvAbort? || last.kind.EvParseErr?
  }

  lemma NextCalls(y: Talk, k: nat)
    requires TalkOk(y)
    ensures AllResponsive(Entry(y.script, k), y.z.streams) && (y.z.patient ==> AnswersContinue(Entry(y.script, k)))
    ensures Streamings(Entry(y.script, k)) <= if Begun(y, k) then 0 else 1
    ensures Begun(y, k + 1) <==> Begun(y, k) || Streamings(Entry(y.script, k)) > 0
  {
    hide Spoken, Streamings;
    SpokenMore(y.script, k);
    StreamingsAppend(Spoken(y.script, k), Entry(y.script, k));
    SpokenWithin(y.script, k + 1);
  }

  lemma ContributedMore(script: seq<seq<ApiCall>>, mtuTx: u16, feed: seq<StreamCall>, k: nat, o: Object)
    requires o.total == ApplyAll(NewObject(0), mtuTx, Spoken(script, k)).total
    ensures Contributed(script, mtuTx, feed, k + 1) ==
            Contributed(script, mtuTx, feed, k) + Offered(o, mtuTx, feed, Entry(script, k))
    ensures ApplyAll(o, mtuTx, Entry(script, k)).total ==
            ApplyAll(NewObject(0), mtuTx, Spoken(script, k + 1)).total
  {
    hide Offered, ApplyAll;
    SpokenMore(script, k);
    OfferedAppend(NewObject(0), mtuTx, feed, Spoken(script, k), Entry(script, k));
    OfferedAlike(ApplyAll(NewObject(0), mtuTx, Spoken(script, k)), o, mtuTx, feed, Entry(script, k));
  }

  /** The application reacts to an event, and what it queues is part of the response. */
  lemma DeliverSpeaks(s: Party, kind: EventKind, cmd: nat, rsp: nat, y: Talk, rx: Rx)
    requires Speaking(s, y, rx) && !Terminal(kind) && !kind.EvStreamEmpty?
    ensures var s' := Deliver(s, kind, cmd, rsp, false); Speaking(s', y, rx) && s'.out == s.out && s'.state == s.state
  {
    hide Voiced, ApplyAll, Contributed, Spoken, Unspoken, NoEnd, Entry, ResponsiveScript, Begun, OneStream;
    var k := Reactions(s.events, y.n);
    NextCalls(y, k);
    SpokenMore(y.script, k);
    ContributedMore(y.script, y.mtu, y.z.feed, k, s.current.value);
    ManyVoiced(s.current.value, y.mtu, Entry(y.script, k), s.feed, y.z, Begun(y, k), rx, Whole(s, y));
    OneReaction(s.events, EventOf(s, kind, cmd, rsp), y.n);
    OneMore(s.events, EventOf(s, kind, cmd, rsp), y.n);
  }

  /** Changes of fields that the response does not depend on. */
  lemma SpeaksOn(s: Party, s': Party, y: Talk, rx: Rx)
    requires Speaking(s, y, rx) && s'.current.Some? && s'.events == s.events && s'.script == s.script
    requires s'.serverMode && !s'.fault && s'.linkFaults == [] && s'.mtuTx == s.mtuTx
    requires s'.state.Receiving? || s'.state.Responding?
    requires var o, o' := s.current.value, s'.current.value;
             && o'.nonHeader == o.nonHeader && o'.txQueue == o.txQueue && o'.lastOpcode == o.lastOpcode
             && o'.opcode == o.opcode && o'.total == o.total
             && (y.z.streams ==> o'.stream == o.stream && o'.rx.streaming == o.rx.streaming)
    requires s'.feed == s.feed
    ensures Speaking(s', y, rx)
  {
    hide Contributed, Spoken, Unspoken, NoEnd, InStep, TalkOk, Begun, NoStream, MannerOk;
  }

  // ---- Taking in ----

  lemma ChunkSpeaks(s: Party, chunk: seq<byte>, y: Talk, rx: Rx)
    requires Speaking(s, y, rx) && !y.z.streams
    ensures var s' := StreamChunk(s, chunk); Speaking(s', y, rx) && s'.out == s.out && s'.state == s.state
  {
    hide Speaking, Deliver;
    SpeaksSome(s, y, rx);
    var o := s.current.value;
    var s0 := Update(s, o.(stream := o.stream.(data := chunk)));
    SpeaksOn(s, s0, y, rx);
    DeliverSpeaks(s0, EvStreamAvail, 0, 0, y, rx);
  }

  lemma SpeaksSome(s: Party, y: Talk, rx: Rx)
    requires Speaking(s, y, rx)
    ensures s.current.Some? && s.serverMode && !s.fault && s.linkFaults == [] && s.mtuTx == y.mtu && y.n <= |s.events|
    ensures s.state.Receiving? || s.state.Responding?
  {
  }

  lemma AcceptSpeaks(s: Party, h: Header, y: Talk, rx: Rx)
    requires s.current.Some? && Speaking(s, y, rx)
    ensures var s' := AcceptHeader(s, h); Speaking(s', y, rx) && s'.out == s.out && s'.state == s.state
  {
    hide Speaking, StreamChunk;
    SpeaksSome(s, y, rx);
    var o := s.current.value;
    SpeaksOn(s, Update(s, o.(rx := Store(o.rx, h))), y, rx);
    if o.rx.streaming {
      SpeaksPlainly(s, y, rx);
      SpeaksOn(s, Update(s, o.(stream := o.stream.(data := h.value))), y, rx);
      ChunkSpeaks(s, h.value, y, rx);
      SpeaksSome(StreamChunk(s, h.value), y, rx);
      ChunkSpeaks(StreamChunk(s, h.value), [], y, rx);
    }
  }

  lemma SpeaksPlainly(s: Party, y: Talk, rx: Rx)
    requires Speaking(s, y, rx) && s.current.value.rx.streaming
    ensures !y.z.streams
  {
  }

  lemma {:induction false} AcceptAllSpeaks(s: Party, hs: seq<Header>, y: Talk, rx: Rx)
    requires s.current.Some? && Speaking(s, y, rx)
    ensures var s' := AcceptAll(s, hs); Speaking(s', y, rx) && s'.out == s.out && s'.state == s.state
    decreases |hs|
  {
    hide Speaking, AcceptHeader;
    if hs == [] {
    } else {
      AcceptSpeaks(s, hs[0], y, rx);
      SpeaksSome(AcceptHeader(s, hs[0]), y, rx);
      AcceptAllSpeaks(AcceptHeader(s, hs[0]), hs[1..], y, rx);
    }
  }

  lemma ReceiveSpeaks(s: Party, packet: seq<byte>, y: Talk, rx: Rx)
    requires s.current.Some? && Speaking(s, y, rx)
    ensures var s' := Receive(s, packet).0;
            s'.current.Some? && Speaking(s', y, rx) && s'.out == s.out && s'.state == s.state
  {
    hide Speaking, AcceptAll, ParseHeaders, Stale;
    SpeaksSome(s, y, rx);
    var o, d := s.current.value, packet[Min(3, |packet|)..];
    if |d| >= o.headerOffset {
      var s1 := TakeNonHeader(s, d);
      SpeaksOn(s, s1, y, rx);
      AcceptAllSpeaks(s1, ParseHeaders(d[o.headerOffset..], o.rx.streaming).headers, y, rx);
    } else {
      SpeaksOn(s, TakeStale(s, packet).0, y, rx);
    }
  }

  // ---- Answering ----

  /** One packet that reads cleanly has gone out, and takes the client on by its headers. */
  predicate Replied(s: Party, s': Party, y: Talk, rx: Rx) {
    && |s'.out| == |s.out| + 1 && s.out <= s'.out && |s'.out[|s.out|]| >= 3
    && var parsed, a := HeadersIn(s'.out[|s.out|]), ClearFinal(s'.out[|s.out|][0]);
    && parsed.outcome.Clean?
    && ((Speaking(s', y, StoreAll(rx, parsed.headers)) && (y.z.patient ==> a == CONTINUE))
        || (Spoke(s', y, StoreAll(rx, parsed.headers)) && a != CONTINUE)
        || (Dropped(s', y) && a != CONTINUE))
  }

  predicate RepliedOrStopped(s: Party, s': Party, y: Talk, rx: Rx) {
    Stopped(s') || Replied(s, s', y, rx)
  }

  lemma FinishReplies(s: Party, rsp: byte, kind: EventKind, evRsp: nat, y: Talk, rx: Rx)
    requires Speaking(s, y, rx) && (kind.EvAbort? || kind.EvParseErr?)
    requires rsp == SUCCESS || rsp == BAD_REQUEST
    ensures Replied(s, Finish(s, rsp, kind, evRsp), y, rx)
  {
    hide Speaking, HeadersIn;
    SpeaksSome(s, y, rx);
    var packet := Frame(SetFinal(rsp), []);
    BarePacket(SetFinal(rsp));
    assert (s.out + [packet])[|s.out|] == packet;
  }

  lemma BarePacket(op: byte)
    ensures HeadersIn(Frame(op, [])).outcome.Clean?
  {
    assert Frame(op, [])[3..] == [];
  }

  /** The state after a packet of the response, and the packet. */
  lemma SendSpeaks(s: Party, allowFinal: bool, y: Talk, rx: Rx)
    requires s.current.Some? && Speaking(s, y, rx)
    ensures var (s', sent) := SendObject(s, allowFinal, true);
            s'.fault || sent.SendError? ||
            (&& s'.out == s.out + [PacketOf(s, allowFinal, true)] && |PacketOf(s, allowFinal, true)| >= 3
             && HeadersIn(PacketOf(s, allowFinal, true)).outcome.Clean?
             && Speaking(s', y, StoreAll(rx, HeadersIn(PacketOf(s, allowFinal, true)).headers))
             && s'.state == s.state && s'.current.Some?
             && (sent.SendDone? ==> s'.current.value.txQueue == []))
  {
    hide Voiced, Contributed, Spoken, Unspoken, NoEnd, HeadersIn, StoreAll, TalkOk, PacketPayload, Begun;
    SendKeeps(s, allowFinal, true);
    PackStops(s.current.value.txQueue, TxBudget(s), TxLimits(s), s.current.value.stream, s.feed);
    var (s', sent) := SendObject(s, allowFinal, true);
    if !s'.fault && !sent.SendError? {
      var begun := Begun(y, Reactions(s.events, y.n));
      VoicedSent(s, allowFinal, y.z, begun, rx, Whole(s, y));
      NoReactions(s.events, s'.events, IdOf(s.current), y.n);
      var parsed := HeadersIn(PacketOf(s, allowFinal, true));
      var o := s.current.value.(txQueue := Packed(s).queue, stream := Packed(s).stream);
      VoicedSame(o, s'.current.value, s'.feed, y.z, begun, StoreAll(rx, parsed.headers), Whole(s, y));
    }
  }

  lemma VoicedSame(o: Object, o': Object, feed: seq<StreamCall>, z: Manner, begun: bool, rx: Rx, whole: seq<Header>)
    requires Voiced(o, feed, z, begun, rx, whole)
    requires o'.nonHeader.None? && o'.txQueue == o.txQueue && o'.lastOpcode == o.lastOpcode && o'.opcode == o.opcode
    requires o'.stream == o.stream && o'.rx == o.rx
    ensures Voiced(o', feed, z, begun, rx, whole)
  {
  }

  /** The first octet of that packet. */
  lemma SentOpcode(s: Party, allowFinal: bool, y: Talk, rx: Rx)
    requires s.current.Some? && Speaking(s, y, rx) && !SendObject(s, allowFinal, true).1.SendError?
    ensures var a := ClearFinal(PacketOf(s, allowFinal, true)[0]);
            if SendObject(s, allowFinal, true).1.SendDone? then a != CONTINUE else y.z.patient ==> a == CONTINUE
  {
    hide Packed, PacketPayload, Contributed, Spoken, Unspoken, NoEnd, Level, TalkOk, Begun;
    OpcodeFact(s.current.value.opcode);
    OpcodeFact(s.current.value.lastOpcode);
  }

  /** The last packet is out, and the request with it. */
  lemma LastSpoke(s: Party, cmd: byte, y: Talk, rx: Rx)
    requires s.current.Some? && Speaking(s, y, rx) && s.current.value.txQueue == []
    ensures var s0 := if cmd == DISCONNECT then s.(mtuTx := MINIMUM_MTU) else s;
            var s' := Deliver(ServerIdle(s0), EvReqDone, cmd, 0, true);
            Spoke(s', y, rx) && s'.out == s.out
  {
    hide Contributed, Spoken, Unspoken, NoEnd, TalkOk;
    var e := EventOf(ServerIdle(s), EvReqDone, cmd, 0);
    OneReaction(s.events, e, y.n);
    assert (s.events + [e])[..|s.events|] == s.events;
    assert Received(rx) + [] == Received(rx);
  }

  lemma ReplySpeaks(s: Party, cmd: byte, y: Talk, rx: Rx)
    requires s.current.Some? && Speaking(s, y, rx)
    ensures RepliedOrStopped(s, ServerReply(s, cmd), y, rx)
  {
    hide Speaking, Spoke, Dropped, SendObject, Deliver, HeadersIn, StoreAll, LinkErrorIn;
    SpeaksSome(s, y, rx);
    var s0 := Update(s, s.current.value.(continueReceived := true));
    SpeaksOn(s, s0, y, rx);
    SendSpeaks(s0, true, y, rx);
    var (s1, sent) := SendObject(s0, true, true);
    SendKeeps(s0, true, true);
    DeliverOut(s1, EvLinkErr, cmd, 0, true);
    if !s1.fault && !sent.SendError? {
      var packet := PacketOf(s0, true, true);
      assert (s.out + [packet])[|s.out|] == packet;
      var rx' := StoreAll(rx, HeadersIn(packet).headers);
      SentOpcode(s0, true, y, rx);
      SpeaksSome(s1, y, rx');
      if sent.SendDone? {
        LastSpoke(s1, cmd, y, rx');
      } else {
        DeliverSpeaks(s1, EvProgress, cmd, 0, y, rx');
        var s2 := Deliver(s1, EvProgress, cmd, 0, false);
        SpeaksSome(s2, y, rx');
        SpeaksOn(s2, ServerReply(s, cmd), y, rx');
      }
    }
  }

  /** The same, when nothing has been sent between the first two states. */
  lemma RepliedSince(s: Party, s1: Party, s': Party, y: Talk, rx: Rx)
    requires s1.out == s.out && RepliedOrStopped(s1, s', y, rx)
    ensures RepliedOrStopped(s, s', y, rx)
  {
    hide Speaking, Spoke, Dropped, HeadersIn, StoreAll, LinkErrorIn;
  }

  lemma RespondSpeaks(s: Party, packet: seq<byte>, cmd: byte, length: nat, y: Talk, rx: Rx)
    requires s.current.Some? && Speaking(s, y, rx)
    ensures RepliedOrStopped(s, ServerRespond(s, packet, cmd, length), y, rx)
  {
    hide Speaking, Receive, Finish, ServerReply, Deliver, Replied, LinkErrorIn;
    SpeaksSome(s, y, rx);
    FinishReplies(s, SUCCESS, EvAbort, cmd, y, rx);
    FinishReplies(s, BAD_REQUEST, EvParseErr, 0, y, rx);
    ReplySpeaks(s, cmd, y, rx);
    if cmd != ABORT && length > 3 && cmd != CONNECT {
      ReceiveSpeaks(s, packet, y, rx);
      var s1 := Receive(s, packet).0;
      FinishReplies(s1, BAD_REQUEST, EvParseErr, 0, y, rx);
      DeliverSpeaks(s1, EvUnexpected, s1.current.value.opcode, 0, y, rx);
      var s2 := Deliver(s1, EvUnexpected, s1.current.value.opcode, 0, false);
      SpeaksSome(s2, y, rx);
      ReplySpeaks(s2, cmd, y, rx);
      RepliedSince(s1, s2, ServerReply(s2, cmd), y, rx);
      RepliedSince(s, s1, ServerRespond(s, packet, cmd, length), y, rx);
    }
  }

  lemma RequestSpeaks(s: Party, packet: seq<byte>, cmd: byte, deny: bool, y: Talk, rx: Rx)
    requires s.current.Some? && Speaking(s, y, rx) && |packet| >= 3 && cmd != CONNECT
    ensures RepliedOrStopped(s, ServerRequest(s, packet, cmd, deny), y, rx)
  {
    hide Speaking, ServerRespond, Deliver, Replied, LinkErrorIn;
    SpeaksSome(s, y, rx);
    RespondSpeaks(s, [], cmd, Read16(packet, 1), y, rx);
    DeliverSpeaks(s, EvReq, cmd, 0, y, rx);
    var s1 := if deny then s else Deliver(s, EvReq, cmd, 0, false);
    SpeaksSome(s1, y, rx);
    var s2 := s1.(state := Responding, serverMode := true);
    SpeaksOn(s1, s2, y, rx);
    RespondSpeaks(s2, [], cmd, 3, y, rx);
    RepliedSince(s, s2, ServerRespond(s2, [], cmd, 3), y, rx);
  }

  lemma MoreSpeaks(s: Party, packet: seq<byte>, cmd: byte, y: Talk, rx: Rx)
    requires s.current.Some? && Speaking(s, y, rx) && |packet| >= 3 && cmd != CONNECT
    ensures RepliedOrStopped(s, ServerMore(s, packet, cmd), y, rx)
  {
    hide Speaking, SendObject, ServerRequest, Deliver, HeadersIn, StoreAll, LinkErrorIn, Spoke, Dropped;
    RequestSpeaks(s, packet, cmd, true, y, rx);
    SendSpeaks(s, false, y, rx);
    var (s1, sent) := SendObject(s, false, true);
    SendKeeps(s, false, true);
    SendGoesOn(s);
    DeliverOut(s1, EvLinkErr, cmd, 0, true);
    if Accepting(s.current.value.opcode) && !s1.fault && !sent.SendError? {
      var packet' := PacketOf(s, false, true);
      assert (s.out + [packet'])[|s.out|] == packet';
      SentOpcode(s, false, y, rx);
      DeliverSpeaks(s1, EvProgress, cmd, 0, y, StoreAll(rx, HeadersIn(packet').headers));
    }
  }

  lemma SendGoesOn(s: Party)
    requires s.current.Some?
    ensures !SendObject(s, false, true).1.SendDone?
  {
    hide Packed;
  }

  lemma CheckedSpeaks(s: Party, cmd: byte, y: Talk, rx: Rx)
    requires s.current.Some? && Speaking(s, y, rx)
    ensures var s' := Checked(s, cmd); Speaking(s', y, rx) && s'.out == s.out
  {
    hide Speaking, Deliver;
    DeliverSpeaks(s, EvReqCheck, cmd, 0, y, rx);
    var s1 := Deliver(s, EvReqCheck, cmd, 0, false);
    SpeaksSome(s1, y, rx);
    SpeaksOn(s1, Update(s1, s1.current.value.(checked := true)), y, rx);
  }

  lemma ReceivingSpeaks(s: Party, packet: seq<byte>, y: Talk, rx: Rx)
    requires s.current.Some? && Speaking(s, y, rx) && |packet| >= 3 && ClearFinal(packet[0]) != CONNECT
    ensures RepliedOrStopped(s, ServerReceive(s, packet), y, rx)
  {
    hide Speaking, Receive, Finish, ServerRequest, ServerMore, Checked, Replied, LinkErrorIn;
    SpeaksSome(s, y, rx);
    var cmd := ClearFinal(packet[0]);
    FinishReplies(s, SUCCESS, EvAbort, cmd, y, rx);
    FinishReplies(s, BAD_REQUEST, EvParseErr, cmd, y, rx);
    if cmd != ABORT && cmd == s.current.value.cmd {
      ReceiveSpeaks(s, packet, y, rx);
      var s1 := Receive(s, packet).0;
      FinishReplies(s1, BAD_REQUEST, EvParseErr, 0, y, rx);
      RequestSpeaks(s1, packet, cmd, false, y, rx);
      CheckedSpeaks(s1, cmd, y, rx);
      MoreSpeaks(Checked(s1, cmd), packet, cmd, y, rx);
      RepliedSince(s1, Checked(s1, cmd), ServerMore(Checked(s1, cmd), packet, cmd), y, rx);
      RepliedSince(s, s1, ServerReceive(s, packet), y, rx);
    }
  }

  // ---- The announcement ----

  /** Nothing of the request has reached the server, and nothing has been answered. */
  predicate Expecting(s: Party, y: Talk, rx: Rx) {
    && TalkOk(y) && Rested(s) && s.script == y.script && |s.events| == y.n && s.mtuTx == y.mtu
    && (y.z.patient ==> y.script != [] && Responds(y.script[0]))
    && Received(rx) == [] && rx.body.None? && (y.z.streams ==> s.feed == y.z.feed)
  }

  lemma {:induction false} ContinueInPlace(o: Object, mtuTx: u16, calls: seq<ApiCall>)
    requires AnswersContinue(calls)
    ensures Responds(calls) || o.opcode == CONTINUE ==> ApplyAll(o, mtuTx, calls).opcode == CONTINUE
    decreases |calls|
  {
    hide Accepts, HeaderOf, Encode;
    if calls == [] {
    } else {
      ContinueInPlace(Apply(o, mtuTx, calls[0]), mtuTx, calls[1..]);
      if Responds(calls) && !calls[0].SetResponse? {
        var i :| 0 <= i < |calls| && calls[i].SetResponse?;
        assert calls[1..][i - 1].SetResponse?;
      }
    }
  }

  /** The request announced. */
  function Opening(s: Party, cmd: byte): Party {
    Hinted(s, cmd).(state := Receiving, serverMode := true)
  }

  lemma NoneYet(events: seq<Event>, script: seq<seq<ApiCall>>)
    ensures Reactions(events, |events|) == 0 && Unspoken(script, 0) == script
  {
  }

  /** As the library makes it. */
  predicate FreshObject(o: Object) {
    && o.nonHeader.None? && o.txQueue == [] && o.lastOpcode == NOT_IMPLEMENTED && o.total == 0
    && o.stream == Stream([], false) && !o.rx.streaming
  }

  lemma FreshVoice(o: Object, feed: seq<StreamCall>, z: Manner, rx: Rx)
    requires FreshObject(o) && MannerOk(z) && (z.streams ==> feed == z.feed)
    requires Received(rx) == [] && rx.body.None?
    ensures Voiced(o, feed, z.(patient := false), false, rx, [])
  {
    hide WellFed;
  }

  lemma OpeningSpeaks(s: Party, cmd: byte, y: Talk, rx: Rx)
    requires Expecting(s, y, rx)
    ensures var s1 := Opening(s, cmd); s1.current.Some? && Speaking(s1, y, rx) && s1.out == s.out
  {
    hide ApplyAll, Voiced, NoEnd, TalkOk, Received, Contributed, Spoken, Begun, Reactions, Entry, Unspoken;
    var o := NewObject(s.nextId).(cmd := cmd);
    NothingYet(s.events);
    NoneYet(s.events, y.script);
    SpokenMore(y.script, 0);
    FirstVoice(o, s.feed, y, rx);
    var p0 := s.(current := Some(o), nextId := s.nextId + 1);
    OneReaction(s.events, EventOf(p0, EvReqHint, cmd, 0), y.n);
    OneMore(s.events, EventOf(p0, EvReqHint, cmd, 0), y.n);
  }

  /** What the application makes of a new object. */
  lemma FirstVoice(o: Object, feed: seq<StreamCall>, y: Talk, rx: Rx)
    requires TalkOk(y) && (y.z.patient ==> y.script != [] && Responds(y.script[0]))
    requires FreshObject(o) && (y.z.streams ==> feed == y.z.feed) && Received(rx) == [] && rx.body.None?
    ensures var o' := ApplyAll(o, y.mtu, Entry(y.script, 0));
            && Voiced(o', feed, y.z, Begun(y, 1), rx, Contributed(y.script, y.mtu, y.z.feed, 1))
            && o'.total == ApplyAll(NewObject(0), y.mtu, Spoken(y.script, 1)).total
  {
    hide ApplyAll, Voiced, Received, Offered, ResponsiveScript, OneStream, MannerOk, Streamings;
    var calls, z0 := Entry(y.script, 0), y.z.(patient := false);
    NextCalls(y, 0);
    NoCalls(NewObject(0), y.mtu);
    assert Spoken(y.script, 0) == [];
    ContributedMore(y.script, y.mtu, y.z.feed, 0, o);
    FreshVoice(o, feed, y.z, rx);
    NothingOffered(y.mtu, y.z.feed);
    NothingBegun();
    ManyVoiced(o, y.mtu, calls, feed, z0, false, rx, []);
    var offered := Offered(o, y.mtu, y.z.feed, calls);
    assert [] + offered == offered;
    if y.z.patient {
      ContinueInPlace(o, y.mtu, calls);
      PatientVoice(ApplyAll(o, y.mtu, calls), feed, y.z, Begun(y, 1), rx, offered);
    }
  }

  lemma NothingOffered(mtuTx: u16, feed: seq<StreamCall>)
    ensures Offered(NewObject(0), mtuTx, feed, []) == []
  {
  }

  lemma NothingBegun()
    ensures Streamings([]) == 0
  {
  }

  lemma PatientVoice(o: Object, feed: seq<StreamCall>, z: Manner, begun: bool, rx: Rx, whole: seq<Header>)
    requires Voiced(o, feed, z.(patient := false), begun, rx, whole) && o.opcode == CONTINUE
    ensures Voiced(o, feed, z, begun, rx, whole)
  {
  }

  /** A server, given any packet of a request but CONNECT: what goes out is part of the response,
      nothing is lost and nothing comes twice. */
  lemma ServerSpeaks(s: Party, packet: seq<byte>, y: Talk, rx: Rx)
    requires |packet| >= 3 && ClearFinal(packet[0]) != CONNECT
    requires Expecting(s, y, rx) || Speaking(s, y, rx)
    ensures RepliedOrStopped(s, ServerStep(s, packet), y, rx)
  {
    hide Speaking, ServerReceive, ServerRespond, Deliver, Replied, LinkErrorIn, Received;
    var cmd := ClearFinal(packet[0]);
    if Speaking(s, y, rx) {
      SpeaksSome(s, y, rx);
      if s.state.Receiving? {
        ReceivingSpeaks(s, packet, y, rx);
      } else {
        RespondSpeaks(s, packet, cmd, Read16(packet, 1), y, rx);
      }
    } else {
      var s1 := Opening(s, cmd);
      OpeningSpeaks(s, cmd, y, rx);
      var s2 := if cmd == SETPATH then Opened(s1, 2) else s1;
      SpeaksSome(s1, y, rx);
      SpeaksOn(s1, s2, y, rx);
      ReceivingSpeaks(s2, packet, y, rx);
      RepliedSince(s, s2, ServerReceive(s2, packet), y, rx);
      assert ServerStep(s, packet) == ServerReceive(s2, packet);
    }
  }
}
