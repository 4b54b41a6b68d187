/**
 A PUT whose application adds headers while the request is under way: those added before the
 queue is empty are part of the request, in order, and those added later are not.
 */
module PutAdds {
  import opened Octets
  import opened Headers
  import opened Fragmenter
  import opened Reassembler
  import opened Framing
  import opened Session
  import opened SessionFacts
  import opened Events
  import opened Lifetime
  import opened Lockstep
  import opened Put
  import opened PutServer
  import opened PutClient
  import opened PutRun
  import opened PutEnds
  import opened Queueing

  // ---- Headers added to a request ----

  /** A header that can be sent in a request, and is no fragment in disguise. */
  predicate Addition(c: ApiCall) {
    && c.AddHeader? && !c.streamStart
    && (c.hi == EMPTY || c.hi == BODY || (WellFormed(HeaderOf(c.hi, c.hv)) && !IsBody(c.hi)))
  }

  predicate Additions(calls: seq<ApiCall>) {
    forall i :: 0 <= i < |calls| ==> Addition(calls[i])
  }

  lemma AdditionsPlain(calls: seq<ApiCall>)
    requires Additions(calls)
    ensures PlainHeaders(calls)
  {
    forall i | 0 <= i < |calls| ensures calls[i].AddHeader? && !calls[i].streamStart {
      assert Addition(calls[i]);
    }
  }

  /** Objects that differ at most in what is queued. */
  predicate SameButQueue(o: Object, o': Object) {
    o' == o.(txQueue := o'.txQueue, total := o'.total)
  }

  lemma PendingAppend(body: Option<seq<byte>>, q: seq<TxElement>, e: TxElement, s: Stream, feed: seq<StreamCall>)
    requires q != [] && !e.TxStream?
    ensures Pending(body, q + [e], s, feed) == Pending(body, q, s, feed) + MeaningOf(e)
  {
    assert (q + [e])[0] == q[0] && (q + [e])[1..] == q[1..] + [e];
    MeaningAppend(q, e, s, feed);
    if q[0].TxStream? {
      MeaningAppend(q[1..], e, Stream([], true), []);
    } else {
      MeaningAppend(q[1..], e, s, feed);
    }
  }

  /** What is queued behind the rest of a request comes behind it. */
  lemma AddedInStep(rx: Rx, q: seq<TxElement>, e: TxElement, s: Stream, feed: seq<StreamCall>, whole: seq<Header>)
    requires InStep(rx, q, s, feed, whole) && q != [] && !e.TxStream?
    requires e.TxHeader? ==> WellFormed(e.header) && !IsBody(e.header.hi)
    ensures InStep(rx, q + [e], s, feed, whole + MeaningOf(e))
  {
    hide Meaning, Received, WellFed, WellFormed;
    PendingAppend(rx.body, q, e, s, feed);
    Associate(Received(rx), Pending(rx.body, q, s, feed), MeaningOf(e));
  }

  lemma OneAdded(rx: Rx, o: Object, mtuTx: u16, c: ApiCall, feed: seq<StreamCall>, whole: seq<Header>)
    requires Addition(c) && o.txQueue != [] && InStep(rx, o.txQueue, o.stream, feed, whole)
    ensures var o' := Apply(o, mtuTx, c);
            && SameButQueue(o, o') && o'.txQueue != []
            && InStep(rx, o'.txQueue, o'.stream, feed, whole + Accepted(o, mtuTx, c))
  {
    hide InStep, HeaderOf, Accepts, Accepted, Encode, MeaningOf;
    var es := AddedElement(o, mtuTx, c);
    HeaderKeepsId(c.hi, c.hv);
    if es == [] {
      assert o.txQueue + es == o.txQueue && whole + [] == whole;
    } else {
      assert es == [es[0]];
      AddedInStep(rx, o.txQueue, es[0], o.stream, feed, whole);
    }
  }

  lemma {:induction false} ManyAdded(rx: Rx, o: Object, mtuTx: u16, calls: seq<ApiCall>, feed: seq<StreamCall>,
                                     whole: seq<Header>)
    requires Additions(calls) && PlainHeaders(calls)
    requires o.txQueue != [] && InStep(rx, o.txQueue, o.stream, feed, whole)
    ensures var o' := ApplyAll(o, mtuTx, calls);
            && SameButQueue(o, o') && o'.txQueue != []
            && InStep(rx, o'.txQueue, o'.stream, feed, whole + Taken(o, mtuTx, calls))
    decreases |calls|
  {
    hide InStep, Apply, Accepted, Addition;
    if calls == [] {
      assert whole + [] == whole;
    } else {
      OneAdded(rx, o, mtuTx, calls[0], feed, whole);
      var o1 := Apply(o, mtuTx, calls[0]);
      ManyAdded(rx, o1, mtuTx, calls[1..], feed, whole + Accepted(o, mtuTx, calls[0]));
      Associate(whole, Accepted(o, mtuTx, calls[0]), Taken(o1, mtuTx, calls[1..]));
    }
  }

  lemma {:induction false} AdditionsQueue(o: Object, mtuTx: u16, calls: seq<ApiCall>)
    requires Additions(calls)
    ensures SameButQueue(o, ApplyAll(o, mtuTx, calls))
    decreases |calls|
  {
    hide Accepts, HeaderOf, WellFormed, Encode;
    if calls == [] {
    } else {
      assert Addition(calls[0]);
      AdditionsQueue(Apply(o, mtuTx, calls[0]), mtuTx, calls[1..]);
    }
  }

  // ---- Adding while something is still to be sent ----

  /** Something is still to be sent. */
  predicate Unsent(p: Party) {
    p.current.Some? && p.current.value.txQueue != []
  }

  /** What these calls add to the request. */
  function AddedNow(p: Party, calls: seq<ApiCall>): seq<Header>
    requires PlainHeaders(calls)
  {
    if p.current.Some? then Taken(p.current.value, p.mtuTx, calls) else []
  }

  /** The same exchange, of these headers as well. */
  function Extended(x: Exchange, more: seq<Header>): Exchange {
    x.(whole := x.whole + more)
  }

  lemma AddsKeep(c: Party, m: nat, calls: seq<ApiCall>)
    requires Keeping(c, m) && Additions(calls)
    ensures Keeping(Called(c, calls), m) && Called(c, calls).feed == c.feed
    ensures Called(c, calls).current == Some(ApplyAll(c.current.value, c.mtuTx, calls))
    ensures SameButQueue(c.current.value, Called(c, calls).current.value)
  {
    hide PassiveScript, NoEnd, ApplyAll;
    AdditionsQueue(c.current.value, c.mtuTx, calls);
  }

  lemma CollectingAdds(w: World, x: Exchange, sim: Rx, calls: seq<ApiCall>)
    requires Collecting(w, x, sim) && Unsent(w.client) && Additions(calls) && PlainHeaders(calls)
    ensures Collecting(Play(w, ClientCalls(calls)), Extended(x, AddedNow(w.client, calls)), sim)
  {
    hide Keeping, HeadersIn, StoreAll, Ready, Taking, Gathered, WholePacket, InStep, ApplyAll, Taken, SameButQueue,
         Additions;
    KeepsObject(w.client, x.m);
    WholeSize(w.up);
    AddsKeep(w.client, x.m, calls);
    ManyAdded(StoreAll(sim, HeadersIn(w.up).headers), w.client.current.value, w.client.mtuTx, calls, w.client.feed,
              x.whole);
  }

  lemma MidwayAdds(w: World, x: Exchange, sim: Rx, calls: seq<ApiCall>)
    requires Midway(w, x, sim) && Additions(calls) && PlainHeaders(calls)
    ensures Midway(Play(w, ClientCalls(calls)), Extended(x, AddedNow(w.client, calls)), sim)
  {
    hide Keeping, HeadersIn, Taking, Holds, WholePacket, InStep, ApplyAll, Taken, SameButQueue, Additions;
    KeepsObject(w.client, x.m);
    AddsKeep(w.client, x.m, calls);
    ManyAdded(sim, w.client.current.value, w.client.mtuTx, calls, w.client.feed, x.whole);
  }

  lemma SettlingAdds(w: World, x: Exchange, calls: seq<ApiCall>)
    requires Settling(w, x) && Unsent(w.client) && Additions(calls) && PlainHeaders(calls)
    ensures Settling(Play(w, ClientCalls(calls)), Extended(x, AddedNow(w.client, calls)))
  {
    hide Keeping, HeadersIn, WholePacket, ApplyAll, Taken, SameButQueue, Additions, Reported;
    KeepsObject(w.client, x.m);
    AddsKeep(w.client, x.m, calls);
  }

  /** The request goes on as one of all that has been queued for it. */
  lemma AddStep(w: World, x: Exchange, early: bool, calls: seq<ApiCall>)
    requires Putting(w, x) && Marked(w, x, early) && Unsent(w.client) && Additions(calls) && PlainHeaders(calls)
    ensures var w', x' := Play(w, ClientCalls(calls)), Extended(x, AddedNow(w.client, calls));
            Putting(w', x') && Marked(w', x', early)
  {
    hide Play, Collecting, AskingOn, Midway, Settling, Finished, Marked, AddedNow, Extended;
    var w', x' := Play(w, ClientCalls(calls)), Extended(x, AddedNow(w.client, calls));
    NotFinished(w, x);
    if sim :| Collecting(w, x, sim) {
      CollectingAdds(w, x, sim, calls);
      RequestWaits(w', x', sim);
      RequestWaits(w, x, sim);
    } else if sim :| Midway(w, x, sim) {
      MidwayAdds(w, x, sim, calls);
      AnswerWaits(w', x', sim);
      AnswerWaits(w, x, sim);
    } else {
      SettlingAdds(w, x, calls);
      AnswerWaits(w', x', NewRx());
      AnswerWaits(w, x, NewRx());
    }
    MarkedStays(w, w', x, x', early, calls);
  }

  lemma NotFinished(w: World, x: Exchange)
    requires Unsent(w.client)
    ensures !AskingOn(w, x) && !Finished(w, x)
  {
    hide Keeping, Answering, Told, Ended, NothingOrAll, Completed, PassiveScript;
  }

  lemma RequestWaits(w: World, x: Exchange, sim: Rx)
    requires Collecting(w, x, sim)
    ensures !AtRest(w.client)
  {
    hide Keeping, HeadersIn, StoreAll, Ready, Taking, Gathered, WholePacket, InStep;
    NotResting(w.client, x.m);
  }

  lemma AnswerWaits(w: World, x: Exchange, sim: Rx)
    requires Midway(w, x, sim) || Settling(w, x)
    ensures !AtRest(w.client)
  {
    hide Keeping, HeadersIn, Taking, Holds, WholePacket, InStep, Refused, Reported;
    NotResting(w.client, x.m);
  }

  lemma MarkedStays(w: World, w': World, x: Exchange, x': Exchange, early: bool, calls: seq<ApiCall>)
    requires Marked(w, x, early) && !AtRest(w.client) && !AtRest(w'.client)
    requires PlainHeaders(calls)
    requires w' == Play(w, ClientCalls(calls)) && x' == Extended(x, AddedNow(w.client, calls))
    ensures Marked(w', x', early)
  {
    hide Called, AddedNow, Reqs;
  }

  // ---- Runs with additions ----

  /** A run of turns in which headers are added, while something is still to be sent. */
  predicate AddsInTime(w: World, acts: seq<Act>)
    decreases |acts|
  {
    acts == [] ||
    var before, last := acts[..|acts| - 1], acts[|acts| - 1];
    && AddsInTime(w, before)
    && (Passive(last) ||
        (last.ClientCalls? && Additions(last.calls) && (Over(PlayAll(w, before)) || Unsent(PlayAll(w, before).client))))
  }

  /** What has been added in a run. */
  function Added(w: World, acts: seq<Act>): seq<Header>
    decreases |acts|
  {
    if acts == [] then []
    else
      var before, last := acts[..|acts| - 1], acts[|acts| - 1];
      Added(w, before) +
      if last.ClientCalls? && PlainHeaders(last.calls) then AddedNow(PlayAll(w, before).client, last.calls) else []
  }

  lemma {:induction false} TurnsAddNothing(w: World, acts: seq<Act>)
    requires Turns(acts)
    ensures AddsInTime(w, acts) && Added(w, acts) == []
    decreases |acts|
  {
    hide PlayAll, Over;
    if acts == [] {
    } else {
      TurnsAddNothing(w, acts[..|acts| - 1]);
      assert Passive(acts[|acts| - 1]);
    }
  }

  lemma {:induction false} AddsKeepStep(w: World, x: Exchange, acts: seq<Act>)
    requires (Over(w) || (Putting(w, x) && Marked(w, x, false))) && AddsInTime(w, acts)
    ensures var w', x' := PlayAll(w, acts), Extended(x, Added(w, acts));
            Over(w') || (Putting(w', x') && Marked(w', x', EarlyIn(w, acts)))
    decreases |acts|
  {
    hide Play, Putting, Over, Marked, Early, EarlyIn, AddedNow, Passive, Unsent, Additions;
    if acts == [] {
      NeverEarly(w);
      assert x.whole + [] == x.whole;
    } else {
      var init, last := acts[..|acts| - 1], acts[|acts| - 1];
      var before, x1 := PlayAll(w, init), Extended(x, Added(w, init));
      AddsKeepStep(w, x, init);
      EarlyMore(w, acts);
      if !Over(before) {
        if Passive(last) {
          PassiveAdds(last);
          assert Added(w, init) + [] == Added(w, init);
          PutStep(before, x1, last);
          MarkStep(before, x1, EarlyIn(w, init), last);
        } else {
          AdditionsPlain(last.calls);
          AddStep(before, x1, EarlyIn(w, init), last.calls);
          Associate(x.whole, Added(w, init), AddedNow(before.client, last.calls));
        }
      }
    }
  }

  lemma PassiveAdds(a: Act)
    requires Passive(a)
    ensures !a.ClientCalls?
  {
  }

  /**
   End to end: in every run of a PUT, whatever the server's application makes of it, the
   server reports the request at most once and then with exactly the headers the client
   has queued and added on the way, a streamed body in chunks that make up the same. A client
   that has its response is told of success before the request was reported if and only if
   SUCCESS was in place when the server answered a packet that was not the last.
   */
  lemma PutTheorem(w: World, calls: seq<ApiCall>, app: App, acts: seq<Act>)
    requires PutSetting(w, calls, app) && AddsInTime(Play(w, Start(PUT, calls)), acts)
    ensures var start := Play(w, Start(PUT, calls));
            var w' := PlayAll(start, acts);
            var n, m := |w.server.events|, |w.client.events|;
            var whole, st := Queued(w, calls) + Added(start, acts), Streams(w.server.script);
            Over(w') ||
            (&& n <= |w'.server.events| && m <= |w'.client.events|
             && (Reqs(w'.server.events, n) == [] || Told(w'.server.events, n, whole, st))
             && (NoEnd(w'.client.events, m) ||
                 (Ended(w'.client, m)
                  && (HasResponse(w'.client) ==>
                        (Succeeded(w'.client) && Reqs(w'.server.events, n) == [] <==> EarlyIn(start, acts)))
                  && (Restrained(app) ==> Told(w'.server.events, n, whole, st)))))
  {
    hide Play, Putting, Over, Told, Reqs, NoEnd, Marked, EarlyIn, Added, AddsInTime;
    var x := ExchangeOf(w, calls, app);
    var start := Play(w, Start(PUT, calls));
    PutStarts(w, calls, app);
    if !Over(start) {
      StartIsPutting(start, x);
      StartIsUnmarked(start, x);
    }
    AddsKeepStep(start, x, acts);
    var w' := PlayAll(start, acts);
    if !Over(w') { PuttingMeans(w', Extended(x, Added(start, acts)), EarlyIn(start, acts)); }
  }

  // ---- Adding too late ----

  /** The response is on its way: what is queued now changes nothing. */
  lemma SettledLate(v: World, x: Exchange, calls: seq<ApiCall>)
    requires Settling(v, x) && x.app.Willing? && Additions(calls)
    ensures var w' := Play(Play(v, ClientCalls(calls)), ClientTurn); Over(w') || Completed(w', x)
  {
    hide Keeping, HeadersIn, WholePacket, NoEnd, PassiveScript, LinkErrorIn, Oversized, Reqs, Told, ClientStep,
         SentNext, Packed, RestOk, OpcodesOk, QueueOk, Closed, SameButQueue, Additions, ApplyAll;
    KeepsObject(v.client, x.m);
    AddsKeep(v.client, x.m, calls);
    var w := Play(v, ClientCalls(calls));
    KeepsObject(w.client, x.m);
    TurnTreats(w, w.down);
    WholeSize(w.down);
    TakesAnswer(w.client, w.down, x.m);
    WillingSays(v.server, x.st, x.n, x.whole, ClearFinal(v.down[0]));
    var w' := Play(w, ClientTurn);
    if Holding(w.client, w.down) {
      ClientClosed(w, w', x);
    } else {
      FaultOver(w');
    }
  }

  /** The server does not see what is queued. */
  lemma ServerFirst(w: World, calls: seq<ApiCall>)
    ensures Play(Play(w, ClientCalls(calls)), ServerTurn) == Play(Play(w, ServerTurn), ClientCalls(calls))
  {
    hide Indicate, ApplyAll;
  }

  lemma StaysOver(w: World, calls: seq<ApiCall>)
    requires Over(w)
    ensures Over(Play(w, ClientCalls(calls)))
  {
    hide ApplyAll, LinkErrorIn, WholePacket;
  }

  lemma LateStep(w: World, x: Exchange, calls: seq<ApiCall>)
    requires Putting(w, x) && x.app.Willing? && w.client.current.Some? && !Unsent(w.client) && Additions(calls)
    ensures var w2 := Play(Play(w, ClientCalls(calls)), ServerTurn);
            var w3 := Play(w2, ClientTurn);
            Over(w2) || Over(w3) || Completed(w3, x)
  {
    hide Play, Collecting, AskingOn, Midway, Settling, Over, Completed, Additions;
    ServerFirst(w, calls);
    NothingToTake(w);
    if sim :| Collecting(w, x, sim) {
      CollectingStep(w, x, sim);
      ServerTurnKeepsClient(w);
      var v := Play(w, ServerTurn);
      RequestPhase(w, x, sim);
      if Over(v) {
        StaysOver(v, calls);
      } else {
        NotMidway(v, x, StoreAll(sim, HeadersIn(w.up).headers));
        SettledLate(v, x, calls);
      }
    } else if Settling(w, x) {
      AnswerPhase(w, x, NewRx());
      SettledLate(w, x, calls);
    } else {
      NoneLeft(w, x);
    }
  }

  lemma ServerTurnKeepsClient(w: World)
    ensures Play(w, ServerTurn).client == w.client
  {
  }

  lemma NotMidway(w: World, x: Exchange, sim: Rx)
    requires w.client.current.Some? && !Unsent(w.client)
    ensures !Midway(w, x, sim)
  {
    hide Keeping, HeadersIn, Taking, Holds, WholePacket, InStep;
  }

  lemma NoneLeft(w: World, x: Exchange)
    requires Putting(w, x) && x.app.Willing? && w.client.current.Some? && !Unsent(w.client)
    ensures Settling(w, x) || exists sim :: Collecting(w, x, sim)
  {
    hide Collecting, Midway, Settling, AskingOn;
    forall sim ensures !Midway(w, x, sim) { NotMidway(w, x, sim); }
    if AskingOn(w, x) { AskingNotCollecting(w, x); }
  }

  /** Headers added once nothing is left to be sent are lost, without notice: the server reports
      the request without them, and the client is told of success. */
  lemma LateAddsTheorem(w: World, calls: seq<ApiCall>, acts: seq<Act>, late: seq<ApiCall>)
    requires PutSetting(w, calls, Willing) && AddsInTime(Play(w, Start(PUT, calls)), acts) && Additions(late)
    ensures var start := Play(w, Start(PUT, calls));
            var w1 := PlayAll(start, acts);
            var w2 := Play(Play(w1, ClientCalls(late)), ServerTurn);
            var w3 := Play(w2, ClientTurn);
            var whole, st := Queued(w, calls) + Added(start, acts), Streams(w.server.script);
            || Over(w1) || w1.client.current.None? || Unsent(w1.client) || Over(w2) || Over(w3)
            || (Rested(w3.client) && Succeeded(w3.client) && Rested(w3.server)
                && |w.server.events| <= |w3.server.events| && Told(w3.server.events, |w.server.events|, whole, st))
  {
    hide Play, PlayAll, Putting, Over, Told, Reqs, NoEnd, Marked, EarlyIn, Added, AddsInTime, Additions, Ended, Unsent,
         Rested, Succeeded;
    var x := ExchangeOf(w, calls, Willing);
    var start := Play(w, Start(PUT, calls));
    PutStarts(w, calls, Willing);
    if !Over(start) {
      StartIsPutting(start, x);
      StartIsUnmarked(start, x);
    }
    AddsKeepStep(start, x, acts);
    var w1 := PlayAll(start, acts);
    if !Over(w1) && w1.client.current.Some? && !Unsent(w1.client) {
      LateStep(w1, Extended(x, Added(start, acts)), late);
    }
  }

  // ---- Adding in a PROGRESS event ----

  /** The same with nothing to do at the next event. */
  function Idling(p: Party): Party {
    p.(script := if p.script == [] then [] else [[]] + p.script[1..])
  }

  lemma PackIdling(p: Party)
    requires p.current.Some?
    ensures Packed(Idling(p)) == Packed(p) && PacketPayload(Idling(p)) == PacketPayload(p)
    ensures AfterPacking(Idling(p)) == Idling(AfterPacking(p))
    ensures AfterPacking(p).current.Some?
  {
    hide Pack, EncodeAll, Repeat;
  }

  lemma SendIdling(p: Party)
    requires p.current.Some?
    ensures SendObject(Idling(p), true, false).1 == SendObject(p, true, false).1
    ensures SendObject(Idling(p), true, false).0 == Idling(SendObject(p, true, false).0)
  {
    hide Packed, AfterPacking, PacketPayload, PacketOpcode, Frame;
    PackIdling(p);
  }

  lemma CallCommutes(o: Object, mtuTx: u16, c: ApiCall, first: bool, more: bool)
    requires Addition(c)
    ensures Apply(o.(firstSent := first, continueReceived := more), mtuTx, c) ==
            Apply(o, mtuTx, c).(firstSent := first, continueReceived := more)
  {
    hide HeaderOf, WellFormed, Encode, EncodedSize, IsBody, Accepts;
    AcceptsAlike(o, o.(firstSent := first, continueReceived := more), mtuTx, c);
  }

  lemma AcceptsAlike(o: Object, o': Object, mtuTx: u16, c: ApiCall)
    requires c.AddHeader? && o'.total == o.total
    ensures Accepts(o', mtuTx, c.hi, c.hv, c.fitOnePacket) == Accepts(o, mtuTx, c.hi, c.hv, c.fitOnePacket)
  {
    hide HeaderOf, EncodedSize;
  }

  /** What calls make of an object, whether or not CONTINUE and a first packet are on record. */
  lemma {:induction false} CallsCommute(o: Object, mtuTx: u16, calls: seq<ApiCall>, first: bool, more: bool)
    requires Additions(calls)
    ensures ApplyAll(o.(firstSent := first, continueReceived := more), mtuTx, calls) ==
            ApplyAll(o, mtuTx, calls).(firstSent := first, continueReceived := more)
    decreases |calls|
  {
    hide Apply, Addition;
    if calls == [] {
    } else {
      CallCommutes(o, mtuTx, calls[0], first, more);
      CallsCommute(Apply(o, mtuTx, calls[0]), mtuTx, calls[1..], first, more);
    }
  }

  lemma DeliverIdling(p: Party, kind: EventKind, cmd: nat, rsp: nat)
    requires p.current.Some? && p.script != []
    ensures var d := Deliver(Idling(p), kind, cmd, rsp, false);
            && d.current == p.current && d.mtuTx == p.mtuTx && d.fault == p.fault
            && Deliver(p, kind, cmd, rsp, false) == Update(d, ApplyAll(p.current.value, p.mtuTx, p.script[0]))
    ensures Deliver(Idling(p), kind, cmd, rsp, true) == Deliver(p, kind, cmd, rsp, true)
    ensures Deliver(p, kind, cmd, rsp, true).current.None?
  {
    hide ApplyAll;
    NoCalls(p.current.value, p.mtuTx);
  }

  lemma NoCalls(o: Object, mtuTx: u16)
    ensures ApplyAll(o, mtuTx, []) == o
  {
  }

  /** Headers added in the PROGRESS event behind a packet are added as if right after the turn
      that sent it. */
  lemma ProgressAdds(p: Party)
    requires p.current.Some? && !p.current.value.abort && p.script != [] && Additions(p.script[0])
    ensures var c := ClientContinue(Idling(p)); c.fault || ClientContinue(p) == Called(c, p.script[0])
    ensures var c := ClientStart(Idling(p), BAD_REQUEST);
            c.fault || ClientStart(p, BAD_REQUEST) == Called(c, p.script[0])
  {
    hide ClientContinue, ClientStart, Additions;
    ContinueAdds(p);
    StartAdds(p);
  }

  lemma ContinueAdds(p: Party)
    requires p.current.Some? && !p.current.value.abort && p.script != [] && Additions(p.script[0])
    ensures var c := ClientContinue(Idling(p)); c.fault || ClientContinue(p) == Called(c, p.script[0])
  {
    hide SendObject, ApplyAll, Additions, Deliver;
    var p0 := Update(p, p.current.value.(continueReceived := true));
    assert Idling(p0) == Update(Idling(p), p0.current.value);
    SendIdling(p0);
    SendKeeps(p0, true, false);
    var q := SendObject(p0, true, false).0;
    if !q.fault {
      var cmd := q.current.value.opcode;
      DeliverIdling(q, EvLinkErr, cmd, 0);
      DeliverIdling(q, EvProgress, cmd, 0);
      CallsCommute(q.current.value, q.mtuTx, p.script[0], q.current.value.firstSent, false);
      AdditionsQueue(q.current.value, q.mtuTx, p.script[0]);
    }
  }

  lemma StartAdds(p: Party)
    requires p.current.Some? && p.script != [] && Additions(p.script[0])
    ensures var c := ClientStart(Idling(p), BAD_REQUEST);
            c.fault || ClientStart(p, BAD_REQUEST) == Called(c, p.script[0])
  {
    hide SendObject, ApplyAll, Additions, Deliver;
    SendIdling(p);
    SendKeeps(p, true, false);
    var r := SendObject(p, true, false).0;
    if !r.fault {
      var cmd := r.current.value.opcode;
      var r1 := r.(state := Idle, serverMode := false);
      DeliverIdling(r1, EvLinkErr, cmd, 0);
      assert Idling(r1) == Idling(r).(state := Idle, serverMode := false);
      var r2 := Update(r, r.current.value.(firstSent := true));
      DeliverIdling(r2, EvProgress, cmd, 0);
      assert Idling(r2) == Update(Idling(r), r2.current.value);
    }
  }
}
