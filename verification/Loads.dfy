/** What a handle still has to send, and what its application may yet add. */
module Loads {
  import opened Octets
  import opened Headers
  import opened Fragmenter
  import opened Reassembler
  import opened Transfer
  import opened Session
  import opened SessionFacts
  import opened Events
  import opened Lifetime
  import opened Lockstep
  import opened Put
  import opened PutServer

  // ---- What applications may add ----

  function CallWeight(c: ApiCall): nat {
    if c.AddHeader? && !c.streamStart then (if c.hi == EMPTY then 1 else 1 + EncodedSize(HeaderOf(c.hi, c.hv)))
    else 0
  }

  function CallsWeight(calls: seq<ApiCall>): nat {
    if calls == [] then 0 else CallWeight(calls[0]) + CallsWeight(calls[1..])
  }

  function ScriptWeight(script: seq<seq<ApiCall>>): nat {
    if script == [] then 0 else CallsWeight(script[0]) + ScriptWeight(script[1..])
  }

  /** A header added fits a packet of its own. */
  predicate CallFits(c: ApiCall, budget: nat) {
    c.AddHeader? && c.hi != EMPTY && c.hi != BODY ==> EncodedSize(HeaderOf(c.hi, c.hv)) <= budget
  }

  predicate CallsFit(calls: seq<ApiCall>, budget: nat) {
    forall i :: 0 <= i < |calls| ==> CallFits(calls[i], budget)
  }

  predicate ScriptFits(script: seq<seq<ApiCall>>, budget: nat) {
    forall i :: 0 <= i < |script| ==> CallsFit(script[i], budget)
  }

  // ---- The load of a handle ----

  function Backlog(p: Party): nat {
    (if p.current.Some? then QueueWeight(p.current.value.txQueue) else 0) + ScriptWeight(p.script)
  }

  /** Everything queued or yet to be added fits. */
  predicate Fits(p: Party) {
    && ScriptFits(p.script, TxBudget(p))
    && (p.current.Some? ==> Fitting(p.current.value.txQueue, TxBudget(p)))
  }

  /** The load has not grown, and still fits. */
  predicate Lighter(p: Party, p': Party) {
    TxBudget(p') == TxBudget(p) && (Fits(p) ==> Fits(p')) && Backlog(p') <= Backlog(p)
  }

  lemma {:induction false} QueueWeightAppend(a: seq<TxElement>, b: seq<TxElement>)
    ensures QueueWeight(a + b) == QueueWeight(a) + QueueWeight(b)
  {
    if a == [] {
      assert a + b == b;
    } else {
      assert (a + b)[1..] == a[1..] + b;
      QueueWeightAppend(a[1..], b);
    }
  }

  lemma CallLoad(app: App, o: Object, mtuTx: u16, c: ApiCall, first: bool, budget: nat)
    requires CallOk(app, c, first) && Measured(app)
    ensures QueueWeight(Apply(o, mtuTx, c).txQueue) <= QueueWeight(o.txQueue) + CallWeight(c)
    ensures CallFits(c, budget) && Fitting(o.txQueue, budget) ==> Fitting(Apply(o, mtuTx, c).txQueue, budget)
  {
    hide Accepts, Encode, EncodedSize, WellFormed, HeaderOf;
    if c.AddHeader? {
      var h := HeaderOf(c.hi, c.hv);
      var e := if c.hi == EMPTY then TxEmpty else if c.hi == BODY then TxBody(Encode(h), false) else TxHeader(h);
      QueueWeightAppend(o.txQueue, [e]);
      assert [e][1..] == [];
    }
  }

  lemma {:induction false} CallsLoad(app: App, o: Object, mtuTx: u16, calls: seq<ApiCall>, first: bool, budget: nat)
    requires CallsOk(app, calls, first) && Measured(app)
    ensures QueueWeight(ApplyAll(o, mtuTx, calls).txQueue) <= QueueWeight(o.txQueue) + CallsWeight(calls)
    ensures CallsFit(calls, budget) && Fitting(o.txQueue, budget) ==> Fitting(ApplyAll(o, mtuTx, calls).txQueue, budget)
    decreases |calls|
  {
    hide Apply, Fitting, CallOk, CallFits;
    if calls == [] {
    } else {
      CallLoad(app, o, mtuTx, calls[0], first, budget);
      CallsLoad(app, Apply(o, mtuTx, calls[0]), mtuTx, calls[1..], first, budget);
    }
  }

  // ---- Steps ----

  lemma DeliverLoad(p: Party, app: App, kind: EventKind, cmd: nat, rsp: nat, delete: bool, first: bool)
    requires CallsOk(app, if p.script == [] then [] else p.script[0], first) && Measured(app)
    ensures Lighter(p, Deliver(p, kind, cmd, rsp, delete))
  {
    hide CallsOk, ApplyAll, Fitting, ScriptFits, ScriptWeight, QueueWeight, EventOf, TxBudget;
    BudgetSame(p, Deliver(p, kind, cmd, rsp, delete));
    var calls := if p.script == [] then [] else p.script[0];
    ScriptNow(p.script, TxBudget(p));
    if p.current.Some? { CallsLoad(app, p.current.value, p.mtuTx, calls, first, TxBudget(p)); }
  }

  lemma BudgetSame(p: Party, p': Party)
    requires p'.mtuTx == p.mtuTx && p'.irda == p.irda && p'.linkMtu == p.linkMtu
    ensures TxBudget(p') == TxBudget(p)
  {
  }

  lemma ScriptNow(script: seq<seq<ApiCall>>, budget: nat)
    ensures var calls := if script == [] then [] else script[0];
            && ScriptWeight(script) == CallsWeight(calls) + ScriptWeight(Tail(script))
            && (ScriptFits(script, budget) ==> ScriptFits(Tail(script), budget) && CallsFit(calls, budget))
  {
  }

  lemma UpdateLoad(p: Party, o: Object)
    requires p.current.Some? && o.txQueue == p.current.value.txQueue
    ensures Lighter(p, Update(p, o)) && Backlog(Update(p, o)) == Backlog(p)
  {
  }

  lemma ServingCalls(p: Party, app: App, st: bool)
    requires Serving(p, app, st)
    ensures CallsOk(app, if p.script == [] then [] else p.script[0], false)
  {
    CallsNow(app, p.script);
  }

  lemma ChunkLoad(p: Party, app: App, st: bool, chunk: seq<byte>)
    requires Serving(p, app, st) && Measured(app)
    ensures Lighter(p, StreamChunk(p, chunk))
  {
    hide Deliver, Serving, CallsOk, Backlog, Fits;
    ServingCalls(p, app, st);
    SomeObject(p, app, st);
    var o := p.current.value;
    UpdateLoad(p, o.(stream := o.stream.(data := chunk)));
    DeliverLoad(Update(p, o.(stream := o.stream.(data := chunk))), app, EvStreamAvail, 0, 0, false, false);
  }

  lemma AcceptLoad(p: Party, app: App, st: bool, h: Header)
    requires Serving(p, app, st) && Measured(app)
    ensures p.current.Some? && Lighter(p, AcceptHeader(p, h))
  {
    hide StreamChunk, Serving, Backlog, Fits;
    SomeObject(p, app, st);
    var o := p.current.value;
    UpdateLoad(p, o.(rx := Store(o.rx, h)));
    UpdateLoad(p, o.(stream := o.stream.(data := h.value)));
    ChunkLoad(p, app, st, h.value);
    ChunkSteady(p, app, st, h.value);
    ChunkLoad(StreamChunk(p, h.value), app, st, []);
  }

  lemma {:induction false} AcceptAllLoad(p: Party, app: App, st: bool, hs: seq<Header>)
    requires Serving(p, app, st) && Measured(app)
    ensures p.current.Some? && Lighter(p, AcceptAll(p, hs))
    decreases |hs|
  {
    hide AcceptHeader, Serving, Backlog, Fits;
    SomeObject(p, app, st);
    if hs == [] {
    } else {
      AcceptLoad(p, app, st, hs[0]);
      AcceptSteady(p, app, st, hs[0]);
      AcceptAllLoad(AcceptHeader(p, hs[0]), app, st, hs[1..]);
    }
  }

  lemma {:induction false} PackQuiet(q: seq<TxElement>, left: nat, lim: Limits, s: Stream, feed: seq<StreamCall>)
    requires SendableOut(q)
    ensures var k := Pack(q, left, lim, s, feed); k.stream == s && k.feed == feed
    decreases |q|, |feed|
  {
    if q == [] {
    } else {
      assert Sendable1(q[0]);
      var a := PackStep(q, left, lim, s, feed);
      assert SendableOut(a.queue);
      if a.status.More? { PackQuiet(a.queue, a.left, After(lim, a), a.stream, a.feed); }
    }
  }

  /** A packet takes some of what is queued. */
  lemma SendLoad(p: Party, app: App, st: bool, allowFinal: bool)
    requires Serving(p, app, st) && Measured(app)
    ensures var (p', sent) := SendObject(p, allowFinal, true);
            Fits(p) && !sent.SendError? ==>
              Lighter(p, p') && (p.current.value.txQueue != [] && TxBudget(p) > 3 ==> Backlog(p') < Backlog(p))
    ensures Neat(app) ==> !SendObject(p, allowFinal, true).1.SendError? && !SendObject(p, allowFinal, true).0.fault
  {
    hide Pack, RestOk, SendableOut, ScriptWeight, QueueWeight, ScriptFits, TxBudget, Fitting;
    BudgetSame(p, SendObject(p, allowFinal, true).0);
    var o := p.current.value;
    var q := o.txQueue;
    PackQuiet(q, TxBudget(p), TxLimits(p), o.stream, p.feed);
    if Fits(p) { PackWeight(q, TxBudget(p), TxLimits(p), o.stream, p.feed, TxBudget(p)); }
    PackStops(q, TxBudget(p), TxLimits(p), o.stream, p.feed);
    PackNone(TxBudget(p), TxLimits(p), o.stream, p.feed);
    if app.Brief? { PackBrief(q, TxBudget(p), TxLimits(p), o.stream, p.feed, app.budget); }
  }

  lemma PackNone(left: nat, lim: Limits, s: Stream, feed: seq<StreamCall>)
    ensures Pack([], left, lim, s, feed).status.Full?
  {
  }

  // ---- The server's steps ----

  /** The load is no larger after a step; such a server never stops. */
  predicate StepsOn(p: Party, p': Party, app: App) {
    && (Stopped(p') || Lighter(p, p'))
    && (Neat(app) && !Stopped(p) ==> !Stopped(p'))
  }

  lemma ReplyLoad(p: Party, app: App, st: bool)
    requires Serving(p, app, st) && Measured(app) && Fits(p)
    ensures StepsOn(p, ServerReply(p, PUT), app)
    ensures var p' := ServerReply(p, PUT);
            p.current.value.txQueue != [] && TxBudget(p) > 3 ==> Stopped(p') || Backlog(p') < Backlog(p)
  {
    hide SendObject, Deliver, LinkErrorIn, RestOk, OpcodesOk, QueueOk, Received, Backlog, Fits, CallsOk, TxBudget,
         Lighter, Steady, SameReports, Sends;
    var o := p.current.value;
    var p0 := Update(p, o.(continueReceived := true));
    SameQueueOk(app, o, p0.current.value);
    UpdateLoad(p, p0.current.value);
    LighterFits(p, p0);
    SendLoad(p0, app, st, true);
    SendSteady(p0, app, st, true, |p.events|);
    SendQuietly(p0, true, true);
    var (p1, sent) := SendObject(p0, true, true);
    DeliverOut(p1, EvLinkErr, PUT, 0, true);
    if !p1.fault && !sent.SendError? {
      SteadyServes(p0, p1, app, st);
      RepliedLoad(p1, app, st, sent.SendDone?);
      LighterTwice(p, p0, p1);
      LighterTwice(p, p1, ServerReply(p, PUT));
    }
  }

  lemma SteadyServes(p: Party, p': Party, app: App, st: bool)
    requires Steady(p, p'.(out := p.out), app, st)
    ensures Serving(p', app, st)
  {
    hide RestOk, OpcodesOk, QueueOk;
  }

  lemma LighterTwice(p: Party, p1: Party, p2: Party)
    requires Lighter(p, p1) && Lighter(p1, p2)
    ensures Lighter(p, p2) && Backlog(p2) <= Backlog(p1)
  {
    hide Fits, Backlog, TxBudget;
  }

  /** A packet of the response has gone out: the last one, or not. */
  lemma RepliedLoad(p: Party, app: App, st: bool, done: bool)
    requires Serving(p, app, st) && Measured(app)
    ensures var p' := if done then Deliver(ServerIdle(p), EvReqDone, PUT, 0, true)
                      else Deliver(p, EvProgress, PUT, 0, false);
            && (LinkErrorIn(p'.events) ==> LinkErrorIn(p.events)) && p'.fault == p.fault
            && if done then Lighter(p, p')
               else
                 && p'.current.Some?
                 && Lighter(p, Update(p', p'.current.value.(firstSent := true, continueReceived := false)))
  {
    hide Deliver, LinkErrorIn, RestOk, OpcodesOk, QueueOk, Received, Backlog, Fits, CallsOk, TxBudget;
    ServingCalls(p, app, st);
    if done {
      IdleLoad(p);
      DeliverLoad(ServerIdle(p), app, EvReqDone, PUT, 0, true, false);
      DeliverQuietly(ServerIdle(p), EvReqDone, PUT, 0, true);
      DeliverOut(ServerIdle(p), EvReqDone, PUT, 0, true);
    } else {
      DeliverLoad(p, app, EvProgress, PUT, 0, false, false);
      DeliverQuietly(p, EvProgress, PUT, 0, false);
      DeliverKeeps(p, EvProgress, PUT, 0);
      var p1 := Deliver(p, EvProgress, PUT, 0, false);
      UpdateLoad(p1, p1.current.value.(firstSent := true, continueReceived := false));
    }
  }

  lemma IdleLoad(p: Party)
    ensures Lighter(p, ServerIdle(p)) && Backlog(ServerIdle(p)) == Backlog(p)
  {
  }

  lemma StateLoad(p: Party, p': Party)
    requires p' == p.(state := p'.state, serverMode := p'.serverMode)
    ensures Lighter(p, p') && Backlog(p') == Backlog(p)
  {
  }

  lemma MoreLoad(p: Party, app: App, st: bool, packet: seq<byte>)
    requires Serving(p, app, st) && !p.current.value.firstSent && Measured(app) && Fits(p) && |packet| >= 3
    ensures StepsOn(p, ServerMore(p, packet, PUT), app)
  {
    hide SendObject, Deliver, LinkErrorIn, RestOk, OpcodesOk, QueueOk, Received, Backlog, Fits, CallsOk, Accepting,
         ServerRequest, StepsOn;
    OpcodeFacts(app, p.current.value);
    if Accepting(p.current.value.opcode) {
      InterimLoad(p, app, st);
    } else {
      DenyLoad(p, app, st, packet);
    }
  }

  /** The response in between goes out. */
  lemma InterimLoad(p: Party, app: App, st: bool)
    requires Serving(p, app, st) && Measured(app) && Fits(p)
    ensures var (p1, sent) := SendObject(p, false, true);
            StepsOn(p, if p1.fault then p1
                       else if sent.SendError? then Deliver(p1, EvLinkErr, PUT, 0, true)
                       else Deliver(p1, EvProgress, PUT, 0, false), app)
  {
    hide SendObject, Deliver, LinkErrorIn, RestOk, OpcodesOk, QueueOk, Received, Backlog, Fits, CallsOk, Sends;
    SendLoad(p, app, st, false);
    SendSteady(p, app, st, false, |p.events|);
    SendQuietly(p, false, true);
    var (p1, sent) := SendObject(p, false, true);
    DeliverOut(p1, EvLinkErr, PUT, 0, true);
    if !p1.fault && !sent.SendError? {
      ServingCalls(p, app, st);
      DeliverLoad(p1, app, EvProgress, PUT, 0, false, false);
      DeliverQuietly(p1, EvProgress, PUT, 0, false);
      DeliverKeeps(p1, EvProgress, PUT, 0);
    }
  }

  /** A refusal is answered at once. */
  lemma DenyLoad(p: Party, app: App, st: bool, packet: seq<byte>)
    requires Serving(p, app, st) && !p.current.value.firstSent && Measured(app) && Fits(p) && |packet| >= 3
    ensures StepsOn(p, ServerRequest(p, packet, PUT, true), app)
  {
    hide ServerReply, LinkErrorIn, RestOk, OpcodesOk, QueueOk, Backlog, Fits;
    var p1 := p.(state := Responding, serverMode := true);
    StateLoad(p, p1);
    LighterFits(p, p1);
    ReplyLoad(p1, app, st);
    assert ServerRequest(p, packet, PUT, true) == ServerReply(p1, PUT);
  }

  /** The server takes in a packet of the request. */
  lemma TakeLoad(p: Party, app: App, st: bool, packet: seq<byte>, n: nat, sim: Rx)
    requires Taking(p, app, st, n) && Holds(p, n, sim) && Measured(app) && Fits(p)
    requires |packet| >= 3 && ClearFinal(packet[0]) == PUT && HeadersIn(packet).outcome.Clean?
    ensures StepsOn(p, ServerReceive(p, packet), app)
  {
    hide Receive, ServerMore, ServerReply, Deliver, HeadersIn, StoreAll, LinkErrorIn, RestOk, OpcodesOk, QueueOk,
         Received, Backlog, Fits, CallsOk, Holds, Reqs, AcceptAll;
    TakenIn(p, app, st, packet, n, sim);
    var sim' := StoreAll(sim, HeadersIn(packet).headers);
    var hs := HeadersIn(packet).headers;
    ReceiveIs(p, packet);
    AcceptAllLoad(p, app, st, hs);
    AcceptAllReceives(p, hs);
    AddedQuietly(p.events, AcceptAll(p, hs).events, EvStreamAvail, IdOf(p.current));
    var p1 := Receive(p, packet).0;
    LighterFits(p, p1);
    if Final(packet[0]) { LastLoad(p1, app, st, packet, n); } else { FirstLoad(p1, app, st, packet, n, sim'); }
  }

  lemma LighterFits(p: Party, p': Party)
    requires Lighter(p, p') && Fits(p)
    ensures Fits(p') && TxBudget(p') == TxBudget(p)
  {
  }

  lemma LastLoad(p: Party, app: App, st: bool, packet: seq<byte>, n: nat)
    requires Serving(p, app, st) && n <= |p.events| && !p.current.value.firstSent && Measured(app) && Fits(p) &&
             |packet| >= 3
    ensures StepsOn(p, ServerRequest(p, packet, PUT, false), app)
  {
    hide ServerReply, Deliver, LinkErrorIn, RestOk, OpcodesOk, QueueOk, Received, Backlog, Fits, CallsOk, Reqs, Chunks;
    ServingCalls(p, app, st);
    Notified(p, app, st, EvReq, PUT, n);
    DeliverLoad(p, app, EvReq, PUT, 0, false, false);
    DeliverQuietly(p, EvReq, PUT, 0, false);
    var p1 := Deliver(p, EvReq, PUT, 0, false);
    var p2 := p1.(state := Responding, serverMode := true);
    StateLoad(p1, p2);
    LighterFits(p, p1);
    LighterFits(p1, p2);
    ReplyLoad(p2, app, st);
    assert ServerRequest(p, packet, PUT, false) == ServerReply(p2, PUT);
  }

  lemma FirstLoad(p: Party, app: App, st: bool, packet: seq<byte>, n: nat, sim: Rx)
    requires Taking(p, app, st, n) && Holds(p, n, sim) && Measured(app) && Fits(p) && |packet| >= 3
    ensures StepsOn(p, ServerMore(Checked(p, PUT), packet, PUT), app)
  {
    hide ServerMore, Deliver, LinkErrorIn, RestOk, OpcodesOk, QueueOk, Received, Backlog, Fits, CallsOk, Reqs, Holds;
    ServingCalls(p, app, st);
    CheckedSteady(p, app, st, n, sim);
    DeliverKeeps(p, EvReqCheck, PUT, 0);
    DeliverLoad(p, app, EvReqCheck, PUT, 0, false, false);
    DeliverQuietly(p, EvReqCheck, PUT, 0, false);
    var p1 := Deliver(p, EvReqCheck, PUT, 0, false);
    UpdateLoad(p1, p1.current.value.(checked := true));
    if !p.current.value.checked { LighterFits(p, p1); LighterFits(p1, Checked(p, PUT)); }
    MoreLoad(Checked(p, PUT), app, st, packet);
  }

  lemma AnnounceLoad(p: Party, app: App, st: bool, n: nat)
    requires Ready(p, app, st, n) && Measured(app) && Fits(p)
    ensures Lighter(p, Announced(p)) && (Stopped(Announced(p)) ==> Stopped(p))
  {
    hide Deliver, LinkErrorIn, RestOk, OpcodesOk, QueueOk, Received, CallsOk, ScriptWeight, ScriptFits;
    ReadyNow(app, p.script);
    var p0 := p.(current := Some(NewObject(p.nextId).(cmd := PUT)), nextId := p.nextId + 1);
    assert Lighter(p, p0);
    DeliverLoad(p0, app, EvReqHint, PUT, 0, false, true);
    DeliverQuietly(p0, EvReqHint, PUT, 0, false);
    DeliverOut(p0, EvReqHint, PUT, 0, false);
    StateLoad(Deliver(p0, EvReqHint, PUT, 0, false), Announced(p));
  }
}
