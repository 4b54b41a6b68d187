/** What an application's calls put into the transmit queue and take from the received headers. */
module Queueing {
  import opened Octets
  import opened Headers
  import opened Fragmenter
  import opened Reassembler
  import opened Transfer
  import opened Outcomes
  import opened Session
  import opened SessionFacts

  // ---- The queue stands for the headers added ----

  /** What an element other than a stream stands for. */
  function MeaningOf(e: TxElement): seq<Header> {
    match e
    case TxHeader(h) => [h]
    case TxBody(buf, touched) => [Header(BODY, BodyRest(buf, touched))]
    case _ => []
  }

  lemma {:induction false} MeaningAppend(q: seq<TxElement>, e: TxElement, s: Stream, feed: seq<StreamCall>)
    requires !e.TxStream?
    ensures Meaning(q + [e], s, feed) == Meaning(q, s, feed) + MeaningOf(e)
    decreases |q|
  {
    if q == [] {
      assert q + [e] == [e] && [e][1..] == [];
    } else {
      assert (q + [e])[0] == q[0] && (q + [e])[1..] == q[1..] + [e];
      if q[0].TxStream? {
        MeaningAppend(q[1..], e, Stream([], true), []);
      } else {
        MeaningAppend(q[1..], e, s, feed);
      }
    }
  }

  /** Calls that add headers other than streams. */
  predicate PlainHeaders(calls: seq<ApiCall>) {
    forall i :: 0 <= i < |calls| ==> calls[i].AddHeader? && !calls[i].streamStart
  }

  /** The header of a call, if the object accepts it. */
  function Accepted(o: Object, mtuTx: u16, c: ApiCall): seq<Header>
    requires c.AddHeader?
  {
    if c.hi != EMPTY && Accepts(o, mtuTx, c.hi, c.hv, c.fitOnePacket) then [HeaderOf(c.hi, c.hv)] else []
  }

  /** The headers of these calls that the object accepts, one after another. */
  function Taken(o: Object, mtuTx: u16, calls: seq<ApiCall>): seq<Header>
    requires PlainHeaders(calls)
    decreases |calls|
  {
    if calls == [] then []
    else Accepted(o, mtuTx, calls[0]) + Taken(Apply(o, mtuTx, calls[0]), mtuTx, calls[1..])
  }

  lemma HeaderKeepsId(hi: byte, hv: HeaderData)
    ensures HeaderOf(hi, hv).hi == hi
  {
  }

  lemma EncodedRest(h: Header)
    requires h.hi == BODY
    ensures BodyRest(Encode(h), false) == h.value
  {
  }

  /** What a call adds to the queue, and what that stands for. */
  lemma AddedElement(o: Object, mtuTx: u16, c: ApiCall) returns (es: seq<TxElement>)
    requires c.AddHeader? && !c.streamStart
    ensures Apply(o, mtuTx, c).txQueue == o.txQueue + es
    ensures es == [] || (|es| == 1 && !es[0].TxStream?)
    ensures Accepted(o, mtuTx, c) == if es == [] then [] else MeaningOf(es[0])
    ensures forall e <- es :: e.TxHeader? ==> e.header == HeaderOf(c.hi, c.hv) && c.hi != BODY && c.hi != EMPTY
  {
    hide HeaderOf, Accepts, Encode, BodyRest;
    var h := HeaderOf(c.hi, c.hv);
    HeaderKeepsId(c.hi, c.hv);
    es := [];
    if c.hi == EMPTY {
      es := [TxEmpty];
    } else if Accepts(o, mtuTx, c.hi, c.hv, c.fitOnePacket) {
      es := [if c.hi == BODY then TxBody(Encode(h), false) else TxHeader(h)];
      if c.hi == BODY { EncodedRest(h); }
    }
  }

  /** Adding headers to an object queues exactly the accepted ones, in order, behind what was
      queued: the prefix a body is stored with until it is sent is no part of it. */
  lemma {:induction false} QueueMeansCalls(o: Object, mtuTx: u16, calls: seq<ApiCall>, s: Stream, feed: seq<StreamCall>)
    requires PlainHeaders(calls)
    ensures var o' := ApplyAll(o, mtuTx, calls);
            Meaning(o'.txQueue, s, feed) == Meaning(o.txQueue, s, feed) + Taken(o, mtuTx, calls)
    decreases |calls|
  {
    hide Apply, Meaning, Accepted;
    if calls == [] {
    } else {
      var o1, c := Apply(o, mtuTx, calls[0]), calls[0];
      var es := AddedElement(o, mtuTx, c);
      if es == [] {
        assert o.txQueue + es == o.txQueue;
      } else {
        assert es == [es[0]];
        MeaningAppend(o.txQueue, es[0], s, feed);
      }
      QueueMeansCalls(o1, mtuTx, calls[1..], s, feed);
      Associate(Meaning(o.txQueue, s, feed), Accepted(o, mtuTx, c), Taken(o1, mtuTx, calls[1..]));
    }
  }

  // ---- What exactly is queued ----

  /** The octets a header takes up, by its identifier alone. */
  function SizeOnWire(hi: byte, hv: HeaderData): nat {
    if hi < 0x80 then |hv.bs| + 3 else if hi < 0xc0 then 2 else 5
  }

  /** Those octets, by arithmetic: which part of the untagged value is sent and in which order. */
  lemma WireOctets(hi: byte, hv: HeaderData)
    ensures var d := Encode(HeaderOf(hi, hv));
            && |d| == SizeOnWire(hi, hv) && d[0] == hi
            && if hi < 0x80 then d[3..] == hv.bs && (d[1] as int) * 0x100 + d[2] == |d| % 0x1_0000
               else if hi < 0xc0 then d[1] == hv.bq1
               else hv.bq4 == (d[1] as int) * 0x100_0000 + (d[2] as int) * 0x1_0000 + (d[3] as int) * 0x100 + d[4]
  {
    hide Encode, Big32;
    EncodedOctets(HeaderOf(hi, hv));
    Big32Octets(hv.bq4);
    var d := Encode(HeaderOf(hi, hv));
    if hi >= 0xc0 { assert forall i :: 0 <= i < 4 ==> d[1 + i] == d[1..][i]; }
  }

  /** Without the flag a header is queued, behind everything else, if and only if it is a body or
      fits a packet of its own; otherwise the object stays as it was. */
  lemma QueuedExactly(o: Object, mtuTx: u16, hi: byte, hv: HeaderData)
    requires mtuTx >= 3 && hi != EMPTY
    ensures var o' := Apply(o, mtuTx, AddHeader(hi, hv, false, false));
            if hi == BODY || SizeOnWire(hi, hv) <= mtuTx - 3 then
              && |o'.txQueue| == |o.txQueue| + 1 && o.txQueue <= o'.txQueue
              && MeaningOf(o'.txQueue[|o.txQueue|]) == [HeaderOf(hi, hv)]
              && o' == o.(txQueue := o'.txQueue, total := o.total + SizeOnWire(hi, hv))
            else o' == o
  {
    HeaderKeepsId(hi, hv);
    WireOctets(hi, hv);
    if hi == BODY { EncodedRest(HeaderOf(hi, hv)); }
  }

  /** A body of any length is taken, whatever the packet size: it is what the queue then means
      besides what it meant before. */
  lemma BodyTaken(o: Object, mtuTx: u16, bs: seq<byte>, s: Stream, feed: seq<StreamCall>)
    ensures var o' := Apply(o, mtuTx, AddHeader(BODY, HeaderData(0, 0, bs), false, false));
            Meaning(o'.txQueue, s, feed) == Meaning(o.txQueue, s, feed) + [Header(BODY, bs)]
  {
    var h := Header(BODY, bs);
    assert HeaderOf(BODY, HeaderData(0, 0, bs)) == h;
    EncodedRest(h);
    MeaningAppend(o.txQueue, TxBody(Encode(h), false), s, feed);
  }

  /** A stream stands for everything the application will feed it with. */
  lemma StreamTaken(o: Object, mtuTx: u16, hi: byte, hv: HeaderData, fit: bool, feed: seq<StreamCall>)
    requires forall i :: 0 <= i < |o.txQueue| ==> !o.txQueue[i].TxStream?
    ensures var o' := Apply(o, mtuTx, AddHeader(hi, hv, fit, true));
            Meaning(o'.txQueue, Stream([], false), feed) ==
            Meaning(o.txQueue, Stream([], false), feed) + [Header(BODY, FeedContent(feed))]
  {
    FirstStream(o.txQueue, Stream([], false), feed);
    assert [] + FeedContent(feed) == FeedContent(feed);
  }

  lemma {:induction false} FirstStream(q: seq<TxElement>, s: Stream, feed: seq<StreamCall>)
    requires forall i :: 0 <= i < |q| ==> !q[i].TxStream?
    ensures Meaning(q + [TxStream], s, feed) == Meaning(q, s, feed) + [Header(BODY, Content(s, feed))]
  {
    if q == [] {
      assert q + [TxStream] == [TxStream] && [TxStream][1..] == [];
    } else {
      assert (q + [TxStream])[0] == q[0] && (q + [TxStream])[1..] == q[1..] + [TxStream];
      FirstStream(q[1..], s, feed);
    }
  }

  /** A marker without contents stands for nothing. */
  lemma MarkerTaken(o: Object, mtuTx: u16, hv: HeaderData, fit: bool, s: Stream, feed: seq<StreamCall>)
    ensures var o' := Apply(o, mtuTx, AddHeader(EMPTY, hv, fit, false));
            |o'.txQueue| == |o.txQueue| + 1 && Meaning(o'.txQueue, s, feed) == Meaning(o.txQueue, s, feed)
  {
    MeaningAppend(o.txQueue, TxEmpty, s, feed);
  }

  // ---- The promise of a single packet ----

  /** Headers that must all fit one packet, bodies among them. */
  predicate OnePacketHeaders(calls: seq<ApiCall>) {
    forall i :: 0 <= i < |calls| ==>
      calls[i].AddHeader? && calls[i].fitOnePacket && !calls[i].streamStart && calls[i].hi != EMPTY
  }

  /** The queue's size is on the books and within one packet. */
  predicate WithinOnePacket(o: Object, mtuTx: u16) {
    SizedOnly(o.txQueue) && o.total == QueueSize(o.txQueue) && o.total + 3 <= mtuTx
  }

  lemma OnePacketStep(o: Object, mtuTx: u16, c: ApiCall)
    requires WithinOnePacket(o, mtuTx)
    requires c.AddHeader? && c.fitOnePacket && !c.streamStart && c.hi != EMPTY
    ensures WithinOnePacket(Apply(o, mtuTx, c), mtuTx)
  {
    if Accepts(o, mtuTx, c.hi, c.hv, true) {
      var h := HeaderOf(c.hi, c.hv);
      var e := if c.hi == BODY then TxBody(Encode(h), false) else TxHeader(h);
      QueueSizeAppend(o.txQueue, [e]);
      assert [e][1..] == [];
      assert ElementSize(e) == EncodedSize(h);
    }
  }

  lemma {:induction false} OnePacketKept(o: Object, mtuTx: u16, calls: seq<ApiCall>)
    requires WithinOnePacket(o, mtuTx) && OnePacketHeaders(calls)
    ensures WithinOnePacket(ApplyAll(o, mtuTx, calls), mtuTx)
    decreases |calls|
  {
    if calls == [] {
    } else {
      OnePacketStep(o, mtuTx, calls[0]);
      OnePacketKept(Apply(o, mtuTx, calls[0]), mtuTx, calls[1..]);
    }
  }

  /** With the flag on every header, the first packet takes the whole queue. */
  lemma OnePacketPromise(p: Party, calls: seq<ApiCall>)
    requires p.current.Some? && WithinOnePacket(p.current.value, p.mtuTx) && OnePacketHeaders(calls)
    requires !p.irda && p.linkFaults == []
    ensures var o := ApplyAll(p.current.value, p.mtuTx, calls);
            var (p', sent) := SendObject(Update(p, o), true, false);
            sent.SendDone? && p'.current.value.txQueue == [] && o.total <= p.mtuTx - 3
  {
    hide Pack, ApplyAll;
    OnePacketKept(p.current.value, p.mtuTx, calls);
    var o := ApplyAll(p.current.value, p.mtuTx, calls);
    PackAll(o.txQueue, TxBudget(p), TxLimits(Update(p, o)), o.stream, p.feed);
  }

  /** The flag is honoured exactly as long as the running total is within one packet. */
  lemma FlagHonoured(o: Object, mtuTx: u16, hi: byte, hv: HeaderData)
    requires mtuTx >= 3 && o.total < 0x8000_0000
    ensures o.total + 3 <= mtuTx ==>
              (Accepts(o, mtuTx, hi, hv, true) <==> o.total + EncodedSize(HeaderOf(hi, hv)) + 3 <= mtuTx)
    ensures o.total + 3 > mtuTx && EncodedSize(HeaderOf(hi, hv)) <= 0x7fff_ffff ==> Accepts(o, mtuTx, hi, hv, true)
  {
  }

  /** So two headers added without the flag let a third one with it pass that cannot fit. */
  lemma FlagIgnored(n: nat)
    ensures var hv := HeaderData(0, 0, seq(200, i => 1));
            var calls := [AddHeader(0x42, hv, false, false), AddHeader(0x42, hv, false, false)];
            var o := ApplyAll(NewObject(n), 255, calls);
            o.total > 255 && Accepts(o, 255, 0x46, hv, true)
  {
    var hv := HeaderData(0, 0, seq(200, i => 1));
    var c := AddHeader(0x42, hv, false, false);
    var o := NewObject(n);
    var o1 := Apply(o, 255, c);
    var o2 := Apply(o1, 255, c);
    var calls := [c, c];
    assert calls[1..] == [c];
    assert [c][1..] == [];
    assert ApplyAll(o, 255, calls) == ApplyAll(o1, 255, [c]) == ApplyAll(o2, 255, []) == o2;
  }

  lemma AddedFitStep(o: Object, mtuTx: u16, c: ApiCall)
    requires mtuTx >= 3 && Fitting(o.txQueue, mtuTx - 3) && !(c.AddHeader? && c.fitOnePacket)
    ensures Fitting(Apply(o, mtuTx, c).txQueue, mtuTx - 3)
  {
  }

  /** Without the flag every header other than a body fits a packet of its own. */
  lemma {:induction false} AddedFit(o: Object, mtuTx: u16, calls: seq<ApiCall>)
    requires mtuTx >= 3 && Fitting(o.txQueue, mtuTx - 3)
    requires forall i :: 0 <= i < |calls| ==> !(calls[i].AddHeader? && calls[i].fitOnePacket)
    ensures Fitting(ApplyAll(o, mtuTx, calls).txQueue, mtuTx - 3)
    decreases |calls|
  {
    hide Apply, Fitting;
    if calls == [] {
    } else {
      AddedFitStep(o, mtuTx, calls[0]);
      AddedFit(Apply(o, mtuTx, calls[0]), mtuTx, calls[1..]);
    }
  }

  /** On IrDA that is not enough: a header the object accepts may fit no packet once the
      budget is rounded, and then every packet goes out without it. */
  lemma RoundingStarves(h: Header)
    requires EncodedSize(h) == 200 && LengthPrefixed(h.hi) && h.hi != EMPTY && h.hi != BODY
    ensures var o := AddTo(NewObject(0), 255, h.hi, HeaderData(0, 0, h.value), false, false);
            var p := Party(Idle, true, Some(o), 255, 1024, 1024, true, 200, 1024, 1024, [], [], [], [], [], [], [], 1,
                           false);
            && o.txQueue == [TxHeader(h)]
            && SendObject(p, true, false).1 == SendMore
            && SendObject(p, true, false).0.current.value.txQueue == o.txQueue
  {
    var o := AddTo(NewObject(0), 255, h.hi, HeaderData(0, 0, h.value), false, false);
    var p := Party(Idle, true, Some(o), 255, 1024, 1024, true, 200, 1024, 1024, [], [], [], [], [], [], [], 1, false);
    assert TxBudget(p) == 197;
    assert Packed(p) == PackStep(o.txQueue, 197, TxLimits(p), o.stream, []);
  }

  /** Exactly when a send goes out full and leaves the queue as it was: with a header in front
      that the packet size would allow, but not the budget. */
  lemma StarvesExactly(p: Party, h: Header)
    requires p.current.Some? && p.current.value.txQueue != [] && p.current.value.txQueue[0] == TxHeader(h)
    ensures Packed(p).status.Full? && Packed(p).queue == p.current.value.txQueue
            <==> TxBudget(p) < EncodedSize(h) <= p.mtuTx
  {
    hide TxBudget;
    var o := p.current.value;
    var a := PackStep(o.txQueue, TxBudget(p), TxLimits(p), o.stream, p.feed);
    if a.status.More? { PackShrinks(a.queue, a.left, After(TxLimits(p), a), o.stream, p.feed); }
  }

  lemma {:induction false} PackShrinks(q: seq<TxElement>, left: nat, lim: Limits, s: Stream, feed: seq<StreamCall>)
    ensures |Pack(q, left, lim, s, feed).queue| <= |q|
    decreases |q|, |feed|
  {
    if q == [] {
    } else {
      var a := PackStep(q, left, lim, s, feed);
      if a.status.More? { PackShrinks(a.queue, a.left, After(lim, a), a.stream, a.feed); }
    }
  }

  /** So a queue of headers gets through exactly when each of them is within the budget. */
  lemma HeadersGetThrough(p: Party)
    requires p.current.Some? && TxBudget(p) <= p.mtuTx
    requires forall i :: 0 <= i < |p.current.value.txQueue| ==> p.current.value.txQueue[i].TxHeader?
    ensures var o := p.current.value;
            Fitting(o.txQueue, TxBudget(p)) <==>
            exists n: nat ::
              var t := SendMany(n, o.txQueue, TxBudget(p), TxLimits(p), o.stream, p.feed);
              t.status.Full? && t.queue == []
  {
    hide SendMany, Fitting, TxBudget;
    var o := p.current.value;
    HeadersDelivered(o.txQueue, TxBudget(p), TxLimits(p), o.stream, p.feed);
  }

  // ---- Reading received headers ----

  /** What happens to the received headers of an object. */
  datatype RxOp = Arrive(header: Header) | TakeNext | Again

  /** What a header adds to those that have arrived whole: a body with its last fragment. */
  function Gained(rx: Rx, h: Header): seq<Header> {
    if h.hi == BODY then []
    else if h.hi == END_OF_BODY then [Header(BODY, Partial(rx.body) + h.value)]
    else [h]
  }

  /** The two lists, all headers that arrived, and those handed out since the last rewind. */
  datatype Ledger = Ledger(rx: Rx, arrived: seq<Header>, handed: seq<Header>)

  function Perform(l: Ledger, op: RxOp): Ledger {
    match op
    case Arrive(h) => Ledger(Store(l.rx, h), l.arrived + Gained(l.rx, h), l.handed)
    case TakeNext =>
      if l.rx.unread == [] then l else Ledger(Next(l.rx), l.arrived, l.handed + [l.rx.unread[0]])
    case Again =>
      if l.rx.unread != [] then l else Ledger(Reparse(l.rx), l.arrived, [])
  }

  function PerformAll(l: Ledger, ops: seq<RxOp>): Ledger
    decreases |ops|
  {
    if ops == [] then l else PerformAll(Perform(l, ops[0]), ops[1..])
  }

  predicate Balances(l: Ledger) {
    l.rx.read == l.handed && Received(l.rx) == l.arrived
  }

  /** However arrivals, fragments of bodies among them, reads and rewinds interleave, the read
      headers followed by the unread ones are all that arrived, a body where its last fragment
      came, and each pass hands them out once and in order. */
  lemma {:induction false} LedgerBalances(l: Ledger, ops: seq<RxOp>)
    requires Balances(l)
    ensures var l' := PerformAll(l, ops);
            Balances(l') && l'.handed <= l'.arrived && (l'.rx.unread == [] ==> l'.handed == l'.arrived)
    decreases |ops|
  {
    if ops == [] {
    } else {
      var op := ops[0];
      if op.Arrive? {
        StoreOne(l.rx, op.header);
      } else if op.TakeNext? && l.rx.unread != [] {
        ApplyKeeps(NewObject(0).(rx := l.rx), 255, NextHeader);
      }
      LedgerBalances(Perform(l, op), ops[1..]);
    }
  }
}
