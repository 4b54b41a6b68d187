/** The client's side of a PUT: what it sends, whatever the server answers. */
module PutClient {
  import opened Octets
  import opened Headers
  import opened Fragmenter
  import opened Reassembler
  import opened Framing
  import opened Session
  import opened SessionFacts
  import opened Events
  import opened Lifetime
  import opened Lockstep
  import opened Put
  import opened PutServer

  /** A PUT under way, its application only looking on. */
  predicate Sending(p: Party, m: nat) {
    && p.current.Some? && !p.fault && p.linkFaults == [] && PassiveScript(p.script)
    && m <= |p.events| && NoEnd(p.events, m)
    && var o := p.current.value;
    && o.opcode == PUT && o.lastOpcode == SetFinal(PUT) && o.nonHeader.None? && o.headerOffset == 0
    && !o.rx.streaming && !o.abort
  }

  /** Waiting for the server. Nothing has ended since the m-th event. */
  predicate Keeping(p: Party, m: nat) {
    Waiting(p) && Sending(p, m)
  }

  /** The packet made next from the queue, and the queue after it. */
  predicate SentNext(p: Party, p': Party) {
    && p.current.Some? && p'.current.Some?
    && p.current.value.nonHeader.None? && p'.current.value.nonHeader.None?
    && var k := Packed(p);
    && k.status.Full?
    && p'.current.value.txQueue == k.queue && p'.current.value.stream == k.stream && p'.feed == k.feed
    && p'.out == p.out + [Frame(if k.queue == [] then SetFinal(PUT) else PUT, EncodeAll(k.frags))]
    && p'.txRoom == Max(p.txRoom, |EncodeAll(k.frags)| + 3)
    && p'.mtuTx == p.mtuTx && p'.irda == p.irda && p'.linkMtu == p.linkMtu && p'.rxRoom == p.rxRoom
    && (LinkErrorIn(p'.events) ==> LinkErrorIn(p.events))
  }

  /** The request has ended, with the response or because it made no sense. */
  predicate Closed(events: seq<Event>, m: nat, rsp: nat) {
    && |events| > m && NoEnd(events[..|events| - 1], m)
    && var last := events[|events| - 1];
    last.kind.EvParseErr? || (last.kind.EvReqDone? && last.rsp == rsp)
  }

  // ---- What reading leaves alone ----

  /** Objects that agree in everything a reading application leaves alone. */
  predicate SameTransfer(o: Object, o': Object) {
    && SameObject(o, o') && o'.txQueue == o.txQueue && o'.nonHeader == o.nonHeader
    && o'.headerOffset == o.headerOffset && o'.rx.streaming == o.rx.streaming
    && o'.opcode == o.opcode && o'.lastOpcode == o.lastOpcode
  }

  lemma {:induction false} ReadingCalls(o: Object, mtuTx: u16, calls: seq<ApiCall>)
    requires AllReading(calls)
    ensures SameTransfer(o, ApplyAll(o, mtuTx, calls))
    decreases |calls|
  {
    hide Received;
    if calls == [] {
    } else {
      ApplyKeeps(o, mtuTx, calls[0]);
      ReadingCalls(Apply(o, mtuTx, calls[0]), mtuTx, calls[1..]);
    }
  }

  lemma Noted(p: Party, kind: EventKind, cmd: nat, m: nat)
    requires Sending(p, m) && !Terminal(kind)
    ensures var p' := Deliver(p, kind, cmd, 0, false);
            && Sending(p', m) && SameHandle(p, p') && p'.out == p.out && p'.feed == p.feed && p'.txRoom == p.txRoom
            && p'.current.value.txQueue == p.current.value.txQueue
            && p'.current.value.stream == p.current.value.stream
            && SameHolding(p'.current.value.rx, p.current.value.rx)
            && (LinkErrorIn(p'.events) ==> LinkErrorIn(p.events))
  {
    hide ApplyAll, NoEnd, Reqs, Chunks, LinkErrorIn, Received;
    if !kind.EvLinkErr? { DeliverQuietly(p, kind, cmd, 0, false); }
    ReadingCalls(p.current.value, p.mtuTx, if p.script == [] then [] else p.script[0]);
    OneMore(p.events, EventOf(p, kind, cmd, 0), m);
  }

  // ---- Sending the next packet ----

  /** What sending leaves as it was. */
  predicate Onwards(p: Party, p': Party) {
    && p.current.Some? && p'.current.Some? && p'.fault == p.fault && p'.linkFaults == p.linkFaults
    && p'.script == p.script
    && var o, o' := p.current.value, p'.current.value;
    && o'.opcode == o.opcode && o'.lastOpcode == o.lastOpcode && o'.nonHeader == o.nonHeader
    && o'.headerOffset == o.headerOffset && o'.rx == o.rx && o'.abort == o.abort
  }

  lemma NextSent(p: Party, m: nat)
    requires Sending(p, m)
    ensures var (p', sent) := SendObject(p, true, false);
            if Packed(p).status.Full? then
              && !p'.fault && !sent.SendError? && Sending(p', m) && SentNext(p, p') && SameHandle(p, p')
              && p'.current.value.rx == p.current.value.rx
            else p'.fault || sent.SendError?
  {
    hide SendObject, Packed, SentNext, NoEnd, Reqs, Chunks, LinkErrorIn, PassiveScript;
    SendQuietly(p, true, false);
    NextMade(p);
    SendKeeps(p, true, false);
    ManyMore(p.events, SendObject(p, true, false).0.events, EvStreamEmpty, IdOf(p.current), m);
  }

  lemma NextMade(p: Party)
    requires p.current.Some? && p.current.value.nonHeader.None? && p.linkFaults == []
    requires p.current.value.opcode == PUT && p.current.value.lastOpcode == SetFinal(PUT)
    requires LinkErrorIn(SendObject(p, true, false).0.events) ==> LinkErrorIn(p.events)
    ensures var (p', sent) := SendObject(p, true, false);
            if Packed(p).status.Full? then !sent.SendError? && SentNext(p, p') && Onwards(p, p')
            else p'.fault || sent.SendError?
  {
    hide Pack, LinkErrorIn, Repeat;
    PackStops(p.current.value.txQueue, TxBudget(p), TxLimits(p), p.current.value.stream, p.feed);
    assert Tail(p.linkFaults) == p.linkFaults;
    assert [] + EncodeAll(Packed(p).frags) == EncodeAll(Packed(p).frags);
  }

  /** The first packet of a request. */
  lemma ClientStarts(p: Party, m: nat)
    requires Sending(p, m)
    ensures var p' := ClientStart(p, BAD_REQUEST);
            if Packed(p).status.Full? then Keeping(p', m) && SentNext(p, p') else Stopped(p')
  {
    hide SendObject, Deliver, LinkErrorIn, Packed, NoEnd;
    NextSent(p, m);
    SendKeeps(p, true, false);
    var (p1, sent) := SendObject(p, true, false);
    DeliverOut(p1.(state := Idle, serverMode := false), EvLinkErr, p1.current.value.opcode, 0, true);
    if !p1.fault && !sent.SendError? {
      Noted(Update(p1, p1.current.value.(firstSent := true)), EvProgress, PUT, m);
    }
  }

  // ---- Taking the server's answer ----

  /** Asked for more, the client sends the next packet of its queue. */
  lemma Continues(p: Party, p1: Party, m: nat)
    requires Keeping(p, m) && Keeping(p1, m)
    requires p1 == Update(p, p.current.value.(rx := p1.current.value.rx))
    ensures var p' := ClientContinue(p1);
            if Packed(p).status.Full? then
              Keeping(p', m) && SentNext(p, p') && SameHolding(p'.current.value.rx, p1.current.value.rx)
            else Stopped(p')
  {
    hide SendObject, Deliver, LinkErrorIn, Packed, NoEnd, PassiveScript, Received;
    var p0 := Update(p1, p1.current.value.(continueReceived := true));
    PackedSame(p, p0.current.value);
    assert p0 == Update(p, p0.current.value);
    NextSent(p0, m);
    SendKeeps(p0, true, false);
    var (p2, sent) := SendObject(p0, true, false);
    DeliverOut(p2, EvLinkErr, p2.current.value.opcode, 0, true);
    if !p2.fault && !sent.SendError? { Noted(p2, EvProgress, PUT, m); }
  }

  /** The client is done, after an event of this kind, and has sent nothing more. */
  predicate ClosedBy(p: Party, p': Party, kind: EventKind, rsp: nat, m: nat) {
    && Rested(p') && PassiveScript(p'.script) && p'.out == p.out && Closed(p'.events, m, rsp)
    && p'.events[|p'.events| - 1].kind == kind && (LinkErrorIn(p'.events) ==> LinkErrorIn(p.events))
  }

  /** The last thing the application was told is about this PUT, with the headers held here. */
  predicate Showing(p': Party, rx: Rx) {
    |p'.events| > 0 && var last := p'.events[|p'.events| - 1]; last.cmd == PUT && last.received == Received(rx)
  }

  lemma Ends(p: Party, kind: EventKind, evRsp: nat, m: nat, rsp: nat)
    requires Sending(p, m) && (kind.EvParseErr? || (kind.EvReqDone? && rsp == evRsp))
    ensures var p' := DeliverOwn(ServerIdle(p), kind, evRsp, true);
            ClosedBy(p, p', kind, rsp, m) && Showing(p', p.current.value.rx)
  {
    hide NoEnd, Received;
    var p0 := ServerIdle(p);
    var e := EventOf(p0, kind, p.current.value.opcode, evRsp);
    assert (p.events + [e])[..|p.events|] == p.events;
  }

  /** Headers of the response are stored. */
  lemma Looks(p: Party, packet: seq<byte>, m: nat)
    requires Keeping(p, m) && |packet| >= 3
    ensures var (p1, outcome) := Receive(p, packet);
            && Keeping(p1, m) && p1 == Update(p, p.current.value.(rx := p1.current.value.rx))
            && outcome == HeadersIn(packet).outcome
            && p1.current.value.rx == StoreAll(p.current.value.rx, HeadersIn(packet).headers)
  {
    hide AcceptAll, ParseHeaders, NoEnd, PassiveScript;
    ReceiveIs(p, packet);
    AcceptAllStores(p, HeadersIn(packet).headers);
    StoreAllKeepsMode(p.current.value.rx, HeadersIn(packet).headers);
  }

  /** CONTINUE asks for the next packet, any other response ends the request. The headers of the
      response are taken in first: they are behind those held before when the application is told
      of the end, and are kept while the request goes on. */
  lemma TakesAnswer(p: Party, packet: seq<byte>, m: nat)
    requires Keeping(p, m) && |packet| >= 3
    ensures var p' := ClientStep(p, Some(packet));
            var rsp := ClearFinal(packet[0]);
            var rx := StoreAll(p.current.value.rx, HeadersIn(packet).headers);
            match HeadersIn(packet).outcome
            case Beyond => p'.fault
            case Broken => ClosedBy(p, p', EvParseErr, rsp, m) && Showing(p', rx)
            case Clean =>
              if rsp != CONTINUE then ClosedBy(p, p', EvReqDone, rsp, m) && Showing(p', rx)
              else if Packed(p).status.Full? then
                Keeping(p', m) && SentNext(p, p') && SameHolding(p'.current.value.rx, rx)
              else Stopped(p')
  {
    hide Receive, ClientContinue, Deliver, LinkErrorIn, Packed, NoEnd, PassiveScript, HeadersIn, SentNext, Closed,
         Showing, SameHolding, StoreAll;
    var rsp := ClearFinal(packet[0]);
    Looks(p, packet, m);
    var p1 := Receive(p, packet).0;
    Continues(p, p1, m);
    Ends(p1, EvParseErr, 0, m, rsp);
    Ends(p1, EvReqDone, rsp, m, rsp);
    assert ClientStep(p, Some(packet)) == ClientHeaders(p, packet, rsp);
  }

  // ---- The packet seen from the other side ----

  /** The server's holding and the client's queue make up the whole. */
  predicate Balanced(rx: Rx, c: Party, whole: seq<Header>)
    requires c.current.Some?
  {
    InStep(rx, c.current.value.txQueue, c.current.value.stream, c.feed, whole)
  }

  /** The packet a client has just made: its headers bring the server level with the queue. */
  lemma NextPacket(rx: Rx, c: Party, c': Party, whole: seq<Header>)
    requires c.current.Some? && SentNext(c, c') && Balanced(rx, c, whole)
    ensures var packet := c'.out[|c.out|];
            && |c'.out| == |c.out| + 1 && c.out <= c'.out && |packet| >= 3
            && packet[0] == (if c'.current.value.txQueue == [] then SetFinal(PUT) else PUT)
            && HeadersIn(packet).outcome.Clean?
            && Balanced(StoreAll(rx, HeadersIn(packet).headers), c', whole)
  {
    hide Pack, StoreAll, InStep;
    var o := c.current.value;
    var k := Packed(c);
    var packet := c'.out[|c.out|];
    assert packet[3..] == EncodeAll(k.frags);
    Frugal(rx, c, whole);
    PackWellFormed(o.txQueue, TxBudget(c), TxLimits(c), o.stream, c.feed);
    ParseEncoded(k.frags, false);
    PackKeeps(rx, o.txQueue, TxBudget(c), TxLimits(c), o.stream, c.feed, whole);
  }

  lemma Frugal(rx: Rx, c: Party, whole: seq<Header>)
    requires c.current.Some? && Balanced(rx, c, whole)
    ensures WellFormedQueue(c.current.value.txQueue)
  {
  }

  /** With nothing left to send the packet is bare. */
  lemma EmptyPacket(c: Party, c': Party)
    requires c.current.Some? && SentNext(c, c') && c.current.value.txQueue == []
    ensures c'.out == c.out + [Frame(SetFinal(PUT), [])] && c'.current.value.txQueue == []
    ensures c'.current.value.stream == c.current.value.stream && c'.feed == c.feed
  {
    var o := c.current.value;
    assert Packed(c) == Packing([], [], TxBudget(c), o.stream, c.feed, 0, Full);
  }
}
