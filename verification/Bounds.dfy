/**
 The size of the packets of whole runs. As long as nobody connects or disconnects, a handle
 keeps its packet size, and what it sends stays within it but for three octets for every
 body that ends before the end of the packet.
 */
module Bounds {
  import opened Octets
  import opened Headers
  import opened Fragmenter
  import opened Reassembler
  import opened Framing
  import opened Session
  import opened SessionFacts
  import opened Lifetime
  import opened Put
  import opened Connect

  // ---- Modest packets ----

  /** Bodies that end before the last header of the packet. */
  function Early(hs: seq<Header>): nat {
    if hs == [] then 0
    else (if hs[0].hi == END_OF_BODY && |hs| > 1 then 1 else 0) + Early(hs[1..])
  }

  lemma {:induction false} EarlyAppend(a: seq<Header>, b: seq<Header>)
    requires |a| <= 1
    ensures Early(a + b) == (if a != [] && a[0].hi == END_OF_BODY && b != [] then 1 else 0) + Early(b)
  {
    if a == [] {
      assert a + b == b;
    } else {
      assert (a + b)[1..] == b;
    }
  }

  /** No body ends before the last header. */
  lemma {:induction false} EarlyNone(hs: seq<Header>)
    requires forall i :: 0 <= i < |hs| - 1 ==> hs[i].hi != END_OF_BODY
    ensures Early(hs) == 0
  {
    if hs == [] {
    } else {
      assert forall i :: 0 <= i < |hs[1..]| - 1 ==> hs[1..][i] == hs[i + 1];
      EarlyNone(hs[1..]);
    }
  }

  /** An opcode that leaves packet sizes alone. */
  predicate Neutral(op: byte) {
    ClearFinal(op) != CONNECT && ClearFinal(op) != DISCONNECT
  }

  /** A packet of headers and nothing else, within the given size but for bodies ended early. */
  predicate Modest(packet: seq<byte>, size: nat) {
    && |packet| >= 3 && Neutral(packet[0]) && HeadersIn(packet).outcome.Clean?
    && |packet| <= size + 3 * Early(HeadersIn(packet).headers)
  }

  // ---- Packing ----

  /** Values of one and four octets are that long. */
  predicate FixedSizes(q: seq<TxElement>) {
    forall i :: 0 <= i < |q| && q[i].TxHeader? ==>
      match EncodingOf(q[i].header.hi)
      case OneByte => |q[i].header.value| == 1
      case FourByte => |q[i].header.value| == 4
      case _ => true
  }

  /** What is packed is well-formed, whatever was queued: longer headers never fit. */
  lemma {:induction false} PackFormed(q: seq<TxElement>, left: nat, lim: Limits, s: Stream, feed: seq<StreamCall>)
    requires FixedSizes(q) && left < 0x1_0000
    ensures var k := Pack(q, left, lim, s, feed); AllWellFormed(k.frags) && FixedSizes(k.queue)
    decreases |q|, |feed|
  {
    if q == [] {
    } else {
      var a := PackStep(q, left, lim, s, feed);
      assert FixedSizes(a.queue);
      if a.status.More? { PackFormed(a.queue, a.left, After(lim, a), a.stream, a.feed); }
    }
  }

  /** Every body that is overdrawn ends early in the packet. */
  lemma {:induction false} OverdrawnEarly(q: seq<TxElement>, left: nat, lim: Limits, s: Stream, feed: seq<StreamCall>)
    ensures Overdrawn(q, left, lim, s, feed) <= Early(Pack(q, left, lim, s, feed).frags)
    decreases |q|, |feed|
  {
    if q == [] {
    } else {
      var a := PackStep(q, left, lim, s, feed);
      if a.status.More? {
        var b := Pack(a.queue, a.left, After(lim, a), a.stream, a.feed);
        OverdrawnEarly(a.queue, a.left, After(lim, a), a.stream, a.feed);
        EarlyAppend(a.frags, b.frags);
      }
    }
  }

  lemma NeutralOpcode(o: Object, queue: seq<TxElement>, allowFinal: bool, forceFinal: bool)
    requires Neutral(o.opcode) && Neutral(o.lastOpcode)
    ensures Neutral(PacketOpcode(o, queue, allowFinal, forceFinal))
  {
  }

  lemma PackModest(p: Party, allowFinal: bool, forceFinal: bool)
    requires p.current.Some? && SoundBudget(p) && TameObject(p.current.value)
    ensures Modest(PacketOf(p, allowFinal, forceFinal), p.mtuTx)
  {
    hide Pack, Early, Overdrawn, Neutral, FixedSizes, TxBudget, ParseHeaders;
    var o := p.current.value;
    var k := Packed(p);
    NeutralOpcode(o, k.queue, allowFinal, forceFinal);
    PackFormed(o.txQueue, TxBudget(p), TxLimits(p), o.stream, p.feed);
    ParseEncoded(k.frags, false);
    PackBound(o.txQueue, TxBudget(p), TxLimits(p), o.stream, p.feed);
    OverdrawnEarly(o.txQueue, TxBudget(p), TxLimits(p), o.stream, p.feed);
    assert PacketOf(p, allowFinal, forceFinal)[3..] == [] + EncodeAll(k.frags) == EncodeAll(k.frags);
  }

  lemma BareModest(op: byte, size: nat)
    requires Neutral(op) && size >= 3
    ensures Modest(Frame(op, []), size)
  {
    assert Frame(op, [])[3..] == [];
  }

  // ---- Tame applications ----

  /** Calls that do not connect, disconnect, or put data before the headers. */
  predicate TameCall(c: ApiCall) {
    match c
    case SetResponse(rsp, last) => Neutral(rsp) && Neutral(last)
    case SetNonHeaderData(_) => false
    case _ => true
  }

  predicate TameCalls(calls: seq<ApiCall>) {
    forall i :: 0 <= i < |calls| ==> TameCall(calls[i])
  }

  predicate TameScript(script: seq<seq<ApiCall>>) {
    forall i :: 0 <= i < |script| ==> TameCalls(script[i])
  }

  predicate TameObject(o: Object) {
    Neutral(o.opcode) && Neutral(o.lastOpcode) && Neutral(o.cmd) && o.nonHeader.None? && FixedSizes(o.txQueue)
  }

  /** A handle that has kept its packet sizes since, and sent only modest packets. */
  predicate Tame(p: Party, base: Party) {
    && p.mtuTx == base.mtuTx && p.mtuRx == base.mtuRx && SoundBudget(p) && TameScript(p.script)
    && (p.current.Some? ==> TameObject(p.current.value))
    && base.out <= p.out && forall i :: |base.out| <= i < |p.out| ==> Modest(p.out[i], base.mtuTx)
  }

  lemma {:induction false} TameApplied(o: Object, mtuTx: u16, calls: seq<ApiCall>)
    requires TameObject(o) && TameCalls(calls)
    ensures TameObject(ApplyAll(o, mtuTx, calls))
    decreases |calls|
  {
    if calls == [] {
    } else {
      assert TameCall(calls[0]);
      TameOne(o, mtuTx, calls[0]);
      TameApplied(Apply(o, mtuTx, calls[0]), mtuTx, calls[1..]);
    }
  }

  lemma TameOne(o: Object, mtuTx: u16, c: ApiCall)
    requires TameObject(o) && TameCall(c)
    ensures TameObject(Apply(o, mtuTx, c))
  {
    hide Accepts;
  }

  // ---- The steps of a handle ----

  lemma SoundSame(p: Party, p': Party)
    requires p'.mtuTx == p.mtuTx && p'.irda == p.irda && p'.linkMtu == p.linkMtu
    ensures SoundBudget(p') == SoundBudget(p)
  {
  }

  lemma TameDelivered(p: Party, kind: EventKind, cmd: nat, rsp: nat, delete: bool, base: Party)
    requires Tame(p, base)
    ensures Tame(Deliver(p, kind, cmd, rsp, delete), base)
    ensures p.current.Some? && !delete ==> Deliver(p, kind, cmd, rsp, delete).current.Some?
  {
    hide Modest, ApplyAll, EventOf, SoundBudget, TameObject;
    SoundSame(p, Deliver(p, kind, cmd, rsp, delete));
    var calls := if p.script == [] then [] else p.script[0];
    assert TameCalls(calls);
    if p.current.Some? { TameApplied(p.current.value, p.mtuTx, calls); }
  }

  lemma TameAdded(p: Party, p': Party, base: Party, packet: seq<byte>)
    requires Tame(p, base) && Modest(packet, base.mtuTx)
    requires p' == p.(out := p'.out, linkFaults := p'.linkFaults, txRoom := p'.txRoom)
    requires p'.out == p.out || p'.out == p.out + [packet]
    ensures Tame(p', base)
  {
    hide Modest, SoundBudget, TameObject, TameScript;
    SoundSame(p, p');
  }

  lemma TameResponded(p: Party, rsp: byte, base: Party)
    requires Tame(p, base) && Neutral(rsp)
    ensures Tame(Respond(p, rsp), base)
  {
    hide Modest, TameObject, TameScript;
    BareModest(SetFinal(rsp), base.mtuTx);
    TameAdded(p, Respond(p, rsp), base, Frame(SetFinal(rsp), []));
  }

  lemma TameUpdated(p: Party, o: Object, base: Party)
    requires Tame(p, base) && TameObject(o)
    ensures Tame(Update(p, o), base)
  {
    hide Modest, SoundBudget, TameObject, TameScript;
    SoundSame(p, Update(p, o));
  }

  lemma TameMoved(p: Party, p': Party, base: Party)
    requires Tame(p, base)
    requires p' == p.(state := p'.state, serverMode := p'.serverMode, fault := p'.fault, rxRoom := p'.rxRoom,
                      stale := p'.stale)
    ensures Tame(p', base)
  {
    hide Modest, SoundBudget, TameObject, TameScript;
    SoundSame(p, p');
  }

  lemma TameSent(p: Party, allowFinal: bool, forceFinal: bool, base: Party)
    requires Tame(p, base) && p.current.Some?
    ensures SendObject(p, allowFinal, forceFinal).0.current.Some? && Tame(SendObject(p, allowFinal, forceFinal).0, base)
  {
    hide Modest, Pack, SoundBudget, TameScript, Neutral;
    var o := p.current.value;
    PackModest(p, allowFinal, forceFinal);
    PackFormed(o.txQueue, TxBudget(p), TxLimits(p), o.stream, p.feed);
    var p1 := AfterPacking(p);
    SoundSame(p, p1);
    assert Tame(p1, base);
    TameMoved(p1, p1.(fault := true), base);
    TameAdded(p1, Transmit(p1, PacketOf(p, allowFinal, forceFinal)), base, PacketOf(p, allowFinal, forceFinal));
  }

  lemma TameReceiving(o: Object, o': Object)
    requires TameObject(o) && o'.opcode == o.opcode && o'.lastOpcode == o.lastOpcode && o'.cmd == o.cmd
    requires o'.nonHeader == o.nonHeader && o'.txQueue == o.txQueue
    ensures TameObject(o')
  {
  }

  lemma TameChunk(p: Party, chunk: seq<byte>, base: Party)
    requires Tame(p, base) && p.current.Some?
    ensures Tame(StreamChunk(p, chunk), base)
  {
    hide Deliver, Tame, TameObject;
    var o := p.current.value;
    var o' := o.(stream := o.stream.(data := chunk));
    TameParts(p, base);
    TameReceiving(o, o');
    TameUpdated(p, o', base);
    TameDelivered(Update(p, o'), EvStreamAvail, 0, 0, false, base);
  }

  lemma TameParts(p: Party, base: Party)
    requires Tame(p, base)
    ensures p.current.Some? ==> TameObject(p.current.value)
    ensures p.mtuTx == base.mtuTx >= 3
  {
    hide Modest, TameObject, TameScript;
  }

  lemma TameAccepted(p: Party, h: Header, base: Party)
    requires Tame(p, base) && p.current.Some?
    ensures AcceptHeader(p, h).current.Some? && Tame(AcceptHeader(p, h), base)
  {
    hide StreamChunk, Tame, TameObject;
    var o := p.current.value;
    TameParts(p, base);
    AcceptReceives(p, h);
    if IsBody(h.hi) && o.rx.streaming {
      if h.hi == BODY && h.value == [] {
      } else if o.abort {
        TameReceiving(o, o.(stream := o.stream.(data := h.value)));
        TameUpdated(p, o.(stream := o.stream.(data := h.value)), base);
      } else {
        TameChunk(p, h.value, base);
        StreamChunkReceives(p, h.value);
        if h.hi == END_OF_BODY && h.value != [] { TameChunk(StreamChunk(p, h.value), [], base); }
      }
    } else {
      TameReceiving(o, o.(rx := Store(o.rx, h)));
      TameUpdated(p, o.(rx := Store(o.rx, h)), base);
    }
  }

  lemma {:induction false} TameAcceptedAll(p: Party, hs: seq<Header>, base: Party)
    requires Tame(p, base) && p.current.Some?
    ensures Tame(AcceptAll(p, hs), base)
    decreases |hs|
  {
    hide AcceptHeader, Tame;
    if hs == [] {
    } else {
      TameAccepted(p, hs[0], base);
      TameAcceptedAll(AcceptHeader(p, hs[0]), hs[1..], base);
    }
  }

  lemma TameReceived(p: Party, packet: seq<byte>, base: Party)
    requires Tame(p, base) && p.current.Some?
    ensures Receive(p, packet).0.current.Some? && Tame(Receive(p, packet).0, base)
  {
    hide AcceptAll, ParseHeaders, Tame, TameObject;
    var o := p.current.value;
    var d := packet[Min(3, |packet|)..];
    TameParts(p, base);
    if |d| < o.headerOffset {
      var p1 := TakeStale(p, packet).0;
      if p1 != p {
        TameReceiving(o, p1.current.value);
        TameUpdated(p, p1.current.value, base);
        TameMoved(Update(p, p1.current.value), p1, base);
      }
    } else {
      var p1 := TakeNonHeader(p, d);
      if p1 != p {
        TameReceiving(o, p1.current.value);
        TameUpdated(p, p1.current.value, base);
      }
      TameAcceptedAll(p1, ParseHeaders(d[o.headerOffset..], o.rx.streaming).headers, base);
    }
  }

  // ---- The server ----

  lemma TameFinish(p: Party, rsp: byte, kind: EventKind, evRsp: nat, base: Party)
    requires Tame(p, base) && Neutral(rsp)
    ensures Tame(Finish(p, rsp, kind, evRsp), base)
  {
    hide Tame, Deliver, Frame, Transmitted;
    TameMoved(p, p.(fault := true), base);
    if p.current.Some? {
      TameResponded(p, rsp, base);
      TameMoved(Respond(p, rsp), ServerIdle(Respond(p, rsp)), base);
      TameDelivered(ServerIdle(Respond(p, rsp)), kind, p.current.value.opcode, evRsp, true, base);
    }
  }

  lemma TameDeliverOwn(p: Party, kind: EventKind, rsp: nat, delete: bool, base: Party)
    requires Tame(p, base) && p.current.Some?
    ensures Tame(DeliverOwn(p, kind, rsp, delete), base)
    ensures !delete ==> DeliverOwn(p, kind, rsp, delete).current.Some?
  {
    hide Tame, Deliver;
    TameDelivered(p, kind, p.current.value.opcode, rsp, delete, base);
  }

  lemma TameMarked(p: Party, base: Party, o: Object)
    requires Tame(p, base) && p.current.Some?
    requires o == p.current.value.(firstSent := o.firstSent, continueReceived := o.continueReceived,
        checked := o.checked,
                                   headerOffset := o.headerOffset, abort := o.abort)
    ensures Tame(Update(p, o), base)
  {
    hide Tame, TameObject;
    TameParts(p, base);
    TameReceiving(p.current.value, o);
    TameUpdated(p, o, base);
  }

  lemma TameReply(p: Party, cmd: byte, base: Party)
    requires Tame(p, base) && p.current.Some? && cmd != DISCONNECT
    ensures Tame(ServerReply(p, cmd), base)
  {
    hide Tame, SendObject, Deliver;
    var p0 := Update(p, p.current.value.(continueReceived := true));
    TameMarked(p, base, p0.current.value);
    TameSent(p0, true, true, base);
    var p1 := SendObject(p0, true, true).0;
    TameDelivered(p1, EvLinkErr, cmd, 0, true, base);
    TameMoved(p1, ServerIdle(p1), base);
    TameDelivered(ServerIdle(p1), EvReqDone, cmd, 0, true, base);
    TameDelivered(p1, EvProgress, cmd, 0, false, base);
    var p2 := Deliver(p1, EvProgress, cmd, 0, false);
    TameMarked(p2, base, p2.current.value.(firstSent := true, continueReceived := false));
  }

  lemma TameRespond(p: Party, packet: seq<byte>, cmd: byte, length: nat, base: Party)
    requires Tame(p, base) && cmd != DISCONNECT
    ensures Tame(ServerRespond(p, packet, cmd, length), base)
  {
    hide Tame, Receive, ServerReply, Finish, Deliver;
    TameMoved(p, p.(fault := true), base);
    if p.current.Some? {
      TameFinish(p, SUCCESS, EvAbort, cmd, base);
      TameReply(p, cmd, base);
      TameFinish(p, BAD_REQUEST, EvParseErr, 0, base);
      TameReceived(p, packet, base);
      var p1 := Receive(p, packet).0;
      TameMoved(p1, p1.(fault := true), base);
      TameFinish(p1, BAD_REQUEST, EvParseErr, 0, base);
      TameDeliverOwn(p1, EvUnexpected, 0, false, base);
      TameReply(DeliverOwn(p1, EvUnexpected, 0, false), cmd, base);
    }
  }

  lemma TameServerRequest(p: Party, packet: seq<byte>, cmd: byte, deny: bool, base: Party)
    requires Tame(p, base) && p.current.Some? && |packet| >= 3 && Neutral(cmd) && cmd < 0x80
    ensures Tame(ServerRequest(p, packet, cmd, deny), base)
  {
    hide Tame, ServerRespond, Deliver;
    TameRespond(p, [], cmd, Read16(packet, 1), base);
    TameDelivered(p, EvReq, cmd, 0, false, base);
    var p2 := if deny then p else Deliver(p, EvReq, cmd, 0, false);
    TameMoved(p2, p2.(state := Responding, serverMode := true), base);
    TameRespond(p2.(state := Responding, serverMode := true), [], cmd, 3, base);
  }

  lemma TameMore(p: Party, packet: seq<byte>, cmd: byte, base: Party)
    requires Tame(p, base) && p.current.Some? && |packet| >= 3 && Neutral(cmd) && cmd < 0x80
    ensures Tame(ServerMore(p, packet, cmd), base)
  {
    hide Tame, ServerRequest, SendObject, Deliver;
    TameServerRequest(p, packet, cmd, true, base);
    TameSent(p, false, true, base);
    var p1 := SendObject(p, false, true).0;
    TameDelivered(p1, EvLinkErr, cmd, 0, true, base);
    TameDelivered(p1, EvProgress, cmd, 0, false, base);
  }

  lemma TameChecked(p: Party, cmd: byte, base: Party)
    requires Tame(p, base) && p.current.Some?
    ensures Tame(Checked(p, cmd), base)
  {
    hide Tame, Deliver;
    TameDelivered(p, EvReqCheck, cmd, 0, false, base);
    var p1 := Deliver(p, EvReqCheck, cmd, 0, false);
    TameMarked(p1, base, p1.current.value.(checked := true));
  }

  lemma TameServerReceive(p: Party, packet: seq<byte>, base: Party)
    requires Tame(p, base) && |packet| >= 3 && Neutral(packet[0])
    ensures Tame(ServerReceive(p, packet), base)
  {
    hide Tame, Receive, ServerRequest, ServerMore, Checked, Finish;
    var cmd := ClearFinal(packet[0]);
    TameMoved(p, p.(fault := true), base);
    if p.current.Some? {
      TameFinish(p, SUCCESS, EvAbort, cmd, base);
      TameFinish(p, BAD_REQUEST, EvParseErr, cmd, base);
      TameReceived(p, packet, base);
      var p1 := Receive(p, packet).0;
      TameMoved(p1, p1.(fault := true), base);
      TameFinish(p1, BAD_REQUEST, EvParseErr, 0, base);
      TameServerRequest(p1, packet, cmd, false, base);
      TameChecked(p1, cmd, base);
      TameMore(Checked(p1, cmd), packet, cmd, base);
    }
  }

  lemma TameOpen(p: Party, packet: seq<byte>, base: Party)
    requires Tame(p, base) && |packet| >= 3 && Neutral(packet[0])
    ensures Tame(ServerOpen(p, packet), base)
  {
    hide Tame, ServerReceive, Deliver;
    var cmd := ClearFinal(packet[0]);
    var o := NewObject(p.nextId).(cmd := cmd);
    var p0 := p.(current := Some(o), nextId := p.nextId + 1);
    TameNew(p, p0, base);
    TameDelivered(p0, EvReqHint, cmd, 0, false, base);
    var p1 := Deliver(p0, EvReqHint, cmd, 0, false);
    var p2 := Update(p1, p1.current.value.(headerOffset := 2));
    TameMarked(p1, base, p2.current.value);
    TameMoved(p2, p2.(state := Receiving, serverMode := true), base);
    TameMoved(p1, p1.(state := Receiving, serverMode := true), base);
    TameServerReceive(p2.(state := Receiving, serverMode := true), packet, base);
    TameServerReceive(p1.(state := Receiving, serverMode := true), packet, base);
  }

  lemma TameNew(p: Party, p': Party, base: Party)
    requires Tame(p, base) && p'.current.Some? && TameObject(p'.current.value)
    requires p' == p.(current := p'.current, nextId := p'.nextId, state := p'.state, serverMode := p'.serverMode)
    ensures Tame(p', base)
  {
    hide Modest, SoundBudget, TameObject, TameScript;
    SoundSame(p, p');
  }

  lemma TameServerStep(p: Party, packet: seq<byte>, base: Party)
    requires Tame(p, base) && |packet| >= 3 && Neutral(packet[0])
    ensures Tame(ServerStep(p, packet), base)
  {
    hide Tame, ServerReceive, ServerOpen, ServerRespond, Deliver, Respond;
    var cmd := ClearFinal(packet[0]);
    TameResponded(p, INTERNAL_SERVER_ERROR, base);
    TameResponded(p, BAD_REQUEST, base);
    TameOpen(p, packet, base);
    TameServerReceive(p, packet, base);
    TameRespond(p, packet, cmd, Read16(packet, 1), base);
    TameDelivered(Respond(p, BAD_REQUEST), EvParseErr, cmd, 0, true, base);
  }

  // ---- The client ----

  lemma TameStart(p: Party, rsp: byte, base: Party)
    requires Tame(p, base)
    ensures Tame(ClientStart(p, rsp), base)
  {
    hide Tame, SendObject, Deliver;
    TameDelivered(p, EvParseErr, rsp, 0, true, base);
    if p.current.Some? {
      TameSent(p, true, false, base);
      var p1 := SendObject(p, true, false).0;
      TameMoved(p1, p1.(state := Idle, serverMode := false), base);
      TameDeliverOwn(p1.(state := Idle, serverMode := false), EvLinkErr, 0, true, base);
      var p2 := Update(p1, p1.current.value.(firstSent := true));
      TameMarked(p1, base, p2.current.value);
      TameDeliverOwn(p2, EvProgress, 0, false, base);
      var p3 := DeliverOwn(p2, EvProgress, 0, false);
      TameMoved(p3, p3.(state := Receiving, serverMode := false), base);
    }
  }

  lemma TameContinue(p: Party, base: Party)
    requires Tame(p, base) && p.current.Some?
    ensures Tame(ClientContinue(p), base)
  {
    hide Tame, SendObject, Deliver;
    var p0 := Update(p, p.current.value.(continueReceived := true));
    TameMarked(p, base, p0.current.value);
    TameSent(p0, true, false, base);
    var p1 := SendObject(p0, true, false).0;
    TameDeliverOwn(p1, EvLinkErr, 0, true, base);
    TameDeliverOwn(p1, EvProgress, 0, false, base);
    var p2 := DeliverOwn(p1, EvProgress, 0, false);
    TameMarked(p2, base, p2.current.value.(continueReceived := false));
  }

  lemma TameHeaders(p: Party, packet: seq<byte>, rsp: byte, base: Party)
    requires Tame(p, base) && p.current.Some? && |packet| >= 3
    ensures Tame(ClientHeaders(p, packet, rsp), base)
  {
    hide Tame, Receive, ClientContinue, Deliver;
    TameReceived(p, packet, base);
    var p1 := Receive(p, packet).0;
    TameMoved(p1, p1.(fault := true), base);
    TameMoved(p1, ServerIdle(p1), base);
    TameDeliverOwn(ServerIdle(p1), EvParseErr, 0, true, base);
    TameContinue(p1, base);
    TameDeliverOwn(ServerIdle(p1),
        if !p1.current.value.abort then EvReqDone else if rsp == SUCCESS then EvAbort else EvLinkErr,
                   rsp, true, base);
  }

  lemma TameOpcode(p: Party, base: Party)
    requires Tame(p, base) && p.current.Some?
    ensures p.current.value.opcode != CONNECT && p.current.value.opcode != DISCONNECT
  {
    hide Modest, FixedSizes, TameScript, SoundBudget;
  }

  lemma TameBusy(p: Party, packet: Option<seq<byte>>, rsp: byte, base: Party)
    requires Tame(p, base) && (packet.Some? ==> |packet.value| >= 3)
    ensures Tame(ClientBusy(p, packet, rsp), base)
  {
    hide Tame, Receive, ClientStart, Deliver;
    TameMoved(p, p.(fault := true), base);
    if p.current.Some? {
      TameOpcode(p, base);
      TameDeliverOwn(p, EvReqDone, rsp, true, base);
      TameStart(p, rsp, base);
      if packet.Some? {
        TameReceived(p, packet.value, base);
        var p1 := Receive(p, packet.value).0;
        TameMoved(p1, p1.(fault := true), base);
        TameMoved(p1, ServerIdle(p1), base);
        TameDeliverOwn(ServerIdle(p1), EvParseErr, 0, true, base);
        TameDeliverOwn(p1, EvUnexpected, 0, false, base);
        TameStart(DeliverOwn(p1, EvUnexpected, 0, false), rsp, base);
      }
    }
  }

  lemma TameClientStep(p: Party, packet: Option<seq<byte>>, base: Party)
    requires Tame(p, base) && (packet.Some? ==> |packet.value| >= 3)
    ensures Tame(ClientStep(p, packet), base)
  {
    hide Tame, ClientBusy, ClientStart, ClientHeaders, Deliver;
    var rsp := if packet.Some? then ClearFinal(packet.value[0]) else BAD_REQUEST;
    TameBusy(p, packet, rsp, base);
    TameStart(p, rsp, base);
    TameMoved(p, p.(fault := true), base);
    TameDelivered(p, EvParseErr, rsp, 0, true, base);
    if packet.Some? && p.current.Some? {
      TameOpcode(p, base);
      TameHeaders(p, packet.value, rsp, base);
    }
  }

  // ---- Runs of one handle ----

  /** Whatever happens, but for a CONNECT or DISCONNECT. */
  predicate NeutralInput(i: Input) {
    match i
    case Arrives(packet) => |packet| >= 3 ==> Neutral(packet[0])
    case Asks(cmd, calls) => Neutral(cmd) && TameCalls(calls)
    case _ => true
  }

  lemma TameRequest(p: Party, cmd: byte, calls: seq<ApiCall>, base: Party)
    requires Tame(p, base) && Neutral(cmd) && TameCalls(calls)
    ensures Tame(Request(p, BuildRequest(p, cmd, calls)), base)
  {
    hide Tame, ClientStep, ApplyAll;
    var o := BuildRequest(p, cmd, calls);
    TameApplied(NewRequest(cmd, p.mtuRx), p.mtuTx, calls);
    if p.current.None? {
      var p1 := p.(current := Some(o.(id := p.nextId)), nextId := p.nextId + 1, state := Starting, serverMode := false);
      TameReceiving(o, p1.current.value);
      TameNew(p, p1, base);
      TameClientStep(p1, None, base);
    }
  }

  lemma TameCancel(p: Party, base: Party)
    requires Tame(p, base)
    ensures Tame(CancelNicely(p), base)
  {
    hide Tame, TameObject, Modest;
    TameParts(p, base);
    if p.current.Some? {
      var packet := Frame(SetFinal(ABORT), []);
      BareModest(SetFinal(ABORT), base.mtuTx);
      var p1 := Transmit(p, packet);
      TameAdded(p, p1, base, packet);
      var p2 := Update(p1, p.current.value.(abort := true));
      TameMarked(p1, base, p2.current.value);
      TameMoved(p2, p2.(state := Receiving, serverMode := false), base);
    }
  }

  lemma TameHandled(p: Party, i: Input, base: Party)
    requires Tame(p, base) && NeutralInput(i)
    ensures Tame(Handle(p, i), base)
  {
    hide Tame, ServerStep, ClientStep, Request, BuildRequest, CancelNicely, Deliver;
    match i
    case Begins(size) => TameMoved(p, Begin(p, size), base);
    case Arrives(packet) =>
      if |packet| >= 3 {
        TameMoved(p, p.(fault := true, rxRoom := |packet|), base);
        TameServerStep(p, packet, base);
        TameClientStep(p, Some(packet), base);
      }
    case Asks(cmd, calls) => TameRequest(p, cmd, calls, base);
    case Cancels => TameCancel(p, base);
    case Breaks => TameDelivered(p, EvLinkErr, 0, 0, true, base);
  }

  /**
   Over every run without a CONNECT or DISCONNECT, whatever packets arrive and whatever the
   application and the link do, a handle keeps its packet size, and every packet it sends is
   within that size but for three octets for each body that ends early in it.
   */
  lemma {:induction false} ModestTheorem(p: Party, inputs: seq<Input>, base: Party)
    requires Tame(p, base) && forall i :: 0 <= i < |inputs| ==> NeutralInput(inputs[i])
    ensures Tame(Run(p, inputs), base)
    decreases |inputs|
  {
    hide Tame, Handle, NeutralInput;
    if inputs == [] {
    } else {
      ModestTheorem(p, inputs[..|inputs| - 1], base);
      TameHandled(Run(p, inputs[..|inputs| - 1]), inputs[|inputs| - 1], base);
    }
  }
}
