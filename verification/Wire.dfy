/** Whole packets octet by octet, in numbers: what the simplest requests and answers look like on
    the link. Nothing here goes through the names of opcodes and headers. */
module Wire {
  import opened Octets
  import opened Headers
  import opened Fragmenter
  import opened Framing
  import opened Session
  import opened Lockstep

  /** Two octets, the more significant first. */
  function TwoOctets(n: nat): seq<byte>
    requires n < 0x1_0000
  {
    [(n / 0x100) as byte, (n % 0x100) as byte]
  }

  // ---- A body ----

  /** A body alone in the queue goes out whole behind 0x49 if it fits, and otherwise as much of it
      as fits behind 0x48. */
  function BodyOctets(bs: seq<byte>, budget: nat): seq<byte>
    requires 3 <= budget < 0x1_0000
  {
    if |bs| + 3 <= budget then [0x49] + TwoOctets(|bs| + 3) + bs
    else [0x48] + TwoOctets(budget) + bs[..budget - 3]
  }

  lemma BodyEncoded(hi: byte, bs: seq<byte>)
    requires IsBody(hi)
    ensures var d := Encode(Header(hi, bs));
            |d| == |bs| + 3 && d[3..] == bs && (|bs| + 3 < 0x1_0000 ==> d == [hi] + TwoOctets(|bs| + 3) + bs)
  {
  }

  lemma BodyPacked(bs: seq<byte>, budget: nat, lim: Limits, s: Stream, feed: seq<StreamCall>)
    requires 3 <= budget < 0x1_0000
    ensures var q := [TxBody(Encode(Header(BODY, bs)), false)];
            var k := Pack(q, budget, lim, s, feed);
            && EncodeAll(k.frags) == BodyOctets(bs, budget) && k.status.Full?
            && (k.queue == [] <==> |bs| + 3 <= budget) && k.asks == 0
  {
    hide FillStream, EncodeAll, Encode;
    var buf := Encode(Header(BODY, bs));
    assert BodyRest(buf, false) == bs by { BodyEncoded(BODY, bs); }
    var q := [TxBody(buf, false)];
    assert q[1..] == [];
    var a := PackStep(q, budget, lim, s, feed);
    if |bs| + 3 <= budget {
      assert Pack([], a.left, After(lim, a), a.stream, a.feed) == Packing([], [], a.left, a.stream, a.feed, 0, Full);
      assert a.frags + [] == [Header(END_OF_BODY, bs)];
      EncodeOne(Header(END_OF_BODY, bs));
      BodyEncoded(END_OF_BODY, bs);
    } else {
      EncodeOne(Header(BODY, bs[..budget - 3]));
      BodyEncoded(BODY, bs[..budget - 3]);
    }
  }

  // ---- Packets without headers ----

  /** Nothing is queued, and packets get through. */
  predicate Empty(p: Party) {
    !p.fault && p.linkFaults == [] && p.current.Some? && p.current.value.txQueue == []
  }

  lemma EmptySent(p: Party, allowFinal: bool, forceFinal: bool)
    requires Empty(p)
    ensures var o := p.current.value;
            var (p', sent) := SendObject(p, allowFinal, forceFinal);
            && p'.out == p.out + [Frame(SetFinal(if allowFinal then o.lastOpcode else o.opcode),
                                        if o.nonHeader.Some? then o.nonHeader.value else [])]
            && sent == (if allowFinal then SendDone else SendMore)
            && !p'.fault && p'.current.Some?
  {
    var o := p.current.value;
    var k := Packed(p);
    assert k == Packing([], [], TxBudget(p), o.stream, p.feed, 0, Full);
    assert EncodeAll(k.frags) == [];
    assert PacketPayload(p) == if o.nonHeader.Some? then o.nonHeader.value else [];
  }

  lemma BareFrame(op: byte)
    ensures Frame(op, []) == [op, 0, 3] && SetFinal(op) == op % 0x80 + 0x80
  {
  }

  // ---- Requests ----

  /** The handle with its new request, before anything of it is sent. */
  function Handed(p: Party, o: Object): Party {
    p.(current := Some(o.(id := p.nextId)), nextId := p.nextId + 1, state := Starting, serverMode := false)
  }

  lemma StartSends(p: Party, o: Object)
    requires !p.fault && p.current.None? && p.linkFaults == []
    requires !SendObject(Handed(p, o), true, false).0.fault
    ensures Request(p, o).out == SendObject(Handed(p, o), true, false).0.out
  {
    hide SendObject, ApplyAll;
  }

  /** A request of any command, with nothing in it: a CONNECT carries version 1.0, no flags and the
      size of the largest packet the handle can take. */
  lemma BareRequest(p: Party, cmd: byte)
    requires !p.fault && p.current.None? && p.linkFaults == [] && cmd < 0x80
    ensures Request(p, BuildRequest(p, cmd, [])).out ==
            p.out + [if cmd == 0 then [0x80, 0, 7, 0x10, 0] + TwoOctets(p.mtuRx) else [cmd + 0x80, 0, 3]]
  {
    hide SendObject, Request;
    var o := BuildRequest(p, cmd, []);
    assert o == NewRequest(cmd, p.mtuRx);
    EmptySent(Handed(p, o), true, false);
    StartSends(p, o);
    BareFrame(SetFinal(cmd));
    assert cmd == 0 ==> Frame(0x80, ConnectFrame(p.mtuRx)) == [0x80, 0, 7, 0x10, 0] + TwoOctets(p.mtuRx);
  }

  lemma BodyQueued(p: Party, bs: seq<byte>)
    ensures var o := BuildRequest(p, 0x02, [AddHeader(0x48, HeaderData(0, 0, bs), false, false)]);
            && o.txQueue == [TxBody(Encode(Header(BODY, bs)), false)] && o.nonHeader.None?
            && o.opcode == 0x02 && o.lastOpcode == 0x82 && o.stream == Stream([], false)
  {
    hide Encode, EncodedSize;
    var c := AddHeader(0x48, HeaderData(0, 0, bs), false, false);
    var o := NewRequest(0x02, p.mtuRx);
    assert [c][1..] == [];
    assert ApplyAll(Apply(o, p.mtuTx, c), p.mtuTx, []) == Apply(o, p.mtuTx, c);
    assert [] + [TxBody(Encode(Header(BODY, bs)), false)] == [TxBody(Encode(Header(BODY, bs)), false)];
  }

  /** What is in the first packet of a PUT of this body and no other headers. */
  function FirstOctets(bs: seq<byte>, mtu: nat): seq<byte>
    requires 6 <= mtu < 0x1_0000
  {
    if |bs| + 6 <= mtu then [0x82] + TwoOctets(|bs| + 6) + BodyOctets(bs, mtu - 3)
    else [0x02] + TwoOctets(mtu) + BodyOctets(bs, mtu - 3)
  }

  /** A PUT of a body of any length, without other headers. */
  lemma BodyRequest(p: Party, bs: seq<byte>)
    requires !p.fault && p.current.None? && p.linkFaults == [] && !p.irda && p.mtuTx >= 6
    ensures Request(p, BuildRequest(p, 0x02, [AddHeader(0x48, HeaderData(0, 0, bs), false, false)])).out ==
            p.out + [FirstOctets(bs, p.mtuTx)]
  {
    hide Request, Pack, Encode, BodyOctets, BuildRequest;
    BodyQueued(p, bs);
    var o := BuildRequest(p, 0x02, [AddHeader(0x48, HeaderData(0, 0, bs), false, false)]);
    var p0 := Handed(p, o);
    BodyPacked(bs, p.mtuTx - 3, TxLimits(p0), o.stream, p.feed);
    BodyLength(bs, p.mtuTx - 3);
    assert PacketPayload(p0) == BodyOctets(bs, p.mtuTx - 3);
    StartSends(p, o);
  }

  lemma BodyLength(bs: seq<byte>, budget: nat)
    requires 3 <= budget < 0x1_0000
    ensures |BodyOctets(bs, budget)| == if |bs| + 3 <= budget then |bs| + 3 else budget
  {
  }

  /** A cancelled request: an ABORT. */
  lemma CancelOctets(p: Party)
    requires !p.fault && p.current.Some? && p.linkFaults == []
    ensures CancelNicely(p).out == p.out + [[0xff, 0, 3]]
  {
    BareFrame(0xff);
  }

  // ---- Answers ----

  lemma ReplyOctets(p: Party, cmd: byte)
    requires Empty(p) && p.current.value.nonHeader.None?
    ensures ServerReply(p, cmd).out == p.out + [[p.current.value.lastOpcode % 0x80 + 0x80, 0, 3]]
  {
    hide SendObject, ApplyAll;
    EmptySent(Update(p, p.current.value.(continueReceived := true)), true, true);
    BareFrame(SetFinal(p.current.value.lastOpcode));
    BareFrame(p.current.value.lastOpcode);
  }

  /** What an application that judges a request with these two responses has answered. */
  function Judged(whole: bool, rsp: byte, last: byte): byte {
    var op := if !whole && rsp % 0x80 / 0x10 in {1, 2} then rsp else last;
    op % 0x80 + 0x80
  }

  lemma JudgedWhole(rsp: byte, last: byte)
    ensures Judged(true, rsp, last) == last % 0x80 + 0x80
  {
  }

  /** The responses in place, once the application has made these calls. */
  predicate Sets(o: Object, calls: seq<ApiCall>, rsp: byte, last: byte) {
    forall mtu: u16 :: ApplyAll(o, mtu, calls) == o.(opcode := rsp, lastOpcode := last)
  }

  lemma OneSets(o: Object, rsp: byte, last: byte)
    ensures Sets(o, [SetResponse(rsp, last)], rsp, last)
  {
    var c := SetResponse(rsp, last);
    assert [c][1..] == [];
    forall mtu: u16 ensures ApplyAll(o, mtu, [c]) == o.(opcode := rsp, lastOpcode := last) {
      assert ApplyAll(Apply(o, mtu, c), mtu, []) == Apply(o, mtu, c);
    }
  }

  lemma RequestOctets(p: Party, packet: seq<byte>, cmd: byte, deny: bool, rsp: byte, last: byte)
    requires Empty(p) && |packet| >= 3 && !p.current.value.firstSent && cmd != CONNECT && cmd != ABORT
    requires p.current.value.nonHeader.None?
    requires if deny then p.current.value.lastOpcode == last
             else Sets(p.current.value, if p.script == [] then [] else p.script[0], rsp, last)
    ensures ServerRequest(p, packet, cmd, deny).out == p.out + [[last % 0x80 + 0x80, 0, 3]]
  {
    hide ServerReply, ApplyAll;
    var p2 := (if deny then p else Deliver(p, EvReq, cmd, 0, false)).(state := Responding, serverMode := true);
    ReplyOctets(p2, cmd);
  }

  lemma MoreOctets(p: Party, packet: seq<byte>, cmd: byte, last: byte)
    requires Empty(p) && |packet| >= 3 && !p.current.value.firstSent && cmd != CONNECT && cmd != ABORT
    requires p.current.value.nonHeader.None? && p.current.value.lastOpcode == last
    ensures ServerMore(p, packet, cmd).out == p.out + [[Judged(false, p.current.value.opcode, last), 0, 3]]
  {
    hide ServerRequest, SendObject, ApplyAll;
    var o := p.current.value;
    BareFrame(o.opcode);
    BareFrame(SetFinal(o.opcode));
    if Accepting(o.opcode) {
      EmptySent(p, false, true);
    } else {
      RequestOctets(p, packet, cmd, true, o.opcode, last);
    }
  }

  lemma ReceiveOctets(p: Party, cmd: byte, whole: bool, rsp: byte, last: byte)
    requires Empty(p) && p.current.Some? && cmd < 0x7f && cmd != CONNECT && p.current.value.cmd == cmd
    requires var o := p.current.value;
             !o.firstSent && !o.checked && o.nonHeader.None? && o.headerOffset == 0
             && Sets(o, if p.script == [] then [] else p.script[0], rsp, last)
    ensures ServerReceive(p, [if whole then cmd + 0x80 else cmd, 0, 3]).out ==
            p.out + [[Judged(whole, rsp, last), 0, 3]]
  {
    hide ServerRequest, ServerMore, Receive, Empty, Sets, Checked, Judged;
    var packet := [if whole then cmd + 0x80 else cmd, 0, 3];
    BareReceived(p, packet);
    if whole {
      assert Judged(true, rsp, last) == last % 0x80 + 0x80 by { JudgedWhole(rsp, last); }
      RequestOctets(p, packet, cmd, false, rsp, last);
    } else {
      CheckedSets(p, cmd, rsp, last);
      MoreOctets(Checked(p, cmd), packet, cmd, last);
    }
  }

  lemma CheckedSets(p: Party, cmd: byte, rsp: byte, last: byte)
    requires Empty(p) && !p.current.value.checked
    requires Sets(p.current.value, if p.script == [] then [] else p.script[0], rsp, last)
    ensures var p' := Checked(p, cmd);
            && Empty(p') && p'.out == p.out
            && p'.current.value == p.current.value.(opcode := rsp, lastOpcode := last, checked := true)
  {
    hide ApplyAll;
  }

  lemma BareReceived(p: Party, packet: seq<byte>)
    requires p.current.Some? && |packet| == 3 && p.current.value.headerOffset == 0
    ensures Receive(p, packet) == (p, Clean)
  {
    assert packet[3..][0..] == [];
    assert ParseHeaders([], p.current.value.rx.streaming) == Parsed([], Clean);
  }

  /** A first packet without headers, to an application that does not react to its announcement:
      when the packet is the whole request, or the first response set does not let it go on, the
      answer has the last response, and otherwise the first one. */
  lemma FirstAnswer(p: Party, cmd: byte, whole: bool, rsp: byte, last: byte)
    requires AtRest(p) && !p.fault && p.linkFaults == [] && cmd < 0x7f && cmd != 0 && cmd != 5
    requires p.script == [[], [SetResponse(rsp, last)]]
    ensures ServerStep(p, [if whole then cmd + 0x80 else cmd, 0, 3]).out ==
            p.out + [[Judged(whole, rsp, last), 0, 3]]
  {
    hide ServerReceive;
    var o := NewObject(p.nextId).(cmd := cmd);
    var p1 := p.(current := Some(o), nextId := p.nextId + 1, events := p.events + [AnnouncedAs(p, o)],
                 script := [[SetResponse(rsp, last)]], state := Receiving, serverMode := true);
    assert p.script[1..] == [[SetResponse(rsp, last)]];
    OneSets(o, rsp, last);
    ReceiveOctets(p1, cmd, whole, rsp, last);
  }

  /** An application that says nothing at all has answered 0xd1, not implemented. */
  lemma SilentAnswer(p: Party, cmd: byte, whole: bool)
    requires AtRest(p) && !p.fault && p.linkFaults == [] && cmd < 0x7f && cmd != 0 && cmd != 5 && p.script == []
    ensures ServerStep(p, [if whole then cmd + 0x80 else cmd, 0, 3]).out == p.out + [[0xd1, 0, 3]]
  {
    hide ServerReceive;
    var o := NewObject(p.nextId).(cmd := cmd);
    var p1 := p.(current := Some(o), nextId := p.nextId + 1, events := p.events + [AnnouncedAs(p, o)],
                 state := Receiving, serverMode := true);
    assert Sets(o, [], NOT_IMPLEMENTED, NOT_IMPLEMENTED);
    ReceiveOctets(p1, cmd, whole, NOT_IMPLEMENTED, NOT_IMPLEMENTED);
  }

  function AnnouncedAs(p: Party, o: Object): Event {
    EventOf(p.(current := Some(o), nextId := p.nextId + 1), EvReqHint, o.cmd, 0)
  }
}
