/** What the smaller steps of the engine leave alone. */
module SessionFacts {
  import opened Octets
  import opened Headers
  import opened Fragmenter
  import opened Reassembler
  import opened Framing
  import opened Session

  /** What no call of the application changes about an object. */
  predicate SameObject(o: Object, o': Object) {
    && o'.id == o.id && o'.cmd == o.cmd && o'.stream == o.stream && o'.rx.body == o.rx.body
    && o'.abort == o.abort && o'.checked == o.checked && o'.firstSent == o.firstSent
    && Received(o'.rx) == Received(o.rx)
  }

  lemma ApplyKeeps(o: Object, mtuTx: u16, c: ApiCall)
    ensures SameObject(o, Apply(o, mtuTx, c))
  {
    if c.NextHeader? && o.rx.unread != [] {
      assert o.rx.unread == [o.rx.unread[0]] + o.rx.unread[1..];
      Associate(o.rx.read, [o.rx.unread[0]], o.rx.unread[1..]);
    }
  }

  lemma {:induction false} ApplyAllKeeps(o: Object, mtuTx: u16, calls: seq<ApiCall>)
    ensures SameObject(o, ApplyAll(o, mtuTx, calls))
    decreases |calls|
  {
    if calls == [] {
    } else {
      ApplyKeeps(o, mtuTx, calls[0]);
      ApplyAllKeeps(Apply(o, mtuTx, calls[0]), mtuTx, calls[1..]);
    }
  }

  /** Two states of a handle that differ at most in object, application and record. */
  predicate SameHandle(p: Party, p': Party) {
    && p'.state == p.state && p'.serverMode == p.serverMode
    && p'.mtuTx == p.mtuTx && p'.mtuRx == p.mtuRx && p'.mtuTxMax == p.mtuTxMax
    && p'.irda == p.irda && p'.linkMtu == p.linkMtu && p'.rxRoom == p.rxRoom
    && p'.released == p.released && p'.nextId == p.nextId && p'.fault == p.fault
  }

  /** The later record continues the earlier one, by events of one kind and object only. */
  predicate Adds(before: seq<Event>, after: seq<Event>, kind: EventKind, id: Option<nat>) {
    && before <= after
    && forall i :: |before| <= i < |after| ==> after[i].kind == kind && after[i].id == id
  }

  lemma DeliverKeeps(p: Party, kind: EventKind, cmd: nat, rsp: nat)
    requires p.current.Some?
    ensures var p' := Deliver(p, kind, cmd, rsp, false);
            && SameHandle(p, p') && p'.out == p.out && p'.linkFaults == p.linkFaults && p'.feed == p.feed
            && p'.current.Some? && IdOf(p'.current) == IdOf(p.current)
            && p'.current.value.cmd == p.current.value.cmd && p'.current.value.abort == p.current.value.abort
            && p'.current.value.checked == p.current.value.checked
            && p'.current.value.firstSent == p.current.value.firstSent
            && p'.events == p.events + [EventOf(p, kind, cmd, rsp)]
  {
    var calls := if p.script == [] then [] else p.script[0];
    ApplyAllKeeps(p.current.value, p.mtuTx, calls);
  }

  /** Nothing but the object's receiving side, the script and stream events. */
  predicate OnlyReceives(p: Party, p': Party) {
    && SameHandle(p, p') && p'.out == p.out && p'.linkFaults == p.linkFaults && p'.feed == p.feed
    && p.current.Some? && p'.current.Some? && IdOf(p'.current) == IdOf(p.current)
    && p'.current.value.cmd == p.current.value.cmd && p'.current.value.abort == p.current.value.abort
    && p'.current.value.checked == p.current.value.checked
    && p'.current.value.firstSent == p.current.value.firstSent
    && Adds(p.events, p'.events, EvStreamAvail, IdOf(p.current))
  }

  lemma OnlyReceivesTwice(p: Party, p1: Party, p2: Party)
    requires OnlyReceives(p, p1) && OnlyReceives(p1, p2)
    ensures OnlyReceives(p, p2)
  {
    assert p1.events == p2.events[..|p1.events|];
    forall i | |p.events| <= i < |p2.events|
      ensures p2.events[i].kind == EvStreamAvail && p2.events[i].id == IdOf(p.current)
    {
      if i < |p1.events| { assert p2.events[i] == p1.events[i]; }
    }
  }

  lemma StreamChunkReceives(p: Party, chunk: seq<byte>)
    requires p.current.Some?
    ensures OnlyReceives(p, StreamChunk(p, chunk))
  {
    var o := p.current.value;
    DeliverKeeps(Update(p, o.(stream := o.stream.(data := chunk))), EvStreamAvail, 0, 0);
  }

  /** Changes of the object's receiving side alone. */
  lemma SideReceives(p: Party, rx: Rx, stream: Stream)
    requires p.current.Some?
    ensures OnlyReceives(p, p.(current := Some(p.current.value.(rx := rx, stream := stream))))
  {
  }

  lemma AcceptReceives(p: Party, h: Header)
    requires p.current.Some?
    ensures OnlyReceives(p, AcceptHeader(p, h))
  {
    hide StreamChunk, OnlyReceives;
    var o := p.current.value;
    SideReceives(p, o.rx, o.stream);
    SideReceives(p, Store(o.rx, h), o.stream);
    SideReceives(p, o.rx, o.stream.(data := h.value));
    StreamChunkReceives(p, h.value);
    ReceivesSome(p, StreamChunk(p, h.value));
    StreamChunkReceives(StreamChunk(p, h.value), []);
    OnlyReceivesTwice(p, StreamChunk(p, h.value), StreamChunk(StreamChunk(p, h.value), []));
  }

  lemma ReceivesSome(p: Party, p': Party)
    requires OnlyReceives(p, p')
    ensures p'.current.Some?
  {
  }

  lemma {:induction false} AcceptAllReceives(p: Party, hs: seq<Header>)
    requires p.current.Some?
    ensures OnlyReceives(p, AcceptAll(p, hs))
    decreases |hs|
  {
    if hs == [] {
    } else {
      AcceptReceives(p, hs[0]);
      AcceptAllReceives(AcceptHeader(p, hs[0]), hs[1..]);
      OnlyReceivesTwice(p, AcceptHeader(p, hs[0]), AcceptAll(p, hs));
    }
  }

  lemma AsideReceives(p: Party, octets: seq<byte>, stale: seq<seq<byte>>)
    requires p.current.Some?
    ensures var o' := p.current.value.(headerOffset := 0, rxNonHeader := Some(octets));
            OnlyReceives(p, p.(current := Some(o'), stale := stale))
  {
  }

  /** The octets before the headers, set aside. */
  lemma TakingReceives(p: Party, packet: seq<byte>)
    requires p.current.Some?
    ensures var d := packet[Min(3, |packet|)..];
            if |d| < p.current.value.headerOffset then OnlyReceives(p, TakeStale(p, packet).0)
            else OnlyReceives(p, TakeNonHeader(p, d))
  {
    hide Stale, OnlyReceives;
    var o, d := p.current.value, packet[Min(3, |packet|)..];
    SideReceives(p, o.rx, o.stream);
    if |d| >= o.headerOffset {
      AsideReceives(p, d[..o.headerOffset], p.stale);
    } else if |packet| >= 3 {
      var behind := Stale(if p.stale == [] then [] else p.stale[0], o.headerOffset + 3 - |packet|);
      AsideReceives(p, packet[3..] + behind, Tail(p.stale));
    }
  }

  lemma ReceiveReceives(p: Party, packet: seq<byte>)
    requires p.current.Some?
    ensures OnlyReceives(p, Receive(p, packet).0)
  {
    var o := p.current.value;
    var d := packet[Min(3, |packet|)..];
    hide AcceptAll, ParseHeaders, OnlyReceives, TakeNonHeader, TakeStale;
    TakingReceives(p, packet);
    if |d| >= o.headerOffset {
      var p1 := TakeNonHeader(p, d);
      var hs := ParseHeaders(d[o.headerOffset..], o.rx.streaming).headers;
      ReceivesSome(p, p1);
      AcceptAllReceives(p1, hs);
      OnlyReceivesTwice(p, p1, AcceptAll(p1, hs));
    }
  }

  lemma {:induction false} RepeatAdds(before: seq<Event>, e: Event, n: nat)
    ensures Adds(before, before + Repeat(e, n), e.kind, e.id)
  {
    if n == 0 {
    } else {
      RepeatAdds(before, e, n - 1);
      assert before + Repeat(e, n) == (before + Repeat(e, n - 1)) + [e];
    }
  }

  /** The next packet of the current object. */
  function PacketOf(p: Party, allowFinal: bool, forceFinal: bool): seq<byte>
    requires p.current.Some?
  {
    Frame(PacketOpcode(p.current.value, Packed(p).queue, allowFinal, forceFinal), PacketPayload(p))
  }

  lemma PackedSame(p: Party, o: Object)
    requires p.current.Some? && o.txQueue == p.current.value.txQueue && o.stream == p.current.value.stream
    requires o.nonHeader == p.current.value.nonHeader
    ensures Packed(Update(p, o)) == Packed(p)
  {
  }

  /** Sending a packet adds requests for stream data to the record, and one packet unless
      it cannot be packed or written. */
  lemma SendKeeps(p: Party, allowFinal: bool, forceFinal: bool)
    requires p.current.Some?
    ensures var (p', sent) := SendObject(p, allowFinal, forceFinal);
            && SameHandle(p.(fault := p'.fault), p') && p'.script == p.script
            && p'.current.Some? && IdOf(p'.current) == IdOf(p.current)
            && p'.current.value.cmd == p.current.value.cmd && p'.current.value.abort == p.current.value.abort
            && p'.current.value.checked == p.current.value.checked
            && p'.current.value.firstSent == p.current.value.firstSent
            && p'.current.value.rx == p.current.value.rx
            && p'.current.value.opcode == p.current.value.opcode
            && Adds(p.events, p'.events, EvStreamEmpty, IdOf(p.current))
            && (p.fault ==> p'.fault)
            && (!sent.SendError? ==> !Packed(p).status.Fault? && !Packed(p).status.Failed?)
            && (!sent.SendError? ==> p'.out == p.out + [PacketOf(p, allowFinal, forceFinal)])
            && (!sent.SendError? ==> p'.txRoom == Max(p.txRoom, |PacketOf(p, allowFinal, forceFinal)|))
            && (sent.SendError? ==> p'.out == p.out)
  {
    RepeatAdds(p.events, EventOf(p, EvStreamEmpty, 0, 0), Packed(p).asks);
  }
}
