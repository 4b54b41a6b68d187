/** What the record of a handle tells since a point: the requests that arrived, and the
    chunks of streamed bodies that were offered. */
module Events {
  import opened Octets
  import opened Headers
  import opened Fragmenter
  import opened Lifetime
  import opened Reassembler
  import opened Receiving
  import opened Session
  import opened SessionFacts
  import opened Streaming

  /** What the application is told of a request that has arrived: its command and headers. */
  datatype Report = Report(cmd: nat, headers: seq<Header>)

  /** The requests reported, in order. */
  function Reqs(events: seq<Event>, n: nat): seq<Report>
    decreases |events|
  {
    if |events| <= n then []
    else
      var last := events[|events| - 1];
      Reqs(events[..|events| - 1], n) + if last.kind.EvReq? then [Report(last.cmd, last.received)] else []
  }

  /** The chunks offered, in order. */
  function Chunks(events: seq<Event>, n: nat): seq<seq<byte>>
    decreases |events|
  {
    if |events| <= n then []
    else
      var last := events[|events| - 1];
      Chunks(events[..|events| - 1], n) + if last.kind.EvStreamAvail? then [last.chunk] else []
  }

  /** No event since then has ended a request. */
  predicate NoEnd(events: seq<Event>, n: nat) {
    forall i :: n <= i < |events| ==> !Terminal(events[i].kind)
  }

  lemma OneMore(events: seq<Event>, e: Event, n: nat)
    requires n <= |events|
    ensures Reqs(events + [e], n) == Reqs(events, n) + if e.kind.EvReq? then [Report(e.cmd, e.received)] else []
    ensures Chunks(events + [e], n) == Chunks(events, n) + if e.kind.EvStreamAvail? then [e.chunk] else []
    ensures NoEnd(events, n) && !Terminal(e.kind) ==> NoEnd(events + [e], n)
  {
    assert (events + [e])[..|events|] == events;
  }

  lemma NothingYet(events: seq<Event>)
    ensures Reqs(events, |events|) == [] && Chunks(events, |events|) == [] && NoEnd(events, |events|)
  {
  }

  lemma {:induction false} ManyMore(before: seq<Event>, after: seq<Event>, kind: EventKind, id: Option<nat>, n: nat)
    requires Adds(before, after, kind, id) && n <= |before|
    ensures !kind.EvReq? ==> Reqs(after, n) == Reqs(before, n)
    ensures !kind.EvStreamAvail? ==> Chunks(after, n) == Chunks(before, n)
    ensures NoEnd(before, n) && !Terminal(kind) ==> NoEnd(after, n)
    decreases |after|
  {
    if |after| == |before| {
      assert after == before;
    } else {
      var init := after[..|after| - 1];
      ManyMore(before, init, kind, id, n);
      OneMore(init, after[|after| - 1], n);
      assert init + [after[|after| - 1]] == after;
    }
  }

  lemma Delivered(p: Party, kind: EventKind, cmd: nat, rsp: nat, delete: bool)
    ensures Deliver(p, kind, cmd, rsp, delete).events == p.events + [EventOf(p, kind, cmd, rsp)]
    ensures Deliver(p, kind, cmd, rsp, delete).script == Tail(p.script)
  {
  }

  // ---- Streamed bodies ----

  /** An object whose bodies are handed straight to the application. */
  predicate TakesStream(p: Party) {
    p.current.Some? && p.current.value.rx.streaming && !p.current.value.abort
  }

  lemma ChunkOffered(p: Party, chunk: seq<byte>, n: nat)
    requires TakesStream(p) && n <= |p.events|
    ensures var p' := StreamChunk(p, chunk);
            && TakesStream(p') && Chunks(p'.events, n) == Chunks(p.events, n) + [chunk]
            && |p'.events| == |p.events| + 1
            && Received(p'.current.value.rx) == Received(p.current.value.rx)
  {
    hide Chunks, Reqs, ApplyAll, Received;
    var o := p.current.value;
    var p0 := p.(current := Some(o.(stream := o.stream.(data := chunk))));
    var calls := if p.script == [] then [] else p.script[0];
    ApplyAllStreaming(p0.current.value, p.mtuTx, calls);
    ApplyAllKeeps(p0.current.value, p.mtuTx, calls);
    OneMore(p.events, EventOf(p0, EvStreamAvail, 0, 0), n);
  }

  /** Headers that are no part of a body. */
  function Plain(hs: seq<Header>): seq<Header> {
    if hs == [] then [] else (if IsBody(hs[0].hi) then [] else [hs[0]]) + Plain(hs[1..])
  }

  lemma {:induction false} PlainAppend(a: seq<Header>, b: seq<Header>)
    ensures Plain(a + b) == Plain(a) + Plain(b)
  {
    if a == [] {
      assert a + b == b;
    } else {
      assert (a + b)[1..] == a[1..] + b;
      PlainAppend(a[1..], b);
    }
  }

  /** A header, taken by a streaming object: its chunks are offered, and nothing else; any
      other header is stored. */
  lemma HeaderOffered(p: Party, h: Header, n: nat)
    requires TakesStream(p) && n <= |p.events|
    ensures var p' := AcceptHeader(p, h);
            && TakesStream(p') && n <= |p'.events|
            && Chunks(p'.events, n) == Chunks(p.events, n) + ChunksOf(h)
            && Received(p'.current.value.rx) == Received(p.current.value.rx) + Plain([h])
  {
    hide StreamChunk, Chunks;
    assert [h][1..] == [];
    if !IsBody(h.hi) {
      StoreOne(p.current.value.rx, h);
      assert Chunks(p.events, n) + [] == Chunks(p.events, n);
    } else if h.hi == BODY && h.value == [] {
      assert Chunks(p.events, n) + [] == Chunks(p.events, n);
    } else {
      ChunkOffered(p, h.value, n);
      if h.hi == END_OF_BODY && h.value != [] {
        ChunkOffered(StreamChunk(p, h.value), [], n);
        assert Chunks(p.events, n) + [h.value] + [[]] == Chunks(p.events, n) + [h.value, []];
      }
    }
  }

  /** Whatever the application does meanwhile, it is offered exactly the chunks of the
      packet's bodies, one event for each and in order. */
  lemma {:induction false} ChunksOffered(p: Party, hs: seq<Header>, n: nat)
    requires TakesStream(p) && n <= |p.events|
    ensures var p' := AcceptAll(p, hs);
            && TakesStream(p') && n <= |p'.events|
            && Chunks(p'.events, n) == Chunks(p.events, n) + ChunksOfAll(hs)
            && Received(p'.current.value.rx) == Received(p.current.value.rx) + Plain(hs)
    decreases |hs|
  {
    hide AcceptHeader, Chunks, Received, ChunksOf;
    if hs == [] {
    } else {
      var p1 := AcceptHeader(p, hs[0]);
      HeaderOffered(p, hs[0], n);
      ChunksOffered(p1, hs[1..], n);
      Associate(Chunks(p.events, n), ChunksOf(hs[0]), ChunksOfAll(hs[1..]));
      assert hs == [hs[0]] + hs[1..];
      PlainAppend([hs[0]], hs[1..]);
      Associate(Received(p.current.value.rx), Plain([hs[0]]), Plain(hs[1..]));
    }
  }

  // ---- No new link errors ----

  lemma AddedQuietly(before: seq<Event>, after: seq<Event>, kind: EventKind, id: Option<nat>)
    requires Adds(before, after, kind, id) && !kind.EvLinkErr?
    ensures LinkErrorIn(after) ==> LinkErrorIn(before)
  {
    if i :| 0 <= i < |after| && after[i].kind.EvLinkErr? {
      assert i < |before| && before[i] == after[i];
    }
  }

  lemma DeliverQuietly(p: Party, kind: EventKind, cmd: nat, rsp: nat, delete: bool)
    requires !kind.EvLinkErr?
    ensures LinkErrorIn(Deliver(p, kind, cmd, rsp, delete).events) ==> LinkErrorIn(p.events)
  {
    AddedQuietly(p.events, p.events + [EventOf(p, kind, cmd, rsp)], kind, IdOf(p.current));
  }

  lemma SendQuietly(p: Party, allowFinal: bool, forceFinal: bool)
    requires p.current.Some?
    ensures LinkErrorIn(SendObject(p, allowFinal, forceFinal).0.events) ==> LinkErrorIn(p.events)
  {
    hide SendObject, LinkErrorIn;
    SendKeeps(p, allowFinal, forceFinal);
    AddedQuietly(p.events, SendObject(p, allowFinal, forceFinal).0.events, EvStreamEmpty, IdOf(p.current));
  }
}
