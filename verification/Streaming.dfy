/**
 Bodies received as a stream: every fragment is handed to the application at once, and
 an empty chunk marks the end of the body.
 */
module Streaming {
  import opened Octets
  import opened Headers
  import opened Fragmenter
  import opened Reassembler
  import opened Transfer

  /** The chunks one fragment turns into. An empty fragment that is not the last is
      kept from the application; the last one ends in an empty chunk. */
  function ChunksOf(h: Header): seq<seq<byte>> {
    if h.hi == BODY then (if h.value == [] then [] else [h.value])
    else if h.hi == END_OF_BODY then (if h.value == [] then [[]] else [h.value, []])
    else []
  }

  function ChunksOfAll(hs: seq<Header>): seq<seq<byte>> {
    if hs == [] then [] else ChunksOf(hs[0]) + ChunksOfAll(hs[1..])
  }

  /** How an application puts chunks together: whole bodies, and the one still open. */
  datatype Assembly = Assembly(whole: seq<seq<byte>>, open: seq<byte>)

  function Assemble(a: Assembly, chunks: seq<seq<byte>>): Assembly
    decreases |chunks|
  {
    if chunks == [] then a
    else Assemble(if chunks[0] == [] then Assembly(a.whole + [a.open], []) else a.(open := a.open + chunks[0]),
                  chunks[1..])
  }

  lemma {:induction false} AssembleAppend(a: Assembly, c: seq<seq<byte>>, d: seq<seq<byte>>)
    ensures Assemble(a, c + d) == Assemble(Assemble(a, c), d)
    decreases |c|
  {
    if c == [] {
      assert c + d == d;
    } else {
      assert (c + d)[1..] == c[1..] + d;
      AssembleAppend(if c[0] == [] then Assembly(a.whole + [a.open], []) else a.(open := a.open + c[0]), c[1..], d);
    }
  }

  function BodyValues(hs: seq<Header>): seq<seq<byte>> {
    if hs == [] then []
    else (if hs[0].hi == BODY then [hs[0].value] else []) + BodyValues(hs[1..])
  }

  lemma {:induction false} BodyValuesAppend(a: seq<Header>, b: seq<Header>)
    ensures BodyValues(a + b) == BodyValues(a) + BodyValues(b)
  {
    if a == [] {
      assert a + b == b;
    } else {
      assert (a + b)[1..] == a[1..] + b;
      BodyValuesAppend(a[1..], b);
    }
  }

  /** The application's assembly agrees with what a storing receiver would hold. */
  predicate Agrees(a: Assembly, rx: Rx) {
    a.open == Partial(rx.body) && a.whole == BodyValues(Received(rx))
  }

  lemma AgreesOne(a: Assembly, rx: Rx, h: Header)
    requires Agrees(a, rx)
    ensures Agrees(Assemble(a, ChunksOf(h)), Store(rx, h))
  {
    var v := h.value;
    if h.hi == END_OF_BODY {
      var body := Header(BODY, Partial(rx.body) + v);
      StoreOne(rx, h);
      BodyValuesAppend(Received(rx), [body]);
      assert BodyValues([body]) == [body.value];
      var last: seq<seq<byte>> := [[]];
      assert Assemble(a.(open := a.open + v), last) == Assembly(a.whole + [a.open + v], []);
      if v != [] {
        assert [v, []][1..] == last;
      } else {
        assert a.open + v == a.open;
      }
    } else if h.hi == BODY {
      if v == [] {
        assert a.open + v == a.open;
      } else {
        var one: seq<seq<byte>> := [v];
        assert one[1..] == [];
      }
    } else {
      StoreOne(rx, h);
      BodyValuesAppend(Received(rx), [h]);
      assert BodyValues([h]) == [];
    }
  }

  lemma {:induction false} AgreesAll(a: Assembly, rx: Rx, hs: seq<Header>)
    requires Agrees(a, rx)
    ensures Agrees(Assemble(a, ChunksOfAll(hs)), StoreAll(rx, hs))
    decreases |hs|
  {
    if hs == [] {
    } else {
      AgreesOne(a, rx, hs[0]);
      AssembleAppend(a, ChunksOf(hs[0]), ChunksOfAll(hs[1..]));
      AgreesAll(Assemble(a, ChunksOf(hs[0])), Store(rx, hs[0]), hs[1..]);
    }
  }

  /** The chunks a streaming receiver hands out over a sequence of packets. */
  function ChunksOfPackets(packets: seq<seq<byte>>): seq<seq<byte>>
    decreases |packets|
  {
    if packets == [] then []
    else ChunksOfPackets(packets[..|packets| - 1]) +
         ChunksOfAll(ParseHeaders(packets[|packets| - 1], true).headers)
  }

  lemma {:induction false} AgreesPackets(rx: Rx, packets: seq<seq<byte>>)
    requires rx.streaming && Agrees(Assembly([], []), rx)
    ensures ReceiveMany(rx, packets).streaming
    ensures Agrees(Assemble(Assembly([], []), ChunksOfPackets(packets)), ReceiveMany(rx, packets))
    decreases |packets|
  {
    if packets == [] {
    } else {
      var before := packets[..|packets| - 1];
      var hs := ParseHeaders(packets[|packets| - 1], true).headers;
      AgreesPackets(rx, before);
      AssembleAppend(Assembly([], []), ChunksOfPackets(before), ChunksOfAll(hs));
      AgreesAll(Assemble(Assembly([], []), ChunksOfPackets(before)), ReceiveMany(rx, before), hs);
      StoreAllKeepsMode(ReceiveMany(rx, before), hs);
    }
  }

  /** However a body or stream was cut up, the chunks assemble to the bodies queued. */
  lemma StreamRoundTrip(n: nat, q: seq<TxElement>, budget: nat, lim: Limits, s: Stream, feed: seq<StreamCall>)
    requires Sendable(q, s, feed) && budget < 0x1_0000
    ensures var t := SendMany(n, q, budget, lim, s, feed);
            t.status.Full? && t.queue == [] ==>
              Assemble(Assembly([], []), ChunksOfPackets(t.packets)) == Assembly(BodyValues(Meaning(q, s, feed)), [])
  {
    var rx := NewRx().(streaming := true);
    var t := SendMany(n, q, budget, lim, s, feed);
    PendingNothing(q, s, feed);
    assert Received(rx) + Pending(rx.body, q, s, feed) == Meaning(q, s, feed);
    TransferKeeps(n, rx, q, budget, lim, s, feed, Meaning(q, s, feed));
    AgreesPackets(rx, t.packets);
    var rx' := ReceiveMany(rx, t.packets);
    assert Received(rx') + [] == Received(rx');
  }

  function Concat(chunks: seq<seq<byte>>): seq<byte> {
    if chunks == [] then [] else chunks[0] + Concat(chunks[1..])
  }

  predicate AllNonEmpty(chunks: seq<seq<byte>>) {
    forall i :: 0 <= i < |chunks| ==> chunks[i] != []
  }

  lemma {:induction false} WholeGrows(a: Assembly, chunks: seq<seq<byte>>)
    ensures var b := Assemble(a, chunks);
            && |b.whole| >= |a.whole|
            && (|b.whole| == |a.whole| ==> b == Assembly(a.whole, a.open + Concat(chunks)) && AllNonEmpty(chunks))
    decreases |chunks|
  {
    if chunks == [] {
    } else {
      WholeGrows(if chunks[0] == [] then Assembly(a.whole + [a.open], []) else a.(open := a.open + chunks[0]),
                 chunks[1..]);
      Associate(a.open, chunks[0], Concat(chunks[1..]));
    }
  }

  /** Chunks that assemble to exactly one body are non-empty ones that make up the body,
      followed by exactly one empty chunk. */
  lemma {:induction false} OneBody(open: seq<byte>, chunks: seq<seq<byte>>, v: seq<byte>)
    requires Assemble(Assembly([], open), chunks) == Assembly([v], [])
    ensures chunks != [] && chunks[|chunks| - 1] == []
    ensures var data := chunks[..|chunks| - 1]; AllNonEmpty(data) && open + Concat(data) == v
    decreases |chunks|
  {
    if chunks[0] == [] {
      var more := chunks[1..];
      assert [] + [open] == [open];
      WholeGrows(Assembly([open], []), more);
      assert |[] + Concat(more)| == 0;
      assert more == [];
      assert open + Concat(chunks[..0]) == open;
    } else {
      OneBody(open + chunks[0], chunks[1..], v);
      assert chunks[..|chunks| - 1][1..] == chunks[1..][..|chunks| - 2];
      Associate(open, chunks[0], Concat(chunks[1..][..|chunks| - 2]));
    }
  }

  /** The streamed body end to end: one stream behind any headers, fed with any chunks and
      an empty end call, reaches the application as non-empty chunks with the same content
      and one empty chunk at the end. */
  lemma StreamedBody(n: nat, hs: seq<TxElement>, budget: nat, lim: Limits, feed: seq<StreamCall>)
    requires Preamble(hs) && budget < 0x1_0000
    requires Sendable(hs + [TxStream], Stream([], false), feed)
    ensures var t := SendMany(n, hs + [TxStream], budget, lim, Stream([], false), feed);
            var chunks := ChunksOfPackets(t.packets);
            t.status.Full? && t.queue == [] ==>
              && chunks != [] && chunks[|chunks| - 1] == []
              && AllNonEmpty(chunks[..|chunks| - 1])
              && Concat(chunks[..|chunks| - 1]) == FeedContent(feed)
  {
    hide SendMany, ChunksOfPackets, BodyValues, Meaning, Sendable, Preamble, AllNonEmpty;
    var s := Stream([], false);
    var q := hs + [TxStream];
    var t := SendMany(n, q, budget, lim, s, feed);
    if t.status.Full? && t.queue == [] {
      StreamRoundTrip(n, q, budget, lim, s, feed);
      OnlyStreamValue(hs, s, feed);
      var chunks := ChunksOfPackets(t.packets);
      OneBody([], chunks, Content(s, feed));
      assert [] + Concat(chunks[..|chunks| - 1]) == Concat(chunks[..|chunks| - 1]);
      assert Content(s, feed) == FeedContent(feed);
    }
  }

  lemma {:induction false} OnlyStreamValue(hs: seq<TxElement>, s: Stream, feed: seq<StreamCall>)
    requires Preamble(hs) && Sendable(hs + [TxStream], s, feed)
    ensures BodyValues(Meaning(hs + [TxStream], s, feed)) == [Content(s, feed)]
  {
    var q := hs + [TxStream];
    if hs == [] {
      assert q[1..] == [];
      assert Meaning(q, s, feed) == [Header(BODY, Content(s, feed))];
      assert BodyValues([Header(BODY, Content(s, feed))][1..]) == [];
    } else {
      assert q[0] == hs[0] && q[1..] == hs[1..] + [TxStream];
      OnlyStreamValue(hs[1..], s, feed);
      if hs[0].TxHeader? {
        BodyValuesAppend([hs[0].header], Meaning(q[1..], s, feed));
        assert BodyValues([hs[0].header]) == [];
      }
    }
  }
}
