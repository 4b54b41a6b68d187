/**
 The receiving side: headers are collected in order, and the fragments of a body are
 joined again (IrOBEX section 2.2.9). The central law is conservation: what has been
 received, followed by what the sender's queue still stands for, never changes.
 */
module Reassembler {
  import opened Octets
  import opened Headers
  import opened Fragmenter

  /** Received headers not yet and already handed to the application, the body so far,
      the length announced by the peer, and whether bodies are delivered as a stream. */
  datatype Rx = Rx(unread: seq<Header>, read: seq<Header>, body: Option<seq<byte>>, hint: nat, streaming: bool)

  function NewRx(): Rx {
    Rx([], [], None, 0, false)
  }

  function Received(rx: Rx): seq<Header> {
    rx.read + rx.unread
  }

  function Partial(body: Option<seq<byte>>): seq<byte> {
    if body.Some? then body.value else []
  }

  function Store(rx: Rx, h: Header): Rx {
    if h.hi == END_OF_BODY then
      rx.(unread := rx.unread + [Header(BODY, Partial(rx.body) + h.value)], body := None)
    else if h.hi == BODY then rx.(body := Some(Partial(rx.body) + h.value))
    else
      rx.(unread := rx.unread + [h],
          hint := if h.hi == LENGTH && |h.value| == 4 then Read32(h.value, 0) else rx.hint)
  }

  function StoreAll(rx: Rx, hs: seq<Header>): Rx
    decreases |hs|
  {
    if hs == [] then rx else StoreAll(Store(rx, hs[0]), hs[1..])
  }

  lemma {:induction false} StoreAllAppend(rx: Rx, a: seq<Header>, b: seq<Header>)
    ensures StoreAll(rx, a + b) == StoreAll(StoreAll(rx, a), b)
    decreases |a|
  {
    if a == [] {
      assert a + b == b;
    } else {
      assert (a + b)[1..] == a[1..] + b;
      StoreAllAppend(Store(rx, a[0]), a[1..], b);
    }
  }

  lemma {:induction false} StoreAllKeepsMode(rx: Rx, hs: seq<Header>)
    ensures StoreAll(rx, hs).streaming == rx.streaming
    decreases |hs|
  {
    if hs == [] {
    } else {
      StoreAllKeepsMode(Store(rx, hs[0]), hs[1..]);
    }
  }

  // ---- What a queue stands for ----

  /** The headers a queue stands for: markers erased, bodies and streams whole. */
  function Meaning(q: seq<TxElement>, s: Stream, feed: seq<StreamCall>): seq<Header> {
    if q == [] then []
    else
      match q[0]
      case TxHeader(h) => [h] + Meaning(q[1..], s, feed)
      case TxBody(buf, touched) => [Header(BODY, BodyRest(buf, touched))] + Meaning(q[1..], s, feed)
      case TxEmpty => Meaning(q[1..], s, feed)
      case TxStream => [Header(BODY, Content(s, feed))] + Meaning(q[1..], Stream([], true), [])
  }

  /** What is still to be delivered when part of a body at the front has already arrived. */
  function Pending(body: Option<seq<byte>>, q: seq<TxElement>, s: Stream, feed: seq<StreamCall>): seq<Header> {
    if q == [] then []
    else
      match q[0]
      case TxBody(buf, touched) =>
        [Header(BODY, Partial(body) + BodyRest(buf, touched))] + Meaning(q[1..], s, feed)
      case TxStream => [Header(BODY, Partial(body) + Content(s, feed))] + Meaning(q[1..], Stream([], true), [])
      case _ => Meaning(q, s, feed)
  }

  lemma PendingNothing(q: seq<TxElement>, s: Stream, feed: seq<StreamCall>)
    ensures Pending(None, q, s, feed) == Meaning(q, s, feed)
  {
    if q != [] {
      match q[0]
      case TxBody(buf, touched) => assert Partial(None) + BodyRest(buf, touched) == BodyRest(buf, touched);
      case TxStream => assert Partial(None) + Content(s, feed) == Content(s, feed);
      case _ =>
    }
  }

  predicate Paired(body: Option<seq<byte>>, q: seq<TxElement>) {
    body.Some? ==> q != [] && (q[0].TxBody? || q[0].TxStream?)
  }

  /** No header poses as a body fragment, and a stream among the elements ends properly. */
  predicate Sendable(q: seq<TxElement>, s: Stream, feed: seq<StreamCall>) {
    forall i :: 0 <= i < |q| ==>
      && (q[i].TxHeader? ==> WellFormed(q[i].header) && !IsBody(q[i].header.hi))
      && (q[i].TxStream? ==> WellFed(s, feed))
  }

  /** Sender and receiver agree: nothing lost, nothing repeated, nothing out of order. */
  predicate InStep(rx: Rx, q: seq<TxElement>, s: Stream, feed: seq<StreamCall>, whole: seq<Header>) {
    && Sendable(q, s, feed) && Paired(rx.body, q)
    && Received(rx) + Pending(rx.body, q, s, feed) == whole
  }

  lemma StoreOne(rx: Rx, h: Header)
    ensures StoreAll(rx, [h]) == Store(rx, h)
    ensures h.hi == END_OF_BODY ==>
              Received(Store(rx, h)) == Received(rx) + [Header(BODY, Partial(rx.body) + h.value)]
    ensures h.hi == BODY ==> Received(Store(rx, h)) == Received(rx)
    ensures !IsBody(h.hi) ==> Received(Store(rx, h)) == Received(rx) + [h]
  {
    assert [h][1..] == [];
  }

  /** A fragment that is not the last moves octets from the sender's side to the receiver's. */
  lemma FragmentJoins(rx: Rx, v: seq<byte>, w: seq<byte>, rest: seq<Header>)
    ensures var rx' := Store(rx, Header(BODY, v));
            && rx'.body.Some?
            && Received(rx') + ([Header(BODY, Partial(rx'.body) + w)] + rest) ==
               Received(rx) + ([Header(BODY, Partial(rx.body) + (v + w))] + rest)
  {
    Associate(Partial(rx.body), v, w);
  }

  lemma FragmentEnds(rx: Rx, v: seq<byte>, rest: seq<Header>)
    ensures var rx' := Store(rx, Header(END_OF_BODY, v));
            && rx'.body.None?
            && Received(rx') + rest == Received(rx) + ([Header(BODY, Partial(rx.body) + v)] + rest)
  {
    StoreOne(rx, Header(END_OF_BODY, v));
    Associate(Received(rx), [Header(BODY, Partial(rx.body) + v)], rest);
  }

  /** The stream's fragment, whatever part of the content it took. */
  lemma StreamFragment(rx: Rx, q: seq<TxElement>, s: Stream, feed: seq<StreamCall>, f: StreamFill)
    requires q != [] && q[0].TxStream?
    requires WellFed(f.stream, f.feed) && f.octets + Content(f.stream, f.feed) == Content(s, feed)
    ensures var done := f.stream.stop && f.stream.data == [];
            var q' := if done then q[1..] else q;
            var rx' := Store(rx, Header(if done then END_OF_BODY else BODY, f.octets));
            && Paired(rx'.body, q')
            && Received(rx') + Pending(rx'.body, q', f.stream, f.feed) == Received(rx) + Pending(rx.body, q, s, feed)
  {
    var rest := Meaning(q[1..], Stream([], true), []);
    if f.stream.stop && f.stream.data == [] {
      assert f.octets + Content(f.stream, f.feed) == f.octets;
      PendingNothing(q[1..], f.stream, f.feed);
      FragmentEnds(rx, f.octets, rest);
    } else {
      FragmentJoins(rx, f.octets, Content(f.stream, f.feed), rest);
    }
  }

  lemma StepKeepsStream(rx: Rx, q: seq<TxElement>, left: nat, lim: Limits, s: Stream, feed: seq<StreamCall>)
    requires q != [] && q[0].TxStream? && Sendable(q, s, feed) && !PackStep(q, left, lim, s, feed).status.Fault?
    ensures var a := PackStep(q, left, lim, s, feed);
            var rx' := StoreAll(rx, a.frags);
            && Sendable(a.queue, a.stream, a.feed) && Paired(rx'.body, a.queue)
            && Received(rx') + Pending(rx'.body, a.queue, a.stream, a.feed) ==
               Received(rx) + Pending(rx.body, q, s, feed)
  {
    hide FillStream, Content, Meaning;
    assert WellFed(s, feed);
    var f := FillStream(left - 3, s, feed);
    FillWellFed(left - 3, s, feed);
    FillConserves(left - 3, s, feed);
    StreamFragment(rx, q, s, feed, f);
    var h := Header(if f.stream.stop && f.stream.data == [] then END_OF_BODY else BODY, f.octets);
    StoreOne(rx, h);
    assert PackStep(q, left, lim, s, feed).frags == [h];
  }

  lemma StepKeepsBody(rx: Rx, q: seq<TxElement>, left: nat, lim: Limits, s: Stream, feed: seq<StreamCall>)
    requires q != [] && q[0].TxBody? && left >= 3 && Sendable(q, s, feed)
    ensures var a := PackStep(q, left, lim, s, feed);
            var rx' := StoreAll(rx, a.frags);
            && Sendable(a.queue, a.stream, a.feed) && Paired(rx'.body, a.queue)
            && Received(rx') + Pending(rx'.body, a.queue, a.stream, a.feed) ==
               Received(rx) + Pending(rx.body, q, s, feed)
  {
    var a := PackStep(q, left, lim, s, feed);
    var v := BodyRest(q[0].buf, q[0].touched);
    StoreOne(rx, a.frags[0]);
    if left < |v| + 3 {
      assert a.queue[1..] == q[1..] && v[..left - 3] + v[left - 3..] == v;
      FragmentJoins(rx, v[..left - 3], v[left - 3..], Meaning(q[1..], s, feed));
    } else {
      PendingNothing(q[1..], s, feed);
      FragmentEnds(rx, v, Meaning(q[1..], s, feed));
    }
  }

  /** One turn of the packing loop, received, keeps both sides in step. */
  lemma StepKeeps(rx: Rx, q: seq<TxElement>, left: nat, lim: Limits, s: Stream, feed: seq<StreamCall>,
                  whole: seq<Header>)
    requires q != [] && InStep(rx, q, s, feed, whole)
    ensures var a := PackStep(q, left, lim, s, feed);
            a.status.Failed? || a.status.Fault? ||
            InStep(StoreAll(rx, a.frags), a.queue, a.stream, a.feed, whole)
  {
    var a := PackStep(q, left, lim, s, feed);
    match q[0]
    case TxStream => if !a.status.Fault? { StepKeepsStream(rx, q, left, lim, s, feed); }
    case TxBody(_, _) => if left >= 3 { StepKeepsBody(rx, q, left, lim, s, feed); }
    case TxEmpty => PendingNothing(a.queue, s, feed);
    case TxHeader(h) =>
      if a.frags != [] {
        StoreOne(rx, h);
        PendingNothing(a.queue, s, feed);
        Associate(Received(rx), [h], Meaning(q[1..], s, feed));
      }
  }

  /** Receiving a whole packet keeps both sides in step. */
  lemma {:induction false} PackKeeps(rx: Rx, q: seq<TxElement>, left: nat, lim: Limits, s: Stream,
                                     feed: seq<StreamCall>, whole: seq<Header>)
    requires InStep(rx, q, s, feed, whole)
    ensures var p := Pack(q, left, lim, s, feed);
            p.status.Full? ==> InStep(StoreAll(rx, p.frags), p.queue, p.stream, p.feed, whole)
    decreases |q|, |feed|
  {
    if q == [] {
    } else {
      var a := PackStep(q, left, lim, s, feed);
      StepKeeps(rx, q, left, lim, s, feed, whole);
      if a.status.More? {
        var rx' := StoreAll(rx, a.frags);
        PackKeeps(rx', a.queue, a.left, After(lim, a), a.stream, a.feed, whole);
        StoreAllAppend(rx, a.frags, Pack(a.queue, a.left, After(lim, a), a.stream, a.feed).frags);
      }
    }
  }
}
