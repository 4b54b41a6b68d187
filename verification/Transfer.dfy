/**
 Whole transfers: one packet after another is packed on one side and received on the
 other, until the queue is empty.
 */
module Transfer {
  import opened Octets
  import opened Headers
  import opened Fragmenter
  import opened Reassembler

  /** The packets sent so far, and what is left to send. */
  datatype Sent = Sent(packets: seq<seq<byte>>, queue: seq<TxElement>, stream: Stream,
                       feed: seq<StreamCall>, status: Status, lim: Limits)

  /** The buffer keeps the size to which a packet has made it grow. */
  function Grown(lim: Limits, size: int): Limits {
    lim.(room := Max(lim.room, size))
  }

  /** The limits of the packet after this one, which has three octets in front. */
  function NextLimits(lim: Limits, p: Packing): Limits {
    Grown(lim, |EncodeAll(p.frags)| + 3)
  }

  /** At most n packets with the same budget; stops when the queue is empty or on trouble. */
  function SendMany(n: nat, q: seq<TxElement>, budget: nat, lim: Limits, s: Stream, feed: seq<StreamCall>): Sent {
    if n == 0 then Sent([], q, s, feed, Full, lim)
    else
      var t := SendMany(n - 1, q, budget, lim, s, feed);
      if t.queue == [] || !t.status.Full? then t
      else
        var p := Pack(t.queue, budget, t.lim, t.stream, t.feed);
        Sent(t.packets + [EncodeAll(p.frags)], p.queue, p.stream, p.feed, p.status, NextLimits(t.lim, p))
  }

  function ReceivePacket(rx: Rx, payload: seq<byte>): Rx {
    StoreAll(rx, ParseHeaders(payload, rx.streaming).headers)
  }

  function ReceiveMany(rx: Rx, packets: seq<seq<byte>>): Rx
    decreases |packets|
  {
    if packets == [] then rx
    else ReceivePacket(ReceiveMany(rx, packets[..|packets| - 1]), packets[|packets| - 1])
  }

  lemma SendableWellFormed(q: seq<TxElement>, s: Stream, feed: seq<StreamCall>)
    requires Sendable(q, s, feed)
    ensures WellFormedQueue(q)
  {
  }

  /** Conservation over any number of packets, through their octets. */
  lemma {:induction false} TransferKeeps(n: nat, rx: Rx, q: seq<TxElement>, budget: nat, lim: Limits, s: Stream,
                                         feed: seq<StreamCall>, whole: seq<Header>)
    requires InStep(rx, q, s, feed, whole) && budget < 0x1_0000
    ensures var t := SendMany(n, q, budget, lim, s, feed);
            t.status.Full? ==> InStep(ReceiveMany(rx, t.packets), t.queue, t.stream, t.feed, whole)
  {
    hide Pack, StoreAll, Meaning, Pending, EncodeAll;
    if n == 0 {
    } else {
      TransferKeeps(n - 1, rx, q, budget, lim, s, feed, whole);
      var t := SendMany(n - 1, q, budget, lim, s, feed);
      if t.queue != [] && t.status.Full? {
        var p := Pack(t.queue, budget, t.lim, t.stream, t.feed);
        var rx' := ReceiveMany(rx, t.packets);
        SendableWellFormed(t.queue, t.stream, t.feed);
        PackWellFormed(t.queue, budget, t.lim, t.stream, t.feed);
        ParseEncoded(p.frags, rx'.streaming);
        PackKeeps(rx', t.queue, budget, t.lim, t.stream, t.feed, whole);
        var all := t.packets + [EncodeAll(p.frags)];
        assert all[..|all| - 1] == t.packets;
      }
    }
  }

  /** The round trip: once the queue is empty the receiver holds the very headers that
      were queued, in order, bodies whole, markers erased; whatever the length hint. */
  lemma RoundTrip(n: nat, hint: nat, q: seq<TxElement>, budget: nat, lim: Limits, s: Stream, feed: seq<StreamCall>)
    requires Sendable(q, s, feed) && budget < 0x1_0000
    ensures var t := SendMany(n, q, budget, lim, s, feed);
            var rx := ReceiveMany(NewRx().(hint := hint), t.packets);
            t.status.Full? && t.queue == [] ==> Received(rx) == Meaning(q, s, feed) && rx.body.None?
  {
    var rx := NewRx().(hint := hint);
    PendingNothing(q, s, feed);
    assert Received(rx) + Pending(rx.body, q, s, feed) == Meaning(q, s, feed);
    TransferKeeps(n, rx, q, budget, lim, s, feed, Meaning(q, s, feed));
  }

  // ---- Every packet makes progress ----

  function FeedWeight(feed: seq<StreamCall>): nat {
    if feed == [] then 0 else 1 + |Given(feed[0])| + FeedWeight(feed[1..])
  }

  function ElementWeight(e: TxElement): nat {
    match e
    case TxHeader(h) => 1 + EncodedSize(h)
    case TxBody(buf, touched) => 1 + |BodyRest(buf, touched)|
    case _ => 1
  }

  function QueueWeight(q: seq<TxElement>): nat {
    if q == [] then 0 else ElementWeight(q[0]) + QueueWeight(q[1..])
  }

  /** What is still to be sent, in octets and markers. */
  function Weight(q: seq<TxElement>, s: Stream, feed: seq<StreamCall>): nat {
    QueueWeight(q) + |s.data| + FeedWeight(feed)
  }

  lemma {:induction false} FillWeight(room: nat, s: Stream, feed: seq<StreamCall>)
    ensures var f := FillStream(room, s, feed);
            |f.octets| + |f.stream.data| + FeedWeight(f.feed) + (|feed| - |f.feed|) == |s.data| + FeedWeight(feed)
    decreases |feed|, |s.data|
  {
    var s1 := if s.data == [] then Asked(s, feed) else s;
    var f1 := if s.data == [] then Tail(feed) else feed;
    if !(s.data == [] && (s1.stop || !Supplied(feed))) && |s1.data| < room {
      FillWeight(room - |s1.data|, Stream([], s1.stop), f1);
    }
  }

  /** Every header fits a packet of its own. */
  predicate Fitting(q: seq<TxElement>, budget: nat) {
    forall i :: 0 <= i < |q| && q[i].TxHeader? ==> EncodedSize(q[i].header) <= budget
  }

  lemma StepWeight(q: seq<TxElement>, left: nat, lim: Limits, s: Stream, feed: seq<StreamCall>, budget: nat)
    requires q != [] && Fitting(q, budget)
    ensures var a := PackStep(q, left, lim, s, feed);
            && Fitting(a.queue, budget)
            && Weight(a.queue, a.stream, a.feed) <= Weight(q, s, feed)
            && (left == budget > 3 && !a.status.Failed? ==> Weight(a.queue, a.stream, a.feed) < Weight(q, s, feed))
  {
    hide FillStream;
    if q[0].TxStream? && left >= 3 { FillWeight(left - 3, s, feed); }
    var a := PackStep(q, left, lim, s, feed);
    if q[0].TxBody? && a.status.Full? { assert a.queue[1..] == q[1..]; }
  }

  lemma {:induction false} PackWeight(q: seq<TxElement>, left: nat, lim: Limits, s: Stream, feed: seq<StreamCall>,
                                      budget: nat)
    requires Fitting(q, budget)
    ensures var p := Pack(q, left, lim, s, feed);
            && Fitting(p.queue, budget)
            && Weight(p.queue, p.stream, p.feed) <= Weight(q, s, feed)
            && (q != [] && left == budget > 3 && p.status.Full? ==>
                  Weight(p.queue, p.stream, p.feed) < Weight(q, s, feed))
    decreases |q|, |feed|
  {
    if q == [] {
    } else {
      var a := PackStep(q, left, lim, s, feed);
      StepWeight(q, left, lim, s, feed, budget);
      if a.status.More? { PackWeight(a.queue, a.left, After(lim, a), a.stream, a.feed, budget); }
    }
  }

  /** A transfer ends: the weight of the queue bounds the number of packets. */
  lemma {:induction false} TransferEnds(n: nat, q: seq<TxElement>, budget: nat, lim: Limits, s: Stream,
                                        feed: seq<StreamCall>)
    requires Fitting(q, budget) && budget > 3
    ensures var t := SendMany(n, q, budget, lim, s, feed);
            && Fitting(t.queue, budget)
            && (!t.status.Full? || t.queue == [] || n + Weight(t.queue, t.stream, t.feed) <= Weight(q, s, feed))
  {
    hide Pack, EncodeAll, Fitting, Weight;
    if n == 0 {
    } else {
      TransferEnds(n - 1, q, budget, lim, s, feed);
      var t := SendMany(n - 1, q, budget, lim, s, feed);
      PackWeight(t.queue, budget, t.lim, t.stream, t.feed, budget);
    }
  }

  // ---- Exact number of packets of a body ----

  lemma {:induction false} SendManyFirst(n: nat, q: seq<TxElement>, budget: nat, lim: Limits, s: Stream,
                                         feed: seq<StreamCall>)
    requires q != [] && Pack(q, budget, lim, s, feed).status.Full?
    ensures var p := Pack(q, budget, lim, s, feed);
            var t := SendMany(n, p.queue, budget, NextLimits(lim, p), p.stream, p.feed);
            SendMany(n + 1, q, budget, lim, s, feed) == t.(packets := [EncodeAll(p.frags)] + t.packets)
  {
    hide Pack, EncodeAll;
    var p := Pack(q, budget, lim, s, feed);
    if n == 0 {
      assert SendMany(0, q, budget, lim, s, feed).packets + [EncodeAll(p.frags)] == [EncodeAll(p.frags)] + [];
    } else {
      SendManyFirst(n - 1, q, budget, lim, s, feed);
    }
  }

  /** Packets needed for a body of n octets with `room` octets of body in each. */
  function PacketsFor(n: nat, room: nat): nat
    requires room > 0
  {
    if n <= room then 1 else 1 + PacketsFor(n - room, room)
  }

  /** That is max(1, ceil(n / room)): the least positive count of rooms that covers n. */
  lemma {:induction false} PacketsForCeiling(n: nat, room: nat)
    requires room > 0
    ensures var c := PacketsFor(n, room);
            && c >= 1 && n <= c * room
            && (c > 1 ==> (c - 1) * room < n)
  {
    if n <= room {
    } else {
      var c := PacketsFor(n - room, room);
      PacketsForCeiling(n - room, room);
      assert (c + 1) * room == c * room + room;
      assert c * room == (c - 1) * room + room;
    }
  }

  /** A queue holding one body and nothing else. */
  predicate BodyOnly(q: seq<TxElement>) {
    |q| == 1 && q[0].TxBody?
  }

  function RestOf(q: seq<TxElement>): seq<byte>
    requires BodyOnly(q)
  {
    BodyRest(q[0].buf, q[0].touched)
  }

  lemma BodyPack(q: seq<TxElement>, budget: nat, lim: Limits, s: Stream)
    requires budget > 3 && BodyOnly(q)
    ensures var p := Pack(q, budget, lim, s, []);
            && p.status.Full? && p.stream == s && p.feed == []
            && (|RestOf(q)| <= budget - 3 ==> p.queue == [])
            && (|RestOf(q)| > budget - 3 ==> BodyOnly(p.queue) && RestOf(p.queue) == RestOf(q)[budget - 3..])
  {
    var a := PackStep(q, budget, lim, s, []);
    assert q[1..] == [];
  }

  /** n packets, and no fewer, empty the queue. */
  ghost predicate Takes(n: nat, q: seq<TxElement>, budget: nat, lim: Limits, s: Stream) {
    && n > 0
    && SendMany(n, q, budget, lim, s, []).queue == []
    && |SendMany(n, q, budget, lim, s, []).packets| == n
    && SendMany(n - 1, q, budget, lim, s, []).queue != []
  }

  lemma OneFurther(n: nat, q: seq<TxElement>, budget: nat, lim: Limits, s: Stream)
    requires q != []
    requires var p := Pack(q, budget, lim, s, []);
             p.status.Full? && p.stream == s && p.feed == [] && Takes(n, p.queue, budget, NextLimits(lim, p), s)
    ensures Takes(n + 1, q, budget, lim, s)
  {
    SendManyFirst(n, q, budget, lim, s, []);
    SendManyFirst(n - 1, q, budget, lim, s, []);
  }

  lemma JustOne(q: seq<TxElement>, budget: nat, lim: Limits, s: Stream)
    requires q != [] && Pack(q, budget, lim, s, []).queue == []
    ensures Takes(1, q, budget, lim, s)
  {
    assert SendMany(0, q, budget, lim, s, []) == Sent([], q, s, [], Full, lim);
  }

  /** A body of n octets takes max(1, ceil(n / (budget - 3))) packets, no fewer and no more. */
  lemma {:induction false} BodyPackets(q: seq<TxElement>, budget: nat, lim: Limits, s: Stream)
    requires budget > 3 && BodyOnly(q)
    ensures Takes(PacketsFor(|RestOf(q)|, budget - 3), q, budget, lim, s)
    decreases |RestOf(q)|
  {
    hide Pack, Takes, RestOf;
    BodyPack(q, budget, lim, s);
    if |RestOf(q)| > budget - 3 {
      var p := Pack(q, budget, lim, s, []);
      BodyPackets(p.queue, budget, NextLimits(lim, p), s);
      OneFurther(PacketsFor(|RestOf(p.queue)|, budget - 3), q, budget, lim, s);
    } else {
      JustOne(q, budget, lim, s);
    }
  }
}
