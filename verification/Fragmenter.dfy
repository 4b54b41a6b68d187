/**
 Packing a queue of headers into one packet. A body is cut to whatever room is left, a
 stream asks the application for data until the room is used up, and every other header
 goes in whole or waits for the next packet.
 */
module Fragmenter {
  import opened Octets
  import opened Headers

  /** An element of the transmit queue. Until a body is first touched its buffer still
      starts with the three-octet prefix of a byte-stream header. */
  datatype TxElement =
    | TxHeader(header: Header)
    | TxBody(buf: seq<byte>, touched: bool)
    | TxEmpty
    | TxStream

  /** The application's answer when it is asked for stream data. */
  datatype StreamCall = Nothing | Data(octets: seq<byte>) | DataEnd(octets: seq<byte>)

  /** Stream data accepted but not yet sent, and whether the end was signalled. */
  datatype Stream = Stream(data: seq<byte>, stop: bool)

  function Given(c: StreamCall): seq<byte> {
    if c.Nothing? then [] else c.octets
  }

  function BodyRest(buf: seq<byte>, touched: bool): seq<byte> {
    if touched then buf else buf[Min(3, |buf|)..]
  }

  // ---- Filling a fragment from the stream ----

  /** Stream data copied into one fragment. */
  datatype StreamFill =
    StreamFill(octets: seq<byte>, stream: Stream, feed: seq<StreamCall>, asks: nat, failed: bool)

  function Asked(s: Stream, feed: seq<StreamCall>): Stream {
    if feed == [] then Stream([], s.stop)
    else Stream(Given(feed[0]), s.stop || feed[0].DataEnd?)
  }

  function Tail<T>(s: seq<T>): seq<T> {
    if s == [] then [] else s[1..]
  }

  predicate Supplied(feed: seq<StreamCall>) {
    feed != [] && !feed[0].Nothing?
  }

  /**
   The application is asked whenever no data is at hand. An answer that signals the end
   stops the copying at once, even when it carries data.
   */
  function FillStream(room: nat, s: Stream, feed: seq<StreamCall>): (r: StreamFill)
    ensures |r.octets| <= room && |r.feed| <= |feed|
    ensures !r.failed && |r.octets| < room ==> r.stream.stop
    ensures !r.failed && |r.octets| < room && r.stream.data != [] ==> |r.feed| < |feed|
    decreases |feed|, |s.data|
  {
    var asks := if s.data == [] then 1 else 0;
    var s1 := if s.data == [] then Asked(s, feed) else s;
    var f1 := if s.data == [] then Tail(feed) else feed;
    if asks == 1 && s1.stop then StreamFill([], s1, f1, 1, false)
    else if asks == 1 && !Supplied(feed) then StreamFill([], s1, f1, 1, true)
    else if room <= |s1.data| then
      StreamFill(s1.data[..room], Stream(s1.data[room..], s1.stop), f1, asks, false)
    else
      var r := FillStream(room - |s1.data|, Stream([], s1.stop), f1);
      r.(octets := s1.data + r.octets, asks := asks + r.asks)
  }

  // ---- Packing ----

  datatype Status =
    | More    // the loop goes on
    | Full    // the packet is complete
    | Failed  // a header can never be sent, or the stream broke off
    | Fault   // no room for a fragment's own prefix, or the buffer has moved away from under it

  datatype Packing = Packing(frags: seq<Header>, queue: seq<TxElement>, left: nat,
                             stream: Stream, feed: seq<StreamCall>, asks: nat, status: Status)

  /** What bounds a packet besides its budget: headers larger than any packet are not waited
      for, and the transmit buffer has room for so many octets before it has to move. */
  datatype Limits = Limits(mtu: nat, room: nat)

  function Less(lim: Limits, n: nat): Limits {
    lim.(room := Monus(lim.room, n))
  }

  /** The limits for the rest of a packet, once this much is in it. */
  function After(lim: Limits, a: Packing): Limits {
    Less(lim, |EncodeAll(a.frags)|)
  }

  /** The loop stops once the budget is used up exactly. */
  function Onward(left: nat): Status {
    if left == 0 then Full else More
  }

  /** What one turn of the packing loop does with the element at the front. */
  function PackStep(q: seq<TxElement>, left: nat, lim: Limits, s: Stream, feed: seq<StreamCall>): (r: Packing)
    requires q != []
    ensures r.status.More? ==> |r.queue| < |q| || (r.queue == q && |r.feed| < |feed|)
  {
    match q[0]
    case TxStream =>
      if left < 3 then Packing([], q, left, s, feed, 0, Fault)
      else
        var f := FillStream(left - 3, s, feed);
        if f.failed then Packing([], q, left, f.stream, f.feed, f.asks, Failed)
        // the prefix is written last, where it was reserved before the data made the buffer move
        else if f.octets != [] && 3 + |f.octets| > lim.room then
          Packing([], q, left, f.stream, f.feed, f.asks, Fault)
        else
          var done := f.stream.stop && f.stream.data == [];
          var left' := left - 3 - |f.octets|;
          Packing([Header(if done then END_OF_BODY else BODY, f.octets)],
                  if done then q[1..] else q, left', f.stream, f.feed, f.asks, Onward(left'))
    case TxBody(buf, touched) =>
      var rest := BodyRest(buf, touched);
      if left < 3 then Packing([], q, left, s, feed, 0, Fault)
      else if left < |rest| + 3 then
        Packing([Header(BODY, rest[..left - 3])], [TxBody(rest[left - 3..], true)] + q[1..], 0, s, feed, 0, Full)
      else
        // the three octets of the prefix are not charged for the last fragment
        Packing([Header(END_OF_BODY, rest)], q[1..], left - |rest|, s, feed, 0, More)
    case TxEmpty => Packing([], q[1..], left, s, feed, 0, Onward(left))
    case TxHeader(h) =>
      if EncodedSize(h) <= left then
        Packing([h], q[1..], left - EncodedSize(h), s, feed, 0, Onward(left - EncodedSize(h)))
      else Packing([], q, left, s, feed, 0, if EncodedSize(h) > lim.mtu then Failed else Full)
  }

  function Join(a: Packing, b: Packing): Packing {
    b.(frags := a.frags + b.frags, asks := a.asks + b.asks)
  }

  /** The whole packing loop for one packet with a budget of `left` octets. */
  function Pack(q: seq<TxElement>, left: nat, lim: Limits, s: Stream, feed: seq<StreamCall>): Packing
    decreases |q|, |feed|
  {
    if q == [] then Packing([], [], left, s, feed, 0, Full)
    else
      var a := PackStep(q, left, lim, s, feed);
      if a.status.More? then Join(a, Pack(a.queue, a.left, After(lim, a), a.stream, a.feed)) else a
  }

  lemma {:induction false} PackStops(q: seq<TxElement>, left: nat, lim: Limits, s: Stream, feed: seq<StreamCall>)
    ensures !Pack(q, left, lim, s, feed).status.More?
    decreases |q|, |feed|
  {
    if q == [] {
    } else {
      var a := PackStep(q, left, lim, s, feed);
      if a.status.More? { PackStops(a.queue, a.left, After(lim, a), a.stream, a.feed); }
    }
  }

  // ---- Size of a packet ----

  lemma {:induction false} EncodeOne(h: Header)
    ensures EncodeAll([h]) == Encode(h)
  {
    assert [h][1..] == [];
  }

  /** Bodies finished in this packet after which something more was packed. */
  ghost function Overdrawn(q: seq<TxElement>, left: nat, lim: Limits, s: Stream, feed: seq<StreamCall>): nat
    decreases |q|, |feed|
  {
    if q == [] then 0
    else
      var a := PackStep(q, left, lim, s, feed);
      if !a.status.More? then 0
      else
        var here := if q[0].TxBody? && Pack(a.queue, a.left, After(lim, a), a.stream, a.feed).frags != [] then 1 else 0;
        here + Overdrawn(a.queue, a.left, After(lim, a), a.stream, a.feed)
  }

  /** A turn spends what it packs, but for the prefix of a body it finishes. */
  lemma StepSpends(q: seq<TxElement>, left: nat, lim: Limits, s: Stream, feed: seq<StreamCall>)
    requires q != []
    ensures var a := PackStep(q, left, lim, s, feed);
            && |EncodeAll(a.frags)| + a.left == left + (if q[0].TxBody? && a.status.More? then 3 else 0)
            && |EncodeAll(a.frags)| <= left
  {
    hide FillStream;
    var a := PackStep(q, left, lim, s, feed);
    if a.frags != [] { EncodeOne(a.frags[0]); }
  }

  /** A packet exceeds its budget by at most three octets for every such body. */
  lemma {:induction false} PackBound(q: seq<TxElement>, left: nat, lim: Limits, s: Stream, feed: seq<StreamCall>)
    ensures |EncodeAll(Pack(q, left, lim, s, feed).frags)| <= left + 3 * Overdrawn(q, left, lim, s, feed)
    decreases |q|, |feed|
  {
    hide PackStep;
    if q == [] {
    } else {
      var a := PackStep(q, left, lim, s, feed);
      StepSpends(q, left, lim, s, feed);
      if a.status.More? {
        var b := Pack(a.queue, a.left, After(lim, a), a.stream, a.feed);
        PackBound(a.queue, a.left, After(lim, a), a.stream, a.feed);
        EncodeAllAppend(a.frags, b.frags);
      }
    }
  }

  /** At most the last element of the queue is a body. */
  predicate BodyLast(q: seq<TxElement>) {
    forall i :: 0 <= i < |q| - 1 ==> !q[i].TxBody?
  }

  /** With the body at the end of the queue the budget is never exceeded. */
  lemma {:induction false} PackWithinBudget(q: seq<TxElement>, left: nat, lim: Limits, s: Stream, feed: seq<StreamCall>)
    requires BodyLast(q)
    ensures Overdrawn(q, left, lim, s, feed) == 0
    ensures |EncodeAll(Pack(q, left, lim, s, feed).frags)| <= left
    ensures BodyLast(Pack(q, left, lim, s, feed).queue)
    decreases |q|, |feed|
  {
    if q == [] {
    } else {
      var a := PackStep(q, left, lim, s, feed);
      if a.status.More? { PackWithinBudget(a.queue, a.left, After(lim, a), a.stream, a.feed); }
    }
    PackBound(q, left, lim, s, feed);
  }

  /** The bound is tight: a body that just fills the budget is followed by a header. */
  lemma BudgetExceeded(room: nat)
    ensures var body := seq(249, i => 0);
            var q := [TxBody(body, true), TxHeader(Header(0x81, [7]))];
            var p := Pack(q, 252, Limits(255, room), Stream([], false), []);
            p.status.Full? && p.queue == [] && |EncodeAll(p.frags)| == 254 == 252 + 2
  {
    var body: seq<byte> := seq(249, i => 0);
    var h := Header(0x81, [7]);
    var s := Stream([], false);
    var q := [TxBody(body, true), TxHeader(h)];
    var lim := Limits(255, room);
    var a := PackStep(q, 252, lim, s, []);
    assert a == Packing([Header(END_OF_BODY, body)], [TxHeader(h)], 3, s, [], 0, More);
    var b := PackStep(a.queue, 3, After(lim, a), s, []);
    assert b == Packing([h], [], 1, s, [], 0, More);
    assert Pack([], 1, After(After(lim, a), b), s, []).frags == [];
    assert Pack(q, 252, lim, s, []).frags == [Header(END_OF_BODY, body)] + [h];
    EncodeAllAppend([Header(END_OF_BODY, body)], [h]);
    EncodeOne(h);
    EncodeOne(Header(END_OF_BODY, body));
  }

  // ---- Well-formedness of what is packed ----

  predicate WellFormedQueue(q: seq<TxElement>) {
    forall i :: 0 <= i < |q| && q[i].TxHeader? ==> WellFormed(q[i].header)
  }

  /** Every packed header has a value of the size its encoding calls for, so every
      16-bit length field on the wire is exact. */
  lemma {:induction false} PackWellFormed(q: seq<TxElement>, left: nat, lim: Limits, s: Stream, feed: seq<StreamCall>)
    requires WellFormedQueue(q) && left < 0x1_0000
    ensures var p := Pack(q, left, lim, s, feed); AllWellFormed(p.frags) && WellFormedQueue(p.queue)
    decreases |q|, |feed|
  {
    if q == [] {
    } else {
      var a := PackStep(q, left, lim, s, feed);
      assert WellFormedQueue(a.queue);
      if a.status.More? { PackWellFormed(a.queue, a.left, After(lim, a), a.stream, a.feed); }
    }
  }

  // ---- Exact size, alignment, and the promise of a single packet ----

  ghost function Bodies(q: seq<TxElement>): nat {
    if q == [] then 0 else (if q[0].TxBody? then 1 else 0) + Bodies(q[1..])
  }

  lemma StepBodies(q: seq<TxElement>, left: nat, lim: Limits, s: Stream, feed: seq<StreamCall>)
    requires q != []
    ensures var a := PackStep(q, left, lim, s, feed);
            Bodies(q) == Bodies(a.queue) + if q[0].TxBody? && a.status.More? then 1 else 0
  {
    hide FillStream;
    var a := PackStep(q, left, lim, s, feed);
    assert a.queue != [] ==> a.queue[1..] == q[1..] || a.queue == q[1..];
  }

  /** The octets packed, to the last one: the budget spent, plus three per finished body. */
  lemma {:induction false} PackExact(q: seq<TxElement>, left: nat, lim: Limits, s: Stream, feed: seq<StreamCall>)
    ensures var p := Pack(q, left, lim, s, feed);
            |EncodeAll(p.frags)| + p.left == left + 3 * (Bodies(q) - Bodies(p.queue))
    decreases |q|, |feed|
  {
    hide PackStep;
    if q == [] {
    } else {
      var a := PackStep(q, left, lim, s, feed);
      StepSpends(q, left, lim, s, feed);
      StepBodies(q, left, lim, s, feed);
      if a.status.More? {
        var b := Pack(a.queue, a.left, After(lim, a), a.stream, a.feed);
        PackExact(a.queue, a.left, After(lim, a), a.stream, a.feed);
        EncodeAllAppend(a.frags, b.frags);
      }
    }
  }

  /** What an element takes up when it is sent whole. */
  function ElementSize(e: TxElement): nat {
    match e
    case TxHeader(h) => EncodedSize(h)
    case TxBody(buf, touched) => |BodyRest(buf, touched)| + 3
    case _ => 0
  }

  function QueueSize(q: seq<TxElement>): nat {
    if q == [] then 0 else ElementSize(q[0]) + QueueSize(q[1..])
  }

  lemma {:induction false} QueueSizeAppend(a: seq<TxElement>, b: seq<TxElement>)
    ensures QueueSize(a + b) == QueueSize(a) + QueueSize(b)
  {
    if a == [] {
      assert a + b == b;
    } else {
      assert (a + b)[1..] == a[1..] + b;
      QueueSizeAppend(a[1..], b);
    }
  }

  predicate SizedOnly(q: seq<TxElement>) {
    forall i :: 0 <= i < |q| ==> q[i].TxHeader? || q[i].TxBody?
  }

  /** A queue whose elements add up to no more than the budget leaves in one packet. */
  lemma {:induction false} PackAll(q: seq<TxElement>, left: nat, lim: Limits, s: Stream, feed: seq<StreamCall>)
    requires SizedOnly(q) && QueueSize(q) <= left
    ensures Pack(q, left, lim, s, feed).queue == [] && Pack(q, left, lim, s, feed).status.Full?
    decreases |q|
  {
    if q == [] {
    } else {
      var a := PackStep(q, left, lim, s, feed);
      assert a.queue == q[1..];
      assert |q| > 1 ==> QueueSize(q[1..]) >= ElementSize(q[1]) > 0;
      assert |q| > 1 ==> a.status.More?;
      if a.status.More? {
        PackAll(a.queue, a.left, After(lim, a), a.stream, a.feed);
      }
    }
  }

  // ---- Streams that end properly ----

  /** The application supplies data until it signals the end, and is silent after that. */
  predicate WellFed(s: Stream, feed: seq<StreamCall>) {
    if s.stop then feed == []
    else
      && feed != [] && feed[|feed| - 1].DataEnd?
      && forall i :: 0 <= i < |feed| - 1 ==> feed[i].Data?
  }

  /** The end is signalled by an empty call. */
  predicate TidyFeed(feed: seq<StreamCall>) {
    forall i :: 0 <= i < |feed| && feed[i].DataEnd? ==> feed[i].octets == []
  }

  function FeedContent(feed: seq<StreamCall>): seq<byte> {
    if feed == [] then [] else Given(feed[0]) + FeedContent(feed[1..])
  }

  /** Everything a stream element is still going to send. */
  function Content(s: Stream, feed: seq<StreamCall>): seq<byte> {
    s.data + FeedContent(feed)
  }

  lemma AskConserves(s: Stream, feed: seq<StreamCall>)
    requires WellFed(s, feed) && s.data == []
    ensures WellFed(Asked(s, feed), Tail(feed))
    ensures Content(Asked(s, feed), Tail(feed)) == Content(s, feed)
    ensures s.stop || Supplied(feed)
  {
  }

  lemma FedSame(s: Stream, s': Stream, feed: seq<StreamCall>)
    requires s'.stop == s.stop
    ensures WellFed(s', feed) == WellFed(s, feed)
  {
  }

  lemma {:induction false} FillWellFed(room: nat, s: Stream, feed: seq<StreamCall>)
    requires WellFed(s, feed)
    ensures var f := FillStream(room, s, feed); !f.failed && WellFed(f.stream, f.feed)
    decreases |feed|, |s.data|
  {
    hide WellFed, FeedContent, Supplied;
    if s.data == [] { AskConserves(s, feed); }
    var s1 := if s.data == [] then Asked(s, feed) else s;
    var f1 := if s.data == [] then Tail(feed) else feed;
    if room <= |s1.data| {
      FedSame(s1, Stream(s1.data[room..], s1.stop), f1);
    } else if !(s.data == [] && s1.stop) {
      FedSame(s1, Stream([], s1.stop), f1);
      FillWellFed(room - |s1.data|, Stream([], s1.stop), f1);
    }
  }

  /** A fragment takes a prefix of the content, all of its room or all there is. */
  lemma {:induction false} FillConserves(room: nat, s: Stream, feed: seq<StreamCall>)
    requires WellFed(s, feed)
    ensures var f := FillStream(room, s, feed);
            f.octets + Content(f.stream, f.feed) == Content(s, feed)
    decreases |feed|, |s.data|
  {
    hide FeedContent, WellFed, Supplied;
    if s.data == [] { AskConserves(s, feed); }
    var s1 := if s.data == [] then Asked(s, feed) else s;
    var f1 := if s.data == [] then Tail(feed) else feed;
    if s.data == [] && s1.stop {
      assert FillStream(room, s, feed).octets == [];
    } else if room <= |s1.data| {
      SplitAt(s1.data, room, FeedContent(f1));
    } else {
      var rest := Stream([], s1.stop);
      var r := FillStream(room - |s1.data|, rest, f1);
      FedSame(s1, rest, f1);
      FillConserves(room - |s1.data|, rest, f1);
      Associate(s1.data, r.octets, Content(r.stream, r.feed));
      assert Content(rest, f1) == FeedContent(f1);
    }
  }

  /** The application is asked once for every answer used up, and at most once without one left. */
  lemma {:induction false} FillAsks(room: nat, s: Stream, feed: seq<StreamCall>)
    ensures var f := FillStream(room, s, feed); f.feed == feed[Min(f.asks, |feed|)..] && f.asks <= |feed| + 1
    decreases |feed|, |s.data|
  {
    var asks := if s.data == [] then 1 else 0;
    var s1 := if s.data == [] then Asked(s, feed) else s;
    var f1 := if s.data == [] then Tail(feed) else feed;
    if asks == 1 && (s1.stop || !Supplied(feed)) {
    } else if room <= |s1.data| {
    } else {
      FillAsks(room - |s1.data|, Stream([], s1.stop), f1);
    }
  }

  lemma StepAsks(q: seq<TxElement>, left: nat, lim: Limits, s: Stream, feed: seq<StreamCall>)
    requires q != []
    ensures var a := PackStep(q, left, lim, s, feed); a.feed == feed[Min(a.asks, |feed|)..]
  {
    hide FillStream, Encode, EncodedSize, BodyRest;
    if left >= 3 { FillAsks(left - 3, s, feed); }
  }

  lemma DropTwice(feed: seq<StreamCall>, a: nat, b: nat)
    ensures var rest := feed[Min(a, |feed|)..]; rest[Min(b, |rest|)..] == feed[Min(a + b, |feed|)..]
  {
  }

  /** So it is over a whole packet. */
  lemma {:induction false} PackAsks(q: seq<TxElement>, left: nat, lim: Limits, s: Stream, feed: seq<StreamCall>)
    ensures var k := Pack(q, left, lim, s, feed); k.feed == feed[Min(k.asks, |feed|)..]
    decreases |q|, |feed|
  {
    hide PackStep;
    if q == [] {
    } else {
      var a := PackStep(q, left, lim, s, feed);
      StepAsks(q, left, lim, s, feed);
      if a.status.More? {
        PackAsks(a.queue, a.left, After(lim, a), a.stream, a.feed);
        DropTwice(feed, a.asks, Pack(a.queue, a.left, After(lim, a), a.stream, a.feed).asks);
      }
    }
  }

  lemma AskTidy(s: Stream, feed: seq<StreamCall>)
    requires WellFed(s, feed) && TidyFeed(feed) && s.data == []
    ensures TidyFeed(Tail(feed)) && (Asked(s, feed).stop ==> Asked(s, feed).data == [])
  {
  }

  /** When the end comes as an empty call, a fragment that is not full is the last. */
  lemma {:induction false} FillTidy(room: nat, s: Stream, feed: seq<StreamCall>)
    requires WellFed(s, feed) && TidyFeed(feed) && (s.stop ==> s.data == [])
    ensures var f := FillStream(room, s, feed);
            && TidyFeed(f.feed) && (f.stream.stop ==> f.stream.data == [])
    decreases |feed|, |s.data|
  {
    hide WellFed, TidyFeed, Supplied, FeedContent;
    if s.data == [] {
      AskConserves(s, feed);
      AskTidy(s, feed);
    }
    var s1 := if s.data == [] then Asked(s, feed) else s;
    var f1 := if s.data == [] then Tail(feed) else feed;
    if !(s.data == [] && s1.stop) && |s1.data| < room {
      FedSame(s1, Stream([], s1.stop), f1);
      FillTidy(room - |s1.data|, Stream([], s1.stop), f1);
    }
  }

  // ---- Where the prefix of a fragment does not fit ----

  predicate Preamble(hs: seq<TxElement>) {
    forall i :: 0 <= i < |hs| ==> hs[i].TxHeader? || hs[i].TxEmpty?
  }

  /** The last element of a queue can always be packed once its prefix fits. */
  predicate LastFits(last: TxElement, s: Stream, feed: seq<StreamCall>) {
    last.TxBody? || (last.TxStream? && WellFed(s, feed) && TidyFeed(feed) && (s.stop ==> s.data == []))
  }

  /** The octets a stream supplies when it is met behind so many others in a packet. */
  function Supply(used: nat, left: nat, s: Stream, feed: seq<StreamCall>): nat {
    if left < used + 3 then 0 else |FillStream(left - used - 3, s, feed).octets|
  }

  /** A body or stream behind other headers goes wrong exactly when those leave one or two
      octets of the budget, or when the octets of a stream make the buffer move. */
  lemma {:induction false} PackFaults(hs: seq<TxElement>, last: TxElement, left: nat, lim: Limits,
                                      s: Stream, feed: seq<StreamCall>)
    requires Preamble(hs) && LastFits(last, s, feed) && left > 0
    ensures var n := Supply(QueueSize(hs), left, s, feed);
            Pack(hs + [last], left, lim, s, feed).status.Fault? <==>
            || QueueSize(hs) < left < QueueSize(hs) + 3
            || (last.TxStream? && n > 0 && QueueSize(hs) + 3 + n > lim.room)
  {
    hide FillStream, WellFed, TidyFeed, PackStep;
    var q := hs + [last];
    var a := PackStep(q, left, lim, s, feed);
    if hs == [] {
      assert q == [last];
      LastFaults(last, left, lim, s, feed);
    } else {
      assert q[0] == hs[0] && q[1..] == hs[1..] + [last];
      PreambleStep(q, left, lim, s, feed);
      if a.status.More? {
        PackFaults(hs[1..], last, a.left, After(lim, a), s, feed);
      }
    }
  }

  lemma LastFaults(last: TxElement, left: nat, lim: Limits, s: Stream, feed: seq<StreamCall>)
    requires LastFits(last, s, feed) && left > 0
    ensures var n := Supply(0, left, s, feed);
            Pack([last], left, lim, s, feed).status.Fault? <==>
            left < 3 || (last.TxStream? && n > 0 && 3 + n > lim.room)
  {
    hide PackStep, Supply, LastFits, Less, EncodeAll;
    LastStep(last, left, lim, s, feed);
  }

  lemma LastStep(last: TxElement, left: nat, lim: Limits, s: Stream, feed: seq<StreamCall>)
    requires LastFits(last, s, feed) && left > 0
    ensures var a := PackStep([last], left, lim, s, feed);
            var n := Supply(0, left, s, feed);
            && (a.status.Fault? <==> left < 3 || (last.TxStream? && n > 0 && 3 + n > lim.room))
            && (a.status.More? ==> a.queue == [])
  {
    hide FillStream, WellFed, TidyFeed, BodyRest;
    if last.TxStream? && left >= 3 {
      FillWellFed(left - 3, s, feed);
      FillTidy(left - 3, s, feed);
    }
  }

  lemma PreambleStep(q: seq<TxElement>, left: nat, lim: Limits, s: Stream, feed: seq<StreamCall>)
    requires q != [] && (q[0].TxHeader? || q[0].TxEmpty?)
    ensures var a := PackStep(q, left, lim, s, feed);
            var n := ElementSize(q[0]);
            && !a.status.Fault? && a.stream == s && a.feed == feed && (a.status.More? <==> n < left)
            && (n < left ==> a.queue == q[1..] && a.left == left - n && After(lim, a) == Less(lim, n))
  {
    if q[0].TxHeader? { EncodeOne(q[0].header); }
  }
}
