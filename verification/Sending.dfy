/** The packing of one packet, turn by turn, as changes to the state of a handle. */
module Sending {
  import opened Octets
  import opened Headers
  import opened Fragmenter
  import opened Reassembler
  import opened Session

  /** The handle with its stream moved on, the application having been asked n times. */
  function WithStream(p: Party, s: Stream, feed: seq<StreamCall>, n: nat): Party
    requires p.current.Some?
  {
    p.(current := Some(p.current.value.(stream := s)), feed := feed,
       events := p.events + Repeat(EventOf(p, EvStreamEmpty, 0, 0), n))
  }

  /** The handle after some turns of the packing loop. */
  function WithPacking(p: Party, a: Packing): Party
    requires p.current.Some?
  {
    WithStream(p.(current := Some(p.current.value.(txQueue := a.queue))), a.stream, a.feed, a.asks)
  }

  lemma {:induction false} RepeatAdd(e: Event, m: nat, n: nat)
    ensures Repeat(e, m) + Repeat(e, n) == Repeat(e, m + n)
  {
    if n == 0 {
    } else {
      RepeatAdd(e, m, n - 1);
      Associate(Repeat(e, m), Repeat(e, n - 1), [e]);
    }
  }

  /** Turns add up. */
  lemma WithPackingTwice(p: Party, a: Packing, b: Packing)
    requires p.current.Some?
    ensures WithPacking(WithPacking(p, a), b) == WithPacking(p, Join(a, b))
  {
    var e := EventOf(p, EvStreamEmpty, 0, 0);
    RepeatAdd(e, a.asks, b.asks);
    Associate(p.events, Repeat(e, a.asks), Repeat(e, b.asks));
  }

  lemma JoinTwice(a: Packing, b: Packing, c: Packing)
    ensures Join(Join(a, b), c) == Join(a, Join(b, c))
  {
    Associate(a.frags, b.frags, c.frags);
  }

  // ---- Copying from the stream, turn by turn ----

  /** One turn of the copying loop: ask if there is nothing at hand, then take what fits. */
  function FillTurn(room: nat, s: Stream, feed: seq<StreamCall>): StreamFill {
    var asks := if s.data == [] then 1 else 0;
    var s1 := if s.data == [] then Asked(s, feed) else s;
    var f1 := if s.data == [] then Tail(feed) else feed;
    if asks == 1 && (s1.stop || !Supplied(feed)) then StreamFill([], s1, f1, asks, !s1.stop)
    else
      var take := Min(room, |s1.data|);
      StreamFill(s1.data[..take], Stream(s1.data[take..], s1.stop), f1, asks, false)
  }

  /** Whether another turn follows. */
  predicate FillGoesOn(room: nat, s: Stream, feed: seq<StreamCall>) {
    !(s.data == [] && (Asked(s, feed).stop || !Supplied(feed))) && |FillTurn(room, s, feed).octets| < room
  }

  function JoinFill(a: StreamFill, b: StreamFill): StreamFill {
    b.(octets := a.octets + b.octets, asks := a.asks + b.asks)
  }

  lemma FillUnfold(room: nat, s: Stream, feed: seq<StreamCall>)
    ensures var a := FillTurn(room, s, feed);
            && |a.octets| <= room
            && FillStream(room, s, feed) ==
               if FillGoesOn(room, s, feed) then JoinFill(a, FillStream(room - |a.octets|, a.stream, a.feed)) else a
  {
    hide Asked, Supplied, Tail;
    var a := FillTurn(room, s, feed);
    if FillGoesOn(room, s, feed) {
      assert a.stream.data == [];
    }
  }

  lemma FillProgress(room: nat, s: Stream, feed: seq<StreamCall>)
    ensures var a := FillTurn(room, s, feed);
            && (|a.feed| < |feed| || (a.feed == feed && |a.stream.data| <= |s.data|))
            && (FillGoesOn(room, s, feed) ==> |a.feed| < |feed| || |a.stream.data| < |s.data|)
  {
  }

  lemma JoinFillTwice(a: StreamFill, b: StreamFill, c: StreamFill)
    ensures JoinFill(JoinFill(a, b), c) == JoinFill(a, JoinFill(b, c))
  {
    Associate(a.octets, b.octets, c.octets);
  }

  /** The handle after some turns of the copying loop. */
  function WithFill(p: Party, f: StreamFill): Party
    requires p.current.Some?
  {
    WithStream(p, f.stream, f.feed, f.asks)
  }

  lemma WithFillTwice(p: Party, a: StreamFill, b: StreamFill)
    requires p.current.Some?
    ensures WithFill(WithFill(p, a), b) == WithFill(p, JoinFill(a, b))
  {
    var e := EventOf(p, EvStreamEmpty, 0, 0);
    RepeatAdd(e, a.asks, b.asks);
    Associate(p.events, Repeat(e, a.asks), Repeat(e, b.asks));
  }

  /** The handle after it has asked the application for data. */
  function AskedFor(p: Party): Party
    requires p.current.Some?
  {
    WithStream(p, Asked(p.current.value.stream, p.feed), Tail(p.feed), 1)
  }

  /** A turn that had to ask. */
  lemma TurnAsks(p: Party, room: nat)
    requires p.current.Some? && p.current.value.stream.data == []
    ensures var f := FillTurn(room, p.current.value.stream, p.feed);
            var goes := FillGoesOn(room, p.current.value.stream, p.feed);
            var p1 := AskedFor(p);
            p1.current.Some? &&
            var s1 := p1.current.value.stream;
            var take := if room < |s1.data| then room else |s1.data|;
            if s1.stop || !Supplied(p.feed) then
              WithFill(p, f) == p1 && f.octets == [] && f.failed == !s1.stop && !goes
            else
              && WithFill(p, f) == p1.(current := Some(p1.current.value.(stream := Stream(s1.data[take..], s1.stop))))
              && f.octets == s1.data[..take] && !f.failed && goes == (take < room)
  {
  }

  /** A turn that had data at hand. */
  lemma TurnCopies(p: Party, room: nat)
    requires p.current.Some? && p.current.value.stream.data != []
    ensures var s := p.current.value.stream;
            var f := FillTurn(room, s, p.feed);
            var take := if room < |s.data| then room else |s.data|;
            && WithFill(p, f) == p.(current := Some(p.current.value.(stream := Stream(s.data[take..], s.stop))))
            && f.octets == s.data[..take] && !f.failed && FillGoesOn(room, s, p.feed) == (take < room)
  {
    assert Repeat(EventOf(p, EvStreamEmpty, 0, 0), 0) == [];
  }

  /** What has been copied so far is where the whole copying begins; it is all of it when
      no turn follows. */
  ghost predicate Copying(whole: StreamFill, room: nat, done: StreamFill, going: bool) {
    && |done.octets| <= room
    && whole == if going then JoinFill(done, FillStream(room - |done.octets|, done.stream, done.feed)) else done
  }

  lemma CopyingStarts(room: nat, s: Stream, feed: seq<StreamCall>)
    ensures Copying(FillStream(room, s, feed), room, FillTurn(room, s, feed), FillGoesOn(room, s, feed))
  {
    FillUnfold(room, s, feed);
  }

  lemma CopyingStep(p: Party, whole: StreamFill, room: nat, done: StreamFill, before: seq<byte>)
    requires p.current.Some? && Copying(whole, room, done, true)
    ensures |done.octets| <= room
    ensures var left := room - |done.octets|;
            var turn := FillTurn(left, done.stream, done.feed);
            var next := JoinFill(done, turn);
            && WithFill(p, done).current.Some?
            && WithFill(p, done).current.value.stream == done.stream && WithFill(p, done).feed == done.feed
            && Copying(whole, room, next, FillGoesOn(left, done.stream, done.feed))
            && WithFill(WithFill(p, done), turn) == WithFill(p, next) && next.failed == turn.failed
            && before + next.octets == (before + done.octets) + turn.octets
            && |next.octets| == |done.octets| + |turn.octets|
  {
    hide FillTurn, FillStream, FillGoesOn, EventOf, Repeat;
    var left := room - |done.octets|;
    var turn := FillTurn(left, done.stream, done.feed);
    FillUnfold(left, done.stream, done.feed);
    WithFillTwice(p, done, turn);
    JoinFillTwice(done, turn, FillStream(left - |turn.octets|, turn.stream, turn.feed));
  }

  lemma CopyingEnds(whole: StreamFill, room: nat, done: StreamFill)
    requires Copying(whole, room, done, false)
    ensures whole == done
  {
  }

  lemma CopyingProgress(room: nat, done: StreamFill)
    requires |done.octets| <= room
    ensures var left := room - |done.octets|;
            var next := JoinFill(done, FillTurn(left, done.stream, done.feed));
            && (|next.feed| < |done.feed| || (next.feed == done.feed && |next.stream.data| <= |done.stream.data|))
            && (FillGoesOn(left, done.stream, done.feed) ==>
                  |next.feed| < |done.feed| || |next.stream.data| < |done.stream.data|)
  {
    FillProgress(room - |done.octets|, done.stream, done.feed);
  }

  /** The element at the front taken off the queue. */
  function Dequeued(p: Party): Party
    requires p.current.Some? && p.current.value.txQueue != []
  {
    p.(current := Some(p.current.value.(txQueue := p.current.value.txQueue[1..])))
  }

  /** The record of an event does not look at the queue. */
  lemma SameEvent(p: Party, queue: seq<TxElement>)
    requires p.current.Some?
    ensures var p' := p.(current := Some(p.current.value.(txQueue := queue)));
            EventOf(p', EvStreamEmpty, 0, 0) == EventOf(p, EvStreamEmpty, 0, 0)
  {
  }

  /** A turn that asks for nothing only changes the queue. */
  lemma NothingAsked(p: Party, a: Packing)
    requires p.current.Some? && a.asks == 0 && a.stream == p.current.value.stream && a.feed == p.feed
    ensures WithPacking(p, a) == p.(current := Some(p.current.value.(txQueue := a.queue)))
  {
    var p' := p.(current := Some(p.current.value.(txQueue := a.queue)));
    assert Repeat(EventOf(p', EvStreamEmpty, 0, 0), 0) == [];
  }

  lemma EncodeNone()
    ensures EncodeAll([]) == []
  {
  }

  lemma EncodeBody(hi: byte, octets: seq<byte>)
    requires IsBody(hi)
    ensures EncodeAll([Header(hi, octets)]) == [hi] + Big16((|octets| + 3) % 0x1_0000) + octets
  {
    EncodeOne(Header(hi, octets));
  }

  /** A turn that copies from the stream changes the queue besides. */
  lemma CopiedThenQueued(p: Party, a: Packing, f: StreamFill)
    requires p.current.Some? && a.asks == f.asks && a.stream == f.stream && a.feed == f.feed
    ensures var p1 := WithFill(p, f);
            && p1.current.Some? && p1.current.value.txQueue == p.current.value.txQueue
            && p1.current.value.stream == f.stream
            && WithPacking(p, a) == p1.(current := Some(p1.current.value.(txQueue := a.queue)))
            && (a.queue == p.current.value.txQueue ==> WithPacking(p, a) == p1)
  {
    hide EventOf;
    SameEvent(p, a.queue);
  }

  /** The octets copied make the buffer move, away from where the prefix was to go. */
  predicate Uproots(lim: Limits, f: StreamFill) {
    !f.failed && f.octets != [] && 3 + |f.octets| > lim.room
  }

  /** Behind `used` octets of a buffer of `size`, and the prefix behind them. */
  lemma UprootsExactly(lim: Limits, f: StreamFill, used: nat, size: nat)
    requires lim.room == Monus(size, used)
    ensures !f.failed ==> (Uproots(lim, f) <==> used + 3 + |f.octets| > Max(size, used + 3))
  {
  }

  lemma UprootsNot(lim: Limits, f: StreamFill)
    ensures f.failed ==> !Uproots(lim, f)
  {
  }

  /** A turn that sends a fragment of the stream, once the octets have been copied. */
  lemma StreamStep(p: Party, left: nat, lim: Limits)
    requires p.current.Some? && left >= 3
    requires p.current.value.txQueue != [] && p.current.value.txQueue[0].TxStream?
    ensures var f := FillStream(left - 3, p.current.value.stream, p.feed);
            var a := PackStep(p.current.value.txQueue, left, lim, p.current.value.stream, p.feed);
            var p1 := WithFill(p, f);
            var done := f.stream.stop && f.stream.data == [];
            && p1.current.Some? && p1.current.value.txQueue == p.current.value.txQueue
            && p1.current.value.stream == f.stream
            && a.status.Failed? == f.failed && a.status.Fault? == Uproots(lim, f)
            && (f.failed || Uproots(lim, f) ==> WithPacking(p, a) == p1)
            && (!f.failed && !Uproots(lim, f) ==>
                  && WithPacking(p, a) == (if done then Dequeued(p1) else p1)
                  && left - a.left == |f.octets| + 3
                  && EncodeAll(a.frags) ==
                     [if done then END_OF_BODY else BODY] + Big16((|f.octets| + 3) % 0x1_0000) + f.octets)
  {
    hide FillStream, WithFill, WithPacking, Encode, EncodeAll;
    var f := FillStream(left - 3, p.current.value.stream, p.feed);
    CopiedThenQueued(p, PackStep(p.current.value.txQueue, left, lim, p.current.value.stream, p.feed), f);
    EncodeBody(BODY, f.octets);
    EncodeBody(END_OF_BODY, f.octets);
  }

  /** A turn that sends a fragment of a body. */
  lemma BodyStep(p: Party, a: Packing, h: Header)
    requires p.current.Some? && a.asks == 0 && a.stream == p.current.value.stream && a.feed == p.feed && a.frags == [h]
    ensures WithPacking(p, a) == p.(current := Some(p.current.value.(txQueue := a.queue)))
    ensures EncodeAll(a.frags) == Encode(h)
  {
    hide EventOf, WithPacking, PackStep, EncodeAll, Encode;
    EncodeOne(h);
    NothingAsked(p, a);
  }

  /** A turn that sends any other header, or finds that it does not fit. */
  lemma PlainStep(p: Party, left: nat, lim: Limits)
    requires p.current.Some? && p.current.value.txQueue != []
    requires p.current.value.txQueue[0].TxHeader? || p.current.value.txQueue[0].TxEmpty?
    ensures var a := PackStep(p.current.value.txQueue, left, lim, p.current.value.stream, p.feed);
            && WithPacking(p, a) == (if a.queue == p.current.value.txQueue then p else Dequeued(p))
            && (a.queue != p.current.value.txQueue ==> a.queue == p.current.value.txQueue[1..])
            && EncodeAll(a.frags) == if a.frags == [] then [] else Encode(a.frags[0])
  {
    hide FillStream, EventOf, Encode, EncodeAll, WithPacking;
    var a := PackStep(p.current.value.txQueue, left, lim, p.current.value.stream, p.feed);
    NothingAsked(p, a);
    if a.frags != [] {
      EncodeOne(a.frags[0]);
    } else {
      EncodeNone();
    }
  }

  /** A turn that cannot even begin changes nothing. */
  lemma NoStep(p: Party, left: nat, lim: Limits)
    requires p.current.Some? && p.current.value.txQueue != [] && left < 3
    requires p.current.value.txQueue[0].TxStream? || p.current.value.txQueue[0].TxBody?
    ensures var a := PackStep(p.current.value.txQueue, left, lim, p.current.value.stream, p.feed);
            && WithPacking(p, a) == p && EncodeAll(a.frags) == [] && a.left == left && a.status.Fault?
  {
    hide FillStream, EventOf, EncodeAll, WithPacking;
    NothingAsked(p, PackStep(p.current.value.txQueue, left, lim, p.current.value.stream, p.feed));
    EncodeNone();
  }

  // ---- The packing loop, turn by turn ----

  /** What has been packed so far is where the whole packing begins; it is all of it when
      the loop has come to an end. */
  ghost predicate Underway(whole: Packing, lim: Limits, done: Packing) {
    whole ==
    if done.status.More? then Join(done, Pack(done.queue, done.left, After(lim, done), done.stream, done.feed))
    else done
  }

  /** Nothing packed yet. */
  function Unpacked(p: Party): Packing
    requires p.current.Some?
  {
    Packing([], p.current.value.txQueue, TxBudget(p), p.current.value.stream, p.feed, 0, More)
  }

  /** The packing of a packet that holds so many octets already. */
  function PackedBehind(p: Party, used: nat): Packing
    requires p.current.Some?
  {
    Pack(p.current.value.txQueue, TxBudget(p), LimitsBehind(p, used), p.current.value.stream, p.feed)
  }

  function LimitsBehind(p: Party, used: nat): Limits {
    Limits(p.mtuTx, Monus(p.txRoom, used))
  }

  lemma UnderwayStarts(p: Party, used: nat)
    requires p.current.Some?
    ensures Underway(PackedBehind(p, used), LimitsBehind(p, used), Unpacked(p)) && WithPacking(p, Unpacked(p)) == p
    ensures var done := Unpacked(p);
            && done.queue == p.current.value.txQueue && done.left == TxBudget(p) && done.status == More
            && EncodeAll(done.frags) == []
  {
    var w := PackedBehind(p, used);
    assert [] + w.frags == w.frags;
    assert Repeat(EventOf(p, EvStreamEmpty, 0, 0), 0) == [];
    assert After(LimitsBehind(p, used), Unpacked(p)) == LimitsBehind(p, used);
  }

  lemma UnderwayStep(p: Party, whole: Packing, lim: Limits, done: Packing, before: seq<byte>)
    requires p.current.Some? && Underway(whole, lim, done) && done.status.More? && done.queue != []
    ensures var turn := PackStep(done.queue, done.left, After(lim, done), done.stream, done.feed);
            var next := Join(done, turn);
            && Underway(whole, lim, next) && WithPacking(WithPacking(p, done), turn) == WithPacking(p, next)
            && before + EncodeAll(next.frags) == (before + EncodeAll(done.frags)) + EncodeAll(turn.frags)
            && next.queue == turn.queue && next.left == turn.left && next.stream == turn.stream
            && next.feed == turn.feed && next.status == turn.status
            && (turn.status.More? ==>
                  |next.queue| < |done.queue| || (next.queue == done.queue && |next.feed| < |done.feed|))
  {
    hide EncodeAll, FillStream;
    var turn := PackStep(done.queue, done.left, After(lim, done), done.stream, done.feed);
    var next := Join(done, turn);
    WithPackingTwice(p, done, turn);
    EncodeAllAppend(done.frags, turn.frags);
    assert After(After(lim, done), turn) == After(lim, next);
    JoinTwice(done, turn, Pack(turn.queue, turn.left, After(lim, next), turn.stream, turn.feed));
    Associate(before, EncodeAll(done.frags), EncodeAll(turn.frags));
  }

  /** What is left of the limits, with so much in the buffer. */
  lemma LimitsLeft(p: Party, before: seq<byte>, done: Packing)
    ensures LimitsBehind(p, |before + EncodeAll(done.frags)|) == After(LimitsBehind(p, |before|), done)
  {
  }

  lemma UnderwayHolds(p: Party, done: Packing)
    requires p.current.Some?
    ensures var p1 := WithPacking(p, done);
            && p1.current.Some? && p1.current.value.txQueue == done.queue && p1.current.value.stream == done.stream
            && p1.feed == done.feed && p1.mtuTx == p.mtuTx && p1.txRoom == p.txRoom
  {
  }

  lemma UnderwayEnds(p: Party, whole: Packing, lim: Limits, done: Packing)
    requires p.current.Some? && Underway(whole, lim, done) && (done.status.More? ==> done.queue == [])
    ensures WithPacking(p, whole) == WithPacking(p, done) && whole.frags == done.frags && whole.queue == done.queue
    ensures whole.status.Fault? == done.status.Fault? && whole.status.Failed? == done.status.Failed?
  {
    assert done.frags + [] == done.frags;
  }

  // ---- One packet ----

  /** The handle before anything is packed: the octets that precede the headers are taken out. */
  function Emptied(p: Party): Party
    requires p.current.Some?
  {
    p.(current := Some(p.current.value.(nonHeader := None)))
  }

  lemma EmptiedPacks(p: Party)
    requires p.current.Some?
    ensures PackedBehind(Emptied(p), |Partial(p.current.value.nonHeader)|) == Packed(p)
  {
    hide Pack;
  }

  lemma EmptiedAfter(p: Party)
    requires p.current.Some?
    ensures AfterPacking(p) == WithPacking(Emptied(p), Packed(p))
  {
    hide Pack, Repeat;
  }

  /** What sending comes to, once the headers have been packed. */
  lemma SendWhole(p: Party, allowFinal: bool, forceFinal: bool)
    requires p.current.Some?
    ensures var p0 := Emptied(p);
            var k := PackedBehind(p0, |Partial(p.current.value.nonHeader)|);
            var p1 := WithPacking(p0, k);
            p1.current.Some? &&
            var o := p1.current.value;
            var payload := Partial(p.current.value.nonHeader) + EncodeAll(k.frags);
            && PacketPayload(p) == payload && p1.linkFaults == p.linkFaults
            && SendObject(p, allowFinal, forceFinal) ==
               if k.status.Fault? then (p1.(fault := true), SendError)
               else if k.status.Failed? then (p1, SendError)
               else (Transmit(p1, Framing.Frame(PacketOpcode(o, o.txQueue, allowFinal, forceFinal), payload)),
                     if !Transmitted(p1) then SendError
                     else if o.txQueue == [] && allowFinal then SendDone else SendMore)
  {
    hide Packed, PackedBehind, EncodeAll, Repeat, EventOf, Transmit;
    EmptiedPacks(p);
    EmptiedAfter(p);
  }
}
