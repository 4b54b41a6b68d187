/**
 Packing by sizes alone. How many packets a queue takes, how large each of them is, and
 whether the transfer gets through at all, can be told from the sizes of its elements.
 */
module Sizes {
  import opened Octets
  import opened Headers
  import opened Fragmenter

  /** The size of an element: a whole header, a body, a marker, or what a stream will supply. */
  datatype Piece = Fixed(size: nat) | Solid(size: nat) | Mark | Flow(size: nat)

  function PieceOf(e: TxElement, content: nat): Piece {
    match e
    case TxHeader(h) => Fixed(EncodedSize(h))
    case TxBody(buf, touched) => Solid(|BodyRest(buf, touched)|)
    case TxEmpty => Mark
    case TxStream => Flow(content)
  }

  /** The sizes of a queue whose first stream has `content` octets to supply; the others
      have none, because the application has signalled the end by then. */
  function Pieces(q: seq<TxElement>, content: nat): seq<Piece> {
    if q == [] then []
    else [PieceOf(q[0], content)] + Pieces(q[1..], if q[0].TxStream? then 0 else content)
  }

  // ---- One packet ----

  /** A packet filled: what is left of the sizes and of the budget, and the bodies ended in it. */
  datatype Load = Load(rest: seq<Piece>, left: nat, ended: nat, status: Status)

  /** Fills one packet greedily. An ended body is charged its octets but not its prefix. The
      octets of a stream must find room in the buffer. */
  function Filled(ps: seq<Piece>, left: nat, lim: Limits): Load {
    if ps == [] then Load([], left, 0, Full)
    else
      match ps[0]
      case Fixed(n) =>
        if n > left then Load(ps, left, 0, if n > lim.mtu then Failed else Full)
        else if n == left then Load(ps[1..], 0, 0, Full)
        else Filled(ps[1..], left - n, Less(lim, n))
      case Solid(n) =>
        if left < 3 then Load(ps, left, 0, Fault)
        else if left < n + 3 then Load([Solid(n - (left - 3))] + ps[1..], 0, 0, Full)
        else
          var more := Filled(ps[1..], left - n, Less(lim, n + 3));
          more.(ended := more.ended + 1)
      case Mark => if left == 0 then Load(ps[1..], 0, 0, Full) else Filled(ps[1..], left, lim)
      case Flow(n) =>
        if left < 3 then Load(ps, left, 0, Fault)
        else
          var taken := Min(left - 3, n);
          if taken > 0 && 3 + taken > lim.room then Load([Flow(n - taken)] + ps[1..], left, 0, Fault)
          else if n > 0 && n >= left - 3 then Load([Flow(n - (left - 3))] + ps[1..], 0, 0, Full)
          else if n == left - 3 then Load(ps[1..], 0, 0, Full)
          else Filled(ps[1..], left - 3 - n, Less(lim, n + 3))
  }

  /** The octets of a filled packet. */
  function Size(budget: nat, f: Load): int {
    budget + 3 * f.ended - f.left
  }

  // ---- Streams by size ----

  /** The application supplies octets with every call but the last, which is empty. */
  predicate Proper(s: Stream, feed: seq<StreamCall>) {
    && WellFed(s, feed) && TidyFeed(feed) && (s.stop ==> s.data == [])
    && forall i :: 0 <= i < |feed| && feed[i].Data? ==> feed[i].octets != []
  }

  predicate HasStream(q: seq<TxElement>) {
    exists i :: 0 <= i < |q| && q[i].TxStream?
  }

  lemma ProperAsk(s: Stream, feed: seq<StreamCall>)
    requires Proper(s, feed) && s.data == []
    ensures Proper(Asked(s, feed), Tail(feed)) && Content(Asked(s, feed), Tail(feed)) == Content(s, feed)
    ensures !Asked(s, feed).stop ==> Supplied(feed) && Asked(s, feed).data != []
    ensures Asked(s, feed).stop ==> Content(s, feed) == []
  {
    AskConserves(s, feed);
    if Asked(s, feed).stop { assert Tail(feed) == []; }
  }

  /** A fragment takes as much as there is room for, and is the last exactly when there was
      less than that, or nothing. */
  lemma {:induction false} ProperFill(room: nat, s: Stream, feed: seq<StreamCall>)
    requires Proper(s, feed)
    ensures var f := FillStream(room, s, feed);
            var n := |Content(s, feed)|;
            && !f.failed && Proper(f.stream, f.feed)
            && |f.octets| == Min(room, n) && |Content(f.stream, f.feed)| == n - |f.octets|
            && (f.stream.stop && f.stream.data == [] <==> n < room || n == 0)
    decreases |feed|, |s.data|
  {
    hide TidyFeed, FeedContent;
    if s.data == [] { ProperAsk(s, feed); }
    var s1 := if s.data == [] then Asked(s, feed) else s;
    var f1 := if s.data == [] then Tail(feed) else feed;
    if s.data == [] && s1.stop {
    } else if room <= |s1.data| {
      assert Proper(Stream(s1.data[room..], s1.stop), f1);
    } else {
      var rest := Stream([], s1.stop);
      assert Proper(rest, f1) && Content(rest, f1) == Content(s1, f1)[|s1.data|..];
      ProperFill(room - |s1.data|, rest, f1);
    }
  }

  // ---- One packet, filled as it is packed ----

  lemma {:induction false} PiecesTail(q: seq<TxElement>, a: nat, b: nat)
    requires !HasStream(q)
    ensures Pieces(q, a) == Pieces(q, b)
  {
    if q == [] {
    } else {
      assert !q[0].TxStream?;
      assert !HasStream(q[1..]) by {
        forall i | 0 <= i < |q[1..]| ensures !q[1..][i].TxStream? { assert q[1..][i] == q[i + 1]; }
      }
      PiecesTail(q[1..], a, b);
    }
  }

  /** Packing fills the packet just as its sizes say. */
  ghost predicate PackedAs(q: seq<TxElement>, p: Packing, f: Load) {
    && f.status == p.status && f.left == p.left && f.ended == Bodies(q) - Bodies(p.queue)
    && f.rest == Pieces(p.queue, |Content(p.stream, p.feed)|)
    && (HasStream(p.queue) ==> Proper(p.stream, p.feed))
  }

  lemma TailHasStream(q: seq<TxElement>)
    requires q != [] && !HasStream(q)
    ensures !HasStream(q[1..]) && !q[0].TxStream?
  {
    forall i | 0 <= i < |q[1..]| ensures !q[1..][i].TxStream? { assert q[1..][i] == q[i + 1]; }
  }

  lemma StreamInTail(q: seq<TxElement>)
    requires q != [] && HasStream(q[1..])
    ensures HasStream(q)
  {
    if !HasStream(q) { TailHasStream(q); }
  }

  /** A turn with a header, marker or body at the front. */
  lemma StepFilled(q: seq<TxElement>, left: nat, lim: Limits, s: Stream, feed: seq<StreamCall>)
    requires q != [] && !q[0].TxStream? && (HasStream(q) ==> Proper(s, feed))
    ensures var a := PackStep(q, left, lim, s, feed);
            var c := |Content(s, feed)|;
            && (HasStream(a.queue) ==> Proper(s, feed)) && a.stream == s && a.feed == feed
            && var f := Filled(Pieces(q, c), left, lim);
            if !a.status.More? then PackedAs(q, a, f)
            else
              var more := Filled(Pieces(a.queue, c), a.left, After(lim, a));
              a.queue == q[1..] && f == more.(ended := more.ended + if q[0].TxBody? then 1 else 0)
  {
    hide Proper, FillStream, Content;
    var a := PackStep(q, left, lim, s, feed);
    var c := |Content(s, feed)|;
    assert Pieces(q, c)[1..] == Pieces(q[1..], c);
    if HasStream(q[1..]) { StreamInTail(q); }
    if a.frags != [] { EncodeOne(a.frags[0]); }
    if q[0].TxBody? && a.status.Full? {
      assert a.queue[1..] == q[1..];
      if !HasStream(q) {
        TailHasStream(q);
        forall i | 0 <= i < |a.queue| ensures !a.queue[i].TxStream? {
          if i > 0 { assert a.queue[i] == a.queue[1..][i - 1]; }
        }
      }
    }
  }

  /** A turn with a stream at the front. */
  lemma FlowFilled(q: seq<TxElement>, left: nat, lim: Limits, s: Stream, feed: seq<StreamCall>)
    requires q != [] && q[0].TxStream? && Proper(s, feed)
    ensures var a := PackStep(q, left, lim, s, feed);
            var c := |Content(s, feed)|;
            && Proper(a.stream, a.feed)
            && var f := Filled(Pieces(q, c), left, lim);
            if !a.status.More? then PackedAs(q, a, f)
            else a.queue == q[1..] && f == Filled(Pieces(a.queue, |Content(a.stream, a.feed)|), a.left, After(lim, a))
  {
    hide Proper, FillStream, Content;
    var c := |Content(s, feed)|;
    assert Pieces(q, c)[1..] == Pieces(q[1..], 0);
    var a := PackStep(q, left, lim, s, feed);
    if left >= 3 { ProperFill(left - 3, s, feed); }
    if a.frags != [] { EncodeOne(a.frags[0]); }
  }

  lemma {:induction false} PackFilled(q: seq<TxElement>, left: nat, lim: Limits, s: Stream, feed: seq<StreamCall>)
    requires HasStream(q) ==> Proper(s, feed)
    ensures PackedAs(q, Pack(q, left, lim, s, feed), Filled(Pieces(q, |Content(s, feed)|), left, lim))
    decreases |q|, |feed|
  {
    hide Proper, PackStep, Content, Filled;
    if q == [] {
      FilledNothing(left, lim);
    } else {
      var a := PackStep(q, left, lim, s, feed);
      if q[0].TxStream? {
        FlowFilled(q, left, lim, s, feed);
      } else {
        StepFilled(q, left, lim, s, feed);
      }
      if a.status.More? {
        PackFilled(a.queue, a.left, After(lim, a), a.stream, a.feed);
      }
    }
  }

  lemma FilledNothing(left: nat, lim: Limits)
    ensures Filled([], left, lim) == Load([], left, 0, Full)
  {
  }

  // ---- Exactly when a packet exceeds its budget ----

  /** The octets packed, by sizes alone. */
  lemma PackSize(q: seq<TxElement>, left: nat, lim: Limits, s: Stream, feed: seq<StreamCall>)
    requires HasStream(q) ==> Proper(s, feed)
    ensures var f := Filled(Pieces(q, |Content(s, feed)|), left, lim);
            |EncodeAll(Pack(q, left, lim, s, feed).frags)| == Size(left, f)
  {
    hide Pack, Filled, Bodies;
    PackFilled(q, left, lim, s, feed);
    PackExact(q, left, lim, s, feed);
  }

  /** A packet exceeds its budget exactly when the bodies ended in it, at three octets each,
      outweigh what the sizes leave of the budget. */
  lemma BudgetExceededExactly(q: seq<TxElement>, left: nat, lim: Limits, s: Stream, feed: seq<StreamCall>)
    requires HasStream(q) ==> Proper(s, feed)
    ensures var f := Filled(Pieces(q, |Content(s, feed)|), left, lim);
            |EncodeAll(Pack(q, left, lim, s, feed).frags)| > left <==> 3 * f.ended > f.left
  {
    hide Pack, Filled;
    PackSize(q, left, lim, s, feed);
  }
}
