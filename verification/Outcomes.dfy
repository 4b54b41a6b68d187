/**
 What becomes of a transfer. A queue is delivered, or stops at an element that can never
 be sent, or wraps the room of a packet around, or goes on for ever without progress; which
 of these it is can be told from the sizes of its elements.
 */
module Outcomes {
  import opened Octets
  import opened Headers
  import opened Fragmenter
  import opened Reassembler
  import opened Transfer
  import opened Sizes

  datatype Verdict =
    | Delivered
    | Astray    // the prefix of a fragment goes where no room is left, or no longer any buffer
    | Rejected  // a header larger than any packet
    | Starved   // packet after packet without progress

  function Heft(ps: seq<Piece>): nat {
    if ps == [] then 0 else 1 + (if ps[0].Mark? then 0 else ps[0].size) + Heft(ps[1..])
  }

  lemma {:induction false} FilledLighter(ps: seq<Piece>, left: nat, lim: Limits)
    ensures var f := Filled(ps, left, lim);
            && !f.status.More? && (f.rest == ps || Heft(f.rest) < Heft(ps))
  {
    if ps == [] {
    } else if ps[0].Solid? && left >= 3 && left < ps[0].size + 3 {
      assert ([Solid(ps[0].size - (left - 3))] + ps[1..])[1..] == ps[1..];
      if left == 3 { assert [ps[0]] + ps[1..] == ps; }
    } else if ps[0].Flow? && left >= 3 && ps[0].size > 0 && ps[0].size >= left - 3 {
      assert ([Flow(ps[0].size - (left - 3))] + ps[1..])[1..] == ps[1..];
      if left == 3 { assert [ps[0]] + ps[1..] == ps; }
    } else {
      var spent := match ps[0] case Fixed(n) => n case Solid(n) => n case Mark => 0 case Flow(n) => n + 3;
      var used := match ps[0] case Fixed(n) => n case Solid(n) => n + 3 case Mark => 0 case Flow(n) => n + 3;
      if spent <= left { FilledLighter(ps[1..], left - spent, Less(lim, used)); }
    }
  }

  /** The limits of the packet after this one. */
  function Following(lim: Limits, budget: nat, f: Load): Limits {
    Grown(lim, Size(budget, f) + 3)
  }

  /** The outcome of sending everything, packet after packet with the same budget. */
  function Course(ps: seq<Piece>, budget: nat, lim: Limits): Verdict
    decreases Heft(ps)
  {
    if ps == [] then Delivered
    else
      var f := Filled(ps, budget, lim);
      if f.status.Fault? then Astray
      else if f.status.Failed? then Rejected
      else if Heft(f.rest) < Heft(ps) then Course(f.rest, budget, Following(lim, budget, f))
      else Starved
  }

  function CourseOf(q: seq<TxElement>, budget: nat, lim: Limits, s: Stream, feed: seq<StreamCall>): Verdict {
    Course(Pieces(q, |Content(s, feed)|), budget, lim)
  }

  /** Where nothing can be packed, more room in the buffer does not help. */
  lemma StuckSame(ps: seq<Piece>, left: nat, lim: Limits, lim': Limits)
    requires ps != [] && lim'.mtu == lim.mtu
    requires var f := Filled(ps, left, lim); f.status.Full? && Heft(f.rest) >= Heft(ps)
    ensures var f := Filled(ps, left, lim'); f.status.Full? && f.rest == ps
  {
    FilledLighter(ps, left, lim);
    var spent := match ps[0] case Fixed(n) => n case Solid(n) => n case Mark => 0 case Flow(n) => n + 3;
    var used := match ps[0] case Fixed(n) => n case Solid(n) => n + 3 case Mark => 0 case Flow(n) => n + 3;
    if spent <= left { FilledLighter(ps[1..], left - spent, Less(lim, used)); }
  }

  /** One packet decides, or leaves the outcome to the next. */
  lemma CoursePack(q: seq<TxElement>, budget: nat, lim: Limits, s: Stream, feed: seq<StreamCall>)
    requires q != [] && (HasStream(q) ==> Proper(s, feed))
    ensures var p := Pack(q, budget, lim, s, feed);
            var v := CourseOf(q, budget, lim, s, feed);
            && !p.status.More? && (HasStream(p.queue) ==> Proper(p.stream, p.feed))
            && (p.status.Fault? ==> v.Astray?) && (p.status.Failed? ==> v.Rejected?)
            && (p.status.Full? ==> v == CourseOf(p.queue, budget, NextLimits(lim, p), p.stream, p.feed))
  {
    hide Pack, Filled, Content;
    var ps := Pieces(q, |Content(s, feed)|);
    PackFilled(q, budget, lim, s, feed);
    PackSize(q, budget, lim, s, feed);
    FilledLighter(ps, budget, lim);
    var f := Filled(ps, budget, lim);
    if f.status.Full? && Heft(f.rest) >= Heft(ps) { StuckSame(ps, budget, lim, Following(lim, budget, f)); }
  }

  lemma {:induction false} SendNothing(n: nat, budget: nat, lim: Limits, s: Stream, feed: seq<StreamCall>)
    ensures SendMany(n, [], budget, lim, s, feed) == Sent([], [], s, feed, Full, lim)
  {
    if n == 0 {
    } else {
      SendNothing(n - 1, budget, lim, s, feed);
    }
  }

  lemma {:induction false} SendStuck(n: nat, q: seq<TxElement>, budget: nat, lim: Limits, s: Stream,
                                     feed: seq<StreamCall>)
    requires q != [] && !Pack(q, budget, lim, s, feed).status.Full?
    ensures SendMany(n + 1, q, budget, lim, s, feed).status == Pack(q, budget, lim, s, feed).status
  {
    hide Pack;
    if n == 0 {
      assert SendMany(0, q, budget, lim, s, feed) == Sent([], q, s, feed, Full, lim);
    } else {
      SendStuck(n - 1, q, budget, lim, s, feed);
    }
  }

  /** However many packets are sent, what has come of the queue agrees with its outcome. */
  lemma {:induction false} CourseHolds(n: nat, q: seq<TxElement>, budget: nat, lim: Limits, s: Stream,
      feed: seq<StreamCall>)
    requires HasStream(q) ==> Proper(s, feed)
    ensures var t := SendMany(n, q, budget, lim, s, feed);
            var v := CourseOf(q, budget, lim, s, feed);
            && (t.status.Full? && t.queue == [] ==> v.Delivered?)
            && (t.status.Fault? ==> v.Astray?) && (t.status.Failed? ==> v.Rejected?)
            && (v.Starved? ==> t.status.Full? && t.queue != []) && !t.status.More?
  {
    hide Pack, Filled, Content, EncodeAll;
    if n == 0 {
    } else if q == [] {
      SendNothing(n, budget, lim, s, feed);
    } else {
      CoursePack(q, budget, lim, s, feed);
      var p := Pack(q, budget, lim, s, feed);
      if p.status.Full? {
        SendManyFirst(n - 1, q, budget, lim, s, feed);
        CourseHolds(n - 1, p.queue, budget, NextLimits(lim, p), p.stream, p.feed);
      } else {
        SendStuck(n - 1, q, budget, lim, s, feed);
      }
    }
  }

  /** And unless it is starved the outcome comes about. */
  lemma {:induction false} CourseReached(q: seq<TxElement>, budget: nat, lim: Limits, s: Stream, feed: seq<StreamCall>)
      returns (n: nat)
    requires HasStream(q) ==> Proper(s, feed)
    ensures var t := SendMany(n, q, budget, lim, s, feed);
            match CourseOf(q, budget, lim, s, feed)
            case Delivered => t.status.Full? && t.queue == []
            case Astray => t.status.Fault?
            case Rejected => t.status.Failed?
            case Starved => true
    decreases Heft(Pieces(q, |Content(s, feed)|))
  {
    hide Pack, Filled, Content, EncodeAll;
    n := 0;
    if q == [] {
    } else if !CourseOf(q, budget, lim, s, feed).Starved? {
      CoursePack(q, budget, lim, s, feed);
      PackFilled(q, budget, lim, s, feed);
      var p := Pack(q, budget, lim, s, feed);
      if p.status.Full? {
        var m := CourseReached(p.queue, budget, NextLimits(lim, p), p.stream, p.feed);
        SendManyFirst(m, q, budget, lim, s, feed);
        n := m + 1;
      } else {
        SendStuck(0, q, budget, lim, s, feed);
        n := 1;
      }
    }
  }

  /** The four outcomes, each exactly when the sizes say so: for any queue, with any number
      of bodies and headers in any order. */
  lemma CourseExact(q: seq<TxElement>, budget: nat, lim: Limits, s: Stream, feed: seq<StreamCall>)
    requires HasStream(q) ==> Proper(s, feed)
    ensures var v := CourseOf(q, budget, lim, s, feed);
            && (v.Delivered? <==>
                  exists n: nat :: var t := SendMany(n, q, budget, lim, s, feed); t.status.Full? && t.queue == [])
            && (v.Astray? <==> exists n: nat :: SendMany(n, q, budget, lim, s, feed).status.Fault?)
            && (v.Rejected? <==> exists n: nat :: SendMany(n, q, budget, lim, s, feed).status.Failed?)
            && (v.Starved? <==>
                  forall n: nat :: var t := SendMany(n, q, budget, lim, s, feed); t.status.Full? && t.queue != [])
  {
    hide SendMany, CourseOf;
    var m := CourseReached(q, budget, lim, s, feed);
    forall n: nat
      ensures var t := SendMany(n, q, budget, lim, s, feed);
              var v := CourseOf(q, budget, lim, s, feed);
              && (t.status.Full? && t.queue == [] ==> v.Delivered?)
              && (t.status.Fault? ==> v.Astray?) && (t.status.Failed? ==> v.Rejected?)
              && (v.Starved? ==> t.status.Full? && t.queue != [])
    {
      CourseHolds(n, q, budget, lim, s, feed);
    }
  }

  /** A queue gets through, and arrives as what it stands for, exactly when its sizes say so;
      whatever length was announced. */
  lemma TransferExact(hint: nat, q: seq<TxElement>, budget: nat, lim: Limits, s: Stream, feed: seq<StreamCall>)
    requires Sendable(q, s, feed) && (HasStream(q) ==> Proper(s, feed)) && budget < 0x1_0000
    ensures CourseOf(q, budget, lim, s, feed).Delivered? <==>
            exists n: nat ::
              var t := SendMany(n, q, budget, lim, s, feed);
              var rx := ReceiveMany(NewRx().(hint := hint), t.packets);
              t.status.Full? && t.queue == [] && rx.body.None? && Received(rx) == Meaning(q, s, feed)
  {
    hide SendMany, ReceiveMany, CourseOf, Sendable, Received, Meaning;
    var n := CourseReached(q, budget, lim, s, feed);
    RoundTrip(n, hint, q, budget, lim, s, feed);
    CourseExact(q, budget, lim, s, feed);
  }

  /** Two bodies of one octet each and a stream, in a buffer of 255 octets: the prefixes of the
      bodies were not charged, and so from 245 octets on the stream outgrows the buffer. */
  lemma StreamAstray(n: nat)
    ensures var v := Course([Solid(1), Solid(1), Flow(n)], 252, Limits(255, 255));
            v == if n >= 245 then Astray else Delivered
  {
    var lim := Limits(255, 255);
    var ps := [Solid(1), Solid(1), Flow(n)];
    assert ps[1..] == [Solid(1), Flow(n)] && ps[1..][1..] == [Flow(n)] && [Flow(n)][1..] == [];
    var last := Filled([Flow(n)], 250, Limits(255, 247));
    assert last == if n >= 245 then Load([Flow(Monus(n, 247))], 250, 0, Fault) else Load([], 247 - n, 0, Full) by {
      assert Filled([], 247 - Min(n, 247), Less(Limits(255, 247), n + 3)).rest == [];
    }
    assert Filled(ps[1..], 251, Limits(255, 251)) == last.(ended := last.ended + 1);
    assert Filled(ps, 252, lim) == last.(ended := last.ended + 2);
  }

  // ---- Headers alone ----

  predicate FixedOnly(ps: seq<Piece>) {
    forall i :: 0 <= i < |ps| ==> ps[i].Fixed?
  }

  predicate AllFit(ps: seq<Piece>, budget: nat) {
    forall i :: 0 <= i < |ps| && ps[i].Fixed? ==> ps[i].size <= budget
  }

  lemma {:induction false} FixedFilled(ps: seq<Piece>, left: nat, budget: nat, lim: Limits)
    requires FixedOnly(ps) && left <= budget
    ensures var f := Filled(ps, left, lim);
            && FixedOnly(f.rest) && (AllFit(ps, budget) <==> AllFit(f.rest, budget))
            && (AllFit(ps, budget) && budget <= lim.mtu ==> f.status.Full?)
            && (ps != [] && ps[0].size <= left ==> f.rest != ps)
  {
    if ps == [] {
    } else if ps[0].size <= left {
      FixedFilled(ps[1..], left - ps[0].size, budget, Less(lim, ps[0].size));
      FilledLighter(ps[1..], left - ps[0].size, Less(lim, ps[0].size));
      assert AllFit(ps, budget) <==> AllFit(ps[1..], budget);
    }
  }

  lemma {:induction false} FixedCourse(ps: seq<Piece>, budget: nat, lim: Limits)
    requires FixedOnly(ps) && budget <= lim.mtu
    ensures Course(ps, budget, lim).Delivered? <==> AllFit(ps, budget)
    decreases Heft(ps)
  {
    if ps == [] {
    } else {
      var f := Filled(ps, budget, lim);
      FixedFilled(ps, budget, budget, lim);
      FilledLighter(ps, budget, lim);
      if Heft(f.rest) < Heft(ps) { FixedCourse(f.rest, budget, Following(lim, budget, f)); }
    }
  }

  lemma {:induction false} FixedPieces(q: seq<TxElement>, c: nat, budget: nat)
    requires forall i :: 0 <= i < |q| ==> q[i].TxHeader?
    ensures FixedOnly(Pieces(q, c)) && !HasStream(q) && (AllFit(Pieces(q, c), budget) <==> Fitting(q, budget))
  {
    if q == [] {
    } else {
      FixedPieces(q[1..], c, budget);
      var ps := Pieces(q, c);
      assert ps[1..] == Pieces(q[1..], c);
      assert forall i :: 0 < i < |ps| ==> ps[i] == ps[1..][i - 1];
      assert forall i :: 0 < i < |q| ==> q[i] == q[1..][i - 1];
      assert AllFit(ps, budget) <==> ps[0].size <= budget && AllFit(ps[1..], budget);
      assert Fitting(q, budget) <==> EncodedSize(q[0].header) <= budget && Fitting(q[1..], budget);
    }
  }

  /** Headers are delivered exactly when each fits a packet of its own. */
  lemma HeadersDelivered(q: seq<TxElement>, budget: nat, lim: Limits, s: Stream, feed: seq<StreamCall>)
    requires (forall i :: 0 <= i < |q| ==> q[i].TxHeader?) && budget <= lim.mtu
    ensures Fitting(q, budget) <==>
            exists n: nat :: var t := SendMany(n, q, budget, lim, s, feed); t.status.Full? && t.queue == []
  {
    hide SendMany, Content, Course, Fitting, AllFit;
    FixedPieces(q, |Content(s, feed)|, budget);
    FixedCourse(Pieces(q, |Content(s, feed)|), budget, lim);
    CourseExact(q, budget, lim, s, feed);
  }

  // ---- Packets that their length field can express ----

  /** Delivered in packets of at most so many octets each. */
  predicate Passes(ps: seq<Piece>, budget: nat, lim: Limits, most: nat)
    decreases Heft(ps)
  {
    ps == [] ||
    var f := Filled(ps, budget, lim);
    && f.status.Full? && Size(budget, f) + 3 <= most && Heft(f.rest) < Heft(ps)
    && Passes(f.rest, budget, Following(lim, budget, f), most)
  }

  predicate AllSmall(payloads: seq<seq<byte>>, most: nat) {
    forall i :: 0 <= i < |payloads| ==> |payloads[i]| + 3 <= most
  }

  lemma {:induction false} SmallEnough(n: nat, q: seq<TxElement>, budget: nat, lim: Limits, s: Stream,
      feed: seq<StreamCall>, most: nat)
    requires HasStream(q) ==> Proper(s, feed)
    requires Passes(Pieces(q, |Content(s, feed)|), budget, lim, most)
    ensures AllSmall(SendMany(n, q, budget, lim, s, feed).packets, most)
  {
    hide Pack, Filled, Content, EncodeAll;
    if n == 0 {
    } else if q == [] {
      SendNothing(n, budget, lim, s, feed);
    } else {
      CoursePack(q, budget, lim, s, feed);
      PackFilled(q, budget, lim, s, feed);
      PackSize(q, budget, lim, s, feed);
      var p := Pack(q, budget, lim, s, feed);
      SendManyFirst(n - 1, q, budget, lim, s, feed);
      SmallEnough(n - 1, p.queue, budget, NextLimits(lim, p), p.stream, p.feed, most);
    }
  }

  lemma {:induction false} TooLarge(q: seq<TxElement>, budget: nat, lim: Limits, s: Stream, feed: seq<StreamCall>,
      most: nat)
      returns (n: nat)
    requires HasStream(q) ==> Proper(s, feed)
    requires CourseOf(q, budget, lim, s, feed).Delivered?
    requires !Passes(Pieces(q, |Content(s, feed)|), budget, lim, most)
    ensures !AllSmall(SendMany(n, q, budget, lim, s, feed).packets, most)
    decreases Heft(Pieces(q, |Content(s, feed)|))
  {
    hide Pack, Filled, Content, EncodeAll;
    CoursePack(q, budget, lim, s, feed);
    PackFilled(q, budget, lim, s, feed);
    PackSize(q, budget, lim, s, feed);
    var p := Pack(q, budget, lim, s, feed);
    if |EncodeAll(p.frags)| + 3 <= most {
      var m := TooLarge(p.queue, budget, NextLimits(lim, p), p.stream, p.feed, most);
      SendManyFirst(m, q, budget, lim, s, feed);
      n := m + 1;
      var rest := SendMany(m, p.queue, budget, NextLimits(lim, p), p.stream, p.feed).packets;
      var i :| 0 <= i < |rest| && |rest[i]| + 3 > most;
      assert SendMany(n, q, budget, lim, s, feed).packets[i + 1] == rest[i];
    } else {
      SendManyFirst(0, q, budget, lim, s, feed);
      n := 1;
      assert SendMany(n, q, budget, lim, s, feed).packets[0] == EncodeAll(p.frags);
    }
  }

  /** Which transfers get through in packets that can be told apart on the wire. */
  lemma PassesExact(q: seq<TxElement>, budget: nat, lim: Limits, s: Stream, feed: seq<StreamCall>, most: nat)
    requires HasStream(q) ==> Proper(s, feed)
    ensures Passes(Pieces(q, |Content(s, feed)|), budget, lim, most) <==>
            && CourseOf(q, budget, lim, s, feed).Delivered?
            && forall n: nat :: AllSmall(SendMany(n, q, budget, lim, s, feed).packets, most)
  {
    hide SendMany, Passes, CourseOf, AllSmall, Content;
    CourseOfIs(q, budget, lim, s, feed);
    if Passes(Pieces(q, |Content(s, feed)|), budget, lim, most) {
      PassesDelivers(Pieces(q, |Content(s, feed)|), budget, lim, most);
      forall n: nat ensures AllSmall(SendMany(n, q, budget, lim, s, feed).packets, most) {
        SmallEnough(n, q, budget, lim, s, feed, most);
      }
    } else if CourseOf(q, budget, lim, s, feed).Delivered? {
      var n := TooLarge(q, budget, lim, s, feed, most);
    }
  }

  lemma CourseOfIs(q: seq<TxElement>, budget: nat, lim: Limits, s: Stream, feed: seq<StreamCall>)
    ensures CourseOf(q, budget, lim, s, feed) == Course(Pieces(q, |Content(s, feed)|), budget, lim)
  {
  }

  lemma {:induction false} PassesDelivers(ps: seq<Piece>, budget: nat, lim: Limits, most: nat)
    requires Passes(ps, budget, lim, most)
    ensures Course(ps, budget, lim).Delivered?
    decreases Heft(ps)
  {
    hide Filled;
    if ps == [] {
    } else {
      var f := Filled(ps, budget, lim);
      PassesDelivers(f.rest, budget, Following(lim, budget, f), most);
    }
  }
}
