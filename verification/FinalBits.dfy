/** The final bit of requests and responses (sections 3.1 and 3.2 of IrOBEX). */
module FinalBits {
  import opened Octets
  import opened Headers
  import opened Fragmenter
  import opened Session
  import opened SessionFacts
  import opened Lockstep

  /** Every packet of a server has the final bit. One of a client has it exactly when it
      empties the queue, unless the opcode was set with the bit in it. */
  lemma FinalBit(p: Party, allowFinal: bool)
    requires p.current.Some?
    ensures Final(PacketOf(p, allowFinal, true)[0])
    ensures Final(PacketOf(p, true, false)[0]) <==> Packed(p).queue == [] || Final(p.current.value.opcode)
  {
    hide Pack;
  }

  // ---- A client whose application adds nothing ----

  predicate QuietCall(c: ApiCall) {
    !c.AddHeader? && !c.SetResponse?
  }

  predicate QuietScript(script: seq<seq<ApiCall>>) {
    forall i, j :: 0 <= i < |script| && 0 <= j < |script[i]| ==> QuietCall(script[i][j])
  }

  lemma {:induction false} QuietCalls(o: Object, mtuTx: u16, calls: seq<ApiCall>)
    requires forall j :: 0 <= j < |calls| ==> QuietCall(calls[j])
    ensures var o' := ApplyAll(o, mtuTx, calls); o'.txQueue == o.txQueue && o'.opcode == o.opcode
    decreases |calls|
  {
    if calls == [] {
    } else {
      assert QuietCall(calls[0]);
      QuietCalls(Apply(o, mtuTx, calls[0]), mtuTx, calls[1..]);
    }
  }

  /** The last packet is marked final exactly when nothing is left to send. */
  predicate Marked(p: Party) {
    && p.current.Some? && QuietScript(p.script) && !Final(p.current.value.opcode)
    && p.out != [] && p.out[|p.out| - 1] != []
    && (Final(p.out[|p.out| - 1][0]) <==> p.current.value.txQueue == [])
  }

  /** About to send: nothing but the packets so far is left open. */
  predicate Unmarked(p: Party) {
    p.current.Some? && QuietScript(p.script) && !Final(p.current.value.opcode)
  }

  /** At most one more packet has gone out, and it is marked as it should be; what was empty
      stays empty. */
  predicate Advanced(p: Party, p': Party) {
    && p.current.Some? && p'.current.Some? && Unmarked(p')
    && (p.current.value.txQueue == [] ==> p'.current.value.txQueue == [])
    && ((p'.out == p.out && p'.current.value.txQueue == p.current.value.txQueue)
        || (|p'.out| == |p.out| + 1 && p.out <= p'.out && Marked(p')))
  }

  lemma QuietDelivered(p: Party, kind: EventKind, cmd: nat, rsp: nat)
    requires Unmarked(p)
    ensures var p' := Deliver(p, kind, cmd, rsp, false);
            && Unmarked(p') && p'.out == p.out && p'.current.value.txQueue == p.current.value.txQueue
            && SameHandle(p, p') && p'.current.value.abort == p.current.value.abort
  {
    hide ApplyAll, EventOf;
    DeliverKeeps(p, kind, cmd, rsp);
    var calls := if p.script == [] then [] else p.script[0];
    assert forall j :: 0 <= j < |calls| ==> QuietCall(calls[j]);
    QuietCalls(p.current.value, p.mtuTx, calls);
  }

  lemma QuietChunk(p: Party, chunk: seq<byte>)
    requires Unmarked(p)
    ensures var p' := StreamChunk(p, chunk); Unmarked(p') && p'.current.value.txQueue == p.current.value.txQueue
  {
    hide Deliver;
    var o := p.current.value;
    QuietDelivered(Update(p, o.(stream := o.stream.(data := chunk))), EvStreamAvail, 0, 0);
  }

  lemma QuietAccepted(p: Party, h: Header)
    requires Unmarked(p)
    ensures var p' := AcceptHeader(p, h); Unmarked(p') && p'.current.value.txQueue == p.current.value.txQueue
  {
    hide StreamChunk;
    QuietChunk(p, h.value);
    QuietChunk(StreamChunk(p, h.value), []);
  }

  lemma {:induction false} QuietAcceptedAll(p: Party, hs: seq<Header>)
    requires Unmarked(p)
    ensures var p' := AcceptAll(p, hs); Unmarked(p') && p'.current.value.txQueue == p.current.value.txQueue
    decreases |hs|
  {
    hide AcceptHeader;
    if hs == [] {
    } else {
      QuietAccepted(p, hs[0]);
      QuietAcceptedAll(AcceptHeader(p, hs[0]), hs[1..]);
    }
  }

  lemma QuietReceived(p: Party, packet: seq<byte>)
    requires Unmarked(p)
    ensures var p' := Receive(p, packet).0; Unmarked(p') && p'.current.value.txQueue == p.current.value.txQueue
  {
    hide AcceptAll, ParseHeaders;
    var o := p.current.value;
    var d := packet[Min(3, |packet|)..];
    if |d| >= o.headerOffset {
      QuietAcceptedAll(TakeNonHeader(p, d), ParseHeaders(d[o.headerOffset..], o.rx.streaming).headers);
    }
  }

  lemma QuietSent(p: Party)
    requires Unmarked(p)
    ensures var (p', sent) := SendObject(p, true, false);
            !sent.SendError? ==>
              Unmarked(p') && |p'.out| == |p.out| + 1 && p.out <= p'.out && Marked(p')
              && (p.current.value.txQueue == [] ==> p'.current.value.txQueue == [])
  {
    hide Pack, QuietScript, PacketPayload;
    SendKeeps(p, true, false);
    FinalBit(p, true);
    EmptyStays(p);
  }

  lemma EmptyStays(p: Party)
    requires p.current.Some?
    ensures p.current.value.txQueue == [] ==> Packed(p).queue == []
  {
  }

  /** The first packet. */
  lemma StartMarks(p: Party, rsp: byte)
    requires Unmarked(p)
    ensures var p' := ClientStart(p, rsp); p'.fault || !Waiting(p') || Marked(p')
  {
    hide SendObject, Deliver, QuietScript;
    QuietSent(p);
    var (p1, sent) := SendObject(p, true, false);
    SendKeeps(p, true, false);
    DeliverOut(p1.(state := Idle, serverMode := false), EvLinkErr, p1.current.value.opcode, 0, true);
    if !sent.SendError? {
      var p2 := Update(p1, p1.current.value.(firstSent := true));
      QuietDelivered(p2, EvProgress, p1.current.value.opcode, 0);
    }
  }

  lemma ContinueMarks(p: Party)
    requires Unmarked(p) && !p.current.value.abort
    ensures var p' := ClientContinue(p); p'.fault || !Waiting(p') || Advanced(p, p')
  {
    hide SendObject, Deliver, QuietScript;
    var p0 := Update(p, p.current.value.(continueReceived := true));
    QuietSent(p0);
    SendKeeps(p0, true, false);
    var (p1, sent) := SendObject(p0, true, false);
    DeliverOut(p1, EvLinkErr, p1.current.value.opcode, 0, true);
    if !sent.SendError? { QuietDelivered(p1, EvProgress, p1.current.value.opcode, 0); }
  }

  lemma HeadersMarks(p: Party, packet: seq<byte>, rsp: byte)
    requires Unmarked(p) && !p.current.value.abort && |packet| >= 3
    ensures var p' := ClientHeaders(p, packet, rsp); p'.fault || !Waiting(p') || Advanced(p, p')
  {
    hide Receive, ClientContinue, Deliver, QuietScript;
    QuietReceived(p, packet);
    ReceiveReceives(p, packet);
    var p1 := Receive(p, packet).0;
    DeliverOut(ServerIdle(p1), EvParseErr, p1.current.value.opcode, 0, true);
    DeliverOut(ServerIdle(p1), EvReqDone, p1.current.value.opcode, rsp, true);
    ContinueMarks(p1);
  }

  lemma StepMarks(p: Party, packet: seq<byte>)
    requires Unmarked(p) && Waiting(p) && |packet| >= 3
    ensures var p' := ClientStep(p, Some(packet)); p'.fault || !Waiting(p') || Advanced(p, p')
  {
    hide ClientHeaders, Deliver, QuietScript;
    var rsp := ClearFinal(packet[0]);
    HeadersMarks(p, packet, rsp);
    HeadersMarks(p.(mtuTx := MINIMUM_MTU), packet, rsp);
    DeliverOut(ServerIdle(p), EvParseErr, p.current.value.opcode, 0, true);
    if p.current.value.opcode == CONNECT && ParseConnect(p, packet).Some? {
      var p1 := ParseConnect(p, packet).value;
      HeadersMarks(Update(p1, p1.current.value.(headerOffset := 4)), packet, rsp);
    }
  }

  // ---- Over runs ----

  /** The answers a client gets, one after the other, for as long as it waits for one. */
  function ClientRun(p: Party, answers: seq<seq<byte>>): Party
    decreases |answers|
  {
    if answers == [] then p
    else
      var before := ClientRun(p, answers[..|answers| - 1]);
      var answer := answers[|answers| - 1];
      if before.fault || !Waiting(before) || |answer| < 3 then before else ClientStep(before, Some(answer))
  }

  /** Once a packet of the request is final, so are all after it. */
  predicate FinalForGood(out: seq<seq<byte>>, n: nat) {
    forall i, j :: n <= i <= j < |out| && out[i] != [] && out[j] != [] && Final(out[i][0]) ==> Final(out[j][0])
  }

  lemma FinalOneMore(p: Party, p': Party, n: nat)
    requires Marked(p) && FinalForGood(p.out, n) && Advanced(p, p')
    requires forall i :: n <= i < |p.out| && p.out[i] != [] && Final(p.out[i][0]) ==> p.current.value.txQueue == []
    ensures Marked(p') && FinalForGood(p'.out, n)
    ensures forall i :: n <= i < |p'.out| && p'.out[i] != [] && Final(p'.out[i][0]) ==> p'.current.value.txQueue == []
  {
    hide QuietScript;
    assert forall i :: 0 <= i < |p.out| ==> p'.out[i] == p.out[i];
  }

  /**
   Whatever answers a client gets, as long as its application adds nothing to the request:
   the packet it has just sent has the final bit exactly when nothing is left to send, and
   once a packet has it all further packets of the request have it too.
   */
  lemma {:induction false} FinalTheorem(p: Party, answers: seq<seq<byte>>)
    requires Marked(p) && Waiting(p)
    ensures var q := ClientRun(p, answers);
            q.fault || !Waiting(q) ||
            (&& Marked(q) && FinalForGood(q.out, |p.out| - 1)
             && forall i :: |p.out| - 1 <= i < |q.out| && q.out[i] != [] && Final(q.out[i][0]) ==>
                  q.current.value.txQueue == [])
    decreases |answers|
  {
    hide ClientStep, QuietScript;
    if answers == [] {
    } else {
      var before := ClientRun(p, answers[..|answers| - 1]);
      var answer := answers[|answers| - 1];
      FinalTheorem(p, answers[..|answers| - 1]);
      if !before.fault && Waiting(before) && |answer| >= 3 {
        StepMarks(before, answer);
        var q := ClientStep(before, Some(answer));
        if !q.fault && Waiting(q) { FinalOneMore(before, q, |p.out| - 1); }
      }
    }
  }
}
