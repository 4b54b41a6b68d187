/**
 The events a server handle raises, over whole runs: every request opens with a hint, is
 judged at most once and before any progress, arrives at most once, and ends.
 */
module Grammar {
  import opened Octets
  import opened Session
  import opened SessionFacts
  import opened Lifetime

  /** Where a request stands, by the events raised for it so far. */
  datatype Phase =
    | Quiet      // no request
    | Hinted     // announced
    | Judged     // its first packet was shown to the application
    | Requested  // arrived whole
    | Wrong

  function Advance(phase: Phase, kind: EventKind): Phase {
    match phase
    case Wrong => Wrong
    case Quiet => if kind.EvReqHint? then Hinted else if kind.EvLinkErr? then Quiet else Wrong
    case _ =>
      if Terminal(kind) then Quiet
      else if kind.EvStreamAvail? then phase
      else if kind.EvReq? && !phase.Requested? then Requested
      else if phase.Hinted? then (if kind.EvReqCheck? then Judged else Wrong)
      else if kind.EvProgress? || kind.EvStreamEmpty? || kind.EvUnexpected? then phase
      else Wrong
  }

  function PhaseOf(events: seq<Event>): Phase
    decreases |events|
  {
    if events == [] then Quiet
    else Advance(PhaseOf(events[..|events| - 1]), events[|events| - 1].kind)
  }

  lemma QuietAtFirst()
    ensures PhaseOf([]).Quiet?
  {
  }

  lemma PhaseSnoc(events: seq<Event>, e: Event)
    ensures PhaseOf(events + [e]) == Advance(PhaseOf(events), e.kind)
  {
    assert (events + [e])[..|events|] == events;
  }

  lemma {:induction false} PhaseAdds(before: seq<Event>, after: seq<Event>, kind: EventKind, id: Option<nat>)
    requires Adds(before, after, kind, id)
    requires Advance(PhaseOf(before), kind) == PhaseOf(before)
    ensures PhaseOf(after) == PhaseOf(before)
    decreases |after|
  {
    if |after| > |before| {
      var init := after[..|after| - 1];
      PhaseAdds(before, init, kind, id);
    } else {
      assert after == before;
    }
  }

  /** Events say where the server is; after a refusal it responds to a request that only
      was judged. */
  predicate Tracked(p: Party) {
    var phase := PhaseOf(p.events);
    && p.serverMode
    && match p.state
       case Idle => p.current.None? && phase.Quiet?
       case Starting => false
       case Receiving => p.current.Some? && !p.current.value.firstSent && p.current.value.checked && phase.Judged?
       case Responding => p.current.Some? && (phase.Judged? || phase.Requested?)
  }

  predicate Regular(p: Party) {
    p.fault || (!PhaseOf(p.events).Wrong? && (LinkErrorIn(p.events) || Tracked(p)))
  }

  predicate Busy(phase: Phase) {
    phase.Judged? || phase.Requested?
  }

  lemma DeliverPhase(p: Party, kind: EventKind, cmd: nat, rsp: nat, delete: bool)
    ensures PhaseOf(Deliver(p, kind, cmd, rsp, delete).events) == Advance(PhaseOf(p.events), kind)
    ensures kind.EvLinkErr? ==> LinkErrorIn(Deliver(p, kind, cmd, rsp, delete).events)
  {
    var e := EventOf(p, kind, cmd, rsp);
    PhaseSnoc(p.events, e);
    assert (p.events + [e])[|p.events|] == e;
  }

  lemma SendPhase(p: Party, allowFinal: bool, forceFinal: bool)
    requires p.current.Some? && Busy(PhaseOf(p.events))
    ensures PhaseOf(SendObject(p, allowFinal, forceFinal).0.events) == PhaseOf(p.events)
  {
    hide SendObject;
    SendKeeps(p, allowFinal, forceFinal);
    PhaseAdds(p.events, SendObject(p, allowFinal, forceFinal).0.events, EvStreamEmpty, IdOf(p.current));
  }

  lemma ReceivePhase(p: Party, packet: seq<byte>)
    requires p.current.Some? && !PhaseOf(p.events).Quiet?
    ensures PhaseOf(Receive(p, packet).0.events) == PhaseOf(p.events)
  {
    hide Receive;
    ReceiveReceives(p, packet);
    PhaseAdds(p.events, Receive(p, packet).0.events, EvStreamAvail, IdOf(p.current));
  }

  lemma FinishRegular(p: Party, rsp: byte, kind: EventKind, evRsp: nat)
    requires Terminal(kind) && !PhaseOf(p.events).Quiet? && !PhaseOf(p.events).Wrong?
    ensures Regular(Finish(p, rsp, kind, evRsp))
  {
    if p.current.Some? {
      DeliverPhase(ServerIdle(Respond(p, rsp)), kind, p.current.value.opcode, evRsp, true);
    }
  }

  lemma ServerReplyRegular(p: Party, cmd: byte)
    requires p.current.Some? && p.serverMode && p.state.Responding? && Busy(PhaseOf(p.events))
    ensures Regular(ServerReply(p, cmd))
  {
    hide SendObject, PhaseOf;
    var p0 := Update(p, p.current.value.(continueReceived := true));
    SendKeeps(p0, true, true);
    SendPhase(p0, true, true);
    var (p1, sent) := SendObject(p0, true, true);
    match sent
    case SendMore =>
      DeliverPhase(p1, EvProgress, cmd, 0, false);
      DeliverKeeps(p1, EvProgress, cmd, 0);
    case SendError => DeliverPhase(p1, EvLinkErr, cmd, 0, true);
    case SendDone =>
      var p2 := if cmd == DISCONNECT then p1.(mtuTx := MINIMUM_MTU) else p1;
      DeliverPhase(ServerIdle(p2), EvReqDone, cmd, 0, true);
  }

  lemma ServerRespondRegular(p: Party, packet: seq<byte>, cmd: byte, length: nat)
    requires p.serverMode && p.state.Responding? && Busy(PhaseOf(p.events))
    ensures Regular(ServerRespond(p, packet, cmd, length))
  {
    hide Receive, Finish, ServerReply, PhaseOf;
    if p.current.Some? {
      FinishRegular(p, SUCCESS, EvAbort, cmd);
      FinishRegular(p, BAD_REQUEST, EvParseErr, 0);
      ServerReplyRegular(p, cmd);
      ReceiveReceives(p, packet);
      ReceivePhase(p, packet);
      var p1 := Receive(p, packet).0;
      FinishRegular(p1, BAD_REQUEST, EvParseErr, 0);
      DeliverKeeps(p1, EvUnexpected, p1.current.value.opcode, 0);
      DeliverPhase(p1, EvUnexpected, p1.current.value.opcode, 0, false);
      ServerReplyRegular(DeliverOwn(p1, EvUnexpected, 0, false), cmd);
    }
  }

  lemma ServerRequestRegular(p: Party, packet: seq<byte>, cmd: byte, deny: bool)
    requires p.current.Some? && !p.current.value.firstSent && p.serverMode && |packet| >= 3
    requires PhaseOf(p.events).Judged? || (PhaseOf(p.events).Hinted? && !deny)
    ensures Regular(ServerRequest(p, packet, cmd, deny))
  {
    hide ServerRespond, PhaseOf;
    var p1 := if cmd == CONNECT then Update(p, p.current.value.(nonHeader := Some(ConnectFrame(p.mtuRx)))) else p;
    DeliverPhase(p1, EvReq, cmd, 0, false);
    DeliverKeeps(p1, EvReq, cmd, 0);
    var p2 := if deny then p1 else Deliver(p1, EvReq, cmd, 0, false);
    ServerRespondRegular(p2.(state := Responding, serverMode := true), [], cmd, 3);
  }

  lemma ServerMoreRegular(p: Party, packet: seq<byte>, cmd: byte)
    requires p.current.Some? && !p.current.value.firstSent && p.current.value.checked
    requires p.serverMode && p.state.Receiving? && |packet| >= 3 && PhaseOf(p.events).Judged?
    ensures Regular(ServerMore(p, packet, cmd))
  {
    hide SendObject, ServerRequest, PhaseOf;
    if !Accepting(p.current.value.opcode) {
      ServerRequestRegular(p, packet, cmd, true);
    } else {
      SendKeeps(p, false, true);
      SendPhase(p, false, true);
      var (p1, sent) := SendObject(p, false, true);
      var kind := if sent.SendError? then EvLinkErr else EvProgress;
      DeliverPhase(p1, kind, cmd, 0, sent.SendError?);
      DeliverKeeps(p1, EvProgress, cmd, 0);
    }
  }

  lemma CheckedPhase(p: Party, cmd: byte)
    requires p.current.Some? && !p.current.value.firstSent
    requires if p.current.value.checked then PhaseOf(p.events).Judged? else PhaseOf(p.events).Hinted?
    ensures var p' := Checked(p, cmd);
            && SameHandle(p, p') && PhaseOf(p'.events).Judged? && p'.current.value.checked
            && !p'.current.value.firstSent
  {
    hide PhaseOf;
    DeliverPhase(p, EvReqCheck, cmd, 0, false);
    DeliverKeeps(p, EvReqCheck, cmd, 0);
  }

  lemma ServerReceiveRegular(p: Party, packet: seq<byte>)
    requires p.current.Some? && !p.current.value.firstSent
    requires p.serverMode && p.state.Receiving? && |packet| >= 3
    requires if p.current.value.checked then PhaseOf(p.events).Judged? else PhaseOf(p.events).Hinted?
    ensures Regular(ServerReceive(p, packet))
  {
    hide Receive, Finish, ServerRequest, Checked, ServerMore, PhaseOf;
    var cmd := ClearFinal(packet[0]);
    FinishRegular(p, SUCCESS, EvAbort, cmd);
    FinishRegular(p, BAD_REQUEST, EvParseErr, cmd);
    ReceiveReceives(p, packet);
    ReceivePhase(p, packet);
    var p1 := Receive(p, packet).0;
    FinishRegular(p1, BAD_REQUEST, EvParseErr, 0);
    ServerRequestRegular(p1, packet, cmd, false);
    CheckedPhase(p1, cmd);
    ServerMoreRegular(Checked(p1, cmd), packet, cmd);
  }

  lemma ServerOpenRegular(p: Party, packet: seq<byte>)
    requires p.current.None? && p.serverMode && p.state.Idle? && |packet| >= 3 && PhaseOf(p.events).Quiet?
    ensures Regular(ServerOpen(p, packet))
  {
    hide ServerReceive, PhaseOf;
    var cmd := ClearFinal(packet[0]);
    var p0 := p.(current := Some(NewObject(p.nextId).(cmd := cmd)), nextId := p.nextId + 1);
    DeliverPhase(p0, EvReqHint, cmd, 0, false);
    DeliverKeeps(p0, EvReqHint, cmd, 0);
    var p1 := Deliver(p0, EvReqHint, cmd, 0, false);
    if cmd == CONNECT {
      match ParseConnect(p1, packet)
      case None => DeliverPhase(Respond(p1, BAD_REQUEST), EvParseErr, p1.current.value.opcode, 0, true);
      case Some(p2) => ServerReceiveRegular(Opened(p2, 4), packet);
    } else if cmd == SETPATH {
      ServerReceiveRegular(Opened(p1, 2), packet);
    } else {
      ServerReceiveRegular(p1.(state := Receiving, serverMode := true), packet);
    }
  }

  lemma ServerStepRegular(p: Party, packet: seq<byte>)
    requires Tracked(p) && |packet| >= 3
    ensures Regular(ServerStep(p, packet))
  {
    hide ServerReceive, ServerRespond, ServerOpen, PhaseOf;
    match p.state
    case Idle => ServerOpenRegular(p, packet);
    case Receiving => ServerReceiveRegular(p, packet);
    case Responding => ServerRespondRegular(p, packet, ClearFinal(packet[0]), Read16(packet, 1));
    case Starting =>
  }

  predicate ServerInputs(inputs: seq<Input>) {
    forall i :: 0 <= i < |inputs| ==> !inputs[i].Asks? && !inputs[i].Cancels?
  }

  /** The grammar of server events, at every point of every run. */
  lemma {:induction false} GrammarTheorem(p: Party, inputs: seq<Input>)
    requires Fresh(p) && ServerInputs(inputs)
    ensures Regular(Run(p, inputs))
    decreases |inputs|
  {
    hide ServerStep, PhaseOf;
    if inputs == [] {
      QuietAtFirst();
    } else {
      var before := Run(p, inputs[..|inputs| - 1]);
      GrammarTheorem(p, inputs[..|inputs| - 1]);
      if !before.fault && !LinkErrorIn(before.events) {
        var last := inputs[|inputs| - 1];
        if last.Arrives? && |last.packet| >= 3 {
          ServerStepRegular(before, last.packet);
        } else if last.Breaks? {
          DeliverPhase(before, EvLinkErr, 0, 0, true);
        }
      }
    }
  }
}
