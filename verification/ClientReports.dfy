/** What events tell the application of a client: each event of a request names its command. */
module ClientReports {
  import opened Octets
  import opened Headers
  import opened Fragmenter
  import opened Reassembler
  import opened Session
  import opened SessionFacts
  import opened Lifetime
  import opened Reports

  /** Calls that leave the command of a request alone. */
  predicate LeavesCommand(calls: seq<ApiCall>) {
    forall i :: 0 <= i < |calls| ==> !calls[i].SetResponse?
  }

  predicate LeavesCommands(script: seq<seq<ApiCall>>) {
    forall i :: 0 <= i < |script| ==> LeavesCommand(script[i])
  }

  lemma {:induction false} CommandLeft(o: Object, mtuTx: u16, calls: seq<ApiCall>)
    requires LeavesCommand(calls)
    ensures ApplyAll(o, mtuTx, calls).opcode == o.opcode && ApplyAll(o, mtuTx, calls).lastOpcode == o.lastOpcode
    ensures ApplyAll(o, mtuTx, calls).id == o.id
    decreases |calls|
  {
    hide Accepts, HeaderOf, Encode;
    if calls == [] {
    } else {
      CommandLeft(Apply(o, mtuTx, calls[0]), mtuTx, calls[1..]);
    }
  }

  /** What an event of a request says, raised over this response or over none. */
  predicate ClientSays(e: Event, id: nat, cmd: nat, rsp: nat) {
    && e.id == Some(id)
    && match e.kind
       case EvProgress => e.cmd == cmd && e.rsp == 0 && !e.server
       case EvReqDone => e.cmd == cmd && e.rsp == rsp
       case EvAbort => e.cmd == cmd && e.rsp == rsp
       case EvParseErr => e.cmd == cmd && e.rsp == 0
       case EvLinkErr => e.cmd == cmd
       case EvStreamEmpty => e.cmd == 0 && e.rsp == 0
       case EvStreamAvail => e.cmd == 0 && e.rsp == 0
       case _ => false
  }

  /** The later record continues the earlier one, by such events only. */
  predicate Utters(before: seq<Event>, after: seq<Event>, id: nat, cmd: nat, rsp: nat) {
    before <= after && forall i :: |before| <= i < |after| ==> ClientSays(after[i], id, cmd, rsp)
  }

  lemma UttersTwice(a: seq<Event>, b: seq<Event>, c: seq<Event>, id: nat, cmd: nat, rsp: nat)
    requires Utters(a, b, id, cmd, rsp) && Utters(b, c, id, cmd, rsp)
    ensures Utters(a, c, id, cmd, rsp)
  {
    hide ClientSays;
    forall i | |a| <= i < |c| ensures ClientSays(c[i], id, cmd, rsp) {
      if i < |b| { assert c[i] == b[i]; }
    }
  }

  lemma NothingUttered(events: seq<Event>, id: nat, cmd: nat, rsp: nat)
    ensures Utters(events, events, id, cmd, rsp)
  {
  }

  /** A request of this number and command, which the application will not change. */
  predicate Own(p: Party, id: nat, cmd: byte) {
    && p.current.Some? && p.current.value.id == id && LeavesCommands(p.script) && !p.serverMode
    && p.current.value.opcode == cmd && p.current.value.lastOpcode == SetFinal(cmd)
  }

  /** A step over such a request, still at hand. */
  predicate Goes(p: Party, p': Party, id: nat, cmd: byte, rsp: nat) {
    Utters(p.events, p'.events, id, cmd, rsp) && Own(p', id, cmd) && p'.state == p.state
  }

  lemma GoesTwice(p: Party, p1: Party, p2: Party, id: nat, cmd: byte, rsp: nat)
    requires Goes(p, p1, id, cmd, rsp) && Goes(p1, p2, id, cmd, rsp)
    ensures Goes(p, p2, id, cmd, rsp)
  {
    hide Utters;
    UttersTwice(p.events, p1.events, p2.events, id, cmd, rsp);
  }

  lemma CallsNext(script: seq<seq<ApiCall>>)
    requires LeavesCommands(script)
    ensures LeavesCommand(if script == [] then [] else script[0]) && LeavesCommands(Tail(script))
  {
  }

  lemma DeliverGoes(p: Party, kind: EventKind, c: nat, r: nat, id: nat, cmd: byte, rsp: nat)
    requires Own(p, id, cmd) && ClientSays(EventOf(p, kind, c, r), id, cmd, rsp)
    ensures Goes(p, Deliver(p, kind, c, r, false), id, cmd, rsp)
  {
    hide ApplyAll, ClientSays, EventOf;
    CallsNext(p.script);
    CommandLeft(p.current.value, p.mtuTx, if p.script == [] then [] else p.script[0]);
  }

  /** The last event of a request. */
  predicate Closes(p: Party, p': Party, id: nat, cmd: nat, rsp: nat) {
    && Utters(p.events, p'.events, id, cmd, rsp) && |p'.events| > |p.events|
    && Terminal(p'.events[|p'.events| - 1].kind) && p'.current.None?
  }

  lemma DeliverCloses(p: Party, kind: EventKind, r: nat, id: nat, cmd: byte, rsp: nat)
    requires p.current.Some? && p.current.value.opcode == cmd && Terminal(kind)
    requires ClientSays(EventOf(p, kind, cmd, r), id, cmd, rsp)
    ensures Closes(p, DeliverOwn(p, kind, r, true), id, cmd, rsp)
  {
    hide ClientSays, Received;
  }

  lemma ClosesAfter(p: Party, p1: Party, p2: Party, id: nat, cmd: byte, rsp: nat)
    requires Goes(p, p1, id, cmd, rsp) && Closes(p1, p2, id, cmd, rsp)
    ensures Closes(p, p2, id, cmd, rsp)
  {
    hide ClientSays;
    UttersTwice(p.events, p1.events, p2.events, id, cmd, rsp);
  }

  lemma SendGoes(p: Party, id: nat, cmd: byte, rsp: nat)
    requires Own(p, id, cmd)
    ensures Goes(p, SendObject(p, true, false).0, id, cmd, rsp)
  {
    hide SendObject, Received, LeavesCommands;
    SendRecord(p, true, false);
  }

  // ---- Taking in ----

  lemma ChunkGoes(p: Party, chunk: seq<byte>, id: nat, cmd: byte, rsp: nat)
    requires Own(p, id, cmd)
    ensures Goes(p, StreamChunk(p, chunk), id, cmd, rsp)
  {
    hide Deliver, Received, LeavesCommands;
    var o := p.current.value;
    DeliverGoes(Update(p, o.(stream := o.stream.(data := chunk))), EvStreamAvail, 0, 0, id, cmd, rsp);
  }

  lemma AcceptGoes(p: Party, h: Header, id: nat, cmd: byte, rsp: nat)
    requires Own(p, id, cmd)
    ensures Goes(p, AcceptHeader(p, h), id, cmd, rsp)
  {
    hide StreamChunk, LeavesCommands, ClientSays;
    NothingUttered(p.events, id, cmd, rsp);
    ChunkGoes(p, h.value, id, cmd, rsp);
    ChunkGoes(StreamChunk(p, h.value), [], id, cmd, rsp);
    GoesTwice(p, StreamChunk(p, h.value), StreamChunk(StreamChunk(p, h.value), []), id, cmd, rsp);
  }

  lemma {:induction false} AcceptAllGoes(p: Party, hs: seq<Header>, id: nat, cmd: byte, rsp: nat)
    requires Own(p, id, cmd)
    ensures Goes(p, AcceptAll(p, hs), id, cmd, rsp)
    decreases |hs|
  {
    hide AcceptHeader, Utters, LeavesCommands;
    if hs == [] {
      NothingUttered(p.events, id, cmd, rsp);
    } else {
      AcceptGoes(p, hs[0], id, cmd, rsp);
      AcceptAllGoes(AcceptHeader(p, hs[0]), hs[1..], id, cmd, rsp);
      GoesTwice(p, AcceptHeader(p, hs[0]), AcceptAll(p, hs), id, cmd, rsp);
    }
  }

  lemma ReceiveGoes(p: Party, packet: seq<byte>, id: nat, cmd: byte, rsp: nat)
    requires Own(p, id, cmd)
    ensures Goes(p, Receive(p, packet).0, id, cmd, rsp)
  {
    hide AcceptAll, ParseHeaders, Utters, Stale, LeavesCommands;
    NothingUttered(p.events, id, cmd, rsp);
    var o, d := p.current.value, packet[Min(3, |packet|)..];
    if |d| >= o.headerOffset {
      AcceptAllGoes(TakeNonHeader(p, d), ParseHeaders(d[o.headerOffset..], o.rx.streaming).headers, id, cmd, rsp);
    }
  }

  // ---- The steps of a client ----

  /** After a step the request is at hand, or has ended, or the code has left defined behaviour. */
  predicate Moved(p: Party, p': Party, id: nat, cmd: byte, rsp: nat) {
    || p'.fault
    || (Utters(p.events, p'.events, id, cmd, rsp) && Own(p', id, cmd) && p'.state.Receiving?)
    || Closes(p, p', id, cmd, rsp)
  }

  lemma StartMoves(p: Party, r: byte, id: nat, cmd: byte, rsp: nat)
    requires Own(p, id, cmd)
    ensures Moved(p, ClientStart(p, r), id, cmd, rsp)
  {
    hide SendObject, Deliver, Utters, LeavesCommands;
    SendGoes(p, id, cmd, rsp);
    var p1 := SendObject(p, true, false).0;
    ClosesIdle(p1, id, cmd, rsp);
    if !p1.fault {
      var p2 := Update(p1, p1.current.value.(firstSent := true));
      DeliverGoes(p2, EvProgress, cmd, 0, id, cmd, rsp);
      UttersTwice(p.events, p1.events, Deliver(p2, EvProgress, cmd, 0, false).events, id, cmd, rsp);
      ClosesAfter(p, p1, DeliverOwn(p1.(state := Idle, serverMode := false), EvLinkErr, 0, true), id, cmd, rsp);
    }
  }

  lemma ClosesIdle(p: Party, id: nat, cmd: byte, rsp: nat)
    requires Own(p, id, cmd)
    ensures Closes(p, DeliverOwn(p.(state := Idle, serverMode := false), EvLinkErr, 0, true), id, cmd, rsp)
    ensures Closes(p, DeliverOwn(p, EvLinkErr, 0, true), id, cmd, rsp)
  {
    DeliverCloses(p.(state := Idle, serverMode := false), EvLinkErr, 0, id, cmd, rsp);
  }

  lemma ContinueMoves(p: Party, id: nat, cmd: byte, rsp: nat)
    requires Own(p, id, cmd) && p.state.Receiving?
    ensures Moved(p, ClientContinue(p), id, cmd, rsp)
  {
    hide SendObject, Deliver, Utters, LeavesCommands;
    NothingUttered(p.events, id, cmd, rsp);
    var p0 := Update(p, p.current.value.(continueReceived := true));
    SendGoes(p0, id, cmd, rsp);
    var p1 := SendObject(p0, true, false).0;
    ClosesIdle(p1, id, cmd, rsp);
    DeliverGoes(p1, EvProgress, cmd, 0, id, cmd, rsp);
    if !p.current.value.abort && !p1.fault {
      UttersTwice(p.events, p1.events, Deliver(p1, EvProgress, cmd, 0, false).events, id, cmd, rsp);
      ClosesAfter(p, p1, DeliverOwn(p1, EvLinkErr, 0, true), id, cmd, rsp);
    }
  }

  /** The ends of a request, told with the handle a server again. */
  lemma EndsClose(p: Party, id: nat, cmd: byte, rsp: byte)
    requires Own(p, id, cmd)
    ensures Closes(p, DeliverOwn(ServerIdle(p), EvParseErr, 0, true), id, cmd, rsp)
    ensures Closes(p, ClientDone(p, rsp), id, cmd, rsp)
  {
    hide Utters, Deliver, LeavesCommands;
    DeliverCloses(ServerIdle(p), EvParseErr, 0, id, cmd, rsp);
    var kind := if !p.current.value.abort then EvReqDone else if rsp == SUCCESS then EvAbort else EvLinkErr;
    DeliverCloses(ServerIdle(p), kind, rsp, id, cmd, rsp);
  }

  lemma HeadersMove(p: Party, packet: seq<byte>, id: nat, cmd: byte, rsp: byte)
    requires Own(p, id, cmd) && p.state.Receiving? && |packet| >= 3
    ensures Moved(p, ClientHeaders(p, packet, rsp), id, cmd, rsp)
  {
    hide Receive, ClientContinue, ClientDone, Deliver, Utters, LeavesCommands;
    ReceiveGoes(p, packet, id, cmd, rsp);
    var p1 := Receive(p, packet).0;
    EndsClose(p1, id, cmd, rsp);
    ContinueMoves(p1, id, cmd, rsp);
    MovedAfter(p, p1, ClientHeaders(p, packet, rsp), id, cmd, rsp);
  }

  lemma MovedAfter(p: Party, p1: Party, p2: Party, id: nat, cmd: byte, rsp: nat)
    requires Goes(p, p1, id, cmd, rsp)
    ensures Moved(p1, p2, id, cmd, rsp) ==> Moved(p, p2, id, cmd, rsp)
  {
    hide Utters, LeavesCommands, Closes;
    if Closes(p1, p2, id, cmd, rsp) {
      ClosesAfter(p, p1, p2, id, cmd, rsp);
    } else if Utters(p1.events, p2.events, id, cmd, rsp) {
      UttersTwice(p.events, p1.events, p2.events, id, cmd, rsp);
    }
  }

  /** A client that gets a response: PROGRESS and the event that ends the request name the
      command it was started with, and the latter the response. */
  lemma ReceiveMoves(p: Party, packet: seq<byte>, id: nat, cmd: byte)
    requires Own(p, id, cmd) && p.state.Receiving? && |packet| >= 3
    ensures Moved(p, ClientStep(p, Some(packet)), id, cmd, packet[0] % 0x80)
  {
    hide ClientHeaders, Deliver, Utters, LeavesCommands;
    var rsp := ClearFinal(packet[0]);
    EndsClose(p, id, cmd, rsp);
    HeadersMove(p, packet, id, cmd, rsp);
    HeadersMove(p.(mtuTx := MINIMUM_MTU), packet, id, cmd, rsp);
    if cmd == CONNECT && ParseConnect(p, packet).Some? {
      var p1 := ParseConnect(p, packet).value;
      HeadersMove(Update(p1, p1.current.value.(headerOffset := 4)), packet, id, cmd, rsp);
    }
  }

  // ---- Whole runs ----

  /** No event since then that names this object names another command. */
  predicate Consistent(events: seq<Event>, n: nat, id: nat, cmd: byte) {
    n <= |events| &&
    forall i :: n <= i < |events| && events[i].id == Some(id) ==>
      && (events[i].kind.EvProgress? ==> events[i].cmd == cmd && !events[i].server)
      && (events[i].kind.EvReqDone? || events[i].kind.EvAbort? || events[i].kind.EvParseErr? ==> events[i].cmd == cmd)
  }

  lemma StaysConsistent(before: seq<Event>, after: seq<Event>, n: nat, id: nat, cmd: byte, rsp: nat)
    requires Consistent(before, n, id, cmd) && Utters(before, after, id, cmd, rsp)
    ensures Consistent(after, n, id, cmd)
  {
    forall i | n <= i < |after| && after[i].id == Some(id)
      ensures after[i].kind.EvProgress? ==> after[i].cmd == cmd && !after[i].server
      ensures after[i].kind.EvReqDone? || after[i].kind.EvAbort? || after[i].kind.EvParseErr? ==> after[i].cmd == cmd
    {
      if i < |before| { assert before[i] == after[i]; } else { assert ClientSays(after[i], id, cmd, rsp); }
    }
  }

  /** The object has been named by a terminal event. */
  predicate Gone(events: seq<Event>, id: nat) {
    exists i | 0 <= i < |events| :: Terminal(events[i].kind) && events[i].id == Some(id)
  }

  /** An object that is gone is not named again. */
  lemma GoneStays(p: Party, p': Party, n: nat, id: nat, cmd: byte)
    requires Gone(p.events, id) && Consistent(p.events, n, id, cmd) && p.events <= p'.events && Life(p')
    ensures Gone(p'.events, id) && Consistent(p'.events, n, id, cmd)
  {
    var t :| 0 <= t < |p.events| && Terminal(p.events[t].kind) && p.events[t].id == Some(id);
    assert p'.events[t] == p.events[t];
    forall i | |p.events| <= i < |p'.events| ensures p'.events[i].id != Some(id) {
    }
    forall i | n <= i < |p.events| ensures p'.events[i] == p.events[i] {
    }
  }

  /** At any point of a run: the request is at hand, or gone. */
  predicate Underway(p: Party, n: nat, id: nat, cmd: byte) {
    p.fault ||
    (Good(p) && Consistent(p.events, n, id, cmd) && ((Own(p, id, cmd) && p.state.Receiving?) || Gone(p.events, id)))
  }

  lemma MovedUnderway(p: Party, p': Party, n: nat, id: nat, cmd: byte, rsp: nat)
    requires Moved(p, p', id, cmd, rsp) && Good(p') && Consistent(p.events, n, id, cmd)
    ensures Underway(p', n, id, cmd)
  {
    hide Good, LeavesCommands;
    if !p'.fault {
      StaysConsistent(p.events, p'.events, n, id, cmd, rsp);
      if Closes(p, p', id, cmd, rsp) {
        assert ClientSays(p'.events[|p'.events| - 1], id, cmd, rsp);
      }
    }
  }

  lemma OwnGoesOn(p: Party, i: Input, n: nat, id: nat, cmd: byte)
    requires !p.fault && Life(p) && Settled(p) && Consistent(p.events, n, id, cmd)
    requires Own(p, id, cmd) && p.state.Receiving?
    ensures Underway(Handle(p, i), n, id, cmd)
  {
    hide Life, Settled, ClientStep, Consistent, Moved, LeavesCommands;
    HandleGood(p, i);
    match i
    case Begins(size) =>
    case Arrives(packet) =>
      if |packet| >= 3 && Session.Holding(p, packet) {
        ReceiveMoves(p, packet, id, cmd);
        MovedUnderway(p, Handle(p, i), n, id, cmd, packet[0] % 0x80);
      }
    case Asks(_, _) =>
    case Cancels =>
    case Breaks => LostUnderway(p, n, id, cmd);
  }

  lemma LostUnderway(p: Party, n: nat, id: nat, cmd: byte)
    requires Own(p, id, cmd) && Consistent(p.events, n, id, cmd)
    ensures var p' := Deliver(p, EvLinkErr, 0, 0, true);
            Consistent(p'.events, n, id, cmd) && Gone(p'.events, id)
  {
    var p' := Deliver(p, EvLinkErr, 0, 0, true);
    assert p'.events[|p.events|].id == Some(id);
  }

  /** Over every run after a request is started: the PROGRESS events of the request, and the event
      that ends it, name the command it was started with, unless the application sets another. */
  lemma {:induction false} RequestCommandTheorem(p: Party, cmd: byte, calls: seq<ApiCall>, inputs: seq<Input>)
    requires !p.fault && Life(p) && Settled(p) && p.current.None?
    requires LeavesCommand(calls) && LeavesCommands(p.script)
    ensures var q := Run(Handle(p, Asks(cmd, calls)), inputs);
            q.fault || Consistent(q.events, |p.events|, p.nextId, cmd)
    ensures Underway(Run(Handle(p, Asks(cmd, calls)), inputs), |p.events|, p.nextId, cmd)
    decreases |inputs|
  {
    hide Handle, Life, Settled, Consistent, Own, Gone;
    if inputs == [] {
      AskedUnderway(p, cmd, calls);
    } else {
      var start := Handle(p, Asks(cmd, calls));
      RequestCommandTheorem(p, cmd, calls, inputs[..|inputs| - 1]);
      var before := Run(start, inputs[..|inputs| - 1]);
      if !before.fault && !LinkErrorIn(before.events) {
        UnderwayGoesOn(before, inputs[|inputs| - 1], |p.events|, p.nextId, cmd);
      }
    }
  }

  lemma UnderwayGoesOn(p: Party, i: Input, n: nat, id: nat, cmd: byte)
    requires !p.fault && !LinkErrorIn(p.events) && Underway(p, n, id, cmd)
    ensures Underway(Handle(p, i), n, id, cmd)
  {
    hide Handle, Life, Settled, Consistent, Own, Gone;
    if Own(p, id, cmd) && p.state.Receiving? {
      OwnGoesOn(p, i, n, id, cmd);
    } else {
      HandleGood(p, i);
      assert Settled(p);
      RecordGrows(p, i);
      var p' := Handle(p, i);
      if !p'.fault { GoneStays(p, p', n, id, cmd); }
    }
  }

  // ---- Nothing is ever taken off the record ----

  lemma DeliverGrows(p: Party, kind: EventKind, cmd: nat, rsp: nat, delete: bool)
    ensures p.events <= Deliver(p, kind, cmd, rsp, delete).events
    ensures !delete && p.current.Some? ==> Deliver(p, kind, cmd, rsp, delete).current.Some?
  {
    hide ApplyAll;
  }

  lemma StartGrows(p: Party, rsp: byte)
    requires p.current.Some?
    ensures p.events <= ClientStart(p, rsp).events
  {
    hide SendObject, Deliver;
    SendKeeps(p, true, false);
    var p1 := SendObject(p, true, false).0;
    DeliverGrows(p1.(state := Idle, serverMode := false), EvLinkErr, p1.current.value.opcode, 0, true);
    var p2 := Update(p1, p1.current.value.(firstSent := true));
    DeliverGrows(p2, EvProgress, p2.current.value.opcode, 0, false);
  }

  lemma ContinueGrows(p: Party)
    requires p.current.Some?
    ensures p.events <= ClientContinue(p).events
  {
    hide SendObject, Deliver;
    var p0 := Update(p, p.current.value.(continueReceived := true));
    SendKeeps(p0, true, false);
    var p1 := SendObject(p0, true, false).0;
    DeliverGrows(p1, EvLinkErr, p1.current.value.opcode, 0, true);
    DeliverGrows(p1, EvProgress, p1.current.value.opcode, 0, false);
  }

  lemma HeadersGrow(p: Party, packet: seq<byte>, rsp: byte)
    requires |packet| >= 3 && p.current.Some?
    ensures p.events <= ClientHeaders(p, packet, rsp).events
  {
    hide Receive, ClientContinue, Deliver;
    ReceiveReceives(p, packet);
    var p1 := Receive(p, packet).0;
    ContinueGrows(p1);
    DeliverGrows(ServerIdle(p1), EvParseErr, p1.current.value.opcode, 0, true);
    var kind := if !p1.current.value.abort then EvReqDone else if rsp == SUCCESS then EvAbort else EvLinkErr;
    DeliverGrows(ServerIdle(p1), kind, p1.current.value.opcode, rsp, true);
  }

  lemma ReceiveGrows(p: Party, packet: seq<byte>, rsp: byte)
    requires |packet| >= 3 && p.current.Some?
    ensures p.events <= ClientReceive(p, packet, rsp).events
  {
    hide ClientHeaders, Deliver;
    HeadersGrow(p, packet, rsp);
    HeadersGrow(p.(mtuTx := MINIMUM_MTU), packet, rsp);
    DeliverGrows(ServerIdle(p), EvParseErr, p.current.value.opcode, 0, true);
    if p.current.value.opcode == CONNECT && ParseConnect(p, packet).Some? {
      var p1 := ParseConnect(p, packet).value;
      HeadersGrow(Update(p1, p1.current.value.(headerOffset := 4)), packet, rsp);
    }
  }

  lemma RecordGrows(p: Party, i: Input)
    requires !p.fault && Settled(p)
    ensures p.events <= Handle(p, i).events
  {
    hide ServerStep, ClientReceive, ClientStart, BuildRequest, Deliver;
    match i
    case Begins(_) =>
    case Arrives(packet) =>
      if |packet| >= 3 {
        if p.serverMode {
          StepSays(p, packet);
        } else {
          ReceiveGrows(p, packet, ClearFinal(packet[0]));
        }
      }
    case Asks(cmd, calls) =>
      if p.current.None? { StartGrows(Asking(p, cmd, calls), BAD_REQUEST); }
    case Cancels =>
    case Breaks => DeliverGrows(p, EvLinkErr, 0, 0, true);
  }

  /** The client with its request, about to send the first packet. */
  function Asking(p: Party, cmd: byte, calls: seq<ApiCall>): Party {
    p.(current := Some(BuildRequest(p, cmd, calls).(id := p.nextId)), nextId := p.nextId + 1,
       state := Starting, serverMode := false)
  }

  lemma AskedUnderway(p: Party, cmd: byte, calls: seq<ApiCall>)
    requires !p.fault && Life(p) && Settled(p) && p.current.None?
    requires LeavesCommand(calls) && LeavesCommands(p.script)
    ensures Underway(Handle(p, Asks(cmd, calls)), |p.events|, p.nextId, cmd)
  {
    hide ClientStart, Moved, LeavesCommands, Good;
    HandleGood(p, Asks(cmd, calls));
    CommandLeft(NewRequest(cmd, p.mtuRx), p.mtuTx, calls);
    StartMoves(Asking(p, cmd, calls), BAD_REQUEST, p.nextId, cmd, 0);
    MovedUnderway(Asking(p, cmd, calls), Handle(p, Asks(cmd, calls)), |p.events|, p.nextId, cmd, 0);
  }

  // ---- The headers of a response ----

  /** The octets in front of the headers in a response: four in the answer to a CONNECT. */
  function AnswerPreface(o: Object): nat {
    if o.opcode == 0x00 then 4 else o.headerOffset
  }

  /** One event has been raised, of a request that is over. */
  predicate Concluded(before: seq<Event>, after: seq<Event>, cmd: nat, rsp: nat, held: seq<Header>) {
    && |after| == |before| + 1 && after[..|before|] == before
    && var e := after[|before|];
    && e.kind.EvReqDone? && e.cmd == cmd && e.rsp == rsp && e.received == held
  }

  lemma DoneConcludes(p: Party, rsp: byte, before: seq<Event>)
    requires p.current.Some? && !p.current.value.abort && p.events == before
    ensures Concluded(before, ClientDone(p, rsp).events, p.current.value.opcode, rsp, Received(p.current.value.rx))
  {
  }

  lemma HeadersConclude(p: Party, packet: seq<byte>)
    requires p.current.Some? && !p.current.value.abort && !p.current.value.rx.streaming
    requires |packet| >= 3 + p.current.value.headerOffset && packet[0] % 0x80 != 0x10
    requires ParseHeaders(packet[3 + p.current.value.headerOffset..], false).outcome.Clean?
    ensures var o := p.current.value;
            Concluded(p.events, ClientHeaders(p, packet, packet[0] % 0x80).events, o.opcode, packet[0] % 0x80,
                      Received(StoreAll(o.rx, ParseHeaders(packet[3 + o.headerOffset..], false).headers)))
  {
    hide Receive, ParseHeaders, StoreAll, Received, ClientDone, Concluded;
    PreambleTaken(p, packet);
    DoneConcludes(Receive(p, packet).0, packet[0] % 0x80, p.events);
  }

  /** The answer that ends a request: one event is raised, it names the request's command and the
      response in the packet without the final bit, and shows what was held before followed by the
      packet's headers. */
  lemma AnswerShown(p: Party, packet: seq<byte>)
    requires p.state.Receiving? && p.current.Some? && !p.current.value.abort && !p.current.value.rx.streaming
    requires |packet| >= 3 + AnswerPreface(p.current.value)
    requires ParseHeaders(packet[3 + AnswerPreface(p.current.value)..], false).outcome.Clean?
    requires packet[0] % 0x80 != 0x10
    ensures var o := p.current.value;
            Concluded(p.events, ClientStep(p, Some(packet)).events, o.opcode, packet[0] % 0x80,
                      Received(StoreAll(o.rx, ParseHeaders(packet[3 + AnswerPreface(o)..], false).headers)))
  {
    hide ClientHeaders, ParseHeaders, StoreAll, Received, Concluded;
    var o := p.current.value;
    if o.opcode == CONNECT {
      HeadersConclude(Update(ParseConnect(p, packet).value, o.(headerOffset := 4)), packet);
    } else {
      HeadersConclude(if o.opcode == DISCONNECT then p.(mtuTx := MINIMUM_MTU) else p, packet);
    }
  }
}
