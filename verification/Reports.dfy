/**
 What events tell the application: the command they name, the response, the mode, and the
 headers that have come in. On the server each event of a packet names the packet's opcode; on
 the client each event of a request names the request's.
 */
module Reports {
  import opened Octets
  import opened Headers
  import opened Fragmenter
  import opened Reassembler
  import opened Session
  import opened SessionFacts
  import opened Lifetime
  import opened Put

  // ---- The server ----

  /** What an event says that a server raises over a packet of this command. */
  predicate ServerSays(e: Event, cmd: nat) {
    && e.server
    && match e.kind
       case EvStreamEmpty => e.cmd == 0 && e.rsp == 0
       case EvStreamAvail => e.cmd == 0 && e.rsp == 0
       case EvUnexpected => e.rsp == 0
       case EvAbort => e.rsp == cmd
       case EvParseErr => e.rsp == 0 || e.rsp == cmd
       case _ => e.cmd == cmd && e.rsp == 0
  }

  /** The later record continues the earlier one, by such events only. */
  predicate Says(before: seq<Event>, after: seq<Event>, cmd: nat) {
    before <= after && forall i :: |before| <= i < |after| ==> ServerSays(after[i], cmd)
  }

  /** And all of them show these headers. */
  predicate Shows(before: seq<Event>, after: seq<Event>, held: seq<Header>) {
    before <= after && forall i :: |before| <= i < |after| ==> after[i].received == held
  }

  lemma SaysTwice(a: seq<Event>, b: seq<Event>, c: seq<Event>, cmd: nat)
    requires Says(a, b, cmd) && Says(b, c, cmd)
    ensures Says(a, c, cmd)
  {
    hide ServerSays;
    forall i | |a| <= i < |c| ensures ServerSays(c[i], cmd) {
      if i < |b| { assert c[i] == b[i]; }
    }
  }

  lemma ShowsTwice(a: seq<Event>, b: seq<Event>, c: seq<Event>, held: seq<Header>)
    requires Shows(a, b, held) && Shows(b, c, held)
    ensures Shows(a, c, held)
  {
    forall i | |a| <= i < |c| ensures c[i].received == held {
      if i < |b| { assert c[i] == b[i]; }
    }
  }

  /** Both, from one state of a handle to another. */
  predicate Tells(p: Party, p': Party, cmd: nat, held: seq<Header>) {
    Says(p.events, p'.events, cmd) && Shows(p.events, p'.events, held)
  }

  lemma TellsTwice(p: Party, p1: Party, p2: Party, cmd: nat, held: seq<Header>)
    requires Tells(p, p1, cmd, held) && Tells(p1, p2, cmd, held)
    ensures Tells(p, p2, cmd, held)
  {
    hide Says, Shows;
    SaysTwice(p.events, p1.events, p2.events, cmd);
    ShowsTwice(p.events, p1.events, p2.events, held);
  }

  /** A server with an object that holds these headers. */
  predicate HasHeld(p: Party, held: seq<Header>) {
    p.serverMode && p.current.Some? && Received(p.current.value.rx) == held
  }

  lemma TellsNothing(p: Party, p': Party, cmd: nat, held: seq<Header>)
    requires p'.events == p.events
    ensures Tells(p, p', cmd, held)
  {
  }

  lemma DeliverTells(p: Party, kind: EventKind, c: nat, rsp: nat, delete: bool, cmd: nat, held: seq<Header>)
    requires HasHeld(p, held) && ServerSays(EventOf(p, kind, c, rsp), cmd)
    ensures var p' := Deliver(p, kind, c, rsp, delete); Tells(p, p', cmd, held) && (!delete ==> HasHeld(p', held))
  {
    hide ServerSays, Received;
    if !delete { DeliverShows(p, kind, c, rsp); }
  }

  lemma DeliverShows(p: Party, kind: EventKind, cmd: nat, rsp: nat)
    requires p.current.Some?
    ensures var p' := Deliver(p, kind, cmd, rsp, false);
            && p'.current.Some? && p'.serverMode == p.serverMode
            && Received(p'.current.value.rx) == Received(p.current.value.rx)
  {
    hide Received;
    ApplyAllKeeps(p.current.value, p.mtuTx, if p.script == [] then [] else p.script[0]);
  }

  lemma {:induction false} RepeatIs(e: Event, n: nat)
    ensures |Repeat(e, n)| == n && forall i :: 0 <= i < n ==> Repeat(e, n)[i] == e
  {
    if n == 0 {
    } else {
      RepeatIs(e, n - 1);
    }
  }

  /** The record after sending, and what stays. */
  lemma SendRecord(p: Party, allowFinal: bool, forceFinal: bool)
    requires p.current.Some?
    ensures var p' := SendObject(p, allowFinal, forceFinal).0;
            var e := EventOf(p, EvStreamEmpty, 0, 0);
            && p.events <= p'.events && (forall i :: |p.events| <= i < |p'.events| ==> p'.events[i] == e)
            && p'.current.Some? && p'.current.value.rx == p.current.value.rx && p'.serverMode == p.serverMode
            && p'.script == p.script && p'.current.value.opcode == p.current.value.opcode
            && p'.current.value.lastOpcode == p.current.value.lastOpcode
            && p'.current.value.id == p.current.value.id && p'.state == p.state
  {
    hide Packed;
    RepeatIs(EventOf(p, EvStreamEmpty, 0, 0), Packed(p).asks);
  }

  /** A packet sent: one STREAMEMPTY event is raised for every answer with stream data used up, and
      the answers are used up in order. */
  lemma SendAsks(p: Party, allowFinal: bool, forceFinal: bool)
    requires p.current.Some?
    ensures var p' := SendObject(p, allowFinal, forceFinal).0;
            && p.events <= p'.events
            && (forall i :: |p.events| <= i < |p'.events| ==>
                  p'.events[i].kind.EvStreamEmpty? && p'.events[i].id == IdOf(p.current))
            && p'.feed == p.feed[Min(|p'.events| - |p.events|, |p.feed|)..]
  {
    hide Pack;
    SendRecord(p, allowFinal, forceFinal);
    RepeatIs(EventOf(p, EvStreamEmpty, 0, 0), Packed(p).asks);
    PackAsks(p.current.value.txQueue, TxBudget(p), TxLimits(p), p.current.value.stream, p.feed);
  }

  lemma SendTells(p: Party, allowFinal: bool, forceFinal: bool, cmd: nat, held: seq<Header>)
    requires HasHeld(p, held)
    ensures var p' := SendObject(p, allowFinal, forceFinal).0; Tells(p, p', cmd, held) && HasHeld(p', held)
  {
    hide SendObject, Received;
    SendRecord(p, allowFinal, forceFinal);
  }

  lemma FinishTells(p: Party, rsp: byte, kind: EventKind, evRsp: nat, cmd: nat, held: seq<Header>)
    requires HasHeld(p, held) && ((kind.EvAbort? && evRsp == cmd) || (kind.EvParseErr? && (evRsp == 0 || evRsp == cmd)))
    ensures Tells(p, Finish(p, rsp, kind, evRsp), cmd, held)
  {
    hide Deliver, Received;
    DeliverTells(ServerIdle(Respond(p, rsp)), kind, p.current.value.opcode, evRsp, true, cmd, held);
  }

  lemma ReplyTells(p: Party, cmd: byte, held: seq<Header>)
    requires HasHeld(p, held)
    ensures Tells(p, ServerReply(p, cmd), cmd, held)
  {
    hide SendObject, Deliver, Received, Says, Shows;
    var p0 := Update(p, p.current.value.(continueReceived := true));
    SendTells(p0, true, true, cmd, held);
    var (p1, sent) := SendObject(p0, true, true);
    if !p1.fault {
      var p2 := if cmd == DISCONNECT then p1.(mtuTx := MINIMUM_MTU) else p1;
      DeliverTells(p1, EvProgress, cmd, 0, false, cmd, held);
      DeliverTells(p1, EvLinkErr, cmd, 0, true, cmd, held);
      DeliverTells(ServerIdle(p2), EvReqDone, cmd, 0, true, cmd, held);
      TellsTwice(p, p1, ServerReply(p, cmd), cmd, held);
    }
  }

  lemma NothingReceived(p: Party)
    requires p.current.Some?
    ensures Receive(p, []).0 == p
  {
    assert ParseHeaders([], p.current.value.rx.streaming) == Parsed([], Clean);
  }

  /** Nothing of the packet is left to be taken in, whatever its length field says. */
  lemma BareRespondTells(p: Party, cmd: byte, length: nat, held: seq<Header>)
    requires HasHeld(p, held)
    ensures Tells(p, ServerRespond(p, [], cmd, length), cmd, held)
  {
    hide Finish, ServerReply, Received, Says, Shows, Receive, Deliver;
    FinishTells(p, SUCCESS, EvAbort, cmd, cmd, held);
    FinishTells(p, BAD_REQUEST, EvParseErr, 0, cmd, held);
    ReplyTells(p, cmd, held);
    NothingReceived(p);
    TellsNothing(p, p.(fault := true), cmd, held);
    UnexpectedTells(p, cmd, held);
  }

  /** Headers that have come in the middle of a response. */
  lemma UnexpectedTells(p: Party, cmd: byte, held: seq<Header>)
    requires HasHeld(p, held)
    ensures Deliver(p, EvUnexpected, p.current.value.opcode, 0, false).current.Some?
    ensures Tells(p, ServerReply(DeliverOwn(p, EvUnexpected, 0, false), cmd), cmd, held)
  {
    hide ServerReply, Received, Says, Shows, Deliver;
    DeliverTells(p, EvUnexpected, p.current.value.opcode, 0, false, cmd, held);
    var p1 := Deliver(p, EvUnexpected, p.current.value.opcode, 0, false);
    ReplyTells(p1, cmd, held);
    TellsTwice(p, p1, ServerReply(p1, cmd), cmd, held);
  }

  lemma RequestTells(p: Party, packet: seq<byte>, cmd: byte, deny: bool, held: seq<Header>)
    requires HasHeld(p, held) && |packet| >= 3
    ensures Tells(p, ServerRequest(p, packet, cmd, deny), cmd, held)
  {
    hide ServerRespond, Deliver, Received, Says, Shows;
    BareRespondTells(p, cmd, Read16(packet, 1), held);
    var p1 := if cmd == CONNECT then Update(p, p.current.value.(nonHeader := Some(ConnectFrame(p.mtuRx)))) else p;
    DeliverTells(p1, EvReq, cmd, 0, false, cmd, held);
    TellsNothing(p, p1, cmd, held);
    var p2 := if deny then p1 else Deliver(p1, EvReq, cmd, 0, false);
    BareRespondTells(p2.(state := Responding, serverMode := true), cmd, 3, held);
    if !p.current.value.firstSent { TellsTwice(p, p2, ServerRequest(p, packet, cmd, deny), cmd, held); }
  }

  /** A request that is not turned down is reported, with what the object holds, before anything
      else. */
  lemma RequestReported(p: Party, packet: seq<byte>, cmd: byte)
    requires p.serverMode && p.current.Some? && |packet| >= 3 && !p.current.value.firstSent
    ensures var p' := ServerRequest(p, packet, cmd, false);
            && |p'.events| > |p.events| && p'.events[|p.events|].kind.EvReq?
            && p'.events[|p.events|].cmd == cmd
            && p'.events[|p.events|].received == Received(p.current.value.rx)
  {
    hide ServerRespond, Received, ServerSays, Shows, ApplyAll;
    var p1 := if cmd == CONNECT then Update(p, p.current.value.(nonHeader := Some(ConnectFrame(p.mtuRx)))) else p;
    var held := Received(p.current.value.rx);
    DeliverShows(p1, EvReq, cmd, 0);
    var p2 := Deliver(p1, EvReq, cmd, 0, false);
    assert p2.events == p.events + [EventOf(p1, EvReq, cmd, 0)];
    BareRespondTells(p2.(state := Responding, serverMode := true), cmd, 3, held);
    assert p2.events <= ServerRequest(p, packet, cmd, false).events;
  }

  lemma CheckedTells(p: Party, cmd: byte, held: seq<Header>)
    requires HasHeld(p, held)
    ensures var p' := Checked(p, cmd);
            Tells(p, p', cmd, held) && HasHeld(p', held)
  {
    hide Deliver, Received, Says, Shows;
    TellsNothing(p, p, cmd, held);
    DeliverTells(p, EvReqCheck, cmd, 0, false, cmd, held);
    var p1 := Deliver(p, EvReqCheck, cmd, 0, false);
    TellsNothing(p1, Update(p1, p1.current.value.(checked := true)), cmd, held);
    TellsTwice(p, p1, Update(p1, p1.current.value.(checked := true)), cmd, held);
  }

  lemma MoreTells(p: Party, packet: seq<byte>, cmd: byte, held: seq<Header>)
    requires HasHeld(p, held) && |packet| >= 3
    ensures Tells(p, ServerMore(p, packet, cmd), cmd, held)
  {
    hide SendObject, ServerRequest, Deliver, Received, Says, Shows;
    RequestTells(p, packet, cmd, true, held);
    SendTells(p, false, true, cmd, held);
    var p1 := SendObject(p, false, true).0;
    DeliverTells(p1, EvLinkErr, cmd, 0, true, cmd, held);
    DeliverTells(p1, EvProgress, cmd, 0, false, cmd, held);
    if Accepting(p.current.value.opcode) && !p1.fault {
      TellsTwice(p, p1, ServerMore(p, packet, cmd), cmd, held);
    }
  }

  // ---- Taking in ----

  lemma ChunkSays(p: Party, chunk: seq<byte>, cmd: nat)
    requires p.current.Some? && p.serverMode
    ensures var p' := StreamChunk(p, chunk); Says(p.events, p'.events, cmd) && p'.current.Some? && p'.serverMode
  {
    hide ApplyAll, Received;
    var o := p.current.value;
    DeliverShows(Update(p, o.(stream := o.stream.(data := chunk))), EvStreamAvail, 0, 0);
  }

  lemma AcceptSays(p: Party, h: Header, cmd: nat)
    requires p.current.Some? && p.serverMode
    ensures var p' := AcceptHeader(p, h); Says(p.events, p'.events, cmd) && p'.current.Some? && p'.serverMode
  {
    hide StreamChunk, Says, ServerSays;
    NothingSaid(p.events, cmd);
    ChunkSays(p, h.value, cmd);
    var p1 := StreamChunk(p, h.value);
    ChunkSays(p1, [], cmd);
    SaysTwice(p.events, p1.events, StreamChunk(p1, []).events, cmd);
  }

  lemma NothingSaid(events: seq<Event>, cmd: nat)
    ensures Says(events, events, cmd)
  {
  }

  lemma {:induction false} AcceptAllSays(p: Party, hs: seq<Header>, cmd: nat)
    requires p.current.Some? && p.serverMode
    ensures var p' := AcceptAll(p, hs); Says(p.events, p'.events, cmd) && p'.serverMode
    decreases |hs|
  {
    hide AcceptHeader, Says;
    if hs == [] {
      NothingSaid(p.events, cmd);
    } else {
      var p1 := AcceptHeader(p, hs[0]);
      AcceptSays(p, hs[0], cmd);
      AcceptAllSays(p1, hs[1..], cmd);
      SaysTwice(p.events, p1.events, AcceptAll(p, hs).events, cmd);
    }
  }

  lemma ReceiveSays(p: Party, packet: seq<byte>, cmd: nat)
    requires p.current.Some? && p.serverMode
    ensures var p' := Receive(p, packet).0; Says(p.events, p'.events, cmd) && p'.current.Some? && p'.serverMode
  {
    hide AcceptAll, ParseHeaders, Says, Stale;
    NothingSaid(p.events, cmd);
    var o, d := p.current.value, packet[Min(3, |packet|)..];
    if |d| >= o.headerOffset {
      AcceptAllSays(TakeNonHeader(p, d), ParseHeaders(d[o.headerOffset..], o.rx.streaming).headers, cmd);
    }
  }

  /** What the object holds once the packet has been taken in. */
  function HeldWith(p: Party, packet: seq<byte>): seq<Header>
    requires p.current.Some?
  {
    var p1 := Receive(p, packet).0;
    if p1.current.Some? then Received(p1.current.value.rx) else []
  }

  /** A server that gets a packet of a request at hand: the events name its command, and once
      its headers have been taken in all events show them. */
  lemma ReceivingTells(p: Party, packet: seq<byte>)
    requires p.serverMode && p.current.Some? && |packet| >= 3
    ensures var cmd := ClearFinal(packet[0]);
            var p' := ServerReceive(p, packet);
            && Says(p.events, p'.events, cmd)
            && (cmd != ABORT && cmd == p.current.value.cmd ==>
                  Tells(Receive(p, packet).0, p', cmd, HeldWith(p, packet)))
  {
    hide Receive, Finish, ServerRequest, ServerMore, Checked, Received, Says, Shows;
    var cmd := ClearFinal(packet[0]);
    FinishTells(p, SUCCESS, EvAbort, cmd, cmd, Received(p.current.value.rx));
    FinishTells(p, BAD_REQUEST, EvParseErr, cmd, cmd, Received(p.current.value.rx));
    if cmd != ABORT && cmd == p.current.value.cmd {
      ReceiveSays(p, packet, cmd);
      TakenTells(Receive(p, packet).0, Receive(p, packet).1, packet, HeldWith(p, packet));
      SaysTwice(p.events, Receive(p, packet).0.events, ServerReceive(p, packet).events, cmd);
    }
  }

  /** What the server makes of a packet that it has taken in. */
  function Treated(p: Party, outcome: Outcome, packet: seq<byte>): Party
    requires p.current.Some? && |packet| >= 3
  {
    var cmd := ClearFinal(packet[0]);
    match outcome
    case Beyond => p.(fault := true)
    case Broken => Finish(p, BAD_REQUEST, EvParseErr, 0)
    case Clean =>
      if Final(packet[0]) then ServerRequest(p, packet, cmd, false) else ServerMore(Checked(p, cmd), packet, cmd)
  }

  lemma TakenTells(p: Party, outcome: Outcome, packet: seq<byte>, held: seq<Header>)
    requires HasHeld(p, held) && |packet| >= 3
    ensures Tells(p, Treated(p, outcome, packet), ClearFinal(packet[0]), held)
  {
    hide Finish, ServerRequest, ServerMore, Checked, Received, Says, Shows;
    var cmd := ClearFinal(packet[0]);
    TellsNothing(p, p.(fault := true), cmd, held);
    FinishTells(p, BAD_REQUEST, EvParseErr, 0, cmd, held);
    RequestTells(p, packet, cmd, false, held);
    CheckedTells(p, cmd, held);
    MoreTells(Checked(p, cmd), packet, cmd, held);
    TellsTwice(p, Checked(p, cmd), ServerMore(Checked(p, cmd), packet, cmd), cmd, held);
  }

  /** A server that responds: headers that the client sends meanwhile are taken in, and shown. */
  lemma RespondingTells(p: Party, packet: seq<byte>)
    requires p.serverMode && p.current.Some? && |packet| >= 3
    ensures var cmd := ClearFinal(packet[0]);
            var p' := ServerRespond(p, packet, cmd, Read16(packet, 1));
            && Says(p.events, p'.events, cmd)
            && (cmd != ABORT && cmd != CONNECT && Read16(packet, 1) > 3 ==>
                  Tells(Receive(p, packet).0, p', cmd, HeldWith(p, packet)))
  {
    hide Receive, Finish, ServerReply, Received, Says, Shows, Deliver;
    var cmd, held := ClearFinal(packet[0]), Received(p.current.value.rx);
    FinishTells(p, SUCCESS, EvAbort, cmd, cmd, held);
    FinishTells(p, BAD_REQUEST, EvParseErr, 0, cmd, held);
    ReplyTells(p, cmd, held);
    if cmd != ABORT && cmd != CONNECT && Read16(packet, 1) > 3 {
      ReceiveSays(p, packet, cmd);
      var p1 := Receive(p, packet).0;
      var held1 := HeldWith(p, packet);
      FinishTells(p1, BAD_REQUEST, EvParseErr, 0, cmd, held1);
      TellsNothing(p1, p1.(fault := true), cmd, held1);
      UnexpectedTells(p1, cmd, held1);
      SaysTwice(p.events, p1.events, ServerRespond(p, packet, cmd, Read16(packet, 1)).events, cmd);
    }
  }

  // ---- Any packet ----

  lemma OpeningSays(p: Party, packet: seq<byte>)
    requires p.serverMode && p.state.Idle? && p.current.None? && |packet| >= 3
    ensures Says(p.events, ServerOpen(p, packet).events, ClearFinal(packet[0]))
  {
    hide ServerReceive, Deliver, Says, Shows, ServerSays, Received;
    var cmd := ClearFinal(packet[0]);
    var p0 := p.(current := Some(NewObject(p.nextId).(cmd := cmd)), nextId := p.nextId + 1);
    var p1 := Deliver(p0, EvReqHint, cmd, 0, false);
    HintSays(p0, cmd);
    DeliverShows(p0, EvReqHint, cmd, 0);
    if cmd == CONNECT {
      match ParseConnect(p1, packet) {
        case None => EndSays(Respond(p1, BAD_REQUEST), cmd);
        case Some(p2) => ReceivingTells(Opened(p2, 4), packet);
      }
    } else if cmd == SETPATH {
      ReceivingTells(Opened(p1, 2), packet);
    } else {
      ReceivingTells(p1.(state := Receiving, serverMode := true), packet);
    }
    SaysTwice(p.events, p1.events, ServerOpen(p, packet).events, cmd);
  }

  lemma HintSays(p: Party, cmd: nat)
    requires p.serverMode
    ensures Says(p.events, Deliver(p, EvReqHint, cmd, 0, false).events, cmd)
  {
  }

  lemma EndSays(p: Party, cmd: nat)
    requires p.serverMode && p.current.Some?
    ensures Says(p.events, DeliverOwn(p, EvParseErr, 0, true).events, cmd)
  {
  }

  /** Whatever packet comes: each REQHINT, REQCHECK, PROGRESS, REQ and REQDONE event names its
      opcode without the final bit, and what the other events say is settled as well. */
  lemma StepSays(p: Party, packet: seq<byte>)
    requires p.serverMode && |packet| >= 3
    ensures Says(p.events, ServerStep(p, packet).events, ClearFinal(packet[0]))
  {
    hide ServerReceive, ServerRespond, ServerOpen, Says, Shows;
    var cmd := ClearFinal(packet[0]);
    NothingSaid(p.events, cmd);
    match p.state
    case Idle => if p.current.None? { OpeningSays(p, packet); }
    case Receiving => if p.current.Some? { ReceivingTells(p, packet); } else { NoneReceives(p, packet); }
    case Responding => if p.current.Some? { RespondingTells(p, packet); } else { NoneReceives(p, packet); }
    case Starting => StraySays(Respond(p, BAD_REQUEST), cmd);
  }

  lemma NoneReceives(p: Party, packet: seq<byte>)
    requires p.current.None? && |packet| >= 3
    ensures ServerReceive(p, packet).events == p.events
    ensures ServerRespond(p, packet, ClearFinal(packet[0]), Read16(packet, 1)).events == p.events
  {
  }

  lemma StraySays(p: Party, cmd: nat)
    requires p.serverMode
    ensures Says(p.events, Deliver(p, EvParseErr, cmd, 0, true).events, cmd)
  {
  }

  /** At every point of every run at which a handle is a server, whatever packet comes next:
      each REQHINT, REQCHECK, PROGRESS, REQ and REQDONE event names the opcode of that packet
      without its final bit. */
  lemma CommandTheorem(p: Party, inputs: seq<Input>, packet: seq<byte>)
    requires Run(p, inputs).serverMode && |packet| >= 3
    ensures Says(Run(p, inputs).events, Run(p, inputs + [Arrives(packet)]).events, packet[0] % 0x80)
  {
    hide ServerStep, Says;
    var more := inputs + [Arrives(packet)];
    assert more[..|more| - 1] == inputs;
    var before := Run(p, inputs);
    NothingSaid(before.events, packet[0] % 0x80);
    StepSays(before, packet);
  }

  // ---- The headers of a request ----

  /** Taking in a packet, by positions: the octets announced in front of the headers are those
      behind the packet header, and the headers are what follows. */
  lemma PreambleTaken(p: Party, packet: seq<byte>)
    requires p.current.Some? && !p.current.value.rx.streaming && |packet| >= 3 + p.current.value.headerOffset
    ensures var o := p.current.value;
            var n := o.headerOffset;
            var parsed := ParseHeaders(packet[3 + n..], false);
            Receive(p, packet) ==
            (Update(p, o.(headerOffset := 0,
                          rxNonHeader := if n == 0 then o.rxNonHeader else Some(packet[3..3 + n]),
                          rx := StoreAll(o.rx, parsed.headers))),
             parsed.outcome)
  {
    hide AcceptAll, ParseHeaders, StoreAll;
    var n := p.current.value.headerOffset;
    var d := packet[3..];
    assert d[..n] == packet[3..3 + n] && d[n..] == packet[3 + n..];
    AcceptAllStores(TakeNonHeader(p, d), ParseHeaders(packet[3 + n..], false).headers);
  }

  /** And when the packet is shorter than announced: its octets come first, then as many of those
      that the buffer holds behind it. */
  lemma PreambleShort(p: Party, packet: seq<byte>)
    requires p.current.Some? && 3 <= |packet| < 3 + p.current.value.headerOffset <= p.rxRoom
    ensures var n := p.current.value.headerOffset;
            var (p', outcome) := Receive(p, packet);
            && outcome.Clean? && p'.current.Some? && p'.current.value.rx == p.current.value.rx
            && p'.current.value.headerOffset == 0 && p'.events == p.events && p'.current.value.rxNonHeader.Some?
            && var v := p'.current.value.rxNonHeader.value;
            && |v| == n && v[..|packet| - 3] == packet[3..]
            && (p.stale != [] && |p.stale[0]| >= n + 3 - |packet| ==>
                  v[|packet| - 3..] == p.stale[0][..n + 3 - |packet|])
  {
  }

  /** Calls that leave it to the engine where headers start and where bodies go. */
  predicate Plainly(calls: seq<ApiCall>) {
    forall i :: 0 <= i < |calls| ==> !calls[i].SetHeaderOffset? && !calls[i].EnableStream?
  }

  lemma {:induction false} PlainlyKeeps(o: Object, mtuTx: u16, calls: seq<ApiCall>)
    requires Plainly(calls)
    ensures var o' := ApplyAll(o, mtuTx, calls);
            && o'.headerOffset == o.headerOffset && o'.rx.streaming == o.rx.streaming
            && SameHolding(o'.rx, o.rx) && o'.cmd == o.cmd && o'.firstSent == o.firstSent
    decreases |calls|
  {
    hide Received;
    if calls == [] {
    } else {
      ApplyKeeps(o, mtuTx, calls[0]);
      PlainlyKeeps(Apply(o, mtuTx, calls[0]), mtuTx, calls[1..]);
    }
  }

  /** The octets in front of the headers in a packet that opens a request. */
  function Preface(cmd: byte): nat {
    if cmd == 0x00 then 4 else if cmd == 0x05 then 2 else 0
  }

  /** The packet that opens a request of any command but ABORT: the application is told of it
      before anything is taken in, and every event after that shows exactly the packet's headers,
      behind the four octets of a CONNECT or the two of a SETPATH. A packet with the final bit
      that can be read is reported as a request at once. */
  lemma OpeningShown(p: Party, packet: seq<byte>)
    requires p.serverMode && p.state.Idle? && p.current.None? && |packet| >= 3
    requires p.script == [] || Plainly(p.script[0])
    requires var cmd := ClearFinal(packet[0]); cmd != ABORT && |packet| >= 3 + Preface(cmd)
    ensures var cmd := ClearFinal(packet[0]);
            var parsed := ParseHeaders(packet[3 + Preface(cmd)..], false);
            var n, events := |p.events|, ServerStep(p, packet).events;
            && Says(p.events, events, cmd) && |events| > n
            && events[n].kind.EvReqHint? && events[n].received == []
            && (forall i :: n < i < |events| ==> events[i].received == Received(StoreAll(NewRx(), parsed.headers)))
            && (parsed.outcome.Clean? && Final(packet[0]) ==> |events| > n + 1 && events[n + 1].kind.EvReq?)
  {
    hide ServerReceive, Deliver, Says, ParseHeaders, StoreAll, Received;
    var cmd := ClearFinal(packet[0]);
    OpeningSays(p, packet);
    var p1 := Hinted(p, cmd);
    HintedIs(p, cmd);
    var p2 := if cmd == CONNECT then ParseConnect(p1, packet).value else p1;
    assert ServerStep(p, packet) == ServerReceive(Opened(p2, Preface(cmd)), packet) by { SameOpened(p1, cmd); }
    OpenedTells(Opened(p2, Preface(cmd)), packet);
  }

  /** The request announced. */
  function Hinted(p: Party, cmd: byte): Party {
    Deliver(p.(current := Some(NewObject(p.nextId).(cmd := cmd)), nextId := p.nextId + 1), EvReqHint, cmd, 0, false)
  }

  predicate JustMade(p: Party, cmd: byte) {
    && p.serverMode && p.current.Some?
    && var o := p.current.value;
    && o.cmd == cmd && !o.firstSent && !o.rx.streaming && SameHolding(o.rx, NewRx())
  }

  lemma HintedIs(p: Party, cmd: byte)
    requires p.serverMode && (p.script == [] || Plainly(p.script[0]))
    ensures var p1 := Hinted(p, cmd);
            && JustMade(p1, cmd) && p1.current.value.headerOffset == 0
            && |p1.events| == |p.events| + 1 && p.events <= p1.events
            && p1.events[|p.events|].kind.EvReqHint? && p1.events[|p.events|].received == []
  {
    PlainlyKeeps(NewObject(p.nextId).(cmd := cmd), p.mtuTx, if p.script == [] then [] else p.script[0]);
  }

  lemma SameOpened(p: Party, cmd: byte)
    requires p.current.Some? && p.current.value.headerOffset == 0
    ensures Preface(cmd) == 0 ==> Opened(p, 0) == p.(state := Receiving, serverMode := true)
  {
  }

  lemma OpenedTells(p: Party, packet: seq<byte>)
    requires |packet| >= 3 && JustMade(p, ClearFinal(packet[0])) && ClearFinal(packet[0]) != ABORT
    requires |packet| >= 3 + p.current.value.headerOffset
    ensures var parsed := ParseHeaders(packet[3 + p.current.value.headerOffset..], false);
            var p' := ServerReceive(p, packet);
            && Shows(p.events, p'.events, Received(StoreAll(NewRx(), parsed.headers)))
            && (parsed.outcome.Clean? && Final(packet[0]) ==>
                  |p'.events| > |p.events| && p'.events[|p.events|].kind.EvReq?)
  {
    hide ServerReceive, Deliver, Says, ParseHeaders, StoreAll, Received, ServerRequest, Shows, Receive;
    var hs := ParseHeaders(packet[3 + p.current.value.headerOffset..], false).headers;
    ReceivingTells(p, packet);
    PreambleTaken(p, packet);
    SameHoldingStored(p.current.value.rx, NewRx(), hs);
    var p1 := Receive(p, packet).0;
    if Receive(p, packet).1.Clean? && Final(packet[0]) { OpenedReports(p, packet); }
  }

  lemma OpenedReports(p: Party, packet: seq<byte>)
    requires |packet| >= 3 && JustMade(p, ClearFinal(packet[0])) && ClearFinal(packet[0]) != ABORT
    requires Receive(p, packet).1.Clean? && Final(packet[0])
    requires Receive(p, packet).0.events == p.events
    ensures var p' := ServerReceive(p, packet);
            |p'.events| > |p.events| && p'.events[|p.events|].kind.EvReq?
  {
    hide Receive, ServerRequest, Received, Says, Shows;
    ReceiveReceives(p, packet);
    var p1 := Receive(p, packet).0;
    RequestReported(p1, packet, ClearFinal(packet[0]));
  }
}
