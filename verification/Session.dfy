/**
 The session engine of one handle, as functions on its whole state. The application is
 a script: its reaction to the n-th event is the n-th list of calls, and its reactions to
 requests for stream data are a feed of their own. The link is a list of write results.
 Whatever the application and the link do is some script, feed and list.
 */
module Session {
  import opened Octets
  import opened Headers
  import opened Fragmenter
  import opened Reassembler
  import opened Framing

  const CONNECT: byte := 0x00
  const DISCONNECT: byte := 0x01
  const PUT: byte := 0x02
  const SETPATH: byte := 0x05
  const ABORT: byte := 0x7f

  const CONTINUE: byte := 0x10
  const SUCCESS: byte := 0x20
  const BAD_REQUEST: byte := 0x40
  const INTERNAL_SERVER_ERROR: byte := 0x50
  const NOT_IMPLEMENTED: byte := 0x51

  const MINIMUM_MTU: u16 := 255
  const DEFAULT_MTU: u16 := 1024
  const MAXIMUM_MTU: u16 := 65535
  const OBEX_VERSION: byte := 0x10

  /** The protocol states; Responding is the server's state of sending a response. */
  datatype State = Idle | Starting | Responding | Receiving

  datatype EventKind =
    | EvProgress | EvReqHint | EvReq | EvReqDone | EvLinkErr | EvParseErr
    | EvAbort | EvStreamEmpty | EvStreamAvail | EvUnexpected | EvReqCheck

  /** An event as the application sees it, with the headers of its object received so far
      and, for stream data, the chunk on offer. */
  datatype Event = Event(kind: EventKind, cmd: nat, rsp: nat, server: bool, id: Option<nat>,
                         received: seq<Header>, chunk: seq<byte>)

  /** The untagged value of a header: the identifier decides which field is used. */
  datatype HeaderData = HeaderData(bq4: u32, bq1: byte, bs: seq<byte>)

  datatype ApiCall =
    | SetResponse(rsp: byte, last: byte)
    | AddHeader(hi: byte, hv: HeaderData, fitOnePacket: bool, streamStart: bool)
    | SetHeaderOffset(offset: nat)
    | SetNonHeaderData(octets: seq<byte>)
    | EnableStream
    | NextHeader
    | ReparseHeaders

  /** A request or response being transferred. */
  datatype Object = Object(
    id: nat, cmd: byte, opcode: byte, lastOpcode: byte,
    txQueue: seq<TxElement>, nonHeader: Option<seq<byte>>, total: nat, stream: Stream,
    rx: Rx, headerOffset: nat, rxNonHeader: Option<seq<byte>>,
    abort: bool, checked: bool, continueReceived: bool, firstSent: bool)

  /** A handle, with the application and link it meets, and the record of what it did. */
  datatype Party = Party(
    state: State, serverMode: bool, current: Option<Object>,
    mtuTx: u16, mtuRx: u16, mtuTxMax: u16, irda: bool, linkMtu: nat,
    rxRoom: nat, txRoom: nat,  // octets allocated for the message received and the one sent
    script: seq<seq<ApiCall>>, feed: seq<StreamCall>, linkFaults: seq<bool>,
    stale: seq<seq<byte>>,  // what the receive buffer happens to hold behind packets that are short
    out: seq<seq<byte>>, events: seq<Event>, released: seq<nat>, nextId: nat,
    fault: bool)  // the C code has left defined behaviour: nothing is said from here on

  // ---- Objects ----

  function NewObject(id: nat): Object {
    Object(id, 0, NOT_IMPLEMENTED, NOT_IMPLEMENTED, [], None, 0, Stream([], false),
           NewRx(), 0, None, false, false, false, false)
  }

  /** What a CONNECT request or response carries before its headers. */
  function ConnectFrame(mtuRx: u16): seq<byte> {
    [OBEX_VERSION, 0] + Big16(mtuRx)
  }

  /** A client's object for a request. */
  function NewRequest(cmd: byte, mtuRx: u16): Object {
    NewObject(0).(cmd := cmd, opcode := cmd, lastOpcode := SetFinal(cmd),
                  nonHeader := if cmd == CONNECT then Some(ConnectFrame(mtuRx)) else None)
  }

  /** A request as an application makes one: created for a command, then given its headers. */
  function BuildRequest(p: Party, cmd: byte, calls: seq<ApiCall>): Object {
    ApplyAll(NewRequest(cmd, p.mtuRx), p.mtuTx, calls)
  }

  function HeaderOf(hi: byte, hv: HeaderData): Header {
    match EncodingOf(hi)
    case FourByte => Header(hi, Big32(hv.bq4))
    case OneByte => Header(hi, [hv.bq1])
    case _ => Header(hi, hv.bs)
  }

  /** The room a new header may take, in unsigned 32-bit arithmetic. */
  function MaxLength(o: Object, mtuTx: u16, fitOnePacket: bool): nat {
    (mtuTx - (if fitOnePacket then o.total else 0) - 3) % 0x1_0000_0000
  }

  predicate Accepts(o: Object, mtuTx: u16, hi: byte, hv: HeaderData, fitOnePacket: bool) {
    (hi == BODY && !fitOnePacket) || EncodedSize(HeaderOf(hi, hv)) <= MaxLength(o, mtuTx, fitOnePacket)
  }

  function AddTo(o: Object, mtuTx: u16, hi: byte, hv: HeaderData, fitOnePacket: bool, streamStart: bool): Object {
    if streamStart then o.(txQueue := o.txQueue + [TxStream])
    else if hi == EMPTY then o.(txQueue := o.txQueue + [TxEmpty])
    else if !Accepts(o, mtuTx, hi, hv, fitOnePacket) then o
    else
      var h := HeaderOf(hi, hv);
      o.(total := o.total + EncodedSize(h),
         txQueue := o.txQueue + [if hi == BODY then TxBody(Encode(h), false) else TxHeader(h)])
  }

  /** Takes the next unread header; it stays on record as read. */
  function Next(rx: Rx): Rx {
    if rx.unread == [] then rx else rx.(unread := rx.unread[1..], read := rx.read + [rx.unread[0]])
  }

  /** Makes all read headers unread again, once all have been read. */
  function Reparse(rx: Rx): Rx {
    if rx.unread != [] then rx else rx.(unread := rx.read, read := [])
  }

  function Apply(o: Object, mtuTx: u16, c: ApiCall): Object {
    match c
    case SetResponse(rsp, last) => o.(opcode := rsp, lastOpcode := last)
    case AddHeader(hi, hv, fitOnePacket, streamStart) => AddTo(o, mtuTx, hi, hv, fitOnePacket, streamStart)
    case SetHeaderOffset(offset) => o.(headerOffset := offset)
    case SetNonHeaderData(octets) => if o.nonHeader.Some? then o else o.(nonHeader := Some(octets))
    case EnableStream => o.(rx := o.rx.(streaming := true))
    case NextHeader => o.(rx := Next(o.rx))
    case ReparseHeaders => o.(rx := Reparse(o.rx))
  }

  function ApplyAll(o: Object, mtuTx: u16, calls: seq<ApiCall>): Object
    decreases |calls|
  {
    if calls == [] then o else ApplyAll(Apply(o, mtuTx, calls[0]), mtuTx, calls[1..])
  }

  // ---- Events ----

  predicate Terminal(kind: EventKind) {
    kind.EvReqDone? || kind.EvLinkErr? || kind.EvParseErr? || kind.EvAbort?
  }

  function IdOf(o: Option<Object>): Option<nat> {
    if o.Some? then Some(o.value.id) else None
  }

  function EventOf(p: Party, kind: EventKind, cmd: nat, rsp: nat): Event {
    Event(kind, cmd, rsp, p.serverMode, IdOf(p.current),
          if p.current.Some? then Received(p.current.value.rx) else [],
          if p.current.Some? && kind.EvStreamAvail? then p.current.value.stream.data else [])
  }

  /** Tells the application, lets it react, and deletes the object if asked to. */
  function Deliver(p: Party, kind: EventKind, cmd: nat, rsp: nat, delete: bool): Party {
    var told := p.(events := p.events + [EventOf(p, kind, cmd, rsp)], script := Tail(p.script));
    var calls := if p.script == [] then [] else p.script[0];
    if p.current.None? then told
    else if delete then told.(current := None, released := p.released + [p.current.value.id])
    else told.(current := Some(ApplyAll(p.current.value, p.mtuTx, calls)))
  }

  /** The same, with the command of the object itself. */
  function DeliverOwn(p: Party, kind: EventKind, rsp: nat, delete: bool): Party
    requires p.current.Some?
  {
    Deliver(p, kind, p.current.value.opcode, rsp, delete)
  }

  function Repeat(e: Event, n: nat): seq<Event> {
    if n == 0 then [] else Repeat(e, n - 1) + [e]
  }

  // ---- Sending ----

  function Transmitted(p: Party): bool {
    p.linkFaults == [] || !p.linkFaults[0]
  }

  /** The buffer grows if the packet, with its three octets in front, needs it. */
  function Transmit(p: Party, packet: seq<byte>): Party {
    p.(linkFaults := Tail(p.linkFaults), txRoom := Max(p.txRoom, |packet|),
       out := if Transmitted(p) then p.out + [packet] else p.out)
  }

  /** A bare response; whether it could be written is not looked at. */
  function Respond(p: Party, rsp: byte): Party {
    Transmit(p, Frame(SetFinal(rsp), []))
  }

  /** Room for headers in one packet, in unsigned 16-bit arithmetic. On IrDA it is cut
      down so that the packet is a whole number of link frames. */
  function Budget(mtuTx: u16, irda: bool, linkMtu: nat): u16 {
    (mtuTx - 3 - (if irda && linkMtu > 0 && mtuTx > linkMtu then mtuTx % linkMtu else 0)) % 0x1_0000
  }

  function TxBudget(p: Party): u16 {
    Budget(p.mtuTx, p.irda, p.linkMtu)
  }

  datatype SendResult = SendError | SendMore | SendDone

  /** The octets in front of the headers are in the buffer already. */
  function TxLimits(p: Party): Limits
    requires p.current.Some?
  {
    var o := p.current.value;
    Limits(p.mtuTx, Monus(p.txRoom, if o.nonHeader.Some? then |o.nonHeader.value| else 0))
  }

  /** The packing of the current object's queue into the next packet. */
  function Packed(p: Party): Packing
    requires p.current.Some?
  {
    Pack(p.current.value.txQueue, TxBudget(p), TxLimits(p), p.current.value.stream, p.feed)
  }

  /** The state after packing: queue and stream advanced, the application asked for data. */
  function AfterPacking(p: Party): Party
    requires p.current.Some?
  {
    var k := Packed(p);
    var o := p.current.value;
    p.(current := Some(o.(txQueue := k.queue, stream := k.stream, nonHeader := None)),
       feed := k.feed,
       events := p.events + Repeat(EventOf(p, EvStreamEmpty, 0, 0), k.asks))
  }

  function PacketOpcode(o: Object, queue: seq<TxElement>, allowFinal: bool, forceFinal: bool): byte {
    if queue != [] then (if forceFinal then SetFinal(o.opcode) else o.opcode)
    else if !allowFinal then SetFinal(o.opcode)
    else SetFinal(o.lastOpcode)
  }

  function PacketPayload(p: Party): seq<byte>
    requires p.current.Some?
  {
    (if p.current.value.nonHeader.Some? then p.current.value.nonHeader.value else []) + EncodeAll(Packed(p).frags)
  }

  /** Packs and transmits one packet of the current object. */
  function SendObject(p: Party, allowFinal: bool, forceFinal: bool): (Party, SendResult)
    requires p.current.Some?
  {
    var k := Packed(p);
    var p1 := AfterPacking(p);
    if k.status.Fault? then (p1.(fault := true), SendError)
    else if k.status.Failed? then (p1, SendError)
    else
      var packet := Frame(PacketOpcode(p.current.value, k.queue, allowFinal, forceFinal), PacketPayload(p));
      (Transmit(p1, packet),
       if !Transmitted(p) then SendError else if k.queue == [] && allowFinal then SendDone else SendMore)
  }

  // ---- Receiving ----

  function StreamChunk(p: Party, chunk: seq<byte>): Party
    requires p.current.Some?
  {
    var o := p.current.value;
    Deliver(p.(current := Some(o.(stream := o.stream.(data := chunk)))), EvStreamAvail, 0, 0, false)
  }

  /** A body fragment handed straight to the application. */
  function ReceiveStream(p: Party, h: Header): Party
    requires p.current.Some?
  {
    var o := p.current.value;
    if h.hi == BODY && h.value == [] then p
    else if o.abort then p.(current := Some(o.(stream := o.stream.(data := h.value))))
    else
      var p1 := StreamChunk(p, h.value);
      if h.hi == END_OF_BODY && h.value != [] then StreamChunk(p1, []) else p1
  }

  function AcceptHeader(p: Party, h: Header): Party
    requires p.current.Some?
  {
    var o := p.current.value;
    if IsBody(h.hi) && o.rx.streaming then ReceiveStream(p, h)
    else p.(current := Some(o.(rx := Store(o.rx, h))))
  }

  function AcceptAll(p: Party, hs: seq<Header>): (p': Party)
    requires p.current.Some?
    ensures p'.current.Some?
    decreases |hs|
  {
    if hs == [] then p else AcceptAll(AcceptHeader(p, hs[0]), hs[1..])
  }

  /** Sets aside the octets that precede the headers, if any were announced. */
  function TakeNonHeader(p: Party, d: seq<byte>): Party
    requires p.current.Some? && p.current.value.headerOffset <= |d|
  {
    var o := p.current.value;
    if o.headerOffset == 0 then p
    else p.(current := Some(o.(headerOffset := 0, rxNonHeader := Some(d[..o.headerOffset]))))
  }

  /** Octets of the receive buffer that no packet has put there. */
  function Stale(stale: seq<byte>, n: nat): (octets: seq<byte>)
    ensures |octets| == n
  {
    seq(n, i requires 0 <= i => if i < |stale| then stale[i] else 0)
  }

  /** When fewer octets have come than were announced, the rest is read from behind the
      packet: from what is left in the buffer, as long as that is large enough. */
  function TakeStale(p: Party, packet: seq<byte>): (Party, Outcome)
    requires p.current.Some? && |packet| < p.current.value.headerOffset + 3
  {
    var o := p.current.value;
    if |packet| < 3 || 3 + o.headerOffset > p.rxRoom then (p, Beyond)
    else
      var behind := Stale(if p.stale == [] then [] else p.stale[0], o.headerOffset + 3 - |packet|);
      (p.(current := Some(o.(headerOffset := 0, rxNonHeader := Some(packet[3..] + behind))), stale := Tail(p.stale)),
       Clean)
  }

  /** Takes in a packet's headers; an outcome other than Clean leaves those before it. */
  function Receive(p: Party, packet: seq<byte>): (Party, Outcome)
    requires p.current.Some?
  {
    var o := p.current.value;
    var d := packet[Min(3, |packet|)..];
    if |d| < o.headerOffset then TakeStale(p, packet)
    else
      var parsed := ParseHeaders(d[o.headerOffset..], o.rx.streaming);
      (AcceptAll(TakeNonHeader(p, d), parsed.headers), parsed.outcome)
  }

  // ---- Connecting ----

  /** Learns the peer's packet size from a CONNECT request or a successful response. */
  function ParseConnect(p: Party, packet: seq<byte>): Option<Party>
    requires |packet| >= 3
  {
    if packet[0] != SetFinal(SUCCESS) && packet[0] != SetFinal(CONNECT) then Some(p)
    else if |packet| < 7 then None
    else Some(p.(mtuTx := if Read16(packet, 5) < p.mtuTxMax then Read16(packet, 5) else p.mtuTxMax))
  }

  // ---- The server ----

  function Update(p: Party, o: Object): Party {
    p.(current := Some(o))
  }

  function ServerIdle(p: Party): Party {
    p.(state := Idle, serverMode := true)
  }

  /** Ends the request: one bare response, then the terminal event. */
  function Finish(p: Party, rsp: byte, kind: EventKind, evRsp: nat): Party {
    if p.current.None? then p.(fault := true)
    else DeliverOwn(ServerIdle(Respond(p, rsp)), kind, evRsp, true)
  }

  function ServerStep(p: Party, packet: seq<byte>): Party
    requires |packet| >= 3
  {
    var cmd := ClearFinal(packet[0]);
    match p.state
    case Idle =>
      if p.current.Some? then Respond(p, INTERNAL_SERVER_ERROR) else ServerOpen(p, packet)
    case Receiving => ServerReceive(p, packet)
    case Responding => ServerRespond(p, packet, cmd, Read16(packet, 1))
    case Starting => Deliver(Respond(p, BAD_REQUEST), EvParseErr, cmd, 0, true)
  }

  /** A new request: the application is told at once, so that it can refuse it or say
      where its headers start. */
  function ServerOpen(p: Party, packet: seq<byte>): Party
    requires |packet| >= 3
  {
    var cmd := ClearFinal(packet[0]);
    var o := NewObject(p.nextId).(cmd := cmd);
    var p1 := Deliver(p.(current := Some(o), nextId := p.nextId + 1), EvReqHint, cmd, 0, false);
    if cmd == CONNECT then
      match ParseConnect(p1, packet)
      case None => DeliverOwn(Respond(p1, BAD_REQUEST), EvParseErr, 0, true)
      case Some(p2) => ServerReceive(Opened(p2, 4), packet)
    else if cmd == SETPATH then ServerReceive(Opened(p1, 2), packet)
    else ServerReceive(p1.(state := Receiving, serverMode := true), packet)
  }

  function Opened(p: Party, offset: nat): Party
    requires p.current.Some?
  {
    Update(p, p.current.value.(headerOffset := offset)).(state := Receiving, serverMode := true)
  }

  function ServerReceive(p: Party, packet: seq<byte>): Party
    requires |packet| >= 3
  {
    var cmd := ClearFinal(packet[0]);
    if p.current.None? then p.(fault := true)
    else if cmd == ABORT then Finish(p, SUCCESS, EvAbort, cmd)
    else if cmd != p.current.value.cmd then Finish(p, BAD_REQUEST, EvParseErr, cmd)
    else
      var (p1, outcome) := Receive(p, packet);
      match outcome
      case Beyond => p1.(fault := true)
      case Broken => Finish(p1, BAD_REQUEST, EvParseErr, 0)
      case Clean =>
        if Final(packet[0]) then ServerRequest(p1, packet, cmd, false) else ServerMore(Checked(p1, cmd), packet, cmd)
  }

  /** Lets the application judge a request by the headers of its first packet. */
  function Checked(p: Party, cmd: byte): (p': Party)
    requires p.current.Some?
    ensures p'.current.Some?
  {
    if p.current.value.checked then p
    else
      var p1 := Deliver(p, EvReqCheck, cmd, 0, false);
      Update(p1, p1.current.value.(checked := true))
  }

  /** Responses 0x1X and 0x2X let the request go on; any other refuses it. */
  predicate Accepting(opcode: byte) {
    ClearFinal(opcode) / 0x10 == 1 || ClearFinal(opcode) / 0x10 == 2
  }

  /** A packet that is not the last: answer it and wait for more, unless refused. */
  function ServerMore(p: Party, packet: seq<byte>, cmd: byte): Party
    requires p.current.Some? && |packet| >= 3
  {
    if !Accepting(p.current.value.opcode) then ServerRequest(p, packet, cmd, true)
    else
      var (p1, sent) := SendObject(p, false, true);
      if p1.fault then p1
      else if sent.SendError? then Deliver(p1, EvLinkErr, cmd, 0, true)
      else Deliver(p1, EvProgress, cmd, 0, false)
  }

  /** The whole request has arrived, or was refused: the application adds its response. The
      packet's headers have been taken in, nothing of it is left. */
  function ServerRequest(p: Party, packet: seq<byte>, cmd: byte, deny: bool): Party
    requires p.current.Some? && |packet| >= 3
  {
    if p.current.value.firstSent then ServerRespond(p, [], cmd, Read16(packet, 1))
    else
      var p1 := if cmd == CONNECT then Update(p, p.current.value.(nonHeader := Some(ConnectFrame(p.mtuRx)))) else p;
      var p2 := if deny then p1 else Deliver(p1, EvReq, cmd, 0, false);
      ServerRespond(p2.(state := Responding, serverMode := true), [], cmd, 3)
  }

  /** Sends the next packet of the response. Headers the client adds meanwhile are kept. */
  function ServerRespond(p: Party, packet: seq<byte>, cmd: byte, length: nat): Party {
    if p.current.None? then p.(fault := true)
    else if cmd == ABORT then Finish(p, SUCCESS, EvAbort, cmd)
    else if length <= 3 then ServerReply(p, cmd)
    else if cmd == CONNECT then Finish(p, BAD_REQUEST, EvParseErr, 0)
    else
      var (p1, outcome) := Receive(p, packet);
      match outcome
      case Beyond => p1.(fault := true)
      case Broken => Finish(p1, BAD_REQUEST, EvParseErr, 0)
      case Clean => ServerReply(DeliverOwn(p1, EvUnexpected, 0, false), cmd)
  }

  function ServerReply(p: Party, cmd: byte): Party
    requires p.current.Some?
  {
    var (p1, sent) := SendObject(Update(p, p.current.value.(continueReceived := true)), true, true);
    if p1.fault then p1
    else
      match sent
      case SendMore =>
        var p2 := Deliver(p1, EvProgress, cmd, 0, false);
        Update(p2, p2.current.value.(firstSent := true, continueReceived := false))
      case SendError => Deliver(p1, EvLinkErr, cmd, 0, true)
      case SendDone =>
        var p2 := if cmd == DISCONNECT then p1.(mtuTx := MINIMUM_MTU) else p1;
        Deliver(ServerIdle(p2), EvReqDone, cmd, 0, true)
  }

  // ---- The client ----

  /** One step of the client; without a packet when a request has just been handed over. */
  function ClientStep(p: Party, packet: Option<seq<byte>>): Party
    requires packet.Some? ==> |packet.value| >= 3
  {
    var rsp := if packet.Some? then ClearFinal(packet.value[0]) else BAD_REQUEST;
    match p.state
    case Responding => ClientBusy(p, packet, rsp)
    case Starting => ClientStart(p, rsp)
    case Receiving => if packet.None? || p.current.None? then p.(fault := true) else ClientReceive(p, packet.value, rsp)
    case Idle => Deliver(p, EvParseErr, rsp, 0, true)
  }

  /** A response in the middle of sending: anything but success or continue ends the
      request, headers in it are kept. No client ever gets into this state. */
  function ClientBusy(p: Party, packet: Option<seq<byte>>, rsp: byte): Party
    requires packet.Some? ==> |packet.value| >= 3
  {
    if p.current.None? then p.(fault := true)
    else if rsp != SUCCESS && rsp != CONTINUE then DeliverOwn(p, EvReqDone, rsp, true)
    else if packet.None? then p.(fault := true)
    else if Read16(packet.value, 1) <= 3 then ClientStart(p, rsp)
    else if p.current.value.opcode == CONNECT then DeliverOwn(ServerIdle(p), EvParseErr, 0, true)
    else
      var (p1, outcome) := Receive(p, packet.value);
      match outcome
      case Beyond => p1.(fault := true)
      case Broken => DeliverOwn(ServerIdle(p1), EvParseErr, 0, true)
      case Clean => ClientStart(DeliverOwn(p1, EvUnexpected, 0, false), rsp)
  }

  function ClientStart(p: Party, rsp: byte): Party {
    if p.current.None? then Deliver(p, EvParseErr, rsp, 0, true)
    else
      var (p1, sent) := SendObject(p, true, false);
      if p1.fault then p1
      else if sent.SendError? then DeliverOwn(p1.(state := Idle, serverMode := false), EvLinkErr, 0, true)
      else
        var p2 := Update(p1, p1.current.value.(firstSent := true));
        DeliverOwn(p2, EvProgress, 0, false).(state := Receiving, serverMode := false)
  }

  function ClientReceive(p: Party, packet: seq<byte>, rsp: byte): Party
    requires |packet| >= 3 && p.current.Some?
  {
    if p.current.value.opcode == CONNECT then
      match ParseConnect(p, packet)
      case None => DeliverOwn(ServerIdle(p), EvParseErr, 0, true)
      case Some(p1) => ClientHeaders(Update(p1, p1.current.value.(headerOffset := 4)), packet, rsp)
    else if p.current.value.opcode == DISCONNECT then ClientHeaders(p.(mtuTx := MINIMUM_MTU), packet, rsp)
    else ClientHeaders(p, packet, rsp)
  }

  function ClientHeaders(p: Party, packet: seq<byte>, rsp: byte): Party
    requires |packet| >= 3 && p.current.Some?
  {
    var (p1, outcome) := Receive(p, packet);
    match outcome
    case Beyond => p1.(fault := true)
    case Broken => DeliverOwn(ServerIdle(p1), EvParseErr, 0, true)
    case Clean => if rsp == CONTINUE then ClientContinue(p1) else ClientDone(p1, rsp)
  }

  /** The server wants more; after an abort its wish is ignored. */
  function ClientContinue(p: Party): Party
    requires p.current.Some?
  {
    var p0 := Update(p, p.current.value.(continueReceived := true));
    if p.current.value.abort then p0
    else
      var (p1, sent) := SendObject(p0, true, false);
      if p1.fault then p1
      else if sent.SendError? then DeliverOwn(p1, EvLinkErr, 0, true)
      else
        var p2 := DeliverOwn(p1, EvProgress, 0, false);
        Update(p2, p2.current.value.(continueReceived := false))
  }

  function ClientDone(p: Party, rsp: byte): Party
    requires p.current.Some?
  {
    DeliverOwn(ServerIdle(p),
               if !p.current.value.abort then EvReqDone else if rsp == SUCCESS then EvAbort else EvLinkErr,
               rsp, true)
  }

  // ---- What can happen to a handle ----

  /** The buffer can hold the packet as it is; none is smaller than a packet header. */
  predicate Holding(p: Party, packet: seq<byte>) {
    |packet| <= Max(3, p.rxRoom)
  }

  /** A packet has arrived. If the buffer had to move in the same call to get the rest of it,
      the final bit is looked up where the packet began, which is no longer allocated. */
  function Indicate(p: Party, packet: seq<byte>): Party
    requires |packet| >= 3
  {
    if p.fault then p
    else if !Holding(p, packet) then p.(fault := true, rxRoom := |packet|)
    else if p.serverMode then ServerStep(p, packet)
    else ClientStep(p, Some(packet))
  }

  /** The beginning of a packet of that size has arrived, and the rest is left to a later
      call: by then the buffer has moved. */
  function Begin(p: Party, size: nat): Party {
    if p.fault then p else p.(rxRoom := Max(p.rxRoom, size))
  }

  /** The application starts a request; a busy handle refuses. */
  function Request(p: Party, o: Object): Party {
    if p.fault || p.current.Some? then p
    else
      ClientStep(p.(current := Some(o.(id := p.nextId)), nextId := p.nextId + 1,
                    state := Starting, serverMode := false), None)
  }

  /** The application cancels with an ABORT packet of its own. */
  function CancelNicely(p: Party): Party {
    if p.fault || p.current.None? then p
    else
      var p1 := Transmit(p, Frame(SetFinal(ABORT), []));
      if !Transmitted(p) then p1
      else Update(p1, p.current.value.(abort := true)).(state := Receiving, serverMode := false)
  }

  /** The link has gone. */
  function LinkDown(p: Party): Party {
    if p.fault then p else Deliver(p, EvLinkErr, 0, 0, true)
  }
}
