/**
 A handle driven through a whole run. Whatever holds of every run of the session model
 therefore holds of the handle as it is updated in place.
 */
module Driver {
  import opened Octets
  import opened Fragmenter
  import opened Framing
  import opened Session
  import opened Lifetime
  import opened Grammar
  import opened Bounds
  import opened Agreement
  import opened Objects
  import opened Engine

  /** The application makes a request and hands it over. */
  method Ask(h: Obex, cmd: byte, calls: seq<ApiCall>)
    requires h.Sound() && h.Housed() && h.Valid() && !h.fault
    modifies h.Repr()
    ensures h.Housed() && h.Valid() && h.home == old(h.home) && (forall o <- h.Repr() :: fresh(o) || o in old(h.Repr()))
    ensures h.View() == Request(old(h.View()), BuildRequest(old(h.View()), cmd, calls))
  {
    hide Request, ApplyAll, NewRequest, Obex.View, Obex.Sound, Obex.Housed, ObexObject.View;
    h.ValidParts();
    var obj := h.ObjectNew(cmd);
    obj.React(h.mtuTx, calls);
    var _ := h.Request(obj);
  }

  /** A whole packet in the receive buffer. If the buffer has to move for it in the same call,
      its first octet is looked up where nothing is allocated any more. */
  method TakePacket(h: Obex, packet: seq<byte>)
    requires h.Sound() && h.Housed() && h.Valid() && !h.fault && |packet| >= 3
    modifies h.Repr()
    ensures h.Housed() && h.Valid() && h.home == old(h.home) && (forall o <- h.Repr() :: fresh(o) || o in old(h.Repr()))
    ensures h.View() == Indicate(old(h.View()), packet)
  {
    hide Obex.View, Obex.Valid, Obex.Sound, Obex.Housed, Obex.Repr, ServerStep, ClientStep;
    h.ValidParts();
    h.HandleParts();
    h.StorageParts();
    var held := |packet| <= Max(3, h.rxMsg.buffer.Length);
    h.Deposit(packet);
    h.StorageParts();
    if held {
      h.Dispatch();
    } else {
      h.Condemn();
    }
  }

  /** One thing that may happen to a handle between two returns to the application. */
  method HandleInput(h: Obex, input: Input)
    requires h.Sound() && h.Housed() && h.Valid() && !h.fault
    modifies h.Repr()
    ensures h.Housed() && h.Valid() && h.home == old(h.home) && (forall o <- h.Repr() :: fresh(o) || o in old(h.Repr()))
    ensures h.View() == Handle(old(h.View()), input)
  {
    hide Obex.View, Obex.Valid, Obex.Sound, Obex.Housed, Indicate, Request, CancelNicely, LinkDown, BuildRequest;
    h.HandleParts();
    match input
    case Begins(size) => h.BeginPacket(size);
    case Arrives(packet) =>
      if |packet| >= 3 {
        TakePacket(h, packet);
      }
    case Asks(cmd, calls) => Ask(h, cmd, calls);
    case Cancels => h.CancelRequest();
    case Breaks => h.LinkLost();
  }

  /** A whole run, which ends when the link is lost. */
  method Drive(h: Obex, inputs: seq<Input>)
    requires h.Housed() && h.Valid()
    modifies h.Repr()
    ensures h.Housed() && h.Valid() && h.home == old(h.home) && (forall o <- h.Repr() :: fresh(o) || o in old(h.Repr()))
    ensures h.View() == Run(old(h.View()), inputs)
  {
    hide Obex.View, Obex.Valid, Obex.Sound, Obex.Housed, Handle, LinkErrorIn;
    var i := 0;
    assert inputs[..0] == [];
    while i < |inputs|
      invariant i <= |inputs| && h.Valid() && h.Housed() && h.home == old(h.home)
      invariant forall o <- h.Repr() :: fresh(o) || o in old(h.Repr())
      invariant h.View() == Run(old(h.View()), inputs[..i])
    {
      assert inputs[..i + 1][..i] == inputs[..i];
      h.HandleParts();
      if !h.fault && !LinkErrorIn(h.events) {
        h.StillGoing();
        HandleInput(h, inputs[i]);
      }
      i := i + 1;
    }
    assert inputs[..i] == inputs;
  }

  /** A new handle, driven through any run, keeps the laws of object lifetime and, as a
      server, the grammar of events. */
  method DriveNew(irda: bool, usb: bool, linkMtu: nat, script: seq<seq<ApiCall>>, feed: seq<StreamCall>,
                  linkFaults: seq<bool>, stale: seq<seq<byte>>, inputs: seq<Input>) returns (h: Obex)
    ensures h.Valid() && h.Housed() && Good(h.View()) && (ServerInputs(inputs) ==> Regular(h.View()))
  {
    hide Obex.Valid, Obex.Repr, Obex.Sound, Obex.Housed, Regular, Run, Life, Settled, LinkErrorIn;
    h := new Obex(irda, usb, linkMtu, script, feed, linkFaults, stale);
    LifetimeTheorem(h.View(), inputs);
    if ServerInputs(inputs) { GrammarTheorem(h.View(), inputs); }
    Drive(h, inputs);
  }

  // ---- The transmit buffer over a whole run ----

  /** A body ends in the middle of one of the packets. */
  predicate EndsEarly(out: seq<seq<byte>>) {
    exists i | 0 <= i < |out| :: |out[i]| >= 3 && !BodyEnds(out[i])
  }

  lemma WithinHome(p: Party, base: Party, held: nat, moved: bool, size: nat)
    requires Tame(p, base) && AllWithin(base.out, size) && base.mtuTx <= size
    requires Sheltered(p, held, moved, size)
    ensures !moved || EndsEarly(p.out)
  {
    hide Tame, BodyEnds;
    TameFits(p, base, size);
    TameGoesOn(p, base);
    assert forall i :: 0 <= i < |base.out| ==> p.out[i] == base.out[i];
  }

  lemma TameGoesOn(p: Party, base: Party)
    requires Tame(p, base)
    ensures base.out <= p.out
  {
    hide Modest, TameObject, TameScript;
  }

  predicate AllWithin(out: seq<seq<byte>>, size: nat) {
    forall i :: 0 <= i < |out| ==> |out[i]| <= size
  }

  /** In a run without a CONNECT or DISCONNECT the transmit buffer stays where it is, so that
      pointers into it stay valid, until the link is lost or a body ends early in a packet. */
  method DriveWithin(h: Obex, inputs: seq<Input>)
    requires h.Valid() && h.Sound() && h.txMsg.buffer == h.home
    requires Tame(h.View(), h.View()) && h.mtuTx <= h.mtuTxMax && AllWithin(h.out, h.mtuTxMax)
    requires forall i :: 0 <= i < |inputs| ==> NeutralInput(inputs[i])
    modifies h.Repr()
    ensures h.Valid() && h.View() == Run(old(h.View()), inputs)
    ensures var p := h.View();
            p.fault || LinkErrorIn(p.events) || EndsEarly(p.out) || h.txMsg.buffer == old(h.txMsg.buffer)
  {
    hide Tame, NeutralInput, Run, LinkErrorIn, EndsEarly, Sheltered, Obex.Sound, Obex.Housed;
    ghost var p := h.View();
    ModestTheorem(p, inputs, p);
    h.HousedNow();
    Drive(h, inputs);
    if !h.fault && !LinkErrorIn(h.events) {
      h.StillGoing();
      h.SoundIs();
      WithinHome(h.View(), p, h.txMsg.TotalSize(), h.txMsg.buffer != h.home, h.home.Length);
    }
  }

  // ---- A handle fed from a byte stream ----

  /** What a call of the input routine makes of the handle, and of its receive buffer. */
  function Indicated(p: Party, out: Indication, room: nat): Party {
    match out
    case LinkLost => LinkDown(p.(rxRoom := room))
    case NeedMore => p.(rxRoom := room)
    case Packet(octets, moved) => if |octets| >= 3 then Indicate(p, octets) else p
  }

  /** The packet handed out, or the one begun, is larger than that. */
  predicate Exceeds(out: Indication, rest: seq<byte>, size: nat) {
    (out.Packet? && |out.octets| > size) || (out.NeedMore? && Wanted(rest) > size)
  }

  lemma MovedExceeds(acc: seq<byte>, incoming: seq<byte>, room: nat, out: Indication, acc': seq<byte>,
                     incoming': seq<byte>, room': nat)
    requires Turn(acc, incoming, room, out, acc', incoming', room') && !out.LinkLost?
    ensures room' != room ==> Exceeds(out, acc', room)
  {
  }

  /** One call of the input routine: reads up to the end of the packet at hand, and dispatches
      it when it is complete. */
  method TakeInput(h: Obex, link: Link) returns (out: Indication)
    requires h.Sound() && h.Housed() && h.Valid() && !h.fault && !link.failed
    requires h.rxMsg.head == 0 && Incomplete(h.rxMsg.Contents())
    modifies h.Repr(), link`incoming, link`recvs, link`failed
    ensures h.Housed() && h.Valid() && h.home == old(h.home)
    ensures forall o <- h.Repr() :: fresh(o) || o in old(h.Repr())
    ensures h.View() == Indicated(old(h.View()), out, h.rxMsg.buffer.Length)
    ensures !link.failed ==>
              && !out.LinkLost? && (!h.fault ==> h.rxMsg.head == 0) && Incomplete(h.rxMsg.Contents())
              && Turn(old(h.rxMsg.Contents()), old(link.incoming), old(h.rxMsg.buffer.Length),
                      out, h.rxMsg.Contents(), link.incoming, h.rxMsg.buffer.Length)
    ensures h.rxMsg.buffer.Length == old(h.rxMsg.buffer.Length) ==> h.rxMsg.buffer == old(h.rxMsg.buffer)
  {
    hide Obex.View, Obex.Valid, Obex.Sound, Obex.Housed, Obex.Repr, ServerStep, ClientStep, LinkDown, Turn,
         Incomplete;
    h.ValidParts();
    h.StorageParts();
    out := h.ReadPacket(link);
    h.ValidParts();
    h.StorageParts();
    h.HandleParts();
    h.LinkApart(link);
    match out
    case LinkLost => h.LinkLost();
    case NeedMore =>
    case Packet(octets, moved) =>
      if moved {
        h.Condemn();
      } else {
        h.Deposit(octets);
        h.LinkApart(link);
        h.Dispatch();
      }
  }

  /** What a call counts as in a run: a packet, or the beginning of one. */
  function InputOf(out: Indication, rest: seq<byte>): Input {
    if out.Packet? then Arrives(out.octets) else Begins(Wanted(rest))
  }

  function Packets(inputs: seq<Input>): seq<seq<byte>> {
    if inputs == [] then []
    else Packets(inputs[..|inputs| - 1]) + if inputs[|inputs| - 1].Arrives? then [inputs[|inputs| - 1].packet] else []
  }

  /** Nothing but packets and their beginnings: each beginning is that of the packet that comes
      next, or of the one still incomplete. */
  ghost predicate Announced(inputs: seq<Input>, rest: seq<byte>) {
    inputs == [] ||
    match inputs[|inputs| - 1]
    case Begins(size) =>
      (size == 3 || (|rest| >= 3 && size == PacketSize(rest))) && Announced(inputs[..|inputs| - 1], rest)
    case Arrives(packet) => Announced(inputs[..|inputs| - 1], packet)
    case _ => false
  }

  lemma {:induction false} AnnouncedLonger(inputs: seq<Input>, rest: seq<byte>, longer: seq<byte>)
    requires Announced(inputs, rest) && rest <= longer
    ensures Announced(inputs, longer)
    decreases |inputs|
  {
    if inputs == [] {
    } else if inputs[|inputs| - 1].Begins? {
      if |rest| >= 3 { assert longer[1] == rest[1] && longer[2] == rest[2]; }
      AnnouncedLonger(inputs[..|inputs| - 1], rest, longer);
    }
  }

  /** The packets taken from the wire so far, the beginning of the next one, and what is left. */
  ghost predicate Taken(acc: seq<byte>, incoming: seq<byte>, packets: seq<seq<byte>>, rest: seq<byte>,
                        unread: seq<byte>)
  {
    && |unread| <= |incoming| && incoming[|incoming| - |unread|..] == unread
    && Split(acc + incoming[..|incoming| - |unread|]) == Frames(packets, rest)
  }

  lemma TakenFirst(acc: seq<byte>, incoming: seq<byte>)
    requires Incomplete(acc)
    ensures Taken(acc, incoming, [], acc, incoming)
  {
    assert incoming[..0] == [] && acc + [] == acc;
  }

  lemma TakenMore(acc: seq<byte>, incoming: seq<byte>, packets: seq<seq<byte>>, rest: seq<byte>, unread: seq<byte>,
                  room: nat, c: Call)
    requires Taken(acc, incoming, packets, rest, unread)
    requires !c.out.LinkLost? && Turn(rest, unread, room, c.out, c.acc, c.incoming, c.room)
    ensures Taken(acc, incoming, packets + HandedOut(c.out), c.acc, c.incoming)
  {
    hide Split, Turn, HandedOut;
    var k := |incoming| - |unread|;
    TurnSplits(acc + incoming[..k], packets, rest, unread, room, c);
    var more := |unread| - |c.incoming|;
    assert incoming[..k] + unread[..more] == incoming[..k + more];
    Associate(acc, incoming[..k], unread[..more]);
    assert incoming[k + more..] == c.incoming;
  }

  /** One more call, as one more input of the run. */
  lemma InputMore(p: Party, inputs: seq<Input>, rest: seq<byte>, unread: seq<byte>, c: Call)
    requires var before := Run(p, inputs); !before.fault && !LinkErrorIn(before.events)
    requires !c.out.LinkLost? && Announced(inputs, rest)
    requires Turn(rest, unread, Run(p, inputs).rxRoom, c.out, c.acc, c.incoming, c.room)
    ensures var more := inputs + [InputOf(c.out, c.acc)];
            && Run(p, more) == Indicated(Run(p, inputs), c.out, c.room)
            && Packets(more) == Packets(inputs) + HandedOut(c.out)
            && Announced(more, c.acc)
  {
    hide Indicate, LinkErrorIn;
    var more := inputs + [InputOf(c.out, c.acc)];
    assert more[..|inputs|] == inputs;
    var whole := if c.out.Packet? then c.out.octets else c.acc;
    Regroup(rest, unread, whole, c.incoming);
    AnnouncedLonger(inputs, rest, whole);
  }

  /** One of the packets, or the one begun, is larger than that. */
  predicate TooLarge(packets: seq<seq<byte>>, rest: seq<byte>, size: nat) {
    (exists i | 0 <= i < |packets| :: |packets[i]| > size) || Wanted(rest) > size
  }

  lemma TooLargeMore(packets: seq<seq<byte>>, rest: seq<byte>, unread: seq<byte>, room: nat, c: Call, size: nat)
    requires !c.out.LinkLost? && Turn(rest, unread, room, c.out, c.acc, c.incoming, c.room)
    requires TooLarge(packets, rest, size) || Exceeds(c.out, c.acc, size)
    ensures TooLarge(packets + HandedOut(c.out), c.acc, size)
  {
    var all := packets + HandedOut(c.out);
    if i :| 0 <= i < |packets| && |packets[i]| > size {
      assert all[i] == packets[i];
    } else {
      var whole := if c.out.Packet? then c.out.octets else c.acc;
      Regroup(rest, unread, whole, c.incoming);
      if |rest| >= 3 { assert whole[1] == rest[1] && whole[2] == rest[2]; }
      if c.out.Packet? { assert all[|packets|] == c.out.octets; }
    }
  }

  /**
   Any number of calls of the input routine. However the octets come in, the handle is where
   a run of exactly the packets on the wire leads, in order, with the beginning of the next
   packet in its buffer; what the cut decides is only which of them were begun in a call
   before. As long as no packet is larger the buffer has not moved.
   */
  method Serve(h: Obex, link: Link, n: nat) returns (ghost inputs: seq<Input>)
    requires h.Housed() && h.Valid() && h.rxMsg.head == 0 && Incomplete(h.rxMsg.Contents()) && !link.failed
    modifies h.Repr(), link`incoming, link`recvs, link`failed
    ensures h.Housed() && h.Valid() && (forall o <- h.Repr() :: fresh(o) || o in old(h.Repr()))
    ensures !link.failed ==>
              && h.View() == Run(old(h.View()), inputs) && Announced(inputs, h.rxMsg.Contents())
              && Taken(old(h.rxMsg.Contents()), old(link.incoming), Packets(inputs), h.rxMsg.Contents(), link.incoming)
              && (h.rxMsg.buffer == old(h.rxMsg.buffer)
                  || TooLarge(Packets(inputs), h.rxMsg.Contents(), old(h.rxMsg.buffer.Length)))
  {
    hide Obex.View, Obex.Valid, Obex.Sound, Obex.Housed, Obex.Repr, Indicated, Turn, Split, Incomplete, LinkErrorIn,
         Run, Taken, TooLarge, Exceeds, Announced, Packets;
    inputs := [];
    var i := 0;
    h.HandleParts();
    TakenFirst(h.rxMsg.Contents(), link.incoming);
    NothingYet(h.View(), h.rxMsg.Contents());
    ghost var p, buf, size := h.View(), h.rxMsg.buffer, h.rxMsg.buffer.Length;
    while i < n && !link.failed
      invariant h.Housed() && h.Valid() && h.rxMsg.Valid() && (forall o <- h.Repr() :: fresh(o) || o in old(h.Repr()))
      invariant !link.failed ==>
                  && (!h.fault ==> h.rxMsg.head == 0) && Incomplete(h.rxMsg.Contents())
                  && h.View() == Run(p, inputs) && Announced(inputs, h.rxMsg.Contents())
                  && Taken(old(h.rxMsg.Contents()), old(link.incoming), Packets(inputs), h.rxMsg.Contents(),
                           link.incoming)
                  && (h.rxMsg.buffer == buf || TooLarge(Packets(inputs), h.rxMsg.Contents(), size))
    {
      h.HandleParts();
      if h.fault || LinkErrorIn(h.events) {
        return;
      }
      h.StillGoing();
      h.ValidParts();
      ghost var rest, unread, room, was, held := h.rxMsg.Contents(), link.incoming, h.rxMsg.buffer.Length, inputs,
                                                 h.rxMsg.buffer;
      var out := TakeInput(h, link);
      h.HandleParts();
      h.ValidParts();
      if !link.failed {
        ghost var c := Call(out, h.rxMsg.Contents(), link.incoming, h.rxMsg.buffer.Length);
        TakenMore(old(h.rxMsg.Contents()), old(link.incoming), Packets(was), rest, unread, room, c);
        InputMore(p, was, rest, unread, c);
        inputs := was + [InputOf(out, c.acc)];
        if h.rxMsg.buffer != buf {
          MovedExceeds(rest, unread, room, out, c.acc, c.incoming, c.room);
          TooLargeMore(Packets(was), rest, unread, room, c, size);
        }
      }
      i := i + 1;
    }
  }

  lemma NothingYet(p: Party, acc: seq<byte>)
    ensures Run(p, []) == p && Announced([], acc) && Packets([]) == []
  {
  }
}
