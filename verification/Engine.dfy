/**
 The session engine as the library runs it: one handle updated in place. Every method is
 proved to take the handle from one state of the session model to the state the model
 prescribes.
 */
module Engine {
  import opened Octets
  import opened Buffers
  import opened Headers
  import opened Fragmenter
  import opened Reassembler
  import opened Receiving
  import opened Framing
  import opened Messages
  import opened Session
  import opened SessionFacts
  import opened Lifetime
  import opened Sending
  import opened Objects

  /** What is allocated for the message sent is known, and has not moved, or only for a larger
      packet. */
  ghost predicate Sheltered(p: Party, held: nat, moved: bool, size: nat) {
    held == p.txRoom && (!moved || exists i | 0 <= i < |p.out| :: |p.out[i]| > size)
  }

  /** The packet of an object that has gone out. */
  lemma SentSheltered(p: Party, allowFinal: bool, forceFinal: bool, held: nat, moved: bool, moved': bool, size: nat)
    requires p.current.Some? && !SendObject(p, allowFinal, forceFinal).1.SendError?
    requires Sheltered(p, held, moved, size) && (!moved && |PacketPayload(p)| + 3 <= size ==> !moved')
    ensures Sheltered(SendObject(p, allowFinal, forceFinal).0, Max(held, |PacketPayload(p)| + 3), moved', size)
  {
    hide SendObject, PacketPayload, PacketOpcode, Frame;
    SendKeeps(p, allowFinal, forceFinal);
    var p' := SendObject(p, allowFinal, forceFinal).0;
    assert p'.out[|p.out|] == PacketOf(p, allowFinal, forceFinal);
    assert forall i :: 0 <= i < |p.out| ==> p'.out[i] == p.out[i];
    assert |PacketOf(p, allowFinal, forceFinal)| == |PacketPayload(p)| + 3;
  }

  class Obex {
    var state: State
    var serverMode: bool
    var current: ObexObject?
    var mtuTx: u16
    var mtuRx: u16
    var mtuTxMax: u16
    const irda: bool
    const linkMtu: nat
    const txMsg: DataBuffer
    const rxMsg: DataBuffer  // the packet that has arrived
    // the application and the link this handle meets, and what it did
    var script: seq<seq<ApiCall>>
    var feed: seq<StreamCall>
    var linkFaults: seq<bool>
    var stale: seq<seq<byte>>  // what the receive buffer happens to hold behind packets that are short
    var out: seq<seq<byte>>
    var events: seq<Event>
    var released: seq<nat>
    var nextId: nat
    var fault: bool
    ghost var home: array<byte>  // the allocation the transmit buffer was given
    var txRoom: nat  // what is allocated for it, as of the last packet

    ghost function ObjectRepr(): set<object>
      reads this, current, if current == null then null else current.rxBody
    {
      if current == null then {} else var o: ObexObject := current; o.Repr()
    }

    ghost function Repr(): set<object>
      reads this, current, if current == null then null else current.rxBody, txMsg, rxMsg
    {
      {this, txMsg, txMsg.buffer, rxMsg, rxMsg.buffer} + ObjectRepr()
    }

    ghost predicate Valid()
      reads this, current, if current == null then null else current.rxBody, txMsg, rxMsg
    {
      && txMsg.Valid() && rxMsg.Valid() && (current != null ==> current.Valid())
      && txMsg != rxMsg && txMsg.buffer != rxMsg.buffer
      && txMsg !in ObjectRepr() && txMsg.buffer !in ObjectRepr()
      && rxMsg !in ObjectRepr() && rxMsg.buffer !in ObjectRepr()
      && home.Length == mtuTxMax >= MINIMUM_MTU && rxMsg.TotalSize() >= mtuRx >= MINIMUM_MTU
    }

    /** A packet larger than that allocation has been sent. */
    ghost predicate Outgrown()
      reads this`home, this`out
    {
      exists i | 0 <= i < |out| :: |out[i]| > home.Length
    }

    /** What is allocated for the transmit buffer is known, and it has not moved, unless a larger
        packet was sent. */
    ghost predicate Sound()
      reads this`home, this`out, this`txRoom, txMsg
    {
      txMsg.TotalSize() == txRoom && (txMsg.buffer == home || Outgrown())
    }

    /** The same, unless the run is over. */
    ghost predicate Housed()
      reads this`home, this`out, this`txRoom, this`events, this`fault, txMsg
    {
      Sound() || fault || LinkErrorIn(events)
    }

    function ObjectView(): Option<Object>
      requires Valid()
      reads this, current, if current == null then null else current.rxBody,
            if current == null || current.rxBody == null then null else current.rxBody.buffer, txMsg, rxMsg
    {
      if current == null then None else Some(current.View())
    }

    function View(): Party
      requires Valid()
      reads this, current, if current == null then null else current.rxBody,
            if current == null || current.rxBody == null then null else current.rxBody.buffer, txMsg, rxMsg
    {
      Party(state, serverMode, ObjectView(), mtuTx, mtuRx, mtuTxMax, irda, linkMtu,
            rxMsg.buffer.Length, txRoom, script, feed, linkFaults, stale, out, events, released, nextId, fault)
    }

    /** What sending and receiving work on. */
    lemma ValidParts()
      requires Valid()
      ensures txMsg.Valid() && rxMsg.Valid() && txMsg != rxMsg && txMsg.buffer != rxMsg.buffer
      ensures View().feed == feed && View().mtuTx == mtuTx && View().mtuRx == mtuRx && View().stale == stale
      ensures View().txRoom == txRoom && View().rxRoom == rxMsg.buffer.Length == rxMsg.TotalSize() >= MINIMUM_MTU
      ensures View().current.Some? <==> current != null
      ensures current != null ==>
                && current.Valid() && View().current == Some(current.View())
                && current.View().stream == Stream(current.sData, current.sStop)
                && current.View().txQueue == current.txHeaderQ
                && (current.rxBody != null ==> current.rxBody != txMsg && current.rxBody.buffer != txMsg.buffer)
                && (current.rxBody != null ==> current.rxBody != rxMsg && current.rxBody.buffer != rxMsg.buffer)
    {
    }

    /** What receiving looks at besides. */
    lemma ReceivingParts()
      requires Valid()
      ensures current != null ==>
                && rxMsg !in current.BodyRepr() && rxMsg.buffer !in current.BodyRepr()
                && txMsg !in current.BodyRepr() && txMsg.buffer !in current.BodyRepr()
                && current.View().headerOffset == current.headerOffset && current.View().rx.streaming == current.sSrv
    {
    }

    /** What the server and the client decide by. */
    lemma HandleParts()
      requires Valid()
      ensures rxMsg.Valid() && View().state == state && View().serverMode == serverMode && View().fault == fault
      ensures View().events == events
      ensures View().current.Some? <==> current != null
      ensures current != null ==>
                && View().current == Some(current.View())
                && current.View().cmd == current.cmd && current.View().opcode == current.opcode
                && current.View().abort == current.abort && current.View().checked == current.checked
                && current.View().firstSent == current.firstPacketSent
                && current.View().continueReceived == current.continueReceived
    {
    }

    /** What belongs to the handle, and may be changed by it. */
    lemma StorageParts()
      requires Valid()
      ensures this in Repr() && txMsg in Repr() && txMsg.buffer in Repr() && rxMsg in Repr() && rxMsg.buffer in Repr()
      ensures txMsg != rxMsg
      ensures current != null ==> current in Repr() && current.BodyRepr() <= Repr()
    {
    }

    lemma EventOfKind(p: Party, kind: EventKind, cmd: nat, rsp: nat)
      ensures EventOf(p, kind, cmd, rsp).kind == kind
    {
    }

    lemma LinkErrorStays(before: seq<Event>, e: Event)
      ensures LinkErrorIn(before) || e.kind.EvLinkErr? ==> LinkErrorIn(before + [e])
    {
      if i :| 0 <= i < |before| && before[i].kind.EvLinkErr? {
        assert (before + [e])[i] == before[i];
      }
      assert (before + [e])[|before|] == e;
    }

    /** A later record, and a buffer that has moved only for a larger packet. */
    twostate lemma StillSound()
      requires old(Sound()) && home == old(home) && txMsg.TotalSize() == txRoom
      requires old(out) <= out && (old(txMsg.buffer) == home ==> txMsg.buffer == old(txMsg.buffer) || Outgrown())
      ensures Sound()
    {
      if old(Outgrown()) {
        var i :| 0 <= i < |old(out)| && |old(out)[i]| > old(home).Length;
        assert out[i] == old(out)[i];
      }
    }

    /** The same, seen from the state the handle stands for. */
    lemma SoundIs()
      requires Valid()
      ensures Sound() <==> Sheltered(View(), txMsg.TotalSize(), txMsg.buffer != home, home.Length)
      ensures txMsg.buffer == home ==> txMsg.TotalSize() == home.Length
    {
      hide ObexObject.View, ObexObject.Valid;
    }

    /** Unless the run is over. */
    lemma StillGoing()
      requires Housed() && !fault && !LinkErrorIn(events)
      ensures Sound()
    {
    }

    /** A change of the object changes nothing else. */
    twostate lemma ObjectMoved()
      requires old(Valid()) && unchanged(this) && unchanged(txMsg) && unchanged(rxMsg) && current != null
      requires current.Valid() && current.rxBody == old(current.rxBody)
      requires current.rxBody != null ==> unchanged(current.rxBody)
      ensures Valid() && View() == old(View()).(current := Some(current.View()))
    {
    }

    /** Not even when its body has moved to a new buffer. */
    twostate lemma BodyMoved()
      requires old(Valid()) && unchanged(this) && unchanged(txMsg) && unchanged(rxMsg) && current != null
      requires current.Valid() && fresh(current.BodyRepr() - old(current.BodyRepr()))
      ensures Valid() && View() == old(View()).(current := Some(current.View()))
    {
    }

    /** Storage stays the same while the object is the same and the message at most moves. */
    twostate lemma ReprKept()
      requires current == old(current) && (current != null ==> current.rxBody == old(current.rxBody))
      requires current != null && current.rxBody != null ==> current.rxBody.buffer == old(current.rxBody.buffer)
      requires txMsg.buffer == old(txMsg.buffer) || fresh(txMsg.buffer)
      requires rxMsg.buffer == old(rxMsg.buffer)
      ensures forall o <- Repr() :: fresh(o) || o in old(Repr())
    {
    }

    twostate lemma ReprSame()
      requires current == old(current) && (current != null ==> current.rxBody == old(current.rxBody))
      requires current != null && current.rxBody != null ==> current.rxBody.buffer == old(current.rxBody.buffer)
      requires txMsg.buffer == old(txMsg.buffer) && rxMsg.buffer == old(rxMsg.buffer)
      ensures Repr() == old(Repr())
    {
    }

    /** A change of the message, or of the packet, changes nothing else. */
    twostate lemma MessageMoved()
      requires old(Valid()) && unchanged(this) && txMsg.Valid() && rxMsg.Valid()
      requires txMsg.buffer == old(txMsg.buffer) || fresh(txMsg.buffer)
      requires rxMsg.buffer == old(rxMsg.buffer)
      requires current != null ==>
                 && unchanged(current)
                 && (current.rxBody != null ==> unchanged(current.rxBody) && unchanged(current.rxBody.buffer))
      ensures Valid() && View() == old(View())
    {
    }

    /** A new handle; on USB the packet sizes start at the maximum. */
    constructor (irda: bool, usb: bool, linkMtu: nat, script: seq<seq<ApiCall>>, feed: seq<StreamCall>,
                 linkFaults: seq<bool>, stale: seq<seq<byte>>)
      ensures Valid() && fresh(Repr())
      ensures var mtu := if usb then MAXIMUM_MTU else DEFAULT_MTU;
              && View() == Party(Idle, true, None, MINIMUM_MTU, mtu, mtu, irda, linkMtu, mtu, mtu, script, feed,
                                 linkFaults, stale, [], [], [], 0, false)
              && txMsg.TotalSize() == mtu && rxMsg.TotalSize() == mtu && rxMsg.Contents() == []
      ensures Sound() && Housed() && txMsg.buffer == home
    {
      hide DataBuffer.Contents, ObexObject.View, ObexObject.Valid, LinkErrorIn, Outgrown;
      var mtu := if usb then MAXIMUM_MTU else DEFAULT_MTU;
      state, serverMode, current := Idle, true, null;
      mtuTx, mtuRx, mtuTxMax := MINIMUM_MTU, mtu, mtu;
      txMsg := new DataBuffer(mtu);
      rxMsg := new DataBuffer(mtu);
      this.irda, this.linkMtu := irda, linkMtu;
      this.script, this.feed, this.linkFaults, this.stale := script, feed, linkFaults, stale;
      out, events, released, nextId, fault := [], [], [], 0, false;
      new;
      home, txRoom := txMsg.buffer, txMsg.TotalSize();
    }

    /** Puts an event on record; answers what the application will do about it. */
    method Record(kind: EventKind, cmd: nat, rsp: nat) returns (calls: seq<ApiCall>)
      requires Valid()
      modifies this`events, this`script
      ensures Valid() && Repr() == old(Repr())
      ensures (old(Sound()) ==> Sound()) && (old(Sound()) || kind.EvLinkErr? ==> Housed())
      ensures View() == old(View()).(events := old(View()).events + [EventOf(old(View()), kind, cmd, rsp)],
                                     script := Tail(old(View()).script))
      ensures calls == if old(View()).script == [] then [] else old(View()).script[0]
    {
      hide ObexObject.View, EventOf, LinkErrorIn;
      EventOfKind(View(), kind, cmd, rsp);
      LinkErrorStays(events, EventOf(View(), kind, cmd, rsp));
      events := events + [EventOf(View(), kind, cmd, rsp)];
      calls := if script == [] then [] else script[0];
      script := Tail(script);
    }

    /** The object is deleted, if there is one. */
    method Release()
      requires Valid()
      modifies this`released, this`current
      ensures Valid() && current == null && (forall o <- Repr() :: o in old(Repr()))
      ensures var p := old(View());
              View() == if p.current.None? then p
                        else p.(current := None, released := p.released + [p.current.value.id])
    {
      if current != null {
        released := released + [current.id];
      }
      current := null;
    }

    /** Tells the application about an event and lets it react; then deletes the object. */
    method DeliverEvent(kind: EventKind, cmd: nat, rsp: nat, del: bool)
      requires Valid() && (Sound() || kind.EvLinkErr?)
      modifies this, current
      ensures Housed() && Valid() && home == old(home) && (old(Sound()) ==> Sound())
      ensures View() == Deliver(old(View()), kind, cmd, rsp, del)
      ensures current == (if del then null else old(current)) && (forall o <- Repr() :: fresh(o) || o in old(Repr()))
      ensures current != null ==> current.rxBody == old(current.rxBody)
    {
      hide DataBuffer.Contents, ObexObject.View, ObexObject.Valid, Valid, Sound, Housed, View, EventOf, ApplyAll;
      var calls := Record(kind, cmd, rsp);
      ValidParts();
      if del {
        Release();
      } else if current != null {
        label told:
        current.React(mtuTx, calls);
        ObjectMoved@told();
      }
    }

    // ---- Sending ----

    /** Hands the message to the transport. */
    method Write() returns (ok: bool)
      requires Valid()
      modifies this`out, this`linkFaults, this`txRoom
      ensures Valid() && View() == Transmit(old(View()), txMsg.Contents()) && ok == Transmitted(old(View()))
    {
      hide DataBuffer.Contents, DataBuffer.Valid, ObexObject.View;
      txRoom := Max(txRoom, |txMsg.Contents()|);
      ok := linkFaults == [] || !linkFaults[0];
      linkFaults := Tail(linkFaults);
      if ok {
        out := out + [txMsg.Contents()];
      }
    }

    /** Puts the packet header in front of the message and hands it to the transport. */
    method DataRequest(opcode: byte) returns (ok: bool)
      requires Valid()
      modifies this`out, this`linkFaults, this`txRoom, txMsg, txMsg.buffer
      ensures Valid() && (txMsg.buffer == old(txMsg.buffer) || fresh(txMsg.buffer))
      ensures View() == Transmit(old(View()), Frame(opcode, old(txMsg.Contents()))) && ok == Transmitted(old(View()))
      ensures 3 <= old(txMsg.head + txMsg.shared) ==> txMsg.buffer == old(txMsg.buffer)
      ensures txMsg.TotalSize() == old(txMsg.TotalSize()) + Monus(3, old(txMsg.head + txMsg.shared))
    {
      hide *;
      ValidParts();
      PutHeader(txMsg, opcode);
      MessageMoved();
      ok := Write();
    }

    /** A packet of nothing but its header: the buffer always has room for that. */
    method SendBare(opcode: byte) returns (ok: bool)
      requires Sound() && Housed() && Valid()
      modifies this`out, this`linkFaults, this`txRoom, txMsg, txMsg.buffer
      ensures Sound() && Housed() && Valid() && home == old(home)
      ensures (txMsg.buffer == old(txMsg.buffer) || fresh(txMsg.buffer))
      ensures View() == Transmit(old(View()), Frame(opcode, [])) && ok == Transmitted(old(View()))
      ensures forall o <- Repr() :: fresh(o) || o in old(Repr())
    {
      hide DataBuffer.Contents, DataBuffer.Valid, ObexObject.View;
      txMsg.Reuse();
      ok := DataRequest(opcode);
      StillSound();
    }

    method ResponseRequest(rsp: byte)
      requires Sound() && Housed() && Valid()
      modifies this`out, this`linkFaults, this`txRoom, txMsg, txMsg.buffer
      ensures Sound() && Housed() && Valid() && home == old(home)
      ensures (txMsg.buffer == old(txMsg.buffer) || fresh(txMsg.buffer))
      ensures View() == Respond(old(View()), rsp) && (forall o <- Repr() :: fresh(o) || o in old(Repr()))
    {
      hide *;
      RespondIs(View(), rsp);
      var _ := SendBare(SetFinal(rsp));
    }

    lemma RespondIs(p: Party, rsp: byte)
      ensures Respond(p, rsp) == Transmit(p, Frame(SetFinal(rsp), []))
    {
    }

    /** Asks the application for stream data. */
    method AskForData() returns (supplied: bool)
      requires Valid() && current != null
      modifies this`events, this`feed, current`sData, current`sStop
      ensures Valid() && supplied == Supplied(old(feed))
      ensures View() == AskedFor(old(View()))
    {
      hide ObexObject.View, DataBuffer.Contents, EventOf;
      events := events + [EventOf(View(), EvStreamEmpty, 0, 0)];
      supplied := current.TakeStream(feed);
      feed := Tail(feed);
      assert Repeat(EventOf(old(View()), EvStreamEmpty, 0, 0), 0) == [];
    }

    /** Moves what fits of the stream data at hand into the message. */
    method CopyOut(room: nat, ghost size: nat, ghost buf: array<byte>) returns (taken: nat)
      requires Valid() && current != null && Appending(txMsg, size, buf)
      modifies current`sData, txMsg, txMsg.buffer
      ensures Valid() && (txMsg.buffer == old(txMsg.buffer) || fresh(txMsg.buffer)) && Appending(txMsg, size, buf)
      ensures var p := old(View());
              var s := p.current.value.stream;
              && taken == (if room < |s.data| then room else |s.data|)
              && View() == p.(current := Some(p.current.value.(stream := Stream(s.data[taken..], s.stop))))
              && txMsg.Contents() == old(txMsg.Contents()) + s.data[..taken]
    {
      hide *;
      ValidParts();
      taken := if room < |current.sData| then room else |current.sData|;
      Append(txMsg, current.sData[..taken], size, buf);
      MessageMoved();
      label sent:
      ValidParts();
      current.CutStream(taken);
      ObjectMoved@sent();
    }

    /** One turn of copying from the stream. */
    method CopyTurn(room: nat, ghost size: nat, ghost buf: array<byte>) returns (going: bool, ok: bool, taken: nat)
      requires Valid() && current != null && Appending(txMsg, size, buf)
      modifies this`events, this`feed, current`sData, current`sStop, txMsg, txMsg.buffer
      ensures Valid() && (txMsg.buffer == old(txMsg.buffer) || fresh(txMsg.buffer)) && Appending(txMsg, size, buf)
      ensures var p := old(View());
              var f := FillTurn(room, p.current.value.stream, p.feed);
              && View() == WithFill(p, f) && ok == !f.failed && taken == |f.octets|
              && going == FillGoesOn(room, p.current.value.stream, p.feed)
              && txMsg.Contents() == old(txMsg.Contents()) + f.octets
    {
      hide *;
      ValidParts();
      if current.sData == [] {
        TurnAsks(View(), room);
        var supplied := AskForData();
        ValidParts();
        if current.sStop || !supplied {
          return false, current.sStop, 0;
        }
      } else {
        TurnCopies(View(), room);
      }
      taken := CopyOut(room, size, buf);
      going, ok := taken < room, true;
    }

    /** Copies from the stream until the room is used up or there is nothing more. */
    method CopyStream(room: nat, ghost size: nat, ghost buf: array<byte>) returns (ok: bool, actual: nat)
      requires Valid() && current != null && Appending(txMsg, size, buf)
      modifies this`events, this`feed, current`sData, current`sStop, txMsg, txMsg.buffer
      ensures Valid() && (txMsg.buffer == old(txMsg.buffer) || fresh(txMsg.buffer)) && Appending(txMsg, size, buf)
      ensures var p := old(View());
              var f := FillStream(room, p.current.value.stream, p.feed);
              && View() == WithFill(p, f) && ok == !f.failed && actual == |f.octets|
              && txMsg.Contents() == old(txMsg.Contents()) + f.octets
    {
      hide *;
      ValidParts();
      ghost var p, before := View(), txMsg.Contents();
      ghost var whole := FillStream(room, p.current.value.stream, p.feed);
      ghost var done := FillTurn(room, p.current.value.stream, p.feed);
      CopyingStarts(room, p.current.value.stream, p.feed);
      var going, fine, taken := CopyTurn(room, size, buf);
      ValidParts();
      ok, actual := fine, taken;
      while going
        invariant Valid() && txMsg.Valid() && (txMsg.buffer == old(txMsg.buffer) || fresh(txMsg.buffer))
        invariant Appending(txMsg, size, buf)
        invariant View() == WithFill(p, done) && ok == !done.failed && actual == |done.octets|
        invariant txMsg.Contents() == before + done.octets
        invariant Copying(whole, room, done, going)
        decreases |done.feed|, |done.stream.data|, going
      {
        CopyingStep(p, whole, room, done, before);
        CopyingProgress(room, done);
        ghost var turn := FillTurn(room - actual, done.stream, done.feed);
        going, fine, taken := CopyTurn(room - actual, size, buf);
        ValidParts();
        done := JoinFill(done, turn);
        ok, actual := fine, actual + taken;
      }
      CopyingEnds(whole, room, done);
    }

    /** Takes the element at the front off the queue. */
    method Dequeue()
      requires Valid() && current != null && current.txHeaderQ != []
      modifies current`txHeaderQ
      ensures Valid() && View() == Dequeued(old(View()))
    {
      hide DataBuffer.Contents, DataBuffer.Valid, ObexObject.View, ObexObject.Valid, View, Valid;
      ValidParts();
      current.DropFront();
      ObjectMoved();
    }

    /** Completes a fragment of the stream: its header says how much there was, and whether
        it was the last. */
    method CloseFragment(at: nat, copied: nat, ghost size: nat, ghost buf: array<byte>)
      requires Valid() && current != null && current.txHeaderQ != [] && Appending(txMsg, size, buf)
      requires at + 3 <= txMsg.used
      modifies current`txHeaderQ, txMsg.buffer
      ensures Valid() && Appending(txMsg, size, buf)
      ensures var p := old(View());
              var was := old(txMsg.Contents());
              var done := p.current.value.stream.stop && p.current.value.stream.data == [];
              var hi := if done then END_OF_BODY else BODY;
              && View() == (if done then Dequeued(p) else p)
              && txMsg.Contents() == was[..at] + ([hi] + Big16((copied + 3) % 0x1_0000)) + was[at + 3..]
    {
      hide *;
      ValidParts();
      txMsg.UsedIs();
      var hi := BODY;
      if current.sStop && current.sData == [] {
        Dequeue();
        hi := END_OF_BODY;
      }
      ValidParts();
      label sent:
      PutPrefix(txMsg, at, hi, copied + 3, size, buf);
      MessageMoved@sent();
    }

    /** The limits of a packet that has got as far as the message. */
    ghost function LimitsNow(size: nat): Limits
      requires txMsg.Valid()
      reads this`mtuTx, txMsg, txMsg.buffer
    {
      Limits(mtuTx, Monus(size, |txMsg.Contents()|))
    }

    /** Begins a fragment of the stream: room for its header, then what there is to copy. The
        place for the header is lost when the copying makes the buffer move. */
    method OpenFragment(room: nat, ghost size: nat, ghost buf: array<byte>)
      returns (ok: bool, at: nat, copied: nat, moved: bool)
      requires Valid() && current != null && Appending(txMsg, size, buf)
      modifies this`events, this`feed, current`sData, current`sStop, txMsg, txMsg.buffer
      ensures Valid() && (txMsg.buffer == old(txMsg.buffer) || fresh(txMsg.buffer)) && Appending(txMsg, size, buf)
      ensures var p := old(View());
              var f := FillStream(room, p.current.value.stream, p.feed);
              && View() == WithFill(p, f) && ok == !f.failed && copied == |f.octets|
              && (ok ==> moved == Uproots(old(LimitsNow(size)), f))
              && at + 3 <= |txMsg.Contents()|
              && txMsg.Contents()[..at] == old(txMsg.Contents()) && txMsg.Contents()[at + 3..] == f.octets
    {
      hide *;
      ValidParts();
      ghost var lim := LimitsNow(size);
      LimitsAre(size);
      at := ReservePrefix(txMsg, size, buf);
      MessageMoved();
      ValidParts();
      AppendingAnew(txMsg, size, buf);
      var bodyTxh := txMsg.buffer;
      ghost var used, size' := |txMsg.Contents()|, txMsg.TotalSize();
      ghost var f := FillStream(room, View().current.value.stream, View().feed);
      ok, copied := CopyStream(room, size', bodyTxh);
      ValidParts();
      moved := txMsg.buffer != bodyTxh;
      UprootsExactly(lim, f, at, size);
      AppendingUsed(txMsg, size', bodyTxh);
      AppendedSince(txMsg, size, buf, used, size', bodyTxh);
    }

    lemma LimitsAre(size: nat)
      requires txMsg.Valid()
      ensures LimitsNow(size) == Limits(mtuTx, Monus(size, |txMsg.Contents()|))
    {
    }

    /** Sends a fragment of the stream at the front of the queue. */
    method SendStream(left: nat, ghost size: nat, ghost buf: array<byte>) returns (actual: int, moved: bool)
      requires Valid() && current != null && current.txHeaderQ != [] && current.txHeaderQ[0].TxStream? && left >= 3
      requires Appending(txMsg, size, buf)
      modifies this`events, this`feed, current`sData, current`sStop, current`txHeaderQ, txMsg, txMsg.buffer
      ensures Valid() && (txMsg.buffer == old(txMsg.buffer) || fresh(txMsg.buffer)) && Appending(txMsg, size, buf)
      ensures var p := old(View());
              var a := PackStep(p.current.value.txQueue, left, old(LimitsNow(size)), p.current.value.stream, p.feed);
              && View() == WithPacking(p, a)
              && (actual < 0 <==> a.status.Failed?) && moved == a.status.Fault?
              && (!a.status.Failed? && !moved ==>
                    actual == left - a.left && txMsg.Contents() == old(txMsg.Contents()) + EncodeAll(a.frags))
    {
      hide *;
      ValidParts();
      StreamStep(View(), left, LimitsNow(size));
      var ok, at, copied, uprooted := OpenFragment(left - 3, size, buf);
      ValidParts();
      if !ok {
        UprootsNot(old(LimitsNow(size)), FillStream(left - 3, old(View()).current.value.stream, old(View()).feed));
        return -1, false;
      }
      if uprooted {
        return 0, true;
      }
      txMsg.UsedIs();
      CloseFragment(at, copied, size, buf);
      actual, moved := copied + 3, false;
    }

    /** Fragments the body at the front of the queue into the room left. */
    method SendBody(left: nat, ghost size: nat, ghost buf: array<byte>) returns (actual: nat)
      requires Valid() && current != null && current.txHeaderQ != [] && current.txHeaderQ[0].TxBody? && left >= 3
      requires Appending(txMsg, size, buf)
      modifies current`txHeaderQ, txMsg, txMsg.buffer
      ensures Valid() && (txMsg.buffer == old(txMsg.buffer) || fresh(txMsg.buffer)) && Appending(txMsg, size, buf)
      ensures var p := old(View());
              var a := PackStep(p.current.value.txQueue, left, old(LimitsNow(size)), p.current.value.stream, feed);
              && View() == WithPacking(p, a) && actual == left - a.left && !a.status.Fault? && !a.status.Failed?
              && txMsg.Contents() == old(txMsg.Contents()) + EncodeAll(a.frags)
    {
      hide *;
      ValidParts();
      ghost var p := View();
      ghost var lim := LimitsNow(size);
      var fragment, spent := current.CutBody(left, lim, feed);
      BodyStep(p, PackStep(p.current.value.txQueue, left, lim, p.current.value.stream, feed), fragment);
      ObjectMoved();
      ValidParts();
      label cut:
      InsertFragment(txMsg, fragment.hi, fragment.value, size, buf);
      MessageMoved@cut();
      actual := spent;
    }

    /** One turn of the packing loop: the element at the front is sent, cut or left alone. */
    method PackTurn(left: nat, ghost size: nat, ghost buf: array<byte>) returns (left': nat, status: Status)
      requires Valid() && current != null && current.txHeaderQ != [] && Appending(txMsg, size, buf)
      modifies this`events, this`feed, current`sData, current`sStop, current`txHeaderQ, txMsg, txMsg.buffer
      ensures Valid() && (txMsg.buffer == old(txMsg.buffer) || fresh(txMsg.buffer)) && Appending(txMsg, size, buf)
      ensures var p := old(View());
              var a := PackStep(p.current.value.txQueue, left, old(LimitsNow(size)), p.current.value.stream, p.feed);
              && View() == WithPacking(p, a) && status == a.status
              && (!status.Failed? && !status.Fault? ==>
                    left' == a.left && txMsg.Contents() == old(txMsg.Contents()) + EncodeAll(a.frags))
    {
      hide DataBuffer.Contents, DataBuffer.Valid, ObexObject.View, ObexObject.Valid, View, Valid, Appending,
           WithPacking, EncodeAll, Encode, FillStream, LimitsNow;
      ValidParts();
      ghost var p, lim := View(), LimitsNow(size);
      LimitsAre(size);
      match current.txHeaderQ[0]
      case TxStream =>
        if left < 3 {
          NoStep(p, left, lim);
          return left, Fault;
        }
        var actual, moved := SendStream(left, size, buf);
        if actual < 0 {
          return left, Failed;
        }
        if moved {
          return left, Fault;
        }
        return left - actual, Onward(left - actual);
      case TxBody(_, _) =>
        if left < 3 {
          NoStep(p, left, lim);
          return left, Fault;
        }
        var actual := SendBody(left, size, buf);
        return left - actual, Onward(left - actual);
      case TxEmpty =>
        PlainStep(p, left, lim);
        Dequeue();
        return left, Onward(left);
      case TxHeader(h) =>
        PlainStep(p, left, lim);
        left', status := SendHeader(h, left, size, buf);
    }

    /** A header other than a body goes in whole, or waits, or can never be sent. */
    method SendHeader(h: Header, left: nat, ghost size: nat, ghost buf: array<byte>)
      returns (left': nat, status: Status)
      requires Valid() && current != null && current.txHeaderQ != [] && Appending(txMsg, size, buf)
      modifies current`txHeaderQ, txMsg, txMsg.buffer
      ensures Valid() && (txMsg.buffer == old(txMsg.buffer) || fresh(txMsg.buffer)) && Appending(txMsg, size, buf)
      ensures var n := EncodedSize(h);
              if n <= left then
                && View() == Dequeued(old(View())) && txMsg.Contents() == old(txMsg.Contents()) + Encode(h)
                && left' == left - n && status == Onward(left - n)
              else
                && View() == old(View()) && txMsg.Contents() == old(txMsg.Contents())
                && left' == left && status == (if n > mtuTx then Failed else Full)
    {
      hide *;
      ValidParts();
      if EncodedSize(h) <= left {
        Append(txMsg, Encode(h), size, buf);
        MessageMoved();
        Dequeue();
        return left - EncodedSize(h), Onward(left - EncodedSize(h));
      }
      return left, if EncodedSize(h) > mtuTx then Failed else Full;
    }

    /** Takes headers off the queue and puts as many as possible into the message. */
    method PackMessage(ghost size: nat, ghost buf: array<byte>) returns (status: Status)
      requires Valid() && current != null && Appending(txMsg, size, buf) && size == txRoom
      modifies this`events, this`feed, current`sData, current`sStop, current`txHeaderQ, txMsg, txMsg.buffer
      ensures Valid() && (txMsg.buffer == old(txMsg.buffer) || fresh(txMsg.buffer)) && Appending(txMsg, size, buf)
      ensures var k := PackedBehind(old(View()), |old(txMsg.Contents())|);
              && View() == WithPacking(old(View()), k)
              && (status.Fault? <==> k.status.Fault?) && (status.Failed? <==> k.status.Failed?)
              && (!status.Failed? && !status.Fault? ==>
                    txMsg.Contents() == old(txMsg.Contents()) + EncodeAll(k.frags))
    {
      hide *;
      ValidParts();
      ghost var p, before := View(), txMsg.Contents();
      ghost var lim := LimitsBehind(p, |before|);
      ghost var whole, done := PackedBehind(p, |before|), Unpacked(p);
      UnderwayStarts(p, |before|);
      var left := Budget();
      status := More;
      while status.More? && current.txHeaderQ != []
        invariant Valid() && txMsg.Valid() && (txMsg.buffer == old(txMsg.buffer) || fresh(txMsg.buffer))
        invariant Appending(txMsg, size, buf) && mtuTx == p.mtuTx
        invariant View() == WithPacking(p, done) && Underway(whole, lim, done) && status == done.status
        invariant current.txHeaderQ == done.queue
        invariant !status.Failed? && !status.Fault? ==>
                    left == done.left && txMsg.Contents() == before + EncodeAll(done.frags)
        decreases status.More?, |done.queue|, |done.feed|
      {
        UnderwayHolds(p, done);
        UnderwayStep(p, whole, lim, done, before);
        LimitsLeft(p, before, done);
        LimitsAre(size);
        LimitsBehindIs(p, |txMsg.Contents()|);
        ghost var turn := PackStep(done.queue, done.left, After(lim, done), done.stream, done.feed);
        ValidParts();
        left, status := PackTurn(left, size, buf);
        done := Fragmenter.Join(done, turn);
        ValidParts();
        UnderwayHolds(p, done);
      }
      UnderwayEnds(p, whole, lim, done);
    }

    lemma LimitsBehindIs(p: Party, used: nat)
      ensures LimitsBehind(p, used) == Limits(p.mtuTx, Monus(p.txRoom, used))
    {
    }

    /** Room for headers in one packet, in unsigned 16-bit arithmetic. */
    method Budget() returns (left: u16)
      requires Valid()
      ensures left == TxBudget(View())
    {
      left := (mtuTx - 3) % 0x1_0000;
      if irda && linkMtu > 0 && mtuTx > linkMtu {
        left := (left - mtuTx % linkMtu) % 0x1_0000;
      }
    }

    /** Puts the octets that precede the headers into the message, if there are any. */
    method TakeNonHeaderData(ghost size: nat, ghost buf: array<byte>)
      requires Valid() && current != null && Appending(txMsg, size, buf) && txMsg.Contents() == []
      modifies current`txNonHdrData, txMsg, txMsg.buffer
      ensures Valid() && (txMsg.buffer == old(txMsg.buffer) || fresh(txMsg.buffer)) && Appending(txMsg, size, buf)
      ensures View() == Emptied(old(View()))
      ensures txMsg.Contents() == Partial(old(View()).current.value.nonHeader)
    {
      hide DataBuffer.Contents, DataBuffer.Valid, Valid, View, ObjectRepr, Appending;
      ValidParts();
      if current.txNonHdrData.Some? {
        Append(txMsg, current.txNonHdrData.value, size, buf);
        MessageMoved();
        ValidParts();
        label sent:
        current.txNonHdrData := None;
        ObjectMoved@sent();
      } else {
        assert View().current.value.nonHeader == None;
      }
    }

    method Condemn()
      requires Valid()
      modifies this`fault
      ensures Housed() && Valid() && home == old(home)
      ensures Repr() == old(Repr()) && View() == old(View()).(fault := true)
    {
      fault := true;
    }

    /** Decides which opcode to use, and whether this is the last packet. */
    method ChooseOpcode(allowFinal: bool, forceFinal: bool) returns (opcode: byte, finished: bool)
      requires Valid() && current != null
      ensures var o := View().current.value;
              && opcode == PacketOpcode(o, o.txQueue, allowFinal, forceFinal)
              && finished == (o.txQueue == [] && allowFinal)
    {
      if current.txHeaderQ != [] {
        opcode := if forceFinal then SetFinal(current.opcode) else current.opcode;
        finished := false;
      } else if !allowFinal {
        opcode, finished := SetFinal(current.opcode), false;
      } else {
        opcode, finished := SetFinal(current.lastOpcode), true;
      }
    }

    /** Puts a whole packet together: the non-header octets, then as many headers as fit. */
    method BuildPacket(ghost size: nat, ghost buf: array<byte>) returns (status: Status)
      requires Valid() && current != null && size == txMsg.TotalSize() == txRoom && buf == txMsg.buffer
      modifies this`events, this`feed
      modifies current`sData, current`sStop, current`txHeaderQ, current`txNonHdrData, txMsg, txMsg.buffer
      ensures Valid() && (txMsg.buffer == old(txMsg.buffer) || fresh(txMsg.buffer)) && Appending(txMsg, size, buf)
      ensures var p := Emptied(old(View()));
              var first := Partial(old(View()).current.value.nonHeader);
              var k := PackedBehind(p, |first|);
              && View() == WithPacking(p, k)
              && (status.Fault? <==> k.status.Fault?) && (status.Failed? <==> k.status.Failed?)
              && (!status.Failed? && !status.Fault? ==> txMsg.Contents() == first + EncodeAll(k.frags))
    {
      hide *;
      ValidParts();
      StartMessage(txMsg);
      MessageMoved();
      TakeNonHeaderData(size, buf);
      status := PackMessage(size, buf);
    }

    /** Transmits the packet that has been put together. */
    method SendPacket(allowFinal: bool, forceFinal: bool, ghost size: nat, ghost buf: array<byte>)
      returns (sent: SendResult)
      requires Valid() && current != null && Appending(txMsg, size, buf)
      modifies this`out, this`linkFaults, this`txRoom, txMsg, txMsg.buffer
      ensures Valid() && (txMsg.buffer == old(txMsg.buffer) || fresh(txMsg.buffer))
      ensures |old(txMsg.Contents())| + 3 <= size ==> txMsg.buffer == buf
      ensures txMsg.TotalSize() == Max(size, |old(txMsg.Contents())| + 3)
      ensures var p := old(View());
              var o := p.current.value;
              && View() == Transmit(p, Frame(PacketOpcode(o, o.txQueue, allowFinal, forceFinal), old(txMsg.Contents())))
              && sent == (if !Transmitted(p) then SendError
                          else if o.txQueue == [] && allowFinal then SendDone else SendMore)
    {
      hide *;
      ValidParts();
      RoomOfHeader(txMsg, size, buf);
      if |txMsg.Contents()| + 3 <= size {
        RoomForHeader(txMsg, size, buf);
      }
      var opcode, finished := ChooseOpcode(allowFinal, forceFinal);
      var ok := DataRequest(opcode);
      sent := if !ok then SendError else if finished then SendDone else SendMore;
    }

    /** Packs one packet of the current object and hands it to the transport. The transmit
        buffer grows only for a packet larger than itself. */
    method SendMessage(allowFinal: bool, forceFinal: bool) returns (sent: SendResult)
      requires Valid() && current != null && txMsg.TotalSize() == txRoom
      modifies this`events, this`feed, this`out, this`linkFaults, this`fault, this`txRoom
      modifies current`sData, current`sStop, current`txHeaderQ, current`txNonHdrData, txMsg, txMsg.buffer
      ensures Valid() && (forall o <- Repr() :: fresh(o) || o in old(Repr()))
      ensures (View(), sent) == SendObject(old(View()), allowFinal, forceFinal)
      ensures !sent.SendError? ==> txMsg.TotalSize() == Max(old(txMsg.TotalSize()), |PacketPayload(old(View()))| + 3)
      ensures !sent.SendError? && |PacketPayload(old(View()))| + 3 <= old(txMsg.TotalSize()) ==>
                txMsg.buffer == old(txMsg.buffer)
    {
      hide *;
      ValidParts();
      SendWhole(View(), allowFinal, forceFinal);
      ghost var size, buf := txMsg.TotalSize(), txMsg.buffer;
      var status := BuildPacket(size, buf);
      ValidParts();
      if status.Fault? {
        Condemn();
        sent := SendError;
      } else if status.Failed? {
        sent := SendError;
      } else {
        sent := SendPacket(allowFinal, forceFinal, size, buf);
      }
      ReprKept();
    }

    /** Packs and transmits one packet of the current object: the buffer stays where it is,
        unless the packet is larger or could not be sent. */
    method ObjectSend(allowFinal: bool, forceFinal: bool) returns (sent: SendResult)
      requires Sound() && Housed() && Valid() && current != null
      modifies this`events, this`feed, this`out, this`linkFaults, this`fault, this`txRoom
      modifies current`sData, current`sStop, current`txHeaderQ, current`txNonHdrData, txMsg, txMsg.buffer
      ensures Valid() && (forall o <- Repr() :: fresh(o) || o in old(Repr()))
      ensures (View(), sent) == SendObject(old(View()), allowFinal, forceFinal)
      ensures !sent.SendError? && |PacketPayload(old(View()))| + 3 <= old(txMsg.TotalSize()) ==>
                txMsg.buffer == old(txMsg.buffer)
      ensures !sent.SendError? ==> Sound()
      ensures fault || !sent.SendError? ==> Housed()
    {
      hide *;
      ValidParts();
      SoundIs();
      SoundSize();
      ghost var p, held, moved := View(), txMsg.TotalSize(), txMsg.buffer != home;
      sent := SendMessage(allowFinal, forceFinal);
      if !sent.SendError? {
        SentSheltered(p, allowFinal, forceFinal, held, moved, txMsg.buffer != home, home.Length);
        SoundIs();
      }
      HousedNow();
    }

    lemma SoundSize()
      requires Sound()
      ensures txMsg.TotalSize() == txRoom
    {
    }

    lemma HousedNow()
      ensures Sound() || fault ==> Housed()
    {
    }

    // ---- Receiving ----

    /** Hands a chunk of a streamed body to the application. */
    method OfferChunk(chunk: seq<byte>)
      requires Sound() && Housed() && Valid() && current != null
      modifies this, current
      ensures Sound() && Housed() && Valid() && home == old(home)
      ensures current == old(current) && current.rxBody == old(current.rxBody)
      ensures View() == StreamChunk(old(View()), chunk)
    {
      hide DataBuffer.Contents, DataBuffer.Valid, Valid, Sound, Housed, View, ObjectRepr, Deliver;
      ValidParts();
      ReceivingParts();
      current.sData := chunk;
      ObjectMoved();
      DeliverEvent(EvStreamAvail, 0, 0, false);
    }

    /** A fragment of a streamed body; an empty one in the middle is not worth an event. */
    method ReceiveStreamed(h: Header)
      requires Sound() && Housed() && Valid() && current != null
      modifies this, current
      ensures Sound() && Housed() && Valid() && home == old(home)
      ensures current == old(current) && current.rxBody == old(current.rxBody)
      ensures View() == ReceiveStream(old(View()), h)
    {
      hide DataBuffer.Contents, DataBuffer.Valid, Valid, Sound, Housed, View, ObjectRepr, Deliver, StreamChunk;
      ValidParts();
      ReceivingParts();
      if h.hi == BODY && h.value == [] {
        return;
      }
      if current.abort {
        current.sData := h.value;
        ObjectMoved();
        return;
      }
      OfferChunk(h.value);
      if h.hi == END_OF_BODY && h.value != [] {
        OfferChunk([]);
      }
    }

    /** Accepts one header of the packet that has arrived. */
    method AcceptOne(h: Header)
      requires Sound() && Housed() && Valid() && current != null
      modifies this, current, current.BodyRepr()
      ensures Sound() && Housed() && Valid() && home == old(home)
      ensures current == old(current) && fresh(current.BodyRepr() - old(current.BodyRepr()))
      ensures View() == AcceptHeader(old(View()), h)
    {
      hide DataBuffer.Contents, DataBuffer.Valid, Valid, Sound, Housed, View, ObjectRepr, Deliver, StreamChunk,
           ReceiveStream, Store;
      ValidParts();
      ReceivingParts();
      if IsBody(h.hi) && current.sSrv {
        ReceiveStreamed(h);
      } else if IsBody(h.hi) {
        current.ReceiveBody(h.hi, h.value);
        BodyMoved();
      } else {
        current.ReceiveHeader(h);
        ObjectMoved();
      }
    }

    /** Drops octets from the front of the packet that has arrived. */
    method Pull(count: nat)
      requires Valid()
      modifies rxMsg
      ensures Valid() && View() == old(View()) && rxMsg.buffer == old(rxMsg.buffer)
      ensures var d := old(rxMsg.Contents()); rxMsg.Contents() == d[if count < |d| then count else |d|..]
      ensures |rxMsg.Contents()| <= |old(rxMsg.Contents())|
    {
      hide DataBuffer.Contents, DataBuffer.Valid, ObexObject.View, Valid, View;
      ValidParts();
      ReceivingParts();
      rxMsg.UsedIs();
      rxMsg.RemoveBegin(count);
      MessageMoved();
    }

    /** Sets aside the octets that precede the headers, if any were announced. */
    method TakeNonHeaderOctets()
      requires Valid() && current != null && current.headerOffset <= |rxMsg.Contents()|
      modifies current`rxNonHdrData, current`headerOffset, rxMsg
      ensures Valid() && current.BodyRepr() == old(current.BodyRepr()) && rxMsg.buffer == old(rxMsg.buffer)
      ensures var p := old(View());
              var o := p.current.value;
              var d := old(rxMsg.Contents());
              && (o.headerOffset == 0 ==> View() == p && rxMsg.Contents() == d)
              && (o.headerOffset != 0 ==>
                    && rxMsg.Contents() == d[o.headerOffset..]
                    && View() == p.(current := Some(o.(headerOffset := 0, rxNonHeader := Some(d[..o.headerOffset])))))
    {
      hide DataBuffer.Contents, DataBuffer.Valid, Valid, View;
      ValidParts();
      ReceivingParts();
      var offset := current.headerOffset;
      if offset != 0 {
        current.SetNonHeader(rxMsg.Contents()[..offset]);
        ObjectMoved();
        Pull(offset);
      }
    }

    /** Fewer octets have come than were announced: the rest is read from behind them. */
    method TakeStaleOctets(length: nat, ghost packet: seq<byte>) returns (outcome: Outcome)
      requires Valid() && current != null && length == |packet| < current.headerOffset + 3
      requires rxMsg.Contents() == packet[if length < 3 then length else 3..]
      modifies this`stale, current`rxNonHdrData, current`headerOffset, rxMsg
      ensures Valid() && current.BodyRepr() == old(current.BodyRepr()) && rxMsg.buffer == old(rxMsg.buffer)
      ensures (View(), outcome) == TakeStale(old(View()), packet)
      ensures outcome.Clean? ==> rxMsg.Contents() == []
    {
      hide DataBuffer.Contents, DataBuffer.Valid, Valid, View;
      ValidParts();
      ReceivingParts();
      var offset := current.headerOffset;
      if length < 3 || 3 + offset > rxMsg.buffer.Length {
        return Beyond;
      }
      var behind := Stale(if stale == [] then [] else stale[0], offset + 3 - length);
      current.SetNonHeader(rxMsg.Contents() + behind);
      ObjectMoved();
      ForgetStale();
      Pull(offset);
      outcome := Clean;
    }

    method ForgetStale()
      requires Valid()
      modifies this`stale
      ensures Valid() && View() == old(View()).(stale := Tail(old(View()).stale))
    {
      hide DataBuffer.Contents, ObexObject.View;
      stale := Tail(stale);
    }

    /** Accepts the header at the front of the packet, and drops its octets. */
    method AcceptFrom(h: Header, size: nat)
      requires Sound() && Housed() && Valid() && current != null && size <= |rxMsg.Contents()|
      modifies this, current, current.BodyRepr(), rxMsg
      ensures Sound() && Housed() && Valid() && home == old(home)
      ensures current == old(current) && fresh(current.BodyRepr() - old(current.BodyRepr()))
      ensures rxMsg.buffer == old(rxMsg.buffer)
      ensures View() == AcceptHeader(old(View()), h) && rxMsg.Contents() == old(rxMsg.Contents())[size..]
    {
      hide DataBuffer.Contents, DataBuffer.Valid, ObexObject.View, ObexObject.Valid, Valid, Sound, Housed, View,
           AcceptHeader;
      ValidParts();
      ReceivingParts();
      AcceptOne(h);
      ValidParts();
      ReceivingParts();
      Pull(size);
    }

    /** Accepts the headers of the packet, up to the first that cannot be accepted. */
    method ReceiveHeaders() returns (outcome: Outcome)
      requires Sound() && Housed() && Valid() && current != null
      modifies this, current, current.BodyRepr(), rxMsg
      ensures Sound() && Housed() && Valid() && home == old(home)
      ensures current == old(current) && fresh(current.BodyRepr() - old(current.BodyRepr()))
      ensures rxMsg.buffer == old(rxMsg.buffer) && (outcome.Clean? ==> rxMsg.Contents() == [])
      ensures (View(), outcome) == Accepted(old(View()), old(rxMsg.Contents()))
    {
      hide DataBuffer.Contents, DataBuffer.Valid, ObexObject.View, ObexObject.Valid, Valid, Sound, Housed, View,
           Accepted, AcceptHeader, ScanHeader;
      ValidParts();
      ReceivingParts();
      while rxMsg.Contents() != []
        invariant Valid() && rxMsg.Valid() && current == old(current) && View().current.Some?
        invariant Sound() && Housed() && home == old(home) && rxMsg.buffer == old(rxMsg.buffer)
        invariant fresh(current.BodyRepr() - old(current.BodyRepr()))
        invariant Accepted(old(View()), old(rxMsg.Contents())) == Accepted(View(), rxMsg.Contents())
        decreases |rxMsg.Contents()|
      {
        AcceptedStep(View(), rxMsg.Contents());
        ValidParts();
        ReceivingParts();
        match ScanHeader(rxMsg.Contents(), current.sSrv)
        case Malformed => return Broken;
        case OutOfBounds => return Beyond;
        case Found(h, size) =>
          AcceptFrom(h, size);
          ValidParts();
          ReceivingParts();
      }
      AcceptedNothing(View());
      outcome := Clean;
    }

    /** Takes in a packet: its header, the octets announced, and all its headers. */
    method ObjectReceive() returns (outcome: Outcome)
      requires Sound() && Housed() && Valid() && current != null
      modifies this, current, current.BodyRepr(), rxMsg
      ensures Sound() && Housed() && Valid() && home == old(home)
      ensures current == old(current) && (forall o <- Repr() :: fresh(o) || o in old(Repr()))
      ensures (View(), outcome) == Receive(old(View()), old(rxMsg.Contents()))
      ensures rxMsg.buffer == old(rxMsg.buffer) && (outcome.Clean? ==> rxMsg.Contents() == [])
    {
      hide DataBuffer.Contents, DataBuffer.Valid, ObexObject.View, ObexObject.Valid, Valid, Sound, Housed, View,
           Accepted, Receive;
      ValidParts();
      ReceivingParts();
      ReceiveWhole(View(), rxMsg.Contents());
      var length := |rxMsg.Contents()|;
      ghost var packet := rxMsg.Contents();
      Pull(3);
      ValidParts();
      ReceivingParts();
      if |rxMsg.Contents()| < current.headerOffset {
        outcome := TakeStaleOctets(length, packet);
        return;
      }
      TakeNonHeaderOctets();
      outcome := ReceiveHeaders();
    }

    // ---- Changes of single fields ----

    method Enter(st: State, srv: bool)
      requires Valid()
      modifies this`state, this`serverMode
      ensures Valid() && Repr() == old(Repr()) && View() == old(View()).(state := st, serverMode := srv)
    {
      state, serverMode := st, srv;
    }

    method ResetMtu()
      requires Valid()
      modifies this`mtuTx
      ensures Valid() && Repr() == old(Repr()) && View() == old(View()).(mtuTx := MINIMUM_MTU)
    {
      mtuTx := MINIMUM_MTU;
    }

    method SetChecked()
      requires Valid() && current != null
      modifies current`checked
      ensures Valid() && Repr() == old(Repr())
      ensures View() == Update(old(View()), old(View()).current.value.(checked := true))
    {
      hide DataBuffer.Contents;
      current.checked := true;
    }

    method SetProgress(firstSent: bool, continueReceived: bool)
      requires Valid() && current != null
      modifies current`firstPacketSent, current`continueReceived
      ensures Valid() && Repr() == old(Repr())
      ensures View() == Update(old(View()), old(View()).current.value.(firstSent := firstSent,
                                                                     continueReceived := continueReceived))
    {
      hide DataBuffer.Contents;
      current.firstPacketSent, current.continueReceived := firstSent, continueReceived;
    }

    method SetHeaderOffset(offset: nat)
      requires Valid() && current != null
      modifies current`headerOffset
      ensures Valid() && Repr() == old(Repr())
      ensures View() == Update(old(View()), old(View()).current.value.(headerOffset := offset))
    {
      hide DataBuffer.Contents;
      current.headerOffset := offset;
    }

    /** Adds what a CONNECT carries before its headers. */
    method InsertConnectFrame()
      requires Valid() && current != null
      modifies current`txNonHdrData
      ensures Valid() && Repr() == old(Repr())
      ensures var p := old(View());
              View() == Update(p, p.current.value.(nonHeader := Some(ConnectFrame(p.mtuRx))))
    {
      hide DataBuffer.Contents;
      current.txNonHdrData := Some([OBEX_VERSION, 0] + Big16(mtuRx));
    }

    /** Learns the peer's packet size from a CONNECT request or a successful response. */
    method ParseConnectHeader() returns (ok: bool)
      requires Valid() && |rxMsg.Contents()| >= 3
      modifies this`mtuTx
      ensures Valid() && Repr() == old(Repr())
      ensures var r := ParseConnect(old(View()), rxMsg.Contents());
              ok == r.Some? && View() == if r.Some? then r.value else old(View())
    {
      hide DataBuffer.Contents;
      var d := rxMsg.Contents();
      if d[0] != SetFinal(SUCCESS) && d[0] != SetFinal(CONNECT) {
        return true;
      }
      if |d| < 7 {
        return false;
      }
      var mtu := Read16(d, 5);
      mtuTx := if mtu < mtuTxMax then mtu else mtuTxMax;
      ok := true;
    }

    // ---- The server ----

    /** Ends the request: one bare response, then the terminal event. */
    method Finish(rsp: byte, kind: EventKind, evRsp: nat)
      requires Sound() && Housed() && Valid()
      modifies Repr()
      ensures Housed() && Valid() && home == old(home) && rxMsg.buffer == old(rxMsg.buffer)
      ensures forall o <- Repr() :: fresh(o) || o in old(Repr())
      ensures View() == Session.Finish(old(View()), rsp, kind, evRsp)
    {
      hide DataBuffer.Contents, DataBuffer.Valid, ObexObject.View, ObexObject.Valid, Valid, Sound, Housed, View, Repr,
           ObjectRepr, Deliver, SendObject, Receive, Respond;
      HandleParts();
      StorageParts();
      if current == null {
        Condemn();
        return;
      }
      ResponseRequest(rsp);
      Enter(Idle, true);
      HandleParts();
      DeliverEvent(kind, current.opcode, evRsp, true);
    }

    /** The whole response has been sent. */
    method ResponseSent(cmd: byte)
      requires Sound() && Housed() && Valid()
      modifies Repr()
      ensures Sound() && Housed() && Valid() && home == old(home) && rxMsg.buffer == old(rxMsg.buffer)
      ensures forall o <- Repr() :: fresh(o) || o in old(Repr())
      ensures var p := old(View());
              View() == Deliver(ServerIdle(if cmd == DISCONNECT then p.(mtuTx := MINIMUM_MTU) else p),
                                EvReqDone, cmd, 0, true)
    {
      hide DataBuffer.Contents, DataBuffer.Valid, ObexObject.View, ObexObject.Valid, Valid, Sound, Housed, View, Repr,
           ObjectRepr, Deliver;
      StorageParts();
      if cmd == DISCONNECT {
        ResetMtu();
      }
      Enter(Idle, true);
      DeliverEvent(EvReqDone, cmd, 0, true);
    }

    method ServerReply(cmd: byte)
      requires Sound() && Housed() && Valid() && current != null
      modifies Repr()
      ensures Housed() && Valid() && home == old(home) && rxMsg.buffer == old(rxMsg.buffer)
      ensures forall o <- Repr() :: fresh(o) || o in old(Repr())
      ensures View() == Session.ServerReply(old(View()), cmd)
    {
      hide DataBuffer.Contents, DataBuffer.Valid, ObexObject.View, ObexObject.Valid, Valid, Sound, Housed, View, Repr,
           ObjectRepr, Deliver, SendObject, Receive, Respond;
      HandleParts();
      StorageParts();
      SetProgress(current.firstPacketSent, true);
      var sent := ObjectSend(true, true);
      HandleParts();
      if fault {
        return;
      }
      match sent
      case SendMore =>
        DeliverEvent(EvProgress, cmd, 0, false);
        HandleParts();
        SetProgress(true, false);
      case SendError => DeliverEvent(EvLinkErr, cmd, 0, true);
      case SendDone => ResponseSent(cmd);
    }

    method ServerRespond(cmd: byte, length: nat)
      requires Sound() && Housed() && Valid()
      modifies Repr()
      ensures Housed() && Valid() && home == old(home) && rxMsg.buffer == old(rxMsg.buffer)
      ensures forall o <- Repr() :: fresh(o) || o in old(Repr())
      ensures View() == Session.ServerRespond(old(View()), old(rxMsg.Contents()), cmd, length)
    {
      hide DataBuffer.Contents, DataBuffer.Valid, ObexObject.View, ObexObject.Valid, Valid, Sound, Housed, View, Repr,
           ObjectRepr, Deliver, SendObject, Receive, Respond, Session.Finish, Session.ServerReply;
      HandleParts();
      StorageParts();
      if current == null {
        Condemn();
      } else if cmd == ABORT {
        Finish(SUCCESS, EvAbort, cmd);
      } else if length <= 3 {
        ServerReply(cmd);
      } else if cmd == CONNECT {
        Finish(BAD_REQUEST, EvParseErr, 0);
      } else {
        var outcome := ObjectReceive();
        match outcome
        case Beyond => Condemn();
        case Broken => Finish(BAD_REQUEST, EvParseErr, 0);
        case Clean =>
          HandleParts();
          DeliverEvent(EvUnexpected, current.opcode, 0, false);
          ServerReply(cmd);
      }
    }

    /** The whole request has arrived, or was refused. */
    method ServerRequest(cmd: byte, length: nat, deny: bool, ghost packet: seq<byte>)
      requires Sound() && Housed() && Valid() && current != null && rxMsg.Contents() == []
      requires |packet| >= 3 && length == Read16(packet, 1)
      modifies Repr()
      ensures Housed() && Valid() && home == old(home) && rxMsg.buffer == old(rxMsg.buffer)
      ensures forall o <- Repr() :: fresh(o) || o in old(Repr())
      ensures View() == Session.ServerRequest(old(View()), packet, cmd, deny)
    {
      hide DataBuffer.Contents, DataBuffer.Valid, ObexObject.View, ObexObject.Valid, Valid, Sound, Housed, View, Repr,
           ObjectRepr, Deliver, SendObject, Receive, Respond, Session.ServerRespond;
      HandleParts();
      StorageParts();
      if current.firstPacketSent {
        ServerRespond(cmd, length);
        return;
      }
      if cmd == CONNECT {
        InsertConnectFrame();
      }
      if !deny {
        DeliverEvent(EvReq, cmd, 0, false);
      }
      Enter(Responding, true);
      ServerRespond(cmd, 3);
    }

    /** Lets the application judge a request by the headers of its first packet. */
    method Check(cmd: byte)
      requires Sound() && Housed() && Valid() && current != null
      modifies Repr()
      ensures Sound() && Housed() && Valid() && home == old(home) && rxMsg.buffer == old(rxMsg.buffer)
      ensures current == old(current) && (forall o <- Repr() :: fresh(o) || o in old(Repr()))
      ensures View() == Checked(old(View()), cmd) && rxMsg.Contents() == old(rxMsg.Contents())
    {
      hide DataBuffer.Contents, DataBuffer.Valid, ObexObject.View, ObexObject.Valid, Valid, Sound, Housed, View, Repr,
           ObjectRepr, Deliver, SendObject, Receive, Respond;
      HandleParts();
      StorageParts();
      if !current.checked {
        DeliverEvent(EvReqCheck, cmd, 0, false);
        HandleParts();
        SetChecked();
      }
    }

    /** A packet that is not the last: answer it and wait for more, unless refused. */
    method ServerMore(cmd: byte, length: nat, ghost packet: seq<byte>)
      requires Sound() && Housed() && Valid() && current != null && rxMsg.Contents() == []
      requires |packet| >= 3 && length == Read16(packet, 1)
      modifies Repr()
      ensures Housed() && Valid() && home == old(home) && rxMsg.buffer == old(rxMsg.buffer)
      ensures forall o <- Repr() :: fresh(o) || o in old(Repr())
      ensures View() == Session.ServerMore(old(View()), packet, cmd)
    {
      hide DataBuffer.Contents, DataBuffer.Valid, ObexObject.View, ObexObject.Valid, Valid, Sound, Housed, View, Repr,
           ObjectRepr, Deliver, SendObject, Receive, Respond, Session.ServerRequest;
      HandleParts();
      StorageParts();
      var kind := ClearFinal(current.opcode) / 0x10;
      if kind != 1 && kind != 2 {
        ServerRequest(cmd, length, true, packet);
        return;
      }
      var sent := ObjectSend(false, true);
      HandleParts();
      if fault {
        return;
      }
      if sent.SendError? {
        DeliverEvent(EvLinkErr, cmd, 0, true);
      } else {
        DeliverEvent(EvProgress, cmd, 0, false);
      }
    }

    /** In the middle of receiving a request. */
    method ServerReceive()
      requires Sound() && Housed() && Valid() && |rxMsg.Contents()| >= 3
      modifies Repr()
      ensures Housed() && Valid() && home == old(home) && rxMsg.buffer == old(rxMsg.buffer)
      ensures forall o <- Repr() :: fresh(o) || o in old(Repr())
      ensures View() == Session.ServerReceive(old(View()), old(rxMsg.Contents()))
    {
      hide DataBuffer.Contents, DataBuffer.Valid, ObexObject.View, ObexObject.Valid, Valid, Sound, Housed, View, Repr,
           ObjectRepr, Deliver, SendObject, Receive, Respond, Session.ServerMore, Session.ServerRequest,
           Session.Finish, Checked;
      HandleParts();
      StorageParts();
      ghost var packet := rxMsg.Contents();
      var d := rxMsg.Contents();
      var cmd, length, final := ClearFinal(d[0]), Read16(d, 1), Final(d[0]);
      if current == null {
        Condemn();
      } else if cmd == ABORT {
        Finish(SUCCESS, EvAbort, cmd);
      } else if cmd != current.cmd {
        Finish(BAD_REQUEST, EvParseErr, cmd);
      } else {
        var outcome := ObjectReceive();
        match outcome
        case Beyond => Condemn();
        case Broken => Finish(BAD_REQUEST, EvParseErr, 0);
        case Clean =>
          if final {
            ServerRequest(cmd, length, false, packet);
          } else {
            Check(cmd);
            ServerMore(cmd, length, packet);
          }
      }
    }

    /** The object of a new request. */
    method AddServerObject(cmd: byte)
      requires Valid() && current == null
      modifies this`current, this`nextId
      ensures Valid() && current != null && fresh(current) && (forall o <- Repr() :: fresh(o) || o in old(Repr()))
      ensures var p := old(View());
              View() == p.(current := Some(NewObject(p.nextId).(cmd := cmd)), nextId := p.nextId + 1)
    {
      hide DataBuffer.Contents, DataBuffer.Valid;
      var obj := new ObexObject(nextId);
      obj.cmd := cmd;
      current, nextId := obj, nextId + 1;
    }

    /** A new request: the object is made, and the application told that it is coming. */
    method NewServerObject(cmd: byte)
      requires Sound() && Housed() && Valid() && current == null
      modifies Repr()
      ensures Sound() && Housed() && Valid() && home == old(home) && rxMsg.buffer == old(rxMsg.buffer)
      ensures current != null && (forall o <- Repr() :: fresh(o) || o in old(Repr()))
      ensures rxMsg.Contents() == old(rxMsg.Contents())
      ensures var p := old(View());
              View() == Deliver(p.(current := Some(NewObject(p.nextId).(cmd := cmd)), nextId := p.nextId + 1),
                                EvReqHint, cmd, 0, false)
    {
      hide DataBuffer.Contents, DataBuffer.Valid, ObexObject.View, ObexObject.Valid, Valid, Sound, Housed, View, Repr,
           ObjectRepr, Deliver, NewObject;
      StorageParts();
      AddServerObject(cmd);
      DeliverEvent(EvReqHint, cmd, 0, false);
    }

    /** A CONNECT too short to carry a packet size. */
    method RefuseConnect()
      requires Sound() && Housed() && Valid() && current != null
      modifies Repr()
      ensures Housed() && Valid() && home == old(home) && rxMsg.buffer == old(rxMsg.buffer)
      ensures forall o <- Repr() :: fresh(o) || o in old(Repr())
      ensures View() == DeliverOwn(Respond(old(View()), BAD_REQUEST), EvParseErr, 0, true)
    {
      hide DataBuffer.Contents, DataBuffer.Valid, ObexObject.View, ObexObject.Valid, Valid, Sound, Housed, View, Repr,
           ObjectRepr, Deliver, Transmit, Frame;
      StorageParts();
      ResponseRequest(BAD_REQUEST);
      HandleParts();
      DeliverEvent(EvParseErr, current.opcode, 0, true);
    }

    /** Where the headers of a new request start; not ok when its packet size is missing. */
    method FindHeaders(cmd: byte) returns (ok: bool)
      requires Sound() && Housed() && Valid() && current != null && |rxMsg.Contents()| >= 3
      modifies this`mtuTx, current`headerOffset
      ensures Sound() && Housed() && Valid() && home == old(home)
      ensures Repr() == old(Repr()) && current == old(current)
      ensures var p := old(View());
              var r := if cmd == CONNECT then ParseConnect(p, rxMsg.Contents()) else Some(p);
              && ok == r.Some?
              && View() == (if r.None? then p
                            else if cmd == CONNECT then Update(r.value, r.value.current.value.(headerOffset := 4))
                            else if cmd == SETPATH then Update(p, p.current.value.(headerOffset := 2))
                            else p)
    {
      hide DataBuffer.Contents, DataBuffer.Valid, ObexObject.View, ObexObject.Valid, Valid, Sound, Housed, View, Repr,
           ObjectRepr, Read16;
      HandleParts();
      ok := true;
      if cmd == CONNECT {
        ok := ParseConnectHeader();
        HandleParts();
        if ok {
          SetHeaderOffset(4);
        }
      } else if cmd == SETPATH {
        SetHeaderOffset(2);
      }
    }

    /** The first packet of a request; some commands carry octets before their headers. */
    method ServerOpen()
      requires Sound() && Housed() && Valid() && current == null && |rxMsg.Contents()| >= 3
      modifies Repr()
      ensures Housed() && Valid() && home == old(home) && rxMsg.buffer == old(rxMsg.buffer)
      ensures forall o <- Repr() :: fresh(o) || o in old(Repr())
      ensures View() == Session.ServerOpen(old(View()), old(rxMsg.Contents()))
    {
      hide DataBuffer.Contents, DataBuffer.Valid, ObexObject.View, ObexObject.Valid, Valid, Sound, Housed, View, Repr,
           ObjectRepr, Deliver, SendObject, Receive, Respond, Session.ServerReceive, NewObject, ParseConnect;
      HandleParts();
      StorageParts();
      var cmd := ClearFinal(rxMsg.Contents()[0]);
      NewServerObject(cmd);
      HandleParts();
      StorageParts();
      var ok := FindHeaders(cmd);
      if !ok {
        RefuseConnect();
        return;
      }
      Enter(Receiving, true);
      ServerReceive();
    }

    method Server()
      requires Sound() && Housed() && Valid() && |rxMsg.Contents()| >= 3
      modifies Repr()
      ensures Housed() && Valid() && home == old(home) && rxMsg.buffer == old(rxMsg.buffer)
      ensures forall o <- Repr() :: fresh(o) || o in old(Repr())
      ensures View() == ServerStep(old(View()), old(rxMsg.Contents()))
    {
      hide DataBuffer.Contents, DataBuffer.Valid, ObexObject.View, ObexObject.Valid, Valid, Sound, Housed, View, Repr,
           ObjectRepr, Deliver, SendObject, Receive, Respond, Session.ServerReceive, Session.ServerOpen,
           Session.ServerRespond;
      HandleParts();
      StorageParts();
      var cmd := ClearFinal(rxMsg.Contents()[0]);
      match state
      case Idle =>
        if current != null {
          ResponseRequest(INTERNAL_SERVER_ERROR);
        } else {
          ServerOpen();
        }
      case Receiving => ServerReceive();
      case Responding => ServerRespond(cmd, Read16(rxMsg.Contents(), 1));
      case Starting =>
        ResponseRequest(BAD_REQUEST);
        DeliverEvent(EvParseErr, cmd, 0, true);
    }

    // ---- The client ----

    /** The answer makes no sense: the request is over. */
    method Reject()
      requires Sound() && Housed() && Valid() && current != null
      modifies Repr()
      ensures Housed() && Valid() && home == old(home) && rxMsg.buffer == old(rxMsg.buffer)
      ensures forall o <- Repr() :: fresh(o) || o in old(Repr())
      ensures View() == DeliverOwn(ServerIdle(old(View())), EvParseErr, 0, true)
    {
      hide DataBuffer.Contents, DataBuffer.Valid, ObexObject.View, ObexObject.Valid, Valid, Sound, Housed, View, Repr,
           ObjectRepr, Deliver, SendObject, Receive, Respond;
      StorageParts();
      Enter(Idle, true);
      HandleParts();
      DeliverEvent(EvParseErr, current.opcode, 0, true);
    }

    /** Nothing has been sent yet, or it is time for the next packet. */
    method ClientStart(rsp: byte)
      requires Sound() && Housed() && Valid()
      modifies Repr()
      ensures Housed() && Valid() && home == old(home) && rxMsg.buffer == old(rxMsg.buffer)
      ensures forall o <- Repr() :: fresh(o) || o in old(Repr())
      ensures View() == Session.ClientStart(old(View()), rsp)
    {
      hide DataBuffer.Contents, DataBuffer.Valid, ObexObject.View, ObexObject.Valid, Valid, Sound, Housed, View, Repr,
           ObjectRepr, Deliver, SendObject, Receive, Respond;
      HandleParts();
      StorageParts();
      if current == null {
        DeliverEvent(EvParseErr, rsp, 0, true);
        return;
      }
      var sent := ObjectSend(true, false);
      HandleParts();
      if fault {
        return;
      }
      if sent.SendError? {
        Enter(Idle, false);
        HandleParts();
        DeliverEvent(EvLinkErr, current.opcode, 0, true);
        return;
      }
      SetProgress(true, current.continueReceived);
      HandleParts();
      DeliverEvent(EvProgress, current.opcode, 0, false);
      Enter(Receiving, false);
    }

    /** A response while sending, a state no client ever gets into. */
    method ClientBusy(rsp: byte, response: bool)
      requires Sound() && Housed() && Valid() && (response ==> |rxMsg.Contents()| >= 3)
      modifies Repr()
      ensures Housed() && Valid() && home == old(home) && rxMsg.buffer == old(rxMsg.buffer)
      ensures forall o <- Repr() :: fresh(o) || o in old(Repr())
      ensures View() == Session.ClientBusy(old(View()), if response then Some(old(rxMsg.Contents())) else None, rsp)
    {
      hide DataBuffer.Contents, DataBuffer.Valid, ObexObject.View, ObexObject.Valid, Valid, Sound, Housed, View, Repr,
           ObjectRepr, Deliver, SendObject, Receive, Respond, Session.ClientStart;
      HandleParts();
      StorageParts();
      if current == null {
        Condemn();
      } else if rsp != SUCCESS && rsp != CONTINUE {
        DeliverEvent(EvReqDone, current.opcode, rsp, true);
      } else if !response {
        Condemn();
      } else if Read16(rxMsg.Contents(), 1) <= 3 {
        ClientStart(rsp);
      } else if current.opcode == CONNECT {
        Reject();
      } else {
        var outcome := ObjectReceive();
        HandleParts();
        match outcome
        case Beyond => Condemn();
        case Broken =>
          Reject();
        case Clean =>
          DeliverEvent(EvUnexpected, current.opcode, 0, false);
          ClientStart(rsp);
      }
    }

    /** The server wants more; after an abort its wish is ignored. */
    method ClientContinue()
      requires Sound() && Housed() && Valid() && current != null
      modifies Repr()
      ensures Housed() && Valid() && home == old(home) && rxMsg.buffer == old(rxMsg.buffer)
      ensures forall o <- Repr() :: fresh(o) || o in old(Repr())
      ensures View() == Session.ClientContinue(old(View()))
    {
      hide DataBuffer.Contents, DataBuffer.Valid, ObexObject.View, ObexObject.Valid, Valid, Sound, Housed, View, Repr,
           ObjectRepr, Deliver, SendObject, Receive, Respond;
      HandleParts();
      StorageParts();
      SetProgress(current.firstPacketSent, true);
      HandleParts();
      if current.abort {
        return;
      }
      var sent := ObjectSend(true, false);
      HandleParts();
      if fault {
        return;
      }
      if sent.SendError? {
        DeliverEvent(EvLinkErr, current.opcode, 0, true);
      } else {
        DeliverEvent(EvProgress, current.opcode, 0, false);
        HandleParts();
        SetProgress(current.firstPacketSent, false);
      }
    }

    method ClientDone(rsp: byte)
      requires Sound() && Housed() && Valid() && current != null
      modifies Repr()
      ensures Housed() && Valid() && home == old(home) && rxMsg.buffer == old(rxMsg.buffer)
      ensures forall o <- Repr() :: fresh(o) || o in old(Repr())
      ensures View() == Session.ClientDone(old(View()), rsp)
    {
      hide DataBuffer.Contents, DataBuffer.Valid, ObexObject.View, ObexObject.Valid, Valid, Sound, Housed, View, Repr,
           ObjectRepr, Deliver, SendObject, Receive, Respond;
      HandleParts();
      StorageParts();
      Enter(Idle, true);
      HandleParts();
      if !current.abort {
        DeliverEvent(EvReqDone, current.opcode, rsp, true);
      } else if rsp == SUCCESS {
        DeliverEvent(EvAbort, current.opcode, rsp, true);
      } else {
        DeliverEvent(EvLinkErr, current.opcode, rsp, true);
      }
    }

    method ClientHeaders(rsp: byte)
      requires Sound() && Housed() && Valid() && current != null && |rxMsg.Contents()| >= 3
      modifies Repr()
      ensures Housed() && Valid() && home == old(home) && rxMsg.buffer == old(rxMsg.buffer)
      ensures forall o <- Repr() :: fresh(o) || o in old(Repr())
      ensures View() == Session.ClientHeaders(old(View()), old(rxMsg.Contents()), rsp)
    {
      hide DataBuffer.Contents, DataBuffer.Valid, ObexObject.View, ObexObject.Valid, Valid, Sound, Housed, View, Repr,
           ObjectRepr, Deliver, SendObject, Receive, Respond, Session.ClientContinue, Session.ClientDone;
      HandleParts();
      StorageParts();
      var outcome := ObjectReceive();
      HandleParts();
      match outcome
      case Beyond => Condemn();
      case Broken =>
        Reject();
      case Clean =>
        if rsp == CONTINUE {
          ClientContinue();
        } else {
          ClientDone(rsp);
        }
    }

    /** Receiving the answer to a request. */
    method ClientReceive(rsp: byte)
      requires Sound() && Housed() && Valid() && current != null && |rxMsg.Contents()| >= 3
      modifies Repr()
      ensures Housed() && Valid() && home == old(home) && rxMsg.buffer == old(rxMsg.buffer)
      ensures forall o <- Repr() :: fresh(o) || o in old(Repr())
      ensures View() == Session.ClientReceive(old(View()), old(rxMsg.Contents()), rsp)
    {
      hide DataBuffer.Contents, DataBuffer.Valid, ObexObject.View, ObexObject.Valid, Valid, Sound, Housed, View, Repr,
           ObjectRepr, Deliver, SendObject, Receive, Respond, Session.ClientHeaders, ParseConnect;
      HandleParts();
      StorageParts();
      if current.opcode == CONNECT {
        var ok := ParseConnectHeader();
        HandleParts();
        if !ok {
          Reject();
          return;
        }
        SetHeaderOffset(4);
      } else if current.opcode == DISCONNECT {
        ResetMtu();
      }
      ClientHeaders(rsp);
    }

    method Client(response: bool)
      requires Sound() && Housed() && Valid() && (response ==> |rxMsg.Contents()| >= 3)
      modifies Repr()
      ensures Housed() && Valid() && home == old(home) && rxMsg.buffer == old(rxMsg.buffer)
      ensures forall o <- Repr() :: fresh(o) || o in old(Repr())
      ensures View() == ClientStep(old(View()), if response then Some(old(rxMsg.Contents())) else None)
    {
      hide DataBuffer.Contents, DataBuffer.Valid, ObexObject.View, ObexObject.Valid, Valid, Sound, Housed, View, Repr,
           ObjectRepr, Deliver, SendObject, Receive, Respond, Session.ClientStart, Session.ClientBusy,
           Session.ClientReceive;
      HandleParts();
      StorageParts();
      var rsp := if response then ClearFinal(rxMsg.Contents()[0]) else BAD_REQUEST;
      match state
      case Responding => ClientBusy(rsp, response);
      case Starting => ClientStart(rsp);
      case Receiving =>
        if !response || current == null {
          Condemn();
        } else {
          ClientReceive(rsp);
        }
      case Idle => DeliverEvent(EvParseErr, rsp, 0, true);
    }

    // ---- What can happen to a handle ----

    /** A whole packet has arrived: it goes to the server or the client, and is forgotten. */
    method Dispatch()
      requires Sound() && Housed() && Valid() && |rxMsg.Contents()| >= 3
      modifies Repr()
      ensures Housed() && Valid() && home == old(home) && rxMsg.buffer == old(rxMsg.buffer)
      ensures forall o <- Repr() :: fresh(o) || o in old(Repr())
      ensures View() == Indicate(old(View()), old(rxMsg.Contents())) && rxMsg.Contents() == [] && rxMsg.head == 0
    {
      hide DataBuffer.Contents, DataBuffer.Valid, ObexObject.View, ObexObject.Valid, Valid, Sound, Housed, View, Repr,
           ObjectRepr, Deliver, SendObject, Receive, Respond, ServerStep, ClientStep;
      HandleParts();
      StorageParts();
      PacketHeld();
      if !fault {
        if serverMode {
          Server();
        } else {
          Client(true);
        }
      }
      ForgetPacket();
    }

    /** The packet that has arrived is one the buffer can hold. */
    lemma PacketHeld()
      requires Valid()
      ensures Holding(View(), rxMsg.Contents())
    {
      hide ObexObject.View, ObexObject.Valid;
    }

    method ForgetPacket()
      requires Housed() && Valid()
      modifies rxMsg
      ensures Housed() && Valid() && home == old(home)
      ensures Repr() == old(Repr()) && View() == old(View()) && rxMsg.Contents() == []
      ensures rxMsg.buffer == old(rxMsg.buffer) && rxMsg.head == 0
    {
      hide DataBuffer.Contents, DataBuffer.Valid, ObexObject.View, ObexObject.Valid, Valid, Sound, Housed, View, Repr,
           ObjectRepr, Deliver, SendObject, Receive, Respond;
      ValidParts();
      rxMsg.Reuse();
      MessageMoved();
      ReprSame();
    }

    /** The handle takes over an object the application has made. */
    method Adopt(obj: ObexObject)
      requires Sound() && Housed() && Valid() && current == null && obj.Valid() && obj.Repr() !! Repr()
      modifies this`current, this`nextId, this`state, this`serverMode, obj`id
      ensures Sound() && Housed() && Valid() && home == old(home)
      ensures current == obj && (forall o <- Repr() :: o in old(Repr()) || o in old(obj.Repr()))
      ensures var p := old(View());
              View() == p.(current := Some(old(obj.View()).(id := p.nextId)), nextId := p.nextId + 1,
                           state := Starting, serverMode := false)
    {
      hide DataBuffer.Contents, DataBuffer.Valid;
      obj.id := nextId;
      current, nextId := obj, nextId + 1;
      state, serverMode := Starting, false;
      assert txMsg in old(Repr()) && txMsg.buffer in old(Repr()) && rxMsg in old(Repr()) && rxMsg.buffer in old(Repr());
    }

    /** The application starts a request; a busy handle refuses. */
    method Request(obj: ObexObject) returns (ok: bool)
      requires Sound() && Housed() && Valid() && obj.Valid() && obj.Repr() !! Repr() && !fault
      modifies Repr(), obj.Repr()
      ensures Housed() && Valid() && home == old(home) && rxMsg.buffer == old(rxMsg.buffer)
      ensures ok == (old(current) == null)
      ensures forall o <- Repr() :: fresh(o) || o in old(Repr()) || o in old(obj.Repr())
      ensures View() == Session.Request(old(View()), old(obj.View()))
    {
      hide DataBuffer.Contents, DataBuffer.Valid, ObexObject.View, ObexObject.Valid, Valid, Sound, Housed, View, Repr,
           ObjectRepr, Deliver, SendObject, Receive, Respond, ClientStep;
      HandleParts();
      StorageParts();
      if current != null {
        return false;
      }
      Adopt(obj);
      Client(false);
      ok := true;
    }

    /** The application cancels with an ABORT packet of its own. */
    method CancelRequest()
      requires Sound() && Housed() && Valid() && !fault
      modifies Repr()
      ensures Sound() && Housed() && Valid() && home == old(home) && rxMsg.buffer == old(rxMsg.buffer)
      ensures forall o <- Repr() :: fresh(o) || o in old(Repr())
      ensures View() == CancelNicely(old(View()))
    {
      hide DataBuffer.Contents, DataBuffer.Valid, ObexObject.View, ObexObject.Valid, Valid, Sound, Housed, View, Repr,
           ObjectRepr, Deliver, SendObject, Receive, Respond;
      HandleParts();
      StorageParts();
      if current == null {
        return;
      }
      var ok := SendBare(SetFinal(ABORT));
      HandleParts();
      if ok {
        SetAbort();
        Enter(Receiving, false);
      }
    }

    method SetAbort()
      requires Valid() && current != null
      modifies current`abort
      ensures Valid() && Repr() == old(Repr())
      ensures View() == Update(old(View()), old(View()).current.value.(abort := true))
    {
      hide DataBuffer.Contents;
      current.abort := true;
    }

    /** The link has gone. */
    method LinkLost()
      requires Valid() && !fault
      modifies Repr()
      ensures Housed() && Valid() && home == old(home) && rxMsg.buffer == old(rxMsg.buffer)
      ensures forall o <- Repr() :: fresh(o) || o in old(Repr())
      ensures View() == LinkDown(old(View()))
    {
      hide DataBuffer.Contents, DataBuffer.Valid, ObexObject.View, ObexObject.Valid, Valid, Sound, Housed, View, Repr,
           ObjectRepr, Deliver, SendObject, Receive, Respond;
      HandleParts();
      StorageParts();
      DeliverEvent(EvLinkErr, 0, 0, true);
    }

    /** The receive buffer takes packets of this size; what was accepted keeps its beginning. */
    method ResizeReceive(rx: u16)
      requires Valid() && rx >= MINIMUM_MTU
      modifies this`mtuRx, rxMsg, rxMsg.buffer
      ensures Valid() && (forall o <- Repr() :: fresh(o) || o in old(Repr()))
      ensures View() == old(View()).(mtuRx := rx, rxRoom := rx) && rxMsg.TotalSize() == rx
      ensures rxMsg.Contents() <= old(rxMsg.Contents())
    {
      hide DataBuffer.Contents, ObexObject.View, ObexObject.Valid;
      mtuRx := rx;
      rxMsg.UsedIs();
      rxMsg.Resize(rx);
    }

    /** The transmit buffer has room for packets of this size. */
    method ResizeTransmit(txMax: u16)
      requires Valid() && txMax >= MINIMUM_MTU
      modifies this`mtuTxMax, this`home, this`txRoom, txMsg, txMsg.buffer
      ensures Valid() && (forall o <- Repr() :: fresh(o) || o in old(Repr()))
      ensures View() == old(View()).(mtuTxMax := txMax, txRoom := txMax) && txMsg.TotalSize() == txMax
      ensures txMsg.buffer == home && Sound() && Housed()
    {
      hide DataBuffer.Contents, ObexObject.View, ObexObject.Valid, Sound, Housed, View, Repr, Valid;
      ValidParts();
      txMsg.Resize(txMax);
      MessageMoved();
      ReprKept();
      ValidParts();
      SettleIn(txMax);
    }

    /** The transmit buffer is where it has been put. */
    method SettleIn(size: u16)
      requires Valid() && txMsg.TotalSize() == size >= MINIMUM_MTU
      modifies this`mtuTxMax, this`home, this`txRoom
      ensures Valid() && Repr() == old(Repr()) && txMsg.buffer == home && Sound() && Housed()
      ensures View() == old(View()).(mtuTxMax := size, txRoom := size)
    {
      hide DataBuffer.Contents, ObexObject.View, ObexObject.Valid, Outgrown, LinkErrorIn;
      mtuTxMax, home, txRoom := size, txMsg.buffer, size;
    }

    /** Sets the packet sizes of an idle handle, and the sizes of its buffers with them. What
        was accepted from the peer keeps its beginning. */
    method SetTransportMtu(rx: u16, txMax: u16) returns (ok: bool)
      requires Valid()
      modifies this`mtuRx, this`mtuTxMax, this`home, this`txRoom, txMsg, txMsg.buffer, rxMsg, rxMsg.buffer
      ensures Valid() && (forall o <- Repr() :: fresh(o) || o in old(Repr()))
      ensures ok <==> old(current) == null && rx >= MINIMUM_MTU && txMax >= MINIMUM_MTU
      ensures View() == if ok then old(View()).(mtuRx := rx, mtuTxMax := txMax, rxRoom := rx, txRoom := txMax)
                        else old(View())
      ensures ok ==> rxMsg.TotalSize() == rx && txMsg.TotalSize() == txMax && txMsg.buffer == home
      ensures ok || old(Sound()) ==> Sound() && Housed()
      ensures rxMsg.Contents() <= old(rxMsg.Contents())
    {
      hide DataBuffer.Contents, View, Sound, Housed;
      StorageParts();
      HousedNow();
      if current != null || rx < MINIMUM_MTU || txMax < MINIMUM_MTU {
        return false;
      }
      ResizeReceive(rx);
      ResizeTransmit(txMax);
      ok := true;
    }

    /** A request object for a command, not yet handed over. */
    method ObjectNew(cmd: byte) returns (obj: ObexObject)
      requires Valid()
      ensures fresh(obj) && obj.Valid() && obj.rxBody == null && obj.View() == NewRequest(cmd, View().mtuRx)
    {
      hide DataBuffer.Contents, DataBuffer.Valid;
      obj := new ObexObject(0);
      obj.SetCmd(cmd, SetFinal(cmd));
      if cmd == CONNECT {
        obj.txNonHdrData := Some(ConnectFrame(mtuRx));
      }
    }

    /** The transport has put a packet into the receive buffer. */
    method Deposit(packet: seq<byte>)
      requires Sound() && Housed() && Valid()
      modifies rxMsg, rxMsg.buffer
      ensures Sound() && Housed() && Valid() && (forall o <- Repr() :: fresh(o) || o in old(Repr()))
      ensures home == old(home) && current == old(current) && fault == old(fault)
      ensures View() == old(View()).(rxRoom := Max(old(View()).rxRoom, |packet|)) && rxMsg.Contents() == packet
      ensures |packet| <= old(rxMsg.TotalSize()) ==> rxMsg.buffer == old(rxMsg.buffer)
    {
      hide DataBuffer.Contents, ObexObject.View;
      rxMsg.Reuse();
      rxMsg.InsertEnd(packet);
      assert [] + packet == packet;
    }

    /** The transport has begun to put a packet of that size into the receive buffer. */
    method BeginPacket(size: nat)
      requires Sound() && Housed() && Valid()
      modifies rxMsg, rxMsg.buffer
      ensures Sound() && Housed() && Valid() && home == old(home)
      ensures forall o <- Repr() :: fresh(o) || o in old(Repr())
      ensures View() == old(View()).(rxRoom := Max(old(View()).rxRoom, size))
    {
      hide DataBuffer.Contents, ObexObject.View;
      rxMsg.Reuse();
      var _ := rxMsg.ReserveEnd(size);
      rxMsg.RemoveEnd(size);
    }

    /** The link is no part of the handle. */
    lemma LinkApart(link: Link)
      ensures link !in Repr()
    {
      hide DataBuffer.Contents;
    }

    /** Reads from the link up to the end of the packet at hand. */
    method ReadPacket(link: Link) returns (out: Indication)
      requires Sound() && Housed() && Valid() && !link.failed && rxMsg.head == 0 && Incomplete(rxMsg.Contents())
      modifies rxMsg, rxMsg.buffer, link`incoming, link`recvs, link`failed
      ensures Sound() && Housed() && Valid() && home == old(home)
      ensures forall o <- Repr() :: fresh(o) || o in old(Repr())
      ensures View() == old(View()).(rxRoom := rxMsg.buffer.Length)
      ensures !out.LinkLost? ==> rxMsg.head == 0 && Incomplete(rxMsg.Contents())
      ensures !link.failed ==>
                && !out.LinkLost?
                && Turn(old(rxMsg.Contents()), old(link.incoming), old(rxMsg.buffer.Length),
                        out, rxMsg.Contents(), link.incoming, rxMsg.buffer.Length)
      ensures out.Packet? ==>
                && |out.octets| >= 3 && rxMsg.Contents() == []
                && rxMsg.buffer.Length == Max(old(rxMsg.buffer.Length), |out.octets|)
                && (out.moved <==> |out.octets| > Max(3, old(rxMsg.buffer.Length)))
      ensures rxMsg.buffer.Length == old(rxMsg.buffer.Length) ==> rxMsg.buffer == old(rxMsg.buffer)
    {
      hide DataBuffer.Contents, Incomplete, PacketSize, Turn, WholePacket, ObexObject.View;
      out := DataIndication(link, rxMsg);
    }
  }
}
