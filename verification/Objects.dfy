/**
 The object of a transfer as the library keeps it: one record updated in place, with the
 body being received in a growing buffer. Its value is the Object of the session model.
 */
module Objects {
  import opened Octets
  import opened Buffers
  import opened Headers
  import opened Fragmenter
  import opened Reassembler
  import opened Session

  const ALLOCATION_THRESHOLD: nat := 10240

  class ObexObject {
    var id: nat
    var cmd: byte
    var opcode: byte
    var lastOpcode: byte
    var txHeaderQ: seq<TxElement>
    var txNonHdrData: Option<seq<byte>>
    var totalLen: nat
    var sData: seq<byte>   // the stream data not yet sent, or the chunk just received
    var sStop: bool
    var rxHeaderQ: seq<Header>
    var rxHeaderQRm: seq<Header>
    var rxBody: DataBuffer?
    var hintedBodyLen: nat
    var sSrv: bool
    var headerOffset: nat
    var rxNonHdrData: Option<seq<byte>>
    var abort: bool
    var checked: bool
    var continueReceived: bool
    var firstPacketSent: bool

    /** The buffer of the body, if there is one. */
    ghost function BodyRepr(): set<object>
      reads this, rxBody
    {
      if rxBody == null then {} else var b: DataBuffer := rxBody; {b, b.buffer}
    }

    ghost function Repr(): set<object>
      reads this, rxBody
    {
      {this} + BodyRepr()
    }

    predicate Valid()
      reads this, rxBody
    {
      rxBody != null ==> rxBody.Valid()
    }

    function RxView(): Rx
      requires Valid()
      reads this, rxBody, if rxBody == null then {} else {rxBody.buffer}
    {
      Rx(rxHeaderQ, rxHeaderQRm, if rxBody == null then None else Some(rxBody.Contents()), hintedBodyLen, sSrv)
    }

    function View(): Object
      requires Valid()
      reads this, rxBody, if rxBody == null then {} else {rxBody.buffer}
    {
      Object(id, cmd, opcode, lastOpcode, txHeaderQ, txNonHdrData, totalLen, Stream(sData, sStop),
             RxView(), headerOffset, rxNonHdrData, abort, checked, continueReceived, firstPacketSent)
    }

    constructor (id: nat)
      ensures Valid() && rxBody == null && View() == NewObject(id)
    {
      this.id, cmd := id, 0;
      opcode, lastOpcode := NOT_IMPLEMENTED, NOT_IMPLEMENTED;
      txHeaderQ, txNonHdrData, totalLen, sData, sStop := [], None, 0, [], false;
      rxHeaderQ, rxHeaderQRm, rxBody, hintedBodyLen, sSrv := [], [], null, 0, false;
      headerOffset, rxNonHdrData := 0, None;
      abort, checked, continueReceived, firstPacketSent := false, false, false, false;
    }

    method SetCmd(cmd: byte, lastCmd: byte)
      requires Valid()
      modifies this`cmd, this`opcode, this`lastOpcode
      ensures Valid() && View() == old(View()).(cmd := cmd, opcode := cmd, lastOpcode := lastCmd)
    {
      this.cmd, opcode, lastOpcode := cmd, cmd, lastCmd;
    }

    method SetRsp(rsp: byte, lastRsp: byte)
      requires Valid()
      modifies this`opcode, this`lastOpcode
      ensures Valid() && View() == old(View()).(opcode := rsp, lastOpcode := lastRsp)
    {
      opcode, lastOpcode := rsp, lastRsp;
    }

    /** Encodes a header into a buffer of its own. */
    static method EncodeElement(hi: byte, hv: HeaderData) returns (buf: DataBuffer, size: nat)
      ensures fresh(buf) && buf.Valid() && fresh(buf.buffer)
      ensures buf.Contents() == Encode(HeaderOf(hi, hv)) && size == EncodedSize(HeaderOf(hi, hv))
    {
      if EncodingOf(hi).FourByte? {
        buf := new DataBuffer(5);
        size := InsertUintHeader(buf, hi, hv.bq4);
        assert [hi] + [] + Big32(hv.bq4) == [hi] + Big32(hv.bq4);
      } else if EncodingOf(hi).OneByte? {
        buf := new DataBuffer(2);
        size := InsertByteHeader(buf, hi, hv.bq1);
        assert [hi] + [] + [hv.bq1] == [hi, hv.bq1];
      } else {
        buf := new DataBuffer(|hv.bs| + 3);
        size := InsertSizedHeader(buf, hi, hv.bs);
      }
    }

    /** Adds a header to the transmit queue; answers 1, or -1 when it is too big. */
    method AddHeader(mtuTx: u16, hi: byte, hv: HeaderData, fitOnePacket: bool, streamStart: bool) returns (ret: int)
      requires Valid()
      modifies this`txHeaderQ, this`totalLen
      ensures Valid() && View() == AddTo(old(View()), mtuTx, hi, hv, fitOnePacket, streamStart)
      ensures ret == if streamStart || hi == EMPTY || Accepts(old(View()), mtuTx, hi, hv, fitOnePacket) then 1 else -1
      ensures !fitOnePacket && !streamStart && hi != EMPTY && mtuTx >= 3 ==>
                (ret == 1 <==>
                 hi == BODY || (if hi < 0x80 then |hv.bs| + 3 else if hi < 0xc0 then 2 else 5) <= mtuTx - 3)
    {
      hide DataBuffer.Contents, DataBuffer.Valid, Encode;
      var maxLen := (mtuTx - (if fitOnePacket then totalLen else 0) - 3) % 0x1_0000_0000;
      if streamStart {
        txHeaderQ := txHeaderQ + [TxStream];
        return 1;
      }
      if hi == EMPTY {
        txHeaderQ := txHeaderQ + [TxEmpty];
        return 1;
      }
      var buf, size := EncodeElement(hi, hv);
      if (hi != BODY || fitOnePacket) && maxLen < size {
        return -1;
      }
      totalLen := totalLen + size;
      txHeaderQ := txHeaderQ + [if hi == BODY then TxBody(buf.Contents(), false) else TxHeader(HeaderOf(hi, hv))];
      ret := 1;
    }

    /** Hands out the next received header and keeps it among those read. */
    method GetNextHeader() returns (r: Option<Header>)
      requires Valid()
      modifies this`rxHeaderQ, this`rxHeaderQRm
      ensures Valid() && View() == old(View()).(rx := Next(old(View()).rx))
      ensures r == if old(rxHeaderQ) == [] then None else Some(old(rxHeaderQ)[0])
    {
      if rxHeaderQ == [] {
        return None;
      }
      var h := rxHeaderQ[0];
      rxHeaderQ := rxHeaderQ[1..];
      rxHeaderQRm := rxHeaderQRm + [h];
      r := Some(h);
    }

    /** What the application is handed of a received header: its value, with its size, in the
        part of the untagged value that the identifier tells. */
    static method ReadValue(h: Header) returns (hv: HeaderData, size: nat)
      requires WellFormed(h)
      ensures HeaderOf(h.hi, hv) == h && size == |h.value|
      ensures if h.hi < 0x80 then hv.bs == h.value
              else if h.hi < 0xc0 then hv.bq1 == h.value[0]
              else hv.bq4 == (h.value[0] as int) * 0x100_0000 + (h.value[1] as int) * 0x1_0000
                             + (h.value[2] as int) * 0x100 + h.value[3]
    {
      hide Big32, Read32;
      size := |h.value|;
      if EncodingOf(h.hi).FourByte? {
        Read32Octets(h.value, 0);
        Big32Read(h.value);
        hv := HeaderData(Read32(h.value, 0), 0, []);
      } else if EncodingOf(h.hi).OneByte? {
        hv := HeaderData(0, h.value[0], []);
      } else {
        hv := HeaderData(0, 0, h.value);
      }
    }

    method ReparseHeaders() returns (ok: bool)
      requires Valid()
      modifies this`rxHeaderQ, this`rxHeaderQRm
      ensures Valid() && View() == old(View()).(rx := Reparse(old(View()).rx))
      ensures ok <==> old(rxHeaderQ) == []
    {
      if rxHeaderQ != [] {
        return false;
      }
      rxHeaderQ := rxHeaderQRm;
      rxHeaderQRm := [];
      ok := true;
    }

    // ---- Sending ----

    /** Takes the element at the front off the queue. */
    method DropFront()
      requires Valid() && txHeaderQ != []
      modifies this`txHeaderQ
      ensures Valid() && View() == old(View()).(txQueue := old(txHeaderQ)[1..])
    {
      txHeaderQ := txHeaderQ[1..];
    }

    /** Cuts the next fragment off the body at the front of the queue. The first time, the
        header prefix in front of the body is dropped. */
    method CutBody(left: nat, ghost lim: Limits, ghost feed: seq<StreamCall>) returns (fragment: Header, actual: nat)
      requires Valid() && txHeaderQ != [] && txHeaderQ[0].TxBody? && left >= 3
      modifies this`txHeaderQ
      ensures Valid() && View() == old(View()).(txQueue := txHeaderQ)
      ensures IsBody(fragment.hi) && actual <= left
      ensures PackStep(old(txHeaderQ), left, lim, Stream(sData, sStop), feed)
              == Packing([fragment], txHeaderQ, left - actual, Stream(sData, sStop), feed, 0,
                         if actual == left then Full else More)
    {
      hide DataBuffer.Contents, DataBuffer.Valid;
      var e := txHeaderQ[0];
      var rest := if e.touched then e.buf else e.buf[Min(3, |e.buf|)..];
      if left < |rest| + 3 {
        fragment := Header(BODY, rest[..left - 3]);
        txHeaderQ := [TxBody(rest[left - 3..], true)] + txHeaderQ[1..];
        actual := left;
      } else {
        fragment := Header(END_OF_BODY, rest);
        txHeaderQ := txHeaderQ[1..];
        actual := |rest|;
      }
    }

    /** Octets that have been sent leave the stream data at hand. */
    method CutStream(count: nat)
      requires Valid() && count <= |sData|
      modifies this`sData
      ensures Valid() && View() == old(View()).(stream := Stream(old(sData)[count..], sStop))
    {
      sData := sData[count..];
    }

    /** The application, asked for stream data, gives some, says it is done, or does nothing. */
    method TakeStream(feed: seq<StreamCall>) returns (supplied: bool)
      requires Valid()
      modifies this`sData, this`sStop
      ensures Valid() && View() == old(View()).(stream := Asked(old(View()).stream, feed))
      ensures supplied == Supplied(feed)
    {
      hide DataBuffer.Contents, DataBuffer.Valid, Given;
      supplied := feed != [] && !feed[0].Nothing?;
      if feed == [] {
        sData := [];
      } else {
        sData, sStop := Given(feed[0]), sStop || feed[0].DataEnd?;
      }
    }

    /** Makes sure there is a body buffer with room at its end. Its size follows the length
        the peer announced, or a threshold; its contents do not depend on either. */
    method MakeBodyRoom(len: nat)
      requires Valid()
      modifies this`rxBody, BodyRepr()
      ensures Valid() && rxBody != null && fresh(BodyRepr() - old(BodyRepr()))
      ensures rxBody.Contents() == Partial(old(RxView()).body) && rxBody.RoomAtEnd() >= len
    {
      hide DataBuffer.Contents, DataBuffer.Valid;
      if rxBody == null {
        var allocLen := ALLOCATION_THRESHOLD + len;
        if hintedBodyLen != 0 {
          allocLen := hintedBodyLen;
        }
        rxBody := new DataBuffer(allocLen);
      }
      if rxBody.shared + rxBody.tail < len {
        rxBody.UsedIs();
        rxBody.Resize(rxBody.TotalSize() + ALLOCATION_THRESHOLD + len);
      }
    }

    /** Joins a body fragment to those before it; the last one completes the header. */
    method ReceiveBody(hi: byte, source: seq<byte>)
      requires Valid() && IsBody(hi)
      modifies this`rxBody, this`rxHeaderQ, BodyRepr()
      ensures Valid() && fresh(BodyRepr() - old(BodyRepr()))
      ensures View() == old(View()).(rx := Store(old(View()).rx, Header(hi, source)))
    {
      hide DataBuffer.Contents, DataBuffer.Valid, DataBuffer.RoomAtEnd;
      MakeBodyRoom(|source|);
      rxBody.InsertEnd(source);
      if hi == END_OF_BODY {
        rxHeaderQ := rxHeaderQ + [Header(BODY, rxBody.Contents())];
        rxBody := null;
      }
    }

    /** Puts any other received header on the list, noting an announced length. */
    method ReceiveHeader(h: Header)
      requires Valid() && !IsBody(h.hi)
      modifies this`rxHeaderQ, this`hintedBodyLen
      ensures Valid() && View() == old(View()).(rx := Store(old(View()).rx, h))
    {
      hide DataBuffer.Contents, DataBuffer.Valid;
      if h.hi == LENGTH && |h.value| == 4 {
        hintedBodyLen := Read32(h.value, 0);
      }
      rxHeaderQ := rxHeaderQ + [h];
    }

    /** Sets aside the octets that came before the headers. */
    method SetNonHeader(octets: seq<byte>)
      requires Valid()
      modifies this`rxNonHdrData, this`headerOffset
      ensures Valid() && View() == old(View()).(headerOffset := 0, rxNonHeader := Some(octets))
    {
      rxNonHdrData := Some(octets);
      headerOffset := 0;
    }

    /** One call of the application on the object. */
    method Call(mtuTx: u16, c: ApiCall)
      requires Valid()
      modifies this
      ensures Valid() && rxBody == old(rxBody) && View() == Apply(old(View()), mtuTx, c)
    {
      hide DataBuffer.Contents, DataBuffer.Valid, AddTo, Next, Reparse;
      match c
      case SetResponse(rsp, last) => SetRsp(rsp, last);
      case AddHeader(hi, hv, fitOnePacket, streamStart) =>
        var _ := AddHeader(mtuTx, hi, hv, fitOnePacket, streamStart);
      case SetHeaderOffset(offset) => headerOffset := offset;
      case SetNonHeaderData(octets) =>
        if txNonHdrData.None? {
          txNonHdrData := Some(octets);
        }
      case EnableStream => sSrv := true;
      case NextHeader => var _ := GetNextHeader();
      case ReparseHeaders => var _ := ReparseHeaders();
    }

    /** Everything the application does with the object while it handles one event. */
    method React(mtuTx: u16, calls: seq<ApiCall>)
      requires Valid()
      modifies this
      ensures Valid() && rxBody == old(rxBody) && View() == ApplyAll(old(View()), mtuTx, calls)
    {
      var i := 0;
      ghost var o := View();
      assert calls[0..] == calls;
      while i < |calls|
        invariant i <= |calls| && Valid() && rxBody == old(rxBody)
        invariant ApplyAll(o, mtuTx, calls) == ApplyAll(View(), mtuTx, calls[i..])
      {
        assert calls[i..][1..] == calls[i + 1..];
        Call(mtuTx, calls[i]);
        i := i + 1;
      }
    }
  }
}
