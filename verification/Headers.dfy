/**
 OBEX headers on the wire (IrOBEX section 2.1). The top two bits of the identifier
 choose the encoding: a 16-bit total length and a value, one octet, or four octets.
 */
module Headers {
  import opened Octets
  import opened Buffers

  const EMPTY: byte := 0x00
  const BODY: byte := 0x48
  const END_OF_BODY: byte := 0x49
  const LENGTH: byte := 0xc3

  datatype Encoding = Unicode | ByteStream | OneByte | FourByte

  function EncodingOf(hi: byte): Encoding {
    if hi < 0x40 then Unicode
    else if hi < 0x80 then ByteStream
    else if hi < 0xc0 then OneByte
    else FourByte
  }

  predicate LengthPrefixed(hi: byte) {
    EncodingOf(hi).Unicode? || EncodingOf(hi).ByteStream?
  }

  predicate IsBody(hi: byte) {
    hi == BODY || hi == END_OF_BODY
  }

  datatype Header = Header(hi: byte, value: seq<byte>)

  /** Headers whose size the wire format can express. */
  predicate WellFormed(h: Header) {
    match EncodingOf(h.hi)
    case OneByte => |h.value| == 1
    case FourByte => |h.value| == 4
    case _ => |h.value| + 3 < 0x1_0000
  }

  predicate AllWellFormed(hs: seq<Header>) {
    forall i :: 0 <= i < |hs| ==> WellFormed(hs[i])
  }

  /** The octets of one header; the length field keeps the low 16 bits of the size. */
  function Encode(h: Header): (wire: seq<byte>)
    ensures |wire| == EncodedSize(h)
  {
    [h.hi] + (if LengthPrefixed(h.hi) then Big16((|h.value| + 3) % 0x1_0000) else []) + h.value
  }

  function EncodedSize(h: Header): nat {
    |h.value| + if LengthPrefixed(h.hi) then 3 else 1
  }

  /** The same by arithmetic: identifiers below 0x80 are followed by the size of the whole header,
      most significant octet first, all others by their value at once. */
  lemma EncodedOctets(h: Header)
    ensures var d := Encode(h);
            && |d| >= 1 && d[0] == h.hi
            && if h.hi < 0x80 then
                 |d| == |h.value| + 3 && d[3..] == h.value && (d[1] as int) * 0x100 + d[2] == |d| % 0x1_0000
               else d[1..] == h.value
  {
    var d := Encode(h);
    if h.hi < 0x80 { assert d == [h.hi, d[1], d[2]] + h.value; }
  }

  function EncodeAll(hs: seq<Header>): seq<byte> {
    if hs == [] then [] else Encode(hs[0]) + EncodeAll(hs[1..])
  }

  lemma {:induction false} EncodeAllAppend(a: seq<Header>, b: seq<Header>)
    ensures EncodeAll(a + b) == EncodeAll(a) + EncodeAll(b)
  {
    if a == [] {
      assert a + b == b;
    } else {
      assert (a + b)[1..] == a[1..] + b;
      EncodeAllAppend(a[1..], b);
    }
  }

  /** What the receiver finds at the front of the octets still unparsed. */
  datatype Scan =
    | Found(header: Header, size: nat)
    | Malformed
    | OutOfBounds  // the value is read past the end of the packet

  /**
   The length check compares the value, not the whole header, with what is left, so a
   header cut short by up to the size of its own prefix is read out of bounds. A body
   that is delivered as a stream is handed to the application before that check.
   */
  function ScanHeader(d: seq<byte>, streaming: bool): (r: Scan)
    requires d != []
    ensures r.Found? ==> 2 <= r.size <= |d| && r.header.hi == d[0] && WellFormed(r.header)
  {
    var hi := d[0];
    match EncodingOf(hi)
    case OneByte => if |d| < 2 then OutOfBounds else Found(Header(hi, d[1..2]), 2)
    case FourByte =>
      if |d| < 4 then Malformed
      else if |d| < 5 then OutOfBounds
      else Found(Header(hi, d[1..5]), 5)
    case _ =>
      if |d| < 3 then OutOfBounds
      else
        var size := Read16(d, 1);
        if 3 <= size <= |d| then Found(Header(hi, d[3..size]), size)
        else if IsBody(hi) && streaming then OutOfBounds
        else if size < 3 || size - 3 > |d| then Malformed
        else OutOfBounds
  }

  /** Where the parts of an encoded header are. */
  lemma EncodedLayout(h: Header, rest: seq<byte>)
    requires WellFormed(h)
    ensures var d := Encode(h) + rest;
            var n := EncodedSize(h);
            && |d| >= n && d[0] == h.hi && d[n - |h.value|..n] == h.value && d[n..] == rest
            && (LengthPrefixed(h.hi) ==> n >= 3 && Read16(d, 1) == n)
  {
    var d := Encode(h) + rest;
    var n := EncodedSize(h);
    if LengthPrefixed(h.hi) {
      assert d[1] == n / 0x100 && d[2] == n % 0x100;
    }
  }

  /** Scanning is the left inverse of encoding, whatever follows. */
  lemma ScanEncoded(h: Header, rest: seq<byte>, streaming: bool)
    requires WellFormed(h)
    ensures ScanHeader(Encode(h) + rest, streaming) == Found(h, EncodedSize(h))
    ensures (Encode(h) + rest)[EncodedSize(h)..] == rest
  {
    hide Encode, Big16, Read16;
    EncodedLayout(h, rest);
  }

  lemma Big16Read(d: seq<byte>, at: nat)
    requires at + 2 <= |d|
    ensures Big16(Read16(d, at)) == d[at..at + 2]
  {
  }

  /** A found header, encoded again, is exactly the octets it was scanned from. */
  lemma EncodeScanned(d: seq<byte>, streaming: bool)
    requires d != [] && ScanHeader(d, streaming).Found?
    ensures var r := ScanHeader(d, streaming); Encode(r.header) == d[..r.size]
  {
    hide Big16, Read16;
    var r := ScanHeader(d, streaming);
    if LengthPrefixed(d[0]) {
      Big16Read(d, 1);
      assert d[..r.size] == d[..1] + d[1..3] + d[3..r.size];
    } else {
      assert d[..r.size] == d[..1] + d[1..r.size];
      assert [d[0]] + [] + r.header.value == d[..1] + d[1..r.size];
    }
  }

  datatype Outcome = Clean | Broken | Beyond

  datatype Parsed = Parsed(headers: seq<Header>, outcome: Outcome)

  /** All headers of a packet, up to the first one that cannot be accepted. */
  function ParseHeaders(d: seq<byte>, streaming: bool): Parsed {
    if d == [] then Parsed([], Clean)
    else
      match ScanHeader(d, streaming)
      case Malformed => Parsed([], Broken)
      case OutOfBounds => Parsed([], Beyond)
      case Found(h, size) =>
        var more := ParseHeaders(d[size..], streaming);
        Parsed([h] + more.headers, more.outcome)
  }

  /** Parsing gives back exactly the headers that were encoded. */
  lemma {:induction false} ParseEncoded(hs: seq<Header>, streaming: bool)
    requires AllWellFormed(hs)
    ensures ParseHeaders(EncodeAll(hs), streaming) == Parsed(hs, Clean)
  {
    if hs == [] {
    } else {
      ScanEncoded(hs[0], EncodeAll(hs[1..]), streaming);
      ParseEncoded(hs[1..], streaming);
    }
  }

  /** A packet that parses cleanly is the encoding of its headers, and of nothing else. */
  lemma {:induction false} EncodeParsed(d: seq<byte>, streaming: bool)
    requires ParseHeaders(d, streaming).outcome.Clean?
    ensures var hs := ParseHeaders(d, streaming).headers; AllWellFormed(hs) && EncodeAll(hs) == d
  {
    if d == [] {
    } else {
      var r := ScanHeader(d, streaming);
      EncodeScanned(d, streaming);
      EncodeParsed(d[r.size..], streaming);
      assert d == d[..r.size] + d[r.size..];
    }
  }

  method InsertUintHeader(msg: DataBuffer, hi: byte, value: u32) returns (size: nat)
    requires msg.Valid()
    modifies msg, msg.buffer
    ensures msg.Valid() && (msg.buffer == old(msg.buffer) || fresh(msg.buffer))
    ensures msg.Contents() == old(msg.Contents()) + [hi] + Big32(value) && size == 5
    ensures var n, c := |old(msg.Contents())|, msg.Contents();
            && |c| == n + 5 && c[..n] == old(msg.Contents()) && c[n] == hi
            && value == (c[n + 1] as int) * 0x100_0000 + (c[n + 2] as int) * 0x1_0000
                        + (c[n + 3] as int) * 0x100 + c[n + 4]
  {
    var at := msg.ReserveEnd(5);
    Big32Octets(value);
    msg.Fill(at, [hi] + Big32(value));
    assert msg.Contents() == old(msg.Contents()) + ([hi] + Big32(value));
    size := 5;
  }

  method InsertByteHeader(msg: DataBuffer, hi: byte, value: byte) returns (size: nat)
    requires msg.Valid()
    modifies msg, msg.buffer
    ensures msg.Valid() && (msg.buffer == old(msg.buffer) || fresh(msg.buffer))
    ensures msg.Contents() == old(msg.Contents()) + [hi, value] && size == 2
  {
    var at := msg.ReserveEnd(2);
    msg.Fill(at, [hi, value]);
    size := 2;
  }

  /** Serves unicode and byte-stream headers, whose layouts are the same. */
  method InsertSizedHeader(msg: DataBuffer, hi: byte, text: seq<byte>) returns (size: nat)
    requires msg.Valid()
    modifies msg, msg.buffer
    ensures msg.Valid() && (msg.buffer == old(msg.buffer) || fresh(msg.buffer))
    ensures msg.Contents() == old(msg.Contents()) + ([hi] + Big16((|text| + 3) % 0x1_0000) + text)
    ensures size == |text| + 3
    ensures var n, c := |old(msg.Contents())|, msg.Contents();
            && |c| == n + size && c[..n] == old(msg.Contents()) && c[n] == hi && c[n + 3..] == text
            && (c[n + 1] as int) * 0x100 + c[n + 2] == size % 0x1_0000
  {
    size := |text| + 3;
    var at := msg.ReserveEnd(size);
    msg.Fill(at, [hi] + Big16(size % 0x1_0000) + text);
  }
}
