/** An outgoing packet being put together in its buffer. */
module Messages {
  import opened Octets
  import opened Buffers
  import opened Headers
  import opened Framing

  /** The message starts at the front of its buffer, which holds `size` octets and is the
      given one exactly as long as the message has not outgrown it. */
  ghost predicate Appending(msg: DataBuffer, size: nat, buf: array<byte>)
    reads msg
  {
    && msg.head == 0 && msg.tail == 0 && msg.TotalSize() == Max(size, msg.used)
    && (msg.buffer == buf <==> msg.used <= size)
  }

  /** A message is begun by forgetting the one before. */
  method StartMessage(msg: DataBuffer)
    requires msg.Valid()
    modifies msg
    ensures msg.Valid() && msg.buffer == old(msg.buffer) && msg.Contents() == []
    ensures Appending(msg, old(msg.TotalSize()), old(msg.buffer))
  {
    msg.Reuse();
    assert |msg.Contents()| == 0;
  }

  /** A message that leaves room for its header has not outgrown its buffer. */
  lemma RoomForHeader(msg: DataBuffer, size: nat, buf: array<byte>)
    requires msg.Valid() && Appending(msg, size, buf) && |msg.Contents()| + 3 <= size
    ensures msg.buffer == buf && 3 <= msg.head + msg.shared
  {
  }

  /** What the header will find. */
  lemma RoomOfHeader(msg: DataBuffer, size: nat, buf: array<byte>)
    requires msg.Valid() && Appending(msg, size, buf)
    ensures msg.TotalSize() + Monus(3, msg.head + msg.shared) == Max(size, |msg.Contents()| + 3)
  {
  }

  lemma AppendingUsed(msg: DataBuffer, size: nat, buf: array<byte>)
    requires msg.Valid() && Appending(msg, size, buf)
    ensures msg.buffer == buf <==> |msg.Contents()| <= size
  {
  }

  /** Where the message now is, and what is allocated for it, taken for a new beginning. */
  lemma AppendingAnew(msg: DataBuffer, size: nat, buf: array<byte>)
    requires msg.Valid() && Appending(msg, size, buf)
    ensures Appending(msg, msg.TotalSize(), msg.buffer) && msg.TotalSize() == Max(size, |msg.Contents()|)
    ensures msg.buffer == buf <==> |msg.Contents()| <= size
  {
  }

  /** Appended to since then, it is also what it was before. */
  lemma AppendedSince(msg: DataBuffer, size: nat, buf: array<byte>, used: nat, size': nat, buf': array<byte>)
    requires msg.Valid() && Appending(msg, size', buf') && used <= |msg.Contents()|
    requires size' == Max(size, used) && (buf' == buf <==> used <= size)
    requires msg.buffer == buf' || msg.buffer != buf
    ensures Appending(msg, size, buf)
  {
  }

  method Append(msg: DataBuffer, octets: seq<byte>, ghost size: nat, ghost buf: array<byte>)
    requires msg.Valid() && Appending(msg, size, buf)
    modifies msg, msg.buffer
    ensures msg.Valid() && (msg.buffer == old(msg.buffer) || fresh(msg.buffer)) && Appending(msg, size, buf)
    ensures msg.Contents() == old(msg.Contents()) + octets
  {
    hide DataBuffer.Contents, DataBuffer.Valid;
    msg.InsertEnd(octets);
  }

  /** Room for the header of a fragment, to be filled in once its length is known. */
  method ReservePrefix(msg: DataBuffer, ghost size: nat, ghost buf: array<byte>) returns (at: nat)
    requires msg.Valid() && Appending(msg, size, buf)
    modifies msg, msg.buffer
    ensures msg.Valid() && (msg.buffer == old(msg.buffer) || fresh(msg.buffer)) && Appending(msg, size, buf)
    ensures at == |old(msg.Contents())| && |msg.Contents()| == at + 3 && msg.Contents()[..at] == old(msg.Contents())
  {
    at := msg.ReserveEnd(3);
  }

  /** The header of a fragment: a body identifier and the length of the fragment. */
  method PutPrefix(msg: DataBuffer, at: nat, hi: byte, length: nat, ghost size: nat, ghost buf: array<byte>)
    requires msg.Valid() && Appending(msg, size, buf) && at + 3 <= |msg.Contents()|
    modifies msg.buffer
    ensures msg.Valid() && Appending(msg, size, buf)
    ensures var before := old(msg.Contents());
            msg.Contents() == before[..at] + ([hi] + Big16(length % 0x1_0000)) + before[at + 3..]
  {
    msg.Fill(at, [hi] + Big16(length % 0x1_0000));
  }

  /** A fragment of a body, with a byte-stream header in front of it. */
  method InsertFragment(msg: DataBuffer, hi: byte, octets: seq<byte>, ghost size: nat, ghost buf: array<byte>)
    requires msg.Valid() && IsBody(hi) && Appending(msg, size, buf)
    modifies msg, msg.buffer
    ensures msg.Valid() && (msg.buffer == old(msg.buffer) || fresh(msg.buffer)) && Appending(msg, size, buf)
    ensures msg.Contents() == old(msg.Contents()) + Encode(Header(hi, octets))
  {
    hide DataBuffer.Contents, DataBuffer.Valid, Appending;
    ghost var before := msg.Contents();
    var at := ReservePrefix(msg, size, buf);
    PutPrefix(msg, at, hi, |octets| + 3, size, buf);
    Append(msg, octets, size, buf);
    assert Encode(Header(hi, octets)) == [hi] + Big16((|octets| + 3) % 0x1_0000) + octets;
  }

  /** The packet header, in front of everything else; its length field keeps 16 bits. */
  method PutHeader(msg: DataBuffer, opcode: byte)
    requires msg.Valid()
    modifies msg, msg.buffer
    ensures msg.Valid() && (msg.buffer == old(msg.buffer) || fresh(msg.buffer))
    ensures msg.Contents() == Frame(opcode, old(msg.Contents()))
    ensures var c := msg.Contents();
            && |c| == |old(msg.Contents())| + 3 && c[0] == opcode && c[3..] == old(msg.Contents())
            && (c[1] as int) * 0x100 + c[2] == |c| % 0x1_0000
    ensures 3 <= old(msg.head + msg.shared) ==> msg.buffer == old(msg.buffer)
    ensures msg.TotalSize() == old(msg.TotalSize()) + Monus(3, old(msg.head + msg.shared))
  {
    ghost var payload := msg.Contents();
    var at := msg.ReserveBegin(3);
    assert msg.Contents()[3..] == payload;
    msg.Fill(at, [opcode] + Big16(msg.used % 0x1_0000));
    assert msg.Contents() == Frame(opcode, payload);
    FrameOctets(opcode, payload);
  }
}
