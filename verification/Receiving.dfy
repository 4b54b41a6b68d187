/** Taking in the headers of one packet, turn by turn, as changes to the state of a handle. */
module Receiving {
  import opened Octets
  import opened Headers
  import opened Session

  /** All headers found in the octets, accepted one after the other. */
  function Accepted(p: Party, d: seq<byte>): (Party, Outcome)
    requires p.current.Some?
  {
    var parsed := ParseHeaders(d, p.current.value.rx.streaming);
    (AcceptAll(p, parsed.headers), parsed.outcome)
  }

  lemma ApplyStreaming(o: Object, mtuTx: u16, c: ApiCall)
    requires o.rx.streaming
    ensures Apply(o, mtuTx, c).rx.streaming
  {
  }

  lemma {:induction false} ApplyAllStreaming(o: Object, mtuTx: u16, calls: seq<ApiCall>)
    requires o.rx.streaming
    ensures ApplyAll(o, mtuTx, calls).rx.streaming
    decreases |calls|
  {
    hide Apply;
    if calls == [] {
    } else {
      ApplyStreaming(o, mtuTx, calls[0]);
      ApplyAllStreaming(Apply(o, mtuTx, calls[0]), mtuTx, calls[1..]);
    }
  }

  lemma ChunkStreaming(p: Party, chunk: seq<byte>)
    requires p.current.Some? && p.current.value.rx.streaming
    ensures StreamChunk(p, chunk).current.value.rx.streaming
  {
    var o := p.current.value;
    var calls := if p.script == [] then [] else p.script[0];
    ApplyAllStreaming(o.(stream := o.stream.(data := chunk)), p.mtuTx, calls);
  }

  /** Whether bodies are delivered as a stream cannot change in the middle of a packet. */
  lemma AcceptStreaming(p: Party, h: Header)
    requires p.current.Some?
    ensures AcceptHeader(p, h).current.Some?
    ensures AcceptHeader(p, h).current.value.rx.streaming == p.current.value.rx.streaming
  {
    var o := p.current.value;
    if IsBody(h.hi) && o.rx.streaming && !(h.hi == BODY && h.value == []) && !o.abort {
      ChunkStreaming(p, h.value);
      if h.hi == END_OF_BODY && h.value != [] {
        ChunkStreaming(StreamChunk(p, h.value), []);
      }
    }
  }

  /** One turn of the receiving loop. */
  lemma AcceptedStep(p: Party, d: seq<byte>)
    requires p.current.Some? && d != []
    ensures match ScanHeader(d, p.current.value.rx.streaming)
            case Malformed => Accepted(p, d) == (p, Broken)
            case OutOfBounds => Accepted(p, d) == (p, Beyond)
            case Found(h, size) =>
              && AcceptHeader(p, h).current.Some?
              && Accepted(p, d) == Accepted(AcceptHeader(p, h), d[size..])
  {
    match ScanHeader(d, p.current.value.rx.streaming)
    case Malformed =>
    case OutOfBounds =>
    case Found(h, size) =>
      AcceptStreaming(p, h);
      var more := ParseHeaders(d[size..], p.current.value.rx.streaming);
      assert ([h] + more.headers)[1..] == more.headers;
  }

  lemma AcceptedNothing(p: Party)
    requires p.current.Some?
    ensures Accepted(p, []) == (p, Clean)
  {
  }

  /** Receiving a packet is dropping its header, setting the non-header octets aside, and
      accepting the headers. */
  lemma ReceiveWhole(p: Party, packet: seq<byte>)
    requires p.current.Some?
    ensures var d := packet[if |packet| < 3 then |packet| else 3..];
            var o := p.current.value;
            Receive(p, packet) ==
            if |d| < o.headerOffset then TakeStale(p, packet)
            else if o.headerOffset == 0 then Accepted(p, d)
            else
              Accepted(p.(current := Some(o.(headerOffset := 0, rxNonHeader := Some(d[..o.headerOffset])))),
                       d[o.headerOffset..])
  {
    var d := packet[if |packet| < 3 then |packet| else 3..];
    if p.current.value.headerOffset == 0 { assert d[0..] == d; }
  }
}
