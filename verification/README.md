# OpenOBEX session engine: a Dafny model

This project models the session engine of OpenOBEX, the library in `lib/` that speaks the
IrDA Object Exchange Protocol (IrOBEX), and proves what the engine keeps over whole
transfers and whole runs. Each layer is stated once as functions on values and, where the
library updates state in place, once more as classes and methods with loops that are
proved to take the state exactly where the functions say.

The layers, bottom up:

* `Octets`, `DataBuffer` (module `Buffers`), `HeaderList` (module `Lists`): octets in
  network order, the double-ended growable buffer with its four counters, the linked list.
* `Headers`, `Fragmenter`, `Reassembler`, `Transfer`, `Streaming`: the header encoding
  (section 2.1 of IrOBEX), the packing of a queue into packets, the joining of body
  fragments (section 2.2.9), whole transfers, and bodies handed over as a stream. `Sizes` and
  `Outcomes` tell from the sizes in a queue alone how large each packet is and what becomes of
  the transfer.
* `Framing`: packets recovered from a byte stream under short reads, and written under
  short writes.
* `Session`: the whole state of a handle (`Party`), every step of the server and of the
  client (sections 3.1 and 3.2), connecting (section 3.3.1), aborting (section 3.3.5). The
  application is a script of calls to the API, one list per event, and a feed of answers to
  requests for stream data; the link is a list of write results. All are arbitrary.
* `SessionFacts`, `Events`, `Lifetime`, `Grammar`, `Reports`, `ClientReports`, `Progress`,
  `Refusal`, `Rejections`, `FinalBits`, `Bounds`, `Queueing`: what holds over every run of one
  handle, and what its application is told. `Wire` spells out the simplest packets octet by octet.
* `Lockstep`: two handles joined by two wires. The wires carry octets, and a turn takes the
  packet at the front of one of them, as `Framing` cuts it; turns come in any order. On it
  stand `Put`, `PutServer`, `PutClient`, `PutRun`, `PutAdds`, `PutBodies`, `Loads`, `PutEnds`,
  `PutExact`, `PutCases` (a PUT from end to end), `Responses`, `ResponseRun` (a response, such as
  that to a GET, from end to end), `Rooms`, `Abort`, `LateAbort`, `Connect`, `Agreement` and
  `Disconnect`.
* `Messages`, `Objects`, `Sending`, `Receiving`, `Engine`, `Driver`: the handle and its
  object as classes whose methods change fields, buffers and queues in place; `View()` is
  the `Party` they stand for, and the methods of `Engine.Obex` for the server, the client and
  their objects are proved to be the steps of `Session`. `Driver.Drive` carries this through
  whole runs, and `Driver.Serve` feeds such a run from a byte stream, so that the theorems
  about runs hold of the objects in memory.
* `Names`: the two unicode conversions.

Where the C code leaves defined behaviour the model sets `fault` and says nothing further: a
null object, a read past the packet, room for a fragment's own prefix missing, a pointer used
after the buffer it points into has been reallocated. For the last of these a party keeps the
sizes of its two buffers (`rxRoom`, `txRoom`), and whether the beginning of a packet was read in
an earlier call is part of the run (`Begins`, `ServerReads`, `ClientReads`). What the receive
buffer still holds behind short packets is arbitrary, and may differ each time (`stale`).

## What came out

* A packet of more than 65535 octets goes out with a length field that says less
  (lib/obex_main.c:213). On handles with the largest packet size a PUT of a 65529-octet body
  and a one-octet header leaves as one packet of 65537 octets and length 1, and the server
  reports a request without headers (`PutCases.OversizePut`). Packets are recovered from the
  wire exactly when each is at most 65535 octets long (`SplitExactly`, `FrameWholeExactly`);
  which PUTs keep to that, and complete, is `PutExactTheorem`.
* The input routine looks up the final bit of a packet where the packet was when its length
  was read (lib/obex_main.c:262-307). A call that finds out the length and reads the rest has
  moved the buffer by then exactly when the packet is larger than the buffer was
  (`DataIndication`). A packet within the buffer is never affected (`FittingStays`); whether a
  larger one is depends on how its octets are cut into reads (`LargerDepends`). `PutCases.OutgrownPut` is a PUT of ordinary size between handles
  that agree on 255 octets whose first packet has 257. `PutExactTheorem` says which PUTs complete
  in every run and which in none, and `PutDependsTheorem` that for those in between both happen.
* Copying stream data may move the transmit buffer away from the prefix that is filled in
  afterwards (lib/obex_object.c:296 and 347-357). `PackFaults` and `CourseExact` say exactly when;
  two bodies of one octet and a stream of 245 are an instance (`StreamAstray`).
* A server that accepts with SUCCESS in place of CONTINUE ends the request of a client that has
  more to send: the client is told of success, the server reports nothing
  (`PutCases.EarlySuccess`). `PutTheorem` says that this happens if and only if SUCCESS is in
  place when a packet that is not the last is answered.
* Headers added to a PUT after its last packet has gone out are lost without notice
  (`LateAddsTheorem`); those added before that are part of the request (`PutAdds.PutTheorem`).
* A body followed by more headers can take a packet over its size: a finished body is
  charged three octets too little. `BudgetExceededExactly` gives the exact condition on the
  sizes queued, `PackBound` the bound, `BudgetExceeded` an instance.
* A body or stream met with one or two octets of room wraps the remaining room around.
  `PackFaults` says exactly when for one packet; `CourseExact` says for whole transfers of
  any queue which of four things happens: it is delivered, it goes astray in this way or the one
  before, a header is rejected, or packets go out for ever without progress.
* After IrDA rounding a header that was accepted may fit no packet; the engine then sends
  packet after packet without it, exactly when the header is larger than the budget and not
  than the packet size (`StarvesExactly`; an instance is `RoundingStarves`). A queue of
  headers gets through exactly when each is within the budget (`HeadersGetThrough`).
* The flag that asks for everything to fit one packet is ignored once the running total has
  passed the packet size, because the difference is unsigned (`FlagHonoured`, `FlagIgnored`).
* A second failed read within one call goes unnoticed and completes the packet with octets
  that were never received (`DataIndication`): lib/obex_main.c:256 has moved the null
  pointer that the check looks at.
* A feed that reaches past the end of a packet loses the surplus, and only then are octets
  lost (`FeedLoses`).
* Cancelling nicely leads both ends to one ABORT event each and to rest in at most four moves
  when the ABORT finds the request at the server, that is, before the final packet, or while a
  long response is not yet sent whole (`AbortTheorem`; `ResponseDecides` says when that is). If
  the server is done with the request by then, the client takes the pending answer for the answer
  to its ABORT and turns server, and the two handles then answer each other without end
  (`LateAbortNeverRests`, `LateAbortGoesOn`). `LateAbort.CancelTheorem` puts the two together for
  every point of every run, for servers that add headers of their own as well.
* The documentation of `OBEX_CancelRequest` (lib/obex.c:562-563) promises a server an
  UNAUTHORIZED response; the code (lib/obex_main.c:348-368) sends an ABORT request and makes
  the handle a client. The model follows the code.
* A CONNECT spread over several packets is not read for the peer's packet size
  (`UnfinishedConnectIgnored`).
* `OBEX_SetTransportMTU` (lib/obex.c:281-307) resizes the buffers but not the packet size in
  use, so a lower limit can leave packets larger than the transmit buffer. `DriveWithin`
  therefore asks that the packet size is within the limit, as it is at every point of every
  run of a handle whose limits are left alone (`LifetimeTheorem`).

## Model

| member | source | states |
|---|---|---|
| `Buffers.DataBuffer.constructor` | lib/databuffer.c:76-94 | a new buffer is empty, and all of its allocation can be reserved at the back |
| `Buffers.DataBuffer.Resize` | lib/databuffer.c:103-162 | growing keeps the contents and adds shared space; shrinking keeps a prefix and eats shared space, tail, head, data in that order; the counters again add up to the allocation |
| `Buffers.DataBuffer.Shrink` | lib/databuffer.c:111-147 | which of the four counters gives up how much, and that the surviving octets are a prefix at the new head offset |
| `Buffers.DataBuffer.Reuse` | lib/databuffer.c:164-174 | the contents are forgotten, the allocation is kept whole |
| `Buffers.DataBuffer.ReserveBegin` | lib/databuffer.c:176-202 | the old contents follow the reserved octets; the allocation changes only when head and shared space together are too small, and then by exactly the shortfall |
| `Buffers.DataBuffer.FreeHead` | lib/databuffer.c:180-195 | moving the data up leaves the contents and makes exactly the wanted room in front |
| `Buffers.DataBuffer.ReserveEnd` | lib/databuffer.c:204-230 | the old contents precede the reserved octets; the allocation changes only when the room at the back is too small, and then by exactly the shortfall; the offset answered is where the reserved octets begin |
| `Buffers.DataBuffer.InsertBegin` | lib/databuffer.c:232-239 | prepending to a sequence |
| `Buffers.DataBuffer.InsertEnd` | lib/databuffer.c:241-248 | appending to a sequence, with the growth of the allocation |
| `Buffers.DataBuffer.RemoveBegin` | lib/databuffer.c:250-262 | dropping a prefix, all of it when there is less; the allocation and the room at the back are unchanged |
| `Buffers.DataBuffer.RemoveEnd` | lib/databuffer.c:264-275 | dropping a suffix, all of it when there is less; the room at the back grows by what was dropped |
| `Lists.HeaderList.Append` | lib/databuffer.c:30-45 | the list is the old list followed by the element, through any chain of nodes |
| `Lists.HeaderList.Unlink` | lib/databuffer.c:57-69 | relinking around a node removes exactly that position and leaves a well-formed chain |
| `Lists.HeaderList.Remove` | lib/databuffer.c:47-74 | the list without any occurrence of the element |
| `Lists.WithoutFront` | lib/obex_object.c:64-75 | with no element queued twice, removing the first element leaves the tail, as every user of the queue relies on |
| `Headers.InsertUintHeader` | lib/obex_header.c:41-58 | appends identifier and four octets whose weights, from the first on, are 0x1000000, 0x10000, 0x100 and 1 |
| `Headers.InsertByteHeader` | lib/obex_header.c:61-79 | appends identifier and one octet |
| `Headers.InsertSizedHeader` | lib/obex_header.c:82-127 | appends identifier, total size in 16 bits with 0x100 the weight of the first octet, and the value, for unicode and byte streams alike |
| `Headers.EncodedOctets` | lib/obex_header.c:41-127 | a header by arithmetic: below 0x80 the identifier is followed by the size of the whole header, first octet first in weight, and above by the value at once |
| `Headers.ScanHeader` | lib/obex_object.c:773-834 | a header found lies within the packet, moves the parser by at least two octets, and has a value of the size its encoding calls for |
| `Headers.ScanEncoded` | lib/obex_object.c:773-834 | scanning inverts encoding, whatever follows |
| `Headers.EncodeScanned` | lib/obex_object.c:773-834 | a header found, encoded again, is the octets it was scanned from |
| `Headers.ParseEncoded` | lib/obex_object.c:773-881 | a packet of encoded headers parses to those headers, with nothing left and no error |
| `Headers.EncodeParsed` | lib/obex_object.c:773-881 | a packet that parses cleanly is the encoding of the headers parsed, and of nothing else |
| `Fragmenter.FillStream` | lib/obex_object.c:310-342 | a fragment never exceeds its room; one that is not full means that the end was signalled |
| `Fragmenter.PackBound` | lib/obex_object.c:471-522 | a packet exceeds its budget by at most three octets for every body finished in it before something else was packed |
| `Fragmenter.PackWithinBudget` | lib/obex_object.c:388-415 | with the body last in the queue no packet exceeds its budget, and the rest of the queue again has its body last |
| `Fragmenter.BudgetExceeded` | lib/obex_object.c:400-407 | an instance of the excess: a body and a one-octet header overrun a 252-octet budget by two |
| `Fragmenter.PackWellFormed` | lib/obex_object.c:295-415 | every length field in a packet is exact |
| `Fragmenter.PackExact` | lib/obex_object.c:471-522 | the size of a packet to the octet: the budget spent plus three for each body finished |
| `Fragmenter.PackAll` | lib/obex_object.c:471-522 | a queue whose elements add up to no more than the budget leaves in one packet |
| `Fragmenter.FillWellFed` | lib/obex_object.c:310-342 | copying never fails, and the rest of the feed stays proper, when the application supplies data until it signals the end |
| `Fragmenter.FillConserves` | lib/obex_object.c:310-342 | what is copied followed by what is left is what there was |
| `Fragmenter.FillTidy` | lib/obex_object.c:344-353 | when the end comes as an empty call, no data is left behind at the end |
| `Fragmenter.PackAsks` | lib/obex_object.c:306-342 | over a whole packet the application is asked once for every answer with stream data used up, and they are used up in order |
| `Fragmenter.PackFaults` | lib/obex_object.c:295-357 | a body or stream behind other headers goes wrong exactly when those leave one or two octets of the budget, or when the stream data copied makes the buffer move away from the prefix |
| `Reassembler.StepKeeps` | lib/obex_object.c:471-522 | one turn of the packing loop, received, conserves: headers received followed by headers pending never change |
| `Reassembler.PackKeeps` | lib/obex_object.c:674-732 | a whole packet, received, conserves the same |
| `Transfer.TransferKeeps` | lib/obex_object.c:740-881 | any number of packets, through their octets, conserves the same |
| `Transfer.RoundTrip` | lib/obex_object.c:369-415 | once the queue is empty the receiver holds exactly the queued headers in order, bodies of any length whole and empty markers erased |
| `Transfer.TransferEnds` | lib/obex_object.c:426-555 | the weight of the queue bounds the number of packets |
| `Transfer.BodyPackets` | lib/obex_object.c:388-400 | a body takes exactly the computed number of packets: that many empty the queue, one less does not |
| `Transfer.PacketsForCeiling` | lib/obex_object.c:388-400 | that number is max(1, ceil(n / room)) |
| `Sizes.ProperFill` | lib/obex_object.c:310-357 | a stream fragment takes as much as there is room for, and is the last exactly when the stream had less than that, or nothing |
| `Sizes.PackFilled` | lib/obex_object.c:471-522 | packing follows the sizes alone: status, room left, bodies finished and sizes remaining are those of the greedy filling |
| `Sizes.BudgetExceededExactly` | lib/obex_object.c:400-407 | a packet exceeds its budget if and only if the bodies finished in it, at three octets each, outweigh what the sizes leave of the budget |
| `Outcomes.CourseExact` | lib/obex_object.c:295-415 | for any queue, bodies and headers in any order, in a buffer of any size: delivered, gone astray, rejected or never progressing, each if and only if the sizes say so |
| `Outcomes.TransferExact` | lib/obex_object.c:426-555 | a queue arrives as exactly what it stands for if and only if its sizes say that it is delivered |
| `Outcomes.StreamAstray` | lib/obex_object.c:347-357 | an instance: behind two bodies of one octet a stream goes astray from 245 octets on |
| `Outcomes.HeadersDelivered` | lib/obex_object.c:443-522 | a queue of headers is delivered if and only if each fits the budget of a packet |
| `Outcomes.PassesExact` | lib/obex_main.c:210-214 | a transfer is delivered in packets of at most so many octets, and without the buffer moving under a stream, if and only if the sizes pass |
| `Streaming.StreamRoundTrip` | lib/obex_object.c:638-666 | for a receiver that takes bodies as streams, the chunks handed over assemble to the bodies and streams queued, however they were cut |
| `Streaming.StreamedBody` | lib/obex_object.c:295-357 | a stream fed with any chunks and ended reaches the application as non-empty chunks with the same content and exactly one empty chunk, the last |
| `Events.ChunksOffered` | lib/obex_object.c:638-666 | whatever the application does meanwhile, a streaming receiver raises exactly one STREAMAVAIL event per chunk of the packet, in order, and keeps the other headers |
| `Framing.SplitExtended` | lib/obex_main.c:260-304 | splitting a stream commutes with the arrival of more octets |
| `Framing.SplitJoined` | lib/obex_main.c:260-304 | packets written back to back are recovered one by one |
| `Framing.SplitExactly` | lib/obex_main.c:260-304 | packets are recovered from the wire if and only if the length field of each gives its length |
| `Framing.FrameWholeExactly` | lib/obex_main.c:210-214 | the length field gives the length if and only if that is at most 65535 |
| `Framing.FrameOctets` | lib/obex_main.c:210-214 | a packet by arithmetic: opcode, the whole length with 0x100 the weight of its first octet, payload |
| `Framing.CallsTakeFirst` | lib/obex_main.c:244-318 | however the octets are read, the calls up to the next dispatch take exactly the packet at the front of the wire |
| `Framing.ChunkingIsIrrelevant` | lib/obex_main.c:244-318 | for every sequence of reads the packets dispatched are the split of the octets consumed, and no octet of a later packet has been consumed; what does depend on the cut is stated by FittingStays and LargerDepends |
| `Framing.FittingStays` | lib/obex_main.c:262-307 | a packet within the receive buffer never makes it move between the look at its length and the look at its final bit, however it is read |
| `Framing.LargerDepends` | lib/obex_main.c:262-307 | for every larger one there are reads for which the buffer moves in between, and reads for which it does not |
| `Framing.TransportRead` | lib/obex_transport.c:497-510 | a successful read appends what was received and nothing else; after a failed one the reserved octets stay |
| `Framing.DataIndication` | lib/obex_main.c:229-323 | without a failed read a call waits with an incomplete packet or dispatches a whole one, losing nothing; the buffer moves under the pointer to its first octet exactly when the packet is larger than the buffer was; exactly when a failed read ends the link, and what a missed one does |
| `Framing.CustomDataFeed` | lib/obex_transport.c:533-541 | a feed completes at most one packet; what is left of it is lost |
| `Framing.FeedInPieces` | lib/obex_transport.c:533-541 | on a custom transport two feeds do what one does: neither the packet handed out nor whether the buffer moved under it depends on the cut |
| `Framing.FeedsAgree` | lib/obex_transport.c:533-541 | feeding agrees with splitting as long as no feed crosses the end of a packet |
| `Framing.FeedLoses` | lib/obex_transport.c:533-541 | no octet is lost if and only if no feed crosses |
| `Framing.WriteSome` | lib/obex_transport.c:378-391 | one write of at most the link size, and the message without what it took |
| `Framing.DoWrite` | lib/obex_transport.c:371-394 | what was written followed by what is left is the message; it is sent whole exactly when the last write gave something; with no short write the writes are the message cut evenly |
| `Framing.ChopEven` | lib/obex_transport.c:378-391 | a message whose size is a multiple of the link size leaves in full-size writes |
| `SessionFacts.ApplyAllKeeps` | lib/obex_object.c:129-277 | no calls of the application change what has been received, the identity of the object, or its abort, check and send marks |
| `SessionFacts.SendKeeps` | lib/obex_object.c:426-555 | sending adds requests for stream data to the record and exactly one packet, or none when it fails, and touches nothing else of the handle |
| `Wire.BareRequest` | lib/obex_connect.c:43-62 | octet by octet: a request of any command without headers, and the version, flags and receive size in a CONNECT |
| `Wire.BodyRequest` | lib/obex_object.c:369-415 | octet by octet: the first packet of a PUT of a body of any length, whole behind 0x49 or cut behind 0x48, with the final bit or without |
| `Wire.CancelOctets` | lib/obex_main.c:348-368 | octet by octet: what a nice cancel sends |
| `Wire.FirstAnswer` | lib/obex_server.c:135-178 | octet by octet: which of the two responses set by the application answers a first packet, by its final bit and by the class of the response |
| `Wire.SilentAnswer` | lib/obex_object.c:43-62 | a server whose application sets no response answers 0xd1 |
| `FinalBits.FinalBit` | lib/obex_object.c:524-545 | a server packet always has the final bit; a client packet has it exactly when it empties the queue |
| `FinalBits.StartMarks` | lib/obex_client.c:106-130 | the first packet of a request has the final bit exactly when nothing is left to send |
| `FinalBits.FinalTheorem` | lib/obex_client.c:132-182 | over every run of answers to a client whose application adds nothing: the last packet has the final bit exactly when nothing is left, and once a packet has it all later ones have it |
| `Lifetime.FinishGood` | lib/obex_main.c:163-177 | ending a request keeps the record of objects orderly and leaves the handle idle |
| `Lifetime.ServerStepGood` | lib/obex_server.c:55-272 | every server step, on every packet, keeps every object with at most one terminal event and the handle idle exactly when it has no object |
| `Lifetime.ClientReceiveGood` | lib/obex_client.c:132-196 | the same for a client that gets a response |
| `Lifetime.LifetimeTheorem` | lib/obex_main.c:163-177 | over every run: each object gets exactly one terminal event, no event names it afterwards, it is released once; until a link error the handle is idle exactly when it has no object, and no client is ever in the state of sending; the packet size in use never passes the handle's own limit |
| `Grammar.GrammarTheorem` | lib/obex_server.c:80-263 | over every run of a server: each request opens with REQHINT, has at most one REQCHECK, before any PROGRESS or REQ, at most one REQ, and one end |
| `Reports.CommandTheorem` | lib/obex_server.c:80-263 | at every point of every run at which a handle is a server, for every packet: each REQHINT, REQCHECK, PROGRESS, REQ and REQDONE names the opcode octet of the packet without its final bit, and every event the mode, and the response it must |
| `Reports.StepSays` | lib/obex_server.c:43-273 | the same for one step from any state of a server |
| `Reports.ReceivingTells` | lib/obex_server.c:102-178 | every event raised over a packet of a request, but for stream data, shows what was held before followed by the packet's headers |
| `Reports.RespondingTells` | lib/obex_server.c:181-264 | in the middle of a response, the events after a packet with unexpected headers show those as well |
| `Reports.RequestReported` | lib/obex_server.c:165-178 | a whole request is reported at once, with everything held |
| `Reports.SendAsks` | lib/obex_object.c:306-342 | sending a packet raises exactly one STREAMEMPTY event for every such answer, about the object sent |
| `Reports.OpeningShown` | lib/obex_server.c:77-100 | the packet that opens a request: REQHINT before anything is taken in, then exactly the headers behind the four octets of a CONNECT, the two of a SETPATH or none |
| `Reports.PreambleTaken` | lib/obex_object.c:759-771 | the octets announced before the headers are set aside, by position, and the headers are those behind them |
| `Reports.PreambleShort` | lib/obex_object.c:762-771 | a packet shorter than announced: its octets first, then those the buffer holds behind it |
| `ClientReports.RequestCommandTheorem` | lib/obex_client.c:106-196 | over every run of a request of any command: each PROGRESS, REQDONE, ABORT and PARSEERR about it names the command it was started with |
| `ClientReports.ReceiveMoves` | lib/obex_client.c:132-196 | for one response: the same, and the event that ends the request names the response without its final bit |
| `ClientReports.AnswerShown` | lib/obex_client.c:132-194 | the response that ends a request raises one event, which shows the headers held before followed by those of the packet, behind four octets after a CONNECT |
| `Progress.ServerProgress` | lib/obex_server.c:157-163 | a server that still has its request after a packet has raised PROGRESS last, from whatever state |
| `Progress.UnexpectedTold` | lib/obex_server.c:196-226 | headers in the middle of a response are reported by UNEXPECTED, before the next packet of it |
| `Progress.StartProgress` | lib/obex_client.c:116-130 | a client that has sent the first packet of its request has raised PROGRESS last |
| `Progress.ClientProgress` | lib/obex_client.c:161-182 | and so has one that still has its request after a packet of the response |
| `Refusal.RefusedTheorem` | lib/obex_server.c:135-178 | over every run: a request refused on a packet that is not its last, the first or a later one, is never reported by a REQ event, whatever follows |
| `Refusal.AcceptingExactly` | lib/obex_server.c:143-155 | the responses that let a request go on are, without the final bit, those from 0x10 to 0x2f |
| `Rejections.AbortEnds` | lib/obex_server.c:106-115 | an ABORT at any point of a request or its response: SUCCESS goes out, ABORT is raised last, the handle is at rest |
| `Rejections.StrangerEnds` | lib/obex_server.c:117-125 | a packet of another command in a request: BAD_REQUEST goes out, PARSEERR is raised last, the handle is at rest |
| `Rejections.BrokenEnds` | lib/obex_server.c:127-133 | the same for headers that make no sense, in a request or in the middle of a response |
| `Rejections.ConnectTailEnds` | lib/obex_server.c:219-225 | the same for a CONNECT with headers while it is being answered |
| `Rejections.ShortConnectEnds` | lib/obex_server.c:83-91 | a CONNECT too short to carry a packet size is announced, refused with BAD_REQUEST and teaches nothing |
| `Rejections.CancelledAnswer` | lib/obex_client.c:160-195 | a client that has cancelled: CONTINUE keeps it waiting, SUCCESS ends the request with ABORT, any other response with LINKERR, and nothing is sent |
| `Rejections.CancelUnsent` | lib/obex_main.c:348-368 | a cancel that cannot be written leaves the request as it was |
| `Rejections.LinkDownEnds` | lib/obex_main.c:229-323 | a lost link ends the request with LINKERR |
| `Rejections.ReplyFailureEnds` | lib/obex_server.c:245-254 | a packet of a response that cannot be sent ends the request with LINKERR |
| `Rejections.MoreFailureEnds` | lib/obex_server.c:157-161 | so does one that asks for more of a request |
| `Rejections.StartFailureEnds` | lib/obex_client.c:116-122 | so does the first of a request |
| `Rejections.ContinueFailureEnds` | lib/obex_client.c:176-177 | so does any later one |
| `Lockstep.ServerStepAnswers` | lib/obex_server.c:55-272 | every packet is answered by exactly one, with the final bit; only CONNECT and DISCONNECT change the packet size |
| `Lockstep.ClientReceiveProceeds` | lib/obex_client.c:132-196 | a client sends exactly one packet per CONTINUE and none when the request ends |
| `Lockstep.LockstepTheorem` | lib/obex_client.c:116-177 | in every order of turns the two wires together hold one whole packet while the client waits and nothing while it rests, until a run is over |
| `PutServer.TakesMore` | lib/obex_server.c:135-164 | a packet without the final bit is taken in, by storing or streaming, and answered with a response that asks for more, or the request is refused and never reported |
| `PutServer.TakesLast` | lib/obex_server.c:165-263 | the last packet raises REQ with everything received and begins the response |
| `PutServer.Replies` | lib/obex_server.c:240-263 | each packet of a response is final; the last carries the last response and ends the request |
| `PutClient.TakesAnswer` | lib/obex_client.c:132-196 | CONTINUE makes the client send the next packet of its queue, any other response ends the request, and the last event, which names the response, shows the headers held before followed by those of the packet |
| `PutAdds.PutTheorem` | lib/obex_server.c:99-264 | in every run of a PUT, whatever response the server's application gives and headers it adds, after any earlier requests, however packets are read, and with headers added on the way: the server reports at most one request, and it is a PUT with exactly the headers queued and added, in order, or as chunks that make up the same bodies; a client that got a response is told of success before that if and only if SUCCESS was in place when a packet that was not the last was answered; and with an application that accepts with CONTINUE its request ends only after the report |
| `PutAdds.LateAddsTheorem` | lib/obex_object.c:524-545 | headers added once the queue is empty are lost: the server reports the request without them, and the client is told of success |
| `PutAdds.ProgressAdds` | lib/obex_client.c:106-182 | headers added in the PROGRESS event behind a packet are added as if right after the turn that sent it |
| `PutBodies.BodyPut` | lib/obex_object.c:256-262 | for a body of any length, added in one call: it is all that is queued, and in every run the server is told of that body and nothing else, or of nothing |
| `PutBodies.OneHeaderPut` | lib/obex_object.c:152-277 | the same for any header that fits |
| `PutBodies.NumberPut` | lib/obex_object.c:179-213 | a number added in a four-octet header reads at the server, by the weights of the octets, as that number |
| `PutCases.OversizePut` | lib/obex_main.c:210-214 | an input on which a PUT goes astray: a packet of 65537 octets, of which the server takes the first three for a whole request |
| `PutCases.OutgrownPut` | lib/obex_main.c:262-307 | handles that agree on 255 octets, headers that fit, and a first packet of 257: read whole, the server leaves defined behaviour; with its beginning read first, it does not |
| `PutCases.EarlySuccess` | lib/obex_server.c:146-153 | an application that accepts with SUCCESS too early: the client reports success after its first packet and rests, the server has reported nothing and waits |
| `PutCases.StreamedPut` | lib/obex_object.c:295-357 | in every run of a PUT with a stream behind other headers a streaming server gets non-empty chunks of the content fed in and exactly one empty chunk, the last |
| `Loads.SendLoad` | lib/obex_object.c:471-522 | every packet of a response lightens what the server still has to send |
| `PutEnds.PutAdvances` | lib/obex_client.c:106-196 | at every point of such a PUT exactly one side can move, and its move brings the end nearer or the run is over |
| `PutEnds.PutEndsTheorem` | lib/obex_client.c:106-196 | for every queue whose headers fit, bodies and streams in any places, and a server that may add headers of its own, whatever it answers: the moves are bounded, and at rest the run is over or the client has its answer, and with a server that accepts the transfer is complete; a packet read whole that the receive buffer cannot hold ends the run |
| `PutExact.PutExactTheorem` | lib/obex_client.c:106-196 | a PUT to a server that adds nothing, or headers that each fit a packet the client can hold, completes in every order of turns and reads, in a bounded number of moves, if the sizes of its queue pass in packets the server can hold, and in none if they do not pass in packets of 65535 octets |
| `PutExact.PutNeverTheorem` | lib/obex_main.c:210-214 | if the sizes do not pass in packets of 65535 octets no run ever gets the request reported, whatever the server answers or adds |
| `PutExact.PutDependsTheorem` | lib/obex_main.c:262-307 | in between it depends on the reads alone: one run completes, and in another the server leaves defined behaviour |
| `Responses.ServerSpeaks` | lib/obex_server.c:157-264 | one packet of any request but CONNECT: what the server puts out continues what its application has queued for the response, nothing lost and nothing twice |
| `ResponseRun.ClientHeeds` | lib/obex_client.c:132-196 | one packet of a response: the client holds what it held and the packet's headers, and goes on after CONTINUE or is done and shows them |
| `ResponseRun.ResponseTheorem` | lib/obex_client.c:153-194 | in every run of a request of any command but CONNECT, however packets are read and over however many: the headers shown with the client's REQDONE are, in order and with bodies rejoined, those the server's application has queued for the response; all of them when the server has answered whole, which it has if its application answers CONTINUE until the last packet, unless the server has given the request up |
| `ResponseRun.GetTheorem` | lib/obex_client.c:183-194 | a GET answered with a body of any length: the client's REQDONE shows that body and nothing else |
| `Abort.CancelStarts` | lib/obex_main.c:348-368 | a nice cancel adds one ABORT behind whatever is outstanding and leaves the client waiting |
| `Abort.AbortTheorem` | lib/obex_main.c:348-368 | cancelled before its final packet, or after it while the server still has the request when the ABORT comes, for every position of the outstanding packet and for servers that add headers: no more than four moves, and at rest both ends have reported ABORT exactly once and nothing else, and are idle without an object |
| `Abort.ResponseDecides` | lib/obex_server.c:240-263 | while the client asks for the rest of a response, the server still has the request afterwards if and only if the next packet does not take all that is left |
| `LateAbort.LateAbortNeverRests` | lib/obex_main.c:364-365 | cancelled when the server will be done with the request before the ABORT reaches it: no order of turns ever brings the channels to rest, whether or not the server adds headers |
| `LateAbort.LateAbortGoesOn` | lib/obex_main.c:364-365 | and with a server that adds nothing and buffers that hold what is under way no mishap ever ends it |
| `LateAbort.CancelTheorem` | lib/obex_main.c:331-368 | at any point of any run of a PUT of any queue still going on, to a server that adds nothing or headers of its own: cancelling brings both ends to one ABORT each and to rest, in at most four moves, if the server will still have the request when the ABORT reaches it, and never to rest if not |
| `Disconnect.ServerResets` | lib/obex_server.c:255-263 | a server that has sent the last packet of its answer to a DISCONNECT is at rest and its packet size is 255, whatever state the packet found it in |
| `Disconnect.ClientResets` | lib/obex_client.c:147-151 | a client waiting on a DISCONNECT has packet size 255 after any packet |
| `Disconnect.DisconnectTheorem` | lib/obex_server.c:255-263 | over every run of a DISCONNECT between two handles: a client that is done has packet size 255, and so has a server that has answered it whole |
| `Connect.ServerLearns` | lib/obex_connect.c:65-108 | whatever its application does, a server that takes a CONNECT ends with the smaller of the peer's receive size and its own limit |
| `Connect.ServerTells` | lib/obex_connect.c:43-57 | a successful answer to a CONNECT carries the server's receive size in the octets the client reads |
| `Connect.ClientLearns` | lib/obex_client.c:136-151 | a client that gets a successful answer ends with the smaller of the server's receive size and its own limit |
| `Connect.AgreementTheorem` | lib/obex_connect.c:43-108 | after a CONNECT in one packet answered with success, in a packet the client can hold, each end holds the minimum of the other's receive size and its own limit |
| `Connect.UnfinishedConnectIgnored` | lib/obex_connect.c:82-85 | a first CONNECT packet without the final bit does not change the packet size |
| `Connect.RefusalTeachesNothing` | lib/obex_connect.c:82-85 | an answer to a CONNECT whose first octet is neither 0xa0 nor 0x80 leaves the client's packet size alone |
| `Connect.PacketLayout` | lib/obex_object.c:459-465 | in a packet the data before the headers comes first, the length field gives its size, and no later packet carries that data again |
| `Connect.BudgetSound` | lib/obex_object.c:443-450 | the 16-bit budget wraps around exactly when the packet size is below three plus the rounding |
| `Connect.PacketFits` | lib/obex_object.c:443-522 | a packet without data before its headers and with its body last is at most the agreed size, and a whole packet on the wire |
| `Connect.PacketExcess` | lib/obex_object.c:459-465 | in general it exceeds that size by at most the data before the headers and three octets per body finished early |
| `Connect.IrdaAlignment` | lib/obex_object.c:443-450 | on IrDA a packet filled up by a fragment is a whole number of link frames |
| `Bounds.ModestTheorem` | lib/obex_object.c:443-522 | over every run of a handle without CONNECT or DISCONNECT: the packet size stays, and every packet is within it but for three octets per body that ends early in it |
| `Agreement.FitsTheorem` | lib/obex_connect.c:43-108 | over every run of two handles that have agreed, cancelling and calls between turns included, until a CONNECT or DISCONNECT: every packet in which no body ends early, sent or next on the wire, fits the receive buffer of the other end |
| `Agreement.ConnectedFits` | lib/obex_connect.c:43-108 | the same from a CONNECT in one packet that was answered with success in one packet, for applications whose scripts keep to what FitsTheorem asks for |
| `Queueing.QueueMeansCalls` | lib/obex_object.c:152-277 | adding headers to an object queues exactly the accepted ones, in order, behind what was queued; the prefix a body is stored with is no part of it |
| `Queueing.QueuedExactly` | lib/obex_object.c:152-277 | without the flag, a header is queued if and only if it is a body or its size on the wire, by arithmetic, is at most the packet size less three; what is queued is that header, behind what was there, and otherwise the object stays as it was |
| `Queueing.BodyTaken` | lib/obex_object.c:256-262 | for a body of any length, without the flag: adding it appends exactly that body to what the queue means |
| `Queueing.StreamTaken` | lib/obex_object.c:191-199 | the first stream queued stands for a body of everything the application will feed it with |
| `Queueing.MarkerTaken` | lib/obex_object.c:201-204 | an empty marker is queued, and means no header |
| `Queueing.OnePacketPromise` | lib/obex_object.c:179-184 | if every header was accepted with the flag, the first send takes the whole queue and is finished, and the running total never passes the packet size |
| `Queueing.FlagHonoured` | lib/obex_object.c:179-184 | the flag is honoured exactly as long as the running total is within one packet; after that every header passes |
| `Queueing.FlagIgnored` | lib/obex_object.c:256-267 | two headers added without the flag let a third one with it pass that cannot fit |
| `Queueing.AddedFit` | lib/obex_object.c:256-262 | without the flag every header other than a body fits a packet of its own |
| `Queueing.RoundingStarves` | lib/obex_object.c:443-450 | on IrDA an accepted header may fit no packet: a send then leaves the queue as it was |
| `Queueing.StarvesExactly` | lib/obex_object.c:443-522 | with a header in front, a send goes out full and leaves the queue as it was if and only if the budget is below the header and the packet size is not |
| `Queueing.HeadersGetThrough` | lib/obex_object.c:443-522 | a queue of headers of an object gets through if and only if each is within the budget |
| `Queueing.LedgerBalances` | lib/obex_object.c:563-732 | however arrivals, fragments of bodies included, reads and rewinds interleave, headers read followed by headers unread are all that arrived whole, and each pass hands them out once and in order |
| `Names.RoundTrip` | lib/obex.c:881-933 | narrowing inverts widening on every string |
| `Names.WidenOctets` | lib/obex.c:912-933 | a widened name has a zero octet in front of each of its own, and two at its end |
| `Names.Expand` | lib/obex.c:926-930 | the backwards loop widens the string also when source and target are the same buffer |
| `Names.CharToUnicode` | lib/obex.c:912-933 | writes the wide string and its end, or nothing when it does not fit; the rest of the buffer is untouched |
| `Names.UnicodeToChar` | lib/obex.c:881-901 | writes the narrow string and its end, or nothing when it does not fit, also in place |
| `Objects.ObexObject.constructor` | lib/obex_object.c:43-62 | a new object is empty and answers NOT_IMPLEMENTED |
| `Objects.ObexObject.AddHeader` | lib/obex_object.c:152-277 | the record updated in place is the model's; the answer is 1 exactly when the header was taken, which by arithmetic is when it is a body without the flag or fits |
| `Objects.ObexObject.GetNextHeader` | lib/obex_object.c:563-613 | hands out the first unread header and keeps it among those read |
| `Objects.ObexObject.ReadValue` | lib/obex_object.c:563-613 | the value handed to the application: a number by the weights of its four octets, one octet, or the octets; encoding it gives the header back |
| `Objects.ObexObject.ReparseHeaders` | lib/obex_object.c:615-630 | all read headers are unread again, only once all have been read |
| `Objects.ObexObject.CutBody` | lib/obex_object.c:369-415 | the fragment cut off a body, the body left and the room charged are those of the packing step |
| `Objects.ObexObject.MakeBodyRoom` | lib/obex_object.c:685-711 | whatever length was announced, and so however the buffer grows, the body so far is kept and there is room for the fragment |
| `Objects.ObexObject.ReceiveBody` | lib/obex_object.c:674-732 | fragments gathered in the growing buffer make the body; the last one completes the header |
| `Objects.ObexObject.React` | lib/obex_object.c:129-277 | any list of calls, made one after the other in place, is the model's |
| `Messages.PutHeader` | lib/obex_main.c:210-214 | the packet header goes in front of the message, its length field by arithmetic, and the buffer stays where it is when there is room |
| `Messages.RoomForHeader` | lib/obex_main.c:210-214 | a message that leaves three octets of its first allocation has never moved |
| `Sending.CopyingStep` | lib/obex_object.c:310-342 | one more turn of the copying loop continues the whole copying where it stood |
| `Sending.UnderwayStep` | lib/obex_object.c:471-522 | one more turn of the packing loop continues the whole packing where it stood |
| `Sending.UprootsExactly` | lib/obex_object.c:295-357 | copying moves the buffer, once room for the prefix has been made in it, exactly when prefix and data together are more than the room behind what is there |
| `Receiving.AcceptStreaming` | lib/obex_object.c:788-799 | whether bodies are delivered as a stream cannot change in the middle of a packet |
| `Receiving.AcceptedStep` | lib/obex_object.c:773-878 | one turn of the receiving loop accepts the header at the front, or stops there |
| `Engine.Obex.constructor` | lib/obex.c:88-186 | a new handle is an idle server with the default packet sizes |
| `Engine.Obex.DeliverEvent` | lib/obex_main.c:163-177 | the application is told, may change its object, and the object is released when asked |
| `Engine.Obex.DataRequest` | lib/obex_main.c:202-221 | the message leaves as one packet with its header, and the answer says whether it could be written |
| `Engine.Obex.CopyStream` | lib/obex_object.c:306-342 | the copying loop takes exactly what the model takes from stream and feed, and appends exactly that |
| `Engine.Obex.SendStream` | lib/obex_object.c:283-360 | a stream fragment with its header filled in afterwards is the model's, with the same room charged; when the copying has moved the buffer the run is over |
| `Engine.Obex.SendBody` | lib/obex_object.c:369-415 | the same for a body |
| `Engine.Obex.PackMessage` | lib/obex_object.c:471-522 | the packing loop leaves queue, stream, record and message exactly as the model's packing |
| `Engine.Obex.ObjectSend` | lib/obex_object.c:426-555 | sends the packet the model sends, with the same result; the transmit buffer does not move unless the packet is larger than it or cannot be sent |
| `Engine.Obex.ObjectReceive` | lib/obex_object.c:740-881 | takes in a packet as the model does, in the growing body buffer, stopping where it stops |
| `Engine.Obex.ParseConnectHeader` | lib/obex_connect.c:65-108 | learns the packet size the model learns, or fails when it does |
| `Engine.Obex.ServerReply` | lib/obex_server.c:240-264 | the response step in place is the model's |
| `Engine.Obex.ServerRequest` | lib/obex_server.c:165-178 | the step of a complete or refused request in place is the model's |
| `Engine.Obex.ServerReceive` | lib/obex_server.c:102-164 | the receiving step in place is the model's |
| `Engine.Obex.Server` | lib/obex_server.c:43-273 | the whole server, with its fall-through between states, is the model's step |
| `Engine.Obex.ClientStart` | lib/obex_client.c:106-130 | the start of a request in place is the model's step |
| `Engine.Obex.ClientReceive` | lib/obex_client.c:132-196 | the treatment of a response in place is the model's |
| `Engine.Obex.Client` | lib/obex_client.c:42-205 | the whole client is the model's step |
| `Engine.Obex.Dispatch` | lib/obex_main.c:309-318 | a complete packet goes to the server or the client, and the receive buffer is empty afterwards |
| `Engine.Obex.ObjectNew` | lib/obex.c:604-624 | a request object as the model makes it, with the connect frame for a CONNECT |
| `Engine.Obex.Request` | lib/obex.c:539-556 | a request is taken exactly when the handle has none, and started as the model starts it |
| `Engine.Obex.CancelRequest` | lib/obex_main.c:348-368 | a nice cancel in place is the model's |
| `Engine.Obex.SetTransportMtu` | lib/obex.c:281-307 | sizes and buffers change together, on an idle handle with sizes of at least 255 only; the transmit buffer is at home in its new allocation |
| `Engine.Obex.BeginPacket` | lib/obex_main.c:244-304 | the beginning of a packet, left for a later call, makes the receive buffer as large as the packet |
| `Engine.Obex.ReadPacket` | lib/obex_main.c:229-304 | reads into the receive buffer of the handle as framing says, and the handle differs in the size of that buffer only |
| `Driver.Drive` | lib/obex.c:445-450 | a handle driven through any run is at every end where the run of the model is, and its transmit buffer has moved only for a packet larger than it or when the run was over |
| `Driver.TakePacket` | lib/obex_main.c:262-318 | a packet in the receive buffer takes the handle where the model says: one that the buffer could not hold leaves defined behaviour, any other goes to the server or the client |
| `Driver.DriveNew` | lib/obex.c:88-186 | a new handle driven through any run keeps the laws of object lifetime and, as a server, the grammar of events |
| `Driver.DriveWithin` | lib/obex_main.c:211-214 | over a run without CONNECT or DISCONNECT the transmit buffer stays where it is, unless the link is lost or a body ends early in a packet |
| `Driver.TakeInput` | lib/obex_main.c:229-323 | one call of the input routine reads into the receive buffer as framing says and takes the step of the model for the packet it completes, or the run is over when the buffer has moved under it |
| `Driver.Serve` | lib/obex_main.c:229-323 | any number of calls: the handle is where a run of exactly the packets on the wire leads, each announced beforehand or not as the reads happened to be cut, and its receive buffer has moved only for a larger packet |

## Left out

* Suspending and resuming a request: the model has no suspended objects. Server-side resume
  drops the forced final bit, and a suspended start still counts as a first packet.
* Hard cancel, and handles used on after a LINKERR event: a run ends there.
* Failure to allocate, and a buffer pointer that is null after shrinking to no octets.
* Sockets, Bluetooth, IrDA discovery, USB (whose read takes a whole packet whatever was asked
  for), the GLib binding and the applications; only the contract of reads and writes is kept.
* A header whose value reaches past its packet, or a packet that announces more octets before
  its headers than the receive buffer holds, ends what the model says (`OutOfBounds`,
  `Beyond`). Octets behind a short packet but within the buffer are modelled, as arbitrary.
* Calls on an object between two events, but for those of a client (`ClientCalls`, in `Lockstep`,
  `Agreement` and `PutAdds`).
* Stream data added outside a STREAMEMPTY event, and negative or huge announced lengths as
  the C types would hold them; header values are taken to be shorter than 2^31 octets.
* The buffer behind each queued element and each received header is a sequence; only the
  transmit and receive buffers of a handle and the body being received are objects.
* That reallocation may leave a buffer where it is: growing counts as moving, and a run in which
  the C code is lucky there is one in which the model says nothing further.
* Unexpected writes that give 0 octets count as failures for the session model;
  `Framing.DoWrite` tells them apart.
* The return values of the server and client functions, which only report errors that the
  events report as well; of the mode argument of events only the handle's own mode is kept.
- Engine.Obex.DataRequest: whether a packet could be written is the next entry of a list, in
  place of a call of `Framing.DoWrite`, which is proved against the link on its own.
- Grammar.GrammarTheorem: for a handle that is used as a server only, because a client's
  events follow no such order.
- PutAdds.PutTheorem: the client's application adds headers but no stream while its request is
  under way, and as calls between turns (`PutAdds.ProgressAdds`); the server's chooses at the
  announcement whether to take the body as a stream, leaves the start of the headers alone, and
  does not make CONTINUE its last response. A run is over once the link has failed, the code has
  left defined behaviour, or a packet above 65535 octets was put out (`PutCases.OversizePut`
  shows what happens then).
- PutEnds.PutEndsTheorem: for a server whose headers fit its packets and that puts no other data
  in front of them, on budgets above three octets: with less room a body never moves.
- PutAdds.LateAddsTheorem: for a server that answers the last packet with one packet; asked for
  the rest of a longer response, a client would send what was added late.
- ResponseRun.ResponseTheorem: not for a CONNECT, whose answer carries other data first. The server's
  application puts no such data in front of its headers, queues at most one stream and then does
  not take the request's body as a stream, and does not make CONTINUE its last response; the
  client's leaves its command and the start of the headers alone, and does not cancel.
- Disconnect.DisconnectTheorem: for a client whose application does not overwrite the command of
  its own request, and a run without a second request or a cancel.
- ClientReports.RequestCommandTheorem: for an application that does not overwrite the command.
- Reports.OpeningShown: for an application that leaves the start of the headers to the engine and
  does not turn to streaming in the announcement.
- Wire.BodyRequest: without IrDA rounding, which `Connect.IrdaAlignment` is about.
- PutExact.PutExactTheorem: a stream is fed non-empty data until an empty call ends it, so that
  its size tells where its fragments end; a server that adds bodies of its own has no condition
  on sizes, because it may add them at any event.
- Outcomes.CourseExact: streams are fed in the same way.
- Framing.ChunkingIsIrrelevant: of the packets, not of what becomes of a packet larger than the
  receive buffer, which does depend on the cut (`Framing.LargerDepends`).
- Bounds.ModestTheorem: for applications that put no data of their own before the headers and
  do not answer with the opcodes of CONNECT and DISCONNECT; a CONNECT itself is covered by
  `Connect.PacketExcess`.
- FinalBits.FinalTheorem: for requests whose opcode was not set with the final bit in it.
- Connect.AgreementTheorem: for a CONNECT that goes out in one packet and is answered with
  success, because the code reads the size only then; an answer larger than the client's buffer
  makes the client leave defined behaviour.
- Queueing.FlagHonoured: below 2^31 octets of running total and of header, where the unsigned
  difference cannot wrap around twice.
- Lists.WithoutFront: elements are compared by identity, which a model on values states as
  the absence of repetition.
