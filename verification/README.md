# A verified model of RDPFlux

RDPFlux carries many TCP streams over one RDP virtual channel. This project models the parts of it
that have to be right for a stream to arrive whole, and proves what they promise:

- **The mux** (`rdpflux/mux.py`): two peers, each with its map of streams, exchange frames over two
  FIFO channels. Every stream has a 256 KiB credit window in each direction, every peer a 32 MiB
  limit on what is buffered for all of its streams; streams half-close, close, are refused, time
  out, and close from both ends at once.
- **The byte stack** (`rdpflux/protocol.py`, `rdpflux/windows_wts.py`, `rdpflux/mstsc_plugin.py`,
  `rdpflux/transport.py`): frames become bytes, bytes become channel writes of a limited size,
  writes become chunks of channel PDUs (section 2.2.6.1 of MS-RDPBCGR), and everything is put
  together again on the other side from pieces of any size.
- **The control service** (`rdpflux/control/`): messages of a JSON line and a body, the trimming of
  replies that are too long, and the two coordinate systems of screenshots and clicks.

## How it is built

Code that changes objects is written as classes and methods that change them. Each of these methods
is proved equal to a pure function from the old state to the new one; the properties are then proved
about those functions, over every run.

| files | content |
|---|---|
| `Common.dfy` | bytes, options, decoded JSON |
| `MuxState.dfy` | the state of a peer and what each stretch of its code between two awaits does |
| `MuxClasses.dfy` | `MuxPeer` and `MuxStream`, updated in place, against `MuxState.dfy` |
| `MuxWriter.dfy` | what the write loop submits and where it stops |
| `MuxLocal.dfy` | the invariant one peer keeps, whatever the other one sends |
| `StreamPair.dfy`, `StreamSteps.dfy` | the invariant of one stream seen from both ends, and why each step keeps it |
| `MuxFrames.dfy` | which frames are errors, and what the others and the actions do, in the application's terms |
| `PeerRuns.dfy` | what follows for every run of one peer, whatever it receives |
| `MuxPair.dfy`, `PairChannels.dfy`, `PairSteps.dfy`, `PairActions.dfy`, `PairDeliveries.dfy` | two peers, their runs, and the invariant of the whole |
| `PairTheorems.dfy`, `PairHandshake.dfy`, `MuxDiscipline.dfy` | what follows for every reachable state |
| `ListenPair.dfy`, `PairListens.dfy` | listener requests: what the asker is told, and what the other side has |
| `PairDrain.dfy` | everything on its way can be delivered, and then the ends agree |
| `Scenarios.dfy` | runs from the very start: what the theorems speak of is reached, and what can go wrong does |
| `Protocol.dfy`, `Channel.dfy`, `CallbackTransport.dfy` | the layers below the mux |
| `WireStack.dfy`, `EndToEnd.dfy` | these layers put together |
| `ControlFraming.dfy`, `ControlReply.dfy`, `Geometry.dfy` | the control service |
| `JsonReader.dfy`, `ReplyText.dfy` | a reader of UTF-8 and JSON text, and what it finds in the service's replies |

`dafny verify dfyconfig.toml` checks all of it.

## Why steps are atomic

Asyncio code runs without interference between two awaits. A frame reaches the FIFO write lock
without yielding (`rdpflux/mux.py:411-415`), and an ID is allocated and its request submitted
without yielding (`rdpflux/mux.py:355-364`, `383-388`), so submitting a frame appends it to the
channel in the same step. A write that waits for credit is split at its two waits. A timeout is a
step that may come at any time.

## What the pair theorems assume

- Handlers are honest: they answer once, and use a stream only through its methods.
- Every frame submitted is sent. A call may be cancelled while its frame still waits for its turn:
  then the state has changed and the frame is never sent, which is the step `Cut` of the model, for
  a read (its credit), a half-close, a close, and an open or a listener request given up (their
  CLOSE). A call cancelled when its frame is already on its way is the completed call, whose result
  its caller does not get. The one exception is a write cancelled inside the transport's own write;
  see below. When a CLOSE cancels the task of a request whose answer still waits for its turn
  (`rdpflux/mux.py:676-678`), the code never sends that answer and the model does: the requester has
  given up, and drops it without effect (`LateAnswerIsDropped`).
- The channels are FIFO and lose nothing, except that any HELLO may be lost or repeated.
- Both peers allow at most 128 streams (the default) and have a nonce of 1 to 128 characters.

`NoPeerExhaustsAnother` and the other results of `PeerRuns.dfy` need none of the first three: there
the other side sends whatever it likes.

No cancelled call costs the tunnel or the order of bytes: `NoHonestTunnelDies`, `StreamIsFifo` and
`EofMeansEverything` hold with them. "Bytes read" there are the bytes reads took out of the buffer; a
cancelled read has taken bytes its caller does not get. What they do cost is stated exactly:

- a cancelled read costs its credit: `CreditIsConserved`, `NoLostCredit` and `QuietRestoresCredit`
  count it in `lost`;
- a cancelled half-close costs the graceful end, and with it all that is unread when the CLOSE
  arrives: by `GracefulCloseLosesNothing` a stream ends gracefully if and only if its HALF_CLOSE was
  sent;
- a cancelled close costs the news of it: by `QuietStreamsAgree` and `NoLostCredit` the other end
  stays open, with no CLOSE on its way, if and only if the stream is in `muted` (or its open was
  refused and is about to be given up);
- a listener request given up and cancelled again costs the news of that: by `QuietListenersAgree` the
  other side may then keep a listener nobody knows of, and only then.

The theorems speak of the left peer. `PairTheorems.ReachableSwap` makes them theorems about the right
one; `StreamIsFifoBothWays` is an example.

## Where the code does less than one would expect

- **An abandoned open can leave its stream behind.** `open_stream` that times out or is refused calls
  `_mark_closed`, which does nothing to a stream the other side has already closed gracefully. If
  data is unread then, the stream stays in `streams`, with its place under the stream limit, though
  nobody holds it. `AbandonedOpenStaysIffClosed` says exactly when; `AbandonedOpenHappens` gives
  the frames that lead there.
- **A cancelled half-close loses data.** `MuxStream.write_eof` marks the stream half-closed before it
  waits to send the HALF_CLOSE. Cancelled there, it is not sent and never will be, and a later close is
  an abort to the reader: what it has not read is gone. `CutHalfCloseResets` shows it for every stream
  with unread data, `HalfClosedWriterCanLoseAll` from the start of a tunnel.
- **A cancelled close leaves the other end open.** `MuxStream.close` gives the stream up before it waits
  to send the CLOSE, and nobody sends it later (`CancelledCloseLeavesEndsApart`,
  `EndsApartHappens`).
- **A listener can stay that nobody has.** `request_listener` that times out and is cancelled before it has
  sent its CLOSE leaves the listener on the other side, where it counts until the tunnel ends
  (`ForgottenListenerStays`, `ForgottenListenerHappens`).
- **A cancelled read can strand the writer.** `MuxStream.read` takes the bytes and raises its own
  credit before it waits to send the WINDOW_UPDATE. A read cancelled there never gives the credit
  back. A stream open at both ends stalls for good exactly when such reads have taken a whole window
  (`NoLostCredit`, `CancelledReadStrands`, `StrandedWriterHappens`).
- **Frames in front of an error can be lost.** `FrameDecoder.feed` raises without returning the
  frames it cut out in the same call, so these depend on how the bytes arrive. The error itself, and
  everything when there is no error, do not. `NothingLostIff` says exactly when nothing is lost.
- **`CallbackTransport` wakes one read.** A close leaves a single mark in the queue; a `read` made
  after another one has taken it blocks for good (`CloseWakesUnlessWoken`,
  `WokenReaderStaysBlocked`, `BlockedReaderHappens`). The read under way at the close is always
  released (`WaitingReadIsReleased`). `MuxPeer` stops reading at the first empty return.
- **Control lines of 65537 to 131071 bytes** are accepted or refused depending on how they arrive
  (`LongLineDependsOnPieces`). Shorter ones never are refused, longer ones always.

## Model

| member | source | states |
|---|---|---|
| PairTheorems.NoHonestTunnelDies | rdpflux/mux.py:471-554 | no run of two honest peers, in any interleaving of their actions, cancelled calls, deliveries and lost or repeated HELLOs, ends in a protocol error |
| PairTheorems.CreditIsConserved | rdpflux/mux.py:90-174 | for a stream open at both ends the window of each direction is always the sum of the sender's credit, bytes taken but unsent, bytes in flight, unread bytes, credit on its way back, and what reads took that were cancelled before they sent their credit |
| PairTheorems.StreamIsFifo | rdpflux/mux.py:61-133 | the bytes reads have taken, then bytes buffered, then bytes in flight are the bytes written, in order; a drained stream has been read whole |
| PairTheorems.StreamIsFifoBothWays | rdpflux/mux.py:61-133 | the same for what the other side writes |
| PairTheorems.EofMeansEverything | rdpflux/mux.py:61-84 | when a stream still in the map has nothing unread and its end is reported, reads have taken everything written, and the writer did half-close |
| PairTheorems.GracefulCloseLosesNothing | rdpflux/mux.py:176-194 | when a reader's end is gone that it did not close itself, it ended gracefully if and only if the writer's HALF_CLOSE was sent, and then all was read |
| PairTheorems.NoLostCredit | rdpflux/mux.py:90-101 | a writer waiting for stream credit has data in flight or unread or credit on its way back if and only if cancelled reads have not lost the whole window; if the other end is gone, a CLOSE is on its way if and only if the call that was to send it was not cancelled |
| PairTheorems.CancelledReadStrands | rdpflux/mux.py:73-84 | a read of a full window that is cancelled before its credit is sent leaves the writer without credit and nothing outstanding |
| PairTheorems.AggregateNeverBlocks | rdpflux/mux.py:726-734 | with at most 128 streams a writer never waits for aggregate credit |
| PairTheorems.QuietStreamsAgree | rdpflux/mux.py:135-213 | once a stream's frames have arrived, the other end of an open one is gone if and only if its refused open is about to be given up or the other side's CLOSE was cancelled; a closed end left in the map only waits for its last bytes to be read and reserves nothing |
| PairTheorems.QuietRestoresCredit | rdpflux/mux.py:167-174 | with nothing in flight and nothing unread, and unless the other side's CLOSE was cancelled, the whole window is back with the writer but for what cancelled reads lost |
| PairTheorems.NoReaderWaitsInVain | rdpflux/mux.py:61-73 | with nothing on its way a read of an open stream waits if and only if everything written has been read and the writer has not half-closed, and then the writer's end is there or its CLOSE was cancelled |
| PairTheorems.NoOpenWaitsInVain | rdpflux/mux.py:353-379 | with nothing on its way an open that waits, waits for the other side's handler |
| PairListens.AnswersAreTrue | rdpflux/mux.py:653-669 | for a request that waits or was answered, the answer, on its way or arrived, says ok if and only if the other side has the listener |
| PairListens.GrantedIsThere | rdpflux/mux.py:381-399 | a listener whose request returned is in the other side's set for as long as the tunnel is |
| PairListens.NoRequestWaitsInVain | rdpflux/mux.py:641-669 | a request for a listener waits if and only if it is on its way, being served, or answered by a frame on its way |
| PairListens.QuietListenersAgree | rdpflux/mux.py:671-699 | with nothing on its way, and unless its CLOSE was cancelled, there is a listener if and only if the request was told so, and a task serving it if and only if it still waits |
| PairListens.ForgottenListenerStays | rdpflux/mux.py:394-399 | a request given up with its CLOSE cancelled leaves the listener there, with no CLOSE on its way |
| PairDrain.ChannelsDrain | rdpflux/mux.py:471-554 | from every reachable state deliveries alone empty both channels, since answers provoke no frames |
| PairDrain.ClosesConverge | rdpflux/mux.py:135-213 | so from every reachable state deliveries alone lead to one where the two ends of every stream agree in this sense |
| Scenarios.StreamOpens | rdpflux/mux.py:353-379 | from a fresh tunnel, the handshake and an open lead to a stream open at both ends |
| Scenarios.DataWaits | rdpflux/mux.py:90-127 | and any data up to a full window can wait there to be read |
| Scenarios.CutHalfCloseResets | rdpflux/mux.py:129-133 | a writer that half-closes, is cancelled before the HALF_CLOSE is sent, and closes, resets a reader that has not been told, which loses all it has not read |
| Scenarios.HalfClosedWriterCanLoseAll | rdpflux/mux.py:129-133 | this happens from a fresh tunnel, for any data up to a full window |
| Scenarios.CancelledCloseLeavesEndsApart | rdpflux/mux.py:144-148 | a close cancelled before its CLOSE is sent leaves the other end open with nothing on its way to it |
| Scenarios.EndsApartHappens | rdpflux/mux.py:144-148 | this happens from a fresh tunnel |
| Scenarios.StrandedWriterHappens | rdpflux/mux.py:73-84 | a writer waiting for credit that a cancelled read has lost is reached from a fresh tunnel |
| Scenarios.ListenerOpens | rdpflux/mux.py:381-399 | a request for a listener, answered with success, from a fresh tunnel |
| Scenarios.ForgottenListenerHappens | rdpflux/mux.py:394-399 | a listener that nobody knows of is reached from a fresh tunnel |
| PairHandshake.ReadyMeansHeard | rdpflux/mux.py:310-325 | a peer that has stopped retransmitting its HELLO has been heard by the other one |
| PairHandshake.NothingArrivesEarly | rdpflux/mux.py:508-509 | no frame other than of the handshake reaches a peer that is not ready, even if HELLOs are lost or repeated |
| PairHandshake.HandshakeRecovers | rdpflux/mux.py:473-507 | from every reachable state exactly one more HELLO of each unready peer, and none of a ready one, delivered with what is on its way and the HELLO_ACKs, makes both ready |
| PairHandshake.EveryHelloIsAnswered | rdpflux/mux.py:473-499 | in every reachable state a HELLO that arrives is accepted and its HELLO_ACK submitted |
| PairHandshake.HeardAndQuietMeansReady | rdpflux/mux.py:571-573 | in whatever order things happened, once both sides have received a HELLO and no HELLO_ACK is left on its way, both are ready |
| PairActions.ActKeeps | rdpflux/mux.py:353-399 | every action of either application or of a peer's own tasks, also a call cancelled before its frame is sent, keeps the invariant of the pair |
| PairDeliveries.DeliverKeepsInv | rdpflux/mux.py:471-554 | the delivery of any frame in flight raises nothing and keeps the invariant of the pair |
| MuxLocal.DispatchKeepsPeerInv | rdpflux/mux.py:471-554 | any frame, honest or forged, either raises or keeps the accounts, the limits and the ID discipline of its receiver |
| MuxLocal.ApplyKeepsPeerInv | rdpflux/mux.py:61-148 | so does every action |
| MuxLocal.StreamLimitImpliesMemoryLimit | rdpflux/mux.py:718-721 | with at most 128 streams the aggregate receive limit cannot be reached, whatever is received |
| MuxFrames.ErrorIffUnacceptable | rdpflux/mux.py:471-606 | exactly which frames end the tunnel, for any sender: by the form of the frame, the IDs used so far, what was said before, and how much is unread or uncredited, not by the counters |
| MuxFrames.OpenIsAdmittedIff | rdpflux/mux.py:608-622 | an OPEN becomes a stream with whole windows and a running request if and only if there is room and a handler, and otherwise is answered with a refusal |
| MuxFrames.ListenIsAdmittedIff | rdpflux/mux.py:641-651 | a LISTEN is queued if and only if listeners and requests leave room and there is a handler, and otherwise is answered with a refusal |
| MuxFrames.PingComesBack | rdpflux/mux.py:551-554 | a PING sent is answered with its own payload, a PONG with nothing |
| MuxFrames.CloseSaysWhy | rdpflux/mux.py:146-148 | a CLOSE carries its reason, cut to 512 characters |
| MuxFrames.MayAskIff | rdpflux/mux.py:353-355 | a ready peer can ask for a listener as long as it has an ID of 32 bits left, and for a stream if it also has room |
| MuxFrames.ListenAllocates | rdpflux/mux.py:381-388 | a request for a listener takes a fresh ID of 32 bits and sends what was asked for under it |
| MuxFrames.CancelledWriteGivesBack | rdpflux/mux.py:104-111 | a write cancelled while it waits gives its credit back and sends no more |
| PeerRuns.NoPeerExhaustsAnother | rdpflux/mux.py:641-651 | over every run of one peer facing arbitrary frames, unread and uncredited data stay within 32 MiB, the byte counts are the sums over the streams, and streams, and listeners together with running LISTEN requests, stay within the stream limit; with a limit of 128 the aggregate error never comes |
| PeerRuns.IdentityIsForGood | rdpflux/mux.py:473-499 | once a HELLO was accepted, no run changes who the other side is, and a HELLO that says otherwise is an error |
| MuxDiscipline.ClampsNeverBite | rdpflux/mux.py:222-229 | the clamps at zero and at the window never change a value |
| MuxDiscipline.AdmittedListenIsNotRefused | rdpflux/mux.py:653-655 | a LISTEN that was admitted also passes the second count |
| PeerRuns.RunsKeepDiscipline | rdpflux/mux.py:401-409 | over every run of one peer, whatever it receives, its invariant holds and an ID that has left its streams map never returns to it |
| PeerRuns.IdsNeverReturn | rdpflux/mux.py:401-409 | so it is for both peers of a pair |
| PeerRuns.RequestedIdsIncrease | rdpflux/mux.py:401-406 | the IDs of all OPENs and LISTENs a peer submits in a run, whatever it receives, strictly increase, have the parity of its role and fit 32 bits |
| PeerRuns.RequestedIdsAreDisjoint | rdpflux/mux.py:585-591 | two peers of different roles never request under the same ID |
| PeerRuns.LateFramesChangeNothing | rdpflux/mux.py:593-606 | after an ID has left the streams map, however long the run goes on, a stream frame for it raises nothing and changes no stream, account or answer |
| MuxDiscipline.OpenAllocates | rdpflux/mux.py:353-364 | one OPEN takes an ID of the role's parity and 32 bits that was never in use, and moves the next ID on |
| MuxDiscipline.LateFrameIsDropped | rdpflux/mux.py:593-606 | a late frame for an ID whose requests are over too leaves the whole peer as it was |
| MuxDiscipline.LateAnswerIsDropped | rdpflux/mux.py:513-521 | an answer nobody waits for any more changes nothing |
| MuxDiscipline.ForgedFrameIsRefused | rdpflux/mux.py:599-604 | a stream frame for an ID never in use is an error |
| MuxDiscipline.AbandonedOpenStaysIffClosed | rdpflux/mux.py:369-379 | a timed-out or refused open leaves its stream in the map if and only if the other side had closed it gracefully with data unread |
| MuxDiscipline.AbandonedOpenHappens | rdpflux/mux.py:369-374 | three frames after which a timeout leaves the stream behind |
| MuxDiscipline.ShutdownSettles | rdpflux/mux.py:756-789 | when the tunnel ends nothing stays reserved for sending, every waiting request and no other is answered with a failure, and what stays counted as unread is exactly the rest of the streams the other side had half-closed |
| MuxWriter.WriterSubmitsInOrder | rdpflux/mux.py:90-127 | the write loop submits chunks of 1 to 16384 bytes that join up to the data, charges each byte to the stream and the peer, and stops only when done or when one of the two credits is used up |
| MuxWriter.ChunksAreFull | rdpflux/mux.py:102-103 | every chunk of a run but the last has 16384 bytes |
| MuxWriter.WriteSubmitsAll | rdpflux/mux.py:90-127 | a write from its start: what it submits, holds and has left are the data in order, and it waits only when a credit is used up |
| MuxWriter.WriterTakesSteps | rdpflux/mux.py:90-127 | the loop is a sequence of the atomic steps the pair theorems are about |
| MuxClasses.MuxStream.Read | rdpflux/mux.py:61-84 | returns the first bytes unread, as many as asked for or all there are, and leaves the peer in the state the model says, with the credit frame submitted unless closed; a stream object already out of the map gives out its rest |
| MuxClasses.MuxStream.CancelledRead | rdpflux/mux.py:73-83 | a read cancelled before its credit is sent: the bytes are gone and so is the credit |
| MuxClasses.MuxStream.Write | rdpflux/mux.py:86-127 | a half-closed or closed stream refuses; otherwise the data goes through the write loop as far as credit allows |
| MuxClasses.MuxStream.StartWrite | rdpflux/mux.py:90-92 | refuses exactly on a half-closed or closed stream, and changes nothing then |
| MuxClasses.MuxStream.WriteSerialized | rdpflux/mux.py:93-127 | the loop over the object, equal to the pure write loop |
| MuxClasses.MuxStream.TakeCredit | rdpflux/mux.py:96-102 | the first half of a turn: chunk size and stream credit |
| MuxClasses.MuxStream.SendChunk | rdpflux/mux.py:103-118 | the second half: aggregate credit, reservation, DATA frame |
| MuxClasses.MuxStream.WriteEof | rdpflux/mux.py:129-133 | at most one HALF_CLOSE, and none after a close |
| MuxClasses.MuxStream.Close | rdpflux/mux.py:135-148 | open, closed but in the map, or out of the map: the releases and frames of each |
| MuxClasses.MuxStream.CancelledClose | rdpflux/mux.py:144-148 | a close cancelled before its CLOSE is sent: the stream is gone here and the other side not told |
| MuxClasses.MuxStream.CancelledWriteEof | rdpflux/mux.py:129-133 | a half-close cancelled before its HALF_CLOSE is sent: the stream takes no more data, and the other side is not told |
| MuxClasses.MuxStream.Receive | rdpflux/mux.py:150-160 | the errors in their order, and otherwise the new buffer and credit |
| MuxClasses.MuxStream.ReceiveEof | rdpflux/mux.py:162-165 | the end of the other side's data, once |
| MuxClasses.MuxStream.AddCredit | rdpflux/mux.py:167-174 | a window update beyond what is owed is an error, any other is credited and released |
| MuxClasses.MuxStream.RemoteClose | rdpflux/mux.py:176-194 | a graceful close keeps what is unread, any other is a reset |
| MuxClasses.MuxStream.MarkClosed | rdpflux/mux.py:196-213 | everything the stream held is released and it leaves the map, once |
| MuxClasses.MuxPeer.OpenStream | rdpflux/mux.py:353-364 | a new stream under a new ID and its OPEN, unless a limit is reached |
| MuxClasses.MuxPeer.FinishOpen | rdpflux/mux.py:365-379 | an answered open: a refusal closes the stream |
| MuxClasses.MuxPeer.TimeoutOpen | rdpflux/mux.py:369-379 | an open given up: the stream is closed and the other side told |
| MuxClasses.MuxPeer.CancelledTimeoutOpen | rdpflux/mux.py:369-379 | an open given up and cancelled before its CLOSE is sent: the other side is not told |
| MuxClasses.MuxPeer.CancelledTimeoutListen | rdpflux/mux.py:394-399 | a listener request given up and cancelled before its CLOSE is sent |
| MuxClasses.MuxPeer.RequestListener | rdpflux/mux.py:381-390 | a new ID and its LISTEN |
| MuxClasses.MuxPeer.StartOpen | rdpflux/mux.py:608-622 | ID checks, refusal at the limit, or a new stream with its request task |
| MuxClasses.MuxPeer.CompleteOpen | rdpflux/mux.py:624-639 | the answer of the open handler |
| MuxClasses.MuxPeer.StartListen | rdpflux/mux.py:641-651 | ID checks, refusal at the limit, or a request task |
| MuxClasses.MuxPeer.CompleteListen | rdpflux/mux.py:653-669 | the answer of the listen handler, counted as a listener if it succeeds |
| MuxClasses.MuxPeer.HandleClose | rdpflux/mux.py:671-689 | what a CLOSE cancels, closes or ignores, and when it is an error |
| MuxClasses.MuxPeer.ReceiveHello | rdpflux/mux.py:473-499 | the checks of a HELLO in their order; every accepted one is acknowledged |
| MuxClasses.MuxPeer.ValidatePeerRequestId | rdpflux/mux.py:585-591 | parity and strict increase of the other peer's IDs |
| MuxClasses.MuxPeer.Dispatch | rdpflux/mux.py:471-554 | one received frame of any kind does to the objects what the model says, or raises the error it says |
| MuxClasses.MuxPeer.DispatchFrames | rdpflux/mux.py:430-432 | the frames of one read, one after the other, until one of them is an error |
| MuxClasses.MuxPeer.Shutdown | rdpflux/mux.py:756-789 | the loop over the streams and the clearing of the tables, whatever order the streams come in; every stream object ends closed and out of the map, with what was half-closed still to be read |
| Protocol.WireLayout | rdpflux/protocol.py:11-51 | every byte of an encoded frame: magic, version, the code of each kind, flags, ID and length in network order, payload |
| Protocol.EncodeRefuses | rdpflux/protocol.py:42-50 | what is wrong with a frame that is not encoded, in the order of the checks |
| Protocol.FrontIsErrorIff | rdpflux/protocol.py:61-76 | the front of a buffer is an error if and only if a whole header is wrong in magic, version or length, or a whole frame has an unknown kind |
| Protocol.ParseInvertsWire | rdpflux/protocol.py:42-51 | decoding the encodings of any frames gives these frames, whatever follows |
| Protocol.WireInvertsParse | rdpflux/protocol.py:58-82 | the bytes consumed are exactly the encodings of the frames found, and all of these are encodable |
| Protocol.ParseInTwo | rdpflux/protocol.py:58-82 | decoding can stop anywhere and go on with the remainder |
| Protocol.DecodingIgnoresPieces | rdpflux/protocol.py:58-82 | for every way to cut up the bytes: the same first error, and without one the same frames and remainder, as one parse of the whole |
| Protocol.NothingLostIff | rdpflux/protocol.py:58-82 | no frame in front of an error is lost if and only if the failing call meets the error at the front of its buffer |
| Protocol.FramesBeforeAnErrorDependOnPieces | rdpflux/protocol.py:58-82 | the same bytes in two pieces and in one, with a frame handed out and lost |
| Protocol.RemainderIsBounded | rdpflux/protocol.py:58-82 | a successful feed keeps fewer than 16 + 16384 bytes, not containing a whole frame |
| Protocol.EndsCleanlyIff | rdpflux/protocol.py:84-86 | the end is accepted if and only if the stream was a sequence of encoded frames |
| Protocol.WireRoundTrip | rdpflux/protocol.py:42-82 | encoded frames fed in any pieces come out again with nothing left |
| Protocol.FrameDecoder.Feed | rdpflux/protocol.py:58-82 | the loop over the buffer: the frames, remainder or error of one parse of old buffer and data |
| Protocol.KindOf | rdpflux/protocol.py:20-32 | the twelve message codes and no other |
| Channel.SplitIsExact | rdpflux/windows_wts.py:205-211 | the pieces of a write join up to it, none is empty or too long, and only the last is short |
| Channel.WTSChannelTransport.BlockingWrite | rdpflux/windows_wts.py:205-211 | the agent's loop writes exactly these pieces of 1600 bytes, in order |
| Channel.WTSChannelTransport.WriteAll | rdpflux/windows_wts.py:188-203 | through the reused buffer the channel gets exactly the data, or nothing if it is too long or the channel closed |
| Channel.ChannelRuntime.Write | rdpflux/mstsc_plugin.py:89-100 | the plug-in's loop writes exactly the pieces of 1590 bytes, in order |
| Channel.ChunkLayout | rdpflux/windows_wts.py:30-34 | every byte of a chunk's header: the length in little-endian order, and the bits of the three flags |
| Channel.ChunkReassembler.Feed | rdpflux/windows_wts.py:63-99 | one chunk: the checks in their order, the new state, and a cleared state after an error |
| Channel.WellFormedIsDelivered | rdpflux/windows_wts.py:63-99 | a well-formed message comes out with its last chunk and not before, from any prior state |
| Channel.DeliveredIffWellFormed | rdpflux/windows_wts.py:63-99 | a message is returned if and only if the chunks received end in the well-formed chunks of that message |
| Channel.PendingIffBegun | rdpflux/windows_wts.py:63-99 | more is waited for if and only if the chunks received end in the front part of a well-formed message, so anything else is an error |
| WireStack.PdusAreWellFormed | rdpflux/windows_wts.py:27-40 | a message cut into chunks with the header of the standard is what the reassembler asks for |
| WireStack.ChannelIsTransparent | rdpflux/windows_wts.py:42-99 | the chunks of any messages, fed from any state, give exactly these messages and no error |
| WireStack.StackRoundTrip | rdpflux/windows_wts.py:63-211 | frames encoded, cut, carried in chunks of any sizes, reassembled and decoded are the same frames |
| WireStack.BothWritersRoundTrip | rdpflux/mstsc_plugin.py:89-100 | this holds for writes of 1590 and of 1600 bytes within the 1 MiB message limit |
| CallbackTransport.StepKeepsInv | rdpflux/transport.py:163-216 | every step of feeder, reader and closer, also an entry or a take in the middle of a drain, keeps counts, limits and order |
| CallbackTransport.DeliveredIsPrefix | rdpflux/transport.py:181-189 | what was returned is a prefix of what was accepted, and all of it once an open pipe is empty |
| CallbackTransport.AccountingIsExact | rdpflux/transport.py:163-189 | the byte count is the queued bytes and the item in the reader's hand, within 4 MiB and 4096 messages, and its clamp never acts |
| CallbackTransport.AcceptedIff | rdpflux/transport.py:163-176 | bytes are accepted if and only if they are 1 byte to 1 MiB, the channel is open, and 4 MiB and 4096 messages are not exceeded by what is queued or in the reader's hand |
| CallbackTransport.PutsNeverFail | rdpflux/transport.py:171-176 | neither `put_nowait` meets a full queue |
| CallbackTransport.DrainEnds | rdpflux/transport.py:204-216 | a close can always finish on its own |
| CallbackTransport.CloseWakesUnlessWoken | rdpflux/transport.py:181-216 | after a close a waiting reader can go on, and returns nothing, if and only if no earlier read took the mark |
| CallbackTransport.WokenReaderStaysBlocked | rdpflux/transport.py:181-189 | a read made after the mark was taken never returns |
| CallbackTransport.BlockedReaderHappens | rdpflux/transport.py:181-189 | that state is reached, by two reads after a close |
| CallbackTransport.WaitingReadIsReleased | rdpflux/transport.py:181-216 | the read under way when the channel is closed can always go on once the drain is over |
| CallbackTransport.NothingAfterClose | rdpflux/transport.py:186-188 | once a close has begun nothing more is delivered or accepted |
| CallbackTransport.EndMeansClosed | rdpflux/transport.py:186-189 | an empty return always means that the channel was closed |
| CallbackTransport.Transport.FeedFromThread | rdpflux/transport.py:163-176 | the answers in their order, and the new queue and count |
| CallbackTransport.Transport.FinishRead | rdpflux/transport.py:181-189 | what a read returns with the item it holds, and the new count |
| CallbackTransport.Transport.CloseFromThread | rdpflux/transport.py:204-216 | the drain loop, with the reader entering reads and taking items between any two turns, is a run of the steps above and leaves one mark |
| EndToEnd.DataFramesEncode | rdpflux/mux.py:115-118 | every DATA frame a reachable peer submits passes the encoder's checks and carries the chunk taken |
| EndToEnd.IdsFitTheHeader | rdpflux/mux.py:401-406 | every ID in use at a reachable peer fits the frame header |
| EndToEnd.CutOffStreamDecodes | rdpflux/protocol.py:58-82 | an encoded stream that breaks off anywhere decodes without error to the frames it holds in full |
| EndToEnd.CallbackStackDecodes | rdpflux/transport.py:152-216 | what a reader gets out of the callback queue decodes to a prefix of the frames sent, to all of them if all came and was read |
| ControlFraming.MessageReader.ReadLine | rdpflux/control/framing.py:63-75 | the line, the end, or the error that the remaining bytes as a whole say, unless the line is seen to be too long |
| ControlFraming.MessageReader.ReadExactly | rdpflux/control/framing.py:77-85 | exactly so many bytes, or how many there were |
| ControlFraming.MessageReader.ReadMessage | rdpflux/control/framing.py:87-104 | the next message of the remaining bytes as a whole, with all its error cases |
| ControlFraming.NextOfLine | rdpflux/control/framing.py:87-104 | what any line and the bytes behind it are: the message, with an absent `body_len` meaning 0, or which error |
| ControlFraming.NextWithoutBreak | rdpflux/control/framing.py:72-75 | bytes without a line break are the end if there are none, and otherwise an error |
| ControlFraming.EncodedLayout | rdpflux/control/framing.py:35-41 | the bytes of an encoded message, and the refusal of one whose line is over 65536 bytes |
| ControlFraming.MessageRoundTripsIff | rdpflux/control/framing.py:35-41 | an encoded message is read back as itself if and only if its body is within the reader's limit and an empty body is not contradicted by a `body_len` of the caller's own |
| ControlFraming.ReadSession | rdpflux/control/framing.py:87-104 | any messages, in any pieces, are read back in order, then the end |
| ControlFraming.OverflowsIff | rdpflux/control/framing.py:63-75 | a line is refused if and only if some pieces end beyond 65536 bytes of it without its line break |
| ControlFraming.FittingLineIsNeverRefused | rdpflux/control/framing.py:63-75 | a line of up to 65536 bytes is never refused, however it arrives |
| ControlFraming.VeryLongLineIsRefused | rdpflux/control/framing.py:63-75 | one of 131072 bytes or more always is |
| ControlFraming.LongLineDependsOnPieces | rdpflux/control/framing.py:63-75 | for every length between there are pieces of the same bytes with which it is accepted and refused |
| ControlReply.EncodeResponse | rdpflux/control/service.py:290-318 | a reply that fits is sent as it is; a command's output is cut at the first halved budget that fits, which exists if and only if the smallest one fits; anything else becomes an error if that fits |
| ControlReply.ExecAlwaysFits | rdpflux/control/service.py:300-317 | whatever a command wrote, its header fits at a budget of 8192, the third one tried |
| ControlReply.ReplyToExec | rdpflux/control/service.py:290-318 | the outcome of a command is always sent: whole if it fits, and otherwise within 65536 bytes, marked as cut, with suffixes of its outputs that are whole or at least 4096 characters long |
| ReplyText.ReplyIsRead | rdpflux/control/service.py:290-318 | the bytes of a command's reply, decoded from UTF-8 and JSON, are one message that says its exit code, each output under its own name, and whether and why they were cut |
| ReplyText.ErrorIsRead | rdpflux/control/service.py:318 | so are the bytes of an error sent in place of a reply, which says so |
| ControlReply.TrimmingIsMonotone | rdpflux/control/service.py:303-317 | a larger budget never makes a header smaller, so the first that fits keeps the most |
| ControlReply.TextSizeBounds | rdpflux/control/framing.py:35-41 | a character costs 1 to 6 bytes of JSON |
| Geometry.NeverUpscales | rdpflux/control/imaging.py:11-20 | a screenshot has the width asked for, or the display's if that is less; it is never larger than the display on either axis, and its height is the nearest to the aspect ratio |
| Geometry.AxisRoundTripsIff | rdpflux/control/service.py:265-287 | every pixel of an axis stays on the display and maps back to itself if and only if the axis is not upscaled |
| Geometry.ScaleAction | rdpflux/control/actions.py:151-165 | both points go to the nearest pixels of the display and nothing else changes |
| Geometry.ControlService.Perform | rdpflux/control/service.py:265-287 | each point of the last screenshot goes to the pixel of the display nearest to it, whatever was delivered; before a screenshot nothing is scaled |
| Geometry.ControlService.Report | rdpflux/control/service.py:269-275 | a cursor position is told as the nearest pixel of the last screenshot, or as it is before there is one |
| Geometry.MoveAndAsk | rdpflux/control/service.py:255-273 | on an unchanged display a caller that moves the cursor to a point of its screenshot and asks for it is told that point, and the cursor is at the pixel nearest to it |
| Geometry.RoundIsNearest | rdpflux/control/imaging.py:20 | rounding is to the nearest integer, and to the even one of two |

## Left out

- ControlFraming.MessageRoundTripsIff: JSON text is modelled for replies to commands only; here encoding is any function that loading inverts and whose result holds no line break.
- ReplyText.ReplyIsRead: the reader knows no spaces, lists, fractions and surrogate pairs, which replies to commands do not have.
- ControlReply.ExecAlwaysFits: assumes an exit status of 32 bits, signed or unsigned, as operating systems have it.
- Geometry.AxisRoundTripsIff: ratios are exact; floating-point error in the factors is not modelled.
- PairTheorems.NoHonestTunnelDies: more than 128 streams are not covered, because a graceful close gives the writer's reservation back while the reader still buffers the data.
- MuxClasses.MuxStream.SendChunk: a write cancelled inside the transport's own write, which gives its credit back although bytes may be out, is not modelled.
- MuxClasses.MuxPeer.OpenStream: a request whose metadata is too large to encode is a step of the pair (an ID is used up and nothing sent), not of the class.
- Control payloads of the mux are decoded JSON objects; their text and its limit of 16 KiB are not modelled.
- MuxClasses.MuxPeer.Shutdown: a reader that runs between the closing of two streams is not interleaved with the loop.
- At shutdown: closing the transport, cancelling helper tasks, telling the cancel-listener handler.
- Clocks: keepalive, idle timeout and retransmission delays; a timeout may come at any time.
- The wording of errors and of close reasons a stream keeps for its caller.
- The outer read loop of a peer: reading and decoding are in the layers below, dispatching in `MuxPeer.DispatchFrames`.
- The length prefix of FreeRDP's child process and the stream transport of asyncio.
- Channel writes that fail or are short; they end the transport.
- Replies to operations other than commands, beyond whether they fit.
- Foreign APIs (COM, WTS, GDI, input, clipboard), sockets, HTTP, policy checks, configuration and the command-line programs.
