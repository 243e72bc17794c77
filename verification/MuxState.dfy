/**
 The state of one mux peer, and what each uninterrupted stretch of its code does to it.

 Asyncio code runs without interference between two awaits, and a frame takes its place in the
 outgoing channel when it is submitted, so each function here is one such stretch: it returns the
 new state together with the frames submitted.
 */
module MuxState {
  import opened Common
  import opened Json

  const INITIAL_WINDOW := 256 * 1024
  const CHUNK_SIZE := 16 * 1024
  const MAX_BUFFERED_DATA := 32 * 1024 * 1024
  const MAX_STREAM_ID := 0xFFFF_FFFF

  // ----- Frames ---------------------------------------------------------------------------

  /** A payload: its bytes, and the JSON object they decode to, if they do. */
  datatype Payload = Payload(data: Bytes, json: Option<Object>)

  datatype Frame = Frame(kind: Kind, id: nat, payload: Payload, flags: nat)

  datatype ProtocolError =
    | BadFlags | BadStreamId | EmptyData | HalfClosePayload | InvalidControl
    | BadRole | BadVersion | BadWindow | BadNonce | HelloChanged | HandshakeRejected
    | BeforeHandshake | BadResult | UnexpectedResult | BadCredit | BadReason
    | UnknownStream | UnknownRequest | BadParity | IdNotIncreasing
    | DataAfterClose | WindowExceeded | AggregateExceeded | InvalidWindowUpdate

  const NO_PAYLOAD := Payload([], None)

  /** The text of a JSON object is left abstract, except that it is never empty. */
  function EncodeControl(obj: Object): Payload {
    Payload([0x7B, 0x7D], Some(obj))
  }

  function Control(kind: Kind, id: nat, obj: Object): Frame {
    Frame(kind, id, EncodeControl(obj), 0)
  }

  function DataFrame(id: nat, data: Bytes): Frame {
    Frame(DATA, id, Payload(data, None), 0)
  }

  function HalfCloseFrame(id: nat): Frame {
    Frame(HALF_CLOSE, id, NO_PAYLOAD, 0)
  }

  function CloseFrame(id: nat, reason: string): Frame {
    Control(CLOSE, id, map["reason" := Text(reason[..Min(|reason|, 512)])])
  }

  function CreditFrame(id: nat, credit: nat): Frame {
    Control(WINDOW_UPDATE, id, map["credit" := Int(credit)])
  }

  function ResultFrame(kind: Kind, id: nat, ok: bool): Frame {
    Control(kind, id, if ok then map["ok" := Bool(true)]
                      else map["ok" := Bool(false), "error" := Text("rejected")])
  }

  function HelloFrame(role: Role, nonce: string): Frame {
    Control(HELLO, 0, map["role" := Text(RoleName(role)), "version" := Int(1), "nonce" := Text(nonce),
                          "window" := Int(INITIAL_WINDOW)])
  }

  function HelloAckFrame(): Frame {
    Control(HELLO_ACK, 0, map["ok" := Bool(true), "version" := Int(1)])
  }

  // ----- State ----------------------------------------------------------------------------

  datatype Role = Client | Agent

  function RoleName(role: Role): string { if role == Client then "client" else "agent" }

  /** The parity of the IDs a role allocates. */
  function Parity(role: Role): nat { if role == Client then 1 else 0 }

  predicate Owns(role: Role, id: nat) { id % 2 == Parity(role) }

  /**
   One end of a stream that is in its peer's `streams` map. `taken` and `job` are the locals of the
   one write that holds `_write_serial`: the chunk it has taken stream credit for but not yet
   submitted, and the rest of its data.
   */
  datatype End = End(
    buffer: Bytes, sendCredit: int, outReserved: int, recvCredit: int,
    localEof: bool, remoteEof: bool, closed: bool,
    taken: Bytes, job: Bytes)

  const NEW_END := End([], INITIAL_WINDOW, 0, INITIAL_WINDOW, false, false, false, [], [])

  /** A task serving the other peer's request: not started, running, or ended but not yet reaped. */
  datatype Request = OpenRunning | ListenQueued | ListenRunning | Ended

  /** How an end left the `streams` map. */
  datatype Ending =
    | Drained     // closed by the other peer after its HALF_CLOSE, and read to the end
    | Reset       // aborted by the other peer
    | ClosedHere  // closed, timed out or refused on this side

  /**
   What happened so far; no code reads it. `sent` was submitted and `got` taken out by reads; `lost`
   counts what reads took whose credit was never sent; of the IDs in `muted` this side never sent the
   CLOSE; those in `granted` are the listener requests that returned with success.
   */
  datatype History = History(
    sent: map<nat, Bytes>, got: map<nat, Bytes>, lost: map<nat, nat>, eofs: set<nat>, muted: set<nat>,
    granted: set<nat>, endings: map<nat, Ending>)

  datatype Peer = Peer(
    role: Role, nonce: string, maxStreams: nat, handlesOpen: bool, handlesListen: bool,
    streams: map<nat, End>, nextId: nat, highestPeerId: nat,
    helloReceived: bool, ackReceived: bool, peerHello: Option<(string, string)>,
    pendingOpens: map<nat, Option<bool>>, pendingListens: map<nat, Option<bool>>,
    requests: map<nat, Request>, listeners: set<nat>,
    inBuffered: int, outBuffered: int, history: History)

  function NewPeer(role: Role, nonce: string, maxStreams: nat, handlesOpen: bool, handlesListen: bool): Peer {
    Peer(role, nonce, maxStreams, handlesOpen, handlesListen, map[], if role == Client then 1 else 2, 0,
         false, false, None, map[], map[], map[], {}, 0, 0, History(map[], map[], map[], {}, {}, {}, map[]))
  }

  predicate Ready(p: Peer) { p.helloReceived && p.ackReceived }

  predicate Live(p: Peer, id: nat) { id in p.streams && !p.streams[id].closed }

  /** The bytes recorded under `id`. */
  function Log(logs: map<nat, Bytes>, id: nat): Bytes { if id in logs then logs[id] else [] }

  function Count(counts: map<nat, nat>, id: nat): nat { if id in counts then counts[id] else 0 }

  function SetEnd(p: Peer, id: nat, e: End): Peer { p.(streams := p.streams[id := e]) }

  // ----- Closing --------------------------------------------------------------------------

  /** What a stream object is left with once `_mark_closed` has detached it. */
  function ClosedEnd(e: End): End {
    e.(closed := true, remoteEof := true, buffer := [],
       recvCredit := if |e.buffer| > 0 then Min(INITIAL_WINDOW, e.recvCredit + |e.buffer|) else e.recvCredit,
       sendCredit := INITIAL_WINDOW, outReserved := 0)
  }

  function MarkClosed(p: Peer, id: nat, how: Ending): Peer {
    if !Live(p, id) then p
    else
      var e := p.streams[id];
      p.(streams := p.streams - {id},
         inBuffered := if |e.buffer| > 0 then Max(0, p.inBuffered - |e.buffer|) else p.inBuffered,
         outBuffered := Max(0, p.outBuffered - e.outReserved),
         history := p.history.(endings := p.history.endings[id := how]))
  }

  /** CLOSE after HALF_CLOSE: what has arrived stays readable. */
  function FinishGracefully(p: Peer, id: nat): Peer
    requires Live(p, id)
  {
    var e := p.streams[id];
    p.(streams := if e.buffer == [] then p.streams - {id}
                  else p.streams[id := e.(closed := true, sendCredit := INITIAL_WINDOW, outReserved := 0)],
       outBuffered := Max(0, p.outBuffered - e.outReserved),
       history := if e.buffer == [] then p.history.(endings := p.history.endings[id := Drained]) else p.history)
  }

  function RemoteClose(p: Peer, id: nat): Peer {
    if !Live(p, id) then p
    else if p.streams[id].remoteEof then FinishGracefully(p, id)
    else MarkClosed(p, id, Reset)
  }

  // ----- The end of the tunnel ----------------------------------------------------------------

  /** `_remote_close` of the streams listed, one after the other. */
  function CloseAll(p: Peer, order: seq<nat>): Peer {
    if order == [] then p else RemoteClose(CloseAll(p, order[..|order| - 1]), order[|order| - 1])
  }

  /** Requests still waiting for an answer get a failure. */
  function FailWaiting(pending: map<nat, Option<bool>>): map<nat, Option<bool>> {
    map id | id in pending :: if pending[id].None? then Some(false) else pending[id]
  }

  /** `_shutdown`, with the streams closed in the given order. */
  function Shutdown(p: Peer, order: seq<nat>): Peer {
    CloseAll(p, order).(streams := map[], requests := map[], listeners := {},
                        pendingOpens := FailWaiting(p.pendingOpens), pendingListens := FailWaiting(p.pendingListens))
  }

  // ----- What the other peer's frames do --------------------------------------------------

  /** A new state and the frames submitted, or the error that ends the tunnel. */
  datatype Effect = Continue(peer: Peer, out: seq<Frame>) | Raise(error: ProtocolError)

  function Receive(p: Peer, id: nat, data: Bytes): Effect
    requires id in p.streams
  {
    var e := p.streams[id];
    if data == [] then Raise(EmptyData)
    else if e.remoteEof || e.closed then Raise(DataAfterClose)
    else if |data| > e.recvCredit then Raise(WindowExceeded)
    else if p.inBuffered + |data| > MAX_BUFFERED_DATA then Raise(AggregateExceeded)
    else Continue(
      p.(streams := p.streams[id := e.(recvCredit := e.recvCredit - |data|, buffer := e.buffer + data)],
         inBuffered := p.inBuffered + |data|), [])
  }

  function ReceiveEof(p: Peer, id: nat): Peer
    requires id in p.streams
  {
    var e := p.streams[id];
    if e.remoteEof || e.closed then p else SetEnd(p, id, e.(remoteEof := true))
  }

  function AddCredit(p: Peer, id: nat, amount: int): Effect
    requires id in p.streams
  {
    var e := p.streams[id];
    if amount <= 0 || amount > INITIAL_WINDOW - e.sendCredit || amount > e.outReserved
    then Raise(InvalidWindowUpdate)
    else
      var release := Min(amount, e.outReserved);
      Continue(p.(streams := p.streams[id := e.(sendCredit := e.sendCredit + amount,
                                                outReserved := e.outReserved - release)],
                  outBuffered := Max(0, p.outBuffered - release)), [])
  }

  /** IDs that were in use once, so that a frame naming them is late rather than forged. */
  predicate IsStaleId(p: Peer, id: nat) {
    if Owns(p.role, id) then 0 < id < p.nextId else 0 < id <= p.highestPeerId
  }

  function ValidatePeerRequestId(p: Peer, id: nat): Option<ProtocolError> {
    if Owns(p.role, id) then Some(BadParity)
    else if id <= p.highestPeerId then Some(IdNotIncreasing)
    else None
  }

  function StartOpen(p: Peer, f: Frame): Effect {
    var bad := ValidatePeerRequestId(p, f.id);
    if bad.Some? then Raise(bad.value)
    else if |p.streams| >= p.maxStreams || !p.handlesOpen then
      Continue(p.(highestPeerId := f.id), [ResultFrame(OPEN_RESULT, f.id, false)])
    else if f.payload.json.None? then Raise(InvalidControl)
    else Continue(p.(highestPeerId := f.id, streams := p.streams[f.id := NEW_END],
                     requests := p.requests[f.id := OpenRunning]), [])
  }

  function StartListen(p: Peer, f: Frame): Effect {
    var bad := ValidatePeerRequestId(p, f.id);
    if bad.Some? then Raise(bad.value)
    else if f.payload.json.None? then Raise(InvalidControl)
    else if !p.handlesListen || |p.listeners| + |p.requests| >= p.maxStreams then
      Continue(p.(highestPeerId := f.id), [ResultFrame(LISTEN_RESULT, f.id, false)])
    else Continue(p.(highestPeerId := f.id, requests := p.requests[f.id := ListenQueued]), [])
  }

  function CancelRequest(p: Peer, id: nat): Peer {
    if id in p.requests then p.(requests := p.requests[id := Ended]) else p
  }

  function HandleClose(p: Peer, f: Frame): Effect {
    if f.payload.json.None? then Raise(InvalidControl)
    else if !Get(f.payload.json.value, "reason", Text("")).Text? then Raise(BadReason)
    else
      var p' := CancelRequest(p, f.id);
      if f.id in p.streams then Continue(RemoteClose(p', f.id), [])
      else if f.id in p.listeners then Continue(p'.(listeners := p.listeners - {f.id}), [])
      else if !IsStaleId(p, f.id) then Raise(UnknownRequest)
      else Continue(p', [])
  }

  /** `_decode_result`: the `ok` field of a well-formed result. */
  function DecodeResult(payload: Payload): Result<bool, ProtocolError> {
    if payload.json.None? then Failure(InvalidControl)
    else
      var ok, error := Get(payload.json.value, "ok"), Get(payload.json.value, "error");
      if !ok.Bool? || !(error.Null? || error.Text?) then Failure(BadResult) else Success(ok.flag)
  }

  predicate Awaited(pending: map<nat, Option<bool>>, id: nat) { id in pending && pending[id].None? }

  function ReceiveHello(p: Peer, payload: Payload): Effect {
    if payload.json.None? then Raise(InvalidControl)
    else
      var hello := payload.json.value;
      var role, nonce := Get(hello, "role"), Get(hello, "nonce");
      if !(role == Text("client") || role == Text("agent")) || role == Text(RoleName(p.role)) then Raise(BadRole)
      else if !EqualsOne(Get(hello, "version")) then Raise(BadVersion)
      else if Get(hello, "window") != Int(INITIAL_WINDOW) then Raise(BadWindow)
      else if !nonce.Text? || |nonce.text| == 0 || |nonce.text| > 128 then Raise(BadNonce)
      else if p.peerHello.Some? && p.peerHello.value != (role.text, nonce.text) then Raise(HelloChanged)
      else Continue(p.(peerHello := Some((role.text, nonce.text)), helloReceived := true), [HelloAckFrame()])
  }

  function ReceiveHelloAck(p: Peer, payload: Payload): Effect {
    if payload.json.None? then Raise(InvalidControl)
    else if Get(payload.json.value, "ok") != Bool(true) || !EqualsOne(Get(payload.json.value, "version"))
    then Raise(HandshakeRejected)
    else Continue(p.(ackReceived := true), [])
  }

  predicate IsGlobal(kind: Kind) { kind in {HELLO, HELLO_ACK, PING, PONG} }

  predicate IsHandshake(kind: Kind) { kind == HELLO || kind == HELLO_ACK }

  predicate IsRequest(kind: Kind) { kind == OPEN || kind == LISTEN }

  predicate IsAnswer(kind: Kind) {
    kind == HELLO_ACK || kind == PONG || kind == OPEN_RESULT || kind == LISTEN_RESULT
  }

  function ValidateFrameShape(f: Frame): Option<ProtocolError> {
    if f.flags != 0 then Some(BadFlags)
    else if IsGlobal(f.kind) && f.id != 0 then Some(BadStreamId)
    else if !IsGlobal(f.kind) && f.id == 0 then Some(BadStreamId)
    else if f.kind == DATA && f.payload.data == [] then Some(EmptyData)
    else if f.kind == HALF_CLOSE && f.payload.data != [] then Some(HalfClosePayload)
    else None
  }

  /** DATA, WINDOW_UPDATE and HALF_CLOSE, once `_live_stream` has found the stream. */
  function DispatchToStream(p: Peer, f: Frame): Effect
    requires f.id in p.streams
  {
    match f.kind
    case DATA => Receive(p, f.id, f.payload.data)
    case WINDOW_UPDATE =>
      if f.payload.json.None? then Raise(InvalidControl)
      else
        var credit := Get(f.payload.json.value, "credit");
        if credit.Int? then AddCredit(p, f.id, credit.number) else Raise(BadCredit)
    case _ => Continue(ReceiveEof(p, f.id), [])
  }

  function DispatchResult(p: Peer, f: Frame): Effect {
    var result := DecodeResult(f.payload);
    if result.Failure? then Raise(result.error)
    else if f.kind == OPEN_RESULT && Awaited(p.pendingOpens, f.id) then
      Continue(p.(pendingOpens := p.pendingOpens[f.id := Some(result.value)]), [])
    else if f.kind == LISTEN_RESULT && Awaited(p.pendingListens, f.id) then
      Continue(p.(pendingListens := p.pendingListens[f.id := Some(result.value)]), [])
    else if !IsStaleId(p, f.id) then Raise(UnexpectedResult)
    else Continue(p, [])
  }

  /** One received frame. */
  function Dispatch(p: Peer, f: Frame): Effect {
    var bad := ValidateFrameShape(f);
    if bad.Some? then Raise(bad.value)
    else if f.kind == HELLO then ReceiveHello(p, f.payload)
    else if f.kind == HELLO_ACK then ReceiveHelloAck(p, f.payload)
    else if !Ready(p) then Raise(BeforeHandshake)
    else if f.kind == OPEN then StartOpen(p, f)
    else if f.kind == OPEN_RESULT || f.kind == LISTEN_RESULT then DispatchResult(p, f)
    else if f.kind == CLOSE then HandleClose(p, f)
    else if f.kind == LISTEN then StartListen(p, f)
    else if f.kind == PING then Continue(p, [Frame(PONG, 0, f.payload, 0)])
    else if f.kind == PONG then Continue(p, [])
    else if f.id in p.streams then DispatchToStream(p, f)
    else if !IsStaleId(p, f.id) then Raise(UnknownStream)
    else Continue(p, [])
  }

  // ----- What the application and the peer's own tasks do ----------------------------------

  datatype Action =
    | SendHello
    | SendPing(text: Payload)
    | Open(metadata: Object)
    | OpenUnsent                      // the OPEN could not be encoded: an ID is spent, nothing is sent
    | FinishOpen(id: nat)             // `open_stream` sees its result
    | TimeoutOpen(id: nat)
    | RequestListener(metadata: Object)
    | ListenUnsent
    | FinishListen(id: nat)
    | TimeoutListen(id: nat)
    | StartWrite(id: nat, data: Bytes)
    | TakeCredit(id: nat)             // a writer leaves its wait for stream credit
    | SendChunk(id: nat)              // and then its wait for aggregate credit
    | CancelWrite(id: nat)
    | Read(id: nat, size: int)
    | WriteEof(id: nat)
    | Close(id: nat, reason: string)
    | Cut(id: nat, call: Call)          // a call is cancelled with its frame not sent
    | CompleteOpen(id: nat, ok: bool)   // the open handler returns or raises
    | BeginListen(id: nat)              // a LISTEN task starts
    | CompleteListen(id: nat, ok: bool) // and its handler returns or raises
    | Reap(id: nat)                     // the done callback of a request task

  /** The calls that change the state of a peer and then wait for their turn to send a frame. */
  datatype Call = ReadCall(size: int) | EofCall | CloseCall | OpenTimeout | ListenTimeout

  predicate Idle(e: End) { e.taken == [] && e.job == [] }

  /** The size of the chunk the writer may take next. */
  function NextChunk(e: End): int { Min(Min(CHUNK_SIZE, e.sendCredit), |e.job|) }

  /** A stream the application holds: `open_stream` keeps it to itself until it returns. */
  predicate Held(p: Peer, id: nat) { id in p.streams && id !in p.pendingOpens }

  predicate CanAllocate(p: Peer) { Ready(p) && p.nextId <= MAX_STREAM_ID }

  predicate CanTakeCredit(e: End) { !e.closed && e.job != [] && e.taken == [] && e.sendCredit > 0 }

  predicate CanSendChunk(p: Peer, e: End) {
    !e.closed && e.taken != [] && p.outBuffered + |e.taken| <= MAX_BUFFERED_DATA
  }

  /** `read` does not wait. */
  predicate CanRead(e: End, size: int) { size == 0 || e.buffer != [] || e.remoteEof || e.closed }

  /** The call gets as far as waiting to send: it is not one that returns without sending. */
  predicate CanCut(p: Peer, id: nat, call: Call) {
    match call
    case ReadCall(size) => Held(p, id) && Live(p, id) && size != 0 && p.streams[id].buffer != []
    case EofCall => Held(p, id) && Live(p, id) && !p.streams[id].localEof && Idle(p.streams[id])
    case CloseCall => Held(p, id) && Live(p, id)
    case OpenTimeout => id in p.pendingOpens
    case ListenTimeout => id in p.pendingListens
  }

  predicate Enabled(p: Peer, action: Action) {
    match action
    case SendHello => true // a retransmission may have been under way when the peer got ready
    case SendPing(_) => Ready(p)
    case Open(_) => CanAllocate(p) && |p.streams| < p.maxStreams
    case OpenUnsent => CanAllocate(p) && |p.streams| < p.maxStreams
    case FinishOpen(id) => id in p.pendingOpens && p.pendingOpens[id].Some?
    case TimeoutOpen(id) => id in p.pendingOpens
    case RequestListener(_) => CanAllocate(p)
    case ListenUnsent => CanAllocate(p)
    case FinishListen(id) => id in p.pendingListens && p.pendingListens[id].Some?
    case TimeoutListen(id) => id in p.pendingListens
    case StartWrite(id, _) => Held(p, id) && Live(p, id) && !p.streams[id].localEof && Idle(p.streams[id])
    case TakeCredit(id) => Held(p, id) && CanTakeCredit(p.streams[id])
    case SendChunk(id) => Held(p, id) && CanSendChunk(p, p.streams[id])
    case CancelWrite(id) => Held(p, id)
    case Read(id, size) => Held(p, id) && CanRead(p.streams[id], size)
    case WriteEof(id) => Held(p, id) && Idle(p.streams[id])
    case Close(id, _) => Held(p, id)
    case Cut(id, call) => CanCut(p, id, call)
    case CompleteOpen(id, _) => id in p.requests && p.requests[id] == OpenRunning
    case BeginListen(id) => id in p.requests && p.requests[id] == ListenQueued
    case CompleteListen(id, _) => id in p.requests && p.requests[id] == ListenRunning
    case Reap(id) => id in p.requests && p.requests[id] == Ended
  }

  /** `open_stream` and `request_listener` up to their wait for the answer. */
  function ApplyOpen(p: Peer, metadata: Object): (Peer, seq<Frame>) {
    (p.(streams := p.streams[p.nextId := NEW_END], nextId := p.nextId + 2,
        pendingOpens := p.pendingOpens[p.nextId := None]),
     [Control(OPEN, p.nextId, metadata)])
  }

  function ApplyRequestListener(p: Peer, metadata: Object): (Peer, seq<Frame>) {
    (p.(nextId := p.nextId + 2, pendingListens := p.pendingListens[p.nextId := None]),
     [Control(LISTEN, p.nextId, metadata)])
  }

  function ApplyFinishOpen(p: Peer, id: nat): Peer
    requires id in p.pendingOpens && p.pendingOpens[id].Some?
  {
    var p' := if p.pendingOpens[id].value then p else MarkClosed(p, id, ClosedHere);
    p'.(pendingOpens := p.pendingOpens - {id})
  }

  function ApplyTimeoutOpen(p: Peer, id: nat): (Peer, seq<Frame>) {
    (MarkClosed(p, id, ClosedHere).(pendingOpens := p.pendingOpens - {id}), [CloseFrame(id, "open timed out")])
  }

  function ApplyFinishListen(p: Peer, id: nat): Peer
    requires id in p.pendingListens && p.pendingListens[id].Some?
  {
    p.(pendingListens := p.pendingListens - {id},
       history := p.history.(
         granted := if p.pendingListens[id].value then p.history.granted + {id} else p.history.granted))
  }

  /** `_write_serialized` up to its wait for aggregate credit. */
  function ApplyTakeCredit(p: Peer, id: nat): Peer
    requires id in p.streams && CanTakeCredit(p.streams[id])
  {
    var e := p.streams[id];
    var count := NextChunk(e);
    SetEnd(p, id, e.(sendCredit := e.sendCredit - count, taken := e.job[..count], job := e.job[count..]))
  }

  /** `_reserve_outgoing` and the DATA frame that follows it. */
  function ApplySendChunk(p: Peer, id: nat): (Peer, seq<Frame>)
    requires id in p.streams
  {
    var e := p.streams[id];
    (p.(streams := p.streams[id := e.(outReserved := e.outReserved + |e.taken|, taken := [])],
        outBuffered := p.outBuffered + |e.taken|,
        history := p.history.(sent := p.history.sent[id := Log(p.history.sent, id) + e.taken])),
     [DataFrame(id, e.taken)])
  }

  function ApplyCancelWrite(p: Peer, id: nat): Peer
    requires id in p.streams
  {
    var e := p.streams[id];
    SetEnd(p, id, e.(taken := [], job := [],
                     sendCredit := if e.closed then e.sendCredit else e.sendCredit + |e.taken|))
  }

  function RemoveStream(p: Peer, id: nat, how: Ending): Peer {
    p.(streams := p.streams - {id}, history := p.history.(endings := p.history.endings[id := how]))
  }

  /** How many buffered bytes `read(size)` takes. */
  function ReadCount(e: End, size: int): nat {
    if size < 0 then |e.buffer| else Min(size, |e.buffer|)
  }

  /** Moves the first `count` unread bytes to the application; the last ones take a closed stream away. */
  function TakeUnread(p: Peer, id: nat, count: nat): Peer
    requires id in p.streams && count <= |p.streams[id].buffer|
  {
    var e := p.streams[id];
    p.(streams := if e.closed && count == |e.buffer| then p.streams - {id}
                  else p.streams[id := e.(buffer := e.buffer[count..], recvCredit := e.recvCredit + count)],
       inBuffered := Max(0, p.inBuffered - count),
       history := p.history.(
         got := p.history.got[id := Log(p.history.got, id) + e.buffer[..count]],
         endings := if e.closed && count == |e.buffer| then p.history.endings[id := Drained] else p.history.endings))
  }

  /** What a read takes from a stream object that is no longer in the map. */
  function TakeOrphaned(p: Peer, id: nat, data: Bytes): Peer {
    if data == [] then p
    else p.(inBuffered := Max(0, p.inBuffered - |data|),
            history := p.history.(got := p.history.got[id := Log(p.history.got, id) + data]))
  }

  function ApplyRead(p: Peer, id: nat, size: int): (Peer, seq<Frame>)
    requires id in p.streams
  {
    var e := p.streams[id];
    if size == 0 then (p, [])
    else if e.buffer == [] then (if e.closed then RemoveStream(p, id, Drained) else p, [])
    else
      var count := ReadCount(e, size);
      (TakeUnread(p, id, count), if e.closed then [] else [CreditFrame(id, count)])
  }

  function ApplyWriteEof(p: Peer, id: nat): (Peer, seq<Frame>)
    requires id in p.streams
  {
    var e := p.streams[id];
    if e.localEof || e.closed then (p, [])
    else (p.(streams := p.streams[id := e.(localEof := true)],
             history := p.history.(eofs := p.history.eofs + {id})),
          [HalfCloseFrame(id)])
  }

  function ApplyClose(p: Peer, id: nat, reason: string): (Peer, seq<Frame>)
    requires id in p.streams
  {
    var e := p.streams[id];
    if e.closed then
      (p.(streams := p.streams - {id},
          inBuffered := if |e.buffer| > 0 then Max(0, p.inBuffered - |e.buffer|) else p.inBuffered,
          history := p.history.(endings := p.history.endings[id := ClosedHere])), [])
    else (MarkClosed(p, id, ClosedHere), [CloseFrame(id, reason)])
  }

  /** The CLOSE for `id` will never be sent. */
  function Mute(p: Peer, id: nat): Peer { p.(history := p.history.(muted := p.history.muted + {id})) }

  /** A read that took `count` bytes is cancelled before it has sent the credit for them. */
  function LoseCredit(p: Peer, id: nat, count: nat): Peer {
    p.(history := p.history.(lost := p.history.lost[id := Count(p.history.lost, id) + count]))
  }

  function ApplyCut(p: Peer, id: nat, call: Call): Peer
    requires CanCut(p, id, call)
  {
    match call
    case ReadCall(size) =>
      var count := ReadCount(p.streams[id], size);
      LoseCredit(TakeUnread(p, id, count), id, count)
    case EofCall => SetEnd(p, id, p.streams[id].(localEof := true))
    case CloseCall => Mute(MarkClosed(p, id, ClosedHere), id)
    case OpenTimeout => Mute(ApplyTimeoutOpen(p, id).0, id)
    case ListenTimeout => Mute(p.(pendingListens := p.pendingListens - {id}), id)
  }

  function ApplyCompleteOpen(p: Peer, id: nat, ok: bool): (Peer, seq<Frame>) {
    ((if ok then p else RemoteClose(p, id)).(requests := p.requests[id := Ended]),
     [ResultFrame(OPEN_RESULT, id, ok)])
  }

  /** The start of `_finish_listen`, which counts the listeners once more. */
  function ApplyBeginListen(p: Peer, id: nat): (Peer, seq<Frame>) {
    var refused := !p.handlesListen || |p.listeners| >= p.maxStreams;
    (p.(requests := p.requests[id := if refused then Ended else ListenRunning]),
     if refused then [ResultFrame(LISTEN_RESULT, id, false)] else [])
  }

  function ApplyCompleteListen(p: Peer, id: nat, ok: bool): (Peer, seq<Frame>) {
    (p.(requests := p.requests[id := Ended], listeners := if ok then p.listeners + {id} else p.listeners),
     [ResultFrame(LISTEN_RESULT, id, ok)])
  }

  function Apply(p: Peer, action: Action): (Peer, seq<Frame>)
    requires Enabled(p, action)
  {
    match action
    case SendHello => (p, [HelloFrame(p.role, p.nonce)])
    case SendPing(text) => (p, [Frame(PING, 0, text, 0)])
    case Open(metadata) => ApplyOpen(p, metadata)
    case OpenUnsent => (p.(nextId := p.nextId + 2), [])
    case FinishOpen(id) => (ApplyFinishOpen(p, id), [])
    case TimeoutOpen(id) => ApplyTimeoutOpen(p, id)
    case RequestListener(metadata) => ApplyRequestListener(p, metadata)
    case ListenUnsent => (p.(nextId := p.nextId + 2), [])
    case FinishListen(id) => (ApplyFinishListen(p, id), [])
    case TimeoutListen(id) =>
      (p.(pendingListens := p.pendingListens - {id}), [CloseFrame(id, "listen timed out")])
    case StartWrite(id, data) => (SetEnd(p, id, p.streams[id].(job := data)), [])
    case TakeCredit(id) => (ApplyTakeCredit(p, id), [])
    case SendChunk(id) => ApplySendChunk(p, id)
    case CancelWrite(id) => (ApplyCancelWrite(p, id), [])
    case Read(id, size) => ApplyRead(p, id, size)
    case WriteEof(id) => ApplyWriteEof(p, id)
    case Close(id, reason) => ApplyClose(p, id, reason)
    case Cut(id, call) => (ApplyCut(p, id, call), [])
    case CompleteOpen(id, ok) => ApplyCompleteOpen(p, id, ok)
    case BeginListen(id) => ApplyBeginListen(p, id)
    case CompleteListen(id, ok) => ApplyCompleteListen(p, id, ok)
    case Reap(id) => (p.(requests := p.requests - {id}), [])
  }

  /** The write loop of stream `id` from where it stands, as far as it gets without waiting. */
  function RunWriter(p: Peer, out: seq<Frame>, id: nat): (Peer, seq<Frame>)
    requires Live(p, id)
    decreases if id in p.streams then 2 * |p.streams[id].job| + |p.streams[id].taken| else 0
  {
    var e := p.streams[id];
    if CanSendChunk(p, e) then
      var (p', frames) := ApplySendChunk(p, id);
      RunWriter(p', out + frames, id)
    else if CanTakeCredit(e) then RunWriter(ApplyTakeCredit(p, id), out, id)
    else (p, out)
  }
}
