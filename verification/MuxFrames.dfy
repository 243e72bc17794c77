/**
 Which received frames are errors, in terms of what the two sides have said and done before, and what the others do.
 Nothing is assumed of the sender.
 */
module MuxFrames {
  import opened Common
  import opened Json
  import opened MuxState
  import opened MuxLocal

  // ----- Frames that are no error -----------------------------------------------------------

  /** The form every frame must have. */
  predicate WellFormed(f: Frame) {
    && f.flags == 0
    && (f.id == 0 <==> f.kind == HELLO || f.kind == HELLO_ACK || f.kind == PING || f.kind == PONG)
    && (f.kind == DATA ==> f.payload.data != [])
    && (f.kind == HALF_CLOSE ==> f.payload.data == [])
  }

  predicate SaysOne(obj: Object, key: string) {
    key in obj && (obj[key] == Int(1) || obj[key] == Bool(true) || obj[key] == Float(1, 0))
  }

  /** What a peer must say to open the handshake: the other role, version 1, a window of 256 KiB, and a nonce. */
  predicate ProperHello(role: Role, hello: Object) {
    && "role" in hello && hello["role"] == Text(if role == Client then "agent" else "client")
    && SaysOne(hello, "version")
    && "window" in hello && hello["window"] == Int(262144)
    && "nonce" in hello && hello["nonce"].Text? && 1 <= |hello["nonce"].text| <= 128
  }

  /** A later HELLO must repeat the first. */
  predicate SameHello(p: Peer, hello: Object)
    requires ProperHello(p.role, hello)
  {
    p.peerHello == None || p.peerHello == Some((hello["role"].text, hello["nonce"].text))
  }

  predicate ProperAck(ack: Object) { "ok" in ack && ack["ok"] == Bool(true) && SaysOne(ack, "version") }

  predicate ProperResult(result: Object) {
    && "ok" in result && result["ok"].Bool?
    && ("error" in result ==> result["error"].Text? || result["error"] == Null)
  }

  predicate ProperReason(close: Object) { "reason" in close ==> close["reason"].Text? }

  /** An ID of this side below the next one, or one of the other side up to its last request. */
  predicate WasUsed(p: Peer, id: nat) {
    if id % 2 == (if p.role == Client then 1 else 0) then 0 < id < p.nextId else 0 < id <= p.highestPeerId
  }

  /** An ID of the other side above all it has used. */
  predicate IsNew(p: Peer, id: nat) { id % 2 == (if p.role == Client then 0 else 1) && id > p.highestPeerId }

  /** Bytes may come until the end is said, while what is unread stays within the window and all of it within 32 MiB. */
  ghost predicate HasRoom(p: Peer, id: nat, count: nat)
    requires id in p.streams
  {
    var e := p.streams[id];
    !e.remoteEof && |e.buffer| + count <= 262144 && Total(p.streams, Unread) + count <= 33554432
  }

  /** Credit may come back for bytes that were sent and not yet credited. */
  predicate IsOwed(e: End, payload: Payload) {
    && payload.json.Some? && "credit" in payload.json.value && payload.json.value["credit"].Int?
    && 0 < payload.json.value["credit"].number <= e.outReserved
  }

  ghost predicate AcceptableWhenReady(p: Peer, f: Frame) {
    match f.kind
    case PING => true
    case PONG => true
    case OPEN => IsNew(p, f.id) && (|p.streams| < p.maxStreams && p.handlesOpen ==> f.payload.json.Some?)
    case LISTEN => IsNew(p, f.id) && f.payload.json.Some?
    case OPEN_RESULT => WasUsed(p, f.id) && f.payload.json.Some? && ProperResult(f.payload.json.value)
    case LISTEN_RESULT => WasUsed(p, f.id) && f.payload.json.Some? && ProperResult(f.payload.json.value)
    case CLOSE => WasUsed(p, f.id) && f.payload.json.Some? && ProperReason(f.payload.json.value)
    case DATA => WasUsed(p, f.id) && (f.id in p.streams ==> HasRoom(p, f.id, |f.payload.data|))
    case WINDOW_UPDATE => WasUsed(p, f.id) && (f.id in p.streams ==> IsOwed(p.streams[f.id], f.payload))
    case HALF_CLOSE => WasUsed(p, f.id)
    case _ => false
  }

  ghost predicate Acceptable(p: Peer, f: Frame) {
    WellFormed(f) &&
    match f.kind
    case HELLO =>
      f.payload.json.Some? && ProperHello(p.role, f.payload.json.value) && SameHello(p, f.payload.json.value)
    case HELLO_ACK => f.payload.json.Some? && ProperAck(f.payload.json.value)
    case _ => Ready(p) && AcceptableWhenReady(p, f)
  }

  lemma HelloIff(p: Peer, payload: Payload)
    ensures ReceiveHello(p, payload).Continue? <==>
      payload.json.Some? && ProperHello(p.role, payload.json.value) && SameHello(p, payload.json.value)
  {
    if payload.json.Some? {
      var hello := payload.json.value;
      assert EqualsOne(Get(hello, "version")) <==> SaysOne(hello, "version");
      assert "client" != "agent" by { assert |"client"| != |"agent"|; }
    }
  }

  lemma AckIff(p: Peer, payload: Payload)
    ensures ReceiveHelloAck(p, payload).Continue? <==> payload.json.Some? && ProperAck(payload.json.value)
  {
  }

  lemma RequestIff(p: Peer, f: Frame)
    requires Ready(p)
    ensures f.kind == OPEN ==> (StartOpen(p, f).Continue? <==> AcceptableWhenReady(p, f))
    ensures f.kind == LISTEN ==> (StartListen(p, f).Continue? <==> AcceptableWhenReady(p, f))
  {
  }

  /** Whoever is waited for has an ID that was used. */
  lemma UsedIds(p: Peer, id: nat)
    requires PeerInv(p)
    ensures IsStaleId(p, id) <==> WasUsed(p, id)
    ensures id in p.streams || id in p.listeners || id in p.pendingOpens || id in p.pendingListens ==> WasUsed(p, id)
  {
    hide Accounts, Limits, QuietBeforeReady;
  }

  lemma ResultIff(p: Peer, f: Frame)
    requires PeerInv(p) && Ready(p) && (f.kind == OPEN_RESULT || f.kind == LISTEN_RESULT)
    ensures DispatchResult(p, f).Continue? <==> AcceptableWhenReady(p, f)
  {
    hide PeerInv, IsStaleId, WasUsed;
    UsedIds(p, f.id);
  }

  lemma CloseIff(p: Peer, f: Frame)
    requires PeerInv(p) && Ready(p) && f.kind == CLOSE
    ensures HandleClose(p, f).Continue? <==> AcceptableWhenReady(p, f)
  {
    hide PeerInv, IsStaleId, WasUsed, RemoteClose, CancelRequest;
    UsedIds(p, f.id);
  }

  lemma EndFacts(p: Peer, id: nat)
    requires PeerInv(p) && id in p.streams
    ensures var e := p.streams[id];
      && e.recvCredit + |e.buffer| == INITIAL_WINDOW && (e.closed ==> e.remoteEof)
      && 0 <= e.outReserved <= INITIAL_WINDOW - e.sendCredit
      && p.inBuffered == Total(p.streams, Unread)
  {
    hide Limits, Ids, QuietBeforeReady, Total;
  }

  lemma StreamFrameIff(p: Peer, f: Frame)
    requires PeerInv(p) && Ready(p) && f.id in p.streams && WellFormed(f)
    requires f.kind == DATA || f.kind == WINDOW_UPDATE || f.kind == HALF_CLOSE
    ensures DispatchToStream(p, f).Continue? <==> AcceptableWhenReady(p, f)
  {
    hide PeerInv, IsStaleId, WasUsed, Total;
    UsedIds(p, f.id);
    EndFacts(p, f.id);
  }

  lemma ShapeIff(f: Frame)
    ensures ValidateFrameShape(f).None? <==> WellFormed(f)
  {
  }

  /**
   Exactly which frames end the tunnel, whoever sends them: those that are not acceptable in the sense above, which
   speaks of what is unread and uncredited and not of the counters the code compares.
   */
  lemma ErrorIffUnacceptable(p: Peer, f: Frame)
    requires PeerInv(p)
    ensures Dispatch(p, f).Continue? <==> Acceptable(p, f)
  {
    hide PeerInv, StartOpen, StartListen, HandleClose, DispatchResult, DispatchToStream, ReceiveHello, ReceiveHelloAck,
      ValidateFrameShape, IsStaleId, ProperHello, SameHello, ProperAck, AcceptableWhenReady, WellFormed;
    ShapeIff(f);
    HelloIff(p, f.payload);
    AckIff(p, f.payload);
    if Ready(p) && WellFormed(f) {
      UsedIds(p, f.id);
      RequestIff(p, f);
      match f.kind {
        case HELLO => case HELLO_ACK => case OPEN => case LISTEN =>
        case PING => PingsAreFine(p, f);
        case PONG => PingsAreFine(p, f);
        case OPEN_RESULT => ResultIff(p, f);
        case LISTEN_RESULT => ResultIff(p, f);
        case CLOSE => CloseIff(p, f);
        case _ => if f.id in p.streams { StreamFrameIff(p, f); } else { GoneIff(p, f); }
      }
    }
  }

  lemma PingsAreFine(p: Peer, f: Frame)
    requires f.kind == PING || f.kind == PONG
    ensures AcceptableWhenReady(p, f)
  {
  }

  lemma GoneIff(p: Peer, f: Frame)
    requires f.id !in p.streams && (f.kind == DATA || f.kind == WINDOW_UPDATE || f.kind == HALF_CLOSE)
    ensures AcceptableWhenReady(p, f) <==> WasUsed(p, f.id)
  {
  }

  // ----- What frames and actions do ---------------------------------------------------------

  /** A frame that answers request `id` with `ok`. */
  predicate Answers(f: Frame, kind: Kind, id: nat, ok: bool) {
    && f.kind == kind && f.id == id && f.flags == 0
    && f.payload.json.Some? && "ok" in f.payload.json.value && f.payload.json.value["ok"] == Bool(ok)
  }

  lemma AnswerSays(kind: Kind, id: nat, ok: bool)
    ensures Answers(ResultFrame(kind, id, ok), kind, id, ok)
  {
  }

  /**
   An OPEN is admitted exactly if there is room for a stream and a handler: a new stream with both windows whole,
   and its request running. Otherwise it is refused at once, and nothing else changes.
   */
  lemma OpenIsAdmittedIff(p: Peer, f: Frame)
    requires Ready(p) && f.kind == OPEN && Dispatch(p, f).Continue?
    ensures var p', out := Dispatch(p, f).peer, Dispatch(p, f).out;
      if |p.streams| < p.maxStreams && p.handlesOpen then
        && out == []
        && p' == p.(highestPeerId := f.id, requests := p.requests[f.id := OpenRunning],
             streams := p.streams[f.id := End([], 262144, 0, 262144, false, false, false, [], [])])
      else |out| == 1 && Answers(out[0], OPEN_RESULT, f.id, false) && p' == p.(highestPeerId := f.id)
  {
    hide ResultFrame, ValidateFrameShape, ValidatePeerRequestId;
    AnswerSays(OPEN_RESULT, f.id, false);
  }

  /** A LISTEN is admitted exactly if listeners and requests of any kind leave room and there is a handler. */
  lemma ListenIsAdmittedIff(p: Peer, f: Frame)
    requires Ready(p) && f.kind == LISTEN && Dispatch(p, f).Continue?
    ensures var p', out := Dispatch(p, f).peer, Dispatch(p, f).out;
      if |p.listeners| + |p.requests| < p.maxStreams && p.handlesListen then
        out == [] && p' == p.(highestPeerId := f.id, requests := p.requests[f.id := ListenQueued])
      else |out| == 1 && Answers(out[0], LISTEN_RESULT, f.id, false) && p' == p.(highestPeerId := f.id)
  {
    hide ResultFrame, ValidateFrameShape, ValidatePeerRequestId;
    AnswerSays(LISTEN_RESULT, f.id, false);
  }

  /** A PING comes back as a PONG with the same payload; a PONG changes nothing. */
  lemma PingComesBack(p: Peer, payload: Payload)
    requires Ready(p)
    ensures Enabled(p, SendPing(payload)) && Apply(p, SendPing(payload)) == (p, [Frame(PING, 0, payload, 0)])
    ensures Dispatch(p, Frame(PING, 0, payload, 0)) == Continue(p, [Frame(PONG, 0, payload, 0)])
    ensures Dispatch(p, Frame(PONG, 0, payload, 0)) == Continue(p, [])
  {
  }

  /** A CLOSE carries its reason, or the first 512 characters of it. */
  lemma CloseSaysWhy(id: nat, reason: string)
    ensures var f := CloseFrame(id, reason);
      && f.kind == CLOSE && f.id == id && f.payload.json.Some? && "reason" in f.payload.json.value
      && var said := f.payload.json.value["reason"];
         said.Text? && said.text <= reason && |said.text| == (if |reason| < 512 then |reason| else 512)
  {
  }

  /** A ready peer can ask for a listener as long as an ID of 32 bits is left, and open a stream if it has room too. */
  lemma MayAskIff(p: Peer, metadata: Object)
    ensures Enabled(p, RequestListener(metadata)) <==> p.helloReceived && p.ackReceived && p.nextId <= 4294967295
    ensures Enabled(p, Open(metadata)) <==> Enabled(p, RequestListener(metadata)) && |p.streams| < p.maxStreams
  {
  }

  /** A request for a listener takes an ID that was never in use and sends what was asked for under it. */
  lemma ListenAllocates(p: Peer, metadata: Object)
    requires PeerInv(p) && Enabled(p, RequestListener(metadata))
    ensures var (p', out) := Apply(p, RequestListener(metadata));
      && |out| == 1 && out[0].kind == LISTEN && out[0].id == p.nextId && out[0].payload.json == Some(metadata)
      && !WasUsed(p, p.nextId) && p.nextId <= 4294967295
      && p' == p.(nextId := p.nextId + 2, pendingListens := p.pendingListens[p.nextId := None])
  {
    hide Accounts, Limits, QuietBeforeReady;
  }

  /**
   A write that is cancelled gives back the credit of the chunk it has not sent, and nothing of its data is sent
   any more: the window is again with what was sent and not credited.
   */
  lemma CancelledWriteGivesBack(p: Peer, id: nat)
    requires PeerInv(p) && Enabled(p, CancelWrite(id))
    ensures var (p', out) := Apply(p, CancelWrite(id));
      && out == [] && id in p'.streams && p'.history == p.history && p'.outBuffered == p.outBuffered
      && var e, e' := p.streams[id], p'.streams[id];
         && Idle(e') && e' == e.(sendCredit := e'.sendCredit, taken := [], job := [])
         && (!e.closed ==> e'.sendCredit + e.outReserved == 262144)
  {
    hide Limits, Ids, QuietBeforeReady, Total;
  }
}
