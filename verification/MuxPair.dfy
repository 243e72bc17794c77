/**
 Two honest peers joined by two FIFO channels, every interleaving of their steps, and the invariant
 that all of them keep.
 */
module MuxPair {
  import opened Common
  import opened Json
  import opened MuxState
  import opened MuxLocal
  import opened StreamPair
  import opened StreamSteps

  // ----- The system -------------------------------------------------------------------------

  /** `lr` holds the frames on their way from left to right, oldest first. */
  datatype System = System(left: Peer, right: Peer, lr: seq<Frame>, rl: seq<Frame>)

  function Swap(s: System): System { System(s.right, s.left, s.rl, s.lr) }

  /** What may happen next on one side. HELLOs it has sent may be lost or repeated on the way. */
  datatype Event = Act(action: Action) | Deliver | LoseHello(at: nat) | RepeatHello(at: nat)

  datatype Outcome = Next(system: System) | Died(error: ProtocolError) | Blocked

  predicate HelloAt(channel: seq<Frame>, at: nat) { at < |channel| && channel[at].kind == HELLO }

  function StepLeft(s: System, event: Event): Outcome {
    match event
    case Act(action) =>
      if !Enabled(s.left, action) then Blocked
      else
        var (p, out) := Apply(s.left, action);
        Next(s.(left := p, lr := s.lr + out))
    case Deliver =>
      if s.rl == [] then Blocked
      else (
        match Dispatch(s.left, s.rl[0])
        case Continue(p, out) => Next(s.(left := p, rl := s.rl[1..], lr := s.lr + out))
        case Raise(error) => Died(error))
    case LoseHello(at) =>
      if HelloAt(s.lr, at) then Next(s.(lr := s.lr[..at] + s.lr[at + 1..])) else Blocked
    case RepeatHello(at) =>
      if HelloAt(s.lr, at) then Next(s.(lr := s.lr[..at] + [s.lr[at]] + s.lr[at..])) else Blocked
  }

  datatype Step = Step(onLeft: bool, event: Event)

  function Take(s: System, step: Step): Outcome {
    if step.onLeft then StepLeft(s, step.event)
    else
      match StepLeft(Swap(s), step.event)
      case Next(s') => Next(Swap(s'))
      case other => other
  }

  /** A run: each step in turn, until one is not possible or ends the tunnel. */
  function Run(s: System, steps: seq<Step>): Outcome
    decreases |steps|
  {
    if steps == [] then Next(s)
    else
      match Take(s, steps[0])
      case Next(s') => Run(s', steps[1..])
      case other => other
  }

  ghost predicate Initial(s: System) {
    && s.left.role != s.right.role
    && s.left == NewPeer(s.left.role, s.left.nonce, s.left.maxStreams, s.left.handlesOpen, s.left.handlesListen)
    && s.right == NewPeer(s.right.role, s.right.nonce, s.right.maxStreams, s.right.handlesOpen, s.right.handlesListen)
    && s.lr == [] && s.rl == []
    && Configured(s.left) && Configured(s.right)
  }

  /** A nonce the other side accepts, and a stream limit that keeps the memory limit out of reach. */
  predicate Configured(p: Peer) { 0 < |p.nonce| <= 128 && 0 < p.maxStreams <= 128 }

  // ----- What is in the channels ---------------------------------------------------------------

  /** The frames an honest peer sends. */
  predicate Honest(p: Peer, f: Frame) {
    && f.flags == 0 && (IsGlobal(f.kind) <==> f.id == 0)
    && match f.kind
       case HELLO => f == HelloFrame(p.role, p.nonce)
       case HELLO_ACK => f == HelloAckFrame()
       case OPEN => f.payload.json.Some? && Owns(p.role, f.id)
       case LISTEN => f.payload.json.Some? && Owns(p.role, f.id)
       case OPEN_RESULT => DecodeResult(f.payload).Success? && !Owns(p.role, f.id)
       case LISTEN_RESULT => DecodeResult(f.payload).Success? && !Owns(p.role, f.id)
       case DATA => f.payload.data != []
       case WINDOW_UPDATE => CreditOf(f) > 0
       case HALF_CLOSE => f.payload.data == []
       case CLOSE => f.payload.json.Some? && Get(f.payload.json.value, "reason", Text("")).Text?
       case PING => true
       case PONG => true
  }

  ghost predicate AllHonest(p: Peer, channel: seq<Frame>) {
    forall i :: 0 <= i < |channel| ==> Honest(p, channel[i])
  }

  /** Requests arrive in the order of their IDs, each above all that arrived before. */
  ghost predicate RequestOrder(p: Peer, q: Peer, channel: seq<Frame>) {
    && q.highestPeerId < p.nextId
    && (forall i :: 0 <= i < |channel| && IsRequest(channel[i].kind) ==> q.highestPeerId < channel[i].id < p.nextId)
    && (forall i, j :: 0 <= i < j < |channel| && IsRequest(channel[i].kind) && IsRequest(channel[j].kind) ==>
          channel[i].id < channel[j].id)
  }

  /** No frame other than a HELLO comes before the first HELLO_ACK. */
  ghost predicate AckFirst(channel: seq<Frame>) {
    channel == [] || channel[0].kind == HELLO_ACK || (channel[0].kind == HELLO && AckFirst(channel[1..]))
  }

  ghost predicate Handshake(p: Peer, q: Peer, channel: seq<Frame>) {
    && (q.ackReceived || AckFirst(channel))
    && (p.helloReceived ==> q.ackReceived || Has(channel, HELLO_ACK))
    && (q.ackReceived || Has(channel, HELLO_ACK) ==> p.helloReceived)
    && (!Ready(p) ==> forall i :: 0 <= i < |channel| ==> IsHandshake(channel[i].kind))
    && q.peerHello == (if q.helloReceived then Some((RoleName(p.role), p.nonce)) else None)
  }

  ghost predicate ChannelInv(p: Peer, q: Peer, channel: seq<Frame>) {
    AllHonest(p, channel) && RequestOrder(p, q, channel) && Handshake(p, q, channel)
  }

  // ----- What is true of each stream ID -------------------------------------------------------

  /** An ID that was not allocated, or whose request never left, has left no trace. */
  ghost predicate Known(opener: bool, knownX: bool, knownY: bool, x: Side, y: Side, xy: seq<Frame>, yx: seq<Frame>) {
    var oa := if opener then xy else yx;
    && ((if opener then knownX else knownY) || Unused(x, y, xy, yx))
    && (Waiting(oa) || (if opener then knownY else knownX) || Unused(x, y, xy, yx))
  }

  ghost predicate StreamOk(s: System, id: nat) {
    var opener, x, y := Owns(s.left.role, id), SideOf(s.left, id), SideOf(s.right, id);
    && Joint(opener, x, y, On(s.lr, id), On(s.rl, id))
    && Known(opener, IsStaleId(s.left, id), IsStaleId(s.right, id), x, y, On(s.lr, id), On(s.rl, id))
  }

  ghost predicate PeersInv(s: System) {
    && PeerInv(s.left) && PeerInv(s.right)
    && Configured(s.left) && Configured(s.right) && s.left.role != s.right.role
  }

  ghost predicate Inv(s: System) {
    && PeersInv(s)
    && ChannelInv(s.left, s.right, s.lr) && ChannelInv(s.right, s.left, s.rl)
    && forall id: nat | id > 0 :: StreamOk(s, id)
  }

  lemma SwapStreamOk(s: System, id: nat)
    requires s.left.role != s.right.role && StreamOk(s, id)
    ensures StreamOk(Swap(s), id)
  {
    hide StreamInv, IsStaleId, SideOf, On, Waiting;
    assert Owns(s.left.role, id) == !Owns(s.right.role, id);
  }

  lemma SwapInv(s: System)
    requires Inv(s)
    ensures Inv(Swap(s))
  {
    hide PeerInv, Configured, ChannelInv, StreamOk;
    forall id: nat | id > 0 ensures StreamOk(Swap(s), id) { SwapStreamOk(s, id); }
  }

  lemma InitialStreamOk(s: System, id: nat)
    requires Initial(s) && id > 0
    ensures StreamOk(s, id)
  {
    hide StreamInv;
    UnusedOk(SideOf(s.left, id), SideOf(s.right, id));
  }

  lemma InitialInv(s: System)
    requires Initial(s)
    ensures Inv(s)
  {
    hide StreamInv, StreamOk, PeerInv, NewPeer;
    NewPeerInv(s.left.role, s.left.nonce, s.left.maxStreams, s.left.handlesOpen, s.left.handlesListen);
    NewPeerInv(s.right.role, s.right.nonce, s.right.maxStreams, s.right.handlesOpen, s.right.handlesListen);
    InitialChannels(s);
    hide ChannelInv;
    forall id: nat | id > 0 ensures StreamOk(s, id) { InitialStreamOk(s, id); }
  }

  lemma InitialChannels(s: System)
    requires Initial(s)
    ensures ChannelInv(s.left, s.right, s.lr) && ChannelInv(s.right, s.left, s.rl)
    ensures s.left.role != s.right.role
  {
  }
}
