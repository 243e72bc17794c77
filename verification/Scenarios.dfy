/** Runs from the very start: what the theorems speak of is reached, and what can go wrong does. */
module Scenarios {
  import opened Common
  import opened Json
  import opened MuxState
  import opened MuxLocal
  import opened StreamPair
  import opened MuxPair
  import opened PairActions
  import opened PairDeliveries
  import opened PairTheorems
  import opened PairDrain
  import opened ListenPair
  import opened PairListens

  // ----- Going on from a reachable state ----------------------------------------------------

  lemma Extend(s: System, step: Step, s': System)
    requires Reachable(s) && Take(s, step) == Next(s')
    ensures Reachable(s')
  {
    hide Reachable, Take;
    assert [step][1..] == [] && Run(s', []) == Next(s');
    ReachableAfter(s, [step], s');
  }

  /** An action of the left peer. */
  lemma ActLeft(s: System, action: Action, s': System)
    requires Reachable(s) && Enabled(s.left, action)
    requires s' == s.(left := Apply(s.left, action).0, lr := s.lr + Apply(s.left, action).1)
    ensures Reachable(s')
  {
    hide Reachable, Enabled, Apply;
    Extend(s, Step(true, Act(action)), s');
  }

  lemma ActRight(s: System, action: Action, s': System)
    requires Reachable(s) && Enabled(s.right, action)
    requires s' == s.(right := Apply(s.right, action).0, rl := s.rl + Apply(s.right, action).1)
    ensures Reachable(s')
  {
    hide Reachable, Enabled, Apply;
    Extend(s, Step(false, Act(action)), s');
  }

  /** The delivery of the only frame on its way to the left peer. */
  lemma ArriveLeft(s: System, f: Frame, effect: Effect, s': System)
    requires Reachable(s) && s.rl != [] && s.rl[0] == f && Dispatch(s.left, f) == effect && effect.Continue?
    requires s' == s.(left := effect.peer, rl := s.rl[1..], lr := s.lr + effect.out)
    ensures Reachable(s')
  {
    hide Reachable, Dispatch;
    Extend(s, Step(true, Deliver), s');
  }

  lemma ArriveRight(s: System, f: Frame, effect: Effect, s': System)
    requires Reachable(s) && s.lr != [] && s.lr[0] == f && Dispatch(s.right, f) == effect && effect.Continue?
    requires s' == s.(right := effect.peer, lr := s.lr[1..], rl := s.rl + effect.out)
    ensures Reachable(s')
  {
    hide Reachable, Dispatch;
    Extend(s, Step(false, Deliver), s');
  }

  // ----- The handshake ----------------------------------------------------------------------

  const CLIENT := NewPeer(Client, "c", 1, true, true)
  const AGENT := NewPeer(Agent, "a", 1, true, true)

  function Greeted(p: Peer, from: Peer): Peer {
    p.(peerHello := Some((RoleName(from.role), from.nonce)), helloReceived := true)
  }

  lemma HelloArrives(p: Peer, from: Peer)
    requires p.role != from.role && 0 < |from.nonce| <= 128 && p.peerHello.None?
    ensures Dispatch(p, HelloFrame(from.role, from.nonce)) == Continue(Greeted(p, from), [HelloAckFrame()])
  {
    hide HelloAckFrame;
  }

  lemma AckArrives(p: Peer)
    ensures Dispatch(p, HelloAckFrame()) == Continue(p.(ackReceived := true), [])
  {
  }

  lemma BothStart() returns (s: System)
    ensures Reachable(s) && s == System(CLIENT, AGENT, [], [])
  {
    s := System(CLIENT, AGENT, [], []);
    assert Initial(s) && Run(s, []) == Next(s);
  }

  lemma HandshakeDone() returns (s: System)
    ensures Reachable(s)
    ensures s == System(Greeted(CLIENT, AGENT).(ackReceived := true), Greeted(AGENT, CLIENT).(ackReceived := true),
      [], [])
  {
    hide Reachable, Dispatch, HelloFrame, HelloAckFrame, Greeted;
    var s0 := BothStart();
    var fromClient, fromAgent, ack := HelloFrame(Client, "c"), HelloFrame(Agent, "a"), HelloAckFrame();
    var s1 := s0.(lr := [fromClient]);
    ActLeft(s0, SendHello, s1);
    var s2 := s1.(rl := [fromAgent]);
    ActRight(s1, SendHello, s2);
    HelloArrives(s2.right, CLIENT);
    var s3 := s2.(right := Greeted(AGENT, CLIENT), lr := [], rl := [fromAgent, ack]);
    assert [fromClient][1..] == [] && [fromAgent] + [ack] == [fromAgent, ack];
    ArriveRight(s2, fromClient, Continue(Greeted(AGENT, CLIENT), [ack]), s3);
    HelloArrives(s3.left, AGENT);
    var s4 := s3.(left := Greeted(CLIENT, AGENT), rl := [ack], lr := [ack]);
    assert [fromAgent, ack][1..] == [ack] && [] + [ack] == [ack];
    ArriveLeft(s3, fromAgent, Continue(Greeted(CLIENT, AGENT), [ack]), s4);
    AckArrives(s4.left);
    var s5 := s4.(left := Greeted(CLIENT, AGENT).(ackReceived := true), rl := []);
    assert [ack][1..] == [] && s4.lr + [] == s4.lr;
    ArriveLeft(s4, ack, Continue(s5.left, []), s5);
    AckArrives(s5.right);
    s := s5.(right := Greeted(AGENT, CLIENT).(ackReceived := true), lr := []);
    ArriveRight(s5, ack, Continue(s.right, []), s);
  }

  // ----- A stream, opened -------------------------------------------------------------------

  /** A stream open at both ends, nothing on its way, and its left end free to write. */
  ghost predicate Flowing(s: System, id: nat) {
    && Reachable(s) && id > 0 && s.lr == [] && s.rl == []
    && Held(s.left, id) && Live(s.left, id) && !s.left.streams[id].localEof && Idle(s.left.streams[id])
    && Held(s.right, id) && Live(s.right, id) && !s.right.streams[id].remoteEof
  }

  lemma OpenArrives(p: Peer, id: nat)
    requires Ready(p) && !Owns(p.role, id) && id > p.highestPeerId && |p.streams| < p.maxStreams && p.handlesOpen
    ensures Dispatch(p, Control(OPEN, id, map[])) ==
      Continue(p.(highestPeerId := id, streams := p.streams[id := NEW_END],
        requests := p.requests[id := OpenRunning]), [])
  {
  }

  lemma GrantArrives(p: Peer, id: nat)
    requires Ready(p) && id > 0 && Awaited(p.pendingOpens, id)
    ensures Dispatch(p, ResultFrame(OPEN_RESULT, id, true)) ==
      Continue(p.(pendingOpens := p.pendingOpens[id := Some(true)]), [])
  {
    hide DecodeResult;
    ResultSays(OPEN_RESULT, id, true);
  }

  lemma StreamRequested() returns (s: System)
    ensures Reachable(s) && s.lr == [] && s.rl == [] && Ready(s.left) && Ready(s.right) && s.right.role == Agent
    ensures s.left.streams == map[1 := NEW_END] && s.left.pendingOpens == map[1 := None]
    ensures s.right.streams == map[1 := NEW_END] && s.right.requests == map[1 := OpenRunning]
    ensures s.right.pendingOpens == map[] && s.right.history == AGENT.history
  {
    hide Reachable, Dispatch;
    var s0 := HandshakeDone();
    var open := Control(OPEN, 1, map[]);
    var s1 := s0.(left := ApplyOpen(s0.left, map[]).0, lr := [open]);
    assert [] + [open] == [open];
    ActLeft(s0, Action.Open(map[]), s1);
    OpenArrives(s1.right, 1);
    var effect := Dispatch(s1.right, open);
    s := s1.(right := effect.peer, lr := []);
    assert [open][1..] == [];
    ArriveRight(s1, open, effect, s);
  }

  /** Any honest pair can get there: this one does. */
  lemma StreamOpens() returns (s: System)
    ensures Flowing(s, 1) && s.left.streams[1] == NEW_END && s.right.streams[1] == NEW_END
    ensures s.right.history == AGENT.history
  {
    hide Reachable, Dispatch, ResultFrame;
    var s0 := StreamRequested();
    var grant := ResultFrame(OPEN_RESULT, 1, true);
    var s1 := s0.(right := ApplyCompleteOpen(s0.right, 1, true).0, rl := [grant]);
    assert [] + [grant] == [grant];
    ActRight(s0, CompleteOpen(1, true), s1);
    GrantArrives(s1.left, 1);
    var effect := Dispatch(s1.left, grant);
    var s2 := s1.(left := effect.peer, rl := []);
    assert [grant][1..] == [] && s1.lr + [] == s1.lr;
    ArriveLeft(s1, grant, effect, s2);
    s := s2.(left := ApplyFinishOpen(s2.left, 1));
    assert s2.lr + [] == s2.lr;
    ActLeft(s2, FinishOpen(1), s);
  }

  // ----- Writing ----------------------------------------------------------------------------

  /** The writer has taken stream credit for all of `data`. */
  lemma CreditTaken(s: System, id: nat, data: Bytes) returns (s': System)
    requires Flowing(s, id) && 0 < |data| <= CHUNK_SIZE && |data| <= s.left.streams[id].sendCredit
    ensures Reachable(s') && s'.right == s.right && s'.rl == [] && s'.lr == []
    ensures Held(s'.left, id)
    ensures var e := s.left.streams[id];
      s'.left.streams[id] == e.(sendCredit := e.sendCredit - |data|, taken := data, job := [])
  {
    hide Reachable, Log;
    var s1 := s.(left := SetEnd(s.left, id, s.left.streams[id].(job := data)));
    assert s.lr + [] == s.lr;
    ActLeft(s, StartWrite(id, data), s1);
    s' := s1.(left := ApplyTakeCredit(s1.left, id));
    assert data[..|data|] == data && data[|data|..] == [];
    ActLeft(s1, TakeCredit(id), s');
  }

  lemma ChunkSubmitted(s: System, id: nat, data: Bytes) returns (s': System)
    requires Flowing(s, id) && 0 < |data| <= CHUNK_SIZE && |data| <= s.left.streams[id].sendCredit
    ensures Reachable(s') && s'.right == s.right && s'.rl == [] && s'.lr == [DataFrame(id, data)]
    ensures Held(s'.left, id) && Live(s'.left, id)
    ensures var e, e' := s.left.streams[id], s'.left.streams[id];
      e'.sendCredit == e.sendCredit - |data| && e'.localEof == e.localEof && Idle(e') && e'.buffer == e.buffer
  {
    hide Reachable, Log;
    var s1 := CreditTaken(s, id, data);
    AggregateNeverBlocks(s1, id);
    s' := s1.(left := ApplySendChunk(s1.left, id).0, lr := [DataFrame(id, data)]);
    assert [] + [DataFrame(id, data)] == [DataFrame(id, data)];
    ActLeft(s1, SendChunk(id), s');
  }

  lemma RightSurvives(s: System)
    requires Reachable(s) && s.lr != []
    ensures Dispatch(s.right, s.lr[0]).Continue?
  {
    hide Reachable, Inv, Dispatch;
    ReachableInv(s);
    SwapInv(s);
    DeliverKeepsInv(Swap(s));
  }

  lemma DataArrives(p: Peer, id: nat, data: Bytes)
    requires Ready(p) && id > 0 && id in p.streams && data != []
    ensures Dispatch(p, DataFrame(id, data)) == Receive(p, id, data)
  {
    hide Receive;
  }

  lemma ReadyToReceive(s: System, id: nat)
    requires Reachable(s) && id in s.right.streams
    ensures Ready(s.right)
  {
    hide Reachable, ChannelInv, StreamOk, Accounts, Limits, Ids;
    ReachableInv(s);
  }

  /** One chunk written and received. */
  lemma WriteChunk(s: System, id: nat, data: Bytes) returns (s': System)
    requires Flowing(s, id) && 0 < |data| <= CHUNK_SIZE && |data| <= s.left.streams[id].sendCredit
    ensures Flowing(s', id)
    ensures s'.right.streams[id].buffer == s.right.streams[id].buffer + data
    ensures s'.left.streams[id].sendCredit == s.left.streams[id].sendCredit - |data|
    ensures s'.right.history == s.right.history
  {
    hide Reachable, Dispatch;
    var s1 := ChunkSubmitted(s, id, data);
    RightSurvives(s1);
    ReadyToReceive(s1, id);
    DataArrives(s1.right, id, data);
    var f := DataFrame(id, data);
    var effect := Receive(s1.right, id, data);
    s' := s1.(right := effect.peer, lr := []);
    assert [f][1..] == [] && s1.rl + [] == s1.rl;
    ArriveRight(s1, f, effect, s');
  }

  /** As many bytes as the writer has credit for. */
  lemma {:induction false} WriteBytes(s: System, id: nat, data: Bytes) returns (s': System)
    requires Flowing(s, id) && |data| <= s.left.streams[id].sendCredit
    ensures Flowing(s', id)
    ensures s'.right.streams[id].buffer == s.right.streams[id].buffer + data && s'.right.history == s.right.history
    decreases |data|
  {
    if data == [] {
      s' := s;
      assert s.right.streams[id].buffer + [] == s.right.streams[id].buffer;
    } else {
      var n := Min(CHUNK_SIZE, |data|);
      var s1 := WriteChunk(s, id, data[..n]);
      s' := WriteBytes(s1, id, data[n..]);
      assert data[..n] + data[n..] == data;
      assert s.right.streams[id].buffer + data[..n] + data[n..] == s.right.streams[id].buffer + data;
    }
  }

  /** Every amount up to a full window can be waiting to be read. */
  lemma DataWaits(data: Bytes) returns (s: System)
    requires |data| <= INITIAL_WINDOW
    ensures Flowing(s, 1) && s.right.streams[1].buffer == data && Log(s.right.history.got, 1) == []
  {
    hide Flowing;
    var start := StreamOpens();
    FlowingHolds(start, 1);
    s := WriteBytes(start, 1, data);
    FlowingHolds(s, 1);
    assert [] + data == data;
  }

  lemma FlowingHolds(s: System, id: nat)
    requires Flowing(s, id)
    ensures id in s.left.streams && id in s.right.streams
  {
    hide Reachable;
  }

  // ----- What cancelled calls can do --------------------------------------------------------

  lemma CloseArrivesReset(p: Peer, id: nat, reason: string)
    requires Ready(p) && id > 0 && Live(p, id) && !p.streams[id].remoteEof
      && Dispatch(p, CloseFrame(id, reason)).Continue?
    ensures var effect := Dispatch(p, CloseFrame(id, reason));
      && effect.out == [] && id !in effect.peer.streams
      && effect.peer.history.got == p.history.got && Find(effect.peer.history.endings, id) == Some(Reset)
  {
    hide Owns, IsStaleId;
  }

  /** A writer that closes while the other end has not been told of its half-close. */
  lemma CloseResetsReader(s: System, id: nat, reason: string) returns (s': System)
    requires Reachable(s) && id > 0 && s.lr == [] && s.rl == [] && Held(s.left, id) && Live(s.left, id)
    requires Live(s.right, id) && !s.right.streams[id].remoteEof
    ensures Run(s, [Step(true, Act(Close(id, reason))), Step(false, Deliver)]) == Next(s') && Reachable(s')
    ensures id !in s'.right.streams && Find(s'.right.history.endings, id) == Some(Reset)
    ensures s'.left.history.sent == s.left.history.sent && s'.right.history.got == s.right.history.got
  {
    hide Reachable, Dispatch, CloseFrame;
    var f := CloseFrame(id, reason);
    var closed := s.(left := MarkClosed(s.left, id, ClosedHere), lr := [f]);
    assert [] + [f] == [f];
    Extend(s, Step(true, Act(Close(id, reason))), closed);
    RightSurvives(closed);
    ReadyToReceive(closed, id);
    CloseArrivesReset(closed.right, id, reason);
    var effect := Dispatch(closed.right, f);
    s' := closed.(right := effect.peer, lr := []);
    assert [f][1..] == [] && closed.rl + [] == closed.rl;
    ArriveRight(closed, f, effect, s');
    TwoSteps(s, Step(true, Act(Close(id, reason))), closed, Step(false, Deliver), s');
  }

  /** A writer that half-closes, and closes when the half-close was cancelled before it was sent. */
  lemma CutHalfCloseResets(s: System, id: nat, reason: string) returns (half: System, s': System)
    requires Flowing(s, id)
    ensures Take(s, Step(true, Act(Cut(id, EofCall)))) == Next(half)
    ensures Live(half.left, id) && half.left.streams[id].localEof && id !in half.left.history.eofs
    ensures Run(half, [Step(true, Act(Close(id, reason))), Step(false, Deliver)]) == Next(s') && Reachable(s')
    ensures id !in s'.right.streams && Find(s'.right.history.endings, id) == Some(Reset)
    ensures s'.left.history.sent == s.left.history.sent && s'.right.history.got == s.right.history.got
    ensures Log(s'.left.history.sent, id) == Log(s'.right.history.got, id) + s.right.streams[id].buffer
  {
    hide Reachable, Log, Run;
    half := s.(left := ApplyCut(s.left, id, EofCall));
    assert s.lr + [] == s.lr;
    Extend(s, Step(true, Act(Cut(id, EofCall))), half);
    HalfCloseUnsent(half, id);
    s' := CloseResetsReader(half, id, reason);
    NothingOnItsWay(s, id);
  }

  lemma TwoSteps(s: System, a: Step, s1: System, b: Step, s': System)
    requires Take(s, a) == Next(s1) && Take(s1, b) == Next(s')
    ensures Run(s, [a, b]) == Next(s')
  {
    hide Take;
    assert [a, b][1..] == [b] && [b][1..] == [];
    assert Run(s1, [b]) == Run(s', []);
  }

  /** While nothing of a stream is on its way, what was written is what was read and what waits. */
  lemma NothingOnItsWay(s: System, id: nat)
    requires Reachable(s) && id > 0 && Live(s.right, id) && s.lr == []
    ensures Log(s.left.history.sent, id) == Log(s.right.history.got, id) + s.right.streams[id].buffer
  {
    hide Reachable, Log;
    StreamIsFifo(s, id);
    OnNothing(id);
    assert Data([]) == [];
  }

  /** A half-close counts as made only when its frame is sent. */
  lemma HalfCloseUnsent(s: System, id: nat)
    requires Reachable(s) && id > 0 && s.lr == [] && Live(s.left, id) && Live(s.right, id)
      && !s.right.streams[id].remoteEof
    ensures id !in s.left.history.eofs
  {
    hide Reachable, BytesFlow, CreditFlow, CloseFlow, Waiting;
    ReachableFlow(s, id);
    OnNothing(id);
  }

  /** It happens: from the start of a tunnel, all that was written can be lost although the writer half-closed. */
  lemma HalfClosedWriterCanLoseAll(data: Bytes) returns (half: System, s: System)
    requires 0 < |data| <= INITIAL_WINDOW
    ensures Reachable(half) && Live(half.left, 1) && half.left.streams[1].localEof
    ensures Reachable(s) && Find(s.right.history.endings, 1) == Some(Reset)
    ensures Log(s.left.history.sent, 1) == data && Log(s.right.history.got, 1) == []
  {
    hide Take, Log, Run;
    var start := DataWaits(data);
    half, s := CutHalfCloseResets(start, 1, "");
    Extend(start, Step(true, Act(Cut(1, EofCall))), half);
    assert [] + data == data;
  }

  /** A close that is cancelled before its CLOSE is sent leaves the other end open, and nothing on its way to it. */
  lemma CancelledCloseLeavesEndsApart(s: System, id: nat) returns (s': System)
    requires Reachable(s) && id > 0 && On(s.lr, id) == [] && On(s.rl, id) == []
    requires Live(s.left, id) && Live(s.right, id) && Held(s.right, id)
    ensures Take(s, Step(false, Act(Cut(id, CloseCall)))) == Next(s') && Reachable(s')
    ensures s'.lr == s.lr && s'.rl == s.rl && s'.left == s.left
    ensures Live(s'.left, id) && id !in s'.right.streams && id in s'.right.history.muted
  {
    hide Reachable, On;
    s' := s.(right := ApplyCut(s.right, id, CloseCall));
    assert s.rl + [] == s.rl;
    Extend(s, Step(false, Act(Cut(id, CloseCall))), s');
  }

  /** It happens. */
  lemma EndsApartHappens() returns (s: System)
    ensures Reachable(s) && s.lr == [] && s.rl == [] && Live(s.left, 1) && 1 !in s.right.streams
  {
    hide Reachable, Take;
    var start := StreamOpens();
    OnNothing(1);
    s := CancelledCloseLeavesEndsApart(start, 1);
  }

  /** And so does the writer that waits for credit a cancelled read has lost. */
  lemma StrandedWriterHappens() returns (s: System)
    ensures Reachable(s) && Live(s.left, 1) && Live(s.right, 1) && s.left.streams[1].sendCredit == 0
    ensures s.right.streams[1].buffer == [] && Data(On(s.lr, 1)) == [] && Credits(On(s.rl, 1)) == 0
  {
    hide Reachable, Take, On, Data, Credits, ApplyCut;
    var start := DataWaits(seq(INITIAL_WINDOW, _ => 0));
    CancelledReadStrands(start, 1);
    s := start.(right := ApplyCut(start.right, 1, ReadCall(-1)));
    Extend(start, Step(false, Act(Cut(1, ReadCall(-1)))), s);
  }

  // ----- A listener -------------------------------------------------------------------------

  lemma ListenArrives(p: Peer, id: nat)
    requires Ready(p) && !Owns(p.role, id) && id > p.highestPeerId && |p.listeners| + |p.requests| < p.maxStreams
    requires p.handlesListen
    ensures Dispatch(p, Control(LISTEN, id, map[])) ==
      Continue(p.(highestPeerId := id, requests := p.requests[id := ListenQueued]), [])
  {
  }

  lemma ListenGrantArrives(p: Peer, id: nat)
    requires Ready(p) && id > 0 && Awaited(p.pendingListens, id)
    ensures Dispatch(p, ResultFrame(LISTEN_RESULT, id, true)) ==
      Continue(p.(pendingListens := p.pendingListens[id := Some(true)]), [])
  {
    hide DecodeResult;
    ResultSays(LISTEN_RESULT, id, true);
  }

  lemma ListenerStarted() returns (s: System)
    ensures Reachable(s) && s.lr == [] && s.rl == [] && Ready(s.left) && s.left.pendingListens == map[1 := None]
    ensures s.right.requests == map[1 := ListenRunning] && s.right.listeners == {}
  {
    hide Reachable, Dispatch;
    var s0 := HandshakeDone();
    var listen := Control(LISTEN, 1, map[]);
    var s1 := s0.(left := ApplyRequestListener(s0.left, map[]).0, lr := [listen]);
    assert [] + [listen] == [listen];
    ActLeft(s0, Action.RequestListener(map[]), s1);
    ListenArrives(s1.right, 1);
    var effect := Dispatch(s1.right, listen);
    var s2 := s1.(right := effect.peer, lr := []);
    assert [listen][1..] == [] && s1.rl + [] == s1.rl;
    ArriveRight(s1, listen, effect, s2);
    s := s2.(right := ApplyBeginListen(s2.right, 1).0);
    assert s2.rl + [] == s2.rl;
    ActRight(s2, BeginListen(1), s);
  }

  /** A request for a listener, answered: both sides know of it. */
  lemma ListenerOpens() returns (s: System)
    ensures Reachable(s) && s.lr == [] && s.rl == []
    ensures s.left.pendingListens == map[1 := Some(true)] && s.right.listeners == {1}
  {
    hide Reachable, Dispatch, ResultFrame;
    var s0 := ListenerStarted();
    var grant := ResultFrame(LISTEN_RESULT, 1, true);
    var s1 := s0.(right := ApplyCompleteListen(s0.right, 1, true).0, rl := [grant]);
    assert [] + [grant] == [grant];
    ActRight(s0, CompleteListen(1, true), s1);
    assert grant.id == 1 && grant.kind == LISTEN_RESULT by { RefusalShapeOf(1); }
    ListenGrantArrives(s1.left, 1);
    var effect := Dispatch(s1.left, grant);
    s := s1.(left := effect.peer, rl := []);
    assert [grant][1..] == [] && s1.lr + [] == s1.lr;
    ArriveLeft(s1, grant, effect, s);
  }

  lemma RefusalShapeOf(id: nat)
    ensures ResultFrame(LISTEN_RESULT, id, true).id == id && ResultFrame(LISTEN_RESULT, id, true).kind == LISTEN_RESULT
  {
  }

  /** It happens that a listener stays that nobody knows of, with nothing on its way. */
  lemma ForgottenListenerHappens() returns (s: System)
    ensures Reachable(s) && s.lr == [] && s.rl == []
    ensures 1 in s.right.listeners && 1 !in s.left.pendingListens && 1 !in s.left.history.granted
  {
    hide Reachable, Take;
    var start := ListenerOpens();
    s := ForgottenListenerStays(start, 1);
    Extend(start, Step(true, Act(Cut(1, ListenTimeout))), s);
  }
}
