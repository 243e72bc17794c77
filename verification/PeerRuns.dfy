/** One peer over whole runs, whatever the other side sends: its limits, and the discipline of its IDs. */
module PeerRuns {
  import opened Common
  import opened Json
  import opened MuxState
  import opened MuxLocal
  import opened StreamPair
  import opened MuxPair
  import opened PairChannels
  import opened PairSteps
  import opened PairActions
  import opened PairTheorems
  import opened MuxDiscipline

  /** A step of a peer whose other side sends whatever it likes. */
  datatype PeerStep = Own(action: Action) | Received(frame: Frame)

  /** The state after some steps, or nothing once one is not possible or ends the tunnel. */
  function RunAlone(p: Peer, steps: seq<PeerStep>): Option<Peer>
    decreases |steps|
  {
    if steps == [] then Some(p)
    else
      match steps[0]
      case Own(action) => if Enabled(p, action) then RunAlone(Apply(p, action).0, steps[1..]) else None
      case Received(f) => if Dispatch(p, f).Continue? then RunAlone(Dispatch(p, f).peer, steps[1..]) else None
  }

  /** What every step of a peer leaves alone; and being ready, and who the other side is, are for good. */
  ghost predicate Configures(p: Peer, p': Peer) {
    && p'.role == p.role && p'.maxStreams == p.maxStreams && (Ready(p) ==> Ready(p'))
    && (p.peerHello.Some? ==> p'.peerHello == p.peerHello)
  }

  // ----- One step ---------------------------------------------------------------------------

  /** The IDs of the requests among some frames. */
  function RequestIds(frames: seq<Frame>): seq<nat> {
    if frames == [] then []
    else (if IsRequest(frames[0].kind) then [frames[0].id] else []) + RequestIds(frames[1..])
  }

  /** An action requests nothing, or one thing under the next ID, which it then moves on. */
  lemma ActionRequests(p: Peer, action: Action, p': Peer, out: seq<Frame>)
    requires PeerInv(p) && Enabled(p, action) && Apply(p, action) == (p', out)
    ensures Configures(p, p') && p'.nextId >= p.nextId
    ensures RequestIds(out) == [] || (RequestIds(out) == [p.nextId] && p.nextId < p'.nextId)
  {
    hide PeerInv, Apply, Enabled, SameBut, Honest;
    ApplyTouches(p, action, p');
    ActOutput(p, action, p', out);
    if out != [] {
      assert out == [out[0]] && out[1..] == [];
      if IsRequest(out[0].kind) { RequestIsNext(p, action, p', out); }
    }
  }

  lemma RequestIsNext(p: Peer, action: Action, p': Peer, out: seq<Frame>)
    requires PeerInv(p) && Enabled(p, action) && Apply(p, action) == (p', out)
      && OutputOk(p, p', out, Concerns(p, action))
    requires out != [] && IsRequest(out[0].kind)
    ensures out[0].id == p.nextId < p'.nextId
  {
    hide PeerInv, Honest, MarkClosed, RemoteClose;
  }

  /** Receiving a frame changes neither the configuration nor the next ID, and submits only answers. */
  ghost predicate Steady(p: Peer, effect: Effect) {
    effect.Continue? ==>
      && Configures(p, effect.peer) && effect.peer.nextId == p.nextId
      && forall f :: f in effect.out ==> IsAnswer(f.kind)
  }

  lemma FrameIsSteady(p: Peer, f: Frame)
    ensures Steady(p, Dispatch(p, f))
  {
    hide StartOpen, StartListen, HandleClose, DispatchResult, DispatchToStream, ReceiveHello, ReceiveHelloAck,
      IsStaleId;
    RequestIsSteady(p, f);
    AnswerIsSteady(p, f);
    CloseIsSteady(p, f);
    if f.id in p.streams { StreamFrameIsSteady(p, f); }
  }

  lemma RequestIsSteady(p: Peer, f: Frame)
    ensures Steady(p, StartOpen(p, f)) && Steady(p, StartListen(p, f))
  {
    hide Owns;
  }

  lemma AnswerIsSteady(p: Peer, f: Frame)
    ensures Steady(p, DispatchResult(p, f))
    ensures Steady(p, ReceiveHello(p, f.payload)) && Steady(p, ReceiveHelloAck(p, f.payload))
  {
    hide DispatchResult, Get, EqualsOne;
    if DispatchResult(p, f).Continue? { ResultKeepsIds(p, f, DispatchResult(p, f).peer); }
  }

  lemma CloseIsSteady(p: Peer, f: Frame)
    ensures Steady(p, HandleClose(p, f))
  {
    hide HandleClose, RemoteClose, CancelRequest, RunningListens;
    var effect, p1 := HandleClose(p, f), CancelRequest(p, f.id);
    if effect.Continue? {
      HandleCloseCases(p, f, effect.peer);
      CancelRequestShrinks(p, f.id);
      RemoteCloseShrinks(p1, f.id, RemoteClose(p1, f.id));
      ClosingKeepsIdentity(p, f.id);
    }
  }

  lemma ClosingKeepsIdentity(p: Peer, id: nat)
    ensures var p1 := CancelRequest(p, id);
      p1.peerHello == p.peerHello && RemoteClose(p1, id).peerHello == p.peerHello
  {
    hide RemoteClose, SameBut;
    RemoteCloseTouches(CancelRequest(p, id), id, RemoteClose(CancelRequest(p, id), id));
  }

  lemma StreamFrameIsSteady(p: Peer, f: Frame)
    requires f.id in p.streams
    ensures Steady(p, DispatchToStream(p, f))
  {
    hide Receive, AddCredit, Get;
    BytesAreSteady(p, f.id, f.payload.data);
    if f.payload.json.Some? && Get(f.payload.json.value, "credit").Int? {
      CreditIsSteady(p, f.id, Get(f.payload.json.value, "credit").number);
    }
  }

  lemma BytesAreSteady(p: Peer, id: nat, data: Bytes)
    requires id in p.streams
    ensures Steady(p, Receive(p, id, data))
  {
  }

  lemma CreditIsSteady(p: Peer, id: nat, amount: int)
    requires id in p.streams
    ensures Steady(p, AddCredit(p, id, amount))
  {
  }

  lemma {:induction false} NoRequests(frames: seq<Frame>)
    requires forall f :: f in frames ==> IsAnswer(f.kind)
    ensures RequestIds(frames) == []
  {
    if frames != [] { NoRequests(frames[1..]); }
  }

  // ----- Runs -------------------------------------------------------------------------------

  /** What holds of a peer after any run. */
  ghost predicate After(p: Peer, q: Peer) {
    PeerInv(q) && Configures(p, q) && NoReturn(p, q) && q.nextId >= p.nextId
  }

  lemma AfterStep(p: Peer, step: PeerStep, p': Peer)
    requires PeerInv(p) && RunAlone(p, [step]) == Some(p')
    ensures After(p, p')
  {
    hide PeerInv, Apply, Enabled, Dispatch, NoReturn;
    assert [step][1..] == [];
    match step
    case Own(action) =>
      ApplyKeepsPeerInv(p, action, p');
      ActionRequests(p, action, p', Apply(p, action).1);
      OnlyAllocationsAdd(p, action, p');
    case Received(f) =>
      DispatchKeepsPeerInv(p, f);
      FrameIsSteady(p, f);
      OnlyRequestsAdd(p, f, p');
  }

  lemma AfterTwice(p: Peer, p1: Peer, q: Peer)
    requires After(p, p1) && After(p1, q)
    ensures After(p, q)
  {
    hide PeerInv, NoReturn;
    NoReturnTrans(p, p1, q);
  }

  lemma RunFirst(p: Peer, steps: seq<PeerStep>) returns (p1: Peer)
    requires steps != [] && RunAlone(p, steps).Some?
    ensures RunAlone(p, [steps[0]]) == Some(p1) && RunAlone(p, steps) == RunAlone(p1, steps[1..])
  {
    hide Apply, Enabled, Dispatch;
    assert [steps[0]][1..] == [];
    match steps[0] {
      case Own(action) => assert RunAlone(Apply(p, action).0, []) == Some(Apply(p, action).0);
      case Received(f) => assert RunAlone(Dispatch(p, f).peer, []) == Some(Dispatch(p, f).peer);
    }
    p1 := RunAlone(p, [steps[0]]).value;
  }

  /**
   Over every run, whatever is received: the invariant of the peer holds, and an ID that has left
   the streams map never returns to it.
   */
  lemma {:induction false} RunsKeepDiscipline(p: Peer, steps: seq<PeerStep>)
    requires PeerInv(p) && RunAlone(p, steps).Some?
    ensures After(p, RunAlone(p, steps).value)
    decreases |steps|
  {
    hide After, PeerInv, RunAlone;
    RunNothing(p);
    if steps != [] {
      var p1 := RunFirst(p, steps);
      AfterStep(p, steps[0], p1);
      AfterGivesInv(p, p1);
      RunsKeepDiscipline(p1, steps[1..]);
      AfterTwice(p, p1, RunAlone(p, steps).value);
    }
  }

  lemma RunNothing(p: Peer)
    ensures RunAlone(p, []) == Some(p) && (PeerInv(p) ==> After(p, p))
  {
    hide PeerInv, NoReturn;
    NoReturnRefl(p);
  }

  lemma AfterGivesInv(p: Peer, q: Peer)
    requires After(p, q)
    ensures PeerInv(q) && q.role == p.role && q.maxStreams == p.maxStreams && q.nextId >= p.nextId && NoReturn(p, q)
  {
    hide PeerInv, NoReturn;
  }

  /**
   Whatever the other side sends, and however the application behaves, a peer never holds more than 32 MiB
   of unread data, nor submits more than 32 MiB that is not credited; its byte counts are exact; and
   streams on the one hand, and listeners with the LISTEN tasks still running on the other, stay within its
   limit. If that is at most 128, the aggregate limit is never met.
   */
  lemma NoPeerExhaustsAnother(start: Peer, steps: seq<PeerStep>, f: Frame)
    requires start == NewPeer(start.role, start.nonce, start.maxStreams, start.handlesOpen, start.handlesListen)
    requires RunAlone(start, steps).Some?
    ensures var p := RunAlone(start, steps).value;
      && (start.maxStreams <= 128 ==> Dispatch(p, f) != Raise(AggregateExceeded))
      && p.inBuffered == Total(p.streams, Unread) <= 33554432
      && p.outBuffered == Total(p.streams, Reserved) <= 33554432
      && |p.streams| <= p.maxStreams
      && |p.listeners| + |RunningListens(p)| <= p.maxStreams
  {
    hide RunAlone, Dispatch, Ids, QuietBeforeReady, Total, RunningListens, EndOk;
    NewPeerInv(start.role, start.nonce, start.maxStreams, start.handlesOpen, start.handlesListen);
    RunsKeepDiscipline(start, steps);
    AfterGivesInv(start, RunAlone(start, steps).value);
    var p := RunAlone(start, steps).value;
    if start.maxStreams <= 128 { StreamLimitImpliesMemoryLimit(p, f); }
    DisjointSize(p.listeners, RunningListens(p));
  }

  lemma DisjointSize(a: set<nat>, b: set<nat>)
    requires a !! b
    ensures |a + b| == |a| + |b|
  {
  }

  /**
   Who the other side is, is settled by its first HELLO: in no run is it changed, and what it may send in the
   handshake later is that HELLO again.
   */
  lemma IdentityIsForGood(p: Peer, steps: seq<PeerStep>, f: Frame)
    requires PeerInv(p) && p.peerHello.Some? && RunAlone(p, steps).Some?
    ensures var q := RunAlone(p, steps).value;
      && q.peerHello == p.peerHello
      && (f.kind == HELLO && Dispatch(q, f).Continue? ==>
            && f.payload.json.Some? && "role" in f.payload.json.value && "nonce" in f.payload.json.value
            && f.payload.json.value["role"] == Text(p.peerHello.value.0)
            && f.payload.json.value["nonce"] == Text(p.peerHello.value.1))
  {
    hide RunAlone, PeerInv, NoReturn;
    RunsKeepDiscipline(p, steps);
  }

  // ----- The IDs a peer requests ------------------------------------------------------------

  /** The IDs of the OPENs and LISTENs submitted in a run, in order. */
  function Requested(p: Peer, steps: seq<PeerStep>): seq<nat>
    decreases |steps|
  {
    if steps == [] then []
    else
      match steps[0]
      case Own(action) =>
        if Enabled(p, action) then RequestIds(Apply(p, action).1) + Requested(Apply(p, action).0, steps[1..]) else []
      case Received(f) =>
        match Dispatch(p, f)
        case Continue(p', out) => RequestIds(out) + Requested(p', steps[1..])
        case Raise(_) => []
  }

  /** IDs that increase from `from` on, all of a role and of 32 bits. */
  predicate Disciplined(ids: seq<nat>, role: Role, from: nat) {
    && (forall i :: 0 <= i < |ids| ==> Owns(role, ids[i]) && from <= ids[i] <= MAX_STREAM_ID && ids[i] > 0)
    && (forall i, j :: 0 <= i < j < |ids| ==> ids[i] < ids[j])
  }

  lemma DisciplinedCons(ids: seq<nat>, role: Role, id: nat, from: nat)
    requires Disciplined(ids, role, from) && id < from && 0 < id <= MAX_STREAM_ID && Owns(role, id)
    ensures Disciplined([id] + ids, role, id)
  {
    hide Owns;
  }

  lemma DisciplinedLater(ids: seq<nat>, role: Role, from: nat, earlier: nat)
    requires Disciplined(ids, role, from) && earlier <= from
    ensures Disciplined(ids, role, earlier)
  {
    hide Owns;
  }

  /** An ID that has been moved past is one that may be allocated. */
  lemma RequestFits(p: Peer, p': Peer)
    requires PeerInv(p) && PeerInv(p') && p'.role == p.role && p.nextId < p'.nextId
    ensures Owns(p.role, p.nextId) && 0 < p.nextId <= MAX_STREAM_ID
  {
    hide Accounts, Limits, QuietBeforeReady;
    assert Ids(p) && Ids(p');
  }

  /**
   The IDs of all OPENs and LISTENs a peer submits in a run, whatever it receives, strictly
   increase, have the parity of its role and fit 32 bits.
   */
  lemma {:induction false} RequestedIdsIncrease(p: Peer, steps: seq<PeerStep>)
    requires PeerInv(p)
    ensures Disciplined(Requested(p, steps), p.role, p.nextId)
    decreases |steps|, 0
  {
    hide PeerInv, Apply, Enabled, Dispatch, Disciplined, RequestIds, Owns;
    NoneDisciplined(p.role, p.nextId);
    if steps != [] {
      match steps[0] {
        case Own(action) => if Enabled(p, action) { ActionIdsIncrease(p, action, steps[1..]); }
        case Received(f) => if Dispatch(p, f).Continue? { FrameIdsIncrease(p, f, steps[1..]); }
      }
    }
  }

  lemma NoneDisciplined(role: Role, from: nat)
    ensures Disciplined([], role, from)
  {
  }

  lemma {:induction false} ActionIdsIncrease(p: Peer, action: Action, rest: seq<PeerStep>)
    requires PeerInv(p) && Enabled(p, action)
    ensures Disciplined(RequestIds(Apply(p, action).1) + Requested(Apply(p, action).0, rest), p.role, p.nextId)
    decreases |rest|, 1
  {
    hide PeerInv, Apply, Enabled, Dispatch, Disciplined, RequestIds, Owns, Requested;
    var (p', out) := Apply(p, action);
    ApplyKeepsPeerInv(p, action, p');
    ActionRequests(p, action, p', out);
    RequestedIdsIncrease(p', rest);
    if RequestIds(out) == [] {
      DisciplinedLater(Requested(p', rest), p.role, p'.nextId, p.nextId);
      assert [] + Requested(p', rest) == Requested(p', rest);
    } else {
      RequestFits(p, p');
      DisciplinedCons(Requested(p', rest), p.role, p.nextId, p'.nextId);
    }
  }

  lemma {:induction false} FrameIdsIncrease(p: Peer, f: Frame, rest: seq<PeerStep>)
    requires PeerInv(p) && Dispatch(p, f).Continue?
    ensures Disciplined(RequestIds(Dispatch(p, f).out) + Requested(Dispatch(p, f).peer, rest), p.role, p.nextId)
    decreases |rest|, 1
  {
    hide PeerInv, Dispatch, Disciplined, RequestIds, Owns, Requested;
    var p', out := Dispatch(p, f).peer, Dispatch(p, f).out;
    DispatchKeepsPeerInv(p, f);
    FrameIsSteady(p, f);
    NoRequests(out);
    RequestedIdsIncrease(p', rest);
    assert [] + Requested(p', rest) == Requested(p', rest);
  }

  /** The two sides of a tunnel never request anything under the same ID. */
  lemma RequestedIdsAreDisjoint(p: Peer, steps: seq<PeerStep>, q: Peer, others: seq<PeerStep>)
    requires PeerInv(p) && PeerInv(q) && p.role != q.role
    ensures forall id :: id in Requested(p, steps) ==> id !in Requested(q, others)
  {
    hide PeerInv, Requested;
    RequestedIdsIncrease(p, steps);
    RequestedIdsIncrease(q, others);
  }

  // ----- Late frames ------------------------------------------------------------------------

  /** A well-formed frame for one stream. */
  predicate IsProperStreamFrame(f: Frame) {
    && IsStreamFrame(f.kind) && ValidateFrameShape(f).None?
    && (f.kind == CLOSE ==> f.payload.json.Some? && Get(f.payload.json.value, "reason", Text("")).Text?)
  }

  /** A CLOSE for an ID that was in use and names no stream ends a request or a listener at most. */
  lemma LateCloseEffect(q: Peer, f: Frame)
    requires IsStaleId(q, f.id) && f.id !in q.streams && f.payload.json.Some?
    requires Get(f.payload.json.value, "reason", Text("")).Text?
    ensures HandleClose(q, f).Continue? && HandleClose(q, f).out == []
    ensures var q' := HandleClose(q, f).peer; q' == q.(requests := q'.requests, listeners := q'.listeners)
  {
    hide Owns, Get, RemoteClose;
  }

  /** A frame for an ID that was in use and names no stream changes no stream and no account. */
  lemma LateFrameEffect(q: Peer, f: Frame)
    requires Ready(q) && IsStaleId(q, f.id) && f.id !in q.streams && IsProperStreamFrame(f)
    ensures Dispatch(q, f).Continue? && Dispatch(q, f).out == []
    ensures var q' := Dispatch(q, f).peer;
      && q' == q.(requests := q'.requests, listeners := q'.listeners)
      && (f.kind != CLOSE ==> q' == q)
  {
    hide IsStaleId, Get, HandleClose, DispatchToStream, ValidateFrameShape;
    if f.kind == CLOSE { LateCloseEffect(q, f); }
  }

  /**
   Once an ID has left the streams map, no later DATA, WINDOW_UPDATE, HALF_CLOSE or CLOSE for it
   raises anything or changes any stream, account or answer, however long the run goes on.
   */
  lemma LateFramesChangeNothing(p: Peer, id: nat, until: seq<PeerStep>, later: seq<PeerStep>, f: Frame)
    requires PeerInv(p) && id in p.streams
    requires RunAlone(p, until).Some? && id !in RunAlone(p, until).value.streams
    requires RunAlone(RunAlone(p, until).value, later).Some?
    requires f.id == id && IsProperStreamFrame(f)
    ensures var q := RunAlone(RunAlone(p, until).value, later).value;
      && id !in q.streams
      && Dispatch(q, f).Continue? && Dispatch(q, f).out == []
      && var q' := Dispatch(q, f).peer;
      && q' == q.(requests := q'.requests, listeners := q'.listeners)
      && (f.kind != CLOSE ==> q' == q)
  {
    hide PeerInv, RunAlone, Dispatch, IsStaleId, IsProperStreamFrame;
    var gone := RunAlone(p, until).value;
    var q := RunAlone(gone, later).value;
    InUse(p, id);
    RunsKeepDiscipline(p, until);
    RunsKeepDiscipline(gone, later);
    LateFrameEffect(q, f);
  }

  lemma InUse(p: Peer, id: nat)
    requires PeerInv(p) && id in p.streams
    ensures Ready(p) && IsStaleId(p, id)
  {
    hide Accounts, Limits;
  }

  // ----- The peers of a pair ----------------------------------------------------------------

  /** What one side does in a run of the pair is a run of that peer alone. */
  lemma {:induction false} LeftRunsAlone(s: System, steps: seq<Step>) returns (own: seq<PeerStep>)
    requires Run(s, steps).Next?
    ensures RunAlone(s.left, own) == Some(Run(s, steps).system.left)
    decreases |steps|
  {
    hide Apply, Enabled, Dispatch;
    if steps == [] {
      own := [];
    } else {
      var s1 := Take(s, steps[0]).system;
      own := LeftRunsAlone(s1, steps[1..]);
      if steps[0].onLeft && (steps[0].event.Act? || steps[0].event.Deliver?) {
        var first := if steps[0].event.Act? then Own(steps[0].event.action) else Received(s.rl[0]);
        assert ([first] + own)[1..] == own;
        own := [first] + own;
      }
    }
  }

  /** In every run of the pair, an ID that has left the streams map of either peer never returns to it. */
  lemma IdsNeverReturn(s: System, steps: seq<Step>)
    requires Inv(s) && Run(s, steps).Next?
    ensures NoReturn(s.left, Run(s, steps).system.left) && NoReturn(s.right, Run(s, steps).system.right)
  {
    hide ChannelInv, StreamOk, PeerInv, Run, RunAlone, NoReturn, Configures;
    var own := LeftRunsAlone(s, steps);
    RunsKeepDiscipline(s.left, own);
    SwapRun(s, steps);
    var others := LeftRunsAlone(Swap(s), Flip(steps));
    RunsKeepDiscipline(s.right, others);
  }
}
