/** Delivering a frame to the left peer raises nothing and keeps the invariant of the pair. */
module PairDeliveries {
  import opened Common
  import opened Json
  import opened MuxState
  import opened MuxLocal
  import opened StreamPair
  import opened StreamSteps
  import opened MuxPair
  import opened PairChannels
  import opened PairSteps
  import opened PairActions

  function Rest(channel: seq<Frame>): seq<Frame> { if channel == [] then [] else channel[1..] }

  function After(s: System, p': Peer, out: seq<Frame>): System {
    System(p', s.right, s.lr + out, Rest(s.rl))
  }

  /** What the oldest frame from the right does on the left, as far as its own stream goes. */
  ghost predicate HandledWell(s: System, f: Frame, effect: Effect) {
    && effect.Continue?
    && Touches(s.left, effect.peer, f.id) && SmallOutput(effect.out, f.id)
    && StreamOk(After(s, effect.peer, effect.out), f.id)
  }

  /** The facts a stream frame is delivered under. */
  ghost predicate Due(s: System, f: Frame) {
    && PeersInv(s) && RequestOrder(s.right, s.left, s.rl) && Ready(s.left) && Honest(s.right, f)
    && s.rl != [] && s.rl[0] == f && f.id > 0 && StreamOk(s, f.id)
  }

  lemma Head(s: System, f: Frame)
    requires s.rl != [] && s.rl[0] == f
    ensures On(s.rl, f.id) != [] && On(s.rl, f.id)[0] == f && On(s.rl, f.id)[1..] == On(Rest(s.rl), f.id)
  {
    hide On;
    OnDeliver(s.rl, f.id);
  }

  /** A frame in flight names a stream its receiver knows, unless it is the request itself. */
  lemma NotForged(s: System, f: Frame)
    requires Due(s, f) && !IsRequest(f.kind)
    ensures IsStaleId(s.left, f.id)
    ensures var yx := On(s.rl, f.id);
      !Unused(SideOf(s.left, f.id), SideOf(s.right, f.id), On(s.lr, f.id), yx)
        && !(Waiting(yx) && !Owns(s.left.role, f.id))
  {
    hide PeersInv, RequestOrder, Honest, On, SideOf, StreamInv, IsStaleId;
    Head(s, f);
  }

  /** The stream of a delivered frame, once its own part of the invariant is proved. */
  lemma DeliveredOk(s: System, f: Frame, p': Peer, out: seq<Frame>)
    requires Due(s, f) && !IsRequest(f.kind) && Touches(s.left, p', f.id) && out == []
    requires Joint(Owns(s.left.role, f.id), SideOf(p', f.id), SideOf(s.right, f.id), On(s.lr, f.id),
      On(Rest(s.rl), f.id))
    ensures HandledWell(s, f, Continue(p', out))
  {
    hide Due, Joint, Unused, IsStaleId, SameBut, On, SideOf, Waiting;
    NotForged(s, f);
    BothKnown(s, f);
    StaleStays(s.left, p', f.id);
    assert s.lr + out == s.lr;
  }

  lemma BothKnown(s: System, f: Frame)
    requires Due(s, f) && !IsRequest(f.kind)
    ensures Owns(s.left.role, f.id) ==> IsStaleId(s.right, f.id) || Waiting(On(s.lr, f.id))
    ensures !Owns(s.left.role, f.id) ==> IsStaleId(s.right, f.id)
  {
    hide PeersInv, RequestOrder, Honest, On, SideOf, Joint, Unused, IsStaleId, Waiting;
    NotForged(s, f);
  }

  /** A frame for a stream that is gone. */
  lemma DropOk(s: System, f: Frame)
    requires Due(s, f) && (f.id !in s.left.streams || f.kind == LISTEN_RESULT)
    requires f.kind == DATA || f.kind == WINDOW_UPDATE || f.kind == HALF_CLOSE || f.kind == LISTEN_RESULT
    ensures HandledWell(s, f, Continue(s.left, []))
  {
    hide PeersInv, RequestOrder, Honest, On, StreamInv, Known, IsStaleId;
    Head(s, f);
    AllMapSteps(s.left, f.id);
    hide SameBut;
    DropStep(Owns(s.left.role, f.id), SideOf(s.left, f.id), SideOf(s.right, f.id), On(s.lr, f.id), On(s.rl, f.id));
    DeliveredOk(s, f, s.left, []);
  }

  lemma DuePeers(s: System, f: Frame)
    requires Due(s, f)
    ensures PeersInv(s)
    ensures f.kind == DATA ==> f.payload.data != []
    ensures f.kind == WINDOW_UPDATE ==> CreditOf(f) > 0
  {
    hide PeersInv, RequestOrder, StreamOk, CreditOf;
  }

  // ----- Frames for a stream ------------------------------------------------------------------

  /** What an accepted DATA frame does to the peer, and to what it knows of the stream. */
  lemma ReceiveEffect(p: Peer, id: nat, data: Bytes, effect: Effect)
    requires id in p.streams && effect == Receive(p, id, data) && effect.Continue?
    ensures Touches(p, effect.peer, id) && effect.out == []
    ensures var e := p.streams[id];
      SideOf(effect.peer, id)
        == SideOf(p, id).(end := Some(e.(buffer := e.buffer + data, recvCredit := e.recvCredit - |data|)))
  {
    hide SameBut, Log;
    AllMapSteps(p, id);
  }

  lemma DataOk(s: System, f: Frame)
    requires Due(s, f) && f.kind == DATA && f.id in s.left.streams
    ensures HandledWell(s, f, Receive(s.left, f.id, f.payload.data))
  {
    hide Due, PeersInv, On, Joint, Owns, EndOk, Touches, HandledWell;
    var x, y, xy, yx := SideOf(s.left, f.id), SideOf(s.right, f.id), On(s.lr, f.id), On(s.rl, f.id);
    var opener := Owns(s.left.role, f.id);
    DueJoint(s, f);
    DuePeers(s, f);
    EndsOkOf(s, f.id);
    DataFits(opener, x, y, xy, yx);
    NeverOverflows(s, f);
    var effect := Receive(s.left, f.id, f.payload.data);
    assert effect.Continue?;
    ReceiveEffect(s.left, f.id, f.payload.data, effect);
    DataStep(opener, x, y, xy, yx, SideOf(effect.peer, f.id));
    DeliveredOk(s, f, effect.peer, []);
  }

  lemma NeverOverflows(s: System, f: Frame)
    requires PeersInv(s) && f.id in s.left.streams
    ensures Receive(s.left, f.id, f.payload.data) != Raise(AggregateExceeded)
  {
    hide Ids, QuietBeforeReady, Accounts, Receive, RunningListens;
    assert |s.left.streams| <= 128;
    ReceiveFits(s.left, f.id, f.payload.data);
  }

  /** What an accepted WINDOW_UPDATE does. */
  lemma AddCreditEffect(p: Peer, id: nat, amount: int, effect: Effect)
    requires id in p.streams && effect == AddCredit(p, id, amount) && effect.Continue?
    ensures Touches(p, effect.peer, id) && effect.out == []
    ensures var e := p.streams[id];
      SideOf(effect.peer, id) ==
        SideOf(p, id).(end := Some(e.(sendCredit := e.sendCredit + amount, outReserved := e.outReserved - amount)))
  {
    hide SameBut, Log;
    AllMapSteps(p, id);
  }

  lemma CreditOk(s: System, f: Frame, amount: int)
    requires Due(s, f) && f.kind == WINDOW_UPDATE && f.id in s.left.streams && amount == CreditOf(f)
    ensures HandledWell(s, f, AddCredit(s.left, f.id, amount))
  {
    hide Due, PeersInv, On, Joint, Owns, EndOk, Touches, HandledWell, CreditOf;
    var x, y, xy, yx := SideOf(s.left, f.id), SideOf(s.right, f.id), On(s.lr, f.id), On(s.rl, f.id);
    var opener := Owns(s.left.role, f.id);
    DueJoint(s, f);
    DuePeers(s, f);
    EndsOkOf(s, f.id);
    CreditOwed(opener, x, y, xy, yx);
    var effect := AddCredit(s.left, f.id, amount);
    assert effect.Continue?;
    AddCreditEffect(s.left, f.id, amount, effect);
    CreditStep(opener, x, y, xy, yx, SideOf(effect.peer, f.id));
    DeliveredOk(s, f, effect.peer, []);
  }

  /** What a HALF_CLOSE does. */
  lemma ReceiveEofEffect(p: Peer, id: nat, p': Peer)
    requires id in p.streams && p' == ReceiveEof(p, id)
    ensures Touches(p, p', id)
    ensures var e := p.streams[id];
      SideOf(p', id) == if IsOpen(SideOf(p, id)) then SideOf(p, id).(end := Some(e.(remoteEof := true)))
        else SideOf(p, id)
  {
    hide SameBut, Log;
    var e := p.streams[id];
    if e.remoteEof || e.closed {
      AllMapSteps(p, id);
    } else {
      SetEofEffect(p, id, e.(remoteEof := true), p');
    }
  }

  lemma SetEofEffect(p: Peer, id: nat, e: End, p': Peer)
    requires id in p.streams && p' == SetEnd(p, id, e)
    ensures Touches(p, p', id) && SideOf(p', id) == SideOf(p, id).(end := Some(e))
  {
    hide SameBut, Log;
    AllMapSteps(p, id);
  }

  lemma HalfCloseOk(s: System, f: Frame)
    requires Due(s, f) && f.kind == HALF_CLOSE && f.id in s.left.streams
    ensures HandledWell(s, f, Continue(ReceiveEof(s.left, f.id), []))
  {
    hide Due, On, Joint, Owns, Touches, HandledWell, ReceiveEof;
    var x, y, xy, yx := SideOf(s.left, f.id), SideOf(s.right, f.id), On(s.lr, f.id), On(s.rl, f.id);
    DueJoint(s, f);
    var p' := ReceiveEof(s.left, f.id);
    ReceiveEofEffect(s.left, f.id, p');
    HalfCloseStep(Owns(s.left.role, f.id), x, y, xy, yx, SideOf(p', f.id));
    DeliveredOk(s, f, p', []);
  }

  // ----- CLOSE --------------------------------------------------------------------------------

  lemma CancelledSide(p: Peer, id: nat, p': Peer)
    requires p' == CancelRequest(p, id)
    ensures SideOf(p', id) == SideOf(p, id).(serving := false)
    ensures p'.streams == p.streams
  {
    hide Log;
  }

  lemma GracefulSide(p: Peer, id: nat, p': Peer)
    requires Live(p, id) && p' == FinishGracefully(p, id)
    ensures var e := p.streams[id];
      SideOf(p', id) == SideOf(p, id).(
        end := if e.buffer == [] then None
               else Some(e.(closed := true, sendCredit := INITIAL_WINDOW, outReserved := 0)),
        ending := if e.buffer == [] then Some(Drained) else SideOf(p, id).ending)
  {
    hide Log;
  }

  lemma ClosedSide(p: Peer, id: nat, p1: Peer, p': Peer)
    requires p1 == CancelRequest(p, id) && p' == RemoteClose(p1, id)
    ensures SideOf(p', id) == Closed(SideOf(p, id))
  {
    hide CancelRequest, MarkClosed, FinishGracefully, Log;
    CancelledSide(p, id, p1);
    if Live(p1, id) {
      if p1.streams[id].remoteEof { GracefulSide(p1, id, p'); } else { MarkClosedSide(p1, id, Reset, p'); }
    }
  }

  lemma CancelTouches(p: Peer, id: nat, p': Peer)
    requires p' == CancelRequest(p, id)
    ensures Touches(p, p', id)
  {
    hide SameBut;
    AllMapSteps(p, id);
  }

  lemma TouchesTrans(p: Peer, p1: Peer, p': Peer, id: nat)
    requires Touches(p, p1, id) && Touches(p1, p', id)
    ensures Touches(p, p', id)
  {
  }

  lemma CloseDelivered(s: System, f: Frame, effect: Effect)
    requires Due(s, f) && f.kind == CLOSE && effect == HandleClose(s.left, f)
    ensures HandledWell(s, f, effect)
  {
    hide PeersInv, RequestOrder, On, StreamInv, Known, EndOk, SameBut, SideOf, RemoteClose, Touches, Joint, Closed,
      HandledWell, CancelRequest;
    NotForgedClose(s, f);
    hide Due, Honest, IsStaleId;
    CloseEffect(s.left, f, effect);
    CloseJoint(s, f, SideOf(effect.peer, f.id));
    DeliveredOk(s, f, effect.peer, effect.out);
  }

  lemma NotForgedClose(s: System, f: Frame)
    requires Due(s, f) && f.kind == CLOSE
    ensures IsStaleId(s.left, f.id)
    ensures f.payload.json.Some? && Get(f.payload.json.value, "reason", Text("")).Text?
  {
    hide PeersInv, RequestOrder, StreamOk, IsStaleId;
    NotForged(s, f);
  }

  /** A CLOSE always ends the request and the stream of its ID, whatever is left of them. */
  lemma CloseEffect(p: Peer, f: Frame, effect: Effect)
    requires effect == HandleClose(p, f) && IsStaleId(p, f.id)
    requires f.payload.json.Some? && Get(f.payload.json.value, "reason", Text("")).Text?
    ensures effect.Continue? && effect.out == [] && Touches(p, effect.peer, f.id)
    ensures SideOf(effect.peer, f.id) == Closed(SideOf(p, f.id))
  {
    hide SideOf, RemoteClose, Touches, Closed, IsStaleId;
    var p1 := CancelRequest(p, f.id);
    CancelTouches(p, f.id, p1);
    RemoteCloseTouches(p1, f.id, RemoteClose(p1, f.id));
    TouchesTrans(p, p1, RemoteClose(p1, f.id), f.id);
    ClosedSide(p, f.id, p1, RemoteClose(p1, f.id));
    if f.id !in p.streams {
      GoneStaysGone(p1, f.id);
      DropListener(p1, effect.peer, f.id);
      TouchesTrans(p, p1, effect.peer, f.id);
    }
  }

  lemma GoneStaysGone(p: Peer, id: nat)
    requires id !in p.streams
    ensures RemoteClose(p, id) == p
  {
  }

  lemma DropListener(p: Peer, p': Peer, id: nat)
    requires p' == p || p' == p.(listeners := p.listeners - {id})
    ensures SideOf(p', id) == SideOf(p, id) && Touches(p, p', id)
  {
  }

  lemma CloseJoint(s: System, f: Frame, x': Side)
    requires Due(s, f) && f.kind == CLOSE && x' == Closed(SideOf(s.left, f.id))
    ensures Joint(Owns(s.left.role, f.id), x', SideOf(s.right, f.id), On(s.lr, f.id), On(Rest(s.rl), f.id))
  {
    hide PeersInv, RequestOrder, On, StreamInv, Known, SideOf, Closed, Honest;
    Head(s, f);
    CloseArrives(Owns(s.left.role, f.id), SideOf(s.left, f.id), SideOf(s.right, f.id), On(s.lr, f.id),
      On(s.rl, f.id), x');
  }

  // ----- Requests and results -------------------------------------------------------------------

  lemma Arriving(s: System, f: Frame)
    requires Due(s, f) && IsRequest(f.kind)
    ensures !Owns(s.left.role, f.id) && f.id > s.left.highestPeerId && IsStaleId(s.right, f.id)
    ensures Waiting(On(s.rl, f.id)) && SideOf(s.left, f.id) == NO_SIDE && On(s.lr, f.id) == []
    ensures f.payload.json.Some?
  {
    hide Accounts, Limits, Ids, QuietBeforeReady, On, IsStaleId, SideOf, Flow, Pending, Serving, Closing, Ordered, Has;
    Head(s, f);
    assert Owns(s.right.role, f.id) != Owns(s.left.role, f.id);
  }

  lemma DueJoint(s: System, f: Frame)
    requires Due(s, f)
    ensures Joint(Owns(s.left.role, f.id), SideOf(s.left, f.id), SideOf(s.right, f.id), On(s.lr, f.id), On(s.rl, f.id))
    ensures On(s.rl, f.id) != [] && On(s.rl, f.id)[0] == f && On(s.rl, f.id)[1..] == On(Rest(s.rl), f.id)
  {
    hide PeersInv, RequestOrder, Honest, On, SideOf, StreamInv, Known;
    Head(s, f);
  }

  /** The other peer's next request has been taken note of. */
  ghost predicate Admits(p: Peer, p': Peer, id: nat) {
    && p' == p.(highestPeerId := id, streams := p'.streams, requests := p'.requests)
    && (p'.streams == p.streams || p'.streams == p.streams[id := NEW_END])
    && (p'.requests == p.requests || (id in p'.requests && p'.requests == p.requests[id := p'.requests[id]]))
  }

  lemma AdmitsTouches(p: Peer, p': Peer, id: nat)
    requires Admits(p, p', id) && id > p.highestPeerId && !Owns(p.role, id)
    ensures Touches(p, p', id) && IsStaleId(p', id)
  {
    hide SameBut;
    AllMapSteps(p, id);
  }

  lemma AdmitsSide(p: Peer, p': Peer, id: nat)
    requires Admits(p, p', id)
    ensures SideOf(p', id)
      == SideOf(p, id).(end := Find(p'.streams, id), serving := Find(p'.requests, id) == Some(OpenRunning))
  {
    hide Log, NEW_END;
  }

  lemma StartOpenEffect(p: Peer, f: Frame, effect: Effect)
    requires effect == StartOpen(p, f) && !Owns(p.role, f.id) && f.id > p.highestPeerId && f.payload.json.Some?
    ensures effect.Continue? && Admits(p, effect.peer, f.id)
    ensures effect.out == [] ==> Find(effect.peer.streams, f.id) == Some(NEW_END)
                                 && Find(effect.peer.requests, f.id) == Some(OpenRunning)
    ensures effect.out != [] ==> effect.out == [ResultFrame(OPEN_RESULT, f.id, false)]
                                 && effect.peer == p.(highestPeerId := f.id)
  {
    hide Owns, ResultFrame, NEW_END;
  }

  lemma StartListenEffect(p: Peer, f: Frame, effect: Effect)
    requires effect == StartListen(p, f) && !Owns(p.role, f.id) && f.id > p.highestPeerId && f.payload.json.Some?
    ensures effect.Continue? && Admits(p, effect.peer, f.id)
    ensures effect.out == [] ==>
      effect.peer.streams == p.streams && Find(effect.peer.requests, f.id) == Some(ListenQueued)
    ensures effect.out != [] ==> effect.out == [ResultFrame(LISTEN_RESULT, f.id, false)]
                                 && effect.peer == p.(highestPeerId := f.id)
  {
    hide Owns, ResultFrame, NEW_END;
  }

  /** A new request, once its own part of the invariant is proved. */
  lemma AdmittedOk(s: System, f: Frame, p': Peer, out: seq<Frame>)
    requires Due(s, f) && IsRequest(f.kind) && Admits(s.left, p', f.id)
    requires out == [] || (|out| == 1 && out[0].id == f.id)
    requires Joint(false, SideOf(p', f.id), SideOf(s.right, f.id), out, On(Rest(s.rl), f.id))
    ensures HandledWell(s, f, Continue(p', out))
  {
    hide PeersInv, RequestOrder, Honest, On, SideOf, Joint, IsStaleId, SameBut, Waiting, Unused, Touches, Admits;
    Arriving(s, f);
    AdmitsTouches(s.left, p', f.id);
    AdmitsRole(s.left, p', f.id);
    OnOutput(s.lr, out, f.id);
    assert [] + out == out;
  }

  lemma AdmitsRole(p: Peer, p': Peer, id: nat)
    requires Admits(p, p', id)
    ensures p'.role == p.role
  {
  }

  lemma OpenDelivered(s: System, f: Frame, effect: Effect)
    requires Due(s, f) && f.kind == OPEN && effect == StartOpen(s.left, f)
    ensures HandledWell(s, f, effect)
  {
    hide Due, StartOpen, SideOf, On, StreamInv, Waiting, IsStaleId, Owns, ResultFrame, Admits, HandledWell,
      DecodeResult;
    Arriving(s, f);
    StartOpenEffect(s.left, f, effect);
    AdmitsSide(s.left, effect.peer, f.id);
    var x, y, xy, yx := SideOf(s.left, f.id), SideOf(s.right, f.id), On(s.lr, f.id), On(s.rl, f.id);
    DueJoint(s, f);
    if effect.out == [] {
      AcceptOpenStep(x, y, xy, yx, SideOf(effect.peer, f.id));
    } else {
      ResultSays(OPEN_RESULT, f.id, false);
      RefusalShape(f.id);
      HighestSide(s.left, effect.peer, f.id);
      RefuseOpenStep(x, y, xy, yx, effect.out[0]);
      assert [] + [effect.out[0]] == effect.out;
    }
    AdmittedOk(s, f, effect.peer, effect.out);
  }

  lemma HighestSide(p: Peer, p': Peer, id: nat)
    requires p' == p.(highestPeerId := id)
    ensures SideOf(p', id) == SideOf(p, id)
  {
  }

  lemma RefusalShape(id: nat)
    ensures ResultFrame(OPEN_RESULT, id, false).kind == OPEN_RESULT && ResultFrame(OPEN_RESULT, id, false).id == id
    ensures ResultFrame(LISTEN_RESULT, id, false).kind == LISTEN_RESULT
      && ResultFrame(LISTEN_RESULT, id, false).id == id
  {
  }

  lemma ListenDelivered(s: System, f: Frame, effect: Effect)
    requires Due(s, f) && f.kind == LISTEN && effect == StartListen(s.left, f)
    ensures HandledWell(s, f, effect)
  {
    hide Due, StartListen, SideOf, On, StreamInv, Waiting, IsStaleId, Owns, ResultFrame, Admits, HandledWell,
      DecodeResult;
    Arriving(s, f);
    StartListenEffect(s.left, f, effect);
    AdmitsSide(s.left, effect.peer, f.id);
    SideEnd(s.left, f.id);
    var x, y, xy, yx := SideOf(s.left, f.id), SideOf(s.right, f.id), On(s.lr, f.id), On(s.rl, f.id);
    DueJoint(s, f);
    ListenArrives(x, y, xy, yx);
    if effect.out != [] {
      RefusalShape(f.id);
      HighestSide(s.left, effect.peer, f.id);
      ListenResultStep(x, y, xy, yx[1..], effect.out[0]);
      assert [] + [effect.out[0]] == effect.out;
    }
    AdmittedOk(s, f, effect.peer, effect.out);
  }

  lemma SideEnd(p: Peer, id: nat)
    ensures SideOf(p, id).end == Find(p.streams, id)
  {
  }

  lemma ResultDelivered(s: System, f: Frame, effect: Effect)
    requires Due(s, f) && f.kind == OPEN_RESULT && effect == DispatchResult(s.left, f)
    ensures HandledWell(s, f, effect)
  {
    hide PeersInv, RequestOrder, On, StreamInv, Known, IsStaleId, SameBut, Log, DecodeResult;
    NotForged(s, f);
    DueJoint(s, f);
    var x, y, xy, yx := SideOf(s.left, f.id), SideOf(s.right, f.id), On(s.lr, f.id), On(s.rl, f.id);
    AwaitsOne(s, f);
    AllMapSteps(s.left, f.id);
    ResultStep(x, y, xy, yx, SideOf(effect.peer, f.id));
    DeliveredOk(s, f, effect.peer, effect.out);
  }

  /** A result meets a future that is still open, or none. */
  lemma AwaitsOne(s: System, f: Frame)
    requires Due(s, f) && f.kind == OPEN_RESULT
    ensures Owns(s.left.role, f.id) && (f.id in s.left.pendingOpens ==> s.left.pendingOpens[f.id].None?)
  {
    hide Accounts, Limits, Ids, QuietBeforeReady, On, IsStaleId, Flow, Opening, Serving, Closing, Ordered,
      RequestOrder, Known, Log;
    Head(s, f);
    assert Has(On(s.rl, f.id), OPEN_RESULT);
    hide Has;
  }

  lemma ListenResultDelivered(s: System, f: Frame, effect: Effect)
    requires Due(s, f) && f.kind == LISTEN_RESULT && effect == DispatchResult(s.left, f)
    ensures HandledWell(s, f, effect)
  {
    hide PeersInv, RequestOrder, On, StreamInv, Known, IsStaleId, SameBut, Log, DecodeResult;
    NotForged(s, f);
    DueJoint(s, f);
    AllMapSteps(s.left, f.id);
    DropStep(Owns(s.left.role, f.id), SideOf(s.left, f.id), SideOf(s.right, f.id), On(s.lr, f.id), On(s.rl, f.id));
    DeliveredOk(s, f, effect.peer, effect.out);
  }

  // ----- Any frame ----------------------------------------------------------------------------

  lemma StreamFrameOk(s: System, f: Frame)
    requires Due(s, f) && f.id in s.left.streams && (f.kind == DATA || f.kind == WINDOW_UPDATE || f.kind == HALF_CLOSE)
    ensures HandledWell(s, f, DispatchToStream(s.left, f))
  {
    hide PeersInv, RequestOrder, StreamOk, HandledWell, Receive, AddCredit, ReceiveEof;
    match f.kind {
      case DATA => DataOk(s, f);
      case WINDOW_UPDATE => CreditOk(s, f, CreditOf(f));
      case HALF_CLOSE => HalfCloseOk(s, f);
    }
  }

  lemma WellShaped(p: Peer, f: Frame)
    requires Honest(p, f)
    ensures ValidateFrameShape(f).None?
  {
  }

  /** Every frame in flight for a stream is handled without raising. */
  lemma FrameOk(s: System, f: Frame)
    requires Due(s, f)
    ensures HandledWell(s, f, Dispatch(s.left, f))
  {
    hide PeersInv, RequestOrder, StreamOk, HandledWell, Receive, AddCredit, ReceiveEof, StartOpen, StartListen,
         HandleClose, DispatchResult, DispatchToStream, ReceiveHello, ReceiveHelloAck, ValidateFrameShape, IsStaleId;
    WellShaped(s.right, f);
    match f.kind {
      case OPEN => OpenDelivered(s, f, StartOpen(s.left, f));
      case LISTEN => ListenDelivered(s, f, StartListen(s.left, f));
      case OPEN_RESULT => ResultDelivered(s, f, DispatchResult(s.left, f));
      case LISTEN_RESULT => ListenResultDelivered(s, f, DispatchResult(s.left, f));
      case CLOSE => CloseDelivered(s, f, HandleClose(s.left, f));
      case HELLO => case HELLO_ACK => case PING => case PONG =>
      case _ =>
        if f.id in s.left.streams {
          StreamFrameOk(s, f);
        } else {
          NotForged(s, f);
          DropOk(s, f);
        }
    }
  }

  /** What a stream frame does apart from its stream: requests raise the highest ID, and may be refused. */
  ghost predicate SideEffects(p: Peer, f: Frame, effect: Effect) {
    effect.Continue? ==>
      && effect.peer.highestPeerId == (if IsRequest(f.kind) then f.id else p.highestPeerId)
      && (effect.out == [] || effect.out == [ResultFrame(OPEN_RESULT, f.id, false)]
          || effect.out == [ResultFrame(LISTEN_RESULT, f.id, false)])
      && (effect.out != [] ==> IsRequest(f.kind))
  }

  lemma RequestSideEffects(p: Peer, f: Frame)
    ensures f.kind == OPEN ==> SideEffects(p, f, StartOpen(p, f))
    ensures f.kind == LISTEN ==> SideEffects(p, f, StartListen(p, f))
  {
    hide ResultFrame, NEW_END;
  }

  lemma CloseSideEffects(p: Peer, f: Frame, effect: Effect)
    requires f.kind == CLOSE && effect == HandleClose(p, f)
    ensures SideEffects(p, f, effect)
  {
    hide ResultFrame, RemoteClose, IsStaleId;
    var p1 := CancelRequest(p, f.id);
    RemoteCloseShrinks(p1, f.id, RemoteClose(p1, f.id));
  }

  lemma OtherSideEffects(p: Peer, f: Frame, effect: Effect)
    requires f.id in p.streams && (f.kind == DATA || f.kind == WINDOW_UPDATE || f.kind == HALF_CLOSE)
    requires effect == DispatchToStream(p, f)
    ensures SideEffects(p, f, effect)
  {
    hide ResultFrame, Get;
  }

  lemma FrameSideEffects(p: Peer, f: Frame)
    requires f.id > 0 && !IsGlobal(f.kind)
    ensures SideEffects(p, f, Dispatch(p, f))
  {
    hide StartOpen, StartListen, HandleClose, DispatchToStream, IsStaleId, DecodeResult, ResultFrame,
      ValidateFrameShape;
    RequestSideEffects(p, f);
    if f.kind == CLOSE { CloseSideEffects(p, f, HandleClose(p, f)); }
    if f.id in p.streams && (f.kind == DATA || f.kind == WINDOW_UPDATE || f.kind == HALF_CLOSE) {
      OtherSideEffects(p, f, DispatchToStream(p, f));
    }
  }

  /** HELLO, HELLO_ACK, PING and PONG leave everything but the handshake alone. */
  ghost predicate HandledGlobally(s: System, f: Frame, effect: Effect) {
    && effect.Continue?
    && effect.peer == s.left.(helloReceived := effect.peer.helloReceived, ackReceived := effect.peer.ackReceived,
                              peerHello := effect.peer.peerHello)
    && (s.left.ackReceived ==> effect.peer.ackReceived) && (s.left.helloReceived ==> effect.peer.helloReceived)
    && |effect.out| <= 1
    && (effect.out != [] ==> Submits(s.left, effect.peer, effect.out[0]) && effect.out[0].id == 0)
    && (effect.out == [] ==> effect.peer.helloReceived == s.left.helloReceived)
    && Receives(s.right, s.left, effect.peer, f)
  }

  lemma HelloDelivered(s: System, f: Frame)
    requires Configured(s.right) && s.left.role != s.right.role && f == HelloFrame(s.right.role, s.right.nonce)
    requires s.left.peerHello == None || s.left.peerHello == Some((RoleName(s.right.role), s.right.nonce))
    ensures HandledGlobally(s, f, ReceiveHello(s.left, f.payload))
  {
  }

  lemma AckDelivered(s: System, f: Frame)
    requires f == HelloAckFrame()
    ensures HandledGlobally(s, f, ReceiveHelloAck(s.left, f.payload))
  {
  }

  lemma PingDelivered(s: System, f: Frame)
    requires Ready(s.left) && (f.kind == PING || f.kind == PONG) && f.id == 0
    ensures HandledGlobally(s, f, Continue(s.left, if f.kind == PING then [Frame(PONG, 0, f.payload, 0)] else []))
  {
  }

  lemma GlobalFrameOk(s: System, f: Frame)
    requires ChannelInv(s.left, s.right, s.lr) && ChannelInv(s.right, s.left, s.rl) && Configured(s.right)
    requires s.left.role != s.right.role && s.rl != [] && s.rl[0] == f && f.id == 0
    ensures HandledGlobally(s, f, Dispatch(s.left, f))
  {
    hide StartOpen, StartListen, HandleClose, DispatchResult, DispatchToStream, RequestOrder, AckFirst, Has, IsStaleId,
         HandledGlobally, ReceiveHello, ReceiveHelloAck, Configured, HelloFrame, HelloAckFrame, ValidateFrameShape;
    assert Honest(s.right, f);
    WellShaped(s.right, f);
    match f.kind {
      case HELLO => HelloDelivered(s, f);
      case HELLO_ACK => AckDelivered(s, f);
      case PING => GlobalReady(s); PingDelivered(s, f);
      case PONG => GlobalReady(s); PingDelivered(s, f);
      case _ =>
    }
  }

  lemma GlobalReady(s: System)
    requires ChannelInv(s.left, s.right, s.lr) && ChannelInv(s.right, s.left, s.rl)
    requires s.rl != [] && !IsHandshake(s.rl[0].kind)
    ensures Ready(s.left)
  {
    hide AllHonest, RequestOrder;
    ReadyInTime(s.right, s.left, s.rl, s.lr);
  }

  // ----- Delivery keeps the invariant -----------------------------------------------------------

  lemma DueNow(s: System, f: Frame)
    requires Inv(s) && s.rl != [] && s.rl[0] == f && f.id > 0
    ensures Due(s, f)
  {
    hide PeerInv, StreamOk, Configured, IsStaleId;
    assert Honest(s.right, f) && !IsGlobal(f.kind) by { hide Handshake, RequestOrder; }
    GlobalReady(s);
    hide Honest, ChannelInv;
    ChannelRequests(s.right, s.left, s.rl);
  }

  /** The channels after a stream frame. */
  lemma StreamFrameChannels(s: System, f: Frame, effect: Effect)
    requires Inv(s) && Due(s, f) && effect == Dispatch(s.left, f) && HandledWell(s, f, effect)
    ensures ChannelInv(effect.peer, s.right, s.lr + effect.out) && ChannelInv(s.right, effect.peer, Rest(s.rl))
  {
    hide PeerInv, StreamOk, Dispatch, IsStaleId, SameBut, AllHonest, RequestOrder, AckFirst, Has, ResultFrame,
      Configured;
    assert !IsGlobal(f.kind) && (IsRequest(f.kind) ==> !Owns(s.left.role, f.id)) by { DueKind(s, f); }
    hide Honest, Due, Handshake;
    FrameSideEffects(s.left, f);
    DeliverKeeps(s.right, s.left, s.rl, effect.peer);
    if effect.out == [] {
      assert s.lr + effect.out == s.lr;
      QuietKeeps(s.left, s.right, s.lr, effect.peer, s.right);
    } else {
      ResultHonest(s.left, OPEN_RESULT, f.id, false);
      ResultHonest(s.left, LISTEN_RESULT, f.id, false);
      RefusalShape(f.id);
      assert effect.out == [effect.out[0]];
      DueReady(s, f);
      SendKeeps(s.left, s.right, s.lr, effect.peer, effect.out[0]);
    }
  }

  lemma DueKind(s: System, f: Frame)
    requires Due(s, f)
    ensures !IsGlobal(f.kind) && f.id > 0 && (IsRequest(f.kind) ==> !Owns(s.left.role, f.id))
  {
    hide PeerInv, StreamOk, RequestOrder, IsStaleId;
  }

  lemma DueReady(s: System, f: Frame)
    requires Due(s, f)
    ensures Ready(s.left)
  {
    hide PeersInv, StreamOk, RequestOrder;
  }

  lemma OthersAfter(s: System, p': Peer, out: seq<Frame>, id: nat, j: nat)
    requires StreamOk(s, j) && j > 0 && j != id && Touches(s.left, p', id) && SmallOutput(out, id)
    requires s.rl != [] && (s.rl[0].id == id || s.rl[0].id == 0)
    ensures StreamOk(After(s, p', out), j)
  {
    hide Joint, Known, On, SideOf, Touches;
    OnDeliver(s.rl, j);
    var s1 := s.(rl := Rest(s.rl));
    assert StreamOk(s1, j);
    hide StreamOk;
    OthersOk(s1, p', out, id, j);
  }

  lemma StreamFrameDelivered(s: System, f: Frame)
    requires Inv(s) && s.rl != [] && s.rl[0] == f && f.id > 0
    ensures Dispatch(s.left, f).Continue?
    ensures var effect := Dispatch(s.left, f); Inv(After(s, effect.peer, effect.out))
  {
    hide PeerInv, ChannelInv, StreamOk, Dispatch, Touches, Due, Honest, Configured;
    DueNow(s, f);
    FrameOk(s, f);
    var effect := Dispatch(s.left, f);
    DispatchKeepsPeerInv(s.left, f);
    StreamFrameChannels(s, f, effect);
    TouchesConfig(s.left, effect.peer, f.id);
    forall id: nat | id > 0 ensures StreamOk(After(s, effect.peer, effect.out), id) {
      if id != f.id { OthersAfter(s, effect.peer, effect.out, f.id, id); }
    }
  }

  lemma GlobalTouches(s: System, f: Frame, effect: Effect, j: nat)
    requires HandledGlobally(s, f, effect) && StreamOk(s, j) && j > 0 && s.rl != [] && s.rl[0] == f && f.id == 0
    ensures StreamOk(After(s, effect.peer, effect.out), j)
  {
    hide Joint, Known, On, Waiting, Unused, Submits, Receives, Log;
    OnDeliver(s.rl, j);
    OnOutput(s.lr, effect.out, j);
  }

  lemma GlobalChannels(s: System, f: Frame, effect: Effect)
    requires ChannelInv(s.left, s.right, s.lr) && ChannelInv(s.right, s.left, s.rl) && s.rl != [] && s.rl[0] == f
    requires HandledGlobally(s, f, effect)
    ensures ChannelInv(effect.peer, s.right, s.lr + effect.out) && ChannelInv(s.right, effect.peer, Rest(s.rl))
  {
    hide ChannelInv, Submits, Receives;
    DeliverKeeps(s.right, s.left, s.rl, effect.peer);
    if effect.out == [] {
      assert s.lr + effect.out == s.lr;
      QuietKeeps(s.left, s.right, s.lr, effect.peer, s.right);
    } else {
      assert effect.out == [effect.out[0]];
      SendKeeps(s.left, s.right, s.lr, effect.peer, effect.out[0]);
    }
  }

  lemma GlobalFrameDelivered(s: System, f: Frame)
    requires Inv(s) && s.rl != [] && s.rl[0] == f && f.id == 0
    ensures Dispatch(s.left, f).Continue?
    ensures var effect := Dispatch(s.left, f); Inv(After(s, effect.peer, effect.out))
  {
    hide PeerInv, ChannelInv, StreamOk, Dispatch, Submits, Receives, Configured;
    GlobalFrameOk(s, f);
    var effect := Dispatch(s.left, f);
    DispatchKeepsPeerInv(s.left, f);
    GlobalChannels(s, f, effect);
    SameConfig(s.left, effect.peer);
    forall id: nat | id > 0 ensures StreamOk(After(s, effect.peer, effect.out), id) { GlobalTouches(s, f, effect, id); }
  }

  lemma SameConfig(p: Peer, p': Peer)
    requires p'.nonce == p.nonce && p'.maxStreams == p.maxStreams
    ensures Configured(p') == Configured(p)
  {
  }

  /** Whatever arrives, its receiver handles it, and the invariant holds again. */
  lemma DeliverKeepsInv(s: System)
    requires Inv(s) && s.rl != []
    ensures StepLeft(s, Deliver).Next? && Inv(StepLeft(s, Deliver).system)
  {
    hide Inv, Dispatch;
    if s.rl[0].id > 0 { StreamFrameDelivered(s, s.rl[0]); } else { GlobalFrameDelivered(s, s.rl[0]); }
  }
}
