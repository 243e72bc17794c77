/** The left peer's own steps keep the invariant of the pair. */
module PairActions {
  import opened Common
  import opened Json
  import opened MuxState
  import opened MuxLocal
  import opened StreamPair
  import opened StreamSteps
  import opened MuxPair
  import opened PairChannels
  import opened PairSteps

  lemma EndsOkOf(s: System, id: nat)
    requires PeersInv(s)
    ensures EndsOk(SideOf(s.left, id), SideOf(s.right, id))
  {
    hide EndOk, Limits, Ids, QuietBeforeReady, Total;
  }

  /** What is left to prove of an action once `PairSteps` has dealt with the other streams. */
  ghost predicate ActOk(s: System, id: nat, p': Peer, out: seq<Frame>) {
    && SmallOutput(out, id)
    && !Unused(SideOf(s.left, id), SideOf(s.right, id), On(s.lr, id), On(s.rl, id))
    && Joint(Owns(s.left.role, id), SideOf(p', id), SideOf(s.right, id),
             if out != [] && out[0].id == id then On(s.lr, id) + out else On(s.lr, id), On(s.rl, id))
  }

  lemma WriterOk(s: System, action: Action, id: nat, p': Peer, out: seq<Frame>)
    requires PeersInv(s) && Enabled(s.left, action) && Apply(s.left, action) == (p', out)
    requires action.StartWrite? || action.TakeCredit? || action.CancelWrite?
    requires id == action.id && StreamOk(s, id)
    ensures ActOk(s, id, p', out)
  {
    hide PeersInv, StreamInv, On, Log, EndOk, Known, IsStaleId, Waiting;
    WriterStep(Owns(s.left.role, id), SideOf(s.left, id), SideOf(s.right, id), On(s.lr, id), On(s.rl, id),
      SideOf(p', id));
  }

  lemma SendChunkOk(s: System, id: nat, p': Peer, out: seq<Frame>)
    requires PeersInv(s) && Held(s.left, id) && CanSendChunk(s.left, s.left.streams[id])
    requires ApplySendChunk(s.left, id) == (p', out) && StreamOk(s, id)
    ensures ActOk(s, id, p', out)
  {
    hide PeersInv, StreamInv, On, EndOk, Known, IsStaleId, Waiting;
    EndsOkOf(s, id);
    SendStep(Owns(s.left.role, id), SideOf(s.left, id), SideOf(s.right, id), On(s.lr, id), On(s.rl, id),
      SideOf(p', id), out[0]);
    assert out == [out[0]];
  }

  lemma CreditFrameSays(id: nat, count: nat)
    ensures CreditFrame(id, count).kind == WINDOW_UPDATE && CreditOf(CreditFrame(id, count)) == count
  {
  }

  lemma ReadOk(s: System, id: nat, size: int, p': Peer, out: seq<Frame>)
    requires PeersInv(s) && Held(s.left, id) && CanRead(s.left.streams[id], size)
    requires ApplyRead(s.left, id, size) == (p', out) && StreamOk(s, id) && (p', out) != (s.left, [])
    ensures ActOk(s, id, p', out)
  {
    hide PeersInv, StreamInv, On, EndOk, Known, IsStaleId, Waiting, TakeUnread, ApplyRead, Log, Count;
    EndsOkOf(s, id);
    EndOkOf(s, id);
    var x, y, xy, yx := SideOf(s.left, id), SideOf(s.right, id), On(s.lr, id), On(s.rl, id);
    var e := s.left.streams[id];
    NonEmptyRead(s.left, id, size, p', out);
    var count := ReadCount(e, size);
    TakeUnreadSide(s.left, id, count);
    if e.closed {
      ReadLeftoverStep(Owns(s.left.role, id), x, y, xy, yx, SideOf(p', id), count);
    } else {
      CreditFrameSays(id, count);
      ReadStep(Owns(s.left.role, id), x, y, xy, yx, SideOf(p', id), out[0], count);
      assert out == [out[0]];
    }
  }

  lemma EndOkOf(s: System, id: nat)
    requires PeersInv(s) && id in s.left.streams
    ensures EndOk(s.left.streams[id])
  {
    hide EndOk, Limits, Ids, QuietBeforeReady, Total;
  }

  lemma TakeUnreadSide(p: Peer, id: nat, count: nat)
    requires id in p.streams && count <= |p.streams[id].buffer|
    ensures var x, x' := SideOf(p, id), SideOf(TakeUnread(p, id, count), id);
      var e := x.end.value;
      var got := x.got + e.buffer[..count];
      x' == if e.closed && count == |e.buffer| then x.(got := got, end := None, ending := Some(Drained))
            else x.(got := got, end := Some(e.(buffer := e.buffer[count..], recvCredit := e.recvCredit + count)))
  {
  }

  lemma NonEmptyRead(p: Peer, id: nat, size: int, p': Peer, out: seq<Frame>)
    requires id in p.streams && ApplyRead(p, id, size) == (p', out) && (p', out) != (p, [])
    requires EndOk(p.streams[id])
    ensures p.streams[id].buffer != [] && p' == TakeUnread(p, id, ReadCount(p.streams[id], size))
    ensures out == if p.streams[id].closed then [] else [CreditFrame(id, ReadCount(p.streams[id], size))]
  {
    hide TakeUnread;
  }

  lemma WriteEofOk(s: System, id: nat, p': Peer, out: seq<Frame>)
    requires PeersInv(s) && Held(s.left, id) && Idle(s.left.streams[id])
    requires ApplyWriteEof(s.left, id) == (p', out) && StreamOk(s, id) && (p', out) != (s.left, [])
    ensures ActOk(s, id, p', out)
  {
    hide PeersInv, StreamInv, On, Log, EndOk, Known, IsStaleId, Waiting;
    EofStep(Owns(s.left.role, id), SideOf(s.left, id), SideOf(s.right, id), On(s.lr, id), On(s.rl, id),
      SideOf(p', id), out[0]);
    assert out == [out[0]];
  }

  lemma MarkClosedSide(p: Peer, id: nat, how: Ending, p': Peer)
    requires p' == MarkClosed(p, id, how)
    ensures SideOf(p', id) == if Live(p, id) then SideOf(p, id).(end := None, ending := Some(how)) else SideOf(p, id)
  {
    hide Log;
  }

  lemma CloseOk(s: System, id: nat, reason: string, p': Peer, out: seq<Frame>)
    requires PeersInv(s) && Held(s.left, id)
    requires ApplyClose(s.left, id, reason) == (p', out) && StreamOk(s, id)
    ensures ActOk(s, id, p', out)
  {
    hide PeersInv, StreamInv, On, Log, EndOk, Known, IsStaleId, Waiting, MarkClosed;
    var x, y, xy, yx := SideOf(s.left, id), SideOf(s.right, id), On(s.lr, id), On(s.rl, id);
    if s.left.streams[id].closed {
      DiscardStep(Owns(s.left.role, id), x, y, xy, yx, SideOf(p', id));
    } else {
      MarkClosedSide(s.left, id, ClosedHere, p');
      CloseStep(Owns(s.left.role, id), x, y, xy, yx, SideOf(p', id), out[0]);
      assert out == [out[0]];
    }
  }

  // ----- Requests and their results ----------------------------------------------------------

  lemma OwnIds(s: System, p: Peer, id: nat)
    requires PeersInv(s) && p == s.left
    ensures id in p.pendingOpens || id in p.pendingListens ==> Owns(p.role, id) && id > 0
    ensures id in p.requests ==> !Owns(p.role, id) && 0 < id <= p.highestPeerId
    ensures id in p.streams ==> id > 0
    ensures Owns(p.role, p.nextId) && p.nextId > 0 && !IsStaleId(p, p.nextId)
  {
    hide Accounts, Limits, QuietBeforeReady;
  }

  /** The stream of the next ID is still unused. */
  lemma NextIdUnused(s: System)
    requires PeersInv(s) && StreamOk(s, s.left.nextId)
    ensures var id := s.left.nextId;
      Owns(s.left.role, id) && id > 0
      && SideOf(s.left, id) == NO_SIDE && SideOf(s.right, id) == NO_SIDE && On(s.lr, id) == [] && On(s.rl, id) == []
  {
    hide PeersInv, StreamInv, SideOf, On;
    OwnIds(s, s.left, s.left.nextId);
  }

  lemma OpenOk(s: System, f: Frame, p': Peer)
    requires PeersInv(s) && StreamOk(s, s.left.nextId) && f.kind == OPEN && f.id == s.left.nextId
    requires p' == s.left.(streams := s.left.streams[f.id := NEW_END], nextId := f.id + 2,
                           pendingOpens := s.left.pendingOpens[f.id := None])
    ensures StreamOk(s.(left := p', lr := s.lr + [f]), f.id)
  {
    hide PeersInv, StreamInv, On, Log;
    NextIdUnused(s);
    OnAppend(s.lr, f, f.id);
    assert [] + [f] == [f];
    OpenStep(SideOf(s.right, f.id), f, SideOf(p', f.id));
  }

  lemma ListenOk(s: System, f: Frame, p': Peer)
    requires PeersInv(s) && StreamOk(s, s.left.nextId) && f.kind == LISTEN && f.id == s.left.nextId
    requires p' == s.left.(nextId := f.id + 2, pendingListens := s.left.pendingListens[f.id := None])
    ensures StreamOk(s.(left := p', lr := s.lr + [f]), f.id)
  {
    hide PeersInv, StreamInv, On, Log;
    NextIdUnused(s);
    OnAppend(s.lr, f, f.id);
    assert [] + [f] == [f];
    ListenStep(SideOf(s.right, f.id), f, SideOf(p', f.id));
  }

  lemma UnsentOk(s: System, p': Peer)
    requires PeersInv(s) && StreamOk(s, s.left.nextId) && p' == s.left.(nextId := s.left.nextId + 2)
    ensures StreamOk(s.(left := p'), s.left.nextId)
  {
    hide PeersInv, StreamInv, On, Log;
    NextIdUnused(s);
    UnusedOk(SideOf(p', s.left.nextId), SideOf(s.right, s.left.nextId));
  }

  lemma SettledSide(p: Peer, id: nat, p1: Peer, p': Peer)
    requires p1 == p || p1 == MarkClosed(p, id, ClosedHere)
    requires p' == p1.(pendingOpens := p.pendingOpens - {id})
    ensures var x := SideOf(p, id);
      SideOf(p', id) == if p1 != p && Live(p, id) then x.(pending := None, end := None, ending := Some(ClosedHere))
                        else x.(pending := None)
  {
    hide Log;
    MarkClosedSide(p, id, ClosedHere, MarkClosed(p, id, ClosedHere));
    hide MarkClosed;
  }

  lemma LiveIsOpen(p: Peer, id: nat)
    ensures IsOpen(SideOf(p, id)) <==> Live(p, id)
    ensures SideOf(p, id).pending == if id in p.pendingOpens then Some(p.pendingOpens[id]) else None
    ensures SideOf(p, id).listening <==> id in p.pendingListens
  {
  }

  lemma MarkClosedChanges(p: Peer, id: nat)
    ensures MarkClosed(p, id, ClosedHere) == p <==> !Live(p, id)
  {
    if Live(p, id) { assert id !in MarkClosed(p, id, ClosedHere).streams; }
  }

  lemma FinishOpenOk(s: System, id: nat, p': Peer)
    requires PeersInv(s) && id in s.left.pendingOpens && s.left.pendingOpens[id].Some?
    requires p' == ApplyFinishOpen(s.left, id) && StreamOk(s, id)
    ensures ActOk(s, id, p', [])
  {
    hide PeersInv, StreamInv, On, EndOk, Known, IsStaleId, Waiting, MarkClosed, SideOf;
    OwnIds(s, s.left, id);
    MarkClosedChanges(s.left, id);
    SettledSide(s.left, id, if s.left.pendingOpens[id].value then s.left else MarkClosed(s.left, id, ClosedHere), p');
    LiveIsOpen(s.left, id);
    hide Live;
    var x, y, xy, yx := SideOf(s.left, id), SideOf(s.right, id), On(s.lr, id), On(s.rl, id);
    if s.left.pendingOpens[id].value {
      GrantedStep(x, y, xy, yx, SideOf(p', id));
    } else {
      RefusedStep(x, y, xy, yx, SideOf(p', id));
    }
  }

  lemma TimeoutOpenOk(s: System, id: nat, p': Peer, out: seq<Frame>)
    requires PeersInv(s) && id in s.left.pendingOpens
    requires ApplyTimeoutOpen(s.left, id) == (p', out) && StreamOk(s, id)
    ensures ActOk(s, id, p', out)
  {
    hide PeersInv, StreamInv, On, EndOk, Known, IsStaleId, Waiting, MarkClosed, SideOf;
    OwnIds(s, s.left, id);
    MarkClosedChanges(s.left, id);
    SettledSide(s.left, id, MarkClosed(s.left, id, ClosedHere), p');
    LiveIsOpen(s.left, id);
    hide Live;
    TimeoutStep(SideOf(s.left, id), SideOf(s.right, id), On(s.lr, id), On(s.rl, id), SideOf(p', id), out[0]);
    assert out == [out[0]];
  }

  lemma TimeoutListenOk(s: System, id: nat, p': Peer, f: Frame)
    requires PeersInv(s) && id in s.left.pendingListens && f.kind == CLOSE && f.id == id
    requires p' == s.left.(pendingListens := s.left.pendingListens - {id}) && StreamOk(s, id)
    ensures ActOk(s, id, p', [f])
  {
    hide PeersInv, StreamInv, On, Log, EndOk, Known, IsStaleId, Waiting;
    OwnIds(s, s.left, id);
    TimeoutListenStep(SideOf(s.left, id), SideOf(s.right, id), On(s.lr, id), On(s.rl, id), SideOf(p', id), f);
  }

  lemma ResultSays(kind: Kind, id: nat, ok: bool)
    ensures DecodeResult(ResultFrame(kind, id, ok).payload) == Success(ok)
  {
  }

  lemma CompleteOpenOk(s: System, id: nat, ok: bool, p': Peer, out: seq<Frame>)
    requires PeersInv(s) && id in s.left.requests && s.left.requests[id].OpenRunning?
    requires ApplyCompleteOpen(s.left, id, ok) == (p', out) && StreamOk(s, id)
    ensures ActOk(s, id, p', out)
  {
    hide PeersInv, StreamInv, On, Log, EndOk, Known, IsStaleId, Waiting, RemoteClose, SideOf, DecodeResult;
    OwnIds(s, s.left, id);
    ResultSays(OPEN_RESULT, id, ok);
    CompleteOpenSide(s, id, ok, p', out);
    var x, y, xy, yx := SideOf(s.left, id), SideOf(s.right, id), On(s.lr, id), On(s.rl, id);
    if ok {
      AcceptStep(x, y, xy, yx, SideOf(p', id), out[0]);
    } else {
      RefuseStep(x, y, xy, yx, SideOf(p', id), out[0]);
    }
    assert out == [out[0]];
  }

  lemma CompleteOpenSide(s: System, id: nat, ok: bool, p': Peer, out: seq<Frame>)
    requires id in s.left.requests && s.left.requests[id].OpenRunning? && !Owns(s.left.role, id)
    requires ApplyCompleteOpen(s.left, id, ok) == (p', out) && StreamOk(s, id)
    ensures var x := SideOf(s.left, id);
      x.serving && SideOf(p', id) ==
        if IsOpen(x) && !ok then x.(serving := false, end := None, ending := Some(Reset)) else x.(serving := false)
  {
    hide Log, Flow, Opening, Pending, Closing, Ordered, Has, On, Known;
    MarkClosedSide(s.left, id, Reset, MarkClosed(s.left, id, Reset));
    hide MarkClosed;
  }

  // ----- Cancelled calls ------------------------------------------------------------------------

  lemma MuteSide(p: Peer, id: nat)
    ensures SideOf(Mute(p, id), id) == SideOf(p, id).(muted := true)
  {
    hide Log, Find;
  }

  lemma LoseCreditSide(p: Peer, id: nat, count: nat)
    ensures SideOf(LoseCredit(p, id, count), id) == SideOf(p, id).(lost := SideOf(p, id).lost + count)
  {
    hide Log, Find;
  }

  lemma ReadCutOk(s: System, id: nat, size: int, p': Peer)
    requires PeersInv(s) && StreamOk(s, id) && CanCut(s.left, id, ReadCall(size))
    requires p' == ApplyCut(s.left, id, ReadCall(size))
    ensures ActOk(s, id, p', [])
  {
    hide PeersInv, StreamInv, On, EndOk, Known, IsStaleId, Waiting, TakeUnread, LoseCredit, Log, Count;
    EndsOkOf(s, id);
    var count := ReadCount(s.left.streams[id], size);
    TakeUnreadSide(s.left, id, count);
    LoseCreditSide(TakeUnread(s.left, id, count), id, count);
    ReadCutStep(Owns(s.left.role, id), SideOf(s.left, id), SideOf(s.right, id), On(s.lr, id), On(s.rl, id),
                SideOf(p', id), count);
  }

  lemma EofCutOk(s: System, id: nat, p': Peer)
    requires PeersInv(s) && StreamOk(s, id) && CanCut(s.left, id, EofCall)
    requires p' == ApplyCut(s.left, id, EofCall)
    ensures ActOk(s, id, p', [])
  {
    hide PeersInv, StreamInv, On, Log, Count, EndOk, Known, IsStaleId, Waiting;
    EofCutStep(Owns(s.left.role, id), SideOf(s.left, id), SideOf(s.right, id), On(s.lr, id), On(s.rl, id),
      SideOf(p', id));
  }

  lemma CloseCutOk(s: System, id: nat, p': Peer)
    requires PeersInv(s) && StreamOk(s, id) && CanCut(s.left, id, CloseCall)
    requires p' == ApplyCut(s.left, id, CloseCall)
    ensures ActOk(s, id, p', [])
  {
    hide PeersInv, StreamInv, On, Log, Count, EndOk, Known, IsStaleId, Waiting, MarkClosed, Mute;
    var p1 := MarkClosed(s.left, id, ClosedHere);
    MarkClosedSide(s.left, id, ClosedHere, p1);
    MuteSide(p1, id);
    CloseCutStep(Owns(s.left.role, id), SideOf(s.left, id), SideOf(s.right, id), On(s.lr, id), On(s.rl, id),
      SideOf(p', id));
  }

  lemma TimeoutCutOk(s: System, id: nat, p': Peer)
    requires PeersInv(s) && StreamOk(s, id) && CanCut(s.left, id, OpenTimeout)
    requires p' == ApplyCut(s.left, id, OpenTimeout)
    ensures ActOk(s, id, p', [])
  {
    hide PeersInv, StreamInv, On, EndOk, Known, IsStaleId, Waiting, MarkClosed, SideOf, Mute;
    OwnIds(s, s.left, id);
    MarkClosedChanges(s.left, id);
    SettledSide(s.left, id, MarkClosed(s.left, id, ClosedHere), ApplyTimeoutOpen(s.left, id).0);
    LiveIsOpen(s.left, id);
    MuteSide(ApplyTimeoutOpen(s.left, id).0, id);
    hide Live;
    TimeoutCutStep(SideOf(s.left, id), SideOf(s.right, id), On(s.lr, id), On(s.rl, id), SideOf(p', id));
  }

  lemma CutOk(s: System, id: nat, call: Call, p': Peer)
    requires PeersInv(s) && StreamOk(s, id) && CanCut(s.left, id, call) && p' == ApplyCut(s.left, id, call)
    ensures ActOk(s, id, p', [])
  {
    hide PeersInv, StreamOk, ActOk, CanCut, ApplyCut;
    match call
    case ReadCall(size) => ReadCutOk(s, id, size, p');
    case EofCall => EofCutOk(s, id, p');
    case CloseCall => CloseCutOk(s, id, p');
    case OpenTimeout => TimeoutCutOk(s, id, p');
    case ListenTimeout => ListenCutOk(s, id, p');
  }

  lemma ListenCutOk(s: System, id: nat, p': Peer)
    requires PeersInv(s) && StreamOk(s, id) && CanCut(s.left, id, ListenTimeout)
    requires p' == ApplyCut(s.left, id, ListenTimeout)
    ensures ActOk(s, id, p', [])
  {
    hide PeersInv, StreamOk, ActOk;
    ListenSettledOk(s, id, p');
  }

  // ----- LISTEN requests ------------------------------------------------------------------------

  lemma ListenSettledOk(s: System, id: nat, p': Peer)
    requires PeersInv(s) && id in s.left.pendingListens && StreamOk(s, id)
    requires p' == s.left.(pendingListens := s.left.pendingListens - {id}, history := p'.history)
    requires p'.history == s.left.history.(granted := p'.history.granted, muted := p'.history.muted)
    ensures ActOk(s, id, p', [])
  {
    hide PeersInv, StreamInv, On, Log, Known, IsStaleId, Waiting;
    OwnIds(s, s.left, id);
    ListenSettledStep(SideOf(s.left, id), SideOf(s.right, id), On(s.lr, id), On(s.rl, id), SideOf(p', id));
  }

  /** A request that was admitted is no longer on its way. */
  lemma AdmittedNotWaiting(s: System, id: nat)
    requires RequestOrder(s.right, s.left, s.rl) && id <= s.left.highestPeerId
    ensures !Waiting(On(s.rl, id))
  {
    OnIds(s.rl, id);
    hide On;
  }

  lemma ListenAnswerOk(s: System, id: nat, p': Peer, out: seq<Frame>)
    requires PeersInv(s) && RequestOrder(s.right, s.left, s.rl) && StreamOk(s, id)
    requires id in s.left.requests && !s.left.requests[id].OpenRunning?
    requires p' == s.left.(requests := p'.requests, listeners := p'.listeners) && SideOf(p', id) == SideOf(s.left, id)
    requires out == [] || (|out| == 1 && out[0].kind == LISTEN_RESULT && out[0].id == id)
    ensures StreamOk(s.(left := p', lr := s.lr + out), id)
  {
    hide PeersInv, StreamInv, On, SideOf, RequestOrder, Waiting, Unused;
    OwnIds(s, s.left, id);
    AdmittedNotWaiting(s, id);
    OnOutput(s.lr, out, id);
    AdmittedKnown(s, id);
    if out != [] {
      assert out == [out[0]];
      ListenResultStep(SideOf(s.left, id), SideOf(s.right, id), On(s.lr, id), On(s.rl, id), out[0]);
    }
  }

  lemma AdmittedKnown(s: System, id: nat)
    requires PeersInv(s) && RequestOrder(s.right, s.left, s.rl) && id in s.left.requests
    ensures IsStaleId(s.left, id) && IsStaleId(s.right, id)
  {
    hide Accounts, Limits, QuietBeforeReady;
  }

  lemma ServerOk(s: System, action: Action, id: nat, p': Peer, out: seq<Frame>)
    requires PeersInv(s) && RequestOrder(s.right, s.left, s.rl) && StreamOk(s, id)
    requires Enabled(s.left, action) && Apply(s.left, action) == (p', out)
    requires (action.BeginListen? || action.CompleteListen? || action.Reap?) && id == action.id
    ensures StreamOk(s.(left := p', lr := s.lr + out), id)
  {
    hide PeersInv, RequestOrder, StreamOk, ApplyRead, ApplyClose, ApplyCompleteOpen;
    ListenAnswerOk(s, id, p', out);
  }

  // ----- What is sent ------------------------------------------------------------------------

  ghost predicate OutputOk(p: Peer, p': Peer, out: seq<Frame>, id: nat) {
    SmallOutput(out, id) && (out != [] ==> Submits(p, p', out[0]))
  }

  lemma GreetingOutput(p: Peer, action: Action, p': Peer, out: seq<Frame>)
    requires PeerInv(p) && Enabled(p, action) && Apply(p, action) == (p', out)
    requires action.SendHello? || action.SendPing?
    ensures OutputOk(p, p', out, 0) && p' == p
  {
    hide PeerInv;
  }

  lemma RequesterOutput(p: Peer, action: Action, p': Peer, out: seq<Frame>)
    requires PeerInv(p) && Enabled(p, action) && Apply(p, action) == (p', out)
    requires action.Open? || action.OpenUnsent? || action.ListenUnsent? || action.RequestListener?
    ensures OutputOk(p, p', out, p.nextId)
  {
    hide Accounts, Limits, QuietBeforeReady;
  }

  lemma CloseFrameHonest(p: Peer, id: nat, reason: string)
    requires id > 0
    ensures Honest(p, CloseFrame(id, reason)) && CloseFrame(id, reason).kind == CLOSE && CloseFrame(id, reason).id == id
  {
  }

  lemma ReadyWhenBusy(p: Peer, id: nat)
    requires PeerInv(p)
    requires id in p.streams || id in p.pendingOpens || id in p.pendingListens || id in p.requests
    ensures Ready(p) && id > 0
    ensures id in p.requests ==> !Owns(p.role, id)
  {
    hide Accounts, Limits;
  }

  lemma GiveUpOutput(p: Peer, id: nat, p': Peer, out: seq<Frame>)
    requires Ready(p) && id > 0 && ApplyTimeoutOpen(p, id) == (p', out)
    ensures OutputOk(p, p', out, id)
  {
    hide Honest, CloseFrame;
    CloseFrameHonest(p, id, "open timed out");
  }

  lemma SettleOutput(p: Peer, action: Action, p': Peer, out: seq<Frame>)
    requires PeerInv(p) && Enabled(p, action) && Apply(p, action) == (p', out)
    requires action.FinishOpen? || action.TimeoutOpen? || action.FinishListen? || action.TimeoutListen?
    ensures OutputOk(p, p', out, action.id)
  {
    hide PeerInv, Honest, CloseFrame, ApplyFinishOpen, ApplyTimeoutOpen;
    ReadyWhenBusy(p, action.id);
    CloseFrameHonest(p, action.id, "listen timed out");
    if action.TimeoutOpen? { GiveUpOutput(p, action.id, p', out); }
  }

  lemma WriterOutput(p: Peer, action: Action, p': Peer, out: seq<Frame>)
    requires PeerInv(p) && Enabled(p, action) && Apply(p, action) == (p', out)
    requires action.StartWrite? || action.TakeCredit? || action.SendChunk? || action.CancelWrite?
    ensures OutputOk(p, p', out, action.id)
  {
    hide PeerInv;
    ReadyWhenBusy(p, action.id);
  }

  lemma ReadOutput(p: Peer, id: nat, size: int, p': Peer, out: seq<Frame>)
    requires PeerInv(p) && id in p.streams && CanRead(p.streams[id], size) && ApplyRead(p, id, size) == (p', out)
    ensures OutputOk(p, p', out, id)
  {
    hide PeerInv, CreditFrame;
    ReadyWhenBusy(p, id);
    if out != [] {
      CreditFrameHonest(p, id, ReadCount(p.streams[id], size));
      hide Honest;
    }
  }

  lemma CreditFrameHonest(p: Peer, id: nat, count: nat)
    requires id > 0 && count > 0
    ensures Honest(p, CreditFrame(id, count)) && CreditFrame(id, count).kind == WINDOW_UPDATE
      && CreditFrame(id, count).id == id
  {
  }

  lemma StreamOutput(p: Peer, id: nat, reason: string, p': Peer, out: seq<Frame>)
    requires PeerInv(p) && id in p.streams
    requires ApplyWriteEof(p, id) == (p', out) || ApplyClose(p, id, reason) == (p', out)
    ensures OutputOk(p, p', out, id)
  {
    hide PeerInv, CloseFrame;
    ReadyWhenBusy(p, id);
    CloseFrameHonest(p, id, reason);
  }

  lemma ResultHonest(p: Peer, kind: Kind, id: nat, ok: bool)
    requires id > 0 && !Owns(p.role, id) && (kind == OPEN_RESULT || kind == LISTEN_RESULT)
    ensures Honest(p, ResultFrame(kind, id, ok))
  {
  }

  lemma CompleteOpenOutput(p: Peer, id: nat, ok: bool, p': Peer, out: seq<Frame>)
    requires PeerInv(p) && id in p.requests && ApplyCompleteOpen(p, id, ok) == (p', out)
    ensures OutputOk(p, p', out, id)
  {
    hide PeerInv, Honest, Owns, MarkClosed;
    ReadyWhenBusy(p, id);
    ResultHonest(p, OPEN_RESULT, id, ok);
    RemoteCloseTouches(p, id, RemoteClose(p, id));
    hide RemoteClose, SameBut;
    RemoteCloseShrinks(p, id, RemoteClose(p, id));
  }

  lemma ServerOutput(p: Peer, action: Action, p': Peer, out: seq<Frame>)
    requires PeerInv(p) && Enabled(p, action) && Apply(p, action) == (p', out)
    requires action.BeginListen? || action.CompleteListen? || action.Reap?
    ensures OutputOk(p, p', out, action.id)
  {
    hide PeerInv, Honest, Owns, ApplyCompleteOpen, ApplyRead, ApplyClose;
    ReadyWhenBusy(p, action.id);
    ResultHonest(p, LISTEN_RESULT, action.id, true);
    ResultHonest(p, LISTEN_RESULT, action.id, false);
  }

  lemma CutOutput(p: Peer, action: Action, p': Peer, out: seq<Frame>)
    requires action.Cut? && Enabled(p, action) && Apply(p, action) == (p', out)
    ensures OutputOk(p, p', out, action.id)
  {
    hide ApplyCut;
  }

  // ----- An action keeps the invariant ------------------------------------------------------------

  lemma ActOutput(p: Peer, action: Action, p': Peer, out: seq<Frame>)
    requires PeerInv(p) && Enabled(p, action) && Apply(p, action) == (p', out)
    ensures OutputOk(p, p', out, Concerns(p, action))
  {
    hide PeerInv, OutputOk, ApplyRead, ApplyWriteEof, ApplyClose, ApplyCompleteOpen, ApplyCut;
    match action {
      case SendHello => GreetingOutput(p, action, p', out);
      case SendPing(_) => GreetingOutput(p, action, p', out);
      case Open(_) => RequesterOutput(p, action, p', out);
      case OpenUnsent => RequesterOutput(p, action, p', out);
      case RequestListener(_) => RequesterOutput(p, action, p', out);
      case ListenUnsent => RequesterOutput(p, action, p', out);
      case FinishOpen(_) => SettleOutput(p, action, p', out);
      case TimeoutOpen(_) => SettleOutput(p, action, p', out);
      case FinishListen(_) => SettleOutput(p, action, p', out);
      case TimeoutListen(_) => SettleOutput(p, action, p', out);
      case StartWrite(_, _) => WriterOutput(p, action, p', out);
      case TakeCredit(_) => WriterOutput(p, action, p', out);
      case SendChunk(_) => WriterOutput(p, action, p', out);
      case CancelWrite(_) => WriterOutput(p, action, p', out);
      case Read(id, size) => ReadOutput(p, id, size, p', out);
      case WriteEof(id) => StreamOutput(p, id, "", p', out);
      case Close(id, reason) => StreamOutput(p, id, reason, p', out);
      case Cut(_, _) => CutOutput(p, action, p', out);
      case CompleteOpen(id, ok) => CompleteOpenOutput(p, id, ok, p', out);
      case BeginListen(_) => ServerOutput(p, action, p', out);
      case CompleteListen(_, _) => ServerOutput(p, action, p', out);
      case Reap(_) => ServerOutput(p, action, p', out);
    }
  }

  /** Whether an action asks the other side for something, or settles what was asked. */
  predicate IsAsking(action: Action) {
    action.SendHello? || action.SendPing? || action.Open? || action.OpenUnsent? || action.RequestListener?
      || action.ListenUnsent? || action.FinishOpen? || action.TimeoutOpen? || action.FinishListen?
        || action.TimeoutListen?
  }

  lemma AskingConcerned(s: System, action: Action, id: nat, p': Peer, out: seq<Frame>)
    requires PeersInv(s) && RequestOrder(s.right, s.left, s.rl) && StreamOk(s, id) && id > 0
    requires Enabled(s.left, action) && Apply(s.left, action) == (p', out) && id == Concerns(s.left, action)
    requires IsAsking(action)
    ensures StreamOk(s.(left := p', lr := s.lr + out), id)
  {
    hide PeersInv, RequestOrder, StreamOk, ActOk, Touches, ApplyRead, ApplyWriteEof, ApplyClose, ApplyCompleteOpen,
      ApplyCut;
    ApplyTouches(s.left, action, p');
    assert s.lr + [] == s.lr;
    match action {
      case SendHello => case SendPing(_) =>
      case Open(_) => OpenOk(s, out[0], p'); assert out == [out[0]];
      case OpenUnsent => UnsentOk(s, p');
      case RequestListener(_) => ListenOk(s, out[0], p'); assert out == [out[0]];
      case ListenUnsent => UnsentOk(s, p');
      case FinishOpen(_) => FinishOpenOk(s, id, p'); Conclude(s, id, p', out);
      case TimeoutOpen(_) => TimeoutOpenOk(s, id, p', out); Conclude(s, id, p', out);
      case FinishListen(_) => ListenSettledOk(s, id, p'); Conclude(s, id, p', out);
      case TimeoutListen(_) => TimeoutListenOk(s, id, p', out[0]); assert out == [out[0]]; Conclude(s, id, p', out);
    }
  }

  lemma UsingConcerned(s: System, action: Action, id: nat, p': Peer, out: seq<Frame>)
    requires PeersInv(s) && RequestOrder(s.right, s.left, s.rl) && StreamOk(s, id) && id > 0
    requires Enabled(s.left, action) && Apply(s.left, action) == (p', out) && id == Concerns(s.left, action)
    requires !IsAsking(action)
    ensures StreamOk(s.(left := p', lr := s.lr + out), id)
  {
    hide PeersInv, RequestOrder, StreamOk, ActOk, Touches, ApplyRead, ApplyWriteEof, ApplyClose, ApplyCompleteOpen,
      ApplyCut;
    ApplyTouches(s.left, action, p');
    assert s.lr + [] == s.lr;
    match action {
      case StartWrite(_, _) => WriterOk(s, action, id, p', out); Conclude(s, id, p', out);
      case TakeCredit(_) => WriterOk(s, action, id, p', out); Conclude(s, id, p', out);
      case SendChunk(_) => SendChunkOk(s, id, p', out); Conclude(s, id, p', out);
      case CancelWrite(_) => WriterOk(s, action, id, p', out); Conclude(s, id, p', out);
      case Read(_, size) =>
        if (p', out) != (s.left, []) { ReadOk(s, id, size, p', out); Conclude(s, id, p', out); }
      case WriteEof(_) =>
        if (p', out) != (s.left, []) { WriteEofOk(s, id, p', out); Conclude(s, id, p', out); }
      case Close(_, reason) => CloseOk(s, id, reason, p', out); Conclude(s, id, p', out);
      case Cut(_, call) => CutOk(s, id, call, p'); Conclude(s, id, p', out);
      case CompleteOpen(_, ok) => CompleteOpenOk(s, id, ok, p', out); Conclude(s, id, p', out);
      case BeginListen(_) => ServerOk(s, action, id, p', out);
      case CompleteListen(_, _) => ServerOk(s, action, id, p', out);
      case Reap(_) => ServerOk(s, action, id, p', out);
    }
  }

  /** The stream an action concerns. */
  lemma ActConcerned(s: System, action: Action, id: nat, p': Peer, out: seq<Frame>)
    requires PeersInv(s) && RequestOrder(s.right, s.left, s.rl) && StreamOk(s, id) && id > 0
    requires Enabled(s.left, action) && Apply(s.left, action) == (p', out) && id == Concerns(s.left, action)
    ensures StreamOk(s.(left := p', lr := s.lr + out), id)
  {
    hide PeersInv, RequestOrder, StreamOk, Apply, Enabled, Concerns;
    if IsAsking(action) { AskingConcerned(s, action, id, p', out); } else { UsingConcerned(s, action, id, p', out); }
  }

  lemma Conclude(s: System, id: nat, p': Peer, out: seq<Frame>)
    requires StreamOk(s, id) && Touches(s.left, p', id) && id > 0 && ActOk(s, id, p', out)
    ensures StreamOk(s.(left := p', lr := s.lr + out), id)
  {
    hide Touches, Joint, Unused, SideOf, On, Known;
    ConcernedOk(s, p', out, id);
  }

  lemma ActChannels(s: System, action: Action, p': Peer, out: seq<Frame>)
    requires Inv(s) && Enabled(s.left, action) && Apply(s.left, action) == (p', out)
    ensures ChannelInv(p', s.right, s.lr + out) && ChannelInv(s.right, p', s.rl)
  {
    hide PeerInv, ChannelInv, StreamOk, Apply, Enabled, SameBut;
    ActOutput(s.left, action, p', out);
    ApplyTouches(s.left, action, p');
    ApplyKeepsHighest(s.left, action, p');
    QuietKeeps(s.right, s.left, s.rl, s.right, p');
    if out == [] {
      assert s.lr + out == s.lr;
      QuietKeeps(s.left, s.right, s.lr, p', s.right);
    } else {
      assert out == [out[0]];
      hide Submits;
      SendKeeps(s.left, s.right, s.lr, p', out[0]);
    }
  }

  lemma ClosingKeepsHighest(p: Peer, id: nat)
    ensures MarkClosed(p, id, ClosedHere).highestPeerId == p.highestPeerId
    ensures RemoteClose(p, id).highestPeerId == p.highestPeerId
  {
    hide MarkClosed, RemoteClose;
    MarkClosedShrinks(p, id, ClosedHere, MarkClosed(p, id, ClosedHere));
    RemoteCloseShrinks(p, id, RemoteClose(p, id));
  }

  lemma OpeningKeepsHighest(p: Peer, metadata: Object)
    ensures ApplyOpen(p, metadata).0.highestPeerId == p.highestPeerId
    ensures ApplyRequestListener(p, metadata).0.highestPeerId == p.highestPeerId
  {
  }

  lemma ReadKeepsHighest(p: Peer, id: nat, size: int)
    requires id in p.streams
    ensures ApplyRead(p, id, size).0.highestPeerId == p.highestPeerId
  {
    hide TakeUnread;
    TakingKeepsHighest(p, id, ReadCount(p.streams[id], size));
  }

  lemma CloseKeepsHighest(p: Peer, id: nat, reason: string)
    requires id in p.streams
    ensures ApplyClose(p, id, reason).0.highestPeerId == p.highestPeerId
  {
    hide MarkClosed, RemoteClose;
    ClosingKeepsHighest(p, id);
  }

  lemma CutKeepsHighest(p: Peer, id: nat, call: Call)
    requires CanCut(p, id, call)
    ensures ApplyCut(p, id, call).highestPeerId == p.highestPeerId
  {
    hide MarkClosed, TakeUnread;
    ClosingKeepsHighest(p, id);
    if call.ReadCall? { TakingKeepsHighest(p, id, ReadCount(p.streams[id], call.size)); }
  }

  lemma TakingKeepsHighest(p: Peer, id: nat, count: nat)
    requires id in p.streams && count <= |p.streams[id].buffer|
    ensures TakeUnread(p, id, count).highestPeerId == p.highestPeerId
  {
  }

  lemma WritingKeepsHighest(p: Peer, id: nat)
    requires id in p.streams
    ensures ApplyWriteEof(p, id).0.highestPeerId == p.highestPeerId
    ensures ApplyCancelWrite(p, id).highestPeerId == p.highestPeerId
    ensures ApplySendChunk(p, id).0.highestPeerId == p.highestPeerId
    ensures CanTakeCredit(p.streams[id]) ==> ApplyTakeCredit(p, id).highestPeerId == p.highestPeerId
  {
  }

  lemma RequestActionKeepsHighest(p: Peer, id: nat, ok: bool)
    ensures ApplyTimeoutOpen(p, id).0.highestPeerId == p.highestPeerId
    ensures ApplyCompleteOpen(p, id, ok).0.highestPeerId == p.highestPeerId
    ensures ApplyBeginListen(p, id).0.highestPeerId == p.highestPeerId
    ensures ApplyCompleteListen(p, id, ok).0.highestPeerId == p.highestPeerId
    ensures id in p.pendingOpens && p.pendingOpens[id].Some? ==> ApplyFinishOpen(p, id).highestPeerId == p.highestPeerId
  {
    hide MarkClosed, RemoteClose;
    ClosingKeepsHighest(p, id);
  }

  lemma StreamActionKeepsHighest(p: Peer, action: Action, p': Peer)
    requires Enabled(p, action) && p' == Apply(p, action).0
    requires action.Close? || action.Read? || action.WriteEof? || action.CancelWrite? || action.SendChunk?
      || action.TakeCredit? || action.Cut?
    ensures p'.highestPeerId == p.highestPeerId
  {
    hide ApplyClose, ApplyRead, ApplyWriteEof, ApplyCancelWrite, ApplySendChunk, ApplyTakeCredit, ApplyCut;
    match action
    case Close(id, reason) => CloseKeepsHighest(p, id, reason);
    case Read(id, size) => ReadKeepsHighest(p, id, size);
    case Cut(id, call) => CutKeepsHighest(p, id, call);
    case WriteEof(id) => WritingKeepsHighest(p, id);
    case CancelWrite(id) => WritingKeepsHighest(p, id);
    case SendChunk(id) => WritingKeepsHighest(p, id);
    case TakeCredit(id) => WritingKeepsHighest(p, id);
  }

  lemma RequestsKeepHighest(p: Peer, action: Action, p': Peer)
    requires Enabled(p, action) && p' == Apply(p, action).0
    requires action.TimeoutOpen? || action.FinishOpen? || action.CompleteOpen? || action.BeginListen?
      || action.CompleteListen?
      || action.Open? || action.RequestListener?
    ensures p'.highestPeerId == p.highestPeerId
  {
    hide Owns, ApplyOpen, ApplyRequestListener, ApplyTimeoutOpen, ApplyCompleteOpen, ApplyBeginListen,
      ApplyCompleteListen, ApplyFinishOpen;
    match action
    case TimeoutOpen(id) => RequestActionKeepsHighest(p, id, true);
    case FinishOpen(id) => RequestActionKeepsHighest(p, id, true);
    case CompleteOpen(id, ok) => RequestActionKeepsHighest(p, id, ok);
    case BeginListen(id) => RequestActionKeepsHighest(p, id, true);
    case CompleteListen(id, ok) => RequestActionKeepsHighest(p, id, ok);
    case Open(metadata) => OpeningKeepsHighest(p, metadata);
    case RequestListener(metadata) => OpeningKeepsHighest(p, metadata);
  }

  lemma OthersKeepHighest(p: Peer, action: Action, p': Peer)
    requires Enabled(p, action) && p' == Apply(p, action).0
    requires action.SendHello? || action.SendPing? || action.OpenUnsent? || action.ListenUnsent? || action.FinishListen?
      || action.TimeoutListen? || action.StartWrite? || action.Reap?
    ensures p'.highestPeerId == p.highestPeerId
  {
    hide Owns;
  }

  lemma ApplyKeepsHighest(p: Peer, action: Action, p': Peer)
    requires Enabled(p, action) && p' == Apply(p, action).0
    ensures p'.highestPeerId == p.highestPeerId
  {
    hide Apply, Enabled;
    if action.Close? || action.Read? || action.WriteEof? || action.CancelWrite? || action.SendChunk?
      || action.TakeCredit?
      || action.Cut? {
      StreamActionKeepsHighest(p, action, p');
    } else if action.TimeoutOpen? || action.FinishOpen? || action.CompleteOpen? || action.BeginListen?
      || action.CompleteListen? || action.Open? || action.RequestListener? {
      RequestsKeepHighest(p, action, p');
    } else {
      OthersKeepHighest(p, action, p');
    }
  }

  lemma ActKeeps(s: System, action: Action, s': System)
    requires Inv(s) && StepLeft(s, Act(action)) == Next(s')
    ensures Inv(s')
  {
    hide PeerInv, ChannelInv, StreamOk, Apply, Enabled, Touches, Submits, Configured;
    var (p', out) := Apply(s.left, action);
    ApplyKeepsPeerInv(s.left, action, p');
    ActChannels(s, action, p', out);
    ApplyTouches(s.left, action, p');
    ActOutput(s.left, action, p', out);
    TouchesConfig(s.left, p', Concerns(s.left, action));
    forall id: nat | id > 0 ensures StreamOk(s', id) {
      if id == Concerns(s.left, action) {
        ChannelRequests(s.right, s.left, s.rl);
        ActConcerned(s, action, id, p', out);
      } else {
        OthersOk(s, p', out, Concerns(s.left, action), id);
      }
    }
  }

  lemma ChannelRequests(p: Peer, q: Peer, channel: seq<Frame>)
    requires ChannelInv(p, q, channel)
    ensures RequestOrder(p, q, channel)
  {
  }

  lemma TouchesConfig(p: Peer, p': Peer, id: nat)
    requires Touches(p, p', id)
    ensures p'.role == p.role && (Configured(p) ==> Configured(p'))
  {
  }
}
