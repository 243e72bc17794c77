/** Every step of the left peer keeps the invariant of the pair. */
module PairSteps {
  import opened Common
  import opened Json
  import opened MuxState
  import opened MuxLocal
  import opened StreamPair
  import opened StreamSteps
  import opened MuxPair
  import opened PairChannels

  // ----- What a step leaves alone -------------------------------------------------------------

  /** The one stream ID an action concerns, or 0. */
  function Concerns(p: Peer, action: Action): nat {
    match action
    case SendHello => 0
    case SendPing(_) => 0
    case Open(_) => p.nextId
    case OpenUnsent => p.nextId
    case RequestListener(_) => p.nextId
    case ListenUnsent => p.nextId
    case FinishOpen(id) => id
    case TimeoutOpen(id) => id
    case FinishListen(id) => id
    case TimeoutListen(id) => id
    case StartWrite(id, _) => id
    case TakeCredit(id) => id
    case SendChunk(id) => id
    case CancelWrite(id) => id
    case Read(id, _) => id
    case WriteEof(id) => id
    case Close(id, _) => id
    case Cut(id, _) => id
    case CompleteOpen(id, _) => id
    case BeginListen(id) => id
    case CompleteListen(id, _) => id
    case Reap(id) => id
  }

  ghost predicate SameBut<T>(m: map<nat, T>, m': map<nat, T>, id: nat) { m' - {id} == m - {id} }

  lemma MapSteps<T(!new)>(m: map<nat, T>, id: nat)
    ensures SameBut(m, m, id) && SameBut(m, m - {id}, id)
    ensures forall v {:trigger m[id := v]} :: SameBut(m, m[id := v], id)
  {
    forall v {:trigger m[id := v]} ensures SameBut(m, m[id := v], id) { assert m[id := v] - {id} == m - {id}; }
  }

  /** A step that concerns one stream ID only, and forgets no ID. */
  ghost predicate Touches(p: Peer, p': Peer, id: nat) {
    && p'.role == p.role && p'.nonce == p.nonce && p'.maxStreams == p.maxStreams
    && p'.nextId >= p.nextId && p'.highestPeerId >= p.highestPeerId
    && p'.helloReceived == p.helloReceived && p'.ackReceived == p.ackReceived && p'.peerHello == p.peerHello
    && SameBut(p.streams, p'.streams, id)
    && SameBut(p.pendingOpens, p'.pendingOpens, id)
    && SameBut(p.pendingListens, p'.pendingListens, id)
    && SameBut(p.requests, p'.requests, id)
    && SameBut(p.history.sent, p'.history.sent, id)
    && SameBut(p.history.got, p'.history.got, id)
    && SameBut(p.history.lost, p'.history.lost, id)
    && p'.history.eofs - {id} == p.history.eofs - {id}
    && p'.history.muted - {id} == p.history.muted - {id}
    && p'.history.granted - {id} == p.history.granted - {id}
    && p'.listeners - {id} == p.listeners - {id}
    && SameBut(p.history.endings, p'.history.endings, id)
  }

  lemma AllMapSteps(p: Peer, id: nat)
    ensures SameBut(p.streams, p.streams, id) && SameBut(p.streams, p.streams - {id}, id)
    ensures forall v {:trigger p.streams[id := v]} :: SameBut(p.streams, p.streams[id := v], id)
    ensures SameBut(p.pendingOpens, p.pendingOpens, id) && SameBut(p.pendingOpens, p.pendingOpens - {id}, id)
    ensures forall v {:trigger p.pendingOpens[id := v]} :: SameBut(p.pendingOpens, p.pendingOpens[id := v], id)
    ensures SameBut(p.pendingListens, p.pendingListens, id) && SameBut(p.pendingListens, p.pendingListens - {id}, id)
    ensures forall v {:trigger p.pendingListens[id := v]} :: SameBut(p.pendingListens, p.pendingListens[id := v], id)
    ensures SameBut(p.requests, p.requests, id) && SameBut(p.requests, p.requests - {id}, id)
    ensures forall v {:trigger p.requests[id := v]} :: SameBut(p.requests, p.requests[id := v], id)
    ensures SameBut(p.history.sent, p.history.sent, id)
    ensures forall v {:trigger p.history.sent[id := v]} :: SameBut(p.history.sent, p.history.sent[id := v], id)
    ensures SameBut(p.history.got, p.history.got, id)
    ensures forall v {:trigger p.history.got[id := v]} :: SameBut(p.history.got, p.history.got[id := v], id)
    ensures SameBut(p.history.lost, p.history.lost, id)
    ensures forall v: nat {:trigger p.history.lost[id := v]} :: SameBut(p.history.lost, p.history.lost[id := v], id)
    ensures SameBut(p.history.endings, p.history.endings, id)
    ensures forall v {:trigger p.history.endings[id := v]} :: SameBut(p.history.endings, p.history.endings[id := v], id)
  {
    hide SameBut;
    MapSteps(p.streams, id);
    MapSteps(p.pendingOpens, id);
    MapSteps(p.pendingListens, id);
    MapSteps(p.requests, id);
    MapSteps(p.history.sent, id);
    MapSteps(p.history.got, id);
    MapSteps(p.history.lost, id);
    MapSteps(p.history.endings, id);
  }

  lemma FindElsewhere<T>(m: map<nat, T>, m': map<nat, T>, id: nat, j: nat)
    requires SameBut(m, m', id) && j != id
    ensures (j in m' <==> j in m) && Find(m', j) == Find(m, j)
  {
    assert j in m <==> j in m - {id};
    assert j in m' <==> j in m' - {id};
    if j in m { assert (m - {id})[j] == m[j] && (m' - {id})[j] == m'[j]; }
  }

  lemma LogElsewhere(m: map<nat, Bytes>, m': map<nat, Bytes>, id: nat, j: nat)
    requires SameBut(m, m', id) && j != id
    ensures Log(m', j) == Log(m, j)
  {
    FindElsewhere(m, m', id, j);
    if j in m { assert Find(m, j) == Some(m[j]) && Find(m', j) == Some(m'[j]); }
  }

  lemma CountElsewhere(m: map<nat, nat>, m': map<nat, nat>, id: nat, j: nat)
    requires SameBut(m, m', id) && j != id
    ensures Count(m', j) == Count(m, j)
  {
    FindElsewhere(m, m', id, j);
    if j in m { assert Find(m, j) == Some(m[j]) && Find(m', j) == Some(m'[j]); }
  }

  lemma SideElsewhere(p: Peer, p': Peer, id: nat, j: nat)
    requires Touches(p, p', id) && j != id
    ensures SideOf(p', j) == SideOf(p, j)
  {
    hide SameBut, Find, Log, Count;
    FindElsewhere(p.streams, p'.streams, id, j);
    FindElsewhere(p.pendingOpens, p'.pendingOpens, id, j);
    FindElsewhere(p.pendingListens, p'.pendingListens, id, j);
    FindElsewhere(p.requests, p'.requests, id, j);
    LogElsewhere(p.history.sent, p'.history.sent, id, j);
    LogElsewhere(p.history.got, p'.history.got, id, j);
    CountElsewhere(p.history.lost, p'.history.lost, id, j);
    FindElsewhere(p.history.endings, p'.history.endings, id, j);
    assert j in p'.history.eofs - {id} <==> j in p.history.eofs - {id};
    assert j in p'.history.muted - {id} <==> j in p.history.muted - {id};
  }

  // ----- Every action touches one stream --------------------------------------------------------

  lemma RequesterTouches(p: Peer, action: Action, p': Peer)
    requires Enabled(p, action) && p' == Apply(p, action).0
    requires action.Open? || action.OpenUnsent? || action.ListenUnsent? || action.RequestListener?
    ensures Touches(p, p', Concerns(p, action))
  {
    hide SameBut;
    AllMapSteps(p, Concerns(p, action));
  }

  lemma SettleTouches(p: Peer, action: Action, p': Peer)
    requires Enabled(p, action) && p' == Apply(p, action).0
    requires action.FinishOpen? || action.TimeoutOpen? || action.FinishListen? || action.TimeoutListen?
    ensures Touches(p, p', Concerns(p, action))
  {
    hide Touches, ApplyFinishOpen, ApplyTimeoutOpen, MarkClosed;
    match action {
      case FinishOpen(id) => FinishOpenTouches(p, id, p');
      case TimeoutOpen(id) => GiveUpTouches(p, id);
      case FinishListen(id) => SettledListenTouches(p, id, p');
      case TimeoutListen(id) => SettledListenTouches(p, id, p');
    }
  }

  lemma FinishOpenTouches(p: Peer, id: nat, p': Peer)
    requires id in p.pendingOpens && p.pendingOpens[id].Some? && p' == ApplyFinishOpen(p, id)
    ensures Touches(p, p', id)
  {
    hide Touches, MarkClosed;
    var p1 := MarkClosed(p, id, ClosedHere);
    MarkClosedTouches(p, id, ClosedHere, p1);
    MarkClosedKeepsPending(p, id, p1);
    ForgetTouches(p, id);
    ForgetTouches(p1, id);
    if !p.pendingOpens[id].value { TouchesTwice(p, p1, p', id); }
  }

  lemma ForgetTouches(p: Peer, id: nat)
    ensures Touches(p, p.(pendingOpens := p.pendingOpens - {id}), id)
  {
    hide SameBut;
    AllMapSteps(p, id);
  }

  lemma SettledListenTouches(p: Peer, id: nat, p': Peer)
    requires p' == p.(pendingListens := p.pendingListens - {id}, history := p'.history)
    requires p'.history == p.history || p'.history == p.history.(granted := p.history.granted + {id})
    ensures Touches(p, p', id)
  {
    hide SameBut;
    AllMapSteps(p, id);
  }

  lemma WriterTouches(p: Peer, action: Action, p': Peer)
    requires Enabled(p, action) && p' == Apply(p, action).0
    requires action.StartWrite? || action.TakeCredit? || action.SendChunk? || action.CancelWrite?
    ensures Touches(p, p', Concerns(p, action))
  {
    hide SameBut;
    AllMapSteps(p, Concerns(p, action));
  }

  lemma TakeUnreadTouches(p: Peer, id: nat, count: nat, p': Peer)
    requires id in p.streams && count <= |p.streams[id].buffer| && p' == TakeUnread(p, id, count)
    ensures Touches(p, p', id)
  {
    hide SameBut;
    AllMapSteps(p, id);
  }

  lemma ReadTouches(p: Peer, id: nat, size: int, p': Peer)
    requires id in p.streams && p' == ApplyRead(p, id, size).0
    ensures Touches(p, p', id)
  {
    hide SameBut, TakeUnread;
    AllMapSteps(p, id);
    var e := p.streams[id];
    if size != 0 && e.buffer != [] { TakeUnreadTouches(p, id, ReadCount(e, size), p'); }
  }

  lemma WriteEofTouches(p: Peer, id: nat, p': Peer)
    requires id in p.streams && p' == ApplyWriteEof(p, id).0
    ensures Touches(p, p', id)
  {
    hide SameBut;
    AllMapSteps(p, id);
  }

  lemma MarkClosedTouches(p: Peer, id: nat, how: Ending, p': Peer)
    requires p' == MarkClosed(p, id, how)
    ensures Touches(p, p', id)
  {
    hide SameBut;
    AllMapSteps(p, id);
  }

  lemma RemoteCloseTouches(p: Peer, id: nat, p': Peer)
    requires p' == RemoteClose(p, id)
    ensures Touches(p, p', id)
  {
    hide SameBut, MarkClosed;
    AllMapSteps(p, id);
    MarkClosedTouches(p, id, Reset, MarkClosed(p, id, Reset));
  }

  lemma CloseTouches(p: Peer, id: nat, reason: string, p': Peer)
    requires id in p.streams && p' == ApplyClose(p, id, reason).0
    ensures Touches(p, p', id)
  {
    hide SameBut, MarkClosed;
    AllMapSteps(p, id);
    MarkClosedTouches(p, id, ClosedHere, MarkClosed(p, id, ClosedHere));
  }

  lemma CompleteOpenTouches(p: Peer, id: nat, ok: bool, p': Peer)
    requires p' == ApplyCompleteOpen(p, id, ok).0
    ensures Touches(p, p', id)
  {
    hide SameBut, RemoteClose;
    AllMapSteps(p, id);
    RemoteCloseTouches(p, id, RemoteClose(p, id));
    RemoteCloseShrinks(p, id, RemoteClose(p, id));
  }

  lemma StreamTouches(p: Peer, action: Action, p': Peer)
    requires Enabled(p, action) && p' == Apply(p, action).0
    requires action.Read? || action.WriteEof? || action.Close? || action.CompleteOpen?
    ensures Touches(p, p', Concerns(p, action))
  {
    hide Touches, ApplyRead, ApplyWriteEof, ApplyClose, ApplyCompleteOpen;
    match action {
      case Read(id, size) => ReadTouches(p, id, size, p');
      case WriteEof(id) => WriteEofTouches(p, id, p');
      case Close(id, reason) => CloseTouches(p, id, reason, p');
      case CompleteOpen(id, ok) => CompleteOpenTouches(p, id, ok, p');
    }
  }

  /** Two steps on one stream are a step on that stream. */
  lemma TouchesTwice(p: Peer, p1: Peer, p': Peer, id: nat)
    requires Touches(p, p1, id) && Touches(p1, p', id)
    ensures Touches(p, p', id)
  {
  }

  lemma MuteTouches(p: Peer, id: nat)
    ensures Touches(p, Mute(p, id), id)
  {
    hide SameBut;
    AllMapSteps(p, id);
  }

  lemma LoseCreditTouches(p: Peer, id: nat, count: nat)
    ensures Touches(p, LoseCredit(p, id, count), id)
  {
    hide SameBut;
    AllMapSteps(p, id);
  }

  lemma GiveUpTouches(p: Peer, id: nat)
    ensures Touches(p, ApplyTimeoutOpen(p, id).0, id)
  {
    hide SameBut, MarkClosed;
    AllMapSteps(p, id);
    MarkClosedTouches(p, id, ClosedHere, MarkClosed(p, id, ClosedHere));
    MarkClosedShrinks(p, id, ClosedHere, MarkClosed(p, id, ClosedHere));
    MarkClosedKeepsPending(p, id, MarkClosed(p, id, ClosedHere));
  }

  lemma CutTouches(p: Peer, id: nat, call: Call, p': Peer)
    requires CanCut(p, id, call) && p' == ApplyCut(p, id, call)
    ensures Touches(p, p', id)
  {
    hide Touches, TakeUnread, LoseCredit, Mute, MarkClosed, ApplyTimeoutOpen;
    match call
    case ReadCall(size) =>
      var count := ReadCount(p.streams[id], size);
      TakeUnreadTouches(p, id, count, TakeUnread(p, id, count));
      LoseCreditTouches(TakeUnread(p, id, count), id, count);
      TouchesTwice(p, TakeUnread(p, id, count), p', id);
    case EofCall => ShortCutTouches(p, id, call, p');
    case CloseCall =>
      MarkClosedTouches(p, id, ClosedHere, MarkClosed(p, id, ClosedHere));
      MuteTouches(MarkClosed(p, id, ClosedHere), id);
      TouchesTwice(p, MarkClosed(p, id, ClosedHere), p', id);
    case OpenTimeout =>
      GiveUpTouches(p, id);
      MuteTouches(ApplyTimeoutOpen(p, id).0, id);
      TouchesTwice(p, ApplyTimeoutOpen(p, id).0, p', id);
    case ListenTimeout => ShortCutTouches(p, id, call, p');
  }

  lemma ShortCutTouches(p: Peer, id: nat, call: Call, p': Peer)
    requires CanCut(p, id, call) && p' == ApplyCut(p, id, call) && (call.EofCall? || call.ListenTimeout?)
    ensures Touches(p, p', id)
  {
    hide SameBut;
    AllMapSteps(p, id);
  }

  lemma ServerTouches(p: Peer, action: Action, p': Peer)
    requires Enabled(p, action) && p' == Apply(p, action).0
    requires action.BeginListen? || action.CompleteListen? || action.Reap?
    ensures Touches(p, p', Concerns(p, action))
  {
    hide SameBut, ApplyCompleteOpen, ApplyRead, ApplyClose;
    AllMapSteps(p, Concerns(p, action));
  }

  lemma CutActionTouches(p: Peer, action: Action, p': Peer)
    requires action.Cut? && Enabled(p, action) && p' == Apply(p, action).0
    ensures Touches(p, p', Concerns(p, action))
  {
    hide Touches, ApplyCut;
    CutTouches(p, action.id, action.call, p');
  }

  lemma GreetingTouches(p: Peer, action: Action, p': Peer)
    requires Enabled(p, action) && p' == Apply(p, action).0
    requires action.SendHello? || action.SendPing?
    ensures Touches(p, p', Concerns(p, action))
  {
    hide SameBut;
    AllMapSteps(p, Concerns(p, action));
  }


  lemma ApplyTouches(p: Peer, action: Action, p': Peer)
    requires Enabled(p, action) && p' == Apply(p, action).0
    ensures Touches(p, p', Concerns(p, action))
  {
    hide Touches, Enabled, Apply, Concerns;
    match action {
      case SendHello => GreetingTouches(p, action, p');
      case SendPing(_) => GreetingTouches(p, action, p');
      case Open(_) => RequesterTouches(p, action, p');
      case OpenUnsent => RequesterTouches(p, action, p');
      case RequestListener(_) => RequesterTouches(p, action, p');
      case ListenUnsent => RequesterTouches(p, action, p');
      case FinishOpen(_) => SettleTouches(p, action, p');
      case TimeoutOpen(_) => SettleTouches(p, action, p');
      case FinishListen(_) => SettleTouches(p, action, p');
      case TimeoutListen(_) => SettleTouches(p, action, p');
      case StartWrite(_, _) => WriterTouches(p, action, p');
      case TakeCredit(_) => WriterTouches(p, action, p');
      case SendChunk(_) => WriterTouches(p, action, p');
      case CancelWrite(_) => WriterTouches(p, action, p');
      case Read(_, _) => StreamTouches(p, action, p');
      case WriteEof(_) => StreamTouches(p, action, p');
      case Close(_, _) => StreamTouches(p, action, p');
      case Cut(id, call) => CutActionTouches(p, action, p');
      case CompleteOpen(_, _) => StreamTouches(p, action, p');
      case BeginListen(_) => ServerTouches(p, action, p');
      case CompleteListen(_, _) => ServerTouches(p, action, p');
      case Reap(_) => ServerTouches(p, action, p');
    }
  }

  // ----- From one stream to the pair ------------------------------------------------------------

  /** At most one frame, for the stream concerned or for none. */
  predicate SmallOutput(out: seq<Frame>, id: nat) {
    |out| <= 1 && (out != [] ==> out[0].id == id || out[0].id == 0)
  }

  lemma OnOutput(channel: seq<Frame>, out: seq<Frame>, id: nat)
    requires |out| <= 1
    ensures On(channel + out, id) == if out != [] && out[0].id == id then On(channel, id) + out else On(channel, id)
  {
    if out == [] {
      assert channel + out == channel;
    } else {
      assert out == [out[0]];
      OnAppend(channel, out[0], id);
    }
  }

  lemma StaleStays(p: Peer, p': Peer, id: nat)
    requires p'.role == p.role && p'.nextId >= p.nextId && p'.highestPeerId >= p.highestPeerId && IsStaleId(p, id)
    ensures IsStaleId(p', id)
  {
  }

  /** Streams a step does not concern stay as they were. */
  lemma OthersOk(s: System, p': Peer, out: seq<Frame>, id: nat, j: nat)
    requires StreamOk(s, j) && j > 0 && j != id
    requires Touches(s.left, p', id) && SmallOutput(out, id)
    ensures StreamOk(s.(left := p', lr := s.lr + out), j)
  {
    hide Joint, Unused, IsStaleId, Waiting, On;
    SideElsewhere(s.left, p', id, j);
    hide Touches, SideOf;
    OnOutput(s.lr, out, j);
    if IsStaleId(s.left, j) { StaleStays(s.left, p', j); }
  }

  /** The stream a step does concern, once its own part of the invariant is proved. */
  lemma ConcernedOk(s: System, p': Peer, out: seq<Frame>, id: nat)
    requires StreamOk(s, id) && Touches(s.left, p', id) && SmallOutput(out, id) && id > 0
    requires Joint(Owns(s.left.role, id), SideOf(p', id), SideOf(s.right, id),
                   if out != [] && out[0].id == id then On(s.lr, id) + out else On(s.lr, id), On(s.rl, id))
    requires !Unused(SideOf(s.left, id), SideOf(s.right, id), On(s.lr, id), On(s.rl, id))
    ensures StreamOk(s.(left := p', lr := s.lr + out), id)
  {
    hide Joint, Unused, IsStaleId, On, SideOf;
    OnOutput(s.lr, out, id);
    if IsStaleId(s.left, id) { StaleStays(s.left, p', id); }
  }
}
