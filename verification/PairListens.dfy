/** What the other side is told of its listener requests, over every run of the pair. */
module PairListens {
  import opened Common
  import opened Json
  import opened MuxState
  import opened MuxLocal
  import opened StreamPair
  import opened StreamSteps
  import opened ListenPair
  import opened MuxPair
  import opened PairChannels
  import opened PairSteps
  import opened PairActions
  import opened PairDeliveries
  import opened PairTheorems

  // ----- What the steps of a peer do to its two records -------------------------------------

  /** Nothing about listeners has changed; a stream of this ID may have ended. */
  ghost predicate Aside(p: Peer, p': Peer, id: nat) {
    AskerAside(AskerOf(p, id), AskerOf(p', id)) && ServerAside(ServerOf(p, id), ServerOf(p', id))
  }

  lemma AsideTwice(p: Peer, p1: Peer, p': Peer, id: nat)
    requires Aside(p, p1, id) && Aside(p1, p', id)
    ensures Aside(p, p', id)
  {
  }

  /** A step that changes streams and nothing else, and puts none there. */
  ghost predicate OnlyStreams(p: Peer, p': Peer, id: nat) {
    && p'.pendingListens == p.pendingListens && p'.pendingOpens == p.pendingOpens
    && p'.requests == p.requests && p'.listeners == p.listeners
    && p'.history.granted == p.history.granted && p'.history.muted == p.history.muted
    && (id in p'.streams ==> id in p.streams)
  }

  lemma OnlyStreamsAside(p: Peer, p': Peer, id: nat)
    requires OnlyStreams(p, p', id)
    ensures Aside(p, p', id)
  {
  }

  lemma MarkClosedAside(p: Peer, id: nat, how: Ending)
    ensures OnlyStreams(p, MarkClosed(p, id, how), id)
  {
  }

  lemma RemoteCloseAside(p: Peer, id: nat)
    ensures OnlyStreams(p, RemoteClose(p, id), id)
  {
    hide MarkClosed;
    MarkClosedAside(p, id, Reset);
  }

  predicate IsListenAction(action: Action) {
    action.RequestListener? || action.FinishListen? || action.TimeoutListen? || action.BeginListen?
      || action.CompleteListen? || (action.Cut? && action.call == ListenTimeout)
  }

  lemma WriterAside(p: Peer, action: Action, p': Peer)
    requires Enabled(p, action) && p' == Apply(p, action).0
    requires action.StartWrite? || action.TakeCredit? || action.SendChunk? || action.CancelWrite?
    ensures Aside(p, p', action.id)
  {
    hide Aside;
    OnlyStreamsAside(p, p', action.id);
  }

  lemma TakeUnreadAside(p: Peer, id: nat, count: nat)
    requires id in p.streams && count <= |p.streams[id].buffer|
    ensures OnlyStreams(p, TakeUnread(p, id, count), id)
  {
  }

  lemma ReaderAside(p: Peer, id: nat, size: int, p': Peer)
    requires id in p.streams && p' == ApplyRead(p, id, size).0
    ensures Aside(p, p', id)
  {
    hide Aside, TakeUnread;
    var count := ReadCount(p.streams[id], size);
    if size != 0 && p.streams[id].buffer != [] { TakeUnreadAside(p, id, count); }
    OnlyStreamsAside(p, p', id);
  }

  lemma EnderAside(p: Peer, id: nat, reason: string, p': Peer)
    requires id in p.streams && (p' == ApplyWriteEof(p, id).0 || p' == ApplyClose(p, id, reason).0)
    ensures Aside(p, p', id)
  {
    hide Aside, MarkClosed;
    MarkClosedAside(p, id, ClosedHere);
    OnlyStreamsAside(p, p', id);
  }

  lemma SettlerAside(p: Peer, action: Action, p': Peer)
    requires Enabled(p, action) && p' == Apply(p, action).0
    requires action.FinishOpen? || action.TimeoutOpen?
    ensures Aside(p, p', action.id)
  {
    hide MarkClosed, Aside;
    MarkClosedAside(p, action.id, ClosedHere);
    SettledAside(p, p', action.id);
  }

  /** An open that is over, its stream ended or kept. */
  lemma SettledAside(p: Peer, p': Peer, id: nat)
    requires OnlyStreams(p, p'.(pendingOpens := p.pendingOpens), id) && p'.pendingOpens == p.pendingOpens - {id}
    ensures Aside(p, p', id)
  {
  }

  lemma ServerTaskAside(p: Peer, action: Action, p': Peer)
    requires Enabled(p, action) && p' == Apply(p, action).0
    requires action.CompleteOpen? || action.Reap?
    ensures Aside(p, p', action.id)
  {
    hide RemoteClose;
    RemoteCloseAside(p, action.id);
  }

  lemma CutAside(p: Peer, id: nat, call: Call, p': Peer)
    requires CanCut(p, id, call) && call != ListenTimeout && p' == ApplyCut(p, id, call)
    ensures Aside(p, p', id)
  {
    hide MarkClosed, TakeUnread, Aside;
    match call
    case ReadCall(size) =>
      TakeUnreadAside(p, id, ReadCount(p.streams[id], size));
      OnlyStreamsAside(p, p', id);
    case EofCall => OnlyStreamsAside(p, p', id);
    case CloseCall =>
      MarkClosedAside(p, id, ClosedHere);
      MutedAside(p, MarkClosed(p, id, ClosedHere), id);
    case OpenTimeout =>
      MarkClosedAside(p, id, ClosedHere);
      MutedAside(p, MarkClosed(p, id, ClosedHere).(pendingOpens := p.pendingOpens - {id}), id);
  }

  /** Muting an ID that was one of a stream. */
  lemma MutedAside(p: Peer, p1: Peer, id: nat)
    requires OnlyStreams(p, p1.(pendingOpens := p.pendingOpens), id)
    requires p1.pendingOpens == p.pendingOpens || p1.pendingOpens == p.pendingOpens - {id}
    requires AskerOf(p, id).busy
    ensures Aside(p, Mute(p1, id), id)
  {
  }

  lemma IdleAside(p: Peer, action: Action, p': Peer)
    requires Enabled(p, action) && p' == Apply(p, action).0
    requires action.SendHello? || action.SendPing? || action.OpenUnsent? || action.ListenUnsent?
    ensures Aside(p, p', Concerns(p, action))
  {
  }

  lemma ActAside(p: Peer, action: Action, p': Peer)
    requires Enabled(p, action) && p' == Apply(p, action).0 && !IsListenAction(action) && !action.Open?
    ensures Aside(p, p', Concerns(p, action))
  {
    hide Aside, ApplyRead, ApplyWriteEof, ApplyClose, ApplyCut;
    match action {
      case FinishOpen(_) => SettlerAside(p, action, p');
      case TimeoutOpen(_) => SettlerAside(p, action, p');
      case StartWrite(_, _) => WriterAside(p, action, p');
      case TakeCredit(_) => WriterAside(p, action, p');
      case SendChunk(_) => WriterAside(p, action, p');
      case CancelWrite(_) => WriterAside(p, action, p');
      case Read(id, size) => ReaderAside(p, id, size, p');
      case WriteEof(id) => EnderAside(p, id, "", p');
      case Close(id, reason) => EnderAside(p, id, reason, p');
      case Cut(id, call) => CutAside(p, id, call, p');
      case CompleteOpen(_, _) => ServerTaskAside(p, action, p');
      case Reap(_) => ServerTaskAside(p, action, p');
      case _ => IdleAside(p, action, p');
    }
  }

  /** What such an action submits says nothing about listeners; a CLOSE is for a stream of its own. */
  lemma ActSendsAside(p: Peer, action: Action, out: seq<Frame>)
    requires Enabled(p, action) && out == Apply(p, action).1 && !IsListenAction(action)
    ensures forall f :: f in out ==>
      f.kind != LISTEN && f.kind != LISTEN_RESULT && (f.kind == CLOSE ==> AskerOf(p, Concerns(p, action)).busy)
  {
    hide MarkClosed, RemoteClose, TakeUnread, ApplyCut;
  }

  // ----- What a received frame does to them -------------------------------------------------

  lemma DataAside(p: Peer, id: nat, data: Bytes, effect: Effect)
    requires id in p.streams && effect == Receive(p, id, data) && effect.Continue?
    ensures OnlyStreams(p, effect.peer, id)
  {
  }

  lemma CreditAside(p: Peer, id: nat, amount: int, effect: Effect)
    requires id in p.streams && effect == AddCredit(p, id, amount) && effect.Continue?
    ensures OnlyStreams(p, effect.peer, id)
  {
  }

  lemma EofAside(p: Peer, id: nat)
    requires id in p.streams
    ensures OnlyStreams(p, ReceiveEof(p, id), id)
  {
  }

  lemma StreamFrameAside(p: Peer, f: Frame, effect: Effect)
    requires f.id in p.streams && effect == DispatchToStream(p, f) && effect.Continue?
    ensures Aside(p, effect.peer, f.id)
  {
    hide Get, Aside, Receive, AddCredit, ReceiveEof, OnlyStreams;
    match f.kind {
      case DATA => DataAside(p, f.id, f.payload.data, effect);
      case WINDOW_UPDATE => CreditAside(p, f.id, Get(f.payload.json.value, "credit").number, effect);
      case _ => EofAside(p, f.id);
    }
    OnlyStreamsAside(p, effect.peer, f.id);
  }

  lemma ResultAside(p: Peer, f: Frame, effect: Effect)
    requires effect == DispatchResult(p, f) && effect.Continue?
    ensures f.kind != LISTEN_RESULT ==> Aside(p, effect.peer, f.id)
    ensures ServerOf(effect.peer, f.id) == ServerOf(p, f.id)
    ensures f.kind == LISTEN_RESULT ==>
      var a := AskerOf(p, f.id);
      AskerOf(effect.peer, f.id) ==
        if a.asked == Some(None) then a.(asked := Some(Some(DecodeResult(f.payload).value))) else a
  {
    hide DecodeResult, IsStaleId;
  }

  lemma HandleCloseIs(p: Peer, f: Frame, p': Peer)
    requires HandleClose(p, f).Continue? && p' == HandleClose(p, f).peer
    ensures var p1 := CancelRequest(p, f.id);
      p' == if f.id in p.streams then RemoteClose(p1, f.id)
            else if f.id in p.listeners then p1.(listeners := p.listeners - {f.id}) else p1
  {
    hide RemoteClose, IsStaleId, Get, CancelRequest;
  }

  lemma CloseFrameEffect(p: Peer, f: Frame, effect: Effect)
    requires effect == HandleClose(p, f) && effect.Continue?
    ensures AskerAside(AskerOf(p, f.id), AskerOf(effect.peer, f.id))
    ensures var b, b' := ServerOf(p, f.id), ServerOf(effect.peer, f.id);
      !b'.running && (b'.stream ==> b.stream) && b'.listening == (b.listening && b.stream)
  {
    hide RemoteClose, HandleClose, CancelRequest, AskerOf, ServerOf;
    HandleCloseIs(p, f, effect.peer);
    var p1 := CancelRequest(p, f.id);
    CancelLeaves(p, f.id);
    if f.id in p.streams {
      RemoteCloseAside(p1, f.id);
      OnlyStreamsAside(p1, effect.peer, f.id);
    } else if f.id in p.listeners {
      DropLeaves(p1, f.id, effect.peer);
    }
  }

  lemma DropLeaves(p: Peer, id: nat, p': Peer)
    requires p' == p.(listeners := p.listeners - {id})
    ensures AskerOf(p', id) == AskerOf(p, id) && ServerOf(p', id) == ServerOf(p, id).(listening := false)
  {
  }

  lemma CancelLeaves(p: Peer, id: nat)
    ensures var p1 := CancelRequest(p, id);
      && AskerOf(p1, id) == AskerOf(p, id) && ServerOf(p1, id) == ServerOf(p, id).(running := false)
      && p1.listeners == p.listeners && p1.streams == p.streams
    ensures ServerOf(p, id).stream == (id in p.streams) && ServerOf(p, id).listening == (id in p.listeners)
  {
  }

  // ----- The pair ---------------------------------------------------------------------------

  /** The requests under one ID: its owner asks, the other side serves. */
  ghost predicate ListenOk(s: System, id: nat) {
    if Owns(s.left.role, id) then ListenInv(AskerOf(s.left, id), ServerOf(s.right, id), On(s.lr, id), On(s.rl, id))
    else ListenInv(AskerOf(s.right, id), ServerOf(s.left, id), On(s.rl, id), On(s.lr, id))
  }

  ghost predicate ListensOk(s: System) { forall id: nat | id > 0 :: ListenOk(s, id) }

  lemma SwapListens(s: System)
    requires s.left.role != s.right.role && ListensOk(s)
    ensures ListensOk(Swap(s))
  {
    hide ListenInv, AskerOf, ServerOf, On;
    forall id: nat | id > 0 ensures ListenOk(Swap(s), id) {
      assert ListenOk(s, id) && Owns(s.left.role, id) == !Owns(s.right.role, id);
    }
  }

  lemma Elsewhere(p: Peer, p': Peer, id: nat, j: nat)
    requires Touches(p, p', id) && j != id
    ensures AskerOf(p', j) == AskerOf(p, j) && ServerOf(p', j) == ServerOf(p, j)
  {
    hide SameBut, Find;
    FindElsewhere(p.streams, p'.streams, id, j);
    FindElsewhere(p.pendingOpens, p'.pendingOpens, id, j);
    FindElsewhere(p.pendingListens, p'.pendingListens, id, j);
    FindElsewhere(p.requests, p'.requests, id, j);
    assert j in p'.history.granted - {id} <==> j in p.history.granted - {id};
    assert j in p'.history.muted - {id} <==> j in p.history.muted - {id};
    assert j in p'.listeners - {id} <==> j in p.listeners - {id};
    ServesFound(p, j);
    ServesFound(p', j);
    hide Serves;
  }

  lemma ServesFound(p: Peer, id: nat)
    ensures Serves(p, id) <==> Find(p.requests, id) == Some(ListenQueued) || Find(p.requests, id) == Some(ListenRunning)
  {
  }

  /** The requests a step of the left peer does not concern. */
  lemma OtherListens(s: System, p': Peer, out: seq<Frame>, id: nat, j: nat)
    requires ListenOk(s, j) && j > 0 && j != id && Touches(s.left, p', id) && SmallOutput(out, id)
    ensures ListenOk(s.(left := p', lr := s.lr + out), j)
  {
    hide ListenInv, AskerOf, ServerOf, On, SameBut;
    Elsewhere(s.left, p', id, j);
    OnOutput(s.lr, out, j);
  }

  // ----- Actions ----------------------------------------------------------------------------

  /** What is left to prove of an action: the requests under the ID it concerns. */
  ghost predicate ActListenOk(s: System, id: nat, p': Peer, out: seq<Frame>) {
    var sent := if out != [] && out[0].id == id then On(s.lr, id) + out else On(s.lr, id);
    if Owns(s.left.role, id) then ListenInv(AskerOf(p', id), ServerOf(s.right, id), sent, On(s.rl, id))
    else ListenInv(AskerOf(s.right, id), ServerOf(p', id), On(s.rl, id), sent)
  }

  lemma ConcludeListen(s: System, p': Peer, out: seq<Frame>, id: nat)
    requires ActListenOk(s, id, p', out) && SmallOutput(out, id) && id > 0 && p'.role == s.left.role
    ensures ListenOk(s.(left := p', lr := s.lr + out), id)
  {
    hide ListenInv, AskerOf, ServerOf, On;
    OnOutput(s.lr, out, id);
  }

  lemma AsideOk(s: System, action: Action, id: nat, p': Peer, out: seq<Frame>)
    requires ListenOk(s, id) && id > 0 && id == Concerns(s.left, action)
    requires Enabled(s.left, action) && Apply(s.left, action) == (p', out) && SmallOutput(out, id)
    requires !IsListenAction(action) && !action.Open?
    ensures ActListenOk(s, id, p', out)
  {
    hide ListenInv, AskerOf, ServerOf, On, Apply, Enabled, IsListenAction, Concerns;
    ActAside(s.left, action, p');
    ActSendsAside(s.left, action, out);
    if out != [] && out[0].id == id {
      assert out == [out[0]] && out[0] in out;
      if Owns(s.left.role, id) {
        AskerSendsAside(AskerOf(s.left, id), ServerOf(s.right, id), On(s.lr, id), On(s.rl, id), AskerOf(p', id),
          out[0]);
      } else {
        ServerSendsAside(AskerOf(s.right, id), ServerOf(s.left, id), On(s.rl, id), On(s.lr, id), ServerOf(p', id),
          out[0]);
      }
    } else if Owns(s.left.role, id) {
      AskerActsAside(AskerOf(s.left, id), ServerOf(s.right, id), On(s.lr, id), On(s.rl, id), AskerOf(p', id));
    } else {
      ServerActsAside(AskerOf(s.right, id), ServerOf(s.left, id), On(s.rl, id), On(s.lr, id), ServerOf(p', id));
    }
  }

  /** The next ID is not in use on the other side. */
  lemma ServerKnowsNothing(s: System, id: nat)
    requires Inv(s) && id == s.left.nextId
    ensures ServerOf(s.right, id) == Server(false, false, false)
    ensures Owns(s.left.role, id) && id > 0
  {
    hide StreamOk, AllHonest, Handshake, Accounts, Limits, QuietBeforeReady;
    assert Ids(s.left) && Ids(s.right);
    assert s.right.highestPeerId < s.left.nextId;
  }

  lemma FreshId(s: System, id: nat)
    requires Inv(s) && ListenOk(s, id) && id == s.left.nextId
    ensures On(s.lr, id) == [] && On(s.rl, id) == [] && AskerOf(s.left, id) == Asker(None, false, false, false)
  {
    hide StreamInv, SideOf, On, ChannelInv, PeerInv, Configured;
    ServerKnowsNothing(s, id);
    assert StreamOk(s, id);
    NextIdUnused(s);
    SideTells(s.left, id);
    hide AskerOf, ServerOf;
  }

  lemma SideTells(p: Peer, id: nat)
    requires SideOf(p, id) == NO_SIDE
    ensures var a := AskerOf(p, id); a == Asker(None, a.granted, false, false)
  {
    hide Log, Count;
  }

  lemma RequestOk(s: System, action: Action, id: nat, p': Peer, out: seq<Frame>)
    requires Inv(s) && ListenOk(s, id) && id == s.left.nextId
    requires (action.RequestListener? || action.Open?) && Enabled(s.left, action) && Apply(s.left, action) == (p', out)
    ensures ActListenOk(s, id, p', out)
  {
    hide Inv, ListenInv, On, Serves;
    FreshId(s, id);
    ServerKnowsNothing(s, id);
    var a, b := AskerOf(s.left, id), ServerOf(s.right, id);
    assert out == [out[0]];
    if action.RequestListener? {
      RequestStep(a, b, [], [], AskerOf(p', id), out[0]);
    } else {
      OpenedStep(a, b, AskerOf(p', id), out[0]);
    }
  }

  lemma OpenedStep(a: Asker, b: Server, a': Asker, f: Frame)
    requires a == Asker(None, false, false, false) && b == Server(false, false, false)
    requires a' == a.(busy := true) && f.kind == OPEN
    ensures ListenInv(a', b, [] + [f], [])
  {
    hide Has, HasRefusal, Data, Credits;
    Sent([], f);
    Nothing();
  }

  lemma SettleOk(s: System, action: Action, id: nat, p': Peer, out: seq<Frame>)
    requires PeersInv(s) && ListenOk(s, id) && id > 0 && id == Concerns(s.left, action)
    requires Enabled(s.left, action) && Apply(s.left, action) == (p', out)
    requires action.FinishListen? || action.TimeoutListen? || (action.Cut? && action.call == ListenTimeout)
    ensures ActListenOk(s, id, p', out)
  {
    hide PeersInv, ListenInv, On, Owns, MarkClosed;
    OwnIds(s, s.left, id);
    var a, b, ab, ba := AskerOf(s.left, id), ServerOf(s.right, id), On(s.lr, id), On(s.rl, id);
    match action {
      case FinishListen(_) => SettledStep(a, b, ab, ba, AskerOf(p', id));
      case TimeoutListen(_) => GiveUpStep(a, b, ab, ba, AskerOf(p', id), out[0]); assert out == [out[0]];
      case Cut(_, _) => GiveUpCutStep(a, b, ab, ba, AskerOf(p', id));
    }
  }

  lemma ServeOk(s: System, action: Action, id: nat, p': Peer, out: seq<Frame>)
    requires PeersInv(s) && ListenOk(s, id) && id > 0 && id == Concerns(s.left, action)
    requires Enabled(s.left, action) && Apply(s.left, action) == (p', out)
    requires action.BeginListen? || action.CompleteListen?
    ensures ActListenOk(s, id, p', out)
  {
    hide PeersInv, ListenInv, On, Owns, DecodeResult;
    OwnIds(s, s.left, id);
    var a, b, ab, ba := AskerOf(s.right, id), ServerOf(s.left, id), On(s.rl, id), On(s.lr, id);
    var ok := action.CompleteListen? && action.ok;
    ResultSays(LISTEN_RESULT, id, ok);
    NotListening(a, b, ab, ba);
    if out == [] {
      ServerActsAside(a, b, ab, ba, ServerOf(p', id));
    } else {
      AnswerStep(a, b, ab, ba, ServerOf(p', id), out[0], ok);
      assert out == [out[0]];
    }
  }

  lemma NotListening(a: Asker, b: Server, ab: seq<Frame>, ba: seq<Frame>)
    requires ListenInv(a, b, ab, ba)
    ensures b.running ==> !b.listening
  {
  }

  lemma ActListenConcerned(s: System, action: Action, id: nat, p': Peer, out: seq<Frame>)
    requires Inv(s) && ListenOk(s, id) && id > 0 && id == Concerns(s.left, action) && SmallOutput(out, id)
    requires Enabled(s.left, action) && Apply(s.left, action) == (p', out)
    ensures ActListenOk(s, id, p', out)
  {
    hide PeerInv, ChannelInv, StreamOk, Configured, ListenOk, ActListenOk, Apply, Enabled, SmallOutput;
    if action.RequestListener? || action.Open? {
      hide Inv;
      RequestOk(s, action, id, p', out);
    } else if action.BeginListen? || action.CompleteListen? {
      ServeOk(s, action, id, p', out);
    } else if IsListenAction(action) {
      SettleOk(s, action, id, p', out);
    } else {
      AsideOk(s, action, id, p', out);
    }
  }

  lemma ActKeepsListens(s: System, action: Action, s': System)
    requires Inv(s) && ListensOk(s) && StepLeft(s, Act(action)) == Next(s')
    ensures ListensOk(s')
  {
    hide Inv, ListenOk, Apply, Enabled, Touches, OutputOk;
    var (p', out) := Apply(s.left, action);
    var k := Concerns(s.left, action);
    ActFacts(s, action, p', out);
    forall id: nat | id > 0 ensures ListenOk(s', id) {
      if id == k {
        ActListenConcerned(s, action, id, p', out);
        ConcludeListen(s, p', out, id);
      } else {
        OtherListens(s, p', out, k, id);
      }
    }
  }

  lemma ActFacts(s: System, action: Action, p': Peer, out: seq<Frame>)
    requires Inv(s) && Enabled(s.left, action) && Apply(s.left, action) == (p', out)
    ensures Touches(s.left, p', Concerns(s.left, action)) && SmallOutput(out, Concerns(s.left, action))
    ensures p'.role == s.left.role
  {
    hide PeerInv, ChannelInv, StreamOk, Configured, Apply, Enabled, SameBut, Honest;
    ApplyTouches(s.left, action, p');
    ActOutput(s.left, action, p', out);
  }

  // ----- Deliveries -------------------------------------------------------------------------

  /** What is left to prove of a delivery: the requests under the ID of the frame. */
  ghost predicate DeliveryListenOk(s: System, f: Frame, p': Peer, out: seq<Frame>) {
    var sent, left := if out != [] then On(s.lr, f.id) + out else On(s.lr, f.id), On(Rest(s.rl), f.id);
    if Owns(s.left.role, f.id) then ListenInv(AskerOf(p', f.id), ServerOf(s.right, f.id), sent, left)
    else ListenInv(AskerOf(s.right, f.id), ServerOf(p', f.id), left, sent)
  }

  lemma StreamFrameListens(s: System, f: Frame, effect: Effect)
    requires ListenOk(s, f.id) && s.rl != [] && s.rl[0] == f && effect.Continue? && effect.out == []
    requires f.kind != LISTEN && f.kind != CLOSE && f.kind != LISTEN_RESULT && Aside(s.left, effect.peer, f.id)
    ensures DeliveryListenOk(s, f, effect.peer, effect.out)
  {
    hide ListenInv, On, AskerOf, ServerOf;
    Head(s, f);
    if Owns(s.left.role, f.id) {
      ReturnsAside(AskerOf(s.left, f.id), ServerOf(s.right, f.id), On(s.lr, f.id), On(s.rl, f.id),
        AskerOf(effect.peer, f.id));
    } else {
      ArrivesAside(AskerOf(s.right, f.id), ServerOf(s.left, f.id), On(s.rl, f.id), On(s.lr, f.id),
        ServerOf(effect.peer, f.id));
    }
  }

  /** Behind a request or a CLOSE there is no request. */
  lemma OneRequest(frames: seq<Frame>)
    requires Ordered(frames) && frames != []
    ensures !Has(frames[1..], LISTEN)
  {
    hide IsResult;
    assert forall i :: 0 <= i < |frames| - 1 ==> MayFollow(frames[0], frames[i + 1]) && frames[1..][i] == frames[i + 1];
  }

  lemma DueOrdered(s: System, f: Frame)
    requires Due(s, f)
    ensures Ordered(On(s.rl, f.id)) && On(s.rl, f.id) != []
  {
    hide PeersInv, RequestOrder, Honest, On, SideOf, Known, Flow, Opening, Pending, Serving, Closing, Has, Ordered;
    Head(s, f);
  }

  lemma CloseListens(s: System, f: Frame, effect: Effect)
    requires Due(s, f) && ListenOk(s, f.id) && f.kind == CLOSE && effect == HandleClose(s.left, f) && effect.Continue?
    requires effect.out == []
    ensures DeliveryListenOk(s, f, effect.peer, effect.out)
  {
    hide Due, ListenInv, On, AskerOf, ServerOf, HandleClose, Ordered, Has;
    DueHead(s, f);
    DueOrdered(s, f);
    OneRequest(On(s.rl, f.id));
    CloseFrameEffect(s.left, f, effect);
    if Owns(s.left.role, f.id) {
      ReturnsAside(AskerOf(s.left, f.id), ServerOf(s.right, f.id), On(s.lr, f.id), On(s.rl, f.id),
        AskerOf(effect.peer, f.id));
    } else {
      CloseArrivesStep(AskerOf(s.right, f.id), ServerOf(s.left, f.id), On(s.rl, f.id), On(s.lr, f.id),
        ServerOf(effect.peer, f.id));
    }
  }

  lemma DueHead(s: System, f: Frame)
    requires Due(s, f)
    ensures s.rl != [] && s.rl[0] == f && f.id > 0
    ensures On(s.rl, f.id) != [] && On(s.rl, f.id)[0] == f && On(s.rl, f.id)[1..] == On(Rest(s.rl), f.id)
  {
    hide PeersInv, RequestOrder, Honest, On, StreamOk;
    Head(s, f);
  }

  /** An ID that arrives in a request has left no trace on this side. */
  lemma NewToServer(p: Peer, id: nat)
    requires PeerInv(p) && !Owns(p.role, id) && id > p.highestPeerId
    ensures ServerOf(p, id) == Server(false, false, false)
  {
    hide Accounts, Limits, QuietBeforeReady;
  }

  lemma LeftInv(s: System)
    requires PeersInv(s)
    ensures PeerInv(s.left)
  {
    hide PeerInv, Configured;
  }

  lemma LeftInvDue(s: System, f: Frame)
    requires Due(s, f)
    ensures PeersInv(s)
  {
    hide PeersInv, RequestOrder, Honest, StreamOk;
  }

  lemma OpenListens(s: System, f: Frame, effect: Effect)
    requires Due(s, f) && ListenOk(s, f.id) && f.kind == OPEN && effect == StartOpen(s.left, f)
    ensures effect.Continue? && DeliveryListenOk(s, f, effect.peer, effect.out)
  {
    hide Due, ListenInv, On, AskerOf, StartOpen, Ordered, Has, ResultFrame, NEW_END, PeerInv;
    DueHead(s, f);
    DueOrdered(s, f);
    OneRequest(On(s.rl, f.id));
    Arriving(s, f);
    LeftInvDue(s, f);
    LeftInv(s);
    NewToServer(s.left, f.id);
    StartOpenEffect(s.left, f, effect);
    OpenedServer(s.left, f, effect);
    hide ServerOf, Admits;
    NothingBack();
    OpenArrivesStep(AskerOf(s.right, f.id), ServerOf(s.left, f.id), On(s.rl, f.id), [], ServerOf(effect.peer, f.id));
    if effect.out != [] {
      RefusalShape(f.id);
      assert effect.out == [effect.out[0]] && [] + effect.out == effect.out;
      ServerSendsAside(AskerOf(s.right, f.id), ServerOf(effect.peer, f.id), On(Rest(s.rl), f.id), [],
        ServerOf(effect.peer, f.id), effect.out[0]);
    }
  }

  lemma NothingBack()
    ensures !Has([], LISTEN_RESULT)
  {
  }

  lemma OpenedServer(p: Peer, f: Frame, effect: Effect)
    requires effect == StartOpen(p, f) && effect.Continue? && ServerOf(p, f.id) == Server(false, false, false)
    ensures ServerOf(effect.peer, f.id) == Server(false, false, ServerOf(effect.peer, f.id).stream)
  {
    hide StartOpen, Owns, NEW_END;
    StartOpenCases(p, f, effect.peer);
  }

  lemma ListenListens(s: System, f: Frame, effect: Effect)
    requires Due(s, f) && ListenOk(s, f.id) && f.kind == LISTEN && effect == StartListen(s.left, f)
    ensures effect.Continue? && DeliveryListenOk(s, f, effect.peer, effect.out)
  {
    hide Due, ListenInv, On, AskerOf, StartListen, Ordered, Has, ResultFrame, NEW_END, DecodeResult, PeerInv;
    DueHead(s, f);
    DueOrdered(s, f);
    OneRequest(On(s.rl, f.id));
    Arriving(s, f);
    LeftInvDue(s, f);
    LeftInv(s);
    NewToServer(s.left, f.id);
    StartListenEffect(s.left, f, effect);
    QueuedServer(s.left, f, effect);
    hide ServerOf, Admits;
    var a, b, ab := AskerOf(s.right, f.id), ServerOf(s.left, f.id), On(s.rl, f.id);
    if effect.out == [] {
      AdmitStep(a, b, ab, [], ServerOf(effect.peer, f.id));
    } else {
      RefusalShape(f.id);
      ResultSays(LISTEN_RESULT, f.id, false);
      assert effect.out == [effect.out[0]] && [] + effect.out == effect.out;
      RefuseListenStep(a, b, ab, [], effect.out[0]);
    }
  }

  lemma QueuedServer(p: Peer, f: Frame, effect: Effect)
    requires effect == StartListen(p, f) && effect.Continue? && ServerOf(p, f.id) == Server(false, false, false)
    ensures ServerOf(effect.peer, f.id) == Server(effect.out == [], false, false)
  {
    hide Owns, ResultFrame;
  }

  lemma AnswerListens(s: System, f: Frame, effect: Effect)
    requires Due(s, f) && ListenOk(s, f.id) && f.kind == LISTEN_RESULT && effect == DispatchResult(s.left, f)
    requires effect.Continue? && effect.out == []
    ensures DeliveryListenOk(s, f, effect.peer, effect.out)
  {
    hide Due, ListenInv, On, AskerOf, ServerOf, DispatchResult, DecodeResult;
    DueHead(s, f);
    ResultAside(s.left, f, effect);
    if Owns(s.left.role, f.id) {
      ResultIsGood(s.left, f, effect);
      AnswerArrivesStep(AskerOf(s.left, f.id), ServerOf(s.right, f.id), On(s.lr, f.id), On(s.rl, f.id),
        AskerOf(effect.peer, f.id), DecodeResult(f.payload).value);
    } else {
      ArrivesAside(AskerOf(s.right, f.id), ServerOf(s.left, f.id), On(s.rl, f.id), On(s.lr, f.id),
        ServerOf(effect.peer, f.id));
    }
  }

  lemma ResultIsGood(p: Peer, f: Frame, effect: Effect)
    requires effect == DispatchResult(p, f) && effect.Continue?
    ensures DecodeResult(f.payload).Success?
  {
    hide DecodeResult, IsStaleId;
  }

  /** Every frame in flight for an ID, delivered. */
  lemma FrameListens(s: System, f: Frame, effect: Effect)
    requires Due(s, f) && ListenOk(s, f.id) && effect == Dispatch(s.left, f) && effect.Continue?
    ensures DeliveryListenOk(s, f, effect.peer, effect.out)
  {
    hide Due, ListenOk, DeliveryListenOk, StartOpen, StartListen, HandleClose, DispatchResult, DispatchToStream,
      ReceiveHello, ReceiveHelloAck, ValidateFrameShape, IsStaleId;
    DueShape(s, f);
    match f.kind {
      case OPEN => OpenListens(s, f, effect);
      case LISTEN => ListenListens(s, f, effect);
      case CLOSE =>
        HandleCloseCases(s.left, f, effect.peer);
        CloseListens(s, f, effect);
      case LISTEN_RESULT =>
        ResultKeepsIds(s.left, f, effect.peer);
        AnswerListens(s, f, effect);
      case OPEN_RESULT =>
        ResultKeepsIds(s.left, f, effect.peer);
        ResultAside(s.left, f, effect);
        DueHead(s, f);
        StreamFrameListens(s, f, effect);
      case HELLO => case HELLO_ACK => case PING => case PONG =>
      case _ =>
        DueHead(s, f);
        if f.id in s.left.streams {
          StreamFrameAside(s.left, f, effect);
          StreamFrameSilent(s.left, f, effect);
        } else {
          SameAside(s.left, f.id);
        }
        StreamFrameListens(s, f, effect);
    }
  }

  lemma DueShape(s: System, f: Frame)
    requires Due(s, f)
    ensures !IsGlobal(f.kind) && Ready(s.left)
  {
    DueKind(s, f);
    DueReady(s, f);
  }

  lemma SameAside(p: Peer, id: nat)
    ensures Aside(p, p, id)
  {
  }

  lemma StreamFrameSilent(p: Peer, f: Frame, effect: Effect)
    requires f.id in p.streams && effect == DispatchToStream(p, f) && effect.Continue?
    ensures effect.out == []
  {
    hide Get;
  }

  lemma OtherListensAfter(s: System, p': Peer, out: seq<Frame>, id: nat, j: nat)
    requires ListenOk(s, j) && j > 0 && j != id && Touches(s.left, p', id) && SmallOutput(out, id)
    requires s.rl != [] && (s.rl[0].id == id || s.rl[0].id == 0)
    ensures ListenOk(After(s, p', out), j)
  {
    hide ListenInv, On, AskerOf, ServerOf, Touches;
    OnDeliver(s.rl, j);
    var s1 := s.(rl := Rest(s.rl));
    assert ListenOk(s1, j);
    hide ListenOk;
    OtherListens(s1, p', out, id, j);
  }

  lemma ConcludeDelivery(s: System, f: Frame, p': Peer, out: seq<Frame>)
    requires DeliveryListenOk(s, f, p', out) && (out == [] || (|out| == 1 && out[0].id == f.id))
    requires p'.role == s.left.role
    ensures ListenOk(After(s, p', out), f.id)
  {
    hide ListenInv, On, AskerOf, ServerOf;
    OnOutput(s.lr, out, f.id);
  }

  lemma StreamDeliveryKeepsListens(s: System, f: Frame)
    requires Inv(s) && ListensOk(s) && s.rl != [] && s.rl[0] == f && f.id > 0
    ensures Dispatch(s.left, f).Continue?
    ensures var effect := Dispatch(s.left, f); ListensOk(After(s, effect.peer, effect.out))
  {
    hide Inv, ListenOk, Dispatch, Touches, Due, StreamOk, SideEffects, SmallOutput, DeliveryListenOk;
    DueNow(s, f);
    FrameOk(s, f);
    var effect := Dispatch(s.left, f);
    assert ListenOk(s, f.id);
    FrameListens(s, f, effect);
    FrameAnswers(s, f, effect);
    TouchesConfig(s.left, effect.peer, f.id);
    forall id: nat | id > 0 ensures ListenOk(After(s, effect.peer, effect.out), id) {
      if id != f.id {
        OtherListensAfter(s, effect.peer, effect.out, f.id, id);
      } else {
        ConcludeDelivery(s, f, effect.peer, effect.out);
      }
    }
  }

  lemma FrameAnswers(s: System, f: Frame, effect: Effect)
    requires Due(s, f) && effect == Dispatch(s.left, f) && effect.Continue?
    ensures effect.out == [] || (|effect.out| == 1 && effect.out[0].id == f.id)
  {
    hide Due, Dispatch;
    DueKind(s, f);
    FrameSideEffects(s.left, f);
  }

  lemma GlobalListens(s: System, f: Frame, effect: Effect, j: nat)
    requires HandledGlobally(s, f, effect) && ListenOk(s, j) && j > 0 && s.rl != [] && s.rl[0] == f && f.id == 0
    ensures ListenOk(After(s, effect.peer, effect.out), j)
  {
    hide ListenInv, On, Submits, Receives;
    OnDeliver(s.rl, j);
    OnOutput(s.lr, effect.out, j);
  }

  lemma GlobalDeliveryKeepsListens(s: System, f: Frame)
    requires Inv(s) && ListensOk(s) && s.rl != [] && s.rl[0] == f && f.id == 0
    ensures Dispatch(s.left, f).Continue?
    ensures var effect := Dispatch(s.left, f); ListensOk(After(s, effect.peer, effect.out))
  {
    hide PeerInv, ChannelInv, StreamOk, ListenOk, Dispatch, Configured, HandledGlobally;
    GlobalFrameOk(s, f);
    var effect := Dispatch(s.left, f);
    ContinuesGlobally(s, f, effect);
    forall id: nat | id > 0 ensures ListenOk(After(s, effect.peer, effect.out), id) {
      GlobalListens(s, f, effect, id);
    }
  }

  lemma ContinuesGlobally(s: System, f: Frame, effect: Effect)
    requires HandledGlobally(s, f, effect)
    ensures effect.Continue?
  {
  }

  lemma DeliveryKeepsListens(s: System)
    requires Inv(s) && ListensOk(s) && s.rl != []
    ensures StepLeft(s, Deliver).Next? && ListensOk(StepLeft(s, Deliver).system)
  {
    hide Inv, ListensOk, Dispatch;
    if s.rl[0].id > 0 { StreamDeliveryKeepsListens(s, s.rl[0]); } else { GlobalDeliveryKeepsListens(s, s.rl[0]); }
  }

  // ----- Runs -------------------------------------------------------------------------------

  lemma SameListenFrames(s: System, s': System, id: nat, a: seq<Frame>, hello: Frame, b: seq<Frame>)
    requires ListenOk(s, id) && s'.left == s.left && s'.right == s.right && s'.rl == s.rl && hello.id != id
    requires (s.lr == a + [hello] + b && s'.lr == a + b) || (s.lr == a + b && s'.lr == a + [hello] + b)
    ensures ListenOk(s', id)
  {
    hide ListenInv, On, AskerOf, ServerOf;
    OnWithout(a, hello, b, id);
  }

  lemma HelloKeepsListens(s: System, at: nat)
    requires Inv(s) && ListensOk(s) && HelloAt(s.lr, at)
    ensures ListensOk(s.(lr := s.lr[..at] + s.lr[at + 1..]))
    ensures ListensOk(s.(lr := s.lr[..at] + [s.lr[at]] + s.lr[at..]))
  {
    hide Inv, ListenOk;
    HelloIsGlobal(s, at);
    var a, hello, b, b' := s.lr[..at], s.lr[at], s.lr[at + 1..], s.lr[at..];
    assert s.lr == a + [hello] + b && s.lr == a + b';
    forall id: nat | id > 0 ensures ListenOk(s.(lr := a + b), id) && ListenOk(s.(lr := a + [hello] + b'), id) {
      SameListenFrames(s, s.(lr := a + b), id, a, hello, b);
      SameListenFrames(s, s.(lr := a + [hello] + b'), id, a, hello, b');
    }
  }

  lemma StepKeepsListens(s: System, event: Event)
    requires Inv(s) && ListensOk(s)
    ensures StepLeft(s, event).Next? ==> ListensOk(StepLeft(s, event).system)
  {
    hide Inv, ListensOk, Enabled, Apply, Dispatch;
    match event {
      case Act(action) => if Enabled(s.left, action) { ActKeepsListens(s, action, StepLeft(s, event).system); }
      case Deliver => if s.rl != [] { DeliveryKeepsListens(s); }
      case LoseHello(at) => if HelloAt(s.lr, at) { HelloKeepsListens(s, at); }
      case RepeatHello(at) => if HelloAt(s.lr, at) { HelloKeepsListens(s, at); }
    }
  }

  lemma OppositeRoles(s: System)
    requires Inv(s)
    ensures s.left.role != s.right.role
  {
    hide PeerInv, ChannelInv, StreamOk, Configured;
  }

  lemma TakeKeepsListens(s: System, step: Step)
    requires Inv(s) && ListensOk(s) && Take(s, step).Next?
    ensures Inv(Take(s, step).system) && ListensOk(Take(s, step).system)
  {
    hide Inv, ListensOk, StepLeft;
    TakeSurvives(s, step);
    if step.onLeft {
      StepKeepsListens(s, step.event);
    } else {
      OppositeRoles(s);
      SwapInv(s);
      SwapListens(s);
      StepKeepsListens(Swap(s), step.event);
      var s' := StepLeft(Swap(s), step.event).system;
      OppositeRoles(Swap(s'));
      SwapListens(s');
    }
  }

  lemma {:induction false} RunKeepsListens(s: System, steps: seq<Step>)
    requires Inv(s) && ListensOk(s) && Run(s, steps).Next?
    ensures ListensOk(Run(s, steps).system)
    decreases |steps|
  {
    hide Inv, ListensOk, Take;
    if steps != [] {
      TakeKeepsListens(s, steps[0]);
      RunKeepsListens(Take(s, steps[0]).system, steps[1..]);
    }
  }

  lemma InitialListens(s: System)
    requires Initial(s)
    ensures ListensOk(s)
  {
    hide Configured;
  }

  lemma ReachableListens(s: System)
    requires Reachable(s)
    ensures ListensOk(s)
  {
    hide Inv, Initial, Run, ListensOk;
    var start, steps :| Initial(start) && Run(start, steps) == Next(s);
    InitialInv(start);
    InitialListens(start);
    RunKeepsListens(start, steps);
  }

  // ----- What follows -----------------------------------------------------------------------

  lemma OwnRequest(s: System, id: nat)
    requires Reachable(s) && id > 0 && Owns(s.left.role, id)
    ensures ListenInv(AskerOf(s.left, id), ServerOf(s.right, id), On(s.lr, id), On(s.rl, id))
  {
    hide Reachable, ListenInv, AskerOf, ServerOf, On;
    ReachableListens(s);
    assert ListenOk(s, id);
  }

  lemma AskedIsOwn(s: System, id: nat)
    requires Reachable(s) && id in s.left.pendingListens
    ensures id > 0 && Owns(s.left.role, id)
  {
    hide Reachable, ChannelInv, StreamOk, Accounts, Limits, QuietBeforeReady;
    ReachableInv(s);
  }

  /** A frame whose JSON says that `ok` is so, or not. */
  predicate Says(f: Frame, ok: bool) {
    f.payload.json.Some? && "ok" in f.payload.json.value && f.payload.json.value["ok"] == Bool(ok)
  }

  /**
   What a request for a listener is told is true. While its answer is on its way, the answer says that there is a
   listener exactly if the other side has one under this ID; and so it is when the answer has arrived.
   */
  lemma AnswersAreTrue(s: System, id: nat)
    requires Reachable(s) && id in s.left.pendingListens
    ensures var answer := s.left.pendingListens[id];
      && (answer.Some? ==> (answer.value <==> id in s.right.listeners))
      && (answer.None? ==>
            forall i :: 0 <= i < |On(s.rl, id)| && On(s.rl, id)[i].kind == LISTEN_RESULT ==>
              Says(On(s.rl, id)[i], id in s.right.listeners))
  {
    hide Reachable, Has, OneAnswer, On;
    AskedIsOwn(s, id);
    OwnRequest(s, id);
  }

  /** A listener that was granted is there, for as long as the tunnel is. */
  lemma GrantedIsThere(s: System, id: nat)
    requires Reachable(s) && id > 0 && Owns(s.left.role, id) && id in s.left.history.granted
    ensures id in s.right.listeners
  {
    hide Reachable, Has, OneAnswer, AnswersSay, On;
    OwnRequest(s, id);
  }

  /** A request waits for its answer exactly as long as it is on its way, being served, or answered by a frame. */
  lemma NoRequestWaitsInVain(s: System, id: nat)
    requires Reachable(s) && id in s.left.pendingListens
    ensures s.left.pendingListens[id].None? <==>
      Has(On(s.lr, id), LISTEN) || Serves(s.right, id) || Has(On(s.rl, id), LISTEN_RESULT)
  {
    hide Reachable, Has, OneAnswer, AnswersSay, On, Serves;
    AskedIsOwn(s, id);
    OwnRequest(s, id);
  }

  /**
   With nothing on its way for an ID, the other side serves or keeps a listener under it only for a request that
   still waits or was told so, or for one that was given up with its CLOSE cancelled.
   */
  lemma QuietListenersAgree(s: System, id: nat)
    requires Reachable(s) && id > 0 && Owns(s.left.role, id) && On(s.lr, id) == [] && On(s.rl, id) == []
    ensures id in s.left.pendingListens && s.left.pendingListens[id].None? ==>
      Serves(s.right, id) && id !in s.right.listeners
    ensures id !in s.left.history.muted ==>
      (id in s.right.listeners <==>
         id in s.left.history.granted || (id in s.left.pendingListens && s.left.pendingListens[id] == Some(true)))
    ensures id !in s.left.history.muted ==>
      (Serves(s.right, id) <==> id in s.left.pendingListens && s.left.pendingListens[id].None?)
  {
    hide Reachable, OneAnswer, AnswersSay, Serves;
    OwnRequest(s, id);
    Nothing();
    hide On, Has;
  }

  /** It happens that a listener stays which nobody has: a request given up without the CLOSE that says so. */
  lemma ForgottenListenerStays(s: System, id: nat) returns (s': System)
    requires Reachable(s) && id in s.left.pendingListens && id in s.right.listeners
    ensures Take(s, Step(true, Act(Cut(id, ListenTimeout)))) == Next(s')
    ensures id in s'.right.listeners && id !in s'.left.pendingListens && id !in s'.left.history.granted
    ensures s'.lr == s.lr && s'.rl == s.rl && !Has(On(s'.lr, id), CLOSE)
  {
    hide Reachable, Has, OneAnswer, AnswersSay, On;
    AskedIsOwn(s, id);
    OwnRequest(s, id);
    s' := s.(left := ApplyCut(s.left, id, ListenTimeout));
    assert s.lr + [] == s.lr;
  }
}
