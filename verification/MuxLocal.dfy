/**
 What every step of one peer keeps, whatever the other peer sends: exact accounting, the limits on
 memory, streams and listeners, and the discipline of IDs.
 */
module MuxLocal {
  import opened Common
  import opened Json
  import opened MuxState

  // ----- Totals over the streams map --------------------------------------------------------

  datatype Amount = Unread | Reserved

  function Of(e: End, what: Amount): int {
    match what case Unread => |e.buffer| case Reserved => e.outReserved
  }

  ghost function Total(streams: map<nat, End>, what: Amount): int {
    if streams == map[] then 0
    else
      var id :| id in streams;
      Of(streams[id], what) + Total(streams - {id}, what)
  }

  lemma {:induction false} TotalWithout(streams: map<nat, End>, id: nat, what: Amount)
    requires id in streams
    ensures Total(streams, what) == Of(streams[id], what) + Total(streams - {id}, what)
    decreases |streams|
  {
    var first :| first in streams && Total(streams, what) == Of(streams[first], what) + Total(streams - {first}, what);
    if first != id {
      TotalWithout(streams - {first}, id, what);
      TotalWithout(streams - {id}, first, what);
      assert streams - {first} - {id} == streams - {id} - {first};
    }
  }

  lemma TotalUpdate(streams: map<nat, End>, id: nat, e: End, what: Amount)
    ensures Total(streams[id := e], what) == Of(e, what) + Total(streams - {id}, what)
  {
    TotalWithout(streams[id := e], id, what);
    assert streams[id := e] - {id} == streams - {id};
  }

  lemma TotalAbsent(streams: map<nat, End>, id: nat, what: Amount)
    requires id !in streams
    ensures streams - {id} == streams
  {
  }

  lemma {:induction false} TotalBound(streams: map<nat, End>, what: Amount)
    requires forall id :: id in streams ==> 0 <= Of(streams[id], what) <= INITIAL_WINDOW
    ensures 0 <= Total(streams, what) <= |streams| * INITIAL_WINDOW
    decreases |streams|
  {
    if streams != map[] {
      var id :| id in streams;
      TotalWithout(streams, id, what);
      assert |streams - {id}| == |streams| - 1;
      TotalBound(streams - {id}, what);
      assert |streams| * INITIAL_WINDOW == |streams - {id}| * INITIAL_WINDOW + INITIAL_WINDOW;
    }
  }

  // ----- The invariant ----------------------------------------------------------------------

  /** The window is shared out exactly between what can still arrive and what is unread. */
  ghost predicate EndOk(e: End) {
    && 0 <= e.sendCredit && 0 <= e.outReserved && 0 <= e.recvCredit
    && e.recvCredit + |e.buffer| == INITIAL_WINDOW
    && (!e.closed ==> e.sendCredit + |e.taken| + e.outReserved == INITIAL_WINDOW)
    && (e.closed ==> e.sendCredit == INITIAL_WINDOW && e.outReserved == 0 && e.buffer != [] && e.remoteEof)
    && (e.localEof ==> Idle(e))
    && |e.taken| <= CHUNK_SIZE
  }

  ghost predicate Accounts(p: Peer) {
    && p.inBuffered == Total(p.streams, Unread) <= MAX_BUFFERED_DATA
    && p.outBuffered == Total(p.streams, Reserved) <= MAX_BUFFERED_DATA
    && forall id :: id in p.streams ==> EndOk(p.streams[id])
  }

  function RunningListens(p: Peer): set<nat> {
    set id | id in p.requests && p.requests[id] in {ListenQueued, ListenRunning}
  }

  ghost predicate Limits(p: Peer) {
    && |p.streams| <= p.maxStreams
    && |p.listeners + RunningListens(p)| <= p.maxStreams
    && p.listeners !! RunningListens(p)
  }

  /** Every ID in use was allocated here, or by the other peer. */
  ghost predicate Ids(p: Peer) {
    && Owns(p.role, p.nextId) && 0 < p.nextId <= MAX_STREAM_ID + 2
    && (p.highestPeerId == 0 || !Owns(p.role, p.highestPeerId))
    && (forall id :: id in p.streams ==> IsStaleId(p, id))
    && (forall id :: id in p.pendingOpens ==> Owns(p.role, id) && IsStaleId(p, id))
    && (forall id :: id in p.pendingListens ==> Owns(p.role, id) && IsStaleId(p, id))
    && (forall id :: id in p.requests ==> !Owns(p.role, id) && IsStaleId(p, id))
    && (forall id :: id in p.listeners ==> !Owns(p.role, id) && IsStaleId(p, id))
  }

  ghost predicate QuietBeforeReady(p: Peer) {
    !Ready(p) ==> p.streams == map[] && p.pendingOpens == map[] && p.pendingListens == map[]
                  && p.requests == map[] && p.listeners == {}
  }

  ghost predicate PeerInv(p: Peer) { Accounts(p) && Limits(p) && Ids(p) && QuietBeforeReady(p) }

  lemma NewPeerInv(role: Role, nonce: string, maxStreams: nat, handlesOpen: bool, handlesListen: bool)
    ensures PeerInv(NewPeer(role, nonce, maxStreams, handlesOpen, handlesListen))
  {
  }

  // ----- Each way the streams map changes keeps the accounts ----------------------------------

  lemma AccountsSet(p: Peer, p': Peer, id: nat, e: End)
    requires Accounts(p) && EndOk(e)
    requires p'.streams == p.streams[id := e]
    requires id in p.streams ==>
      p'.inBuffered == p.inBuffered + |e.buffer| - |p.streams[id].buffer|
      && p'.outBuffered == p.outBuffered + e.outReserved - p.streams[id].outReserved
    requires id !in p.streams ==>
      p'.inBuffered == p.inBuffered + |e.buffer| && p'.outBuffered == p.outBuffered + e.outReserved
    requires p'.inBuffered <= MAX_BUFFERED_DATA && p'.outBuffered <= MAX_BUFFERED_DATA
    ensures Accounts(p')
  {
    forall what: Amount
      ensures Total(p'.streams, what) ==
              Total(p.streams, what) + Of(e, what) - (if id in p.streams then Of(p.streams[id], what) else 0)
    {
      TotalUpdate(p.streams, id, e, what);
      if id in p.streams { TotalWithout(p.streams, id, what); } else { TotalAbsent(p.streams, id, what); }
    }
    assert Total(p'.streams, Unread) == p'.inBuffered;
    assert Total(p'.streams, Reserved) == p'.outBuffered;
  }

  lemma AccountsRemove(p: Peer, p': Peer, id: nat)
    requires Accounts(p) && id in p.streams
    requires p'.streams == p.streams - {id}
    requires p'.inBuffered == p.inBuffered - |p.streams[id].buffer|
    requires p'.outBuffered == p.outBuffered - p.streams[id].outReserved
    ensures Accounts(p')
  {
    TotalWithout(p.streams, id, Unread);
    TotalWithout(p.streams, id, Reserved);
    assert Of(p.streams[id], Unread) == |p.streams[id].buffer|;
  }

  /** What a stream holds is part of the totals, so no release is ever cut off at zero. */
  lemma AccountsCover(p: Peer, id: nat)
    requires Accounts(p) && id in p.streams
    ensures |p.streams[id].buffer| <= p.inBuffered && 0 <= p.streams[id].outReserved <= p.outBuffered
  {
    TotalWithout(p.streams, id, Unread);
    TotalWithout(p.streams, id, Reserved);
    TotalBound(p.streams - {id}, Unread);
    TotalBound(p.streams - {id}, Reserved);
  }

  lemma MarkClosedAccounts(p: Peer, id: nat, how: Ending)
    requires Accounts(p)
    ensures Accounts(MarkClosed(p, id, how))
  {
    if Live(p, id) {
      AccountsCover(p, id);
      AccountsRemove(p, MarkClosed(p, id, how), id);
    }
  }

  lemma RemoteCloseAccounts(p: Peer, id: nat)
    requires Accounts(p)
    ensures Accounts(RemoteClose(p, id))
  {
    if Live(p, id) {
      AccountsCover(p, id);
      var e, p' := p.streams[id], RemoteClose(p, id);
      if !e.remoteEof {
        MarkClosedAccounts(p, id, Reset);
      } else if e.buffer == [] {
        AccountsRemove(p, p', id);
      } else {
        AccountsSet(p, p', id, p'.streams[id]);
      }
    }
  }

  // ----- Limits on streams and listeners ------------------------------------------------------

  lemma {:induction false} SubsetSize<T>(a: set<T>, b: set<T>)
    requires a <= b
    ensures |a| <= |b|
  {
    if a != {} {
      var x :| x in a;
      SubsetSize(a - {x}, b - {x});
    }
  }

  lemma UnionSize<T>(a: set<T>, b: set<T>)
    ensures |a + b| <= |a| + |b|
  {
    assert a + b == a + (b - a) && a !! (b - a);
    SubsetSize(b - a, b);
  }

  /** Steps that only take away keep the limits. */
  lemma LimitsShrink(p: Peer, p': Peer)
    requires Limits(p) && p'.maxStreams == p.maxStreams
    requires forall id :: id in p'.streams ==> id in p.streams
    requires p'.listeners + RunningListens(p') <= p.listeners + RunningListens(p)
    requires p'.listeners !! RunningListens(p')
    ensures Limits(p')
  {
    assert |p'.streams.Keys| == |p'.streams| && |p.streams.Keys| == |p.streams|;
    SubsetSize(p'.streams.Keys, p.streams.Keys);
    SubsetSize(p'.listeners + RunningListens(p'), p.listeners + RunningListens(p));
  }

  lemma LimitsSame(p: Peer, p': Peer)
    requires Limits(p) && p'.maxStreams == p.maxStreams && p'.streams == p.streams
    requires p'.listeners == p.listeners && RunningListens(p') == RunningListens(p)
    ensures Limits(p')
  {
    hide RunningListens;
  }

  /** Admission counts every request still in the map, so it counts at least the running LISTENs. */
  lemma StartListenLimits(p: Peer, p': Peer, id: nat)
    requires Limits(p) && id !in p.requests && id !in p.listeners && |p.listeners| + |p.requests| < p.maxStreams
    requires p' == p.(highestPeerId := id, requests := p.requests[id := ListenQueued])
    ensures Limits(p')
  {
    hide RunningListens;
    ListenQueues(p, p', id);
    UnionSize(p.listeners, RunningListens(p'));
    SubsetSize(RunningListens(p), p.requests.Keys);
    assert |p.requests.Keys| == |p.requests|;
  }

  lemma ListenQueues(p: Peer, p': Peer, id: nat)
    requires id !in p.requests && p'.requests == p.requests[id := ListenQueued]
    ensures RunningListens(p') == RunningListens(p) + {id} && id !in RunningListens(p)
    ensures RunningListens(p) <= p.requests.Keys
  {
  }

  // ----- Dispatch of any frame, honest or not -------------------------------------------------

  /** Steps that put no new ID into any map. */
  ghost predicate NoNewIds(p: Peer, p': Peer) {
    && p'.role == p.role && p'.maxStreams == p.maxStreams
    && p'.nextId == p.nextId && p'.highestPeerId == p.highestPeerId
    && (forall id :: id in p'.streams ==> id in p.streams)
    && (forall id :: id in p'.pendingOpens ==> id in p.pendingOpens)
    && (forall id :: id in p'.pendingListens ==> id in p.pendingListens)
    && (forall id :: id in p'.requests ==> id in p.requests)
    && (forall id :: id in p'.listeners ==> id in p.listeners)
    && (Ready(p) ==> Ready(p'))
  }

  lemma IdsShrink(p: Peer, p': Peer)
    requires Ids(p) && QuietBeforeReady(p) && NoNewIds(p, p')
    ensures Ids(p') && QuietBeforeReady(p')
  {
    hide Owns;
  }

  lemma InvShrink(p: Peer, p': Peer)
    requires PeerInv(p) && NoNewIds(p, p') && Accounts(p') && RunningListens(p') <= RunningListens(p)
    ensures PeerInv(p')
  {
    hide Accounts, Ids, QuietBeforeReady, RunningListens;
    IdsShrink(p, p');
    LimitsShrink(p, p');
  }

  /** A request of the other peer: the one step that brings in a new ID of its own. */
  lemma IdsPeerRequest(p: Peer, p': Peer, id: nat)
    requires Ids(p) && Ready(p) && Ready(p') && id > p.highestPeerId && !Owns(p.role, id)
    requires p'.role == p.role && p'.nextId == p.nextId && p'.highestPeerId == id
    requires p'.streams.Keys <= p.streams.Keys + {id} && p'.requests.Keys <= p.requests.Keys + {id}
    requires p'.pendingOpens == p.pendingOpens && p'.pendingListens == p.pendingListens && p'.listeners == p.listeners
    ensures Ids(p') && QuietBeforeReady(p')
  {
    hide Owns;
  }

  ghost predicate Keeps(effect: Effect) { effect.Continue? ==> PeerInv(effect.peer) }

  lemma NewIdUnused(p: Peer, id: nat)
    requires Ids(p) && id > p.highestPeerId && !Owns(p.role, id)
    ensures id !in p.streams && id !in p.requests && id !in p.listeners
  {
  }

  lemma AcceptOpenLimits(p: Peer, p': Peer, id: nat)
    requires Limits(p) && id !in p.streams && id !in p.requests && |p.streams| < p.maxStreams == p'.maxStreams
    requires p'.streams == p.streams[id := NEW_END] && p'.requests == p.requests[id := OpenRunning]
    requires p'.listeners == p.listeners
    ensures Limits(p')
  {
    assert RunningListens(p') == RunningListens(p);
  }

  /** The two ways an OPEN that is no error leaves the peer. */
  lemma StartOpenCases(p: Peer, f: Frame, p': Peer)
    requires StartOpen(p, f).Continue? && p' == StartOpen(p, f).peer
    ensures !Owns(p.role, f.id) && f.id > p.highestPeerId
    ensures p' == p.(highestPeerId := f.id)
      || (|p.streams| < p.maxStreams
          && p' == p.(highestPeerId := f.id, streams := p.streams[f.id := NEW_END],
            requests := p.requests[f.id := OpenRunning]))
  {
    hide ResultFrame, Owns, NEW_END;
  }

  lemma StartOpenKeeps(p: Peer, f: Frame)
    requires PeerInv(p) && Ready(p) && f.id > 0
    ensures Keeps(StartOpen(p, f))
  {
    hide Accounts, Ids, Limits, QuietBeforeReady, Owns, EndOk, RunningListens, StartOpen, NEW_END;
    var effect := StartOpen(p, f);
    if effect.Continue? {
      var p' := effect.peer;
      StartOpenCases(p, f, p');
      NewIdUnused(p, f.id);
      IdsPeerRequest(p, p', f.id);
      if p' == p.(highestPeerId := f.id) {
        SameStreams(p, p');
        SameListens(p, p');
        LimitsSame(p, p');
      } else {
        AcceptOpenLimits(p, p', f.id);
        AcceptOpenAccounts(p, p', f.id);
      }
    }
  }

  lemma AcceptOpenAccounts(p: Peer, p': Peer, id: nat)
    requires Accounts(p) && id !in p.streams && p'.streams == p.streams[id := NEW_END]
    requires p'.inBuffered == p.inBuffered && p'.outBuffered == p.outBuffered
    ensures Accounts(p')
  {
    AccountsSet(p, p', id, NEW_END);
  }

  /** The two ways a LISTEN that is no error leaves the peer. */
  lemma StartListenCases(p: Peer, f: Frame, p': Peer)
    requires StartListen(p, f).Continue? && p' == StartListen(p, f).peer
    ensures !Owns(p.role, f.id) && f.id > p.highestPeerId
    ensures p' == p.(highestPeerId := f.id)
      || (|p.listeners| + |p.requests| < p.maxStreams
          && p' == p.(highestPeerId := f.id, requests := p.requests[f.id := ListenQueued]))
  {
    hide ResultFrame, Owns;
  }

  lemma StartListenKeeps(p: Peer, f: Frame)
    requires PeerInv(p) && Ready(p) && f.id > 0
    ensures Keeps(StartListen(p, f))
  {
    hide Accounts, Ids, Limits, QuietBeforeReady, Owns, RunningListens, StartListen;
    var effect := StartListen(p, f);
    if effect.Continue? {
      var p' := effect.peer;
      StartListenCases(p, f, p');
      NewIdUnused(p, f.id);
      IdsPeerRequest(p, p', f.id);
      SameStreams(p, p');
      if p' == p.(highestPeerId := f.id) {
        SameListens(p, p');
        LimitsSame(p, p');
      } else {
        StartListenLimits(p, p', f.id);
      }
    }
  }

  lemma SameStreams(p: Peer, p': Peer)
    requires Accounts(p)
    requires p'.streams == p.streams && p'.inBuffered == p.inBuffered && p'.outBuffered == p.outBuffered
    ensures Accounts(p')
  {
  }

  lemma SameListens(p: Peer, p': Peer)
    requires p'.requests == p.requests
    ensures RunningListens(p') == RunningListens(p)
  {
  }

  lemma MarkClosedShrinks(p: Peer, id: nat, how: Ending, p': Peer)
    requires p' == MarkClosed(p, id, how)
    ensures NoNewIds(p, p') && p'.requests == p.requests
  {
  }

  lemma MarkClosedKeeps(p: Peer, id: nat, how: Ending)
    requires PeerInv(p)
    ensures PeerInv(MarkClosed(p, id, how))
  {
    hide Accounts, Ids, Limits, QuietBeforeReady, RunningListens, NoNewIds, MarkClosed;
    var p' := MarkClosed(p, id, how);
    MarkClosedAccounts(p, id, how);
    MarkClosedShrinks(p, id, how, p');
    SameListens(p, p');
    InvShrink(p, p');
  }

  lemma RemoteCloseShrinks(p: Peer, id: nat, p': Peer)
    requires p' == RemoteClose(p, id)
    ensures NoNewIds(p, p') && p'.requests == p.requests
  {
    hide MarkClosed, FinishGracefully, NoNewIds;
    if Live(p, id) {
      if p.streams[id].remoteEof { FinishGracefullyShrinks(p, id, p'); } else { MarkClosedShrinks(p, id, Reset, p'); }
    } else {
      NoNewIdsReflexive(p);
    }
  }

  lemma FinishGracefullyShrinks(p: Peer, id: nat, p': Peer)
    requires Live(p, id) && p' == FinishGracefully(p, id)
    ensures NoNewIds(p, p') && p'.requests == p.requests
  {
    hide Owns, NEW_END;
    if p.streams[id].buffer == [] {
      assert p'.streams == p.streams - {id};
    } else {
      assert p'.streams.Keys == p.streams.Keys;
    }
  }

  lemma NoNewIdsReflexive(p: Peer)
    ensures NoNewIds(p, p)
  {
  }

  lemma RemoteCloseKeeps(p: Peer, id: nat)
    requires PeerInv(p)
    ensures PeerInv(RemoteClose(p, id))
  {
    hide Accounts, Ids, Limits, QuietBeforeReady, RunningListens, NoNewIds, RemoteClose;
    var p' := RemoteClose(p, id);
    RemoteCloseAccounts(p, id);
    RemoteCloseShrinks(p, id, p');
    SameListens(p, p');
    InvShrink(p, p');
  }

  lemma CancelRequestShrinks(p: Peer, id: nat)
    ensures NoNewIds(p, CancelRequest(p, id)) && RunningListens(CancelRequest(p, id)) <= RunningListens(p)
  {
    hide RunningListens;
    CancelledListens(p, id);
  }

  lemma CancelledListens(p: Peer, id: nat)
    ensures RunningListens(CancelRequest(p, id)) <= RunningListens(p)
  {
  }

  lemma CancelRequestKeeps(p: Peer, id: nat)
    requires PeerInv(p)
    ensures PeerInv(CancelRequest(p, id))
  {
    hide Accounts, Ids, Limits, QuietBeforeReady, RunningListens, NoNewIds;
    var p' := CancelRequest(p, id);
    CancelRequestShrinks(p, id);
    SameStreams(p, p');
    InvShrink(p, p');
  }

  /** The three ways a CLOSE that is no error leaves the peer. */
  lemma HandleCloseCases(p: Peer, f: Frame, p': Peer)
    requires HandleClose(p, f).Continue? && p' == HandleClose(p, f).peer
    ensures var p1 := CancelRequest(p, f.id);
      p' == RemoteClose(p1, f.id) || p' == p1.(listeners := p1.listeners - {f.id}) || p' == p1
    ensures HandleClose(p, f).out == []
  {
    hide RemoteClose, IsStaleId, Get;
  }

  lemma HandleCloseKeeps(p: Peer, f: Frame)
    requires PeerInv(p)
    ensures Keeps(HandleClose(p, f))
  {
    hide PeerInv, RemoteClose, HandleClose, CancelRequest;
    var effect := HandleClose(p, f);
    if effect.Continue? {
      var p1 := CancelRequest(p, f.id);
      CancelRequestKeeps(p, f.id);
      RemoteCloseKeeps(p1, f.id);
      HandleCloseCases(p, f, effect.peer);
      if effect.peer != RemoteClose(p1, f.id) { BookkeepingKeeps(p1, effect.peer); }
    }
  }

  /** Steps that replace the state of one stream. */
  lemma SetEndKeeps(p: Peer, p': Peer)
    requires PeerInv(p) && Accounts(p') && p'.streams.Keys == p.streams.Keys
    requires p' == p.(streams := p'.streams, inBuffered := p'.inBuffered, outBuffered := p'.outBuffered,
      history := p'.history)
    ensures PeerInv(p')
  {
    hide Accounts, Ids, Limits, QuietBeforeReady, RunningListens;
    SameListens(p, p');
    InvShrink(p, p');
  }

  lemma ReceiveKeeps(p: Peer, id: nat, data: Bytes)
    requires PeerInv(p) && id in p.streams
    ensures Keeps(Receive(p, id, data))
  {
    hide Ids, Limits, QuietBeforeReady, RunningListens;
    var effect := Receive(p, id, data);
    if effect.Continue? {
      AccountsSet(p, effect.peer, id, effect.peer.streams[id]);
      hide Accounts;
      SetEndKeeps(p, effect.peer);
    }
  }

  lemma AddCreditKeeps(p: Peer, id: nat, amount: int)
    requires PeerInv(p) && id in p.streams
    ensures Keeps(AddCredit(p, id, amount))
  {
    hide Ids, Limits, QuietBeforeReady, RunningListens;
    var effect := AddCredit(p, id, amount);
    if effect.Continue? {
      AccountsCover(p, id);
      AccountsSet(p, effect.peer, id, effect.peer.streams[id]);
      hide Accounts;
      SetEndKeeps(p, effect.peer);
    }
  }

  lemma ReceiveEofKeeps(p: Peer, id: nat)
    requires PeerInv(p) && id in p.streams
    ensures PeerInv(ReceiveEof(p, id))
  {
    hide Ids, Limits, QuietBeforeReady, RunningListens;
    var p' := ReceiveEof(p, id);
    if p' != p {
      AccountsSet(p, p', id, p'.streams[id]);
      hide Accounts;
      SetEndKeeps(p, p');
    }
  }

  lemma DispatchToStreamKeeps(p: Peer, f: Frame)
    requires PeerInv(p) && f.id in p.streams
    ensures Keeps(DispatchToStream(p, f))
  {
    hide PeerInv, Receive, AddCredit, ReceiveEof;
    match f.kind {
      case DATA => ReceiveKeeps(p, f.id, f.payload.data);
      case WINDOW_UPDATE =>
        if f.payload.json.Some? && Get(f.payload.json.value, "credit").Int? {
          AddCreditKeeps(p, f.id, Get(f.payload.json.value, "credit").number);
        }
      case _ => ReceiveEofKeeps(p, f.id);
    }
  }

  /** HELLOs, results and everything else that leaves the streams alone. */
  lemma BookkeepingKeeps(p: Peer, p': Peer)
    requires PeerInv(p) && NoNewIds(p, p')
    requires p'.streams == p.streams && p'.inBuffered == p.inBuffered && p'.outBuffered == p.outBuffered
    requires p'.requests == p.requests
    ensures PeerInv(p')
  {
    hide Accounts, Ids, Limits, QuietBeforeReady, RunningListens;
    SameStreams(p, p');
    SameListens(p, p');
    InvShrink(p, p');
  }

  lemma SettleShrinks(p: Peer, opens: map<nat, Option<bool>>, listens: map<nat, Option<bool>>, p': Peer)
    requires forall j :: j in opens ==> j in p.pendingOpens
    requires forall j :: j in listens ==> j in p.pendingListens
    requires p' == p.(pendingOpens := opens, pendingListens := listens, history := p'.history)
    ensures NoNewIds(p, p')
  {
  }

  /** An answer changes what is known of requests under way, and puts no new one there. */
  lemma ResultKeepsIds(p: Peer, f: Frame, p': Peer)
    requires DispatchResult(p, f).Continue? && p' == DispatchResult(p, f).peer
    ensures p' == p.(pendingOpens := p'.pendingOpens, pendingListens := p'.pendingListens)
    ensures forall j :: j in p'.pendingOpens ==> j in p.pendingOpens
    ensures forall j :: j in p'.pendingListens ==> j in p.pendingListens
    ensures DispatchResult(p, f).out == []
  {
    hide DecodeResult, IsStaleId;
  }

  lemma DispatchResultKeeps(p: Peer, f: Frame, effect: Effect)
    requires PeerInv(p) && effect == DispatchResult(p, f)
    ensures Keeps(effect)
  {
    hide PeerInv, DispatchResult, NoNewIds;
    if effect.Continue? {
      ResultKeepsIds(p, f, effect.peer);
      SettleShrinks(p, effect.peer.pendingOpens, effect.peer.pendingListens, effect.peer);
      BookkeepingKeeps(p, effect.peer);
    }
  }

  lemma HandshakeKeeps(p: Peer, payload: Payload)
    requires PeerInv(p)
    ensures Keeps(ReceiveHello(p, payload)) && Keeps(ReceiveHelloAck(p, payload))
  {
    hide PeerInv;
    var hello, ack := ReceiveHello(p, payload), ReceiveHelloAck(p, payload);
    if hello.Continue? { BookkeepingKeeps(p, hello.peer); }
    if ack.Continue? { BookkeepingKeeps(p, ack.peer); }
  }

  /** No frame, honest or forged, makes a peer break its accounts, its limits or its ID discipline. */
  lemma DispatchKeepsPeerInv(p: Peer, f: Frame)
    requires PeerInv(p)
    ensures Keeps(Dispatch(p, f))
  {
    hide PeerInv, ReceiveHello, ReceiveHelloAck, StartOpen, StartListen, DispatchResult, HandleClose, DispatchToStream;
    HandshakeKeeps(p, f.payload);
    DispatchResultKeeps(p, f, DispatchResult(p, f));
    HandleCloseKeeps(p, f);
    if Ready(p) && f.id > 0 {
      StartOpenKeeps(p, f);
      StartListenKeeps(p, f);
    }
    if f.id in p.streams { DispatchToStreamKeeps(p, f); }
  }

  // ----- The peer's own steps -----------------------------------------------------------------

  /** Allocating: the next ID of this role, and no other new ID. */
  lemma IdsOwnRequest(p: Peer, p': Peer)
    requires Ids(p) && CanAllocate(p) && Ready(p')
    requires p'.role == p.role && p'.nextId == p.nextId + 2 && p'.highestPeerId == p.highestPeerId
    requires forall j :: j in p'.streams ==> j in p.streams || j == p.nextId
    requires forall j :: j in p'.pendingOpens ==> j in p.pendingOpens || j == p.nextId
    requires forall j :: j in p'.pendingListens ==> j in p.pendingListens || j == p.nextId
    requires p'.requests == p.requests && p'.listeners == p.listeners
    ensures Ids(p') && QuietBeforeReady(p')
  {
  }

  lemma OwnIdUnused(p: Peer)
    requires Ids(p)
    ensures p.nextId !in p.streams && p.nextId !in p.requests
  {
  }

  lemma OpenKeeps(p: Peer, metadata: Object, p': Peer)
    requires PeerInv(p) && Enabled(p, Open(metadata)) && p' == Apply(p, Open(metadata)).0
    ensures PeerInv(p')
  {
    hide Accounts, Ids, Limits, QuietBeforeReady, Owns, RunningListens;
    OwnIdUnused(p);
    IdsOwnRequest(p, p');
    AcceptOpenAccounts(p, p', p.nextId);
    SameListens(p, p');
    OpenLimits(p, p');
  }

  lemma OpenLimits(p: Peer, p': Peer)
    requires Limits(p) && p.nextId !in p.streams && |p.streams| < p.maxStreams == p'.maxStreams
    requires p'.streams == p.streams[p.nextId := NEW_END]
    requires p'.listeners == p.listeners && RunningListens(p') == RunningListens(p)
    ensures Limits(p')
  {
    hide RunningListens;
  }

  /** An ID spent on a LISTEN, or on a request that could not be encoded. */
  lemma AllocateKeeps(p: Peer, p': Peer)
    requires PeerInv(p) && CanAllocate(p)
    requires p' == p.(nextId := p.nextId + 2, pendingListens := p'.pendingListens)
    requires forall j :: j in p'.pendingListens ==> j in p.pendingListens || j == p.nextId
    ensures PeerInv(p')
  {
    hide Accounts, Ids, Limits, QuietBeforeReady, Owns, RunningListens;
    IdsOwnRequest(p, p');
    SameStreams(p, p');
    SameListens(p, p');
    LimitsSame(p, p');
  }

  /** `open_stream` gives up or sees its result. */
  lemma SettleOpenKeeps(p: Peer, id: nat, p': Peer)
    requires PeerInv(p)
    requires p' == p.(pendingOpens := p.pendingOpens - {id})
          || p' == MarkClosed(p, id, ClosedHere).(pendingOpens := p.pendingOpens - {id})
    ensures PeerInv(p')
  {
    hide PeerInv, MarkClosed, NoNewIds;
    var p1 := if p' == p.(pendingOpens := p.pendingOpens - {id}) then p else MarkClosed(p, id, ClosedHere);
    MarkClosedKeeps(p, id, ClosedHere);
    MarkClosedKeepsPending(p, id, MarkClosed(p, id, ClosedHere));
    SettleShrinks(p1, p.pendingOpens - {id}, p1.pendingListens, p');
    BookkeepingKeeps(p1, p');
  }

  lemma MarkClosedKeepsPending(p: Peer, id: nat, p': Peer)
    requires p' == MarkClosed(p, id, ClosedHere)
    ensures p'.pendingOpens == p.pendingOpens
  {
  }

  /** Steps on one stream that neither add nor remove it. */
  lemma StreamStepKeeps(p: Peer, p': Peer, id: nat)
    requires PeerInv(p) && id in p.streams && id in p'.streams && EndOk(p'.streams[id])
    requires p' == p.(streams := p.streams[id := p'.streams[id]], inBuffered := p'.inBuffered,
                      outBuffered := p'.outBuffered, history := p'.history)
    requires p'.inBuffered == p.inBuffered + |p'.streams[id].buffer| - |p.streams[id].buffer|
    requires |p'.streams[id].buffer| <= |p.streams[id].buffer|
    requires p'.outBuffered == p.outBuffered
      + p'.streams[id].outReserved - p.streams[id].outReserved <= MAX_BUFFERED_DATA
    ensures PeerInv(p')
  {
    hide Ids, Limits, QuietBeforeReady, RunningListens, EndOk;
    AccountsSet(p, p', id, p'.streams[id]);
    hide Accounts;
    SetEndKeeps(p, p');
  }

  /** Steps that take one stream out of the map. */
  lemma RemoveKeeps(p: Peer, p': Peer, id: nat)
    requires PeerInv(p) && id in p.streams
    requires p' == p.(streams := p.streams - {id}, inBuffered := p'.inBuffered, outBuffered := p'.outBuffered,
                      history := p'.history)
    requires p'.inBuffered == p.inBuffered - |p.streams[id].buffer|
    requires p'.outBuffered == p.outBuffered - p.streams[id].outReserved
    ensures PeerInv(p')
  {
    hide Accounts, Ids, Limits, QuietBeforeReady, RunningListens, EndOk;
    AccountsRemove(p, p', id);
    SameListens(p, p');
    InvShrink(p, p');
  }

  lemma StreamFacts(p: Peer, id: nat)
    requires PeerInv(p) && id in p.streams
    ensures EndOk(p.streams[id]) && p.outBuffered <= MAX_BUFFERED_DATA
    ensures |p.streams[id].buffer| <= p.inBuffered && 0 <= p.streams[id].outReserved <= p.outBuffered
  {
    hide Ids, Limits, QuietBeforeReady;
    AccountsCover(p, id);
  }

  lemma WriterKeeps(p: Peer, action: Action, p': Peer)
    requires PeerInv(p) && Enabled(p, action) && p' == Apply(p, action).0
    requires action.StartWrite? || action.TakeCredit? || action.SendChunk? || action.CancelWrite?
    ensures PeerInv(p')
  {
    hide PeerInv;
    StreamFacts(p, action.id);
    StreamStepKeeps(p, p', action.id);
  }

  lemma ReadKeeps(p: Peer, id: nat, size: int, p': Peer)
    requires PeerInv(p) && id in p.streams && CanRead(p.streams[id], size) && p' == ApplyRead(p, id, size).0
    ensures PeerInv(p')
  {
    hide PeerInv;
    StreamFacts(p, id);
    if p' != p {
      if id in p'.streams { StreamStepKeeps(p, p', id); } else { RemoveKeeps(p, p', id); }
    }
  }

  lemma WriteEofKeeps(p: Peer, id: nat, p': Peer)
    requires PeerInv(p) && id in p.streams && Idle(p.streams[id]) && p' == ApplyWriteEof(p, id).0
    ensures PeerInv(p')
  {
    hide PeerInv;
    StreamFacts(p, id);
    if p' != p { StreamStepKeeps(p, p', id); }
  }

  lemma CloseKeeps(p: Peer, id: nat, reason: string, p': Peer)
    requires PeerInv(p) && id in p.streams && p' == ApplyClose(p, id, reason).0
    ensures PeerInv(p')
  {
    hide PeerInv, MarkClosed;
    StreamFacts(p, id);
    if p.streams[id].closed { RemoveKeeps(p, p', id); } else { MarkClosedKeeps(p, id, ClosedHere); }
  }

  /** A request task ends or is reaped: it stops counting, unless it turns into a listener. */
  lemma RequestKeeps(p: Peer, id: nat, p': Peer)
    requires PeerInv(p) && id in p.requests
    requires p' == p.(requests := p'.requests, listeners := p'.listeners)
    requires forall j :: j in p'.requests ==> j in p.requests && (p'.requests[j] == p.requests[j] || j == id)
    requires id in p'.requests && p'.requests[id].ListenRunning? ==> p.requests[id].ListenQueued?
    requires id in p'.requests ==> !p'.requests[id].ListenQueued?
    requires p'.listeners == p.listeners || (p.requests[id].ListenRunning? && p'.listeners == p.listeners + {id})
    ensures PeerInv(p')
  {
    hide Accounts, QuietBeforeReady, Ids, RunningListens;
    RequestIds(p, id, p');
    SameStreams(p, p');
    RequestListens(p, id, p');
    LimitsShrink(p, p');
  }

  /** Ending a LISTEN task, or turning it into a listener, makes no room for another. */
  lemma RequestListens(p: Peer, id: nat, p': Peer)
    requires Limits(p) && id in p.requests
    requires forall j :: j in p'.requests ==> j in p.requests && (p'.requests[j] == p.requests[j] || j == id)
    requires id in p'.requests && p'.requests[id].ListenRunning? ==> p.requests[id].ListenQueued?
    requires id in p'.requests ==> !p'.requests[id].ListenQueued?
    requires p'.listeners == p.listeners || (p.requests[id].ListenRunning? && p'.listeners == p.listeners + {id})
    ensures p'.listeners + RunningListens(p') <= p.listeners + RunningListens(p)
    ensures p'.listeners !! RunningListens(p')
  {
  }

  lemma RequestIds(p: Peer, id: nat, p': Peer)
    requires Ids(p) && QuietBeforeReady(p) && id in p.requests
    requires p' == p.(requests := p'.requests, listeners := p'.listeners)
    requires forall j :: j in p'.requests ==> j in p.requests
    requires p'.listeners <= p.listeners + {id}
    ensures Ids(p') && QuietBeforeReady(p')
  {
    hide Owns;
  }

  lemma CompleteOpenKeeps(p: Peer, id: nat, ok: bool, p': Peer)
    requires PeerInv(p) && id in p.requests && p' == ApplyCompleteOpen(p, id, ok).0
    ensures PeerInv(p')
  {
    hide PeerInv, RemoteClose, NoNewIds;
    var p1 := if ok then p else RemoteClose(p, id);
    RemoteCloseKeeps(p, id);
    RemoteCloseShrinks(p, id, RemoteClose(p, id));
    RequestKeeps(p1, id, p');
  }

  lemma RequesterKeeps(p: Peer, action: Action, p': Peer)
    requires PeerInv(p) && Enabled(p, action) && p' == Apply(p, action).0
    requires action.Open? || action.OpenUnsent? || action.ListenUnsent? || action.RequestListener?
    ensures PeerInv(p')
  {
    hide PeerInv, Owns, ApplyRead, ApplyWriteEof, ApplyClose, ApplyCompleteOpen;
    match action {
      case Open(metadata) => OpenKeeps(p, metadata, p');
      case OpenUnsent => AllocateKeeps(p, p');
      case ListenUnsent => AllocateKeeps(p, p');
      case RequestListener(_) => AllocateKeeps(p, p');
    }
  }

  lemma SettleKeeps(p: Peer, action: Action, p': Peer)
    requires PeerInv(p) && Enabled(p, action) && p' == Apply(p, action).0
    requires action.FinishOpen? || action.TimeoutOpen? || action.FinishListen? || action.TimeoutListen?
    ensures PeerInv(p')
  {
    hide PeerInv, Apply, SettleForms;
    SettleFormsOf(p, action, p');
    SettledKeeps(p, action.id, p');
  }

  /** What a settled request leaves: no entry, and its stream closed or as it was. */
  ghost predicate SettleForms(p: Peer, id: nat, p': Peer) {
    || p' == p.(pendingOpens := p.pendingOpens - {id})
    || p' == MarkClosed(p, id, ClosedHere).(pendingOpens := p.pendingOpens - {id})
    || p' == p.(pendingListens := p.pendingListens - {id}, history := p'.history)
  }

  lemma SettleFormsOf(p: Peer, action: Action, p': Peer)
    requires Enabled(p, action) && p' == Apply(p, action).0
    requires action.FinishOpen? || action.TimeoutOpen? || action.FinishListen? || action.TimeoutListen?
    ensures SettleForms(p, action.id, p')
  {
    hide MarkClosed, Owns, ApplyRead, ApplyWriteEof, ApplyClose, ApplyCompleteOpen, ApplyCut,
      ApplyOpen, ApplyRequestListener, ApplyTakeCredit, ApplySendChunk, ApplyCancelWrite, ApplyBeginListen,
        ApplyCompleteListen;
  }

  lemma SettledKeeps(p: Peer, id: nat, p': Peer)
    requires PeerInv(p) && SettleForms(p, id, p')
    ensures PeerInv(p')
  {
    hide PeerInv, MarkClosed;
    if p' == p.(pendingListens := p.pendingListens - {id}, history := p'.history) {
      SettleListenKeeps(p, id, p');
    } else {
      SettleOpenKeeps(p, id, p');
    }
  }

  lemma StreamKeeps(p: Peer, action: Action, p': Peer)
    requires PeerInv(p) && Enabled(p, action) && p' == Apply(p, action).0
    requires action.Read? || action.WriteEof? || action.Close?
    ensures PeerInv(p')
  {
    hide PeerInv, Owns, ApplyRead, ApplyWriteEof, ApplyClose, ApplyCompleteOpen;
    match action {
      case Read(id, size) => ReadKeeps(p, id, size, p');
      case WriteEof(id) => WriteEofKeeps(p, id, p');
      case Close(id, reason) => CloseKeeps(p, id, reason, p');
    }
  }

  /** Nothing in the invariant looks at the history. */
  lemma HistoryIsGhost(p: Peer, p': Peer)
    requires PeerInv(p) && p' == p.(history := p'.history)
    ensures PeerInv(p')
  {
    hide PeerInv;
    BookkeepingKeeps(p, p');
  }

  lemma CutKeeps(p: Peer, id: nat, call: Call, p': Peer)
    requires PeerInv(p) && CanCut(p, id, call) && p' == ApplyCut(p, id, call)
    ensures PeerInv(p')
  {
    hide PeerInv, TakeUnread, MarkClosed;
    match call
    case ReadCall(size) =>
      ReadKeeps(p, id, size, ApplyRead(p, id, size).0);
      HistoryIsGhost(ApplyRead(p, id, size).0, p');
    case EofCall =>
      StreamFacts(p, id);
      StreamStepKeeps(p, p', id);
    case CloseCall =>
      MarkClosedKeeps(p, id, ClosedHere);
      HistoryIsGhost(MarkClosed(p, id, ClosedHere), p');
    case OpenTimeout =>
      SettleOpenKeeps(p, id, ApplyTimeoutOpen(p, id).0);
      HistoryIsGhost(ApplyTimeoutOpen(p, id).0, p');
    case ListenTimeout => SettleListenKeeps(p, id, p');
  }

  lemma CutActionKeeps(p: Peer, action: Action, p': Peer)
    requires action.Cut? && PeerInv(p) && Enabled(p, action) && p' == Apply(p, action).0
    ensures PeerInv(p')
  {
    hide PeerInv, ApplyCut;
    CutKeeps(p, action.id, action.call, p');
  }

  lemma ServerKeeps(p: Peer, action: Action, p': Peer)
    requires PeerInv(p) && Enabled(p, action) && p' == Apply(p, action).0
    requires action.CompleteOpen? || action.BeginListen? || action.CompleteListen? || action.Reap?
    ensures PeerInv(p')
  {
    hide PeerInv, Owns, ApplyRead, ApplyWriteEof, ApplyClose, ApplyCompleteOpen;
    match action {
      case CompleteOpen(id, ok) => CompleteOpenKeeps(p, id, ok, p');
      case BeginListen(id) => RequestKeeps(p, id, p');
      case CompleteListen(id, _) => RequestKeeps(p, id, p');
      case Reap(id) => RequestKeeps(p, id, p');
    }
  }

  lemma GreetingKeeps(p: Peer, action: Action, p': Peer)
    requires Enabled(p, action) && p' == Apply(p, action).0 && (action.SendHello? || action.SendPing?)
    ensures p' == p
  {
  }

  /** No step of a peer's own makes it break its accounts, its limits or its ID discipline. */
  lemma ApplyKeepsPeerInv(p: Peer, action: Action, p': Peer)
    requires PeerInv(p) && Enabled(p, action) && p' == Apply(p, action).0
    ensures PeerInv(p')
  {
    hide PeerInv, Enabled, Apply;
    match action {
      case SendHello => GreetingKeeps(p, action, p');
      case SendPing(_) => GreetingKeeps(p, action, p');
      case Open(_) => RequesterKeeps(p, action, p');
      case OpenUnsent => RequesterKeeps(p, action, p');
      case RequestListener(_) => RequesterKeeps(p, action, p');
      case ListenUnsent => RequesterKeeps(p, action, p');
      case FinishOpen(_) => SettleKeeps(p, action, p');
      case TimeoutOpen(_) => SettleKeeps(p, action, p');
      case FinishListen(_) => SettleKeeps(p, action, p');
      case TimeoutListen(_) => SettleKeeps(p, action, p');
      case StartWrite(_, _) => WriterKeeps(p, action, p');
      case TakeCredit(_) => WriterKeeps(p, action, p');
      case SendChunk(_) => WriterKeeps(p, action, p');
      case CancelWrite(_) => WriterKeeps(p, action, p');
      case Read(_, _) => StreamKeeps(p, action, p');
      case WriteEof(_) => StreamKeeps(p, action, p');
      case Close(_, _) => StreamKeeps(p, action, p');
      case Cut(_, _) => CutActionKeeps(p, action, p');
      case CompleteOpen(_, _) => ServerKeeps(p, action, p');
      case BeginListen(_) => ServerKeeps(p, action, p');
      case CompleteListen(_, _) => ServerKeeps(p, action, p');
      case Reap(_) => ServerKeeps(p, action, p');
    }
  }

  lemma SettleListenKeeps(p: Peer, id: nat, p': Peer)
    requires PeerInv(p) && p' == p.(pendingListens := p.pendingListens - {id}, history := p'.history)
    ensures PeerInv(p')
  {
    hide PeerInv, NoNewIds;
    SettleShrinks(p, p.pendingOpens, p.pendingListens - {id}, p');
    BookkeepingKeeps(p, p');
  }

  /**
   With at most 128 streams of 256 KiB the aggregate limit of 32 MiB is out of reach: whatever the
   other peer sends, it is its stream's window that stops it.
   */
  lemma StreamLimitImpliesMemoryLimit(p: Peer, f: Frame)
    requires PeerInv(p) && p.maxStreams <= 128
    ensures p.inBuffered <= p.maxStreams * INITIAL_WINDOW <= MAX_BUFFERED_DATA
    ensures Dispatch(p, f) != Raise(AggregateExceeded)
  {
    hide Accounts, Ids, QuietBeforeReady, Receive, AddCredit, RemoteClose;
    InBufferedBound(p);
    if f.id in p.streams { ReceiveFits(p, f.id, f.payload.data); }
    OnlyReceiveOverflows(p, f);
    hide Dispatch, RunningListens;
  }

  lemma OnlyReceiveOverflows(p: Peer, f: Frame)
    requires f.id in p.streams ==> Receive(p, f.id, f.payload.data) != Raise(AggregateExceeded)
    ensures Dispatch(p, f) != Raise(AggregateExceeded)
  {
    hide Receive, RemoteClose, CancelRequest;
  }

  lemma InBufferedBound(p: Peer)
    requires Accounts(p) && |p.streams| <= p.maxStreams
    ensures p.inBuffered <= p.maxStreams * INITIAL_WINDOW
  {
    TotalBound(p.streams, Unread);
  }

  lemma ReceiveFits(p: Peer, id: nat, data: Bytes)
    requires Accounts(p) && |p.streams| <= 128 && id in p.streams
    ensures Receive(p, id, data) != Raise(AggregateExceeded)
  {
    hide Total;
    var e := p.streams[id];
    TotalWithout(p.streams, id, Unread);
    TotalBound(p.streams - {id}, Unread);
    assert |p.streams - {id}| <= 127;
    assert Total(p.streams - {id}, Unread) <= 127 * INITIAL_WINDOW;
    assert |e.buffer| + e.recvCredit == INITIAL_WINDOW;
  }
}
