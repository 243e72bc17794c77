/** IDs, limits, clamps, and where an abandoned open leaves its stream behind. */
module MuxDiscipline {
  import opened Common
  import opened Json
  import opened MuxState
  import opened MuxLocal
  import opened StreamPair
  import opened MuxPair
  import opened PairSteps
  import opened PairActions
  import opened PairDeliveries
  import opened PairTheorems

  // ----- Accounting ---------------------------------------------------------------------------

  /** Before shutdown, no release is cut off at zero and no credit at the window. */
  lemma ClampsNeverBite(p: Peer, id: nat, count: nat)
    requires PeerInv(p) && id in p.streams && count <= |p.streams[id].buffer|
    ensures Max(0, p.inBuffered - count) == p.inBuffered - count
    ensures Max(0, p.outBuffered - p.streams[id].outReserved) == p.outBuffered - p.streams[id].outReserved
    ensures Min(INITIAL_WINDOW, p.streams[id].recvCredit + |p.streams[id].buffer|)
         == p.streams[id].recvCredit + |p.streams[id].buffer|
  {
    hide Limits, Ids, QuietBeforeReady, Total;
    AccountsCover(p, id);
  }

  /** Whoever was admitted by `_start_listen` also passes the count that `_finish_listen` repeats. */
  lemma AdmittedListenIsNotRefused(p: Peer, id: nat)
    requires PeerInv(p) && id in p.requests && p.requests[id] == ListenQueued && p.handlesListen
    ensures |p.listeners| < p.maxStreams && ApplyBeginListen(p, id).1 == []
  {
    hide Accounts, Ids, QuietBeforeReady;
    assert id in RunningListens(p) && id !in p.listeners;
    assert p.listeners + {id} <= p.listeners + RunningListens(p);
    SubsetSize(p.listeners + {id}, p.listeners + RunningListens(p));
  }

  // ----- IDs ----------------------------------------------------------------------------------

  /** An ID that is no longer in use, and whose request is over. */
  ghost predicate Retired(p: Peer, id: nat) {
    IsStaleId(p, id) && id !in p.streams && id !in p.requests && id !in p.listeners
    && id !in p.pendingOpens && id !in p.pendingListens
  }

  predicate IsStreamFrame(kind: Kind) { kind == DATA || kind == WINDOW_UPDATE || kind == HALF_CLOSE || kind == CLOSE }

  /** A late frame for a retired ID changes nothing; a malformed CLOSE is still an error. */
  lemma LateFrameIsDropped(p: Peer, f: Frame)
    requires Ready(p) && Retired(p, f.id) && IsStreamFrame(f.kind) && ValidateFrameShape(f).None?
    requires f.kind == CLOSE ==> f.payload.json.Some? && Get(f.payload.json.value, "reason", Text("")).Text?
    ensures Dispatch(p, f) == Continue(p, [])
  {
    hide Owns;
  }

  /** So is an answer to a request that nobody waits for any more, such as one given up with a CLOSE. */
  lemma LateAnswerIsDropped(p: Peer, f: Frame)
    requires Ready(p) && IsStaleId(p, f.id) && ValidateFrameShape(f).None? && DecodeResult(f.payload).Success?
    requires f.kind == OPEN_RESULT || f.kind == LISTEN_RESULT
    requires !Awaited(if f.kind == OPEN_RESULT then p.pendingOpens else p.pendingListens, f.id)
    ensures Dispatch(p, f) == Continue(p, [])
  {
    hide DecodeResult, IsStaleId;
  }

  /** A frame for an ID that was never in use is an error. */
  lemma ForgedFrameIsRefused(p: Peer, f: Frame)
    requires PeerInv(p) && Ready(p) && IsStreamFrame(f.kind) && f.id > 0 && !IsStaleId(p, f.id)
    ensures Dispatch(p, f).Raise?
  {
    hide Accounts, Limits, QuietBeforeReady, Owns;
  }

  /** The streams map of `p'` holds no ID that was in use before `p` and no longer is. */
  ghost predicate NoReturn(p: Peer, p': Peer) {
    && (forall id :: IsStaleId(p, id) ==> IsStaleId(p', id))
    && (forall id :: IsStaleId(p, id) && id !in p.streams ==> id !in p'.streams)
  }

  lemma NoReturnTrans(p: Peer, p1: Peer, p': Peer)
    requires NoReturn(p, p1) && NoReturn(p1, p')
    ensures NoReturn(p, p')
  {
    hide IsStaleId;
  }

  lemma OpenAllocates(p: Peer, metadata: Object)
    requires PeerInv(p) && Enabled(p, Open(metadata))
    ensures var (p', out) := Apply(p, Open(metadata));
      && out == [Control(OPEN, p.nextId, metadata)]
      && Owns(p.role, p.nextId) && p.nextId <= MAX_STREAM_ID && !IsStaleId(p, p.nextId)
      && p'.nextId > p.nextId && p.nextId !in p.streams && p.nextId in p'.streams
  {
    hide Accounts, Limits, QuietBeforeReady;
  }

  lemma OnlyAllocationsAdd(p: Peer, action: Action, p': Peer)
    requires PeerInv(p) && Enabled(p, action) && p' == Apply(p, action).0
    ensures NoReturn(p, p')
  {
    hide PeerInv, Enabled, Apply, Touches, IsStaleId, SideOf;
    var k := Concerns(p, action);
    ApplyTouches(p, action, p');
    forall id | IsStaleId(p, id) ensures IsStaleId(p', id) && (id !in p.streams ==> id !in p'.streams) {
      TouchesStale(p, p', k, id);
      if id != k {
        SideElsewhere(p, p', k, id);
        FindTells(p, id);
        FindTells(p', id);
      } else {
        ConcernedStays(p, action, p');
      }
    }
  }

  lemma TouchesStale(p: Peer, p': Peer, k: nat, id: nat)
    requires Touches(p, p', k) && IsStaleId(p, id)
    ensures IsStaleId(p', id)
  {
    hide SameBut;
  }

  lemma FindTells(p: Peer, id: nat)
    ensures id in p.streams <==> SideOf(p, id).end.Some?
  {
  }

  lemma ConcernedStays(p: Peer, action: Action, p': Peer)
    requires PeerInv(p) && Enabled(p, action) && p' == Apply(p, action).0 && IsStaleId(p, Concerns(p, action))
    ensures Concerns(p, action) !in p.streams ==> Concerns(p, action) !in p'.streams
  {
    hide PeerInv, Enabled, Apply, IsStaleId;
    NextIdIsFresh(p);
    if !action.Open? && !action.SendHello? && !action.SendPing? { NothingComes(p, action, p'); }
    if action.SendHello? || action.SendPing? { GreetingKeeps(p, action, p'); }
  }

  lemma NextIdIsFresh(p: Peer)
    requires PeerInv(p)
    ensures !IsStaleId(p, p.nextId)
  {
    hide Accounts, Limits, QuietBeforeReady;
  }

  /** Only an OPEN puts a stream into the map. */
  lemma NothingComes(p: Peer, action: Action, p': Peer)
    requires Enabled(p, action) && p' == Apply(p, action).0 && !action.Open?
    ensures Concerns(p, action) !in p.streams ==> Concerns(p, action) !in p'.streams
  {
    hide Apply, Enabled;
    if action.FinishOpen? || action.TimeoutOpen? || action.CompleteOpen? || action.Cut? {
      GivingUpAddsNothing(p, action, p');
    } else {
      NothingElseComes(p, action, p');
    }
  }

  lemma GivingUpAddsNothing(p: Peer, action: Action, p': Peer)
    requires Enabled(p, action) && p' == Apply(p, action).0
    requires action.FinishOpen? || action.TimeoutOpen? || action.CompleteOpen? || action.Cut?
    ensures action.id !in p.streams ==> action.id !in p'.streams
  {
    hide Owns, ApplyCompleteOpen, TakeUnread, MarkClosed;
    if action.id !in p.streams {
      MarkClosedAbsent(p, action.id);
      if action.CompleteOpen? { CompleteOpenAbsent(p, action.id, action.ok); }
    }
  }

  lemma NothingElseComes(p: Peer, action: Action, p': Peer)
    requires Enabled(p, action) && p' == Apply(p, action).0 && !action.Open?
    requires !action.FinishOpen? && !action.TimeoutOpen? && !action.CompleteOpen? && !action.Cut?
    ensures Concerns(p, action) !in p.streams ==> Concerns(p, action) !in p'.streams
  {
    hide Owns, ApplyRead, ApplyWriteEof, ApplyClose, ApplySendChunk, ApplyTakeCredit, ApplyCancelWrite;
  }

  lemma MarkClosedAbsent(p: Peer, id: nat)
    requires id !in p.streams
    ensures MarkClosed(p, id, ClosedHere) == p && RemoteClose(p, id) == p
  {
  }

  lemma CompleteOpenAbsent(p: Peer, id: nat, ok: bool)
    requires id !in p.streams
    ensures ApplyCompleteOpen(p, id, ok).0.streams == p.streams
  {
    MarkClosedAbsent(p, id);
  }

  lemma OnlyRequestsAdd(p: Peer, f: Frame, p': Peer)
    requires PeerInv(p) && Dispatch(p, f).Continue? && p' == Dispatch(p, f).peer
    ensures NoReturn(p, p')
  {
    hide Accounts, Limits, QuietBeforeReady, StartOpen, StartListen, HandleClose, DispatchResult, DispatchToStream,
         IsStaleId, Owns, ReceiveHello, ReceiveHelloAck, NoReturn;
    NoReturnRefl(p);
    match f.kind {
      case OPEN => StartOpenAdds(p, f, StartOpen(p, f));
      case LISTEN => StartListenAdds(p, f, StartListen(p, f));
      case OPEN_RESULT => ResultAdds(p, f, DispatchResult(p, f));
      case LISTEN_RESULT => ResultAdds(p, f, DispatchResult(p, f));
      case CLOSE => HandleCloseAdds(p, f, p');
      case HELLO => HandshakeAdds(p, ReceiveHello(p, f.payload), f.payload);
      case HELLO_ACK => HandshakeAdds(p, ReceiveHelloAck(p, f.payload), f.payload);
      case PING => case PONG =>
      case _ => if f.id in p.streams { StreamFrameAdds(p, f, DispatchToStream(p, f)); }
    }
  }

  lemma HandshakeAdds(p: Peer, effect: Effect, payload: Payload)
    requires effect == ReceiveHello(p, payload) || effect == ReceiveHelloAck(p, payload)
    ensures effect.Continue? ==> NoReturn(p, effect.peer)
  {
    hide HelloAckFrame, NoReturn;
    if effect.Continue? { ShrinkingAdds(p, effect.peer); }
  }

  lemma RequestAdds(p: Peer, p': Peer, id: nat)
    requires !Owns(p.role, id) && id > p.highestPeerId
    requires p'.role == p.role && p'.nextId == p.nextId && p'.highestPeerId == id
    requires forall j :: j in p'.streams ==> j in p.streams || j == id
    ensures NoReturn(p, p')
  {
    hide Owns;
  }

  lemma StartOpenAdds(p: Peer, f: Frame, effect: Effect)
    requires effect == StartOpen(p, f)
    ensures effect.Continue? ==> NoReturn(p, effect.peer)
  {
    hide ResultFrame, NEW_END, NoReturn, Owns;
    if effect.Continue? { RequestAdds(p, effect.peer, f.id); }
  }

  lemma StartListenAdds(p: Peer, f: Frame, effect: Effect)
    requires effect == StartListen(p, f)
    ensures effect.Continue? ==> NoReturn(p, effect.peer)
  {
    hide ResultFrame, NEW_END, NoReturn, Owns;
    if effect.Continue? { RequestAdds(p, effect.peer, f.id); }
  }

  lemma ShrinkingAdds(p: Peer, p': Peer)
    requires p'.role == p.role && p'.nextId == p.nextId && p'.highestPeerId == p.highestPeerId
    requires forall id :: id in p'.streams ==> id in p.streams
    ensures NoReturn(p, p')
  {
    hide Owns;
  }

  lemma HandleCloseAdds(p: Peer, f: Frame, p': Peer)
    requires HandleClose(p, f).Continue? && p' == HandleClose(p, f).peer
    ensures NoReturn(p, p')
  {
    hide HandleClose, RemoteClose, NoReturn, CancelRequest, RunningListens;
    var p1 := CancelRequest(p, f.id);
    CancelRequestShrinks(p, f.id);
    RemoteCloseShrinks(p1, f.id, RemoteClose(p1, f.id));
    HandleCloseCases(p, f, p');
    ShrinkingAdds(p, p');
  }

  lemma ReceiveAdds(p: Peer, id: nat, data: Bytes, effect: Effect)
    requires id in p.streams && effect == Receive(p, id, data)
    ensures effect.Continue? ==> NoReturn(p, effect.peer)
  {
    hide NoReturn;
    if effect.Continue? { ShrinkingAdds(p, effect.peer); }
  }

  lemma AddCreditAdds(p: Peer, id: nat, amount: int, effect: Effect)
    requires id in p.streams && effect == AddCredit(p, id, amount)
    ensures effect.Continue? ==> NoReturn(p, effect.peer)
  {
    hide NoReturn;
    if effect.Continue? { ShrinkingAdds(p, effect.peer); }
  }

  lemma ReceiveEofAdds(p: Peer, id: nat, p': Peer)
    requires id in p.streams && p' == ReceiveEof(p, id)
    ensures NoReturn(p, p')
  {
    hide NoReturn;
    if p' == p { NoReturnRefl(p); } else { ShrinkingAdds(p, p'); }
  }

  lemma StreamFrameAdds(p: Peer, f: Frame, effect: Effect)
    requires f.id in p.streams && effect == DispatchToStream(p, f)
    ensures effect.Continue? ==> NoReturn(p, effect.peer)
  {
    hide NoReturn, Receive, AddCredit, ReceiveEof;
    ReceiveAdds(p, f.id, f.payload.data, Receive(p, f.id, f.payload.data));
    ReceiveEofAdds(p, f.id, ReceiveEof(p, f.id));
    if f.kind == WINDOW_UPDATE && f.payload.json.Some? && Get(f.payload.json.value, "credit").Int? {
      var amount := Get(f.payload.json.value, "credit").number;
      AddCreditAdds(p, f.id, amount, AddCredit(p, f.id, amount));
    }
  }

  lemma ResultAdds(p: Peer, f: Frame, effect: Effect)
    requires effect == DispatchResult(p, f)
    ensures effect.Continue? ==> NoReturn(p, effect.peer)
  {
    hide DispatchResult, NoReturn;
    if effect.Continue? { ResultKeepsIds(p, f, effect.peer); }
    if effect.Continue? { ShrinkingAdds(p, effect.peer); }
  }

  lemma NoReturnRefl(p: Peer)
    ensures NoReturn(p, p)
  {
  }

  // ----- The end of the tunnel ------------------------------------------------------------------

  /** What closing leaves of the stream `id`: the unread rest of one the other side had half-closed. */
  predicate LeftToRead(p: Peer, id: nat) {
    id in p.streams && p.streams[id].remoteEof && p.streams[id].buffer != []
  }

  /** How far the closing has come: the streams listed are closed, and the others are as they were. */
  ghost predicate Closed(p: Peer, q: Peer, order: seq<nat>) {
    && PeerInv(q)
    && (forall id :: id in q.streams <==> if id in order then LeftToRead(p, id) else id in p.streams)
    && (forall id :: id in q.streams && id !in order ==> q.streams[id] == p.streams[id])
    && (forall id :: id in q.streams && id in order ==>
          q.streams[id].closed && q.streams[id].buffer == p.streams[id].buffer)
  }

  lemma FinishGracefullyStreams(q: Peer, id: nat)
    requires Live(q, id)
    ensures FinishGracefully(q, id).streams ==
      if q.streams[id].buffer == [] then q.streams - {id}
      else q.streams[id := q.streams[id].(closed := true, sendCredit := INITIAL_WINDOW, outReserved := 0)]
  {
  }

  lemma MarkClosedStreams(q: Peer, id: nat, how: Ending)
    requires Live(q, id)
    ensures MarkClosed(q, id, how).streams == q.streams - {id}
  {
  }

  lemma RemoteCloseStreams(q: Peer, id: nat)
    ensures var after := RemoteClose(q, id).streams;
      if !Live(q, id) then after == q.streams
      else if LeftToRead(q, id) then
        after == q.streams[id := q.streams[id].(closed := true, sendCredit := INITIAL_WINDOW, outReserved := 0)]
      else after == q.streams - {id}
  {
    hide FinishGracefully, MarkClosed;
    if Live(q, id) {
      FinishGracefullyStreams(q, id);
      MarkClosedStreams(q, id, Reset);
    }
  }

  /** What `_remote_close` does to the streams map. */
  lemma RemoteCloseEffect(q: Peer, id: nat, after: map<nat, End>)
    requires after == RemoteClose(q, id).streams
    ensures forall j :: j != id ==> (j in after <==> j in q.streams)
    ensures forall j :: j != id && j in after ==> after[j] == q.streams[j]
    ensures id in after <==> id in q.streams && (q.streams[id].closed || LeftToRead(q, id))
    ensures id in after ==> after[id].closed && after[id].buffer == q.streams[id].buffer
  {
    hide RemoteClose;
    RemoteCloseStreams(q, id);
  }

  lemma CloseOne(p: Peer, q: Peer, order: seq<nat>, id: nat)
    requires PeerInv(p) && Closed(p, q, order)
    ensures Closed(p, RemoteClose(q, id), order + [id])
  {
    hide PeerInv, RemoteClose;
    RemoteCloseKeeps(q, id);
    RemoteCloseEffect(q, id, RemoteClose(q, id).streams);
    if id in p.streams { ClosedIsLeftToRead(p, id); }
  }

  lemma ClosedIsLeftToRead(p: Peer, id: nat)
    requires PeerInv(p) && id in p.streams
    ensures p.streams[id].closed ==> LeftToRead(p, id)
  {
    hide Limits, Ids, QuietBeforeReady;
  }

  lemma {:induction false} CloseAllCloses(p: Peer, order: seq<nat>)
    requires PeerInv(p)
    ensures Closed(p, CloseAll(p, order), order)
    decreases |order|
  {
    hide PeerInv, RemoteClose;
    if order != [] {
      var last := |order| - 1;
      CloseAllCloses(p, order[..last]);
      hide Closed;
      CloseOne(p, CloseAll(p, order[..last]), order[..last], order[last]);
      assert order == order[..last] + [order[last]];
    }
  }

  lemma {:induction false} NothingReserved(streams: map<nat, End>)
    requires forall id :: id in streams ==> streams[id].outReserved == 0
    ensures Total(streams, Reserved) == 0
    decreases |streams|
  {
    if streams != map[] {
      var id :| id in streams;
      TotalWithout(streams, id, Reserved);
      NothingReserved(streams - {id});
    }
  }

  /**
   When the tunnel ends, no bytes stay reserved for sending, every request that waits is told of a failure, and
   what stays counted as unread is exactly the rest of the streams the other side had half-closed,
   which can still be read.
   */
  lemma ShutdownSettles(p: Peer, order: seq<nat>)
    requires PeerInv(p) && forall id :: id in p.streams ==> id in order
    ensures var q, rest := Shutdown(p, order), CloseAll(p, order).streams;
      && q.streams == map[] && q.listeners == {} && q.requests == map[] && q.outBuffered == 0
      && q.pendingOpens.Keys == p.pendingOpens.Keys && q.pendingListens.Keys == p.pendingListens.Keys
      && (forall id :: id in p.pendingOpens ==>
            q.pendingOpens[id] == if p.pendingOpens[id] == None then Some(false) else p.pendingOpens[id])
      && (forall id :: id in p.pendingListens ==>
            q.pendingListens[id] == if p.pendingListens[id] == None then Some(false) else p.pendingListens[id])
      && (forall id :: id in rest <==> LeftToRead(p, id))
      && (forall id :: id in rest ==> rest[id].closed && rest[id].buffer == p.streams[id].buffer)
      && q.inBuffered == Total(rest, Unread)
  {
    hide CloseAll, Total, Limits, Ids, QuietBeforeReady;
    CloseAllCloses(p, order);
    var q := CloseAll(p, order);
    assert Accounts(q);
    NothingReserved(q.streams);
  }

  // ----- An abandoned open ----------------------------------------------------------------------

  /**
   `open_stream` that times out or is refused gives its stream up, but `_mark_closed` does nothing
   to a stream the other side has already closed gracefully: exactly then the stream, its place
   under the stream limit and its unread bytes stay behind, although nobody holds the stream.
   */
  lemma AbandonedOpenStaysIffClosed(p: Peer, id: nat)
    requires PeerInv(p) && id in p.pendingOpens
    ensures id in ApplyTimeoutOpen(p, id).0.streams <==> id in p.streams && p.streams[id].closed
    ensures p.pendingOpens[id] == Some(false) ==>
      (id in ApplyFinishOpen(p, id).streams <==> id in p.streams && p.streams[id].closed)
    ensures id in p.streams && p.streams[id].closed ==> p.streams[id].buffer != []
  {
    hide Limits, Ids, QuietBeforeReady, Total;
  }

  /** It happens: the acceptor answers, half-closes and closes before its OPEN_RESULT is sent. */
  lemma AbandonedOpenHappens(p: Peer, id: nat, data: Bytes, reason: string)
    requires PeerInv(p) && Ready(p) && p.maxStreams <= 128 && id in p.pendingOpens && Live(p, id)
    requires !p.streams[id].remoteEof && 0 < |data| <= p.streams[id].recvCredit
    ensures var frames := [DataFrame(id, data), HalfCloseFrame(id), CloseFrame(id, reason)];
      var p' := DispatchAll(p, frames);
      p'.Some? && id in p'.value.pendingOpens
      && var given := ApplyTimeoutOpen(p'.value, id).0;
         id !in given.pendingOpens && id in given.streams && given.streams[id].buffer == p.streams[id].buffer + data
  {
    hide Accounts, Ids, Limits, QuietBeforeReady, Owns, IsStaleId, Total;
    assert id > 0 by { PositiveId(p, id); }
    assert |p.streams| <= 128 by { LimitTells(p); }
    ReceiveFits(p, id, data);
    FrameShapes(id, data, reason);
    var f1, f2, f3 := DataFrame(id, data), HalfCloseFrame(id), CloseFrame(id, reason);
    hide CloseFrame;
    var p1 := Dispatch(p, f1).peer;
    assert Dispatch(p, f1) == Receive(p, id, data);
    var p2 := Dispatch(p1, f2).peer;
    assert Dispatch(p1, f2) == Continue(ReceiveEof(p1, id), []);
    assert Dispatch(p2, f3) == HandleClose(p2, f3);
    UnfoldAll(p, f1, f2, f3);
    hide DispatchAll, Dispatch;
    GracefulCloseLingers(p2, f3);
  }

  lemma GracefulCloseLingers(p: Peer, f: Frame)
    requires Live(p, f.id) && p.streams[f.id].remoteEof && p.streams[f.id].buffer != [] && f.id in p.pendingOpens
    requires f.payload.json.Some? && Get(f.payload.json.value, "reason", Text("")).Text?
    ensures HandleClose(p, f).Continue?
    ensures var p' := HandleClose(p, f).peer;
      p'.pendingOpens == p.pendingOpens && f.id in p'.streams && p'.streams[f.id].closed
      && p'.streams[f.id].buffer == p.streams[f.id].buffer
  {
    hide MarkClosed, Get, IsStaleId, CancelRequest;
    CancelledKeepsOpens(p, f.id);
    FinishKeepsOpens(CancelRequest(p, f.id), f.id);
  }

  lemma CancelledKeepsOpens(p: Peer, id: nat)
    ensures CancelRequest(p, id).streams == p.streams && CancelRequest(p, id).pendingOpens == p.pendingOpens
  {
  }

  lemma FinishKeepsOpens(p: Peer, id: nat)
    requires Live(p, id)
    ensures FinishGracefully(p, id).pendingOpens == p.pendingOpens
  {
  }

  function DispatchAll(p: Peer, frames: seq<Frame>): Option<Peer>
    decreases |frames|
  {
    if frames == [] then Some(p)
    else
      match Dispatch(p, frames[0])
      case Continue(p', _) => DispatchAll(p', frames[1..])
      case Raise(_) => None
  }

  lemma UnfoldAll(p: Peer, f1: Frame, f2: Frame, f3: Frame)
    requires Dispatch(p, f1).Continue? && Dispatch(Dispatch(p, f1).peer, f2).Continue?
    requires Dispatch(Dispatch(Dispatch(p, f1).peer, f2).peer, f3).Continue?
    ensures DispatchAll(p, [f1, f2, f3]) == Some(Dispatch(Dispatch(Dispatch(p, f1).peer, f2).peer, f3).peer)
  {
    hide Dispatch;
    var p1 := Dispatch(p, f1).peer;
    var p2 := Dispatch(p1, f2).peer;
    assert [f1, f2, f3][1..] == [f2, f3] && [f2, f3][1..] == [f3] && [f3][1..] == [];
    assert DispatchAll(p2, [f3]) == Some(Dispatch(p2, f3).peer);
    assert DispatchAll(p1, [f2, f3]) == DispatchAll(p2, [f3]);
  }

  lemma PositiveId(p: Peer, id: nat)
    requires PeerInv(p) && id in p.streams
    ensures id > 0
  {
    hide Accounts, Limits, QuietBeforeReady;
  }

  lemma LimitTells(p: Peer)
    requires PeerInv(p)
    ensures |p.streams| <= p.maxStreams
  {
    hide Accounts, Ids, QuietBeforeReady, RunningListens;
  }

  lemma FrameShapes(id: nat, data: Bytes, reason: string)
    requires id > 0 && data != []
    ensures ValidateFrameShape(DataFrame(id, data)).None? && ValidateFrameShape(HalfCloseFrame(id)).None?
    ensures ValidateFrameShape(CloseFrame(id, reason)).None?
    ensures var f := CloseFrame(id, reason);
      f.kind == CLOSE && f.id == id && f.payload.json.Some? && Get(f.payload.json.value, "reason", Text("")).Text?
  {
  }
}
