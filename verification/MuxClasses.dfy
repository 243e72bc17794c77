/**
 The mux as the program writes it: a peer object and its stream objects, updated in place. Every
 method is tied to the function of `MuxState` that says what it does to the whole state, so that
 what is proved about those functions holds of the objects.
 */
module MuxClasses {
  import opened Common
  import opened Json
  import opened MuxState

  /** Some received frames, one after the other. */
  function DispatchEach(p: Peer, out: seq<Frame>, frames: seq<Frame>): Effect
    decreases |frames|
  {
    if frames == [] then Continue(p, out)
    else
      match MuxState.Dispatch(p, frames[0])
      case Continue(p', more) => DispatchEach(p', out + more, frames[1..])
      case Raise(e) => Raise(e)
  }

  /** Closing a stream leaves the bookkeeping of requests alone. */
  lemma ClosingKeepsRequests(p: Peer, id: nat)
    ensures MarkClosed(p, id, ClosedHere).pendingOpens == p.pendingOpens
    ensures RemoteClose(p, id).requests == p.requests
  {
  }

  lemma CloseAllNone(p: Peer)
    ensures CloseAll(p, []) == p
  {
  }

  lemma CloseAllMore(p: Peer, order: seq<nat>, id: nat)
    ensures CloseAll(p, order + [id]) == RemoteClose(CloseAll(p, order), id)
  {
    hide RemoteClose;
    assert (order + [id])[..|order|] == order;
  }

  lemma CancellingKeepsStreams(p: Peer, id: nat)
    ensures var p' := CancelRequest(p, id);
      p'.streams == p.streams && p'.listeners == p.listeners && (IsStaleId(p', id) <==> IsStaleId(p, id))
  {
  }

  class MuxStream {
    const peer: MuxPeer
    const id: nat

    var readBuffer: Bytes
    var sendCredit: int
    var outgoingReserved: int
    var receiveCredit: int
    var localEof: bool
    var remoteEof: bool
    var closed: bool
    var remoteReset: bool
    // The suspended writer: the chunk it has taken credit for, and the rest of its data.
    var taken: Bytes
    var job: Bytes

    constructor (peer: MuxPeer, id: nat)
      ensures this.peer == peer && this.id == id && Value() == NEW_END && !remoteReset
    {
      this.peer, this.id := peer, id;
      readBuffer, sendCredit, outgoingReserved, receiveCredit := [], INITIAL_WINDOW, 0, INITIAL_WINDOW;
      localEof, remoteEof, closed, remoteReset := false, false, false, false;
      taken, job := [], [];
    }

    function Value(): End
      reads this
    {
      End(readBuffer, sendCredit, outgoingReserved, receiveCredit, localEof, remoteEof, closed, taken, job)
    }

    /** In its peer's map, under its own ID. */
    ghost predicate Attached()
      reads this, peer, peer.streams.Values
    {
      peer.Valid() && id in peer.streams && peer.streams[id] == this
    }

    /** Out of the map for good; what is still unread can be read. */
    ghost predicate Detached()
      reads this, peer, peer.streams.Values
    {
      peer.Valid() && id !in peer.streams && closed
    }

    method ReleaseOutgoingReserved(amount: int)
      requires Attached()
      modifies this`outgoingReserved, peer`outgoingBuffered
      ensures Attached()
      ensures outgoingReserved == old(outgoingReserved) - Min(amount, old(outgoingReserved))
      ensures peer.outgoingBuffered == Max(0, old(peer.outgoingBuffered) - Min(amount, old(outgoingReserved)))
    {
      var release := Min(amount, outgoingReserved);
      outgoingReserved := outgoingReserved - release;
      peer.ReleaseOutgoing(release);
    }

    /** Gives up what has not been read. */
    method DropUnread()
      modifies this`readBuffer, this`receiveCredit, peer`incomingBuffered
      ensures readBuffer == []
      ensures receiveCredit == if |old(readBuffer)| > 0
        then Min(INITIAL_WINDOW, old(receiveCredit) + |old(readBuffer)|) else old(receiveCredit)
      ensures peer.incomingBuffered == if |old(readBuffer)| > 0
        then Max(0, old(peer.incomingBuffered) - |old(readBuffer)|) else old(peer.incomingBuffered)
    {
      var buffered := |readBuffer|;
      if buffered > 0 {
        readBuffer := [];
        receiveCredit := Min(INITIAL_WINDOW, receiveCredit + buffered);
        peer.ReleaseIncoming(buffered);
      }
    }

    /** The fields `_mark_closed` sets, before the stream leaves the map. */
    method Abandon(how: Ending)
      requires Attached() && !closed
      modifies this, peer`incomingBuffered, peer`outgoingBuffered
      ensures Attached() && Value() == ClosedEnd(old(Value()))
      ensures peer.incomingBuffered == if |old(readBuffer)| > 0
        then Max(0, old(peer.incomingBuffered) - |old(readBuffer)|) else old(peer.incomingBuffered)
      ensures peer.outgoingBuffered == Max(0, old(peer.outgoingBuffered) - old(outgoingReserved))
      ensures remoteReset == (old(remoteReset) || how == Reset)
    {
      hide MuxPeer.State;
      closed, remoteEof := true, true;
      if how == Reset { remoteReset := true; }
      DropUnread();
      if sendCredit != INITIAL_WINDOW { sendCredit := INITIAL_WINDOW; }
      ReleaseOutgoingReserved(outgoingReserved);
    }

    /** The body of `_mark_closed`, for a stream that is still open. */
    method Detach(how: Ending)
      requires Attached() && !closed
      modifies this, peer`streams, peer`incomingBuffered, peer`outgoingBuffered, peer`history
      ensures peer.streams == old(peer.streams) || peer.streams == old(peer.streams) - {id}
      ensures peer.State() == MuxState.MarkClosed(old(peer.State()), id, how)
      ensures Detached() && Value() == ClosedEnd(old(Value()))
      ensures remoteReset == (old(remoteReset) || how == Reset)
    {
      hide MuxPeer.State;
      peer.StateOf(id);
      Abandon(how);
      peer.RemoveStream(id, how);
      peer.RemovedOne(id);
    }

    method MarkClosed(how: Ending)
      requires Attached() || Detached()
      modifies this, peer`streams, peer`incomingBuffered, peer`outgoingBuffered, peer`history
      ensures peer.streams == old(peer.streams) || peer.streams == old(peer.streams) - {id}
      ensures peer.Valid()
      ensures peer.State() == MuxState.MarkClosed(old(peer.State()), id, how)
      ensures !old(closed) ==> Detached() && Value() == ClosedEnd(old(Value()))
      ensures !old(closed) ==> closed && remoteEof && readBuffer == [] && outgoingReserved == 0
      ensures old(closed) ==> Value() == old(Value())
      ensures remoteReset == (old(remoteReset) || (how == Reset && !old(closed)))
    {
      hide MuxPeer.State;
      peer.StateOf(id);
      if !closed { Detach(how); }
    }

    /** The fields a graceful close sets. */
    method Settle()
      requires Attached() && !closed
      modifies this, peer`outgoingBuffered
      ensures Attached() && remoteReset == old(remoteReset)
      ensures Value() == old(Value()).(closed := true, sendCredit := INITIAL_WINDOW, outReserved := 0)
      ensures peer.outgoingBuffered == Max(0, old(peer.outgoingBuffered) - old(outgoingReserved))
    {
      hide MuxPeer.State;
      closed := true;
      if sendCredit != INITIAL_WINDOW { sendCredit := INITIAL_WINDOW; }
      ReleaseOutgoingReserved(outgoingReserved);
    }

    method RemoteClose()
      requires Attached() || Detached()
      modifies this, peer`streams, peer`incomingBuffered, peer`outgoingBuffered, peer`history
      ensures peer.streams == old(peer.streams) || peer.streams == old(peer.streams) - {id}
      ensures peer.Valid()
      ensures peer.State() == MuxState.RemoteClose(old(peer.State()), id)
      ensures remoteReset == (old(remoteReset) || (!old(closed) && !old(remoteEof)))
      ensures closed && readBuffer == if old(closed) || old(remoteEof) then old(readBuffer) else []
    {
      hide MuxPeer.State;
      peer.StateOf(id);
      if closed { return; }
      if remoteEof {
        Settle();
        if readBuffer == [] {
          peer.RemoveStream(id, Drained);
          peer.RemovedOne(id);
        } else {
          peer.ChangedOne(id);
        }
      } else {
        MarkClosed(Reset);
      }
    }

    method Receive(data: Bytes) returns (error: Option<ProtocolError>)
      requires Attached()
      modifies this, peer`incomingBuffered
      ensures Attached()
      ensures match MuxState.Receive(old(peer.State()), id, data)
              case Continue(p, _) => error.None? && peer.State() == p
              case Raise(e) => error == Some(e) && peer.State() == old(peer.State())
    {
      hide MuxPeer.State;
      peer.StateOf(id);
      if data == [] { return Some(EmptyData); }
      if remoteEof || closed { return Some(DataAfterClose); }
      if |data| > receiveCredit { return Some(WindowExceeded); }
      error := peer.ReserveIncoming(|data|);
      if error.None? {
        receiveCredit := receiveCredit - |data|;
        readBuffer := readBuffer + data;
        peer.ChangedOne(id);
      }
    }

    method ReceiveEof()
      requires Attached()
      modifies this
      ensures Attached() && peer.State() == MuxState.ReceiveEof(old(peer.State()), id)
    {
      hide MuxPeer.State;
      peer.StateOf(id);
      if !remoteEof && !closed {
        remoteEof := true;
        peer.ChangedOne(id);
      }
    }

    method AddCredit(amount: int) returns (error: Option<ProtocolError>)
      requires Attached()
      modifies this, peer`outgoingBuffered
      ensures Attached()
      ensures match MuxState.AddCredit(old(peer.State()), id, amount)
              case Continue(p, _) => error.None? && peer.State() == p
              case Raise(e) => error == Some(e) && peer.State() == old(peer.State())
    {
      hide MuxPeer.State;
      peer.StateOf(id);
      var outstanding := INITIAL_WINDOW - sendCredit;
      if amount <= 0 || amount > outstanding || amount > outgoingReserved { return Some(InvalidWindowUpdate); }
      sendCredit := sendCredit + amount;
      ReleaseOutgoingReserved(amount);
      peer.ChangedOne(id);
      error := None;
    }

    /** The fields `read` changes when something is buffered. */
    method TakeUnread(count: nat) returns (data: Bytes)
      requires (Attached() || Detached()) && 0 < count <= |readBuffer|
      modifies this`readBuffer, this`receiveCredit, peer`incomingBuffered, peer`history
      ensures old(Attached()) ==> Attached()
      ensures old(Detached()) ==> Detached()
      ensures data == old(readBuffer)[..count]
      ensures Value() == old(Value()).(buffer := old(readBuffer)[count..], recvCredit := old(receiveCredit) + count)
      ensures peer.incomingBuffered == Max(0, old(peer.incomingBuffered) - count)
      ensures peer.history
        == old(peer.history).(got := old(peer.history).got[id := Log(old(peer.history).got, id) + data])
    {
      hide MuxPeer.State;
      data := readBuffer[..count];
      readBuffer := readBuffer[count..];
      receiveCredit := receiveCredit + count;
      peer.ReleaseIncoming(count);
      peer.RecordRead(id, data);
    }

    /** `read` when something is buffered. */
    method ReadSome(count: nat) returns (data: Bytes)
      requires Attached() && 0 < count <= |readBuffer|
      modifies this, peer
      ensures peer.Valid() && data == old(readBuffer)[..count]
      ensures peer.State() == MuxState.TakeUnread(old(peer.State()), id, count)
      ensures peer.submitted == old(peer.submitted) + if old(closed) then [] else [CreditFrame(id, count)]
    {
      hide MuxPeer.State;
      peer.StateOf(id);
      data := TakeUnread(count);
      if closed && readBuffer == [] {
        peer.RemoveStream(id, Drained);
        peer.RemovedOne(id);
      } else {
        peer.ChangedOne(id);
      }
      if !closed { peer.Send(CreditFrame(id, count)); }
    }

    /** `read` on a stream object that has left the map with data unread. */
    method ReadOrphaned(count: nat) returns (data: Bytes)
      requires Detached() && 0 < count <= |readBuffer|
      modifies this, peer`incomingBuffered, peer`history
      ensures Detached() && data == old(readBuffer)[..count] && readBuffer == old(readBuffer)[count..]
      ensures peer.incomingBuffered == Max(0, old(peer.incomingBuffered) - count)
      ensures peer.State() == TakeOrphaned(old(peer.State()), id, data)
    {
      hide MuxPeer.State;
      peer.Fields();
      data := TakeUnread(count);
      peer.SameStreams();
    }

    /** `read`, once it need not wait. */
    method Read(size: int) returns (data: Bytes)
      requires Attached() || Detached()
      requires CanRead(Value(), size)
      modifies this, peer
      ensures peer.Valid()
      ensures data == old(readBuffer)[..ReadCount(old(Value()), size)]
      ensures size >= 0 ==> |data| <= size
      ensures 0 <= size <= |old(readBuffer)| ==> |data| == size
      ensures size < 0 || size >= |old(readBuffer)| ==> data == old(readBuffer)
      ensures old(Attached()) ==>
        peer.State() == ApplyRead(old(peer.State()), id, size).0
        && peer.submitted == old(peer.submitted) + ApplyRead(old(peer.State()), id, size).1
      ensures old(Detached()) ==>
        && Detached() && readBuffer == old(readBuffer)[|data|..]
        && peer.State() == TakeOrphaned(old(peer.State()), id, data) && peer.submitted == old(peer.submitted)
        && peer.incomingBuffered == if data == [] then old(peer.incomingBuffered)
             else Max(0, old(peer.incomingBuffered) - |data|)
    {
      hide MuxPeer.State, MuxState.TakeUnread;
      peer.StateOf(id);
      if size == 0 { return []; }
      if readBuffer == [] {
        if closed && id in peer.streams {
          peer.RemoveStream(id, Drained);
          peer.RemovedOne(id);
        }
        return [];
      }
      var count := if size < 0 then |readBuffer| else Min(size, |readBuffer|);
      if id in peer.streams {
        data := ReadSome(count);
      } else {
        data := ReadOrphaned(count);
      }
    }

    /** `read` that is cancelled while it waits to send its credit. */
    method CancelledRead(size: int)
      requires Attached() && !closed && size != 0 && readBuffer != []
      modifies this, peer
      ensures peer.Valid() && peer.submitted == old(peer.submitted)
      ensures var count := if 0 <= size < |old(readBuffer)| then size else |old(readBuffer)|;
        peer.State() == LoseCredit(MuxState.TakeUnread(old(peer.State()), id, count), id, count)
    {
      hide MuxPeer.State, MuxState.TakeUnread;
      var count := if size < 0 then |readBuffer| else Min(size, |readBuffer|);
      var data := TakeAndKeep(count);
      peer.RecordLoss(id, count);
    }

    method TakeAndKeep(count: nat) returns (data: Bytes)
      requires Attached() && !closed && 0 < count <= |readBuffer|
      modifies this, peer`incomingBuffered, peer`history
      ensures Attached() && data == old(readBuffer)[..count]
      ensures peer.State() == MuxState.TakeUnread(old(peer.State()), id, count)
    {
      hide MuxPeer.State;
      peer.StateOf(id);
      data := TakeUnread(count);
      peer.ChangedOne(id);
    }

    method WriteEof()
      requires Attached() || Detached()
      requires Idle(Value())
      modifies this, peer
      ensures peer.Valid()
      ensures old(Attached()) ==>
        peer.State() == ApplyWriteEof(old(peer.State()), id).0
        && peer.submitted == old(peer.submitted) + ApplyWriteEof(old(peer.State()), id).1
      ensures old(Detached()) ==> peer.State() == old(peer.State()) && peer.submitted == old(peer.submitted)
    {
      hide MuxPeer.State;
      peer.StateOf(id);
      if !localEof && !closed {
        localEof := true;
        peer.RecordEof(id);
        peer.Send(HalfCloseFrame(id));
        peer.ChangedOne(id);
      }
    }

    /** `write_eof` that is cancelled while it waits to send its HALF_CLOSE. */
    method CancelledWriteEof()
      requires Attached() && !closed && !localEof
      modifies this
      ensures Attached() && peer.State() == SetEnd(old(peer.State()), id, old(Value()).(localEof := true))
    {
      hide MuxPeer.State;
      peer.StateOf(id);
      localEof := true;
      peer.ChangedOne(id);
    }

    /** `close` that is cancelled while it waits to send its CLOSE. */
    method CancelledClose()
      requires Attached() && !closed
      modifies this, peer
      ensures Detached() && peer.submitted == old(peer.submitted)
      ensures peer.State() == Mute(MuxState.MarkClosed(old(peer.State()), id, ClosedHere), id)
    {
      hide MuxPeer.State, MuxState.MarkClosed;
      MarkClosed(ClosedHere);
      peer.RecordMuted(id);
    }

    method DropOrphaned()
      requires Detached()
      modifies this, peer`incomingBuffered
      ensures Detached() && readBuffer == []
      ensures peer.State() == old(peer.State()).(
        inBuffered := if |old(readBuffer)| > 0 then Max(0, old(peer.State()).inBuffered - |old(readBuffer)|)
                      else old(peer.State()).inBuffered)
    {
      hide MuxPeer.State;
      peer.Fields();
      DropUnread();
      peer.SameStreams();
    }

    /** `close` of a stream the other side has closed already, with data unread. */
    method CloseAgain(reason: string)
      requires Attached() && closed
      modifies this, peer`streams, peer`incomingBuffered, peer`history
      ensures peer.Valid() && peer.State() == ApplyClose(old(peer.State()), id, reason).0
    {
      hide MuxPeer.State, MuxState.MarkClosed;
      peer.StateOf(id);
      DropUnread();
      peer.RemoveStream(id, ClosedHere);
      peer.RemovedOne(id);
    }

    /** `close`; on a stream object out of the map it gives up what is still unread. */
    method Close(reason: string)
      requires Attached() || Detached()
      modifies this, peer
      ensures peer.Valid()
      ensures old(Attached()) ==>
        peer.State() == ApplyClose(old(peer.State()), id, reason).0
        && peer.submitted == old(peer.submitted) + ApplyClose(old(peer.State()), id, reason).1
      ensures old(Detached()) ==>
        && Detached() && readBuffer == [] && peer.submitted == old(peer.submitted)
        && peer.State() == old(peer.State()).(
             inBuffered := if |old(readBuffer)| > 0 then Max(0, old(peer.State()).inBuffered - |old(readBuffer)|)
                           else old(peer.State()).inBuffered)
    {
      hide MuxPeer.State, MuxState.MarkClosed;
      peer.StateOf(id);
      if closed {
        if id in peer.streams { CloseAgain(reason); } else { DropOrphaned(); }
        return;
      }
      MarkClosed(ClosedHere);
      peer.Send(CloseFrame(id, reason));
    }

    /** `_write_serialized` before its loop: a stream that is half-closed or closed refuses. */
    method StartWrite(data: Bytes) returns (ok: bool)
      requires (Attached() || Detached()) && Idle(Value())
      modifies this
      ensures ok <==> !old(localEof) && !old(closed)
      ensures old(Attached()) ==> Attached()
      ensures ok ==> !closed && peer.State() == SetEnd(old(peer.State()), id, old(Value()).(job := data))
      ensures !ok ==> Value() == old(Value()) && peer.State() == old(peer.State())
    {
      hide MuxPeer.State;
      peer.StateOf(id);
      if localEof || closed { return false; }
      job := data;
      peer.ChangedOne(id);
      ok := true;
    }

    /** `write`, once it holds the stream's write lock, as far as it gets without waiting. */
    method Write(data: Bytes) returns (ok: bool)
      requires (Attached() || Detached()) && Idle(Value())
      modifies this, peer
      ensures ok <==> !old(localEof) && !old(closed)
      ensures ok ==>
        && old(Attached()) && Attached()
        && var started := SetEnd(old(peer.State()), id, old(Value()).(job := data));
           Live(started, id) && (peer.State(), peer.submitted) == RunWriter(started, old(peer.submitted), id)
      ensures !ok ==> peer.State() == old(peer.State()) && peer.submitted == old(peer.submitted)
    {
      hide MuxPeer.State, RunWriter;
      ok := StartWrite(data);
      if ok {
        peer.StateOf(id);
        WriteSerialized();
      }
    }

    /** Leaves the wait for stream credit: the first half of a turn of the write loop. */
    method TakeCredit()
      requires Attached() && CanTakeCredit(Value())
      modifies this
      ensures Attached() && peer.State() == ApplyTakeCredit(old(peer.State()), id)
      ensures taken + job == old(job) && sendCredit == old(sendCredit) - |taken|
      ensures |taken| == 16384 || job == [] || sendCredit == 0
    {
      hide MuxPeer.State;
      peer.StateOf(id);
      var count := Min(Min(CHUNK_SIZE, sendCredit), |job|);
      sendCredit := sendCredit - count;
      taken, job := job[..count], job[count..];
      peer.ChangedOne(id);
    }

    /** Leaves the wait for aggregate credit and submits the chunk: the second half. */
    method SendChunk()
      requires Attached() && !closed && taken != [] && peer.outgoingBuffered + |taken| <= MAX_BUFFERED_DATA
      modifies this, peer
      ensures Attached()
      ensures peer.State() == ApplySendChunk(old(peer.State()), id).0
      ensures peer.submitted == old(peer.submitted) + ApplySendChunk(old(peer.State()), id).1
    {
      hide MuxPeer.State;
      peer.StateOf(id);
      var chunk := taken;
      peer.ReserveOutgoing(|chunk|);
      outgoingReserved := outgoingReserved + |chunk|;
      taken := [];
      peer.RecordWrite(id, chunk);
      peer.Send(DataFrame(id, chunk));
      peer.ChangedOne(id);
    }

    /**
     The write loop from where it stands, as far as it gets without waiting: until all is submitted,
     or stream or aggregate credit runs out.
     */
    method WriteSerialized()
      requires Attached() && !closed
      modifies this, peer
      ensures Attached()
      ensures (peer.State(), peer.submitted) == RunWriter(old(peer.State()), old(peer.submitted), id)
    {
      while (taken != [] && peer.outgoingBuffered + |taken| <= MAX_BUFFERED_DATA) || CanTakeCredit(Value())
        invariant Attached() && !closed
        invariant RunWriter(peer.State(), peer.submitted, id) == RunWriter(old(peer.State()), old(peer.submitted), id)
        decreases 2 * |job| + |taken|
      {
        if taken == [] {
          TakeCredit();
        } else {
          SendChunk();
        }
      }
    }

    method CancelWrite()
      requires Attached()
      modifies this
      ensures Attached() && peer.State() == ApplyCancelWrite(old(peer.State()), id)
    {
      hide MuxPeer.State;
      peer.StateOf(id);
      if !closed { sendCredit := sendCredit + |taken|; }
      taken, job := [], [];
      peer.ChangedOne(id);
    }
  }

  class MuxPeer {
    const role: Role
    const nonce: string
    const maxStreams: nat
    const handlesOpen: bool
    const handlesListen: bool

    var streams: map<nat, MuxStream>
    var nextStreamId: nat
    var highestPeerId: nat
    var helloReceived: bool
    var helloAckReceived: bool
    var peerHello: Option<(string, string)>
    var pendingOpens: map<nat, Option<bool>>
    var pendingListens: map<nat, Option<bool>>
    var inboundRequests: map<nat, Request>
    var activeListeners: set<nat>
    var incomingBuffered: int
    var outgoingBuffered: int
    // The frames submitted to the transport, oldest first.
    var submitted: seq<Frame>
    ghost var history: History

    ghost predicate Valid()
      reads this, streams.Values
    {
      forall id :: id in streams ==> streams[id].peer == this && streams[id].id == id
    }

    ghost function State(): Peer
      reads this, streams.Values
    {
      Peer(role, nonce, maxStreams, handlesOpen, handlesListen,
           map id | id in streams :: streams[id].Value(),
           nextStreamId, highestPeerId, helloReceived, helloAckReceived, peerHello,
           pendingOpens, pendingListens, inboundRequests, activeListeners,
           incomingBuffered, outgoingBuffered, history)
    }

    /** The fields no stream method touches are as they were. */
    twostate predicate OnlyStreams()
      reads this
    {
      && nextStreamId == old(nextStreamId) && highestPeerId == old(highestPeerId)
      && helloReceived == old(helloReceived) && helloAckReceived == old(helloAckReceived)
      && peerHello == old(peerHello)
      && pendingOpens == old(pendingOpens) && pendingListens == old(pendingListens)
      && inboundRequests == old(inboundRequests) && activeListeners == old(activeListeners)
    }

    /** The state after one stream object has changed. */
    twostate lemma ChangedOne(id: nat)
      requires old(Valid()) && id in streams && streams == old(streams) && OnlyStreams()
      requires forall j :: j in streams && j != id ==> streams[j].Value() == old(streams[j].Value())
      ensures Valid()
      ensures State() == old(State()).(streams := old(State()).streams[id := streams[id].Value()],
                                       inBuffered := incomingBuffered, outBuffered := outgoingBuffered,
                                       history := history)
    {
      assert State().streams == old(State()).streams[id := streams[id].Value()];
    }

    /** The state after one stream object has left the map. */
    twostate lemma RemovedOne(id: nat)
      requires old(Valid()) && streams == old(streams) - {id} && OnlyStreams()
      requires forall j :: j in streams ==> streams[j].Value() == old(streams[j].Value())
      ensures Valid()
      ensures State() == old(State()).(streams := old(State()).streams - {id},
                                       inBuffered := incomingBuffered, outBuffered := outgoingBuffered,
                                       history := history)
    {
      assert State().streams == old(State()).streams - {id};
    }

    /** What the abstract state says of a stream object in the map. */
    lemma StateOf(id: nat)
      requires Valid()
      ensures id in State().streams <==> id in streams
      ensures id in streams ==> State().streams[id] == streams[id].Value()
      ensures State().inBuffered == incomingBuffered && State().outBuffered == outgoingBuffered
        && State().history == history
    {
    }

    constructor (role: Role, nonce: string, maxStreams: nat, handlesOpen: bool, handlesListen: bool)
      ensures Valid() && State() == NewPeer(role, nonce, maxStreams, handlesOpen, handlesListen) && submitted == []
    {
      this.role, this.nonce, this.maxStreams := role, nonce, maxStreams;
      this.handlesOpen, this.handlesListen := handlesOpen, handlesListen;
      streams := map[];
      nextStreamId := if role == Client then 1 else 2;
      highestPeerId := 0;
      helloReceived, helloAckReceived, peerHello := false, false, None;
      pendingOpens, pendingListens, inboundRequests, activeListeners := map[], map[], map[], {};
      incomingBuffered, outgoingBuffered := 0, 0;
      submitted := [];
      history := History(map[], map[], map[], {}, {}, {}, map[]);
    }

    method ReleaseOutgoing(amount: int)
      modifies this`outgoingBuffered
      ensures outgoingBuffered == Max(0, old(outgoingBuffered) - amount)
    {
      outgoingBuffered := Max(0, outgoingBuffered - amount);
    }

    method ReserveOutgoing(amount: nat)
      requires outgoingBuffered + amount <= MAX_BUFFERED_DATA
      modifies this`outgoingBuffered
      ensures outgoingBuffered == old(outgoingBuffered) + amount
    {
      outgoingBuffered := outgoingBuffered + amount;
    }

    method ReserveIncoming(amount: nat) returns (error: Option<ProtocolError>)
      modifies this`incomingBuffered
      ensures if old(incomingBuffered) + amount > MAX_BUFFERED_DATA
              then error == Some(AggregateExceeded) && incomingBuffered == old(incomingBuffered)
              else error.None? && incomingBuffered == old(incomingBuffered) + amount
    {
      if incomingBuffered + amount > MAX_BUFFERED_DATA { return Some(AggregateExceeded); }
      incomingBuffered := incomingBuffered + amount;
      error := None;
    }

    method ReleaseIncoming(amount: int)
      modifies this`incomingBuffered
      ensures incomingBuffered == Max(0, old(incomingBuffered) - amount)
    {
      incomingBuffered := Max(0, incomingBuffered - amount);
    }

    method RemoveStream(id: nat, ghost how: Ending)
      modifies this`streams, this`history
      ensures streams == old(streams) - {id}
      ensures history == old(history).(endings := old(history).endings[id := how])
    {
      streams := streams - {id};
      history := history.(endings := history.endings[id := how]);
    }

    method Send(f: Frame)
      modifies this`submitted
      ensures submitted == old(submitted) + [f]
      ensures old(Valid()) ==> Valid() && State() == old(State())
    {
      submitted := submitted + [f];
    }

    ghost method RecordRead(id: nat, data: Bytes)
      modifies this`history
      ensures history == old(history).(got := old(history).got[id := Log(old(history).got, id) + data])
    {
      history := history.(got := history.got[id := Log(history.got, id) + data]);
    }

    ghost method RecordLoss(id: nat, count: nat)
      requires Valid()
      modifies this`history
      ensures Valid() && State() == LoseCredit(old(State()), id, count)
    {
      hide State;
      Fields();
      history := history.(lost := history.lost[id := Count(history.lost, id) + count]);
      SameStreams();
    }

    ghost method RecordMuted(id: nat)
      requires Valid()
      modifies this`history
      ensures Valid() && State() == Mute(old(State()), id)
    {
      hide State;
      Fields();
      history := history.(muted := history.muted + {id});
      SameStreams();
    }

    ghost method RecordGrant(id: nat, accepted: bool)
      modifies this`history
      ensures history == old(history).(
        granted := if accepted then old(history).granted + {id} else old(history).granted)
    {
      if accepted { history := history.(granted := history.granted + {id}); }
    }

    ghost method RecordWrite(id: nat, data: Bytes)
      modifies this`history
      ensures history == old(history).(sent := old(history).sent[id := Log(old(history).sent, id) + data])
    {
      history := history.(sent := history.sent[id := Log(history.sent, id) + data]);
    }

    ghost method RecordEof(id: nat)
      modifies this`history
      ensures history == old(history).(eofs := old(history).eofs + {id})
    {
      history := history.(eofs := history.eofs + {id});
    }

    // ----- What the application asks for ----------------------------------------------------

    /** No stream object has changed: the other fields make up the difference. */
    twostate lemma SameStreams()
      requires old(Valid()) && streams == old(streams)
      requires forall j :: j in streams ==> streams[j].Value() == old(streams[j].Value())
      ensures Valid()
      ensures State() == old(State()).(
        nextId := nextStreamId, highestPeerId := highestPeerId,
        helloReceived := helloReceived, ackReceived := helloAckReceived, peerHello := peerHello,
        pendingOpens := pendingOpens, pendingListens := pendingListens,
        requests := inboundRequests, listeners := activeListeners,
        inBuffered := incomingBuffered, outBuffered := outgoingBuffered, history := history)
    {
      assert State().streams == old(State()).streams;
    }

    /** A new stream object has been put into the map. */
    twostate lemma AddedOne(id: nat, new stream: MuxStream)
      requires old(Valid()) && streams == old(streams)[id := stream] && stream.peer == this && stream.id == id
      requires forall j :: j in old(streams) && j != id ==> streams[j].Value() == old(streams[j].Value())
      ensures Valid()
      ensures State() == old(State()).(
        streams := old(State()).streams[id := stream.Value()],
        nextId := nextStreamId, highestPeerId := highestPeerId,
        helloReceived := helloReceived, ackReceived := helloAckReceived, peerHello := peerHello,
        pendingOpens := pendingOpens, pendingListens := pendingListens,
        requests := inboundRequests, listeners := activeListeners,
        inBuffered := incomingBuffered, outBuffered := outgoingBuffered, history := history)
    {
      var now, before := State().streams, old(State()).streams;
      assert now.Keys == before[id := stream.Value()].Keys;
      assert now == before[id := stream.Value()];
    }

    /** What the abstract state says of everything but the stream objects. */
    lemma Fields()
      requires Valid()
      ensures |State().streams| == |streams| && State().streams.Keys == streams.Keys
      ensures var p := State();
        && p.role == role && p.nonce == nonce && p.maxStreams == maxStreams
        && p.handlesOpen == handlesOpen && p.handlesListen == handlesListen
        && p.nextId == nextStreamId && p.highestPeerId == highestPeerId
        && p.helloReceived == helloReceived && p.ackReceived == helloAckReceived && p.peerHello == peerHello
        && p.pendingOpens == pendingOpens && p.pendingListens == pendingListens
        && p.requests == inboundRequests && p.listeners == activeListeners
        && p.inBuffered == incomingBuffered && p.outBuffered == outgoingBuffered && p.history == history
    {
      assert State().streams.Keys == streams.Keys;
    }

    method AllocateStreamId() returns (id: Option<nat>)
      requires Valid()
      modifies this`nextStreamId
      ensures if old(nextStreamId) > MAX_STREAM_ID
              then id.None? && nextStreamId == old(nextStreamId)
              else id == Some(old(nextStreamId)) && nextStreamId == old(nextStreamId) + 2
      ensures Valid() && State() == old(State()).(nextId := nextStreamId)
    {
      hide State;
      Fields();
      SameStreams();
      if nextStreamId > MAX_STREAM_ID { return None; }
      id := Some(nextStreamId);
      nextStreamId := nextStreamId + 2;
      SameStreams();
    }

    method SetRequest(id: nat, state: Request)
      requires Valid()
      modifies this`inboundRequests
      ensures Valid() && State() == old(State()).(requests := old(State()).requests[id := state])
    {
      hide State;
      Fields();
      inboundRequests := inboundRequests[id := state];
      SameStreams();
    }

    method DropListener(id: nat)
      requires Valid()
      modifies this`activeListeners
      ensures Valid() && State() == old(State()).(listeners := old(State()).listeners - {id})
    {
      hide State;
      Fields();
      activeListeners := activeListeners - {id};
      SameStreams();
    }

    method ForgetOpen(id: nat)
      requires Valid()
      modifies this`pendingOpens
      ensures Valid() && State() == old(State()).(pendingOpens := old(State()).pendingOpens - {id})
    {
      hide State;
      Fields();
      pendingOpens := pendingOpens - {id};
      SameStreams();
    }

    /** A new stream object under `id`. */
    method Register(id: nat) returns (stream: MuxStream)
      requires Valid()
      modifies this`streams
      ensures fresh(stream) && stream.peer == this && stream.id == id && stream.Attached()
      ensures State() == SetEnd(old(State()), id, NEW_END) && streams == old(streams)[id := stream]
    {
      hide State;
      Fields();
      stream := new MuxStream(this, id);
      streams := streams[id := stream];
      AddedOne(id, stream);
    }

    method SubmitOpen(id: nat, metadata: Object) returns (stream: MuxStream)
      requires Valid()
      modifies this`streams, this`pendingOpens, this`submitted
      ensures fresh(stream) && stream.peer == this && stream.Attached()
      ensures State() == old(State()).(streams := old(State()).streams[id := NEW_END],
                                       pendingOpens := old(pendingOpens)[id := None])
      ensures submitted == old(submitted) + [Control(OPEN, id, metadata)]
    {
      hide State;
      Fields();
      stream := new MuxStream(this, id);
      streams := streams[id := stream];
      pendingOpens := pendingOpens[id := None];
      AddedOne(id, stream);
      Send(Control(OPEN, id, metadata));
    }

    /** `open_stream` up to its wait for the answer; no stream when a limit is reached. */
    method OpenStream(metadata: Object) returns (stream: Option<MuxStream>)
      requires Valid() && helloReceived && helloAckReceived
      modifies this
      ensures Valid()
      ensures stream.Some? <==> old(|streams| < maxStreams && nextStreamId <= MAX_STREAM_ID)
      ensures stream.Some? ==>
        && fresh(stream.value) && stream.value.Attached()
        && State() == ApplyOpen(old(State()), metadata).0
        && submitted == old(submitted) + ApplyOpen(old(State()), metadata).1
      ensures stream.None? ==> State() == old(State()) && submitted == old(submitted)
    {
      hide State;
      Fields();
      if |streams| >= maxStreams { return None; }
      var id := AllocateStreamId();
      if id.None? { return None; }
      var added := SubmitOpen(id.value, metadata);
      stream := Some(added);
    }

    /** `open_stream`, once the answer is there: a refusal closes the stream. */
    method FinishOpen(stream: MuxStream) returns (accepted: bool)
      requires stream.peer == this && (stream.Attached() || stream.Detached())
      requires stream.id in pendingOpens && pendingOpens[stream.id].Some?
      modifies this, stream
      ensures Valid() && submitted == old(submitted) && accepted == old(pendingOpens)[stream.id].value
      ensures State() == ApplyFinishOpen(old(State()), stream.id)
    {
      hide State, MuxState.MarkClosed;
      Fields();
      ClosingKeepsRequests(State(), stream.id);
      accepted := pendingOpens[stream.id].value;
      if !accepted { stream.MarkClosed(ClosedHere); }
      ForgetOpen(stream.id);
    }

    /** `open_stream`, when its wait times out or is cancelled. */
    method TimeoutOpen(stream: MuxStream)
      requires stream.peer == this && (stream.Attached() || stream.Detached())
      modifies this, stream
      ensures Valid()
      ensures State() == ApplyTimeoutOpen(old(State()), stream.id).0
      ensures submitted == old(submitted) + ApplyTimeoutOpen(old(State()), stream.id).1
    {
      hide State, MuxState.MarkClosed;
      Fields();
      ClosingKeepsRequests(State(), stream.id);
      stream.MarkClosed(ClosedHere);
      Send(CloseFrame(stream.id, "open timed out"));
      ForgetOpen(stream.id);
    }

    /** `open_stream` given up, and cancelled again while it waits to send its CLOSE. */
    method CancelledTimeoutOpen(stream: MuxStream)
      requires stream.peer == this && (stream.Attached() || stream.Detached())
      modifies this, stream
      ensures Valid() && submitted == old(submitted)
      ensures State() == Mute(ApplyTimeoutOpen(old(State()), stream.id).0, stream.id)
    {
      hide State, MuxState.MarkClosed, Mute;
      Fields();
      ClosingKeepsRequests(State(), stream.id);
      stream.MarkClosed(ClosedHere);
      ForgetOpen(stream.id);
      RecordMuted(stream.id);
    }

    method RequestListener(metadata: Object) returns (id: Option<nat>)
      requires Valid() && helloReceived && helloAckReceived
      modifies this`nextStreamId, this`pendingListens, this`submitted
      ensures Valid()
      ensures id.Some? <==> old(nextStreamId) <= MAX_STREAM_ID
      ensures id.Some? ==>
        && State() == ApplyRequestListener(old(State()), metadata).0
        && submitted == old(submitted) + ApplyRequestListener(old(State()), metadata).1
      ensures id.None? ==> State() == old(State()) && submitted == old(submitted)
    {
      hide State;
      Fields();
      id := AllocateStreamId();
      if id.None? { return; }
      label numbered:
      Fields();
      pendingListens := pendingListens[id.value := None];
      SameStreams@numbered();
      Send(Control(LISTEN, id.value, metadata));
    }

    /** `request_listener`, once the answer is there. */
    method FinishListen(id: nat) returns (accepted: bool)
      requires Valid() && id in pendingListens && pendingListens[id].Some?
      modifies this`pendingListens, this`history
      ensures Valid() && accepted == old(pendingListens)[id].value
      ensures State() == ApplyFinishListen(old(State()), id)
    {
      hide State;
      Fields();
      accepted := pendingListens[id].value;
      pendingListens := pendingListens - {id};
      RecordGrant(id, accepted);
      SameStreams();
    }

    /** `request_listener` given up, and cancelled again while it waits to send its CLOSE. */
    method CancelledTimeoutListen(id: nat)
      requires Valid() && id in pendingListens
      modifies this`pendingListens, this`history
      ensures Valid() && State() == Mute(old(State()).(pendingListens := old(pendingListens) - {id}), id)
    {
      hide State;
      Fields();
      pendingListens := pendingListens - {id};
      SameStreams();
      RecordMuted(id);
    }

    method TimeoutListen(id: nat)
      requires Valid() && id in pendingListens
      modifies this`pendingListens, this`submitted
      ensures Valid() && State() == old(State()).(pendingListens := old(pendingListens) - {id})
      ensures submitted == old(submitted) + [CloseFrame(id, "listen timed out")]
    {
      hide State;
      Fields();
      pendingListens := pendingListens - {id};
      SameStreams();
      Send(CloseFrame(id, "listen timed out"));
    }

    // ----- What the tasks serving the other peer do ------------------------------------------

    /** `_finish_open`, once the open handler has returned or raised; its task is then done. */
    method CompleteOpen(stream: MuxStream, ok: bool)
      requires stream.peer == this && (stream.Attached() || stream.Detached())
      modifies this, stream
      ensures Valid()
      ensures State() == ApplyCompleteOpen(old(State()), stream.id, ok).0
      ensures submitted == old(submitted) + ApplyCompleteOpen(old(State()), stream.id, ok).1
    {
      hide State, MuxState.RemoteClose;
      Fields();
      ClosingKeepsRequests(State(), stream.id);
      if !ok { stream.RemoteClose(); }
      Send(ResultFrame(OPEN_RESULT, stream.id, ok));
      SetRequest(stream.id, Ended);
    }

    /** `_finish_listen` up to its call of the handler. */
    method BeginListen(id: nat)
      requires Valid()
      modifies this`inboundRequests, this`submitted
      ensures Valid()
      ensures State() == ApplyBeginListen(old(State()), id).0
      ensures submitted == old(submitted) + ApplyBeginListen(old(State()), id).1
    {
      hide State;
      Fields();
      if !handlesListen || |activeListeners| >= maxStreams {
        SetRequest(id, Ended);
        Send(ResultFrame(LISTEN_RESULT, id, false));
      } else {
        SetRequest(id, ListenRunning);
      }
    }

    /** `_finish_listen`, once the handler has returned or raised. */
    method CompleteListen(id: nat, ok: bool)
      requires Valid()
      modifies this`inboundRequests, this`activeListeners, this`submitted
      ensures Valid()
      ensures State() == ApplyCompleteListen(old(State()), id, ok).0
      ensures submitted == old(submitted) + ApplyCompleteListen(old(State()), id, ok).1
    {
      hide State;
      Fields();
      if ok { activeListeners := activeListeners + {id}; }
      inboundRequests := inboundRequests[id := Ended];
      SameStreams();
      Send(ResultFrame(LISTEN_RESULT, id, ok));
    }

    /** The done callback of a request task. */
    method Reap(id: nat)
      requires Valid()
      modifies this`inboundRequests
      ensures Valid() && State() == old(State()).(requests := old(inboundRequests) - {id})
    {
      hide State;
      Fields();
      inboundRequests := inboundRequests - {id};
      SameStreams();
    }

    // ----- What the other peer's frames do ---------------------------------------------------

    /**
     The object state agrees with what `effect` says. After an error the tunnel is torn down, and
     nothing more is said of it.
     */
    twostate predicate Performs(effect: Effect, new error: Option<ProtocolError>)
      reads this, streams.Values
    {
      match effect
      case Continue(p, out) => error.None? && Valid() && OldOrFresh() && State() == p
        && submitted == old(submitted) + out
      case Raise(e) => error == Some(e)
    }

    /** No stream object has come into the map but new ones. */
    twostate predicate OldOrFresh()
      reads this
    {
      forall id :: id in streams ==> (id in old(streams) && streams[id] == old(streams)[id]) || fresh(streams[id])
    }

    method RecordHello(identity: (string, string))
      requires Valid()
      modifies this`peerHello, this`helloReceived
      ensures Valid() && State() == old(State()).(peerHello := Some(identity), helloReceived := true)
    {
      hide State;
      Fields();
      peerHello, helloReceived := Some(identity), true;
      SameStreams();
    }

    method ReceiveHello(payload: Payload) returns (error: Option<ProtocolError>)
      requires Valid()
      modifies this`peerHello, this`helloReceived, this`submitted
      ensures Performs(MuxState.ReceiveHello(old(State()), payload), error)
    {
      hide State, HelloAckFrame, Get, EqualsOne;
      Fields();
      if payload.json.None? { return Some(InvalidControl); }
      var hello := payload.json.value;
      var from, nonce := Get(hello, "role"), Get(hello, "nonce");
      if !(from == Text("client") || from == Text("agent")) || from == Text(RoleName(role)) { return Some(BadRole); }
      if !EqualsOne(Get(hello, "version")) { return Some(BadVersion); }
      if Get(hello, "window") != Int(INITIAL_WINDOW) { return Some(BadWindow); }
      if !nonce.Text? || |nonce.text| == 0 || |nonce.text| > 128 { return Some(BadNonce); }
      if peerHello.Some? && peerHello.value != (from.text, nonce.text) { return Some(HelloChanged); }
      RecordHello((from.text, nonce.text));
      Send(HelloAckFrame());
      error := None;
    }

    method ReceiveHelloAck(payload: Payload) returns (error: Option<ProtocolError>)
      requires Valid()
      modifies this`helloAckReceived
      ensures Performs(MuxState.ReceiveHelloAck(old(State()), payload), error)
    {
      hide State;
      Fields();
      if payload.json.None? { return Some(InvalidControl); }
      var ack := payload.json.value;
      if Get(ack, "ok") != Bool(true) || !EqualsOne(Get(ack, "version")) { return Some(HandshakeRejected); }
      if !helloAckReceived { helloAckReceived := true; }
      SameStreams();
      error := None;
    }

    /** `_validate_peer_request_id`, which also records the ID. */
    method ValidatePeerRequestId(id: nat) returns (error: Option<ProtocolError>)
      requires Valid()
      modifies this`highestPeerId
      ensures Valid() && error == MuxState.ValidatePeerRequestId(old(State()), id)
      ensures error.None? ==> State() == old(State()).(highestPeerId := id)
    {
      hide State;
      Fields();
      if Owns(role, id) { return Some(BadParity); }
      if id <= highestPeerId { return Some(IdNotIncreasing); }
      highestPeerId := id;
      SameStreams();
      error := None;
    }

    method IsStaleId(id: nat) returns (stale: bool)
      requires Valid()
      ensures stale == MuxState.IsStaleId(State(), id)
    {
      hide State;
      Fields();
      stale := if Owns(role, id) then 0 < id < nextStreamId else 0 < id <= highestPeerId;
    }

    method StartOpen(f: Frame) returns (error: Option<ProtocolError>)
      requires Valid()
      modifies this
      ensures Performs(MuxState.StartOpen(old(State()), f), error)
    {
      hide State;
      Fields();
      error := ValidatePeerRequestId(f.id);
      if error.Some? { return; }
      if |streams| >= maxStreams || !handlesOpen {
        Send(ResultFrame(OPEN_RESULT, f.id, false));
        return;
      }
      if f.payload.json.None? { return Some(InvalidControl); }
      var stream := Register(f.id);
      SetRequest(f.id, OpenRunning);
    }

    method StartListen(f: Frame) returns (error: Option<ProtocolError>)
      requires Valid()
      modifies this
      ensures Performs(MuxState.StartListen(old(State()), f), error)
    {
      hide State;
      Fields();
      error := ValidatePeerRequestId(f.id);
      if error.Some? { return; }
      if f.payload.json.None? { return Some(InvalidControl); }
      if !handlesListen || |activeListeners| + |inboundRequests| >= maxStreams {
        Send(ResultFrame(LISTEN_RESULT, f.id, false));
        return;
      }
      SetRequest(f.id, ListenQueued);
    }

    /** Cancelling the task that serves request `id`, if there is one. */
    method CancelRequest(id: nat)
      requires Valid()
      modifies this`inboundRequests
      ensures Valid() && State() == MuxState.CancelRequest(old(State()), id)
    {
      hide State;
      Fields();
      if id in inboundRequests { SetRequest(id, Ended); }
    }

    /** What a CLOSE does to what it names, once its request task is cancelled. */
    method CloseNamed(id: nat) returns (known: bool)
      requires Valid()
      modifies this`streams, this`activeListeners, this`incomingBuffered, this`outgoingBuffered, this`history,
        streams.Values
      ensures Valid() && OldOrFresh()
      ensures known == (old(id in streams || id in activeListeners) || MuxState.IsStaleId(old(State()), id))
      ensures State() ==
        if id in old(State()).streams then MuxState.RemoteClose(old(State()), id)
        else if id in old(State()).listeners then old(State()).(listeners := old(State()).listeners - {id})
        else old(State())
    {
      hide State, MuxState.RemoteClose;
      Fields();
      known := true;
      if id in streams {
        streams[id].RemoteClose();
      } else if id in activeListeners {
        DropListener(id);
      } else {
        known := IsStaleId(id);
      }
    }

    method HandleClose(f: Frame) returns (error: Option<ProtocolError>)
      requires Valid()
      modifies this, streams.Values
      ensures Performs(MuxState.HandleClose(old(State()), f), error)
    {
      hide State, MuxState.RemoteClose, MuxState.CancelRequest, MuxState.IsStaleId, Get, Valid;
      Fields();
      if f.payload.json.None? { return Some(InvalidControl); }
      if !Get(f.payload.json.value, "reason", Text("")).Text? { return Some(BadReason); }
      CancelRequest(f.id);
      CancellingKeepsStreams(old(State()), f.id);
      var known := CloseNamed(f.id);
      error := if known then None else Some(UnknownRequest);
    }

    method AnswerOpen(id: nat, ok: bool)
      requires Valid()
      modifies this`pendingOpens
      ensures Valid() && State() == old(State()).(pendingOpens := old(State()).pendingOpens[id := Some(ok)])
    {
      hide State;
      Fields();
      pendingOpens := pendingOpens[id := Some(ok)];
      SameStreams();
    }

    method AnswerListen(id: nat, ok: bool)
      requires Valid()
      modifies this`pendingListens
      ensures Valid() && State() == old(State()).(pendingListens := old(State()).pendingListens[id := Some(ok)])
    {
      hide State;
      Fields();
      pendingListens := pendingListens[id := Some(ok)];
      SameStreams();
    }

    /** An OPEN_RESULT or LISTEN_RESULT: wakes the request that waits for it. */
    method ReceiveResult(f: Frame) returns (error: Option<ProtocolError>)
      requires Valid()
      modifies this`pendingOpens, this`pendingListens
      ensures Performs(DispatchResult(old(State()), f), error)
    {
      hide State, DecodeResult;
      Fields();
      error := None;
      var result := DecodeResult(f.payload);
      if result.Failure? { return Some(result.error); }
      if f.kind == OPEN_RESULT && Awaited(pendingOpens, f.id) {
        AnswerOpen(f.id, result.value);
      } else if f.kind == LISTEN_RESULT && Awaited(pendingListens, f.id) {
        AnswerListen(f.id, result.value);
      } else {
        var stale := IsStaleId(f.id);
        if !stale { return Some(UnexpectedResult); }
      }
    }

    method ReceiveOnStream(f: Frame) returns (error: Option<ProtocolError>)
      requires Valid() && f.id in streams
      modifies this, streams.Values
      ensures Performs(DispatchToStream(old(State()), f), error)
    {
      hide State;
      Fields();
      var stream := streams[f.id];
      error := None;
      if f.kind == DATA {
        error := stream.Receive(f.payload.data);
      } else if f.kind == WINDOW_UPDATE {
        if f.payload.json.None? { return Some(InvalidControl); }
        var credit := Get(f.payload.json.value, "credit");
        if !credit.Int? { return Some(BadCredit); }
        error := stream.AddCredit(credit.number);
      } else {
        stream.ReceiveEof();
      }
    }

    /** `_dispatch`: one received frame. */
    method Dispatch(f: Frame) returns (error: Option<ProtocolError>)
      requires Valid()
      modifies this, streams.Values
      ensures Performs(MuxState.Dispatch(old(State()), f), error)
    {
      hide State, MuxState.StartOpen, MuxState.StartListen, MuxState.HandleClose, DispatchResult, DispatchToStream,
        MuxState.ReceiveHello, MuxState.ReceiveHelloAck;
      Fields();
      error := ValidateFrameShape(f);
      if error.Some? { return; }
      if f.kind == HELLO {
        error := ReceiveHello(f.payload);
      } else if f.kind == HELLO_ACK {
        error := ReceiveHelloAck(f.payload);
      } else if !(helloReceived && helloAckReceived) {
        error := Some(BeforeHandshake);
      } else if f.kind == OPEN {
        error := StartOpen(f);
      } else if f.kind == OPEN_RESULT || f.kind == LISTEN_RESULT {
        error := ReceiveResult(f);
      } else if f.kind == CLOSE {
        error := HandleClose(f);
      } else if f.kind == LISTEN {
        error := StartListen(f);
      } else if f.kind == PING {
        Send(Frame(PONG, 0, f.payload, 0));
      } else if f.kind != PONG {
        if f.id in streams {
          error := ReceiveOnStream(f);
        } else {
          var stale := IsStaleId(f.id);
          if !stale { error := Some(UnknownStream); }
        }
      }
    }

    /** The frames cut out of one read of the transport, until one of them is an error. */
    method DispatchFrames(frames: seq<Frame>) returns (error: Option<ProtocolError>)
      requires Valid()
      modifies this, streams.Values
      ensures match DispatchEach(old(State()), old(submitted), frames)
              case Continue(p, out) => error.None? && Valid() && State() == p && submitted == out
              case Raise(e) => error == Some(e)
    {
      hide State, MuxState.Dispatch;
      error := None;
      for i := 0 to |frames|
        invariant Valid() && OldOrFresh() && error.None?
        invariant DispatchEach(State(), submitted, frames[i..]) == DispatchEach(old(State()), old(submitted), frames)
      {
        assert frames[i..][0] == frames[i] && frames[i..][1..] == frames[i + 1..];
        error := Dispatch(frames[i]);
        if error.Some? { return; }
      }
      assert frames[|frames|..] == [];
    }

    // ----- The end of the tunnel --------------------------------------------------------------

    /** What is left of the bookkeeping once the streams are closed. */
    method ClearTables()
      requires Valid()
      modifies this`streams, this`inboundRequests, this`activeListeners, this`pendingOpens, this`pendingListens
      ensures Valid() && streams == map[]
      ensures State() == old(State()).(
        streams := map[], requests := map[], listeners := {},
        pendingOpens := FailWaiting(old(State()).pendingOpens),
        pendingListens := FailWaiting(old(State()).pendingListens))
    {
      streams, inboundRequests, activeListeners := map[], map[], {};
      pendingOpens, pendingListens := FailWaiting(pendingOpens), FailWaiting(pendingListens);
    }

    /** A stream object as the closing found it, and as it left it. */
    twostate predicate ClosedDown(stream: MuxStream)
      reads stream
    {
      && stream.closed
      && stream.readBuffer == if old(stream.closed) || old(stream.remoteEof) then old(stream.readBuffer) else []
    }

    /** One turn of the loop of `_shutdown`. */
    method CloseOne(stream: MuxStream)
      requires Valid() && stream.id in streams && streams[stream.id] == stream
      modifies this`streams, this`incomingBuffered, this`outgoingBuffered, this`history, stream
      ensures Valid() && ClosedDown(stream)
      ensures streams == old(streams) || streams == old(streams) - {stream.id}
      ensures State() == MuxState.RemoteClose(old(State()), stream.id)
    {
      hide State, MuxState.RemoteClose;
      stream.RemoteClose();
    }

    /** The loop of `_shutdown`: `order` is the order in which it comes to the streams. */
    method CloseStreams(all: map<nat, MuxStream>) returns (ghost order: seq<nat>)
      requires Valid() && all == streams
      modifies this`streams, this`incomingBuffered, this`outgoingBuffered, this`history, streams.Values
      ensures Valid() && State() == CloseAll(old(State()), order)
      ensures forall id :: id in all ==> id in order && ClosedDown(all[id])
    {
      hide State, MuxState.RemoteClose, CloseAll, MuxStream.Value;
      CloseAllNone(State());
      var left := all.Keys;
      order := [];
      while left != {}
        invariant Valid() && left <= all.Keys && left <= streams.Keys
        invariant forall id :: id in streams ==> id in all && streams[id] == all[id]
        invariant forall id :: id in all ==> id in left || id in order
        invariant State() == CloseAll(old(State()), order)
        invariant forall id :: id in left ==> unchanged(all[id])
        invariant forall id :: id in all && id !in left ==> ClosedDown(all[id])
        decreases |left|
      {
        var id :| id in left;
        left := left - {id};
        CloseOne(all[id]);
        CloseAllMore(old(State()), order, id);
        order := order + [id];
      }
    }

    /** `_shutdown`: every stream object is out of the map, with what was half-closed still to be read. */
    method Shutdown() returns (ghost order: seq<nat>)
      requires Valid()
      modifies this, streams.Values
      ensures Valid() && submitted == old(submitted)
      ensures forall id :: id in old(streams) ==> id in order
      ensures State() == MuxState.Shutdown(old(State()), order)
      ensures forall id :: id in old(streams) ==> old(streams)[id].Detached() && ClosedDown(old(streams)[id])
    {
      hide State, CloseAll, FailWaiting;
      Fields();
      var all := streams;
      order := CloseStreams(all);
      Fields();
      ClearTables();
      assert forall id :: id in all ==> ClosedDown(all[id]);
      AllDetached(all);
    }

    lemma AllDetached(all: map<nat, MuxStream>)
      requires Valid() && streams == map[]
      requires forall id :: id in all ==> all[id].peer == this && all[id].closed
      ensures forall id :: id in all ==> all[id].Detached()
    {
    }
  }
}
