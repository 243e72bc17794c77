/** What one run of the write loop submits, and where it stops. */
module MuxWriter {
  import opened Common
  import opened MuxState

  /** The payloads of a run of frames. */
  function Payloads(frames: seq<Frame>): seq<Bytes> {
    if frames == [] then [] else [frames[0].payload.data] + Payloads(frames[1..])
  }

  /** DATA frames of one stream, each carrying 1 to 16384 bytes. */
  predicate AreChunks(frames: seq<Frame>, id: nat) {
    forall f :: f in frames ==>
      f == DataFrame(id, f.payload.data) && 0 < |f.payload.data| <= CHUNK_SIZE
  }

  /** The writer can go no further by itself. */
  predicate WriterStuck(p: Peer, id: nat)
    requires Live(p, id)
  {
    var e := p.streams[id];
    if e.taken != [] then p.outBuffered + |e.taken| > MAX_BUFFERED_DATA
    else e.job != [] ==> e.sendCredit <= 0
  }

  /**
   Between `p` and `p'`, stream `id` submitted `data` and nothing else happened: every byte was
   charged to the stream's credit when it was taken and to the peer's total when it was submitted.
   */
  ghost predicate Wrote(p: Peer, p': Peer, id: nat, data: Bytes) {
    && Live(p, id) && Live(p', id)
    && var e, e' := p.streams[id], p'.streams[id];
    && e.taken + e.job == data + e'.taken + e'.job
    && e' == e.(sendCredit := e.sendCredit + |e.taken| - |data| - |e'.taken|, outReserved := e.outReserved + |data|,
                taken := e'.taken, job := e'.job)
    && Log(p'.history.sent, id) == Log(p.history.sent, id) + data
    && p' == p.(streams := p.streams[id := e'], outBuffered := p.outBuffered + |data|,
                history := p.history.(sent := p'.history.sent))
  }

  lemma WroteNothing(p: Peer, id: nat)
    requires Live(p, id)
    ensures Wrote(p, p, id, [])
  {
    assert p.streams == p.streams[id := p.streams[id]];
  }

  lemma WroteAfterTaking(p: Peer, p1: Peer, p': Peer, id: nat, data: Bytes)
    requires Live(p, id) && CanTakeCredit(p.streams[id]) && p1 == ApplyTakeCredit(p, id) && Wrote(p1, p', id, data)
    ensures Wrote(p, p', id, data)
  {
    var e, e1 := p.streams[id], p1.streams[id];
    assert e.job == e1.taken + e1.job;
    assert p.streams[id := e1][id := p'.streams[id]] == p.streams[id := p'.streams[id]];
  }

  lemma LogAppended(logs: map<nat, Bytes>, id: nat, chunk: Bytes)
    ensures Log(logs[id := Log(logs, id) + chunk], id) == Log(logs, id) + chunk
  {
  }

  lemma WroteAfterSending(p: Peer, p1: Peer, p': Peer, id: nat, chunk: Bytes, data: Bytes)
    requires Live(p, id) && chunk == p.streams[id].taken && p1 == ApplySendChunk(p, id).0 && Wrote(p1, p', id, data)
    ensures Wrote(p, p', id, chunk + data)
  {
    hide Log;
    LogAppended(p.history.sent, id, chunk);
    var e, e1, e' := p.streams[id], p1.streams[id], p'.streams[id];
    assert e1.taken + e1.job == e.job;
    assert e.taken + (data + e'.taken + e'.job) == (chunk + data) + e'.taken + e'.job;
    assert p.streams[id := e1][id := e'] == p.streams[id := e'];
    assert Log(p.history.sent, id) + chunk + data == Log(p.history.sent, id) + (chunk + data);
  }

  /** What either half of a turn leaves for the next one. */
  lemma TurnFacts(p: Peer, id: nat)
    requires Live(p, id)
    ensures
      var (p', f) := ApplySendChunk(p, id);
      && Live(p', id) && f == [DataFrame(id, p.streams[id].taken)] && (Held(p, id) ==> Held(p', id))
      && p'.streams[id].taken == [] && p'.streams[id].job == p.streams[id].job
    ensures CanTakeCredit(p.streams[id]) ==>
      var p' := ApplyTakeCredit(p, id);
      && Live(p', id) && (Held(p, id) ==> Held(p', id))
      && 0 < |p'.streams[id].taken| <= CHUNK_SIZE
      && |p'.streams[id].taken| + |p'.streams[id].job| == |p.streams[id].job|
  {
  }

  /**
   The loop cuts the data into chunks of 1 to 16384 bytes and submits them in order; and it stops
   only when all is submitted, or when the stream's or the peer's credit runs out.
   */
  lemma {:induction false} WriterSubmitsInOrder(p: Peer, out: seq<Frame>, id: nat) returns (frames: seq<Frame>)
    requires Live(p, id) && |p.streams[id].taken| <= CHUNK_SIZE
    ensures RunWriter(p, out, id).1 == out + frames && AreChunks(frames, id)
    ensures Wrote(p, RunWriter(p, out, id).0, id, Concat(Payloads(frames)))
    ensures WriterStuck(RunWriter(p, out, id).0, id)
    decreases 2 * |p.streams[id].job| + |p.streams[id].taken|
  {
    hide Wrote, Payloads, Concat, ApplySendChunk, ApplyTakeCredit;
    TurnFacts(p, id);
    var e := p.streams[id];
    if CanSendChunk(p, e) {
      var (p1, f) := ApplySendChunk(p, id);
      var rest := WriterSubmitsInOrder(p1, out + f, id);
      frames := f + rest;
      assert out + frames == out + f + rest;
      WroteAfterSending(p, p1, RunWriter(p, out, id).0, id, e.taken, Concat(Payloads(rest)));
      PayloadsJoin(f[0], rest);
    } else if CanTakeCredit(e) {
      var p1 := ApplyTakeCredit(p, id);
      frames := WriterSubmitsInOrder(p1, out, id);
      WroteAfterTaking(p, p1, RunWriter(p, out, id).0, id, Concat(Payloads(frames)));
    } else {
      frames := [];
      assert out + [] == out;
      WroteNothing(p, id);
      NoPayloads();
    }
  }

  lemma NoPayloads()
    ensures Concat(Payloads([])) == []
  {
  }

  lemma PayloadsJoin(f: Frame, rest: seq<Frame>)
    ensures Concat(Payloads([f] + rest)) == f.payload.data + Concat(Payloads(rest))
  {
    assert ([f] + rest)[1..] == rest;
    assert Payloads([f] + rest)[1..] == Payloads(rest);
  }

  /** The chunk in hand is as large as it can be. */
  predicate TookAll(e: End) { e.taken == [] || |e.taken| == 16384 || e.job == [] || e.sendCredit == 0 }

  predicate AllFull(frames: seq<Frame>) { forall i :: 0 <= i < |frames| - 1 ==> |frames[i].payload.data| == 16384 }

  lemma TurnTakesAll(p: Peer, id: nat)
    requires Live(p, id) && CanTakeCredit(p.streams[id])
    ensures var e' := ApplyTakeCredit(p, id).streams[id]; TookAll(e') && e'.sendCredit >= 0
  {
  }

  /** With its stream's credit used up or nothing left to send, the loop goes no further. */
  lemma NothingMore(p: Peer, out: seq<Frame>, id: nat)
    requires Live(p, id) && p.streams[id].taken == [] && (p.streams[id].job == [] || p.streams[id].sendCredit == 0)
    ensures RunWriter(p, out, id) == (p, out)
  {
  }

  lemma SentEnd(p: Peer, id: nat)
    requires Live(p, id)
    ensures var e, e' := p.streams[id], ApplySendChunk(p, id).0.streams[id];
      e'.taken == [] && e'.job == e.job && e'.sendCredit == e.sendCredit
  {
  }

  /** No chunk but the last of a run is smaller than 16384 bytes. */
  lemma {:induction false} ChunksAreFull(p: Peer, out: seq<Frame>, id: nat) returns (frames: seq<Frame>)
    requires Live(p, id) && TookAll(p.streams[id])
    ensures RunWriter(p, out, id).1 == out + frames && AllFull(frames)
    decreases 2 * |p.streams[id].job| + |p.streams[id].taken|
  {
    hide ApplySendChunk, ApplyTakeCredit;
    TurnFacts(p, id);
    SentEnd(p, id);
    var e := p.streams[id];
    if CanSendChunk(p, e) {
      var (p1, f) := ApplySendChunk(p, id);
      var rest := ChunksAreFull(p1, out + f, id);
      frames := f + rest;
      assert out + frames == out + f + rest;
      if |e.taken| != 16384 {
        NothingMore(p1, out + f, id);
        assert |out + f + rest| == |out + f|;
      }
    } else if CanTakeCredit(e) {
      TurnTakesAll(p, id);
      frames := ChunksAreFull(ApplyTakeCredit(p, id), out, id);
    } else {
      frames := [];
      assert out + [] == out;
    }
  }

  /**
   A write of some data, from its start to where it has to wait: what it submits, what it has in hand and what is
   left are the data, in order, in chunks of 16384 bytes but for the last; and it waits only when it has to.
   */
  lemma WriteSubmitsAll(p: Peer, out: seq<Frame>, id: nat, data: Bytes) returns (frames: seq<Frame>)
    requires Enabled(p, StartWrite(id, data))
    ensures var started := Apply(p, StartWrite(id, data)).0;
      && Live(started, id)
      && var (p', out') := RunWriter(started, out, id);
      && out' == out + frames && AreChunks(frames, id) && AllFull(frames)
      && Live(p', id) && Concat(Payloads(frames)) + p'.streams[id].taken + p'.streams[id].job == data
      && Log(p'.history.sent, id) == Log(p.history.sent, id) + Concat(Payloads(frames))
      && WriterStuck(p', id)
  {
    hide RunWriter, Payloads, Concat, Log;
    var started := Apply(p, StartWrite(id, data)).0;
    frames := WriterSubmitsInOrder(started, out, id);
    var full := ChunksAreFull(started, out, id);
    assert out + frames == out + full ==> frames == full by {
      assert (out + frames)[|out|..] == frames && (out + full)[|out|..] == full;
    }
    assert [] + data == data;
  }

  /** A run of actions of one peer, each enabled when it is taken, and the frames they submit. */
  ghost predicate Performed(p: Peer, out: seq<Frame>, actions: seq<Action>, p': Peer, out': seq<Frame>)
    decreases |actions|
  {
    if actions == [] then (p', out') == (p, out)
    else
      Enabled(p, actions[0])
      && Performed(Apply(p, actions[0]).0, out + Apply(p, actions[0]).1, actions[1..], p', out')
  }

  /** So the loop is nothing but turns of its two halves, and what holds after every action holds of it. */
  lemma {:induction false} WriterTakesSteps(p: Peer, out: seq<Frame>, id: nat) returns (actions: seq<Action>)
    requires Held(p, id) && Live(p, id)
    ensures Performed(p, out, actions, RunWriter(p, out, id).0, RunWriter(p, out, id).1)
    ensures forall a :: a in actions ==> a == TakeCredit(id) || a == SendChunk(id)
    decreases 2 * |p.streams[id].job| + |p.streams[id].taken|
  {
    hide ApplySendChunk, ApplyTakeCredit;
    TurnFacts(p, id);
    var e := p.streams[id];
    if CanSendChunk(p, e) {
      var (p1, f) := ApplySendChunk(p, id);
      var rest := WriterTakesSteps(p1, out + f, id);
      actions := [SendChunk(id)] + rest;
      assert actions[1..] == rest;
    } else if CanTakeCredit(e) {
      var rest := WriterTakesSteps(ApplyTakeCredit(p, id), out, id);
      actions := [TakeCredit(id)] + rest;
      assert actions[1..] == rest;
      assert out + [] == out;
    } else {
      actions := [];
    }
  }
}
