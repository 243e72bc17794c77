/**
 One stream seen from both of its ends, with the frames in flight between them, and the invariant
 that ties these together. The end that sent the OPEN is the opener, the other one the acceptor.
 */
module StreamPair {
  import opened Common
  import opened Json
  import opened MuxState
  import opened MuxLocal

  // ----- Frames in flight -------------------------------------------------------------------

  /** The frames for one ID, in order. */
  function On(channel: seq<Frame>, id: nat): seq<Frame> {
    if channel == [] then []
    else
      var rest, last := On(channel[..|channel| - 1], id), channel[|channel| - 1];
      if last.id == id then rest + [last] else rest
  }

  predicate Has(frames: seq<Frame>, kind: Kind) {
    exists i :: 0 <= i < |frames| && frames[i].kind == kind
  }

  function BytesOf(f: Frame): Bytes { if f.kind == DATA then f.payload.data else [] }

  function CreditOf(f: Frame): nat {
    if f.kind == WINDOW_UPDATE && f.payload.json.Some? && Get(f.payload.json.value, "credit").Int?
    then Max(0, Get(f.payload.json.value, "credit").number) else 0
  }

  /** The data in flight. */
  function Data(frames: seq<Frame>): Bytes {
    if frames == [] then [] else Data(frames[..|frames| - 1]) + BytesOf(frames[|frames| - 1])
  }

  /** The window credit in flight. */
  function Credits(frames: seq<Frame>): nat {
    if frames == [] then 0 else Credits(frames[..|frames| - 1]) + CreditOf(frames[|frames| - 1])
  }

  predicate IsRefusal(f: Frame) {
    f.kind == OPEN_RESULT && DecodeResult(f.payload) == Success(false)
  }

  predicate HasRefusal(frames: seq<Frame>) {
    exists i :: 0 <= i < |frames| && IsRefusal(frames[i])
  }

  predicate IsResult(kind: Kind) { kind == OPEN_RESULT || kind == LISTEN_RESULT }

  /** Whether `g` may be in flight behind `f` on the same stream. */
  predicate MayFollow(f: Frame, g: Frame) {
    && !IsRequest(g.kind)
    && (f.kind == CLOSE ==> IsResult(g.kind) || g.kind == CLOSE)
    && (f.kind == HALF_CLOSE ==> g.kind != DATA && g.kind != HALF_CLOSE)
    && (f.kind == OPEN_RESULT ==> g.kind != OPEN_RESULT)
  }

  ghost predicate Ordered(frames: seq<Frame>) {
    forall i, j :: 0 <= i < j < |frames| ==> MayFollow(frames[i], frames[j])
  }

  // ----- Equations for sending and delivering -------------------------------------------------

  lemma {:induction false} OnConcat(a: seq<Frame>, b: seq<Frame>, id: nat)
    ensures On(a + b, id) == On(a, id) + On(b, id)
  {
    if b == [] {
      assert a + b == a;
    } else {
      var init := b[..|b| - 1];
      OnConcat(a, init, id);
      assert (a + b)[..|a + b| - 1] == a + init;
    }
  }

  lemma OnAppend(channel: seq<Frame>, f: Frame, id: nat)
    ensures On(channel + [f], id) == if f.id == id then On(channel, id) + [f] else On(channel, id)
  {
    assert (channel + [f])[..|channel|] == channel;
  }

  lemma OnDeliver(channel: seq<Frame>, id: nat)
    requires channel != []
    ensures On(channel, id) == if channel[0].id == id then [channel[0]] + On(channel[1..], id) else On(channel[1..], id)
  {
    hide On;
    OnConcat([channel[0]], channel[1..], id);
    assert channel == [channel[0]] + channel[1..] && [channel[0]] == [] + [channel[0]];
    OnAppend([], channel[0], id);
    OnNothing(id);
  }

  lemma OnNothing(id: nat)
    ensures On([], id) == []
  {
  }

  lemma {:induction false} OnIds(channel: seq<Frame>, id: nat)
    ensures forall i :: 0 <= i < |On(channel, id)| ==> On(channel, id)[i].id == id && On(channel, id)[i] in channel
  {
    if channel != [] { OnIds(channel[..|channel| - 1], id); }
  }

  lemma Sent(frames: seq<Frame>, f: Frame)
    ensures Data(frames + [f]) == Data(frames) + BytesOf(f)
    ensures Credits(frames + [f]) == Credits(frames) + CreditOf(f)
    ensures forall kind :: Has(frames + [f], kind) <==> Has(frames, kind) || f.kind == kind
    ensures HasRefusal(frames + [f]) <==> HasRefusal(frames) || IsRefusal(f)
  {
    var all := frames + [f];
    assert all[..|frames|] == frames && all[|frames|] == f;
    forall kind ensures Has(all, kind) <==> Has(frames, kind) || f.kind == kind {
      if Has(frames, kind) { var i :| 0 <= i < |frames| && frames[i].kind == kind; assert all[i].kind == kind; }
    }
    if HasRefusal(frames) { var i :| 0 <= i < |frames| && IsRefusal(frames[i]); assert IsRefusal(all[i]); }
  }

  lemma SentInOrder(frames: seq<Frame>, f: Frame)
    requires Ordered(frames) && (frames == [] || !IsRequest(f.kind))
    requires Has(frames, CLOSE) ==> IsResult(f.kind) || f.kind == CLOSE
    requires Has(frames, HALF_CLOSE) ==> f.kind != DATA && f.kind != HALF_CLOSE
    requires Has(frames, OPEN_RESULT) ==> f.kind != OPEN_RESULT
    ensures Ordered(frames + [f])
  {
    forall i | 0 <= i < |frames| ensures MayFollow(frames[i], f) {
      assert Has(frames, frames[i].kind);
    }
  }

  lemma {:induction false} Summed(f: Frame, rest: seq<Frame>)
    ensures Data([f] + rest) == BytesOf(f) + Data(rest)
    ensures Credits([f] + rest) == CreditOf(f) + Credits(rest)
  {
    if rest == [] {
      assert [f] + rest == [] + [f];
    } else {
      var init := rest[..|rest| - 1];
      Summed(f, init);
      assert ([f] + rest)[..|rest|] == [f] + init;
    }
  }

  lemma HasRest(frames: seq<Frame>, kind: Kind)
    requires frames != []
    ensures Has(frames, kind) <==> frames[0].kind == kind || Has(frames[1..], kind)
  {
    var rest := frames[1..];
    if Has(rest, kind) {
      var i :| 0 <= i < |rest| && rest[i].kind == kind;
      assert frames[i + 1].kind == kind;
    }
    if Has(frames, kind) && frames[0].kind != kind {
      var i :| 0 <= i < |frames| && frames[i].kind == kind;
      assert rest[i - 1].kind == kind;
    }
  }

  lemma RefusalRest(frames: seq<Frame>)
    requires frames != []
    ensures HasRefusal(frames) <==> IsRefusal(frames[0]) || HasRefusal(frames[1..])
  {
    hide IsRefusal;
    var rest := frames[1..];
    if HasRefusal(rest) {
      var i :| 0 <= i < |rest| && IsRefusal(rest[i]);
      assert IsRefusal(frames[i + 1]);
    }
    if HasRefusal(frames) && !IsRefusal(frames[0]) {
      var i :| 0 <= i < |frames| && IsRefusal(frames[i]);
      assert IsRefusal(rest[i - 1]);
    }
  }

  lemma OrderedRest(frames: seq<Frame>)
    requires frames != [] && Ordered(frames)
    ensures Ordered(frames[1..])
    ensures forall i :: 0 <= i < |frames| - 1 ==> MayFollow(frames[0], frames[1..][i])
  {
    hide MayFollow;
    var rest := frames[1..];
    assert forall i :: 0 <= i < |rest| ==> rest[i] == frames[i + 1];
  }

  lemma FollowsClose(frames: seq<Frame>, rest: seq<Frame>)
    requires frames != [] && forall i :: 0 <= i < |rest| ==> MayFollow(frames[0], rest[i])
    ensures frames[0].kind == CLOSE ==> !Has(rest, DATA) && !Has(rest, WINDOW_UPDATE) && !Has(rest, HALF_CLOSE)
    ensures frames[0].kind == HALF_CLOSE ==> !Has(rest, DATA) && !Has(rest, HALF_CLOSE)
    ensures frames[0].kind == OPEN_RESULT ==> !Has(rest, OPEN_RESULT)
    ensures rest == [] || !IsRequest(rest[0].kind)
  {
  }

  lemma Delivered(frames: seq<Frame>)
    requires frames != []
    ensures Data(frames) == BytesOf(frames[0]) + Data(frames[1..])
    ensures Credits(frames) == CreditOf(frames[0]) + Credits(frames[1..])
    ensures forall kind :: Has(frames, kind) <==> frames[0].kind == kind || Has(frames[1..], kind)
    ensures HasRefusal(frames) <==> IsRefusal(frames[0]) || HasRefusal(frames[1..])
    ensures Ordered(frames) ==> Ordered(frames[1..])
    ensures Ordered(frames) && frames[0].kind == CLOSE ==>
      !Has(frames[1..], DATA) && !Has(frames[1..], WINDOW_UPDATE) && !Has(frames[1..], HALF_CLOSE)
    ensures Ordered(frames) && frames[0].kind == HALF_CLOSE ==> !Has(frames[1..], DATA) && !Has(frames[1..], HALF_CLOSE)
    ensures Ordered(frames) && frames[0].kind == OPEN_RESULT ==> !Has(frames[1..], OPEN_RESULT)
    ensures Ordered(frames) ==> frames[1..] == [] || !IsRequest(frames[1].kind)
  {
    hide Has, HasRefusal, Ordered, MayFollow, IsRefusal, Data, Credits;
    var rest := frames[1..];
    assert frames == [frames[0]] + rest;
    Summed(frames[0], rest);
    forall kind ensures Has(frames, kind) <==> frames[0].kind == kind || Has(rest, kind) { HasRest(frames, kind); }
    RefusalRest(frames);
    if Ordered(frames) {
      OrderedRest(frames);
      FollowsClose(frames, rest);
    }
  }

  /** With no such frames in flight there is nothing to count. */
  lemma {:induction false} NothingInFlight(frames: seq<Frame>)
    ensures !Has(frames, DATA) ==> Data(frames) == []
    ensures !Has(frames, WINDOW_UPDATE) ==> Credits(frames) == 0
  {
    if frames != [] {
      var init := frames[..|frames| - 1];
      NothingInFlight(init);
      assert frames == init + [frames[|frames| - 1]];
      Sent(init, frames[|frames| - 1]);
    }
  }

  lemma RefusalIsResult(frames: seq<Frame>)
    ensures HasRefusal(frames) ==> Has(frames, OPEN_RESULT)
  {
  }

  // ----- The two sides of a stream ------------------------------------------------------------

  /** What one peer knows of a stream. `listening` says that it awaits a
   LISTEN_RESULT, `serving` that its open handler has not answered. */
  datatype Side = Side(
    end: Option<End>, pending: Option<Option<bool>>, listening: bool, serving: bool,
    sent: Bytes, got: Bytes, lost: nat, eof: bool, muted: bool, ending: Option<Ending>)

  const NO_SIDE := Side(None, None, false, false, [], [], 0, false, false, None)

  function Find<T>(m: map<nat, T>, id: nat): Option<T> { if id in m then Some(m[id]) else None }

  function SideOf(p: Peer, id: nat): Side {
    Side(Find(p.streams, id), Find(p.pendingOpens, id), id in p.pendingListens,
      Find(p.requests, id) == Some(OpenRunning),
         Log(p.history.sent, id), Log(p.history.got, id), Count(p.history.lost, id), id in p.history.eofs,
         id in p.history.muted, Find(p.history.endings, id))
  }

  predicate IsOpen(x: Side) { x.end.Some? && !x.end.value.closed }

  /** Closed by the other side, with data left to read. */
  predicate IsLingering(x: Side) { x.end.Some? && x.end.value.closed }

  /** The request has not reached the acceptor. */
  predicate Waiting(oa: seq<Frame>) { oa != [] && IsRequest(oa[0].kind) }

  /** The acceptor refused: it keeps nothing, and the opener is told or about to be told. */
  predicate Refused(o: Side, ao: seq<Frame>) { HasRefusal(ao) || o.pending == Some(Some(false)) }

  // ----- The invariant ------------------------------------------------------------------------

  /** Where the bytes written by `x` are: read, unread, or in flight. */
  ghost predicate BytesFlow(x: Side, y: Side, xy: seq<Frame>) {
    && y.got <= x.sent
    && (IsOpen(y) ==> y.got + y.end.value.buffer + Data(xy) == x.sent)
    && (IsLingering(y) ==> y.got + y.end.value.buffer == x.sent)
    && (y.ending == Some(Drained) ==> y.got == x.sent)
  }

  /** Where the window of `x` is: with the sender, in flight, unread, on its way back, or lost. */
  ghost predicate CreditFlow(x: Side, y: Side, xy: seq<Frame>, yx: seq<Frame>, waiting: bool) {
    && (IsOpen(y) ==> |y.end.value.buffer| + |Data(xy)| <= INITIAL_WINDOW)
    && (IsOpen(x) && IsOpen(y) ==> 
          x.end.value.outReserved == |Data(xy)| + |y.end.value.buffer| + Credits(yx) + y.lost)
    && (IsOpen(x) && y.end.None? && !waiting ==> Credits(yx) <= x.end.value.outReserved)
  }

  /** HALF_CLOSE is the last of the data, and arrives unless one side gives up. */
  ghost predicate EofFlow(x: Side, y: Side, xy: seq<Frame>) {
    && (IsOpen(x) ==> (x.eof ==> x.end.value.localEof) && (!x.eof ==> !Has(xy, HALF_CLOSE)))
    && (IsOpen(y) && y.end.value.remoteEof ==> !Has(xy, DATA) && !Has(xy, HALF_CLOSE))
    && (IsOpen(y) ==> (x.eof <==> y.end.value.remoteEof || Has(xy, HALF_CLOSE)))
    && (IsLingering(y) || y.ending == Some(Drained) ==> x.eof)
    && (y.ending == Some(Reset) ==> !x.eof)
  }

  /** CLOSE is the last thing an end says, if it says it, and a lingering end hears nothing more. */
  ghost predicate CloseFlow(x: Side, y: Side, xy: seq<Frame>, waiting: bool) {
    && (IsOpen(x) ==> !Has(xy, CLOSE))
    && (x.muted ==> !IsOpen(x) && x.pending == None && !x.listening && !Has(xy, CLOSE))
    && (IsLingering(y) ==>
        && x.end.None? && !waiting
        && !Has(xy, DATA) && !Has(xy, WINDOW_UPDATE) && !Has(xy, HALF_CLOSE))
    && (y.ending == Some(Drained) ==> !IsOpen(x))
    && (y.ending.Some? ==> y.end.None?)
  }

  ghost predicate Flow(x: Side, y: Side, xy: seq<Frame>, yx: seq<Frame>, waiting: bool) {
    BytesFlow(x, y, xy) && CreditFlow(x, y, xy, yx, waiting) && EofFlow(x, y, xy) && CloseFlow(x, y, xy, waiting)
  }

  /** While the request is in flight the opener waits and the acceptor knows nothing. */
  ghost predicate Opening(o: Side, a: Side, oa: seq<Frame>, ao: seq<Frame>) {
    Waiting(oa) ==>
      && a == NO_SIDE && ao == []
      && !Has(oa, DATA) && !Has(oa, WINDOW_UPDATE) && !Has(oa, HALF_CLOSE)
      && o.sent == [] && o.got == [] && o.lost == 0 && !o.eof && !o.serving
      && (o.ending == None || o.ending == Some(ClosedHere))
      && (o.end.Some? ==> o.end.value == NEW_END && o.pending == Some(None) && oa[0].kind == OPEN)
      && (o.end.None? && oa[0].kind == OPEN ==> Has(oa, CLOSE) || o.muted)
      && (o.pending.Some? ==> o.end.Some? && |oa| == 1)
  }

  /** Until `open_stream` returns, nobody uses the opener's end. */
  ghost predicate Pending(o: Side, a: Side, oa: seq<Frame>, ao: seq<Frame>) {
    && (o.pending.Some? ==>
        && o.sent == [] && o.got == [] && !o.eof
        && (IsOpen(o) ==> Idle(o.end.value) && !o.end.value.localEof)
        && (!Waiting(oa) ==> oa == []))
    && (o.pending == Some(None) && !Waiting(oa) ==> a.serving || Has(ao, OPEN_RESULT))
    && (Has(ao, OPEN_RESULT) ==> o.pending == None || o.pending == Some(None))
  }

  /** Until the acceptor's handler answers, the opener has sent at most a CLOSE. */
  ghost predicate Serving(o: Side, a: Side, oa: seq<Frame>, ao: seq<Frame>) {
    && !o.serving && a.pending == None && !a.listening
    && (o.listening ==> o.end == None && o.pending == None && !Has(oa, CLOSE))
    && (a.serving ==>
        && !Waiting(oa) && !Has(ao, OPEN_RESULT)
        && o.sent == [] && !o.eof
        && !Has(oa, DATA) && !Has(oa, WINDOW_UPDATE) && !Has(oa, HALF_CLOSE)
        && (o.pending == None || o.pending == Some(None))
        && (IsOpen(o) ==> o.pending == Some(None))
        && (a.end.Some? ==> !a.end.value.closed && !a.end.value.remoteEof))
  }

  /** An end that outlives the other one is told so, unless the call that should tell it was cancelled. */
  ghost predicate Closing(o: Side, a: Side, oa: seq<Frame>, ao: seq<Frame>) {
    && (Refused(o, ao) ==> a.end.None? && !a.serving && !Waiting(oa) && (IsOpen(o) ==> o.pending.Some?))
    && (IsOpen(o) && a.end.None? && !Waiting(oa) ==> Has(ao, CLOSE) || Refused(o, ao) || a.muted)
    && (IsOpen(a) && o.end.None? ==> Has(oa, CLOSE) || o.muted)
    && (a.ending == Some(Reset) && IsOpen(o) ==> Refused(o, ao))
    && (o.ending == Some(Reset) ==> !IsOpen(a) && !Waiting(oa))
  }

  ghost predicate Unused(o: Side, a: Side, oa: seq<Frame>, ao: seq<Frame>) {
    o == NO_SIDE && a == NO_SIDE && oa == [] && ao == []
  }

  ghost predicate StreamInv(o: Side, a: Side, oa: seq<Frame>, ao: seq<Frame>) {
    && Ordered(oa) && Ordered(ao) && !Has(oa, OPEN_RESULT) && !Has(oa, LISTEN_RESULT)
    && (ao != [] ==> !IsRequest(ao[0].kind))
    && Flow(o, a, oa, ao, Waiting(oa)) && Flow(a, o, ao, oa, Waiting(oa))
    && Opening(o, a, oa, ao) && Pending(o, a, oa, ao) && Serving(o, a, oa, ao) && Closing(o, a, oa, ao)
  }
}
