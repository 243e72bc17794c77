/** Every step of either end, seen on the one stream it concerns, keeps the stream invariant. */
module StreamSteps {
  import opened Common
  import opened Json
  import opened MuxState
  import opened MuxLocal
  import opened StreamPair

  /** The stream invariant with the acting end first: it may be the opener or the acceptor. */
  ghost predicate Joint(opener: bool, x: Side, y: Side, xy: seq<Frame>, yx: seq<Frame>) {
    if opener then StreamInv(x, y, xy, yx) else StreamInv(y, x, yx, xy)
  }

  ghost predicate EndsOk(x: Side, y: Side) {
    (x.end.Some? ==> EndOk(x.end.value)) && (y.end.Some? ==> EndOk(y.end.value))
  }

  // ----- Sending ----------------------------------------------------------------------------

  /** A writer starts, takes stream credit, or is cancelled. */
  lemma WriterStep(opener: bool, x: Side, y: Side, xy: seq<Frame>, yx: seq<Frame>, x': Side)
    requires Joint(opener, x, y, xy, yx) && x.end.Some? && x.pending.None?
    requires x'.end.Some? && x' == x.(end := Some(x.end.value.(
      sendCredit := x'.end.value.sendCredit, taken := x'.end.value.taken, job := x'.end.value.job)))
    ensures Joint(opener, x', y, xy, yx)
  {
    hide Has, HasRefusal, Ordered, Data, Credits;
  }

  lemma SendStep(opener: bool, x: Side, y: Side, xy: seq<Frame>, yx: seq<Frame>, x': Side, f: Frame)
    requires Joint(opener, x, y, xy, yx) && EndsOk(x, y) && IsOpen(x) && x.pending.None? && x.end.value.taken != []
    requires f.kind == DATA && f.payload.data == x.end.value.taken
    requires x' == x.(sent := x.sent + x.end.value.taken,
                      end := Some(x.end.value.(outReserved := x.end.value.outReserved + |x.end.value.taken|,
                        taken := [])))
    ensures Joint(opener, x', y, xy + [f], yx)
  {
    hide Has, HasRefusal, Ordered, Data, Credits, DecodeResult;
    Sent(xy, f);
    SentInOrder(xy, f);
  }

  /** What is read moves from the unread bytes to the bytes read. */
  lemma ReadMoves(x: Side, y: Side, yx: seq<Frame>, x': Side, count: nat)
    requires BytesFlow(y, x, yx) && IsOpen(x) && count <= |x.end.value.buffer|
    requires x'.got == x.got + x.end.value.buffer[..count] && x'.ending == x.ending
    requires x'.end == Some(x.end.value.(buffer := x.end.value.buffer[count..],
      recvCredit := x.end.value.recvCredit + count))
    ensures BytesFlow(y, x', yx)
  {
    hide Data;
    var buffer := x.end.value.buffer;
    assert buffer[..count] + buffer[count..] == buffer;
    assert x'.got + buffer[count..] + Data(yx) == x.got + buffer + Data(yx);
  }

  /** A frame that carries no data changes nothing for the bytes on their way. */
  lemma BytesUnmoved(x: Side, y: Side, xy: seq<Frame>, x': Side, f: Frame)
    requires BytesFlow(x, y, xy) && x'.sent == x.sent && f.kind != DATA
    ensures BytesFlow(x', y, xy + [f])
  {
    hide Data, Credits, Has, HasRefusal;
    Sent(xy, f);
    assert Data(xy) + [] == Data(xy);
  }

  lemma ReadStep(opener: bool, x: Side, y: Side, xy: seq<Frame>, yx: seq<Frame>, x': Side, f: Frame, count: nat)
    requires Joint(opener, x, y, xy, yx) && EndsOk(x, y) && IsOpen(x) && x.pending.None?
      && count <= |x.end.value.buffer|
    requires f.kind == WINDOW_UPDATE && CreditOf(f) == count
    requires x' == x.(got := x.got + x.end.value.buffer[..count],
                      end := Some(x.end.value.(buffer := x.end.value.buffer[count..],
                                               recvCredit := x.end.value.recvCredit + count)))
    ensures Joint(opener, x', y, xy + [f], yx)
  {
    hide Has, HasRefusal, Ordered, Data, Credits, DecodeResult, CreditOf, BytesFlow;
    Sent(xy, f);
    SentInOrder(xy, f);
    ReadMoves(x, y, yx, x', count);
    BytesUnmoved(x, y, xy, x', f);
  }

  /** A read that is cancelled before its credit is sent: the credit is lost. */
  lemma ReadCutStep(opener: bool, x: Side, y: Side, xy: seq<Frame>, yx: seq<Frame>, x': Side, count: nat)
    requires Joint(opener, x, y, xy, yx) && EndsOk(x, y) && IsOpen(x) && x.pending.None?
      && count <= |x.end.value.buffer|
    requires x' == x.(got := x.got + x.end.value.buffer[..count], lost := x.lost + count,
                      end := Some(x.end.value.(buffer := x.end.value.buffer[count..],
                                               recvCredit := x.end.value.recvCredit + count)))
    ensures Joint(opener, x', y, xy, yx)
  {
    hide Has, HasRefusal, Ordered, Data, Credits, DecodeResult, CreditOf, BytesFlow;
    ReadMoves(x, y, yx, x', count);
    BytesAlike(x, y, xy, x');
  }

  /** A half-close that is cancelled before it is sent: this side will say no more, but never says so. */
  lemma EofCutStep(opener: bool, x: Side, y: Side, xy: seq<Frame>, yx: seq<Frame>, x': Side)
    requires Joint(opener, x, y, xy, yx) && IsOpen(x) && x.pending.None?
    requires x' == x.(end := Some(x.end.value.(localEof := true)))
    ensures Joint(opener, x', y, xy, yx)
  {
    hide Has, HasRefusal, Ordered, Data, Credits, DecodeResult;
  }

  /** A close that is cancelled before it is sent: the other side is not told. */
  lemma CloseCutStep(opener: bool, x: Side, y: Side, xy: seq<Frame>, yx: seq<Frame>, x': Side)
    requires Joint(opener, x, y, xy, yx) && IsOpen(x) && x.pending.None?
    requires x' == x.(end := None, ending := Some(ClosedHere), muted := true)
    ensures Joint(opener, x', y, xy, yx)
  {
    hide Has, HasRefusal, Ordered, Data, Credits, DecodeResult;
  }

  /** Reading what a closed stream left behind sends nothing; the last read ends it. */
  lemma ReadLeftoverStep(opener: bool, x: Side, y: Side, xy: seq<Frame>, yx: seq<Frame>, x': Side, count: nat)
    requires Joint(opener, x, y, xy, yx) && EndsOk(x, y) && IsLingering(x) && x.pending.None?
      && count <= |x.end.value.buffer|
    requires x'.got == x.got + x.end.value.buffer[..count]
    requires if count == |x.end.value.buffer| then x' == x.(got := x'.got, end := None, ending := Some(Drained))
             else x' == x.(got := x'.got, end := Some(x.end.value.(
               buffer := x.end.value.buffer[count..], recvCredit := x.end.value.recvCredit + count)))
    ensures Joint(opener, x', y, xy, yx)
  {
    hide Has, HasRefusal, Ordered, Data, Credits;
    assert x.end.value.buffer[..count] + x.end.value.buffer[count..] == x.end.value.buffer;
    assert x'.got + x.end.value.buffer[count..] == y.sent;
    assert x'.got + [] == x'.got;
    if count == |x.end.value.buffer| { assert x.end.value.buffer[count..] == []; }
  }

  lemma EofStep(opener: bool, x: Side, y: Side, xy: seq<Frame>, yx: seq<Frame>, x': Side, f: Frame)
    requires Joint(opener, x, y, xy, yx) && IsOpen(x) && x.pending.None? && !x.end.value.localEof
      && f.kind == HALF_CLOSE
    requires x' == x.(eof := true, end := Some(x.end.value.(localEof := true)))
    ensures Joint(opener, x', y, xy + [f], yx)
  {
    hide Has, HasRefusal, Ordered, Data, Credits, DecodeResult;
    Sent(xy, f);
    SentInOrder(xy, f);
  }

  // ----- Closing ----------------------------------------------------------------------------

  lemma CloseStep(opener: bool, x: Side, y: Side, xy: seq<Frame>, yx: seq<Frame>, x': Side, f: Frame)
    requires Joint(opener, x, y, xy, yx) && IsOpen(x) && x.pending.None? && f.kind == CLOSE
    requires x' == x.(end := None, ending := Some(ClosedHere))
    ensures Joint(opener, x', y, xy + [f], yx)
  {
    hide Has, HasRefusal, Ordered, Data, Credits, DecodeResult;
    Sent(xy, f);
    SentInOrder(xy, f);
  }

  lemma DiscardStep(opener: bool, x: Side, y: Side, xy: seq<Frame>, yx: seq<Frame>, x': Side)
    requires Joint(opener, x, y, xy, yx) && IsLingering(x) && x.pending.None?
    requires x' == x.(end := None, ending := Some(ClosedHere))
    ensures Joint(opener, x', y, xy, yx)
  {
    hide Has, HasRefusal, Ordered, Data, Credits;
  }

  // ----- Opening ----------------------------------------------------------------------------

  /** A request alone in a channel, and an empty channel. */
  lemma OnlyRequest(f: Frame)
    requires IsRequest(f.kind)
    ensures Data([f]) == [] && Credits([f]) == 0 && Ordered([f]) && !HasRefusal([f])
    ensures forall kind :: Has([f], kind) <==> f.kind == kind
    ensures Data([]) == [] && Credits([]) == 0 && Ordered([]) && !HasRefusal([]) && forall kind :: !Has([], kind)
  {
    assert [f][..0] == [];
  }

  lemma OpenStep(y: Side, f: Frame, x': Side)
    requires y == NO_SIDE && f.kind == OPEN && x' == NO_SIDE.(end := Some(NEW_END), pending := Some(None))
    ensures StreamInv(x', y, [f], [])
  {
    hide Data, Credits, Ordered, Has, HasRefusal;
    OnlyRequest(f);
  }

  lemma ListenStep(y: Side, f: Frame, x': Side)
    requires y == NO_SIDE && f.kind == LISTEN && x' == NO_SIDE.(listening := true)
    ensures StreamInv(x', y, [f], [])
  {
    hide Data, Credits, Ordered, Has, HasRefusal;
    OnlyRequest(f);
  }

  lemma UnusedOk(o: Side, a: Side)
    requires o == NO_SIDE && a == NO_SIDE
    ensures StreamInv(o, a, [], [])
  {
  }

  /** `open_stream` returns the stream. */
  lemma GrantedStep(x: Side, y: Side, xy: seq<Frame>, yx: seq<Frame>, x': Side)
    requires StreamInv(x, y, xy, yx) && x.pending == Some(Some(true)) && x' == x.(pending := None)
    ensures StreamInv(x', y, xy, yx)
  {
    hide Has, HasRefusal, Ordered, Data, Credits;
    RefusalIsResult(yx);
  }

  /** `open_stream` raises because the other side refused. */
  lemma RefusedStep(x: Side, y: Side, xy: seq<Frame>, yx: seq<Frame>, x': Side)
    requires StreamInv(x, y, xy, yx) && x.pending == Some(Some(false))
    requires x' == if IsOpen(x) then x.(pending := None, end := None, ending := Some(ClosedHere))
      else x.(pending := None)
    ensures StreamInv(x', y, xy, yx)
  {
    hide Has, HasRefusal, Ordered, Data, Credits;
  }

  /** `open_stream` times out or is cancelled, and sends a CLOSE in case the other side accepts. */
  lemma TimeoutStep(x: Side, y: Side, xy: seq<Frame>, yx: seq<Frame>, x': Side, f: Frame)
    requires StreamInv(x, y, xy, yx) && x.pending.Some? && f.kind == CLOSE
    requires x' == if IsOpen(x) then x.(pending := None, end := None, ending := Some(ClosedHere))
      else x.(pending := None)
    ensures StreamInv(x', y, xy + [f], yx)
  {
    hide Has, HasRefusal, Ordered, Data, Credits, DecodeResult;
    Sent(xy, f);
    SentInOrder(xy, f);
  }

  /** An opener that still waits for its answer has not sent a CLOSE. */
  lemma NoCloseWhilePending(x: Side, y: Side, xy: seq<Frame>, yx: seq<Frame>)
    requires StreamInv(x, y, xy, yx) && x.pending.Some?
    ensures !Has(xy, CLOSE) && !x.listening
  {
    hide HasRefusal, Ordered, Data, Credits, DecodeResult, BytesFlow;
  }

  /** The same, with the CLOSE cancelled before it is sent. */
  lemma TimeoutCutStep(x: Side, y: Side, xy: seq<Frame>, yx: seq<Frame>, x': Side)
    requires StreamInv(x, y, xy, yx) && x.pending.Some?
    requires x' == (if IsOpen(x) then x.(pending := None, end := None, ending := Some(ClosedHere))
                    else x.(pending := None)).(muted := true)
    ensures StreamInv(x', y, xy, yx)
  {
    hide Has, HasRefusal, Ordered, Data, Credits, DecodeResult;
    NoCloseWhilePending(x, y, xy, yx);
  }

  lemma TimeoutListenStep(x: Side, y: Side, xy: seq<Frame>, yx: seq<Frame>, x': Side, f: Frame)
    requires StreamInv(x, y, xy, yx) && x.listening && f.kind == CLOSE && x' == x.(listening := false)
    ensures StreamInv(x', y, xy + [f], yx)
  {
    hide Has, HasRefusal, Ordered, Data, Credits, DecodeResult;
    Sent(xy, f);
    SentInOrder(xy, f);
  }

  /** `request_listener` returns, or gives up without having sent its CLOSE. */
  lemma ListenSettledStep(x: Side, y: Side, xy: seq<Frame>, yx: seq<Frame>, x': Side)
    requires StreamInv(x, y, xy, yx) && x.listening && x' == x.(listening := false, muted := x'.muted)
    ensures StreamInv(x', y, xy, yx)
  {
    hide Has, HasRefusal, Ordered, Data, Credits, DecodeResult;
  }

  // ----- Answering --------------------------------------------------------------------------

  lemma AcceptStep(x: Side, y: Side, xy: seq<Frame>, yx: seq<Frame>, x': Side, f: Frame)
    requires StreamInv(y, x, yx, xy) && x.serving && x' == x.(serving := false)
    requires f.kind == OPEN_RESULT && !IsRefusal(f)
    ensures StreamInv(y, x', yx, xy + [f])
  {
    hide Has, HasRefusal, Ordered, Data, Credits, DecodeResult, IsRefusal;
    Sent(xy, f);
    SentInOrder(xy, f);
  }

  lemma RefuseStep(x: Side, y: Side, xy: seq<Frame>, yx: seq<Frame>, x': Side, f: Frame)
    requires StreamInv(y, x, yx, xy) && x.serving && IsRefusal(f)
    requires x' == if IsOpen(x) then x.(serving := false, end := None, ending := Some(Reset)) else x.(serving := false)
    ensures StreamInv(y, x', yx, xy + [f])
  {
    hide Has, HasRefusal, Ordered, Data, Credits, DecodeResult;
    Sent(xy, f);
    SentInOrder(xy, f);
  }

  lemma ListenResultStep(x: Side, y: Side, xy: seq<Frame>, yx: seq<Frame>, f: Frame)
    requires StreamInv(y, x, yx, xy) && !Waiting(yx) && f.kind == LISTEN_RESULT
    ensures StreamInv(y, x, yx, xy + [f])
  {
    hide Has, HasRefusal, Ordered, Data, Credits, DecodeResult;
    Sent(xy, f);
    SentInOrder(xy, f);
  }

  // ----- Delivering -------------------------------------------------------------------------

  /** DATA finds an end that can take it. */
  lemma DataFits(opener: bool, x: Side, y: Side, xy: seq<Frame>, yx: seq<Frame>)
    requires Joint(opener, x, y, xy, yx) && EndsOk(x, y) && x.end.Some? && yx != [] && yx[0].kind == DATA
    ensures IsOpen(x) && !x.end.value.remoteEof && |yx[0].payload.data| <= x.end.value.recvCredit
  {
    hide Has, HasRefusal, Ordered, Data, Credits, DecodeResult;
    Delivered(yx);
  }

  /** What a DATA frame carried moves to the unread bytes. */
  lemma DataMoves(x: Side, y: Side, yx: seq<Frame>, x': Side)
    requires BytesFlow(y, x, yx) && IsOpen(x) && yx != [] && yx[0].kind == DATA
    requires x' == x.(end := Some(x.end.value.(buffer := x.end.value.buffer + yx[0].payload.data,
                                               recvCredit := x.end.value.recvCredit - |yx[0].payload.data|)))
    ensures BytesFlow(y, x', yx[1..])
  {
    hide Has, HasRefusal, Ordered, Data, Credits;
    Delivered(yx);
    var data, rest := yx[0].payload.data, Data(yx[1..]);
    assert x.got + x.end.value.buffer + (data + rest) == x.got + (x.end.value.buffer + data) + rest;
  }

  lemma BytesAlike(x: Side, y: Side, xy: seq<Frame>, x': Side)
    requires BytesFlow(x, y, xy) && x'.sent == x.sent
    ensures BytesFlow(x', y, xy)
  {
    hide Data;
  }

  /** The arrival of any other frame leaves the bytes where they are, if the end keeps its own. */
  lemma BytesStay(x: Side, y: Side, yx: seq<Frame>, x': Side)
    requires BytesFlow(y, x, yx) && yx != [] && yx[0].kind != DATA
    requires x'.got == x.got && x'.ending == x.ending && x'.end.Some? == x.end.Some?
    requires x.end.Some? ==> x'.end.value.closed == x.end.value.closed && x'.end.value.buffer == x.end.value.buffer
    ensures BytesFlow(y, x', yx[1..])
  {
    hide Has, HasRefusal, Ordered, Data, Credits;
    Delivered(yx);
    assert [] + Data(yx[1..]) == Data(yx[1..]);
  }

  lemma DataStep(opener: bool, x: Side, y: Side, xy: seq<Frame>, yx: seq<Frame>, x': Side)
    requires Joint(opener, x, y, xy, yx) && IsOpen(x) && yx != [] && yx[0].kind == DATA
    requires x' == x.(end := Some(x.end.value.(buffer := x.end.value.buffer + yx[0].payload.data,
                                               recvCredit := x.end.value.recvCredit - |yx[0].payload.data|)))
    ensures Joint(opener, x', y, xy, yx[1..])
  {
    hide Has, HasRefusal, Ordered, Data, Credits, DecodeResult, BytesFlow;
    Delivered(yx);
    DataMoves(x, y, yx, x');
    BytesAlike(x, y, xy, x');
  }

  /** WINDOW_UPDATE finds an end that is owed the credit. */
  lemma CreditOwed(opener: bool, x: Side, y: Side, xy: seq<Frame>, yx: seq<Frame>)
    requires Joint(opener, x, y, xy, yx) && EndsOk(x, y) && x.end.Some? && yx != [] && yx[0].kind == WINDOW_UPDATE
    ensures IsOpen(x) && CreditOf(yx[0]) <= x.end.value.outReserved <= INITIAL_WINDOW - x.end.value.sendCredit
  {
    hide Has, HasRefusal, Ordered, Data, Credits, DecodeResult, CreditOf;
    Delivered(yx);
    NothingInFlight(yx);
  }

  lemma CreditStep(opener: bool, x: Side, y: Side, xy: seq<Frame>, yx: seq<Frame>, x': Side)
    requires Joint(opener, x, y, xy, yx) && IsOpen(x) && yx != [] && yx[0].kind == WINDOW_UPDATE
    requires x' == x.(end := Some(x.end.value.(sendCredit := x.end.value.sendCredit + CreditOf(yx[0]),
                                               outReserved := x.end.value.outReserved - CreditOf(yx[0]))))
    ensures Joint(opener, x', y, xy, yx[1..])
  {
    hide Has, HasRefusal, Ordered, Data, Credits, DecodeResult, CreditOf, BytesFlow;
    Delivered(yx);
    BytesStay(x, y, yx, x');
    BytesAlike(x, y, xy, x');
  }

  lemma HalfCloseStep(opener: bool, x: Side, y: Side, xy: seq<Frame>, yx: seq<Frame>, x': Side)
    requires Joint(opener, x, y, xy, yx) && x.end.Some? && yx != [] && yx[0].kind == HALF_CLOSE
    requires x' == if IsOpen(x) then x.(end := Some(x.end.value.(remoteEof := true))) else x
    ensures Joint(opener, x', y, xy, yx[1..])
  {
    hide Has, HasRefusal, Ordered, Data, Credits, DecodeResult, BytesFlow;
    Delivered(yx);
    BytesStay(x, y, yx, x');
    BytesAlike(x, y, xy, x');
    NothingInFlight(yx[1..]);
  }

  /** What a CLOSE does to the side it reaches. */
  function Closed(x: Side): Side {
    if !IsOpen(x) then x.(serving := false)
    else if !x.end.value.remoteEof then x.(serving := false, end := None, ending := Some(Reset))
    else if x.end.value.buffer == [] then x.(serving := false, end := None, ending := Some(Drained))
    else x.(serving := false, end := Some(x.end.value.(closed := true, sendCredit := INITIAL_WINDOW, outReserved := 0)))
  }

  lemma CloseIgnored(opener: bool, x: Side, y: Side, xy: seq<Frame>, yx: seq<Frame>, x': Side)
    requires Joint(opener, x, y, xy, yx) && yx != [] && yx[0].kind == CLOSE && !IsOpen(x) && x' == x.(serving := false)
    ensures Joint(opener, x', y, xy, yx[1..])
  {
    hide Has, HasRefusal, Ordered, Data, Credits, DecodeResult, BytesFlow;
    Delivered(yx);
    NothingInFlight(yx[1..]);
    BytesStay(x, y, yx, x');
    BytesAlike(x, y, xy, x');
  }

  lemma CloseResets(opener: bool, x: Side, y: Side, xy: seq<Frame>, yx: seq<Frame>, x': Side)
    requires Joint(opener, x, y, xy, yx) && yx != [] && yx[0].kind == CLOSE && IsOpen(x) && !x.end.value.remoteEof
    requires x' == x.(serving := false, end := None, ending := Some(Reset))
    ensures Joint(opener, x', y, xy, yx[1..])
  {
    hide Has, HasRefusal, Ordered, Data, Credits, DecodeResult;
    Delivered(yx);
    NothingInFlight(yx[1..]);
  }

  lemma CloseFinishes(opener: bool, x: Side, y: Side, xy: seq<Frame>, yx: seq<Frame>, x': Side)
    requires Joint(opener, x, y, xy, yx) && yx != [] && yx[0].kind == CLOSE && IsOpen(x) && x.end.value.remoteEof
    requires x' == Closed(x)
    ensures Joint(opener, x', y, xy, yx[1..])
  {
    hide Has, HasRefusal, Ordered, Data, Credits, DecodeResult;
    Delivered(yx);
    NothingInFlight(yx[1..]);
  }

  lemma CloseArrives(opener: bool, x: Side, y: Side, xy: seq<Frame>, yx: seq<Frame>, x': Side)
    requires Joint(opener, x, y, xy, yx) && yx != [] && yx[0].kind == CLOSE && x' == Closed(x)
    ensures Joint(opener, x', y, xy, yx[1..])
  {
    hide Joint;
    if !IsOpen(x) {
      CloseIgnored(opener, x, y, xy, yx, x');
    } else if !x.end.value.remoteEof {
      CloseResets(opener, x, y, xy, yx, x');
    } else {
      CloseFinishes(opener, x, y, xy, yx, x');
    }
  }

  /** DATA, WINDOW_UPDATE and HALF_CLOSE for a stream that is gone, and any LISTEN_RESULT. */
  lemma DropStep(opener: bool, x: Side, y: Side, xy: seq<Frame>, yx: seq<Frame>)
    requires Joint(opener, x, y, xy, yx) && yx != [] && (x.end.None? || yx[0].kind == LISTEN_RESULT)
    requires yx[0].kind == DATA || yx[0].kind == WINDOW_UPDATE || yx[0].kind == HALF_CLOSE
      || yx[0].kind == LISTEN_RESULT
    ensures Joint(opener, x, y, xy, yx[1..])
  {
    hide Has, HasRefusal, Ordered, Data, Credits, DecodeResult;
    Delivered(yx);
  }

  lemma AcceptOpenStep(x: Side, y: Side, xy: seq<Frame>, yx: seq<Frame>, x': Side)
    requires StreamInv(y, x, yx, xy) && Waiting(yx) && yx[0].kind == OPEN
    requires x' == NO_SIDE.(end := Some(NEW_END), serving := true)
    ensures StreamInv(y, x', yx[1..], xy)
  {
    hide Has, HasRefusal, Ordered, Data, Credits, DecodeResult;
    Delivered(yx);
    NothingInFlight(yx[1..]);
    Nothing();
  }

  lemma Nothing()
    ensures Data([]) == [] && Credits([]) == 0 && !HasRefusal([]) && forall kind :: !Has([], kind)
  {
  }

  lemma RefuseOpenStep(x: Side, y: Side, xy: seq<Frame>, yx: seq<Frame>, f: Frame)
    requires StreamInv(y, x, yx, xy) && Waiting(yx) && yx[0].kind == OPEN && IsRefusal(f)
    ensures StreamInv(y, x, yx[1..], xy + [f])
  {
    hide Has, HasRefusal, Ordered, Data, Credits, DecodeResult;
    Delivered(yx);
    NothingInFlight(yx[1..]);
    Nothing();
    Sent(xy, f);
    SentInOrder(xy, f);
  }

  /** A LISTEN is queued, or refused at once. */
  lemma ListenArrives(x: Side, y: Side, xy: seq<Frame>, yx: seq<Frame>)
    requires StreamInv(y, x, yx, xy) && Waiting(yx) && yx[0].kind == LISTEN
    ensures StreamInv(y, x, yx[1..], xy) && !Waiting(yx[1..])
  {
    hide Has, HasRefusal, Ordered, Data, Credits, DecodeResult;
    Delivered(yx);
    Nothing();
  }

  lemma ResultStep(x: Side, y: Side, xy: seq<Frame>, yx: seq<Frame>, x': Side)
    requires StreamInv(x, y, xy, yx) && yx != [] && yx[0].kind == OPEN_RESULT && DecodeResult(yx[0].payload).Success?
    requires x' == if x.pending.Some? then x.(pending := Some(Some(DecodeResult(yx[0].payload).value))) else x
    ensures StreamInv(x', y, xy, yx[1..])
  {
    hide Has, HasRefusal, Ordered, Data, Credits, DecodeResult, BytesFlow;
    Delivered(yx);
    BytesStay(x, y, yx, x');
    BytesAlike(x, y, xy, x');
  }
}
