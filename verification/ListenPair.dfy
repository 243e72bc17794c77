/**
 A listener request seen from both sides, with the frames in flight between them. The side that sent the LISTEN is
 the asker, the other one the server.
 */
module ListenPair {
  import opened Common
  import opened Json
  import opened MuxState
  import opened StreamPair
  import opened StreamSteps

  // ----- The two sides ----------------------------------------------------------------------

  /** What the asker knows; `busy` says that the ID is one of a stream. */
  datatype Asker = Asker(asked: Option<Option<bool>>, granted: bool, muted: bool, busy: bool)

  /** What the server knows; `running` says that its task has not answered. */
  datatype Server = Server(running: bool, listening: bool, stream: bool)

  function AskerOf(p: Peer, id: nat): Asker {
    Asker(Find(p.pendingListens, id), id in p.history.granted, id in p.history.muted,
          id in p.streams || id in p.pendingOpens)
  }

  predicate Serves(p: Peer, id: nat) { id in p.requests && p.requests[id] in {ListenQueued, ListenRunning} }

  function ServerOf(p: Peer, id: nat): Server { Server(Serves(p, id), id in p.listeners, id in p.streams) }

  predicate IsListenAnswer(f: Frame) { f.kind == LISTEN_RESULT }

  ghost predicate OneAnswer(frames: seq<Frame>) {
    forall i, j :: 0 <= i < j < |frames| ==> !(IsListenAnswer(frames[i]) && IsListenAnswer(frames[j]))
  }

  /** Every answer among some frames says `ok`. */
  ghost predicate AnswersSay(frames: seq<Frame>, ok: bool) {
    forall i :: 0 <= i < |frames| && IsListenAnswer(frames[i]) ==> DecodeResult(frames[i].payload) == Success(ok)
  }

  /** The request is on its way, being served, or answered by a listener or a frame on its way back. */
  predicate UnderWay(b: Server, ab: seq<Frame>, ba: seq<Frame>) {
    Has(ab, LISTEN) || b.running || Has(ba, LISTEN_RESULT)
  }

  /** Each request is in one place at a time. */
  ghost predicate OnePlace(a: Asker, b: Server, ab: seq<Frame>, ba: seq<Frame>) {
    && (Has(ab, LISTEN) ==> !b.running && !b.listening && !b.stream && !Has(ba, LISTEN_RESULT))
    && (b.running ==> !b.listening && !b.stream && !Has(ba, LISTEN_RESULT))
    && (b.listening || Has(ba, LISTEN_RESULT) ==> !b.stream)
    && OneAnswer(ba)
    && (UnderWay(b, ab, ba) || b.listening ==> !a.busy)
    && (a.asked.Some? || a.granted ==> !a.busy && !a.muted && !Has(ab, CLOSE))
    && (a.asked.Some? ==> !a.granted)
  }

  /** What the asker has been told, or is about to be told, is what the server did. */
  ghost predicate Told(a: Asker, b: Server, ab: seq<Frame>, ba: seq<Frame>) {
    && (a.asked == Some(None) ==> UnderWay(b, ab, ba))
    && (UnderWay(b, ab, ba) ==> (a.asked == None || a.asked == Some(None)) && !a.granted)
    && (a.asked == Some(None) ==> AnswersSay(ba, b.listening))
    && (a.asked.Some? && a.asked.value.Some? ==> a.asked.value.value == b.listening)
    && (a.granted ==> b.listening)
    && (UnderWay(b, ab, []) || b.listening ==> a.asked.Some? || a.granted || Has(ab, CLOSE) || a.muted)
  }

  ghost predicate ListenInv(a: Asker, b: Server, ab: seq<Frame>, ba: seq<Frame>) {
    OnePlace(a, b, ab, ba) && Told(a, b, ab, ba)
  }

  // ----- Steps of the asker -----------------------------------------------------------------

  /** A step that has nothing to do with listeners. It may end a stream of this ID. */
  predicate AskerAside(a: Asker, a': Asker) {
    && a'.asked == a.asked && a'.granted == a.granted
    && (a'.busy ==> a.busy) && (a.muted ==> a'.muted) && (a'.muted ==> a.muted || a.busy)
  }

  lemma AnswersSent(frames: seq<Frame>, f: Frame)
    ensures OneAnswer(frames) && (f.kind == LISTEN_RESULT ==> !Has(frames, LISTEN_RESULT)) ==> OneAnswer(frames + [f])
    ensures forall ok :: f.kind != LISTEN_RESULT ==> (AnswersSay(frames + [f], ok) <==> AnswersSay(frames, ok))
    ensures forall ok :: f.kind == LISTEN_RESULT && !Has(frames, LISTEN_RESULT) ==>
      (AnswersSay(frames + [f], ok) <==> DecodeResult(f.payload) == Success(ok))
  {
    hide DecodeResult;
    var all := frames + [f];
    assert all[|frames|] == f && forall i :: 0 <= i < |frames| ==> all[i] == frames[i];
  }

  lemma AnswersLeft(frames: seq<Frame>)
    requires frames != [] && OneAnswer(frames)
    ensures OneAnswer(frames[1..])
    ensures IsListenAnswer(frames[0]) ==> !Has(frames[1..], LISTEN_RESULT)
    ensures forall ok :: AnswersSay(frames, ok) ==> AnswersSay(frames[1..], ok)
    ensures forall ok :: AnswersSay(frames, ok) && IsListenAnswer(frames[0]) ==>
      DecodeResult(frames[0].payload) == Success(ok)
  {
    hide DecodeResult;
    var rest := frames[1..];
    assert forall i :: 0 <= i < |rest| ==> rest[i] == frames[i + 1];
  }

  lemma NoAnswers(frames: seq<Frame>, ok: bool)
    requires !Has(frames, LISTEN_RESULT)
    ensures AnswersSay(frames, ok)
  {
  }

  lemma AskerSendsAside(a: Asker, b: Server, ab: seq<Frame>, ba: seq<Frame>, a': Asker, f: Frame)
    requires ListenInv(a, b, ab, ba) && AskerAside(a, a')
    requires f.kind != LISTEN && (f.kind == CLOSE ==> a.busy)
    ensures ListenInv(a', b, ab + [f], ba)
  {
    hide Has, HasRefusal, Data, Credits, OneAnswer, AnswersSay;
    Sent(ab, f);
    Sent([], f);
  }

  lemma AskerActsAside(a: Asker, b: Server, ab: seq<Frame>, ba: seq<Frame>, a': Asker)
    requires ListenInv(a, b, ab, ba) && AskerAside(a, a')
    ensures ListenInv(a', b, ab, ba)
  {
    hide Has, OneAnswer, AnswersSay;
  }

  lemma RequestStep(a: Asker, b: Server, ab: seq<Frame>, ba: seq<Frame>, a': Asker, f: Frame)
    requires ListenInv(a, b, ab, ba) && ab == [] && ba == [] && !a.busy && !a.granted && !a.muted
    requires b == Server(false, false, false) && f.kind == LISTEN && a' == a.(asked := Some(None))
    ensures ListenInv(a', b, ab + [f], ba)
  {
    hide Has, HasRefusal, Data, Credits;
    Sent(ab, f);
    Nothing();
  }

  /** `request_listener` returns or raises. */
  lemma SettledStep(a: Asker, b: Server, ab: seq<Frame>, ba: seq<Frame>, a': Asker)
    requires ListenInv(a, b, ab, ba) && a.asked.Some? && a.asked.value.Some?
    requires a' == a.(asked := None, granted := a.granted || a.asked.value.value)
    ensures ListenInv(a', b, ab, ba)
  {
    hide Has, OneAnswer, AnswersSay;
    Nothing();
  }

  /** It gives up, and says so. */
  lemma GiveUpStep(a: Asker, b: Server, ab: seq<Frame>, ba: seq<Frame>, a': Asker, f: Frame)
    requires ListenInv(a, b, ab, ba) && a.asked.Some? && f.kind == CLOSE && a' == a.(asked := None)
    ensures ListenInv(a', b, ab + [f], ba)
  {
    hide Has, HasRefusal, Data, Credits, OneAnswer, AnswersSay;
    Sent(ab, f);
    Nothing();
  }

  /** Or does not. */
  lemma GiveUpCutStep(a: Asker, b: Server, ab: seq<Frame>, ba: seq<Frame>, a': Asker)
    requires ListenInv(a, b, ab, ba) && a.asked.Some? && a' == a.(asked := None, muted := true)
    ensures ListenInv(a', b, ab, ba)
  {
    hide Has, OneAnswer, AnswersSay;
    Nothing();
  }

  // ----- Steps of the server ----------------------------------------------------------------

  predicate ServerAside(b: Server, b': Server) {
    b'.running == b.running && b'.listening == b.listening && (b'.stream ==> b.stream)
  }

  lemma ServerSendsAside(a: Asker, b: Server, ab: seq<Frame>, ba: seq<Frame>, b': Server, f: Frame)
    requires ListenInv(a, b, ab, ba) && ServerAside(b, b') && f.kind != LISTEN_RESULT
    ensures ListenInv(a, b', ab, ba + [f])
  {
    hide Has, HasRefusal, Data, Credits, OneAnswer, AnswersSay, DecodeResult;
    Sent(ba, f);
    AnswersSent(ba, f);
  }

  lemma ServerActsAside(a: Asker, b: Server, ab: seq<Frame>, ba: seq<Frame>, b': Server)
    requires ListenInv(a, b, ab, ba) && ServerAside(b, b')
    ensures ListenInv(a, b', ab, ba)
  {
    hide Has, OneAnswer, AnswersSay;
  }

  /** The task of a request answers, and there is a listener exactly if it says so. */
  lemma AnswerStep(a: Asker, b: Server, ab: seq<Frame>, ba: seq<Frame>, b': Server, f: Frame, ok: bool)
    requires ListenInv(a, b, ab, ba) && b.running && b' == b.(running := false, listening := ok)
    requires f.kind == LISTEN_RESULT && DecodeResult(f.payload) == Success(ok)
    ensures ListenInv(a, b', ab, ba + [f])
  {
    hide Has, HasRefusal, Data, Credits, OneAnswer, AnswersSay, DecodeResult;
    Sent(ba, f);
    AnswersSent(ba, f);
    Nothing();
  }

  // ----- Deliveries -------------------------------------------------------------------------

  /** A LISTEN reaches the server: its task is queued, or it is refused at once. */
  lemma AdmitStep(a: Asker, b: Server, ab: seq<Frame>, ba: seq<Frame>, b': Server)
    requires ListenInv(a, b, ab, ba) && ab != [] && ab[0].kind == LISTEN && !Has(ab[1..], LISTEN)
    requires b' == b.(running := true)
    ensures ListenInv(a, b', ab[1..], ba)
  {
    hide HasRefusal, Data, Credits, OneAnswer, AnswersSay, DecodeResult, Ordered;
    Delivered(ab);
    hide Has;
    Nothing();
  }

  lemma RefuseListenStep(a: Asker, b: Server, ab: seq<Frame>, ba: seq<Frame>, f: Frame)
    requires ListenInv(a, b, ab, ba) && ab != [] && ab[0].kind == LISTEN && !Has(ab[1..], LISTEN)
    requires f.kind == LISTEN_RESULT && DecodeResult(f.payload) == Success(false)
    ensures ListenInv(a, b, ab[1..], ba + [f])
  {
    hide HasRefusal, Data, Credits, OneAnswer, AnswersSay, DecodeResult, Ordered;
    Delivered(ab);
    hide Has;
    Sent(ba, f);
    AnswersSent(ba, f);
    Nothing();
  }

  /** An OPEN reaches the server. */
  lemma OpenArrivesStep(a: Asker, b: Server, ab: seq<Frame>, ba: seq<Frame>, b': Server)
    requires ListenInv(a, b, ab, ba) && ab != [] && ab[0].kind == OPEN && !Has(ab[1..], LISTEN)
    requires b == Server(false, false, false) && !Has(ba, LISTEN_RESULT) && b' == b.(stream := b'.stream)
    ensures ListenInv(a, b', ab[1..], ba)
  {
    hide HasRefusal, Data, Credits, OneAnswer, AnswersSay, DecodeResult, Ordered;
    Delivered(ab);
    hide Has;
    Nothing();
  }

  /** A CLOSE reaches the server: it ends the task and the listener. */
  lemma CloseArrivesStep(a: Asker, b: Server, ab: seq<Frame>, ba: seq<Frame>, b': Server)
    requires ListenInv(a, b, ab, ba) && ab != [] && ab[0].kind == CLOSE && !Has(ab[1..], LISTEN)
    requires b'.running == false && (b'.stream ==> b.stream)
    requires b'.listening == (b.listening && b.stream)
    ensures ListenInv(a, b', ab[1..], ba)
  {
    hide HasRefusal, Data, Credits, OneAnswer, AnswersSay, DecodeResult, Ordered;
    Delivered(ab);
    hide Has;
    Nothing();
  }

  /** Any other frame reaches the server. */
  lemma ArrivesAside(a: Asker, b: Server, ab: seq<Frame>, ba: seq<Frame>, b': Server)
    requires ListenInv(a, b, ab, ba) && ServerAside(b, b')
    requires ab != [] && ab[0].kind != LISTEN && ab[0].kind != CLOSE
    ensures ListenInv(a, b', ab[1..], ba)
  {
    hide HasRefusal, Data, Credits, OneAnswer, AnswersSay, DecodeResult, Ordered;
    Delivered(ab);
    hide Has;
    Nothing();
  }

  /** The answer reaches the asker. */
  lemma AnswerArrivesStep(a: Asker, b: Server, ab: seq<Frame>, ba: seq<Frame>, a': Asker, ok: bool)
    requires ListenInv(a, b, ab, ba) && ba != [] && ba[0].kind == LISTEN_RESULT
    requires DecodeResult(ba[0].payload) == Success(ok)
    requires a' == if a.asked == Some(None) then a.(asked := Some(Some(ok))) else a
    ensures ListenInv(a', b, ab, ba[1..])
  {
    hide HasRefusal, Data, Credits, OneAnswer, AnswersSay, DecodeResult, Ordered;
    Delivered(ba);
    AnswersLeft(ba);
    hide Has;
    Nothing();
  }

  /** Any other frame reaches the asker. */
  lemma ReturnsAside(a: Asker, b: Server, ab: seq<Frame>, ba: seq<Frame>, a': Asker)
    requires ListenInv(a, b, ab, ba) && AskerAside(a, a') && ba != [] && ba[0].kind != LISTEN_RESULT
    ensures ListenInv(a', b, ab, ba[1..])
  {
    hide HasRefusal, Data, Credits, OneAnswer, AnswersSay, DecodeResult, Ordered;
    Delivered(ba);
    AnswersLeft(ba);
    hide Has;
  }
}
