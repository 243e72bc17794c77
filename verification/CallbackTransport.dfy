/**
 The queue between a callback thread that feeds bytes, one reader, and whoever closes the channel.

 The state lock makes feeding, finishing a read and closing exclude each other; taking an item off
 the queue is not under that lock, so it can happen at any moment, also while a close drains the
 queue. The steps below are the stretches between these points.
 */
module CallbackTransport {
  import opened Common

  const MAX_CALLBACK_MESSAGE := 1024 * 1024
  const MAX_CALLBACK_BUFFER := 4 * 1024 * 1024
  const MAX_CALLBACK_MESSAGES := 4096

  /** `None` is the mark that wakes a reader when the channel is closed. */
  type Item = Option<Bytes>

  const MARK: Item := None

  /** Where the reader stands in `read`. */
  datatype Reader =
    | Idle               // no call under way
    | Waiting            // in the blocking `get`
    | Holding(item: Item) // has an item, but not the lock yet

  /** `accepted` and `delivered` are the messages fed and returned so far, `ends` counts the empty returns. */
  datatype Pipe = Pipe(
    queue: seq<Item>, queuedBytes: int, closed: bool, draining: bool, reader: Reader,
    accepted: seq<Bytes>, delivered: seq<Bytes>, ends: nat, woken: bool)

  const NEW_PIPE := Pipe([], 0, false, false, Idle, [], [], 0, false)

  datatype FeedOutcome = Accepted | Ignored | Closed | MessageTooLong | BufferFull

  /** What `feed_from_thread` answers. */
  function Feeding(s: Pipe, data: Bytes): FeedOutcome {
    if data == [] then Ignored
    else if |data| > MAX_CALLBACK_MESSAGE then MessageTooLong
    else if s.closed then Closed
    else if s.queuedBytes + |data| > MAX_CALLBACK_BUFFER || |s.queue| >= MAX_CALLBACK_MESSAGES then BufferFull
    else Accepted
  }

  datatype Step =
    | Feed(data: Bytes)
    | CallRead  // the reader enters `read`
    | Get       // its `get` returns
    | Return    // and it returns from `read`, having had the lock
    | Close     // takes the lock and starts to drain, unless closed already
    | Drain     // `get_nowait` of the drain loop, with something there
    | EndDrain  // and with nothing there: puts the mark and lets the lock go

  predicate Enabled(s: Pipe, step: Step) {
    match step
    case Feed(_) => !s.draining
    case CallRead => s.reader == Idle
    case Get => s.reader == Waiting && s.queue != []
    case Return => s.reader.Holding? && !s.draining
    case Close => !s.draining
    case Drain => s.draining && s.queue != []
    case EndDrain => s.draining && s.queue == []
  }

  function Size(item: Item): nat { if item.Some? then |item.value| else 0 }

  /** What `read` returns with the item it holds: the item, or nothing once the channel is closed. */
  function Returned(s: Pipe): Bytes
    requires s.reader.Holding?
  {
    if s.closed || s.reader.item.None? then [] else s.reader.item.value
  }

  /** The byte count without `item`. */
  function Released(s: Pipe, item: Item): int {
    if item.Some? then Max(0, s.queuedBytes - |item.value|) else s.queuedBytes
  }

  function Do(s: Pipe, step: Step): Pipe
    requires Enabled(s, step)
  {
    match step
    case Feed(data) =>
      if Feeding(s, data).Accepted?
      then s.(queue := s.queue + [Some(data)], queuedBytes := s.queuedBytes + |data|, accepted := s.accepted + [data])
      else s
    case CallRead => s.(reader := Waiting)
    case Get => s.(reader := Holding(s.queue[0]), queue := s.queue[1..])
    case Return =>
      var data := Returned(s);
      s.(reader := Idle, queuedBytes := Released(s, s.reader.item),
         delivered := if data == [] then s.delivered else s.delivered + [data],
         ends := if data == [] then s.ends + 1 else s.ends,
         woken := s.woken || s.reader.item.None?)
    case Close => if s.closed then s else s.(closed := true, draining := true)
    case Drain => s.(queue := s.queue[1..], queuedBytes := Released(s, s.queue[0]))
    case EndDrain => s.(queue := [None], draining := false)
  }

  /** The state after a run of steps, each enabled when it is taken. */
  function Run(s: Pipe, steps: seq<Step>): Option<Pipe>
    decreases |steps|
  {
    if steps == [] then Some(s)
    else if !Enabled(s, steps[0]) then None
    else Run(Do(s, steps[0]), steps[1..])
  }

  // ----- The invariant ----------------------------------------------------------------------

  function Sizes(queue: seq<Item>): nat {
    if queue == [] then 0 else Size(queue[0]) + Sizes(queue[1..])
  }

  /** The messages among some items. */
  function Messages(queue: seq<Item>): seq<Bytes> {
    if queue == [] then []
    else (if queue[0].Some? then [queue[0].value] else []) + Messages(queue[1..])
  }

  /** What is in the reader's hand. */
  function Hand(s: Pipe): seq<Item> { if s.reader.Holding? then [s.reader.item] else [] }

  ghost predicate Inv(s: Pipe) {
    // the count is exact, and within the limits
    && s.queuedBytes == Sizes(Hand(s)) + Sizes(s.queue) <= MAX_CALLBACK_BUFFER
    && |s.queue| <= MAX_CALLBACK_MESSAGES
    // nothing is lost or reordered on the way to the reader
    && (!s.closed ==> s.accepted == s.delivered + Messages(Hand(s)) + Messages(s.queue))
    && s.delivered <= s.accepted
    // messages are never empty, so an empty return means the end
    && (forall item :: item in s.queue || item in Hand(s) ==> item.Some? ==> item.value != [])
    // there is one mark, put when the drain ends
    && (s.draining ==> s.closed)
    && (!s.closed || s.draining ==> MARK !in s.queue && s.reader != Holding(MARK) && !s.woken)
    && (s.closed && !s.draining ==>
          if s.woken || s.reader == Holding(MARK) then s.queue == [] && (s.woken ==> s.reader != Holding(MARK))
          else s.queue == [MARK])
    && (s.woken ==> s.ends > 0 && !s.reader.Holding?)
  }

  lemma {:induction false} SizesAppend(a: seq<Item>, b: seq<Item>)
    ensures Sizes(a + b) == Sizes(a) + Sizes(b) && Messages(a + b) == Messages(a) + Messages(b)
  {
    if a == [] {
      assert a + b == b;
    } else {
      assert (a + b)[1..] == a[1..] + b;
      SizesAppend(a[1..], b);
    }
  }

  lemma TakeOne(queue: seq<Item>)
    requires queue != []
    ensures Sizes(queue) == Sizes([queue[0]]) + Sizes(queue[1..])
    ensures Messages(queue) == Messages([queue[0]]) + Messages(queue[1..])
    ensures Sizes([queue[0]]) == Size(queue[0])
    ensures Messages([queue[0]]) == if queue[0].Some? then [queue[0].value] else []
  {
    var first: seq<Item> := [queue[0]];
    assert queue == first + queue[1..] && first[1..] == [];
    SizesAppend(first, queue[1..]);
  }

  lemma NoItems()
    ensures Sizes([]) == 0 && Messages([]) == []
  {
  }

  lemma FeedKeeps(s: Pipe, data: Bytes)
    requires Inv(s) && Enabled(s, Feed(data))
    ensures Inv(Do(s, Feed(data)))
  {
    SizesAppend(s.queue, [Some(data)]);
    TakeOne([Some(data)]);
    assert s.delivered + Messages(Hand(s)) + (Messages(s.queue) + [data])
        == s.delivered + Messages(Hand(s)) + Messages(s.queue) + [data];
  }

  lemma GetKeeps(s: Pipe)
    requires Inv(s) && Enabled(s, Get)
    ensures Inv(Do(s, Get))
  {
    hide Sizes, Messages;
    TakeOne(s.queue);
    NoItems();
    assert Messages(Hand(s)) == [] && s.delivered + [] == s.delivered;
    assert s.delivered + (Messages([s.queue[0]]) + Messages(s.queue[1..]))
        == s.delivered + Messages([s.queue[0]]) + Messages(s.queue[1..]);
  }

  lemma ReturnKeeps(s: Pipe)
    requires Inv(s) && Enabled(s, Return)
    ensures Inv(Do(s, Return))
  {
    TakeOne(Hand(s));
    assert s.delivered + [] == s.delivered;
  }

  lemma DrainKeeps(s: Pipe)
    requires Inv(s) && Enabled(s, Drain)
    ensures Inv(Do(s, Drain))
  {
    TakeOne(s.queue);
  }

  lemma StepKeepsInv(s: Pipe, step: Step)
    requires Inv(s) && Enabled(s, step)
    ensures Inv(Do(s, step))
  {
    match step
    case Feed(data) => FeedKeeps(s, data);
    case CallRead =>
    case Get => GetKeeps(s);
    case Return => ReturnKeeps(s);
    case Close =>
    case Drain => DrainKeeps(s);
    case EndDrain =>
  }

  ghost predicate Reachable(s: Pipe) { exists steps :: Run(NEW_PIPE, steps) == Some(s) }

  lemma {:induction false} RunKeepsInv(s: Pipe, steps: seq<Step>)
    requires Inv(s) && Run(s, steps).Some?
    ensures Inv(Run(s, steps).value)
    decreases |steps|
  {
    hide Inv;
    if steps != [] {
      StepKeepsInv(s, steps[0]);
      RunKeepsInv(Do(s, steps[0]), steps[1..]);
    }
  }

  lemma NewPipeInv()
    ensures Inv(NEW_PIPE)
  {
  }

  lemma ReachableInv(s: Pipe)
    requires Reachable(s)
    ensures Inv(s)
  {
    hide Run, Inv;
    NewPipeInv();
    var steps :| Run(NEW_PIPE, steps) == Some(s);
    RunKeepsInv(NEW_PIPE, steps);
  }

  // ----- What follows for every interleaving ------------------------------------------------

  /** What was returned is what was fed, in order, up to some point; before a close nothing is missing. */
  lemma DeliveredIsPrefix(s: Pipe)
    requires Reachable(s)
    ensures s.delivered <= s.accepted
    ensures !s.closed && s.queue == [] && !s.reader.Holding? ==> s.delivered == s.accepted
  {
    ReachableInv(s);
  }

  /** The byte count is exact, so its clamp at zero never acts, and both limits hold. */
  lemma AccountingIsExact(s: Pipe)
    requires Reachable(s)
    ensures s.queuedBytes == Sizes(s.queue) + (if s.reader.Holding? then Size(s.reader.item) else 0)
    ensures s.queuedBytes <= 4194304 && |s.queue| <= 4096
    ensures s.reader.Holding? ==> s.queuedBytes >= Size(s.reader.item)
    ensures s.queue != [] ==> s.queuedBytes >= Size(s.queue[0])
  {
    ReachableInv(s);
    if s.reader.Holding? { TakeOne(Hand(s)); }
  }

  /**
   What the reader's side answers to some bytes: they are accepted exactly if they are 1 byte to 1 MiB, the
   channel is open, what is queued and in the reader's hand stays within 4 MiB with them, and fewer than 4096
   messages are queued.
   */
  lemma AcceptedIff(s: Pipe, data: Bytes)
    requires Reachable(s)
    ensures Feeding(s, data).Accepted? <==>
      && 0 < |data| <= 1048576 && !s.closed && |s.queue| < 4096
      && Sizes(s.queue) + (if s.reader.Holding? then Size(s.reader.item) else 0) + |data| <= 4194304
    ensures data == [] <==> Feeding(s, data).Ignored?
    ensures 0 < |data| <= 1048576 && s.closed <==> Feeding(s, data).Closed?
  {
    hide Reachable;
    AccountingIsExact(s);
  }

  /** A queue at its limit refuses `put_nowait`; neither place that calls it meets one. */
  lemma PutsNeverFail(s: Pipe, data: Bytes)
    requires Reachable(s)
    ensures Feeding(s, data).Accepted? ==> |s.queue| < MAX_CALLBACK_MESSAGES
    ensures Enabled(s, EndDrain) ==> |s.queue| < MAX_CALLBACK_MESSAGES
  {
    ReachableInv(s);
  }

  /** A close can always finish: nothing the others do can hold up the drain. */
  lemma {:induction false} DrainEnds(s: Pipe) returns (steps: seq<Step>)
    requires s.draining
    ensures Run(s, steps).Some? && !Run(s, steps).value.draining && Run(s, steps).value.closed == s.closed
    ensures Run(s, steps).value.queue == [MARK] && Run(s, steps).value.reader == s.reader
    ensures forall step :: step in steps ==> step == Drain || step == EndDrain
    decreases |s.queue|
  {
    if s.queue == [] {
      steps := [EndDrain];
    } else {
      var rest := DrainEnds(Do(s, Drain));
      steps := [Drain] + rest;
      assert steps[1..] == rest;
    }
  }

  /**
   Once a close is through, a reader in `get` is woken and returns nothing, unless an earlier read
   already took the mark: there is only one, so `read` after that blocks for good.
   */
  lemma CloseWakesUnlessWoken(s: Pipe)
    requires Reachable(s) && s.closed && !s.draining && s.reader == Waiting
    ensures Enabled(s, Get) <==> !s.woken
    ensures !s.woken ==>
      var s' := Do(Do(s, Get), Return);
      s'.reader == Idle && s'.ends == s.ends + 1 && s'.delivered == s.delivered && s'.woken
  {
    ReachableInv(s);
  }

  /** Blocked for good: no run lets the reader out again. */
  lemma {:induction false} WokenReaderStaysBlocked(s: Pipe, steps: seq<Step>)
    requires Inv(s) && s.closed && !s.draining && s.reader == Waiting && s.woken && Run(s, steps).Some?
    ensures Run(s, steps).value.reader == Waiting && Run(s, steps).value == s
    decreases |steps|
  {
    if steps != [] {
      WokenReaderStaysBlocked(Do(s, steps[0]), steps[1..]);
    }
  }

  /** It happens: two reads after a close, and the second one waits in vain. */
  lemma BlockedReaderHappens() returns (s: Pipe)
    ensures Reachable(s) && s.closed && !s.draining && s.reader == Waiting && s.woken
    ensures forall steps :: Run(s, steps).Some? ==> Run(s, steps).value.reader == Waiting
  {
    hide Run;
    var s1 := Do(Do(NEW_PIPE, Close), EndDrain);
    var s2 := Do(Do(Do(s1, CallRead), Get), Return);
    s := Do(s2, CallRead);
    var steps := [] + [Close] + [EndDrain] + [CallRead] + [Get] + [Return] + [CallRead];
    Reaches(steps, s);
    ReachableInv(s);
    forall more | Run(s, more).Some? ensures Run(s, more).value.reader == Waiting { WokenReaderStaysBlocked(s, more); }
  }

  lemma Reaches(steps: seq<Step>, s: Pipe)
    requires steps == [] + [Close] + [EndDrain] + [CallRead] + [Get] + [Return] + [CallRead]
    requires s == Do(Do(Do(Do(Do(Do(NEW_PIPE, Close), EndDrain), CallRead), Get), Return), CallRead)
    ensures Run(NEW_PIPE, steps) == Some(s)
  {
    hide Run;
    var s1 := Do(NEW_PIPE, Close);
    var s2 := Do(s1, EndDrain);
    var s3 := Do(s2, CallRead);
    var s4 := Do(s3, Get);
    RunNone(NEW_PIPE);
    RunMore(NEW_PIPE, [], NEW_PIPE, Close);
    RunMore(NEW_PIPE, [] + [Close], s1, EndDrain);
    RunMore(NEW_PIPE, [] + [Close] + [EndDrain], s2, CallRead);
    RunMore(NEW_PIPE, [] + [Close] + [EndDrain] + [CallRead], s3, Get);
    RunMore(NEW_PIPE, [] + [Close] + [EndDrain] + [CallRead] + [Get], s4, Return);
    RunMore(NEW_PIPE, [] + [Close] + [EndDrain] + [CallRead] + [Get] + [Return], Do(s4, Return), CallRead);
  }

  /** If a read waits, no earlier one took the mark. */
  ghost predicate StillUnwoken(s: Pipe) { s.reader == Waiting ==> !s.woken }

  lemma {:induction false} SameReadIsNotWoken(s: Pipe, steps: seq<Step>)
    requires Inv(s) && StillUnwoken(s) && Run(s, steps).Some? && CallRead !in steps
    ensures StillUnwoken(Run(s, steps).value)
    decreases |steps|
  {
    hide Inv;
    if steps != [] {
      StepKeepsInv(s, steps[0]);
      assert steps[0] in steps && forall step :: step in steps[1..] ==> step in steps;
      SameReadIsNotWoken(Do(s, steps[0]), steps[1..]);
    }
  }

  /**
   A read that is under way when the channel is closed is always released: whatever happens, once
   the drain is over it has an item, has returned, or can take the mark.
   */
  lemma WaitingReadIsReleased(s: Pipe, steps: seq<Step>)
    requires Reachable(s) && !s.closed && s.reader == Waiting
    requires Run(s, steps).Some? && CallRead !in steps
    requires Run(s, steps).value.closed && !Run(s, steps).value.draining
    ensures var t := Run(s, steps).value; t.reader != Waiting || Enabled(t, Get)
  {
    hide Reachable, Run;
    ReachableInv(s);
    SameReadIsNotWoken(s, steps);
    RunKeepsInv(s, steps);
  }

  /** After a close has begun nothing more is delivered: every read that returns, returns nothing. */
  lemma {:induction false} NothingAfterClose(s: Pipe, steps: seq<Step>)
    requires s.closed && Run(s, steps).Some?
    ensures Run(s, steps).value.closed && Run(s, steps).value.delivered == s.delivered
    ensures Run(s, steps).value.accepted == s.accepted
    decreases |steps|
  {
    if steps != [] { NothingAfterClose(Do(s, steps[0]), steps[1..]); }
  }

  /** An empty return always means that the channel was closed. */
  lemma {:induction false} EndMeansClosed(s: Pipe, steps: seq<Step>)
    requires Inv(s) && (s.ends > 0 ==> s.closed) && Run(s, steps).Some?
    ensures Run(s, steps).value.ends > 0 ==> Run(s, steps).value.closed
    decreases |steps|
  {
    if steps != [] {
      StepKeepsInv(s, steps[0]);
      EndMeansClosed(Do(s, steps[0]), steps[1..]);
    }
  }

  /** The same state while somebody drains. */
  function Draining(s: Pipe): Pipe { s.(draining := true) }

  // ----- The object -------------------------------------------------------------------------

  class Transport {
    var incoming: seq<Item>
    var queuedBytes: int
    var closed: bool
    // The reader thread, which shares the queue.
    var reader: Reader
    ghost var accepted: seq<Bytes>
    ghost var delivered: seq<Bytes>
    ghost var ends: nat
    ghost var woken: bool

    constructor ()
      ensures State() == NEW_PIPE
    {
      incoming, queuedBytes, closed, reader := [], 0, false, Idle;
      accepted, delivered, ends, woken := [], [], 0, false;
    }

    /** The state while nobody drains. */
    ghost function State(): Pipe
      reads this
    {
      Pipe(incoming, queuedBytes, closed, false, reader, accepted, delivered, ends, woken)
    }

    method FeedFromThread(data: Bytes) returns (outcome: FeedOutcome)
      modifies this
      ensures outcome == Feeding(old(State()), data) && State() == Do(old(State()), Feed(data))
    {
      if data == [] { return Ignored; }
      if |data| > MAX_CALLBACK_MESSAGE { return MessageTooLong; }
      if closed { return Closed; }
      if queuedBytes + |data| > MAX_CALLBACK_BUFFER || |incoming| >= MAX_CALLBACK_MESSAGES { return BufferFull; }
      incoming := incoming + [Some(data)];
      queuedBytes := queuedBytes + |data|;
      accepted := accepted + [data];
      outcome := Accepted;
    }

    /** The blocking `get` of the reader, when there is something to take. */
    method TakeItem()
      requires reader == Waiting && incoming != []
      modifies this
      ensures State() == Do(old(State()), Get)
    {
      reader, incoming := Holding(incoming[0]), incoming[1..];
    }

    /** The rest of `read`. */
    method FinishRead() returns (data: Bytes)
      requires reader.Holding?
      modifies this
      ensures data == Returned(old(State())) && State() == Do(old(State()), Return)
    {
      var item := reader.item;
      if item.Some? { queuedBytes := Max(0, queuedBytes - |item.value|); }
      data := if closed || item.None? then [] else item.value;
      delivered := if data == [] then delivered else delivered + [data];
      ends := if data == [] then ends + 1 else ends;
      woken := woken || item.None?;
      reader := Idle;
    }

    method EnterRead()
      requires reader == Idle
      modifies this
      ensures State() == Do(old(State()), CallRead)
    {
      reader := Waiting;
    }

    /** What the reader may do while somebody drains: enter `read`, and take an item. */
    method Interfere(ghost start: Pipe, ghost before: seq<Step>) returns (ghost steps: seq<Step>)
      requires Run(start, before) == Some(Draining(State()))
      modifies this
      ensures Run(start, steps) == Some(Draining(State())) && closed == old(closed)
      ensures forall step :: step in steps ==> step in before || step in {CallRead, Get}
      ensures |incoming| <= |old(incoming)|
    {
      hide Run;
      steps := before;
      if * {
        if reader == Idle {
          RunMore(start, steps, Draining(State()), CallRead);
          steps := steps + [CallRead];
          EnterRead();
        }
      }
      if * {
        if reader == Waiting && incoming != [] {
          RunMore(start, steps, Draining(State()), Get);
          steps := steps + [Get];
          TakeItem();
        }
      }
    }

    /** One turn of the drain loop that finds something. */
    method DrainOne()
      requires incoming != []
      modifies this`incoming, this`queuedBytes
      ensures Draining(State()) == Do(Draining(old(State())), Drain)
    {
      var item := incoming[0];
      incoming := incoming[1..];
      if item.Some? { queuedBytes := Max(0, queuedBytes - |item.value|); }
    }

    /**
     The drain loop, with the reader free to enter `read` and to take an item between any two turns
     and before the mark is put. `steps` is what happened, turn by turn.
     */
    method CloseFromThread() returns (ghost steps: seq<Step>)
      modifies this
      ensures Run(old(State()), steps) == Some(State())
      ensures forall step :: step in steps ==> step in {Close, CallRead, Get, Drain, EndDrain}
      ensures closed && (!old(closed) ==> incoming == [MARK])
    {
      hide Run;
      ghost var start := old(State());
      RunNone(start);
      RunMore(start, [], start, Close);
      steps := [] + [Close];
      if closed { return; }
      closed := true;
      while true
        invariant closed
        invariant Run(start, steps) == Some(Draining(State()))
        invariant forall step :: step in steps ==> step in {Close, CallRead, Get, Drain, EndDrain}
        decreases |incoming|
      {
        steps := Interfere(start, steps);
        if incoming == [] { break; }
        RunMore(start, steps, Draining(State()), Drain);
        steps := steps + [Drain];
        DrainOne();
      }
      steps := Interfere(start, steps);
      RunMore(start, steps, Draining(State()), EndDrain);
      incoming := [MARK];
      steps := steps + [EndDrain];
    }
  }

  lemma RunNone(s: Pipe)
    ensures Run(s, []) == Some(s)
  {
  }

  lemma {:induction false} RunMore(s: Pipe, steps: seq<Step>, s': Pipe, step: Step)
    requires Run(s, steps) == Some(s') && Enabled(s', step)
    ensures Run(s, steps + [step]) == Some(Do(s', step))
    decreases |steps|
  {
    if steps == [] {
      assert (steps + [step])[1..] == [];
    } else {
      assert (steps + [step])[1..] == steps[1..] + [step] && (steps + [step])[0] == steps[0];
      RunMore(Do(s, steps[0]), steps[1..], s', step);
    }
  }
}
