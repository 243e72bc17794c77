/** What the invariant means: properties of every state two honest peers can reach. */
module PairTheorems {
  import opened Common
  import opened Json
  import opened MuxState
  import opened MuxLocal
  import opened StreamPair
  import opened StreamSteps
  import opened MuxPair
  import opened PairChannels
  import opened PairSteps
  import opened PairActions
  import opened PairDeliveries

  // ----- No honest tunnel dies ------------------------------------------------------------------

  lemma HelloLostKeeps(s: System, at: nat)
    requires Inv(s) && HelloAt(s.lr, at)
    ensures Inv(s.(lr := s.lr[..at] + s.lr[at + 1..]))
  {
    hide PeerInv, ChannelInv, StreamOk, Configured;
    var a, hello, b := s.lr[..at], s.lr[at], s.lr[at + 1..];
    var s' := s.(lr := a + b);
    assert s.lr == a + [hello] + b;
    LoseKeeps(s.left, s.right, a, hello, b);
    HelloIsGlobal(s, at);
    forall id: nat | id > 0 ensures StreamOk(s', id) { SameFrames(s, s', id, a, hello, b); }
  }

  lemma HelloIsGlobal(s: System, at: nat)
    requires Inv(s) && HelloAt(s.lr, at)
    ensures s.lr[at].id == 0 && Honest(s.left, s.lr[at])
  {
    hide PeerInv, StreamOk, RequestOrder, Handshake;
  }

  lemma SameFrames(s: System, s': System, id: nat, a: seq<Frame>, hello: Frame, b: seq<Frame>)
    requires StreamOk(s, id) && s'.left == s.left && s'.right == s.right && s'.rl == s.rl && hello.id != id
    requires (s.lr == a + [hello] + b && s'.lr == a + b) || (s.lr == a + b && s'.lr == a + [hello] + b)
    ensures StreamOk(s', id)
  {
    hide Joint, Known, On, SideOf;
    OnWithout(a, hello, b, id);
  }

  lemma HelloRepeatedKeeps(s: System, at: nat)
    requires Inv(s) && HelloAt(s.lr, at)
    ensures Inv(s.(lr := s.lr[..at] + [s.lr[at]] + s.lr[at..]))
  {
    hide PeerInv, ChannelInv, StreamOk, Configured;
    var a, hello, b := s.lr[..at], s.lr[at], s.lr[at..];
    var s' := s.(lr := a + [hello] + b);
    assert s.lr == a + b;
    HelloIsGlobal(s, at);
    RepeatKeeps(s.left, s.right, a, hello, b);
    forall id: nat | id > 0 ensures StreamOk(s', id) { SameFrames(s, s', id, a, hello, b); }
  }

  /** The outcome of a step: never the death of the tunnel, and the invariant again. */
  ghost predicate Survives(outcome: Outcome) {
    !outcome.Died? && (outcome.Next? ==> Inv(outcome.system))
  }

  lemma StepLeftSurvives(s: System, event: Event)
    requires Inv(s)
    ensures Survives(StepLeft(s, event))
  {
    hide Inv, Enabled, Apply, Dispatch;
    match event {
      case Act(action) => if Enabled(s.left, action) { ActKeeps(s, action, StepLeft(s, event).system); }
      case Deliver => if s.rl != [] { DeliverKeepsInv(s); }
      case LoseHello(at) => if HelloAt(s.lr, at) { HelloLostKeeps(s, at); }
      case RepeatHello(at) => if HelloAt(s.lr, at) { HelloRepeatedKeeps(s, at); }
    }
  }

  lemma TakeSurvives(s: System, step: Step)
    requires Inv(s)
    ensures Survives(Take(s, step))
  {
    hide Inv, StepLeft;
    if step.onLeft {
      StepLeftSurvives(s, step.event);
    } else {
      SwapInv(s);
      StepLeftSurvives(Swap(s), step.event);
      var outcome := StepLeft(Swap(s), step.event);
      if outcome.Next? { SwapInv(outcome.system); }
    }
  }

  lemma {:induction false} RunSurvives(s: System, steps: seq<Step>)
    requires Inv(s)
    ensures Survives(Run(s, steps))
    decreases |steps|
  {
    hide Inv, Take;
    if steps != [] {
      TakeSurvives(s, steps[0]);
      if Take(s, steps[0]).Next? { RunSurvives(Take(s, steps[0]).system, steps[1..]); }
    }
  }

  /**
   In no interleaving of opens, listens, writes, reads, half-closes, closes, timeouts, refusals,
   retransmissions and losses of HELLOs does either of two honest peers raise a protocol error.
   */
  lemma NoHonestTunnelDies(s: System, steps: seq<Step>)
    requires Initial(s)
    ensures !Run(s, steps).Died?
  {
    hide Inv, Initial, Run;
    InitialInv(s);
    RunSurvives(s, steps);
  }

  ghost predicate Reachable(s: System) {
    exists start, steps :: Initial(start) && Run(start, steps) == Next(s)
  }

  lemma ReachableInv(s: System)
    requires Reachable(s)
    ensures Inv(s)
  {
    hide Inv, Initial, Run;
    var start, steps :| Initial(start) && Run(start, steps) == Next(s);
    InitialInv(start);
    RunSurvives(start, steps);
  }

  function Flip(steps: seq<Step>): seq<Step> {
    seq(|steps|, i requires 0 <= i < |steps| => Step(!steps[i].onLeft, steps[i].event))
  }

  function SwapOutcome(outcome: Outcome): Outcome {
    match outcome case Next(s) => Next(Swap(s)) case other => other
  }

  lemma {:induction false} SwapRun(s: System, steps: seq<Step>)
    ensures Run(Swap(s), Flip(steps)) == SwapOutcome(Run(s, steps))
    decreases |steps|
  {
    hide StepLeft;
    if steps != [] {
      assert Swap(Swap(s)) == s;
      assert Take(Swap(s), Flip(steps)[0]) == SwapOutcome(Take(s, steps[0]));
      assert Flip(steps)[1..] == Flip(steps[1..]);
      if Take(s, steps[0]).Next? { SwapRun(Take(s, steps[0]).system, steps[1..]); }
    }
  }

  /** The two sides are interchangeable: what holds of the left peer holds of the right one. */
  lemma ReachableSwap(s: System)
    requires Reachable(s)
    ensures Reachable(Swap(s))
  {
    hide Run;
    var start, steps :| Initial(start) && Run(start, steps) == Next(s);
    SwapRun(start, steps);
    assert Initial(Swap(start)) && Run(Swap(start), Flip(steps)) == Next(Swap(s));
  }

  // ----- Flow control -------------------------------------------------------------------------

  lemma ReachableFlow(s: System, id: nat)
    requires Reachable(s) && id > 0
    ensures var x, y, xy, yx := SideOf(s.left, id), SideOf(s.right, id), On(s.lr, id), On(s.rl, id);
      var waiting := Waiting(if Owns(s.left.role, id) then xy else yx);
      Flow(x, y, xy, yx, waiting) && Flow(y, x, yx, xy, waiting) && EndsOk(x, y)
  {
    hide PeersInv, ChannelInv, Opening, Pending, Serving, Closing, Ordered, Has, On, SideOf, Known, Flow, Waiting,
      EndsOk, Reachable;
    ReachableInv(s);
    assert StreamOk(s, id);
    EndsOkOf(s, id);
  }

  /**
   The 256 KiB window of a stream that is open at both ends is always accounted for: with the
   writer, in its hands, in flight, unread, on its way back, or lost to reads that were cancelled
   before they had sent their credit.
   */
  lemma CreditIsConserved(s: System, id: nat)
    requires Reachable(s) && id > 0 && Live(s.left, id) && Live(s.right, id)
    ensures var x, y := s.left.streams[id], s.right.streams[id];
      && x.sendCredit + |x.taken| + |Data(On(s.lr, id))| + |y.buffer| + Credits(On(s.rl, id))
         + Count(s.right.history.lost, id) == INITIAL_WINDOW
      && y.sendCredit + |y.taken| + |Data(On(s.rl, id))| + |x.buffer| + Credits(On(s.lr, id))
         + Count(s.left.history.lost, id) == INITIAL_WINDOW
  {
    hide Reachable, BytesFlow, EofFlow, CloseFlow, On, Waiting, Count;
    ReachableFlow(s, id);
  }

  /** What reads have taken, what waits to be read and what is in flight is what was written. */
  lemma StreamIsFifo(s: System, id: nat)
    requires Reachable(s) && id > 0
    ensures var written, read := Log(s.left.history.sent, id), Log(s.right.history.got, id);
      && read <= written
      && (Live(s.right, id) ==> read + s.right.streams[id].buffer + Data(On(s.lr, id)) == written)
      && (id in s.right.streams && s.right.streams[id].closed ==> read + s.right.streams[id].buffer == written)
      && (Find(s.right.history.endings, id) == Some(Drained) ==> read == written)
  {
    hide Reachable, CreditFlow, EofFlow, CloseFlow, On, Waiting;
    ReachableFlow(s, id);
  }

  /** The same in the other direction: each theorem about the left peer is one about the right peer. */
  lemma StreamIsFifoBothWays(s: System, id: nat)
    requires Reachable(s) && id > 0
    ensures Log(s.right.history.got, id) <= Log(s.left.history.sent, id)
    ensures Log(s.left.history.got, id) <= Log(s.right.history.sent, id)
    ensures Live(s.left, id) ==>
      Log(s.left.history.got, id) + s.left.streams[id].buffer + Data(On(s.rl, id)) == Log(s.right.history.sent, id)
  {
    hide Reachable, On, Data, Log;
    StreamIsFifo(s, id);
    ReachableSwap(s);
    StreamIsFifo(Swap(s), id);
  }

  /** A `read` that returns b"" for the end of the stream has returned everything before. */
  lemma EofMeansEverything(s: System, id: nat)
    requires Reachable(s) && id in s.right.streams && id > 0
    requires s.right.streams[id].buffer == [] && (s.right.streams[id].remoteEof || s.right.streams[id].closed)
    ensures Log(s.right.history.got, id) == Log(s.left.history.sent, id) && id in s.left.history.eofs
  {
    hide Reachable, CreditFlow, CloseFlow, On, Waiting;
    ReachableFlow(s, id);
    NothingInFlight(On(s.lr, id));
  }

  /**
   Once the reader's end is gone, unless the reader closed it itself, the writer has been taken for
   one that closed gracefully exactly if its HALF_CLOSE was sent; and then everything written has
   been read.
   */
  lemma GracefulCloseLosesNothing(s: System, id: nat)
    requires Reachable(s) && id > 0
    requires id in s.right.history.endings && s.right.history.endings[id] != ClosedHere
    ensures s.right.history.endings[id] == Drained <==> id in s.left.history.eofs
    ensures id in s.left.history.eofs ==> Log(s.right.history.got, id) == Log(s.left.history.sent, id)
  {
    hide Reachable, CreditFlow, CloseFlow, On, Waiting;
    ReachableFlow(s, id);
  }

  // ----- No deadlock, and convergence -----------------------------------------------------------

  lemma ReachableClosing(s: System, id: nat)
    requires Reachable(s) && id > 0
    ensures var x, y, xy, yx := SideOf(s.left, id), SideOf(s.right, id), On(s.lr, id), On(s.rl, id);
      if Owns(s.left.role, id) then Closing(x, y, xy, yx) && Opening(x, y, xy, yx) && Pending(x, y, xy, yx)
      else Closing(y, x, yx, xy) && Opening(y, x, yx, xy) && Pending(y, x, yx, xy)
  {
    hide PeersInv, ChannelInv, Opening, Pending, Serving, Closing, Ordered, Has, On, SideOf, Known, Flow, Waiting,
      Reachable;
    ReachableInv(s);
    assert StreamOk(s, id);
  }

  /**
   When a writer waits for stream credit, there is data on its way or unread, or credit on its way
   back, exactly if cancelled reads have not lost the whole window; and once the other end is gone
   there is the CLOSE that wakes the writer, exactly if the call that was to send it was not cancelled.
   */
  lemma NoLostCredit(s: System, id: nat)
    requires Reachable(s) && id > 0 && Held(s.left, id) && Live(s.left, id)
    requires s.left.streams[id].sendCredit == 0 && s.left.streams[id].taken == []
    ensures Live(s.right, id) ==>
      (Data(On(s.lr, id)) != [] || s.right.streams[id].buffer != [] || Credits(On(s.rl, id)) > 0
       <==> Count(s.right.history.lost, id) < INITIAL_WINDOW)
    ensures !Live(s.right, id) ==> (Has(On(s.rl, id), CLOSE) <==> id !in s.right.history.muted)
  {
    hide Reachable, BytesFlow, EofFlow, On, Has, HasRefusal, Data, Credits, Count;
    ReachableFlow(s, id);
    ReachableClosing(s, id);
  }

  /** It can come to that: one read of a full window, cancelled before its credit is sent, strands the writer. */
  lemma CancelledReadStrands(s: System, id: nat)
    requires Reachable(s) && id > 0 && Live(s.left, id) && Live(s.right, id) && Held(s.right, id)
    requires |s.right.streams[id].buffer| == INITIAL_WINDOW
    ensures CanCut(s.right, id, ReadCall(-1))
    ensures var s' := s.(right := ApplyCut(s.right, id, ReadCall(-1)));
      && Take(s, Step(false, Act(Cut(id, ReadCall(-1))))) == Next(s')
      && s'.left.streams[id].sendCredit == 0 && s'.left.streams[id].taken == []
      && Live(s'.right, id) && s'.right.streams[id].buffer == []
      && Data(On(s'.lr, id)) == [] && Credits(On(s'.rl, id)) == 0
  {
    hide Reachable, On, Data, Credits, Count, LoseCredit, Log;
    CreditIsConserved(s, id);
    StreamFactsOf(s, id);
    LostChanges(s.right, id, INITIAL_WINDOW);
    assert s.rl + [] == s.rl;
  }

  lemma LostChanges(p: Peer, id: nat, count: nat)
    requires Live(p, id) && |p.streams[id].buffer| == count > 0
    ensures var p' := LoseCredit(TakeUnread(p, id, count), id, count);
      Live(p', id) && p'.streams[id].buffer == []
  {
  }

  lemma StreamFactsOf(s: System, id: nat)
    requires Reachable(s) && Live(s.left, id)
    ensures s.left.streams[id].sendCredit >= 0
  {
    hide Reachable, ChannelInv, StreamOk, Limits, Ids, QuietBeforeReady, Total;
    ReachableInv(s);
  }

  /** A writer never waits for aggregate credit: 128 windows fit into 32 MiB. */
  lemma AggregateNeverBlocks(s: System, id: nat)
    requires Reachable(s) && Live(s.left, id)
    ensures s.left.outBuffered + |s.left.streams[id].taken| <= MAX_BUFFERED_DATA
  {
    hide Reachable, ChannelInv, StreamOk;
    ReachableInv(s);
    AggregateFits(s.left, id);
  }

  lemma AggregateFits(p: Peer, id: nat)
    requires PeerInv(p) && Configured(p) && Live(p, id)
    ensures p.outBuffered + |p.streams[id].taken| <= MAX_BUFFERED_DATA
  {
    hide Ids, QuietBeforeReady, Total, RunningListens;
    TotalWithout(p.streams, id, Reserved);
    TotalBound(p.streams - {id}, Reserved);
    assert |p.streams - {id}| <= 127;
    assert Total(p.streams - {id}, Reserved) <= 127 * INITIAL_WINDOW;
  }

  lemma PendingIsOwn(s: System, id: nat)
    requires Reachable(s) && id in s.left.pendingOpens
    ensures Owns(s.left.role, id)
  {
    hide Reachable, ChannelInv, StreamOk, Accounts, Limits, QuietBeforeReady, Owns;
    ReachableInv(s);
  }

  /** Once a stream's frames have all arrived, its two ends agree. */
  lemma QuietStreamsAgree(s: System, id: nat)
    requires Reachable(s) && id > 0 && On(s.lr, id) == [] && On(s.rl, id) == []
    ensures Live(s.left, id) ==>
      (!Live(s.right, id) <==>
         Find(s.left.pendingOpens, id) == Some(Some(false)) || id in s.right.history.muted)
    ensures id in s.left.streams && s.left.streams[id].closed ==>
      id !in s.right.streams && s.left.streams[id].buffer != [] && s.left.streams[id].outReserved == 0
    ensures Live(s.left, id) && Live(s.right, id) ==>
      s.left.streams[id].outReserved == |s.right.streams[id].buffer| + Count(s.right.history.lost, id)
  {
    hide Reachable, BytesFlow, EofFlow, Log;
    ReachableFlow(s, id);
    if id in s.left.pendingOpens { PendingIsOwn(s, id); }
    ReachableClosing(s, id);
    Nothing();
    hide On;
  }

  /**
   With nothing on its way, a read of an open stream has to wait exactly if everything written has been read and the
   writer has not half-closed; and then the writer's end is there to go on, or its CLOSE was cancelled.
   */
  lemma NoReaderWaitsInVain(s: System, id: nat, size: int)
    requires Reachable(s) && id > 0 && Held(s.right, id) && Live(s.right, id) && size != 0
    requires On(s.lr, id) == [] && On(s.rl, id) == []
    ensures CanRead(s.right.streams[id], size) <==>
      Log(s.right.history.got, id) != Log(s.left.history.sent, id) || id in s.left.history.eofs
    ensures !CanRead(s.right.streams[id], size) ==> Live(s.left, id) || id in s.left.history.muted
  {
    hide Reachable, CreditFlow, CloseFlow, Waiting;
    ReachableFlow(s, id);
    Nothing();
    hide On, Log;
    OtherEnd(s, id);
  }

  lemma OtherEnd(s: System, id: nat)
    requires Reachable(s) && id > 0 && Held(s.right, id) && Live(s.right, id)
    requires On(s.lr, id) == [] && On(s.rl, id) == []
    ensures Live(s.left, id) || id in s.left.history.muted
  {
    hide Reachable, On;
    ReachableSwap(s);
    QuietStreamsAgree(Swap(s), id);
  }

  lemma ReachableServing(s: System, id: nat)
    requires Reachable(s) && id in s.left.pendingOpens
    ensures id > 0
    ensures var x, y, xy, yx := SideOf(s.left, id), SideOf(s.right, id), On(s.lr, id), On(s.rl, id);
      Pending(x, y, xy, yx) && Opening(x, y, xy, yx)
  {
    hide PeersInv, ChannelInv, Opening, Pending, Serving, Closing, Ordered, Has, On, SideOf, Known, Flow, Waiting,
      Reachable;
    ReachableInv(s);
    OwnIds(s, s.left, id);
    assert StreamOk(s, id);
  }

  /** With nothing on its way, an open that waits for its answer waits for the other side's handler. */
  lemma NoOpenWaitsInVain(s: System, id: nat)
    requires Reachable(s) && id in s.left.pendingOpens && On(s.lr, id) == [] && On(s.rl, id) == []
    ensures s.left.pendingOpens[id].None? ==> id in s.right.requests && s.right.requests[id] == OpenRunning
  {
    hide Reachable, Log, Count;
    ReachableServing(s, id);
    Nothing();
    hide On;
  }

  /** With nothing in flight and nothing unread, a stream's window is whole again but for what was lost. */
  lemma QuietRestoresCredit(s: System, id: nat)
    requires Reachable(s) && id > 0 && Held(s.left, id) && Live(s.left, id)
    requires On(s.lr, id) == [] && On(s.rl, id) == []
    requires id in s.right.streams ==> s.right.streams[id].buffer == []
    requires id !in s.right.history.muted
    ensures s.left.streams[id].sendCredit + |s.left.streams[id].taken| + Count(s.right.history.lost, id)
      == INITIAL_WINDOW
  {
    hide Reachable, Live, On, Data, Credits;
    QuietStreamsAgree(s, id);
    HeldIsNotPending(s, id);
    LiveWindow(s, id);
  }

  lemma HeldIsNotPending(s: System, id: nat)
    requires Held(s.left, id)
    ensures Find(s.left.pendingOpens, id) == None
  {
  }

  lemma LiveWindow(s: System, id: nat)
    requires Reachable(s) && Live(s.left, id)
    ensures s.left.streams[id].sendCredit + |s.left.streams[id].taken| + s.left.streams[id].outReserved
      == INITIAL_WINDOW
    ensures Live(s.right, id) ==> id in s.right.streams
  {
    hide Reachable, ChannelInv, StreamOk, Limits, Ids, QuietBeforeReady, Total;
    ReachableInv(s);
  }
}
