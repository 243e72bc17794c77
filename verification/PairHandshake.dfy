/** The opening handshake over channels that may lose or repeat HELLOs. */
module PairHandshake {
  import opened Common
  import opened MuxState
  import opened MuxLocal
  import opened StreamPair
  import opened StreamSteps
  import opened MuxPair
  import opened PairChannels
  import opened PairSteps
  import opened PairActions
  import opened PairDeliveries
  import opened PairTheorems

  /** A peer that is ready, and so has stopped retransmitting, has been heard by the other one. */
  lemma ReadyMeansHeard(s: System)
    requires Reachable(s) && Ready(s.left)
    ensures s.right.helloReceived && s.right.peerHello == Some((RoleName(s.left.role), s.left.nonce))
  {
    hide Reachable, PeersInv, StreamOk, AllHonest, RequestOrder, AckFirst, Has;
    ReachableInv(s);
  }

  /** Nothing but the handshake itself reaches a peer that is not ready. */
  lemma NothingArrivesEarly(s: System)
    requires Reachable(s) && s.rl != [] && !IsHandshake(s.rl[0].kind)
    ensures Ready(s.left) && Ready(s.right)
  {
    hide Reachable, PeersInv, StreamOk, AllHonest, RequestOrder;
    ReachableInv(s);
    ReadyInTime(s.right, s.left, s.rl, s.lr);
  }

  // ----- Recovery ---------------------------------------------------------------------------

  lemma {:induction false} RunConcat(s: System, a: seq<Step>, b: seq<Step>)
    ensures Run(s, a + b) == match Run(s, a) case Next(s') => Run(s', b) case other => other
    decreases |a|
  {
    hide Take;
    if a == [] {
      assert a + b == b;
    } else {
      assert (a + b)[0] == a[0] && (a + b)[1..] == a[1..] + b;
      if Take(s, a[0]).Next? { RunConcat(Take(s, a[0]).system, a[1..], b); }
    }
  }

  /** What the left peer knows once it has received what was on its way. */
  ghost predicate Heard(s: System, s': System) {
    && Inv(s') && s'.right == s.right && s.lr <= s'.lr
    && (s.left.helloReceived || Has(s.rl, HELLO) ==> s'.left.helloReceived)
    && (s.left.ackReceived || Has(s.rl, HELLO_ACK) ==> s'.left.ackReceived)
  }

  lemma DeliverOne(s: System, s': System)
    requires Inv(s) && s.rl != [] && StepLeft(s, Deliver) == Next(s')
    ensures Inv(s') && s'.right == s.right && s'.rl == s.rl[1..] && s.lr <= s'.lr
    ensures s.left.helloReceived || s.rl[0].kind == HELLO ==> s'.left.helloReceived
    ensures s.left.ackReceived || s.rl[0].kind == HELLO_ACK ==> s'.left.ackReceived
  {
    hide Dispatch, Touches, Due, Submits, StreamOk, PeerInv, Configured, SmallOutput, AllHonest, RequestOrder,
      Handshake;
    DeliverKeepsInv(s);
    var f := s.rl[0];
    if f.id > 0 {
      DueNow(s, f);
      FrameOk(s, f);
      DueKind(s, f);
      TouchesFlags(s.left, s'.left, f.id);
    } else {
      GlobalFrameOk(s, f);
    }
  }

  lemma TouchesFlags(p: Peer, p': Peer, id: nat)
    requires Touches(p, p', id)
    ensures p'.helloReceived == p.helloReceived && p'.ackReceived == p.ackReceived
  {
  }

  function Deliveries(onLeft: bool, count: nat): seq<Step> { seq(count, _ => Step(onLeft, Deliver)) }

  lemma {:induction false} DeliverAllLeft(s: System) returns (s': System)
    requires Inv(s)
    ensures Run(s, Deliveries(true, |s.rl|)) == Next(s') && Heard(s, s')
    decreases |s.rl|
  {
    hide Inv, Dispatch, Has, StepLeft;
    if s.rl == [] {
      s' := s;
      Nothing();
    } else {
      var steps := Deliveries(true, |s.rl|);
      assert steps[1..] == Deliveries(true, |s.rl| - 1);
      StepLeftNext(s);
      var s1 := StepLeft(s, Deliver).system;
      DeliverOne(s, s1);
      s' := DeliverAllLeft(s1);
      HasRest(s.rl, HELLO);
      HasRest(s.rl, HELLO_ACK);
    }
  }

  lemma StepLeftNext(s: System)
    requires Inv(s) && s.rl != []
    ensures StepLeft(s, Deliver).Next?
  {
    hide StepLeft, Inv;
    DeliverKeepsInv(s);
  }

  lemma DeliverAllRight(s: System) returns (s': System)
    requires Inv(s)
    ensures Run(s, Deliveries(false, |s.lr|)) == Next(s') && Heard(Swap(s), Swap(s'))
  {
    hide Inv, Run, Heard;
    SwapInv(s);
    var other := DeliverAllLeft(Swap(s));
    s' := Swap(other);
    var steps := Deliveries(true, |s.lr|);
    SwapRun(Swap(s), steps);
    assert Swap(Swap(s)) == s && Swap(Swap(other)) == other;
    assert Flip(steps) == Deliveries(false, |s.lr|);
  }

  /** One more HELLO of the left peer, unless it is ready. */
  lemma Greet(s: System) returns (steps: seq<Step>, s': System)
    requires Inv(s)
    ensures Run(s, steps) == Next(s') && Inv(s') && s'.left == s.left && s'.right == s.right && s'.rl == s.rl
    ensures s.lr <= s'.lr && (s'.right.helloReceived || Has(s'.lr, HELLO))
    ensures steps == if Ready(s.left) then [] else [Step(true, Act(SendHello))]
  {
    hide PeerInv, StreamOk, AllHonest, RequestOrder, AckFirst;
    if Ready(s.left) {
      steps, s' := [], s;
    } else {
      steps := [Step(true, Act(SendHello))];
      s' := StepLeft(s, Act(SendHello)).system;
      assert s' == s.(lr := s.lr + [HelloFrame(s.left.role, s.left.nonce)]);
      Sent(s.lr, HelloFrame(s.left.role, s.left.nonce));
      hide Has, Handshake;
      ActKeeps(s, SendHello, s');
      assert steps[1..] == [] && Run(s', []) == Next(s');
    }
  }

  lemma GreetRight(s: System) returns (steps: seq<Step>, s': System)
    requires Inv(s)
    ensures Run(s, steps) == Next(s') && Inv(s') && s'.left == s.left && s'.right == s.right && s'.lr == s.lr
    ensures s.rl <= s'.rl && (s'.left.helloReceived || Has(s'.rl, HELLO))
    ensures steps == if Ready(s.right) then [] else [Step(false, Act(SendHello))]
  {
    hide Inv, Run, Has;
    SwapInv(s);
    var greeting, other := Greet(Swap(s));
    SwapRun(Swap(s), greeting);
    steps, s' := Flip(greeting), Swap(other);
    assert Swap(Swap(s)) == s;
    SwapInv(other);
  }

  /** How many HELLOs one side submits in some steps. */
  function Hellos(steps: seq<Step>, onLeft: bool): nat {
    if steps == [] then 0
    else (if steps[0] == Step(onLeft, Act(SendHello)) then 1 else 0) + Hellos(steps[1..], onLeft)
  }

  lemma {:induction false} HellosConcat(a: seq<Step>, b: seq<Step>, onLeft: bool)
    ensures Hellos(a + b, onLeft) == Hellos(a, onLeft) + Hellos(b, onLeft)
  {
    if a == [] {
      assert a + b == b;
    } else {
      assert (a + b)[0] == a[0] && (a + b)[1..] == a[1..] + b;
      HellosConcat(a[1..], b, onLeft);
    }
  }

  lemma {:induction false} NoHellos(steps: seq<Step>, onLeft: bool)
    requires forall i :: 0 <= i < |steps| ==> steps[i].event == Deliver
    ensures Hellos(steps, onLeft) == 0
  {
    if steps != [] { NoHellos(steps[1..], onLeft); }
  }

  predicate HandshakeStep(step: Step) { step.event == Deliver || step.event == Act(SendHello) }

  lemma HasPrefix(a: seq<Frame>, b: seq<Frame>, kind: Kind)
    requires a <= b && Has(a, kind)
    ensures Has(b, kind)
  {
    var i :| 0 <= i < |a| && a[i].kind == kind;
    assert b[i].kind == kind;
  }

  /**
   However many HELLOs were lost, exactly one more from each peer that is not ready, delivered with
   everything else on its way, and the HELLO_ACKs that answer them make both peers ready.
   */
  lemma HandshakeRecovers(s: System) returns (steps: seq<Step>, s': System)
    requires Reachable(s)
    ensures Run(s, steps) == Next(s') && Ready(s'.left) && Ready(s'.right)
    ensures forall i :: 0 <= i < |steps| ==> HandshakeStep(steps[i])
    ensures Hellos(steps, true) == if Ready(s.left) then 0 else 1
    ensures Hellos(steps, false) == if Ready(s.right) then 0 else 1
  {
    hide Reachable, Run, Inv, Has, Ready, Hellos;
    ReachableInv(s);
    var g1, s1 := Greet(s);
    var g2, s2 := GreetRight(s1);
    var s3 := DeliverAllRight(s2);
    SwapInv(Swap(s3));
    var s4 := DeliverAllLeft(s3);
    s' := DeliverAllRight(s4);
    var d1, d2, d3 := Deliveries(false, |s2.lr|), Deliveries(true, |s3.rl|), Deliveries(false, |s4.lr|);
    steps := g1 + g2 + d1 + d2 + d3;
    RunConcat(s, g1, g2);
    RunConcat(s, g1 + g2, d1);
    RunConcat(s, g1 + g2 + d1, d2);
    RunConcat(s, g1 + g2 + d1 + d2, d3);
    AllAcked(s1, s2, s3, s4, s');
    CountHellos(g1, g2, d1, d2, d3, true);
    CountHellos(g1, g2, d1, d2, d3, false);
    GreetingHellos(true);
    GreetingHellos(false);
  }

  lemma CountHellos(g1: seq<Step>, g2: seq<Step>, d1: seq<Step>, d2: seq<Step>, d3: seq<Step>, onLeft: bool)
    requires forall i :: 0 <= i < |d1| ==> d1[i].event == Deliver
    requires forall i :: 0 <= i < |d2| ==> d2[i].event == Deliver
    requires forall i :: 0 <= i < |d3| ==> d3[i].event == Deliver
    ensures Hellos(g1 + g2 + d1 + d2 + d3, onLeft) == Hellos(g1, onLeft) + Hellos(g2, onLeft)
  {
    hide Hellos;
    HellosConcat(g1, g2, onLeft);
    HellosConcat(g1 + g2, d1, onLeft);
    HellosConcat(g1 + g2 + d1, d2, onLeft);
    HellosConcat(g1 + g2 + d1 + d2, d3, onLeft);
    NoHellos(d1, onLeft);
    NoHellos(d2, onLeft);
    NoHellos(d3, onLeft);
  }

  lemma GreetingHellos(onLeft: bool)
    ensures Hellos([], onLeft) == 0
    ensures Hellos([Step(onLeft, Act(SendHello))], onLeft) == 1
    ensures Hellos([Step(!onLeft, Act(SendHello))], onLeft) == 0
  {
  }

  /**
   In whatever order things happen: once each side has received a HELLO of the other, and the
   HELLO_ACKs have arrived, both are ready.
   */
  lemma HeardAndQuietMeansReady(s: System)
    requires Reachable(s) && s.left.helloReceived && s.right.helloReceived
    requires !Has(s.lr, HELLO_ACK) && !Has(s.rl, HELLO_ACK)
    ensures Ready(s.left) && Ready(s.right)
  {
    hide Reachable, PeersInv, StreamOk, AllHonest, RequestOrder, AckFirst, Has;
    ReachableInv(s);
  }

  /** In whatever state it arrives, a HELLO counts as received, and its HELLO_ACK is on its way behind it. */
  lemma EveryHelloIsAnswered(s: System)
    requires Reachable(s) && s.rl != [] && s.rl[0].kind == HELLO
    ensures StepLeft(s, Deliver).Next?
    ensures var s' := StepLeft(s, Deliver).system;
      s'.left.helloReceived && s'.lr == s.lr + [HelloAckFrame()] && s'.right == s.right
  {
    hide Reachable, Inv, HelloAckFrame;
    ReachableInv(s);
    StepLeftNext(s);
  }

  lemma AllAcked(s1: System, s2: System, s3: System, s4: System, s5: System)
    requires s1.right.helloReceived || Has(s1.lr, HELLO)
    requires s2.left.helloReceived || Has(s2.rl, HELLO)
    requires s2.left == s1.left && s2.right == s1.right && s2.lr == s1.lr
    requires Heard(Swap(s2), Swap(s3)) && Inv(s3) && Heard(s3, s4) && Heard(Swap(s4), Swap(s5))
    ensures Ready(s5.left) && Ready(s5.right)
  {
    hide Has, PeersInv, StreamOk, AllHonest, RequestOrder, AckFirst;
    if Has(s2.rl, HELLO) { HasPrefix(s2.rl, s3.rl, HELLO); }
  }
}
