/** What is on its way can always be delivered, and then the two ends of every stream agree. */
module PairDrain {
  import opened Common
  import opened MuxState
  import opened MuxLocal
  import opened StreamPair
  import opened MuxPair
  import opened PairDeliveries
  import opened PairTheorems
  import opened PairHandshake
  import opened PeerRuns

  predicate Answers(frames: seq<Frame>) { forall f :: f in frames ==> IsAnswer(f.kind) }

  /** An answer provokes no frame. */
  lemma AnswersProvokeNothing(p: Peer, f: Frame)
    requires IsAnswer(f.kind)
    ensures Dispatch(p, f).Continue? ==> Dispatch(p, f).out == []
  {
    hide DispatchResult, IsStaleId, HelloAckFrame;
    if DispatchResult(p, f).Continue? { ResultKeepsIds(p, f, DispatchResult(p, f).peer); }
  }

  lemma DeliverOneLeft(s: System) returns (s': System, out: seq<Frame>)
    requires Inv(s) && s.rl != []
    ensures StepLeft(s, Deliver) == Next(s') && Inv(s')
    ensures s'.rl == s.rl[1..] && s'.lr == s.lr + out && Answers(out) && (IsAnswer(s.rl[0].kind) ==> out == [])
  {
    hide Inv, Dispatch, Configures;
    DeliverKeepsInv(s);
    s' := StepLeft(s, Deliver).system;
    out := Dispatch(s.left, s.rl[0]).out;
    FrameIsSteady(s.left, s.rl[0]);
    if IsAnswer(s.rl[0].kind) { AnswersProvokeNothing(s.left, s.rl[0]); }
  }

  /** Everything on its way to the left peer, delivered: it submits answers, and none to answers. */
  lemma {:induction false} EmptyLeft(s: System) returns (s': System, out: seq<Frame>)
    requires Inv(s)
    ensures Run(s, Deliveries(true, |s.rl|)) == Next(s') && Inv(s')
    ensures s'.rl == [] && s'.lr == s.lr + out && Answers(out) && (Answers(s.rl) ==> out == [])
    decreases |s.rl|
  {
    hide Inv, StepLeft;
    if s.rl == [] {
      s', out := s, [];
    } else {
      var steps := Deliveries(true, |s.rl|);
      assert steps[1..] == Deliveries(true, |s.rl| - 1);
      var s1, first := DeliverOneLeft(s);
      var rest: seq<Frame>;
      s', rest := EmptyLeft(s1);
      out := first + rest;
      assert s.lr + first + rest == s.lr + out;
      if Answers(s.rl) { assert s.rl[0] in s.rl && forall f :: f in s.rl[1..] ==> f in s.rl; }
    }
  }

  lemma EmptyRight(s: System) returns (s': System, out: seq<Frame>)
    requires Inv(s)
    ensures Run(s, Deliveries(false, |s.lr|)) == Next(s') && Inv(s')
    ensures s'.lr == [] && s'.rl == s.rl + out && Answers(out) && (Answers(s.lr) ==> out == [])
  {
    hide Inv, Run, Answers;
    SwapInv(s);
    var other: System;
    other, out := EmptyLeft(Swap(s));
    s' := Swap(other);
    SwapInv(other);
    var steps := Deliveries(true, |s.lr|);
    SwapRun(Swap(s), steps);
    assert Swap(Swap(s)) == s && Flip(steps) == Deliveries(false, |s.lr|);
  }

  lemma ReachableAfter(s: System, steps: seq<Step>, s': System)
    requires Reachable(s) && Run(s, steps) == Next(s')
    ensures Reachable(s')
  {
    hide Run;
    var start, before :| Initial(start) && Run(start, before) == Next(s);
    RunConcat(start, before, steps);
  }

  /** Deliveries alone empty both channels, from every reachable state: answers provoke no answers. */
  lemma ChannelsDrain(s: System) returns (steps: seq<Step>, s': System)
    requires Reachable(s)
    ensures Run(s, steps) == Next(s') && Reachable(s') && s'.lr == [] && s'.rl == []
    ensures forall i :: 0 <= i < |steps| ==> steps[i].event == Deliver
  {
    hide Reachable, Run, Inv, Answers;
    ReachableInv(s);
    var s1, m1 := EmptyLeft(s);
    var s2, m2 := EmptyRight(s1);
    var s3, m3 := EmptyLeft(s2);
    assert s2.rl == m2;
    var d1, d2, d3 := Deliveries(true, |s.rl|), Deliveries(false, |s1.lr|), Deliveries(true, |s2.rl|);
    steps, s' := d1 + d2 + d3, s3;
    RunConcat(s, d1, d2);
    RunConcat(s, d1 + d2, d3);
    ReachableAfter(s, steps, s');
  }

  /**
   The ends of a stream agree: the left one is open just if the right one is, unless its refused open
   is about to be given up or the right side's CLOSE was cancelled; and a closed end that is still in
   the map only waits to be read.
   */
  predicate LeftAgrees(s: System, id: nat) {
    && (Live(s.left, id) ==>
          (!Live(s.right, id) <==> Find(s.left.pendingOpens, id) == Some(Some(false)) || id in s.right.history.muted))
    && (id in s.left.streams && s.left.streams[id].closed ==>
          id !in s.right.streams && s.left.streams[id].buffer != [] && s.left.streams[id].outReserved == 0)
  }

  lemma LeftAgreesWhenQuiet(s: System, id: nat)
    requires Reachable(s) && id > 0 && s.lr == [] && s.rl == []
    ensures LeftAgrees(s, id)
  {
    hide Reachable;
    OnNothing(id);
    QuietStreamsAgree(s, id);
  }

  /** From every reachable state, deliveries alone lead to one where the ends of every stream agree. */
  lemma ClosesConverge(s: System) returns (steps: seq<Step>, s': System)
    requires Reachable(s)
    ensures Run(s, steps) == Next(s') && s'.lr == [] && s'.rl == []
    ensures forall i :: 0 <= i < |steps| ==> steps[i].event == Deliver
    ensures forall id: nat | id > 0 :: LeftAgrees(s', id) && LeftAgrees(Swap(s'), id)
  {
    hide Reachable, Run, LeftAgrees;
    steps, s' := ChannelsDrain(s);
    ReachableSwap(s');
    forall id: nat | id > 0
      ensures LeftAgrees(s', id) && LeftAgrees(Swap(s'), id)
    {
      LeftAgreesWhenQuiet(s', id);
      LeftAgreesWhenQuiet(Swap(s'), id);
    }
  }
}
