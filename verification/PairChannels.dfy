/** What sending, delivering, losing and repeating frames does to the channels. */
module PairChannels {
  import opened Common
  import opened Json
  import opened MuxState
  import opened StreamPair
  import opened MuxPair

  // ----- Sending ----------------------------------------------------------------------------

  /** The sender after it has submitted `f`. */
  ghost predicate Submits(p: Peer, p': Peer, f: Frame) {
    && p'.role == p.role && p'.nonce == p.nonce && p'.nextId >= p.nextId
    && (p.helloReceived ==> p'.helloReceived) && (p.ackReceived ==> p'.ackReceived)
    && (p'.helloReceived && !p.helloReceived ==> f.kind == HELLO_ACK)
    && (f.kind == HELLO_ACK ==> p'.helloReceived)
    && (!IsHandshake(f.kind) ==> Ready(p))
    && (IsRequest(f.kind) ==> p.nextId <= f.id < p'.nextId)
    && Honest(p, f)
  }

  lemma {:induction false} AckFirstAppend(channel: seq<Frame>, f: Frame)
    requires AckFirst(channel) && (IsHandshake(f.kind) || Has(channel, HELLO_ACK))
    ensures AckFirst(channel + [f])
  {
    if channel == [] {
      assert (channel + [f])[1..] == [];
    } else if channel[0].kind == HELLO {
      var rest := channel[1..];
      assert (channel + [f])[1..] == rest + [f];
      if Has(channel, HELLO_ACK) {
        var i :| 0 <= i < |channel| && channel[i].kind == HELLO_ACK;
        assert rest[i - 1].kind == HELLO_ACK;
      }
      AckFirstAppend(rest, f);
    }
  }

  lemma SendHandshake(p: Peer, q: Peer, channel: seq<Frame>, p': Peer, f: Frame)
    requires Handshake(p, q, channel) && Submits(p, p', f)
    ensures Handshake(p', q, channel + [f])
  {
    hide Honest;
    if !q.ackReceived { AckFirstAppend(channel, f); }
    hide AckFirst, Data, Credits;
    Sent(channel, f);
    hide Has;
  }

  lemma SendRequestOrder(p: Peer, q: Peer, channel: seq<Frame>, p': Peer, f: Frame)
    requires RequestOrder(p, q, channel) && Submits(p, p', f)
    ensures RequestOrder(p', q, channel + [f])
  {
    hide Honest;
  }

  lemma SendKeeps(p: Peer, q: Peer, channel: seq<Frame>, p': Peer, f: Frame)
    requires ChannelInv(p, q, channel) && Submits(p, p', f)
    ensures ChannelInv(p', q, channel + [f])
  {
    hide Handshake, RequestOrder;
    SendHandshake(p, q, channel, p', f);
    SendRequestOrder(p, q, channel, p', f);
    SendHonest(p, channel, p', f);
    hide AllHonest, Submits;
  }

  lemma SendHonest(p: Peer, channel: seq<Frame>, p': Peer, f: Frame)
    requires AllHonest(p, channel) && Honest(p, f) && p'.role == p.role && p'.nonce == p.nonce
    ensures AllHonest(p', channel + [f])
  {
    forall i | 0 <= i < |channel + [f]| ensures Honest(p', (channel + [f])[i]) {
      SameHonesty(p, p', (channel + [f])[i]);
    }
    hide Honest;
  }

  lemma SameHonesty(p: Peer, p': Peer, f: Frame)
    requires p'.role == p.role && p'.nonce == p.nonce
    ensures Honest(p', f) == Honest(p, f)
  {
  }

  /** A step of the sender that sends nothing, or one of the receiver that receives nothing. */
  lemma QuietKeeps(p: Peer, q: Peer, channel: seq<Frame>, p': Peer, q': Peer)
    requires ChannelInv(p, q, channel)
    requires p'.role == p.role && p'.nonce == p.nonce && p'.nextId >= p.nextId
    requires p'.helloReceived == p.helloReceived && (p.ackReceived ==> p'.ackReceived)
    requires q'.highestPeerId == q.highestPeerId && q'.ackReceived == q.ackReceived
    requires q'.helloReceived == q.helloReceived && q'.peerHello == q.peerHello
    ensures ChannelInv(p', q', channel)
  {
    forall i | 0 <= i < |channel| ensures Honest(p', channel[i]) { SameHonesty(p, p', channel[i]); }
    hide Honest, AckFirst, Has;
  }

  // ----- Delivering -------------------------------------------------------------------------

  /** The receiver after it has handled the oldest frame. */
  ghost predicate Receives(p: Peer, q: Peer, q': Peer, f: Frame) {
    && (q'.ackReceived <==> q.ackReceived || f.kind == HELLO_ACK)
    && (q'.helloReceived <==> q.helloReceived || f.kind == HELLO)
    && q'.peerHello == (if f.kind == HELLO then Some((RoleName(p.role), p.nonce)) else q.peerHello)
    && q'.highestPeerId == (if IsRequest(f.kind) then f.id else q.highestPeerId)
  }

  lemma DeliverHandshake(p: Peer, q: Peer, channel: seq<Frame>, q': Peer)
    requires channel != [] && Handshake(p, q, channel) && Receives(p, q, q', channel[0])
    ensures Handshake(p, q', channel[1..])
  {
    assert forall i :: 0 <= i < |channel| - 1 ==> channel[1..][i] == channel[i + 1];
    hide Data, Credits, Ordered;
    Delivered(channel);
    hide Has;
  }

  lemma DeliverKeeps(p: Peer, q: Peer, channel: seq<Frame>, q': Peer)
    requires channel != [] && ChannelInv(p, q, channel) && Receives(p, q, q', channel[0])
    ensures ChannelInv(p, q', channel[1..])
  {
    hide Handshake, Honest;
    DeliverHandshake(p, q, channel, q');
    var rest := channel[1..];
    assert forall i :: 0 <= i < |rest| ==> rest[i] == channel[i + 1];
  }

  /** The handshake is over on both sides when the first other frame arrives. */
  lemma ReadyInTime(p: Peer, q: Peer, pq: seq<Frame>, qp: seq<Frame>)
    requires pq != [] && Handshake(p, q, pq) && Handshake(q, p, qp) && !IsHandshake(pq[0].kind)
    ensures Ready(q) && Ready(p)
  {
  }

  // ----- Losing and repeating HELLOs ----------------------------------------------------------

  lemma {:induction false} AckFirstWithout(a: seq<Frame>, hello: Frame, b: seq<Frame>)
    requires hello.kind == HELLO
    ensures AckFirst(a + [hello] + b) <==> AckFirst(a + b)
  {
    var long := a + [hello] + b;
    if a == [] {
      assert long[1..] == b && a + b == b && long[0] == hello;
    } else {
      assert long[0] == a[0] && long[1..] == a[1..] + [hello] + b && (a + b)[0] == a[0] && (a + b)[1..] == a[1..] + b;
      AckFirstWithout(a[1..], hello, b);
    }
  }

  lemma HasConcat(a: seq<Frame>, b: seq<Frame>, kind: Kind)
    ensures Has(a + b, kind) <==> Has(a, kind) || Has(b, kind)
  {
    if Has(a, kind) {
      var i :| 0 <= i < |a| && a[i].kind == kind;
      assert (a + b)[i].kind == kind;
    }
    if Has(b, kind) {
      var i :| 0 <= i < |b| && b[i].kind == kind;
      assert (a + b)[|a| + i].kind == kind;
    }
  }

  lemma HasOne(f: Frame, kind: Kind)
    ensures Has([f], kind) <==> f.kind == kind
  {
    assert [f][0] == f;
  }

  lemma WithHello(a: seq<Frame>, hello: Frame, b: seq<Frame>, kind: Kind)
    requires hello.kind == HELLO && kind != HELLO
    ensures Has(a + [hello] + b, kind) <==> Has(a + b, kind)
  {
    HasConcat(a + [hello], b, kind);
    HasConcat(a, [hello], kind);
    HasConcat(a, b, kind);
    HasOne(hello, kind);
    hide Has;
  }

  lemma LoseKeeps(p: Peer, q: Peer, a: seq<Frame>, hello: Frame, b: seq<Frame>)
    requires ChannelInv(p, q, a + [hello] + b) && hello.kind == HELLO
    ensures ChannelInv(p, q, a + b)
  {
    var before, after := a + [hello] + b, a + b;
    assert forall i :: 0 <= i < |after| ==> after[i] == before[if i < |a| then i else i + 1];
    AckFirstWithout(a, hello, b);
    WithHello(a, hello, b, HELLO_ACK);
    hide AckFirst, Has, Honest;
  }

  lemma RepeatRequestOrder(p: Peer, q: Peer, a: seq<Frame>, hello: Frame, b: seq<Frame>)
    requires RequestOrder(p, q, a + b) && hello.kind == HELLO
    ensures RequestOrder(p, q, a + [hello] + b)
  {
    var before, after := a + b, a + [hello] + b;
    assert forall i :: 0 <= i < |after| && i != |a| ==> after[i] == before[if i < |a| then i else i - 1];
  }

  lemma RepeatKeeps(p: Peer, q: Peer, a: seq<Frame>, hello: Frame, b: seq<Frame>)
    requires ChannelInv(p, q, a + b) && hello.kind == HELLO && Honest(p, hello)
    ensures ChannelInv(p, q, a + [hello] + b)
  {
    hide RequestOrder, AckFirst, Has, Honest;
    RepeatRequestOrder(p, q, a, hello, b);
    var before, after := a + b, a + [hello] + b;
    assert forall i :: 0 <= i < |after| && i != |a| ==> after[i] == before[if i < |a| then i else i - 1];
    AckFirstWithout(a, hello, b);
    WithHello(a, hello, b, HELLO_ACK);
  }

  lemma OnWithout(a: seq<Frame>, f: Frame, b: seq<Frame>, id: nat)
    requires f.id != id
    ensures On(a + [f] + b, id) == On(a + b, id)
  {
    OnConcat(a + [f], b, id);
    OnConcat(a, b, id);
    OnAppend(a, f, id);
  }
}
