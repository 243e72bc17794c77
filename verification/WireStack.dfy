/** The layers below the mux put together: frames, writes, channel chunks, and back. */
module WireStack {
  import opened Common
  import opened ByteOrder
  import P = Protocol
  import C = Channel

  // ----- What the channel does to one write -------------------------------------------------

  /** The chunks of a message, each carrying at most `n` bytes of it. */
  function Pdus(message: Bytes, n: nat): (chunks: seq<Bytes>)
    requires 0 < n && |message| <= 0xFFFF_FFFF
    ensures |chunks| == |C.Split(message, n)|
  {
    var pieces := C.Split(message, n);
    seq(|pieces|, i requires 0 <= i < |pieces| =>
      C.PackLE(|message|)
      + C.PackLE((if i == 0 then C.FLAG_FIRST else 0) + (if i == |pieces| - 1 then C.FLAG_LAST else 0))
      + pieces[i])
  }

  lemma {:induction false} BodiesJoin(chunks: seq<Bytes>, pieces: seq<Bytes>)
    requires |chunks| == |pieces| && forall i :: 0 <= i < |chunks| ==> C.Body(chunks[i]) == pieces[i]
    ensures C.Bodies(chunks) == Concat(pieces)
  {
    if chunks != [] {
      var last := |chunks| - 1;
      BodiesJoin(chunks[..last], pieces[..last]);
      ConcatOne(pieces[..last], pieces[last]);
      assert pieces == pieces[..last] + [pieces[last]];
    }
  }

  /** One chunk reads back as what it was built from. */
  lemma PduFields(length: nat, flags: nat, piece: Bytes)
    requires length <= 0xFFFF_FFFF && flags <= 3
    ensures var chunk := C.PackLE(length) + C.PackLE(flags) + piece;
      && |chunk| >= C.HEADER_SIZE && C.DeclaredLength(chunk) == length && C.Body(chunk) == piece
      && !C.IsCompressed(chunk) && (C.IsFirst(chunk) <==> flags % 2 == 1) && (C.IsLast(chunk) <==> flags >= 2)
  {
    hide C.PackLE, C.UnpackLE;
    var chunk := C.PackLE(length) + C.PackLE(flags) + piece;
    C.LEInverse(length);
    C.LEInverse(flags);
    assert chunk[..4] == C.PackLE(length) && chunk[4..8] == C.PackLE(flags) && chunk[8..] == piece;
  }

  /** Such chunks are what the reassembler asks for. */
  lemma PdusAreWellFormed(message: Bytes, n: nat, limit: nat)
    requires 0 < n && 0 < |message| <= limit && |message| <= 0xFFFF_FFFF
    ensures C.WellFormed(Pdus(message, n), message, limit)
  {
    hide C.PackLE, C.DeclaredLength, C.Body, C.IsFirst, C.IsLast, C.IsCompressed, C.Bodies;
    var pieces, chunks := C.Split(message, n), Pdus(message, n);
    C.SplitIsExact(message, n);
    forall i | 0 <= i < |chunks|
      ensures |chunks[i]| >= C.HEADER_SIZE && C.DeclaredLength(chunks[i]) == |message| && !C.IsCompressed(chunks[i])
      ensures (C.IsFirst(chunks[i]) <==> i == 0) && (C.IsLast(chunks[i]) <==> i == |chunks| - 1)
      ensures C.Body(chunks[i]) == pieces[i]
    {
      PduFields(|message|, (if i == 0 then C.FLAG_FIRST else 0) + (if i == |pieces| - 1 then C.FLAG_LAST else 0),
        pieces[i]);
    }
    BodiesJoin(chunks, pieces);
  }

  // ----- Many messages ----------------------------------------------------------------------

  /** The messages among some outcomes. */
  function Delivered(outcomes: seq<C.Outcome>): seq<Bytes> {
    if outcomes == [] then []
    else (if outcomes[0].Message? then [outcomes[0].data] else []) + Delivered(outcomes[1..])
  }

  lemma {:induction false} DeliveredAppend(a: seq<C.Outcome>, b: seq<C.Outcome>)
    ensures Delivered(a + b) == Delivered(a) + Delivered(b)
  {
    if a == [] {
      assert a + b == b;
    } else {
      assert (a + b)[1..] == a[1..] + b;
      DeliveredAppend(a[1..], b);
    }
  }

  lemma {:induction false} DeliveredAtEnd(pending: nat, message: Bytes)
    ensures Delivered(seq(pending, _ => C.Pending) + [C.Message(message)]) == [message]
  {
    var outcomes := seq(pending, _ => C.Pending) + [C.Message(message)];
    if pending == 0 {
      assert outcomes == [C.Message(message)] && outcomes[1..] == [];
    } else {
      assert outcomes[1..] == seq(pending - 1, _ => C.Pending) + [C.Message(message)];
      DeliveredAtEnd(pending - 1, message);
    }
  }

  predicate NoErrors(outcomes: seq<C.Outcome>) { forall o :: o in outcomes ==> !o.Error? }

  /** Each message in some well-formed chunks of its own. */
  predicate Carries(groups: seq<seq<Bytes>>, messages: seq<Bytes>, limit: nat) {
    |groups| == |messages| && forall i :: 0 <= i < |groups| ==> C.WellFormed(groups[i], messages[i], limit)
  }

  /** A channel that delivers the chunks of some messages delivers exactly these messages. */
  lemma {:induction false} ChannelIsTransparent(a: C.Assembly, limit: nat, groups: seq<seq<Bytes>>,
    messages: seq<Bytes>)
    requires Carries(groups, messages, limit)
    ensures var outcomes := C.FeedChunks(a, limit, Concat(groups)).1;
      NoErrors(outcomes) && Delivered(outcomes) == messages
    decreases |groups|
  {
    hide C.FeedChunks, C.WellFormed;
    if groups == [] {
      assert C.FeedChunks(a, limit, Concat(groups)).1 == [];
    } else {
      var rest := Concat(groups[1..]);
      C.FeedInTwo(a, limit, groups[0], rest);
      C.WellFormedIsDelivered(a, limit, groups[0], messages[0]);
      var first := seq(|groups[0]| - 1, _ => C.Pending) + [C.Message(messages[0])];
      var second := C.FeedChunks(C.NOTHING, limit, rest).1;
      ChannelIsTransparent(C.NOTHING, limit, groups[1..], messages[1..]);
      DeliveredAppend(first, second);
      DeliveredAtEnd(|groups[0]| - 1, messages[0]);
      assert C.FeedChunks(a, limit, Concat(groups)).1 == first + second;
      assert messages == [messages[0]] + messages[1..];
    }
  }

  // ----- From frames to frames --------------------------------------------------------------

  /** The writes of a peer: every frame is a write of the transport, cut into pieces of its own. */
  function Writes(frames: seq<P.WireFrame>, n: nat): seq<Bytes>
    requires n > 0 && forall f :: f in frames ==> P.Encodable(f)
  {
    if frames == [] then [] else C.Split(P.Wire(frames[0]), n) + Writes(frames[1..], n)
  }

  lemma {:induction false} WritesAreWire(frames: seq<P.WireFrame>, n: nat)
    requires n > 0 && forall f :: f in frames ==> P.Encodable(f)
    ensures Concat(Writes(frames, n)) == P.WireAll(frames)
    ensures forall w :: w in Writes(frames, n) ==> 0 < |w| <= n
  {
    if frames != [] {
      var first := P.Wire(frames[0]);
      WritesAreWire(frames[1..], n);
      C.SplitIsExact(first, n);
      ConcatAppend(C.Split(first, n), Writes(frames[1..], n));
    }
  }

  /**
   Any frames, encoded, written in pieces of at most `n` bytes, carried in channel chunks of any
   size, reassembled from any state and decoded, are the same frames again, with nothing left over.
   */
  lemma StackRoundTrip(frames: seq<P.WireFrame>, n: nat, limit: nat, groups: seq<seq<Bytes>>, a: C.Assembly)
    requires n > 0 && forall f :: f in frames ==> P.Encodable(f)
    requires Carries(groups, Writes(frames, n), limit)
    ensures var outcomes := C.FeedChunks(a, limit, Concat(groups)).1;
      NoErrors(outcomes) && P.FeedAll(P.NEW_RECEIVER, Delivered(outcomes)) == P.Receiver([], frames, None)
  {
    hide C.WellFormed, C.FeedChunks;
    ChannelIsTransparent(a, limit, groups, Writes(frames, n));
    WritesAreWire(frames, n);
    P.WireRoundTrip(frames, Writes(frames, n));
  }

  /** The chunks of some messages, one message after the other. */
  function Groups(messages: seq<Bytes>, size: nat): (groups: seq<seq<Bytes>>)
    requires size > 0 && forall m :: m in messages ==> |m| <= 0xFFFF_FFFF
  {
    seq(|messages|, i requires 0 <= i < |messages| => Pdus(messages[i], size))
  }

  /** The plug-in's writes of 1590 bytes and the agent's of 1600 both fit what the channel carries. */
  lemma BothWritersRoundTrip(frames: seq<P.WireFrame>, n: nat, size: nat, a: C.Assembly)
    requires n == 1590 || n == 1600
    requires size > 0 && forall f :: f in frames ==> P.Encodable(f)
    ensures forall w :: w in Writes(frames, n) ==> |w| <= 0xFFFF_FFFF
    ensures var outcomes := C.FeedChunks(a, 1048576, Concat(Groups(Writes(frames, n), size))).1;
      NoErrors(outcomes) && P.FeedAll(P.NEW_RECEIVER, Delivered(outcomes)) == P.Receiver([], frames, None)
  {
    hide C.WellFormed, C.FeedChunks, Pdus;
    WritesAreWire(frames, n);
    var writes := Writes(frames, n);
    var groups := Groups(writes, size);
    forall i | 0 <= i < |groups|
      ensures C.WellFormed(groups[i], writes[i], 1048576)
    {
      assert writes[i] in writes;
      PdusAreWellFormed(writes[i], size, 1048576);
    }
    StackRoundTrip(frames, n, 1048576, groups, a);
  }
}
