/** Where the layers meet: the mux on top of the wire format, the wire format on top of the transports. */
module EndToEnd {
  import opened Common
  import M = MuxState
  import L = MuxLocal
  import MuxPair
  import PairTheorems
  import P = Protocol
  import W = WireStack
  import T = CallbackTransport

  // ----- The mux on top of the wire format --------------------------------------------------

  /** What a frame of the mux is on the wire. */
  function OnTheWire(f: M.Frame): P.WireFrame {
    P.WireFrame(f.kind, f.id, f.payload.data, f.flags)
  }

  /** Every ID in use at a peer of an honest pair is a uint32. */
  lemma IdsFitTheHeader(s: MuxPair.System, id: nat)
    requires PairTheorems.Reachable(s) && M.IsStaleId(s.left, id)
    ensures 0 < id <= M.MAX_STREAM_ID
  {
    hide PairTheorems.Reachable, MuxPair.Inv;
    PairTheorems.ReachableInv(s);
    IdsBelowNext(s);
  }

  lemma IdsBelowNext(s: MuxPair.System)
    requires MuxPair.Inv(s)
    ensures s.left.nextId <= M.MAX_STREAM_ID + 2 && M.Owns(s.left.role, s.left.nextId)
    ensures s.left.highestPeerId <= M.MAX_STREAM_ID
  {
    hide MuxPair.StreamOk, MuxPair.AllHonest, MuxPair.Handshake, L.Accounts, L.Limits, L.QuietBeforeReady;
    assert L.Ids(s.left) && L.Ids(s.right);
    assert s.left.highestPeerId < s.right.nextId;
    assert s.left.highestPeerId == 0 || M.Owns(s.right.role, s.left.highestPeerId);
  }

  /** Every DATA frame an honest peer submits passes the checks of the encoder. */
  lemma DataFramesEncode(s: MuxPair.System, id: nat)
    requires PairTheorems.Reachable(s) && M.Enabled(s.left, M.SendChunk(id))
    ensures var out := M.Apply(s.left, M.SendChunk(id)).1;
      && |out| == 1 && P.Encode(OnTheWire(out[0])).Success? && 0 < |out[0].payload.data| <= 16384
      && OnTheWire(out[0]) == P.WireFrame(DATA, id, s.left.streams[id].taken, 0)
  {
    hide PairTheorems.Reachable, MuxPair.Inv;
    PairTheorems.ReachableInv(s);
    StreamFacts(s, id);
    IdsFitTheHeader(s, id);
  }

  lemma StreamFacts(s: MuxPair.System, id: nat)
    requires MuxPair.Inv(s) && id in s.left.streams
    ensures M.IsStaleId(s.left, id) && |s.left.streams[id].taken| <= M.CHUNK_SIZE
  {
    hide MuxPair.StreamOk, MuxPair.ChannelInv, L.Limits, L.QuietBeforeReady;
    assert L.Ids(s.left) && L.Accounts(s.left);
    assert L.EndOk(s.left.streams[id]);
  }

  // ----- The wire format on top of a transport that may be closed ---------------------------

  /** A byte stream that breaks off anywhere decodes, without an error, to the frames it contains in full. */
  lemma CutOffStreamDecodes(frames: seq<P.WireFrame>, pieces: seq<Bytes>)
    requires forall f :: f in frames ==> P.Encodable(f)
    requires Concat(pieces) <= P.WireAll(frames)
    ensures var fed := P.FeedAll(P.NEW_RECEIVER, pieces);
      && fed.error.None? && fed.frames <= frames
      && (Concat(pieces) == P.WireAll(frames) ==> fed.frames == frames && fed.buffer == [])
  {
    var part, whole := Concat(pieces), P.WireAll(frames);
    var rest := whole[|part|..];
    assert whole == part + rest;
    P.DecodingIgnoresPieces(pieces);
    P.ParseInTwo(part, rest);
    P.ParseInvertsWire(frames, []);
    assert whole + [] == whole && frames + [] == frames;
  }

  lemma {:induction false} ConcatOfPrefix(a: seq<Bytes>, b: seq<Bytes>)
    requires a <= b
    ensures Concat(a) <= Concat(b)
  {
    assert b == a + b[|a|..];
    ConcatAppend(a, b[|a|..]);
  }

  /**
   Behind the callback queue: if the callbacks have brought the encodings of some frames, or part
   of them, then what the reader has been given decodes to a prefix of these frames, whatever the
   interleaving, and to all of them if everything came and was read.
   */
  lemma CallbackStackDecodes(s: T.Pipe, frames: seq<P.WireFrame>)
    requires T.Reachable(s) && (forall f :: f in frames ==> P.Encodable(f))
    requires Concat(s.accepted) <= P.WireAll(frames)
    ensures var fed := P.FeedAll(P.NEW_RECEIVER, s.delivered);
      && fed.error.None? && fed.frames <= frames
      && (Concat(s.accepted) == P.WireAll(frames) && !s.closed && s.queue == [] && !s.reader.Holding? ==>
            fed.frames == frames && fed.buffer == [])
  {
    T.DeliveredIsPrefix(s);
    ConcatOfPrefix(s.delivered, s.accepted);
    CutOffStreamDecodes(frames, s.delivered);
  }
}
