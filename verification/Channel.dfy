/**
 Remote desktop virtual channels: writes cut to the size the channel takes, and messages put back
 together from the chunks it delivers (section 2.2.6.1 of MS-RDPBCGR).
 */
module Channel {
  import opened Common
  import opened ByteOrder

  const HEADER_SIZE := 8
  const CHANNEL_CHUNK_LENGTH := 1600
  const DVC_WRITE_CHUNK_LENGTH := 1590

  const FLAG_FIRST := 0x00000001
  const FLAG_LAST := 0x00000002
  const PACKET_COMPRESSED := 0x00200000

  // ----- Cutting up a write -----------------------------------------------------------------

  /** Pieces of `n` bytes, and one shorter piece at the end if there is a rest. */
  function Split(data: Bytes, n: nat): seq<Bytes>
    requires n > 0
    decreases |data|
  {
    if data == [] then []
    else [data[..Min(n, |data|)]] + Split(data[Min(n, |data|)..], n)
  }

  /** No byte is lost, repeated or moved, no piece is empty or too long, and only the last is short. */
  lemma {:induction false} SplitIsExact(data: Bytes, n: nat)
    requires n > 0
    ensures Concat(Split(data, n)) == data
    ensures forall i :: 0 <= i < |Split(data, n)| ==>
      && 0 < |Split(data, n)[i]| <= n
      && (i < |Split(data, n)| - 1 ==> |Split(data, n)[i]| == n)
    decreases |data|
  {
    if data != [] {
      var k := Min(n, |data|);
      SplitIsExact(data[k..], n);
      assert data == data[..k] + data[k..];
      var s := Split(data, n);
      assert s[1..] == Split(data[k..], n);
      assert k < n ==> s[1..] == [];
      forall i | 0 <= i < |s|
        ensures 0 < |s[i]| <= n && (i < |s| - 1 ==> |s[i]| == n)
      {
        if i > 0 { assert s[i] == s[1..][i - 1]; }
      }
    }
  }

  /** How the loops below go on: the next piece starts where the last one ended. */
  lemma SplitStep(data: Bytes, offset: nat, n: nat)
    requires n > 0 && offset < |data|
    ensures var end := Min(offset + n, |data|);
      Split(data[offset..], n) == [data[offset..end]] + Split(data[end..], n)
  {
    var rest, end := data[offset..], Min(offset + n, |data|);
    var k := Min(n, |rest|);
    assert rest[..k] == data[offset..end] && rest[k..] == data[end..];
  }

  class WTSChannelTransport {
    // The one buffer every write goes through.
    const writeBuffer: array<byte>
    var closed: bool
    // What the channel has been given, one entry a write.
    var written: seq<Bytes>

    constructor ()
      ensures Valid() && fresh(writeBuffer) && !closed && written == []
    {
      writeBuffer := new byte[CHANNEL_CHUNK_LENGTH](_ => 0);
      closed, written := false, [];
    }

    ghost predicate Valid()
      reads this
    {
      writeBuffer.Length == CHANNEL_CHUNK_LENGTH
    }

    /** One write of the channel; it takes no more than the buffer holds, and nothing once it is closed. */
    method WriteAll(data: Bytes) returns (ok: bool)
      requires Valid()
      modifies this`written, writeBuffer
      ensures ok <==> |data| <= 1600 && !closed
      ensures written == if ok then old(written) + [data] else old(written)
    {
      if |data| > CHANNEL_CHUNK_LENGTH { return false; }
      for i := 0 to |data|
        invariant writeBuffer[..i] == data[..i] && written == old(written)
      {
        writeBuffer[i] := data[i];
      }
      if closed { return false; }
      assert writeBuffer[..|data|] == data;
      written := written + [writeBuffer[..|data|]];
      ok := true;
    }

    method BlockingWrite(data: Bytes) returns (ok: bool)
      requires Valid()
      modifies this`written, writeBuffer
      ensures ok <==> data == [] || !closed
      ensures written == if closed then old(written) else old(written) + Split(data, 1600)
    {
      ok := true;
      var offset := 0;
      assert data[0..] == data;
      while offset < |data|
        invariant offset <= |data|
        invariant closed ==> offset == 0 && written == old(written)
        invariant !closed ==>
          written + Split(data[offset..], CHANNEL_CHUNK_LENGTH) == old(written) + Split(data, CHANNEL_CHUNK_LENGTH)
      {
        var end := Min(offset + CHANNEL_CHUNK_LENGTH, |data|);
        SplitStep(data, offset, CHANNEL_CHUNK_LENGTH);
        ok := WriteAll(data[offset..end]);
        if !ok { return; }
        offset := end;
      }
    }
  }

  /** The writes of the dynamic channel plug-in, in order. */
  class ChannelRuntime {
    var written: seq<Bytes>

    constructor ()
      ensures written == []
    {
      written := [];
    }

    method Write(data: Bytes)
      modifies this
      ensures written == old(written) + Split(data, 1590)
    {
      var offset := 0;
      assert data[0..] == data;
      while offset < |data|
        invariant offset <= |data|
        invariant written + Split(data[offset..], DVC_WRITE_CHUNK_LENGTH) == old(written)
          + Split(data, DVC_WRITE_CHUNK_LENGTH)
      {
        var end := Min(offset + DVC_WRITE_CHUNK_LENGTH, |data|);
        SplitStep(data, offset, DVC_WRITE_CHUNK_LENGTH);
        written := written + [data[offset..end]];
        offset := end;
      }
    }
  }

  // ----- Chunks -----------------------------------------------------------------------------

  function Reversed(b: Bytes): (r: Bytes)
    requires |b| == 4
    ensures |r| == 4
  {
    [b[3], b[2], b[1], b[0]]
  }

  /** A little-endian 32-bit integer. */
  function UnpackLE(b: Bytes): (n: nat)
    requires |b| == 4
    ensures n <= 0xFFFF_FFFF
  {
    UnpackU32(Reversed(b))
  }

  function PackLE(n: nat): (b: Bytes)
    requires n <= 0xFFFF_FFFF
    ensures |b| == 4
  {
    Reversed(PackU32(n))
  }

  lemma LEInverse(n: nat)
    requires n <= 0xFFFF_FFFF
    ensures UnpackLE(PackLE(n)) == n
  {
    U32Inverse(n, PackU32(n));
    assert Reversed(Reversed(PackU32(n))) == PackU32(n);
  }

  /** Whether `flags & bit` is not zero, for a power of two. */
  predicate HasFlag(flags: nat, bit: nat)
    requires bit > 0
  {
    flags / bit % 2 == 1
  }

  /** The total length a chunk declares for its whole message, and its flags. */
  function DeclaredLength(chunk: Bytes): nat
    requires |chunk| >= HEADER_SIZE
  {
    UnpackLE(chunk[..4])
  }

  function Flags(chunk: Bytes): nat
    requires |chunk| >= HEADER_SIZE
  {
    UnpackLE(chunk[4..8])
  }

  function Body(chunk: Bytes): Bytes {
    if |chunk| >= HEADER_SIZE then chunk[HEADER_SIZE..] else []
  }

  function Bodies(chunks: seq<Bytes>): Bytes {
    if chunks == [] then [] else Bodies(chunks[..|chunks| - 1]) + Body(chunks[|chunks| - 1])
  }

  predicate IsFirst(chunk: Bytes) { |chunk| >= HEADER_SIZE && HasFlag(Flags(chunk), FLAG_FIRST) }

  predicate IsLast(chunk: Bytes) { |chunk| >= HEADER_SIZE && HasFlag(Flags(chunk), FLAG_LAST) }

  predicate IsCompressed(chunk: Bytes) { |chunk| >= HEADER_SIZE && HasFlag(Flags(chunk), PACKET_COMPRESSED) }

  /** The bits of a flags field that matter here are bits 0 and 1 of its first byte and bit 5 of its third. */
  lemma FlagBits(b0: byte, b1: byte, b2: byte, b3: byte)
    ensures var flags := BigEndian(b3, b2, b1, b0);
      && (HasFlag(flags, FLAG_FIRST) <==> b0 % 2 == 1)
      && (HasFlag(flags, FLAG_LAST) <==> b0 / 2 % 2 == 1)
      && (HasFlag(flags, PACKET_COMPRESSED) <==> b2 / 32 % 2 == 1)
  {
    var flags := BigEndian(b3, b2, b1, b0);
    assert flags / 2 == b0 / 2 + 2 * (64 * b1 + 16384 * b2 + 4194304 * b3);
    assert flags / 2097152 == b2 / 32 + 2 * (4 * b3);
  }

  lemma LELayout(b: Bytes)
    requires |b| == 4
    ensures UnpackLE(b) == BigEndian(b[3], b[2], b[1], b[0])
  {
    hide BigEndian, UnpackU32;
    UnpackLayout(Reversed(b));
  }

  /** The header of a chunk, byte by byte: the length and the flags, least significant byte first. */
  lemma ChunkLayout(chunk: Bytes)
    requires |chunk| >= 8
    ensures DeclaredLength(chunk) == BigEndian(chunk[3], chunk[2], chunk[1], chunk[0])
    ensures IsFirst(chunk) <==> chunk[4] % 2 == 1
    ensures IsLast(chunk) <==> chunk[4] / 2 % 2 == 1
    ensures IsCompressed(chunk) <==> chunk[6] / 32 % 2 == 1
    ensures Body(chunk) == chunk[8..]
  {
    hide HasFlag, BigEndian;
    LELayout(chunk[..4]);
    LELayout(chunk[4..8]);
    FlagBits(chunk[4], chunk[5], chunk[6], chunk[7]);
    hide UnpackLE;
  }

  // ----- Reassembly -------------------------------------------------------------------------

  datatype ChunkError =
    | ShorterThanHeader | Compressed | ZeroLength | OverLimit | NoFirstChunk | LengthChanged | Overrun | WrongTotal

  datatype Outcome = Message(data: Bytes) | Pending | Error(error: ChunkError)

  /** The part of a message collected so far, and the length declared for it. */
  datatype Assembly = Assembly(message: Bytes, declared: Option<nat>)

  const NOTHING := Assembly([], None)

  /** The state and the outcome after one chunk. */
  function FeedChunk(a: Assembly, limit: nat, chunk: Bytes): (Assembly, Outcome) {
    if |chunk| < HEADER_SIZE then (NOTHING, Error(ShorterThanHeader))
    else if IsCompressed(chunk) then (NOTHING, Error(Compressed))
    else
      var length := DeclaredLength(chunk);
      if length == 0 then (NOTHING, Error(ZeroLength))
      else if length > limit then (NOTHING, Error(OverLimit))
      else if !IsFirst(chunk) && a.declared.None? then (NOTHING, Error(NoFirstChunk))
      else if !IsFirst(chunk) && a.declared.value != length then (NOTHING, Error(LengthChanged))
      else
        var message := (if IsFirst(chunk) then [] else a.message) + Body(chunk);
        if |message| > length then (NOTHING, Error(Overrun))
        else if !IsLast(chunk) then (Assembly(message, Some(length)), Pending)
        else if |message| != length then (NOTHING, Error(WrongTotal))
        else (NOTHING, Message(message))
  }

  class ChunkReassembler {
    const limit: nat
    var message: Bytes
    var declaredLength: Option<nat>

    constructor (limit: nat)
      ensures this.limit == limit && State() == NOTHING
    {
      this.limit := limit;
      message, declaredLength := [], None;
    }

    function State(): Assembly
      reads this
    {
      Assembly(message, declaredLength)
    }

    method Reset()
      modifies this
      ensures State() == NOTHING
    {
      message, declaredLength := [], None;
    }

    /** The checks and updates of one chunk, before an error clears the state. */
    method Accept(chunk: Bytes) returns (r: Outcome)
      modifies this
      ensures r == FeedChunk(old(State()), limit, chunk).1
      ensures !r.Error? ==> State() == FeedChunk(old(State()), limit, chunk).0
    {
      if |chunk| < HEADER_SIZE { return Error(ShorterThanHeader); }
      var length, flags := UnpackLE(chunk[..4]), UnpackLE(chunk[4..8]);
      if HasFlag(flags, PACKET_COMPRESSED) { return Error(Compressed); }
      if length == 0 { return Error(ZeroLength); }
      if length > limit { return Error(OverLimit); }
      if HasFlag(flags, FLAG_FIRST) {
        message, declaredLength := [], Some(length);
      } else if declaredLength.None? {
        return Error(NoFirstChunk);
      } else if length != declaredLength.value {
        return Error(LengthChanged);
      }
      message := message + chunk[HEADER_SIZE..];
      if |message| > length || |message| > limit { return Error(Overrun); }
      if !HasFlag(flags, FLAG_LAST) { return Pending; }
      if |message| != length { return Error(WrongTotal); }
      r := Message(message);
      Reset();
    }

    method Feed(chunk: Bytes) returns (r: Outcome)
      modifies this
      ensures (State(), r) == FeedChunk(old(State()), limit, chunk)
    {
      r := Accept(chunk);
      if r.Error? { Reset(); }
    }
  }

  // ----- What reassembly achieves -----------------------------------------------------------

  /** The chunks of one message: the length of the whole in each, FIRST and LAST at the ends only. */
  predicate WellFormed(chunks: seq<Bytes>, message: Bytes, limit: nat) {
    && 0 < |chunks| && 0 < |message| <= limit && Bodies(chunks) == message
    && forall i :: 0 <= i < |chunks| ==>
        && |chunks[i]| >= HEADER_SIZE && DeclaredLength(chunks[i]) == |message| && !IsCompressed(chunks[i])
        && (IsFirst(chunks[i]) <==> i == 0) && (IsLast(chunks[i]) <==> i == |chunks| - 1)
  }

  /** The front part of such a sequence, without its last chunk. */
  predicate Begun(chunks: seq<Bytes>, length: nat, limit: nat) {
    && 0 < |chunks| && 0 < length <= limit && |Bodies(chunks)| <= length
    && forall i :: 0 <= i < |chunks| ==>
        && |chunks[i]| >= HEADER_SIZE && DeclaredLength(chunks[i]) == length && !IsCompressed(chunks[i])
        && (IsFirst(chunks[i]) <==> i == 0) && !IsLast(chunks[i])
  }

  function FeedChunks(a: Assembly, limit: nat, chunks: seq<Bytes>): (r: (Assembly, seq<Outcome>))
    ensures |r.1| == |chunks|
  {
    if chunks == [] then (a, [])
    else
      var before := FeedChunks(a, limit, chunks[..|chunks| - 1]);
      var (after, outcome) := FeedChunk(before.0, limit, chunks[|chunks| - 1]);
      (after, before.1 + [outcome])
  }

  lemma {:induction false} FeedInTwo(a: Assembly, limit: nat, chunks: seq<Bytes>, more: seq<Bytes>)
    ensures var (between, first) := FeedChunks(a, limit, chunks);
      var (after, second) := FeedChunks(between, limit, more);
      FeedChunks(a, limit, chunks + more) == (after, first + second)
    decreases |more|
  {
    if more == [] {
      assert chunks + more == chunks;
      assert FeedChunks(a, limit, chunks).1 + [] == FeedChunks(a, limit, chunks).1;
    } else {
      var shorter := more[..|more| - 1];
      FeedInTwo(a, limit, chunks, shorter);
      assert (chunks + more)[..|chunks + more| - 1] == chunks + shorter;
      var (between, first) := FeedChunks(a, limit, chunks);
      var (almost, second) := FeedChunks(between, limit, shorter);
      var outcome := FeedChunk(almost, limit, more[|more| - 1]).1;
      assert first + (second + [outcome]) == (first + second) + [outcome];
    }
  }

  /** What a begun sequence leaves behind, whatever was there before. */
  lemma {:induction false} FeedBegun(a: Assembly, limit: nat, chunks: seq<Bytes>, length: nat)
    requires Begun(chunks, length, limit)
    ensures FeedChunks(a, limit, chunks).0 == Assembly(Bodies(chunks), Some(length))
    ensures forall i :: 0 <= i < |chunks| ==> FeedChunks(a, limit, chunks).1[i] == Pending
  {
    var front, last := chunks[..|chunks| - 1], chunks[|chunks| - 1];
    if front == [] {
      assert Bodies(front) == [] && FeedChunks(a, limit, front) == (a, []);
    } else {
      assert Bodies(chunks) == Bodies(front) + Body(last);
      FeedBegun(a, limit, front, length);
    }
  }

  /**
   A well-formed message comes out with its last chunk and not before, whatever state the
   reassembler was in: nothing, an abandoned message, or what an error left.
   */
  lemma WellFormedIsDelivered(a: Assembly, limit: nat, chunks: seq<Bytes>, message: Bytes)
    requires WellFormed(chunks, message, limit)
    ensures FeedChunks(a, limit, chunks) == (NOTHING, seq(|chunks| - 1, _ => Pending) + [Message(message)])
  {
    var front, last := chunks[..|chunks| - 1], chunks[|chunks| - 1];
    assert Bodies(chunks) == Bodies(front) + Body(last);
    if front == [] {
      assert Bodies(front) == [] && FeedChunks(a, limit, front) == (a, []);
    } else {
      FeedBegun(a, limit, front, |message|);
    }
    assert FeedChunks(a, limit, front).1 == seq(|chunks| - 1, _ => Pending);
  }

  /** What one chunk leaves behind is a message it begins, or one it continues. */
  lemma HeldAfterChunk(a: Assembly, limit: nat, chunk: Bytes)
    ensures var (held, _) := FeedChunk(a, limit, chunk);
      if held.declared.None? then held == NOTHING
      else
        && |chunk| >= HEADER_SIZE && held.declared == Some(DeclaredLength(chunk)) && 0 < DeclaredLength(chunk) <= limit
        && !IsCompressed(chunk) && !IsLast(chunk) && (IsFirst(chunk) || a.declared == held.declared)
        && held.message == (if IsFirst(chunk) then [] else a.message) + Body(chunk)
        && |held.message| <= DeclaredLength(chunk)
  {
    hide HasFlag, UnpackLE;
  }

  lemma BegunAlone(chunk: Bytes, limit: nat)
    requires |chunk| >= HEADER_SIZE && IsFirst(chunk) && !IsLast(chunk) && !IsCompressed(chunk)
    requires 0 < DeclaredLength(chunk) <= limit && |Body(chunk)| <= DeclaredLength(chunk)
    ensures Begun([chunk], DeclaredLength(chunk), limit) && Bodies([chunk]) == Body(chunk)
  {
    hide HasFlag, UnpackLE;
    assert [chunk][..0] == [] && Bodies([]) == [];
  }

  lemma BegunContinues(chunks: seq<Bytes>, chunk: Bytes, limit: nat)
    requires |chunk| >= HEADER_SIZE && !IsFirst(chunk) && !IsLast(chunk) && !IsCompressed(chunk)
    requires Begun(chunks, DeclaredLength(chunk), limit)
    requires |Bodies(chunks) + Body(chunk)| <= DeclaredLength(chunk)
    ensures Begun(chunks + [chunk], DeclaredLength(chunk), limit)
      && Bodies(chunks + [chunk]) == Bodies(chunks) + Body(chunk)
  {
    hide HasFlag, UnpackLE;
    assert (chunks + [chunk])[..|chunks|] == chunks;
  }

  /** What the reassembler holds is always the bodies of a begun sequence that ends here. */
  lemma {:induction false} HeldIsBegun(limit: nat, chunks: seq<Bytes>) returns (start: nat)
    ensures FeedChunks(NOTHING, limit, chunks).0.declared.None? ==> FeedChunks(NOTHING, limit, chunks).0 == NOTHING
    ensures FeedChunks(NOTHING, limit, chunks).0.declared.Some? ==>
      && start < |chunks|
      && Begun(chunks[start..], FeedChunks(NOTHING, limit, chunks).0.declared.value, limit)
      && Bodies(chunks[start..]) == FeedChunks(NOTHING, limit, chunks).0.message
    decreases |chunks|
  {
    hide FeedChunk, Begun, Bodies, IsFirst, IsLast, IsCompressed, DeclaredLength, Body;
    start := 0;
    if chunks != [] {
      var front, last := chunks[..|chunks| - 1], chunks[|chunks| - 1];
      start := HeldIsBegun(limit, front);
      HeldAfterChunk(FeedChunks(NOTHING, limit, front).0, limit, last);
      if FeedChunks(NOTHING, limit, chunks).0.declared.Some? {
        if IsFirst(last) {
          start := |front|;
          assert chunks[start..] == [last] && [] + Body(last) == Body(last);
          BegunAlone(last, limit);
        } else {
          assert chunks[start..] == front[start..] + [last];
          BegunContinues(front[start..], last, limit);
        }
      }
    }
  }

  /** The last chunk of a message that is returned. */
  lemma MessageAfterChunk(a: Assembly, limit: nat, chunk: Bytes, message: Bytes)
    requires FeedChunk(a, limit, chunk).1 == Message(message)
    ensures
      && |chunk| >= HEADER_SIZE && DeclaredLength(chunk) == |message| && 0 < |message| <= limit
      && !IsCompressed(chunk) && IsLast(chunk) && (IsFirst(chunk) || a.declared == Some(|message|))
      && message == (if IsFirst(chunk) then [] else a.message) + Body(chunk)
  {
    hide HasFlag, UnpackLE;
  }

  lemma WellFormedAlone(chunk: Bytes, message: Bytes, limit: nat)
    requires |chunk| >= HEADER_SIZE && IsFirst(chunk) && IsLast(chunk) && !IsCompressed(chunk)
    requires 0 < |message| <= limit && DeclaredLength(chunk) == |message| && Body(chunk) == message
    ensures WellFormed([chunk], message, limit)
  {
    hide HasFlag, UnpackLE;
    assert [chunk][..0] == [] && Bodies([]) == [];
  }

  lemma WellFormedContinues(chunks: seq<Bytes>, chunk: Bytes, message: Bytes, limit: nat)
    requires |chunk| >= HEADER_SIZE && !IsFirst(chunk) && IsLast(chunk) && !IsCompressed(chunk)
    requires Begun(chunks, |message|, limit) && DeclaredLength(chunk) == |message|
    requires Bodies(chunks) + Body(chunk) == message
    ensures WellFormed(chunks + [chunk], message, limit)
  {
    hide HasFlag, UnpackLE;
    assert (chunks + [chunk])[..|chunks|] == chunks;
  }

  lemma DeliveredIsWellFormed(limit: nat, chunks: seq<Bytes>, message: Bytes) returns (start: nat)
    requires chunks != [] && FeedChunks(NOTHING, limit, chunks).1[|chunks| - 1] == Message(message)
    ensures start < |chunks| && WellFormed(chunks[start..], message, limit)
  {
    hide FeedChunk, Begun, WellFormed, Bodies, IsFirst, IsLast, IsCompressed, DeclaredLength, Body;
    var front, last := chunks[..|chunks| - 1], chunks[|chunks| - 1];
    start := HeldIsBegun(limit, front);
    MessageAfterChunk(FeedChunks(NOTHING, limit, front).0, limit, last, message);
    if IsFirst(last) {
      start := |front|;
      assert chunks[start..] == [last] && [] + Body(last) == Body(last);
      WellFormedAlone(last, message, limit);
    } else {
      assert chunks[start..] == front[start..] + [last];
      WellFormedContinues(front[start..], last, message, limit);
    }
  }

  /**
   A message is returned exactly when the chunks received so far end in the well-formed chunks of
   that message, so nothing is ever invented, mixed or truncated.
   */
  lemma DeliveredIffWellFormed(limit: nat, chunks: seq<Bytes>, message: Bytes)
    requires chunks != []
    ensures FeedChunks(NOTHING, limit, chunks).1[|chunks| - 1] == Message(message)
      <==> exists start :: 0 <= start < |chunks| && WellFormed(chunks[start..], message, limit)
  {
    hide WellFormed, FeedChunks;
    if FeedChunks(NOTHING, limit, chunks).1[|chunks| - 1] == Message(message) {
      var start := DeliveredIsWellFormed(limit, chunks, message);
    }
    forall start | 0 <= start < |chunks| && WellFormed(chunks[start..], message, limit)
      ensures FeedChunks(NOTHING, limit, chunks).1[|chunks| - 1] == Message(message)
    {
      FeedInTwo(NOTHING, limit, chunks[..start], chunks[start..]);
      assert chunks[..start] + chunks[start..] == chunks;
      WellFormedIsDelivered(FeedChunks(NOTHING, limit, chunks[..start]).0, limit, chunks[start..], message);
    }
  }

  lemma PendingHolds(a: Assembly, limit: nat, chunk: Bytes)
    ensures FeedChunk(a, limit, chunk).1 == Pending <==> FeedChunk(a, limit, chunk).0.declared.Some?
  {
    hide HasFlag, UnpackLE;
  }

  /**
   More chunks are waited for exactly when the chunks received so far end in the front part of a
   well-formed message. So a chunk is an error exactly when it neither completes nor continues one.
   */
  lemma PendingIffBegun(limit: nat, chunks: seq<Bytes>)
    requires chunks != []
    ensures FeedChunks(NOTHING, limit, chunks).1[|chunks| - 1] == Pending
      <==> exists start, length: nat :: 0 <= start < |chunks| && Begun(chunks[start..], length, limit)
  {
    hide Begun, FeedChunk, Bodies;
    var last := |chunks| - 1;
    PendingHolds(FeedChunks(NOTHING, limit, chunks[..last]).0, limit, chunks[last]);
    hide FeedChunks;
    LastOutcome(limit, chunks);
    if FeedChunks(NOTHING, limit, chunks).1[last] == Pending {
      var start := HeldIsBegun(limit, chunks);
      assert Begun(chunks[start..], FeedChunks(NOTHING, limit, chunks).0.declared.value, limit);
    }
    forall start, length: nat | 0 <= start < |chunks| && Begun(chunks[start..], length, limit)
      ensures FeedChunks(NOTHING, limit, chunks).1[last] == Pending
    {
      FeedInTwo(NOTHING, limit, chunks[..start], chunks[start..]);
      assert chunks[..start] + chunks[start..] == chunks;
      FeedBegun(FeedChunks(NOTHING, limit, chunks[..start]).0, limit, chunks[start..], length);
    }
  }

  lemma LastOutcome(limit: nat, chunks: seq<Bytes>)
    requires chunks != []
    ensures var last := |chunks| - 1;
      var (after, outcome) := FeedChunk(FeedChunks(NOTHING, limit, chunks[..last]).0, limit, chunks[last]);
      FeedChunks(NOTHING, limit, chunks).0 == after && FeedChunks(NOTHING, limit, chunks).1[last] == outcome
  {
    hide FeedChunk;
  }
}
