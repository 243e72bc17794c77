/** Unsigned integers in network byte order. */
module ByteOrder {
  import opened Common

  function PackU16(n: nat): (b: Bytes)
    requires n <= 0xFFFF
    ensures |b| == 2
  {
    [n / 256, n % 256]
  }

  function PackU32(n: nat): (b: Bytes)
    requires n <= 0xFFFF_FFFF
    ensures |b| == 4
  {
    PackU16(n / 0x1_0000) + PackU16(n % 0x1_0000)
  }

  function UnpackU16(b: Bytes): (n: nat)
    requires |b| == 2
    ensures n <= 0xFFFF
  {
    (b[0] as int) * 256 + b[1]
  }

  function UnpackU32(b: Bytes): (n: nat)
    requires |b| == 4
    ensures n <= 0xFFFF_FFFF
  {
    UnpackU16(b[..2]) * 0x1_0000 + UnpackU16(b[2..])
  }

  /** Packing and unpacking are inverse to each other, both ways. */
  lemma U16Inverse(n: nat, b: Bytes)
    requires n <= 0xFFFF && |b| == 2
    ensures UnpackU16(PackU16(n)) == n && PackU16(UnpackU16(b)) == b
  {
    assert UnpackU16(b) / 256 == b[0] && UnpackU16(b) % 256 == b[1];
  }

  lemma U32Inverse(n: nat, b: Bytes)
    requires n <= 0xFFFF_FFFF && |b| == 4
    ensures UnpackU32(PackU32(n)) == n && PackU32(UnpackU32(b)) == b
  {
    hide UnpackU16, PackU16;
    U16Inverse(n / 0x1_0000, b[..2]);
    U16Inverse(n % 0x1_0000, b[2..]);
    assert PackU32(n)[..2] == PackU16(n / 0x1_0000) && PackU32(n)[2..] == PackU16(n % 0x1_0000);
    var high, low := UnpackU16(b[..2]), UnpackU16(b[2..]);
    assert (high * 0x1_0000 + low) / 0x1_0000 == high && (high * 0x1_0000 + low) % 0x1_0000 == low;
    assert b[..2] + b[2..] == b;
  }

  /** The number four bytes spell, the most significant one first. */
  function BigEndian(b0: byte, b1: byte, b2: byte, b3: byte): nat {
    16777216 * b0 + 65536 * b1 + 256 * b2 + b3
  }

  lemma UnpackLayout(b: Bytes)
    requires |b| == 4
    ensures UnpackU32(b) == BigEndian(b[0], b[1], b[2], b[3])
  {
  }

  lemma PackLayout(n: nat)
    requires n <= 0xFFFF_FFFF
    ensures var b := PackU32(n); n == BigEndian(b[0], b[1], b[2], b[3])
  {
    hide PackU32, BigEndian, UnpackU32;
    U32Inverse(n, PackU32(n));
    UnpackLayout(PackU32(n));
  }
}

/**
 The wire format of a frame, and the decoder that cuts frames out of a byte stream which arrives in
 arbitrary pieces.
 */
module Protocol {
  import opened Common
  import opened ByteOrder

  const MAGIC: Bytes := [0x52, 0x32, 0x54, 0x50] // "R2TP"
  const VERSION := 1
  const HEADER_SIZE := 16
  const MAX_PAYLOAD := 16 * 1024

  datatype WireFrame = WireFrame(kind: Kind, id: int, payload: Bytes, flags: int)

  datatype EncodeError = IdOutOfRange | FlagsOutOfRange | PayloadTooLong

  datatype DecodeError =
    | BadMagic(preview: Bytes)
    | UnsupportedVersion(version: int)
    | PayloadLengthOverLimit(length: int)
    | UnknownKind(code: int)

  // ----- One frame --------------------------------------------------------------------------

  function Code(kind: Kind): (code: nat)
    ensures 1 <= code <= 12
  {
    match kind
    case HELLO => 1
    case HELLO_ACK => 2
    case OPEN => 3
    case OPEN_RESULT => 4
    case DATA => 5
    case WINDOW_UPDATE => 6
    case HALF_CLOSE => 7
    case CLOSE => 8
    case LISTEN => 9
    case LISTEN_RESULT => 10
    case PING => 11
    case PONG => 12
  }

  /** `MessageType(code)`, which fails on anything but 1 to 12. */
  function KindOf(code: int): (kind: Option<Kind>)
    ensures kind.Some? <==> 1 <= code <= 12
    ensures kind.Some? ==> Code(kind.value) == code
  {
    match code
    case 1 => Some(HELLO)
    case 2 => Some(HELLO_ACK)
    case 3 => Some(OPEN)
    case 4 => Some(OPEN_RESULT)
    case 5 => Some(DATA)
    case 6 => Some(WINDOW_UPDATE)
    case 7 => Some(HALF_CLOSE)
    case 8 => Some(CLOSE)
    case 9 => Some(LISTEN)
    case 10 => Some(LISTEN_RESULT)
    case 11 => Some(PING)
    case 12 => Some(PONG)
    case _ => None
  }

  predicate Encodable(f: WireFrame) {
    0 <= f.id <= 0xFFFF_FFFF && 0 <= f.flags <= 0xFFFF && |f.payload| <= MAX_PAYLOAD
  }

  function Header(f: WireFrame): (b: Bytes)
    requires Encodable(f)
    ensures |b| == HEADER_SIZE
  {
    MAGIC + [VERSION, Code(f.kind)] + PackU16(f.flags) + PackU32(f.id) + PackU32(|f.payload|)
  }

  function Wire(f: WireFrame): (b: Bytes)
    requires Encodable(f)
    ensures |b| == HEADER_SIZE + |f.payload|
  {
    Header(f) + f.payload
  }

  function Encode(f: WireFrame): (r: Result<Bytes, EncodeError>)
    ensures r.Success? <==> Encodable(f)
  {
    if !(0 <= f.id <= 0xFFFF_FFFF) then Failure(IdOutOfRange)
    else if !(0 <= f.flags <= 0xFFFF) then Failure(FlagsOutOfRange)
    else if |f.payload| > MAX_PAYLOAD then Failure(PayloadTooLong)
    else Success(Wire(f))
  }

  /** What is wrong with a frame that is not encoded: its ID, or else its flags, or else its length. */
  lemma EncodeRefuses(f: WireFrame)
    ensures Encode(f) == Failure(IdOutOfRange) <==> f.id < 0 || f.id >= 4294967296
    ensures Encode(f) == Failure(FlagsOutOfRange) <==> 0 <= f.id < 4294967296 && (f.flags < 0 || f.flags >= 65536)
    ensures Encode(f) == Failure(PayloadTooLong) <==>
      0 <= f.id < 4294967296 && 0 <= f.flags < 65536 && |f.payload| > 16384
  {
    hide Wire;
  }

  /** What stands at the front of a buffer. */
  datatype Front =
    | Incomplete
    | Malformed(error: DecodeError)
    | Complete(frame: WireFrame, size: nat)

  function LengthField(b: Bytes): (n: nat)
    requires |b| >= HEADER_SIZE
  {
    UnpackU32(b[12..16])
  }

  function FrontOf(b: Bytes): (front: Front)
    ensures front.Complete? ==> HEADER_SIZE <= front.size <= |b|
  {
    if |b| < HEADER_SIZE then Incomplete
    else if b[..4] != MAGIC then Malformed(BadMagic(b[..HEADER_SIZE]))
    else if b[4] != VERSION then Malformed(UnsupportedVersion(b[4]))
    else if LengthField(b) > MAX_PAYLOAD then Malformed(PayloadLengthOverLimit(LengthField(b)))
    else if |b| < HEADER_SIZE + LengthField(b) then Incomplete
    else if KindOf(b[5]).None? then Malformed(UnknownKind(b[5]))
    else
      var size := HEADER_SIZE + LengthField(b);
      Complete(WireFrame(KindOf(b[5]).value, UnpackU32(b[8..12]), b[HEADER_SIZE..size], UnpackU16(b[6..8])), size)
  }

  /** Bytes that arrive later change nothing about a front that is already decided. */
  lemma FrontIsStable(b: Bytes, more: Bytes)
    requires !FrontOf(b).Incomplete?
    ensures FrontOf(b + more) == FrontOf(b)
  {
    var c := b + more;
    assert c[..4] == b[..4] && c[..HEADER_SIZE] == b[..HEADER_SIZE];
    assert c[6..8] == b[6..8] && c[8..12] == b[8..12] && c[12..16] == b[12..16];
    if FrontOf(b).Complete? {
      assert c[HEADER_SIZE..FrontOf(b).size] == b[HEADER_SIZE..FrontOf(b).size];
    }
  }

  /** A frame's encoding is recognised, whatever follows it. */
  lemma FrontOfWire(f: WireFrame, more: Bytes)
    requires Encodable(f)
    ensures FrontOf(Wire(f) + more) == Complete(f, |Wire(f)|)
  {
    hide PackU16, PackU32, UnpackU16, UnpackU32;
    var b := Wire(f) + more;
    U16Inverse(f.flags, PackU16(f.flags));
    U32Inverse(f.id, PackU32(f.id));
    U32Inverse(|f.payload|, PackU32(|f.payload|));
    assert b[..4] == MAGIC && b[4] == VERSION && b[5] == Code(f.kind);
    assert b[6..8] == PackU16(f.flags);
    assert b[8..12] == PackU32(f.id);
    assert b[12..16] == PackU32(|f.payload|);
    assert b[HEADER_SIZE..|Wire(f)|] == f.payload;
  }

  /** And nothing else is recognised as that frame: a complete front is the frame's own encoding. */
  lemma WireOfFront(b: Bytes)
    requires FrontOf(b).Complete?
    ensures Encodable(FrontOf(b).frame) && b[..FrontOf(b).size] == Wire(FrontOf(b).frame)
  {
    hide PackU16, PackU32, UnpackU16, UnpackU32;
    var f := FrontOf(b).frame;
    U16Inverse(0, b[6..8]);
    U32Inverse(0, b[8..12]);
    U32Inverse(0, b[12..16]);
    assert |f.payload| == LengthField(b);
    var h := Header(f);
    assert h == b[..4] + [b[4], b[5]] + b[6..8] + b[8..12] + b[12..16];
    assert h == b[..HEADER_SIZE];
  }

  // ----- The layout, byte by byte -----------------------------------------------------------

  /** The kinds of frame in the order of their codes, from 1 on. */
  const KINDS: seq<Kind> :=
    [HELLO, HELLO_ACK, OPEN, OPEN_RESULT, DATA, WINDOW_UPDATE, HALF_CLOSE, CLOSE, LISTEN, LISTEN_RESULT, PING, PONG]

  /** What each byte of an encoded frame is: "R2TP", 1, the kind, flags, ID and length in network order, the payload. */
  lemma WireLayout(f: WireFrame)
    requires Encodable(f)
    ensures var b := Wire(f);
      && b[..5] == [82, 50, 84, 80, 1]
      && 1 <= b[5] <= 12 && KINDS[b[5] - 1] == f.kind
      && (b[6] as int) * 256 + b[7] == f.flags
      && BigEndian(b[8], b[9], b[10], b[11]) == f.id
      && BigEndian(b[12], b[13], b[14], b[15]) == |f.payload|
      && b[16..] == f.payload
  {
    hide PackU32, UnpackU32, BigEndian;
    var b := Wire(f);
    PackLayout(f.id);
    PackLayout(|f.payload|);
    assert b[6..8] == PackU16(f.flags) && b[8..12] == PackU32(f.id) && b[12..16] == PackU32(|f.payload|);
    assert b[8] == b[8..12][0] && b[9] == b[8..12][1] && b[10] == b[8..12][2] && b[11] == b[8..12][3];
    assert b[12] == b[12..16][0] && b[13] == b[12..16][1] && b[14] == b[12..16][2] && b[15] == b[12..16][3];
  }

  /**
   When the front of a buffer is an error: once a header is there, if it does not start with "R2TP" and
   1 or declares more than 16384 bytes; and once the whole frame is there, if its kind is unknown.
   */
  lemma FrontIsErrorIff(b: Bytes)
    ensures FrontOf(b).Malformed? <==>
      && |b| >= 16
      && var length := BigEndian(b[12], b[13], b[14], b[15]);
         b[..5] != [82, 50, 84, 80, 1] || length > 16384 || (|b| >= 16 + length && !(1 <= b[5] <= 12))
  {
    hide UnpackU32, UnpackU16, BigEndian;
    if |b| >= 16 {
      UnpackLayout(b[12..16]);
      assert b[..5] == b[..4] + [b[4]];
      assert b[..5] == [82, 50, 84, 80, 1] <==> b[..4] == MAGIC && b[4] == VERSION by {
        assert b[..5][4] == b[4] && b[..5][..4] == b[..4];
      }
    }
  }

  // ----- A whole byte stream ----------------------------------------------------------------

  /** The frames at the front of a byte string, what is left, and the error that stopped it, if any. */
  datatype Parsed = Parsed(frames: seq<WireFrame>, rest: Bytes, error: Option<DecodeError>)

  function Parse(b: Bytes): Parsed
    decreases |b|
  {
    match FrontOf(b)
    case Incomplete => Parsed([], b, None)
    case Malformed(error) => Parsed([], b, Some(error))
    case Complete(frame, size) =>
      var tail := Parse(b[size..]);
      tail.(frames := [frame] + tail.frames)
  }

  lemma ParseUnfolds(b: Bytes)
    ensures FrontOf(b).Incomplete? ==> Parse(b) == Parsed([], b, None)
    ensures FrontOf(b).Malformed? ==> Parse(b) == Parsed([], b, Some(FrontOf(b).error))
    ensures FrontOf(b).Complete? ==>
      var tail := Parse(b[FrontOf(b).size..]);
      Parse(b) == tail.(frames := [FrontOf(b).frame] + tail.frames)
  {
    hide FrontOf;
  }

  /** The encodings of some frames, one after the other. */
  function WireAll(frames: seq<WireFrame>): Bytes
    requires forall f :: f in frames ==> Encodable(f)
  {
    if frames == [] then [] else Wire(frames[0]) + WireAll(frames[1..])
  }

  /** Parsing can be broken off anywhere and taken up again with the remainder. */
  lemma {:induction false} ParseInTwo(a: Bytes, b: Bytes)
    ensures Parse(a).error.None? ==>
      Parse(a + b) == Parse(Parse(a).rest + b).(frames := Parse(a).frames + Parse(Parse(a).rest + b).frames)
    ensures Parse(a).error.Some? ==> Parse(a + b) == Parse(a).(rest := Parse(a).rest + b)
    decreases |a|
  {
    hide FrontOf;
    if !FrontOf(a).Incomplete? { FrontIsStable(a, b); }
    if FrontOf(a).Complete? {
      var size := FrontOf(a).size;
      assert (a + b)[size..] == a[size..] + b;
      ParseInTwo(a[size..], b);
    }
  }

  /** Decoding inverts encoding, whatever follows. */
  lemma {:induction false} ParseInvertsWire(frames: seq<WireFrame>, more: Bytes)
    requires forall f :: f in frames ==> Encodable(f)
    ensures Parse(WireAll(frames) + more) == Parse(more).(frames := frames + Parse(more).frames)
  {
    hide FrontOf, Wire, Parse;
    if frames == [] {
      assert WireAll(frames) + more == more && frames + Parse(more).frames == Parse(more).frames;
    } else {
      var tail := WireAll(frames[1..]) + more;
      ParseFirst(frames[0], tail);
      assert WireAll(frames) + more == Wire(frames[0]) + tail;
      ParseInvertsWire(frames[1..], more);
      assert frames + Parse(more).frames == [frames[0]] + (frames[1..] + Parse(more).frames);
    }
  }

  lemma ParseFirst(f: WireFrame, more: Bytes)
    requires Encodable(f)
    ensures Parse(Wire(f) + more) == Parse(more).(frames := [f] + Parse(more).frames)
  {
    hide FrontOf, Wire;
    FrontOfWire(f, more);
    assert (Wire(f) + more)[|Wire(f)|..] == more;
  }

  /** And encoding inverts decoding: the bytes are the encodings of the frames found, and the remainder. */
  lemma {:induction false} WireInvertsParse(b: Bytes)
    ensures forall f :: f in Parse(b).frames ==> Encodable(f)
    ensures b == WireAll(Parse(b).frames) + Parse(b).rest
    decreases |b|
  {
    hide FrontOf, Wire;
    if FrontOf(b).Complete? {
      var size := FrontOf(b).size;
      WireOfFront(b);
      WireInvertsParse(b[size..]);
      assert Parse(b).frames[1..] == Parse(b[size..]).frames;
      assert b == b[..size] + b[size..];
    }
  }

  /** What is kept without an error is less than one frame of the largest size. */
  lemma {:induction false} RemainderIsBounded(b: Bytes)
    ensures Parse(b).error.None? ==>
      FrontOf(Parse(b).rest).Incomplete? && |Parse(b).rest| < HEADER_SIZE + MAX_PAYLOAD
    decreases |b|
  {
    if FrontOf(b).Complete? { RemainderIsBounded(b[FrontOf(b).size..]); }
  }

  /** A stream that ends without a complaint is exactly a sequence of encoded frames. */
  lemma EndsCleanlyIff(b: Bytes)
    ensures (Parse(b).error.None? && Parse(b).rest == []) <==>
      exists frames: seq<WireFrame> :: (forall f :: f in frames ==> Encodable(f)) && b == WireAll(frames)
  {
    if Parse(b).error.None? && Parse(b).rest == [] {
      WireInvertsParse(b);
      assert b == WireAll(Parse(b).frames);
    }
    forall frames: seq<WireFrame> | (forall f :: f in frames ==> Encodable(f)) && b == WireAll(frames)
      ensures Parse(b).error.None? && Parse(b).rest == []
    {
      ParseInvertsWire(frames, []);
      assert b + [] == b;
    }
  }

  // ----- The decoder ------------------------------------------------------------------------

  class FrameDecoder {
    var buffer: Bytes

    constructor ()
      ensures buffer == []
    {
      buffer := [];
    }

    /** On an error the frames cut out in the same call are lost with it. */
    method Feed(data: Bytes) returns (r: Result<seq<WireFrame>, DecodeError>)
      modifies this
      ensures var parsed := Parse(old(buffer) + data);
        && buffer == parsed.rest
        && r == if parsed.error.Some? then Failure(parsed.error.value) else Success(parsed.frames)
    {
      hide Parse;
      buffer := buffer + data;
      ghost var all := buffer;
      assert [] + Parse(all).frames == Parse(all).frames;
      var frames: seq<WireFrame> := [];
      while |buffer| >= HEADER_SIZE
        invariant Parse(all) == Parse(buffer).(frames := frames + Parse(buffer).frames)
        decreases |buffer|
      {
        ParseUnfolds(buffer);
        assert frames + [] == frames;
        var length := UnpackU32(buffer[12..16]);
        if buffer[..4] != MAGIC { return Failure(BadMagic(buffer[..HEADER_SIZE])); }
        if buffer[4] != VERSION { return Failure(UnsupportedVersion(buffer[4])); }
        if length > MAX_PAYLOAD { return Failure(PayloadLengthOverLimit(length)); }
        var total := HEADER_SIZE + length;
        if |buffer| < total { break; }
        var kind := KindOf(buffer[5]);
        if kind.None? { return Failure(UnknownKind(buffer[5])); }
        var frame := WireFrame(kind.value, UnpackU32(buffer[8..12]), buffer[HEADER_SIZE..total],
          UnpackU16(buffer[6..8]));
        ghost var tail := Parse(buffer[total..]).frames;
        assert frames + ([frame] + tail) == (frames + [frame]) + tail;
        buffer := buffer[total..];
        frames := frames + [frame];
      }
      ParseUnfolds(buffer);
      assert frames + [] == frames;
      r := Success(frames);
    }

    /** Whether the stream may end here. */
    method Finish() returns (ok: bool)
      ensures ok <==> buffer == []
    {
      ok := buffer == [];
    }
  }

  // ----- Independence of how the bytes arrive -----------------------------------------------

  /** A receiver that feeds pieces to a decoder until the first error. */
  datatype Receiver = Receiver(buffer: Bytes, frames: seq<WireFrame>, error: Option<DecodeError>)

  /** One call of `Feed`: its frames are added only when it succeeds. */
  function FeedOnce(r: Receiver, piece: Bytes): Receiver {
    if r.error.Some? then r
    else
      var parsed := Parse(r.buffer + piece);
      Receiver(parsed.rest, if parsed.error.Some? then r.frames else r.frames + parsed.frames, parsed.error)
  }

  function FeedAll(r: Receiver, pieces: seq<Bytes>): Receiver
    decreases |pieces|
  {
    if pieces == [] then r else FeedAll(FeedOnce(r, pieces[0]), pieces[1..])
  }

  const NEW_RECEIVER := Receiver([], [], None)

  lemma {:induction false} FeedAllFrom(r: Receiver, pieces: seq<Bytes>)
    requires r.error.None? && FrontOf(r.buffer).Incomplete?
    ensures var whole, fed := Parse(r.buffer + Concat(pieces)), FeedAll(r, pieces);
      && fed.error == whole.error
      && fed.frames <= r.frames + whole.frames
      && (whole.error.None? ==> fed.buffer == whole.rest && fed.frames == r.frames + whole.frames)
    decreases |pieces|
  {
    hide FrontOf, Parse;
    ParseUnfolds(r.buffer);
    if pieces == [] {
      assert r.buffer + Concat(pieces) == r.buffer;
    } else {
      var piece, others := pieces[0], Concat(pieces[1..]);
      var first := r.buffer + piece;
      assert r.buffer + Concat(pieces) == first + others;
      ParseInTwo(first, others);
      var r1 := FeedOnce(r, piece);
      if r1.error.Some? {
        StoppedReceiver(r1, pieces[1..]);
      } else {
        RemainderIsBounded(first);
        FeedAllFrom(r1, pieces[1..]);
        var later := Parse(r1.buffer + others).frames;
        assert r.frames + (Parse(first).frames + later) == (r.frames + Parse(first).frames) + later;
      }
    }
  }

  lemma NothingIsIncomplete()
    ensures FrontOf([]).Incomplete?
  {
  }

  lemma {:induction false} StoppedReceiver(r: Receiver, pieces: seq<Bytes>)
    requires r.error.Some?
    ensures FeedAll(r, pieces) == r
  {
    if pieces != [] { StoppedReceiver(r, pieces[1..]); }
  }

  /**
   However a byte string is cut up, the decoder reports the same first error as one parse of the
   whole, or the same frames and remainder if there is none. On an error it hands out a prefix of
   the frames in front of it.
   */
  lemma DecodingIgnoresPieces(pieces: seq<Bytes>)
    ensures var whole, fed := Parse(Concat(pieces)), FeedAll(NEW_RECEIVER, pieces);
      && fed.error == whole.error
      && fed.frames <= whole.frames
      && (whole.error.None? ==> fed.buffer == whole.rest && fed.frames == whole.frames)
  {
    hide Parse, FeedAll, FrontOf, Concat;
    NothingIsIncomplete();
    FeedAllFrom(NEW_RECEIVER, pieces);
    assert [] + Concat(pieces) == Concat(pieces);
    var whole := Parse(Concat(pieces));
    assert NEW_RECEIVER.frames + whole.frames == whole.frames;
  }

  /**
   When the call that meets the error is the last one, no frame in front of the error is lost
   exactly if the error stands at the very front of what that call looks at.
   */
  lemma NothingLostIff(pieces: seq<Bytes>, last: Bytes)
    requires FeedAll(NEW_RECEIVER, pieces).error.None?
    requires FeedAll(NEW_RECEIVER, pieces + [last]).error.Some?
    ensures FeedAll(NEW_RECEIVER, pieces + [last]).frames == Parse(Concat(pieces + [last])).frames
      <==> FrontOf(FeedAll(NEW_RECEIVER, pieces).buffer + last).Malformed?
  {
    var r := FeedAll(NEW_RECEIVER, pieces);
    FeedAllAppend(NEW_RECEIVER, pieces, last);
    DecodingIgnoresPieces(pieces);
    ConcatOne(pieces, last);
    ParseInTwo(Concat(pieces), last);
    var found := Parse(r.buffer + last).frames;
    assert |Parse(Concat(pieces + [last])).frames| == |r.frames| + |found|;
    assert found == [] ==> r.frames + found == r.frames;
  }

  lemma {:induction false} FeedAllAppend(r: Receiver, pieces: seq<Bytes>, last: Bytes)
    ensures FeedAll(r, pieces + [last]) == FeedOnce(FeedAll(r, pieces), last)
    decreases |pieces|
  {
    if pieces == [] {
      assert (pieces + [last])[1..] == [];
    } else {
      assert (pieces + [last])[0] == pieces[0] && (pieces + [last])[1..] == pieces[1..] + [last];
      FeedAllAppend(FeedOnce(r, pieces[0]), pieces[1..], last);
    }
  }

  lemma JunkIsMalformed(junk: Bytes)
    requires |junk| == HEADER_SIZE && junk[..4] != MAGIC
    ensures Parse([]) == Parsed([], [], None)
    ensures Parse(junk) == Parsed([], junk, Some(BadMagic(junk)))
  {
    assert junk[..HEADER_SIZE] == junk;
  }

  /** So the frames handed out before an error do depend on how the bytes arrive. */
  lemma FramesBeforeAnErrorDependOnPieces(f: WireFrame, junk: Bytes)
    requires Encodable(f) && |junk| == HEADER_SIZE && junk[..4] != MAGIC
    ensures FeedAll(NEW_RECEIVER, [Wire(f), junk]) == Receiver(junk, [f], Some(BadMagic(junk)))
    ensures FeedAll(NEW_RECEIVER, [Wire(f) + junk]) == Receiver(junk, [], Some(BadMagic(junk)))
  {
    hide Parse, FrontOf, Wire;
    ParseFirst(f, []);
    ParseFirst(f, junk);
    JunkIsMalformed(junk);
    assert Wire(f) + [] == [] + Wire(f) && Wire(f) + junk == [] + (Wire(f) + junk) && [] + junk == junk;
    assert [Wire(f), junk][1..] == [junk] && [junk][1..] == [];
    var one := FeedOnce(NEW_RECEIVER, Wire(f));
    assert [] + [f] == [f] && one == Receiver([], [f], None);
    assert FeedAll(one, [junk]) == FeedOnce(one, junk);
  }

  /** Encoded frames, cut up in any way, come out again, and nothing is left. */
  lemma WireRoundTrip(frames: seq<WireFrame>, pieces: seq<Bytes>)
    requires forall f :: f in frames ==> Encodable(f)
    requires Concat(pieces) == WireAll(frames)
    ensures FeedAll(NEW_RECEIVER, pieces) == Receiver([], frames, None)
  {
    DecodingIgnoresPieces(pieces);
    ParseInvertsWire(frames, []);
    assert WireAll(frames) + [] == WireAll(frames) && frames + [] == frames;
  }
}
