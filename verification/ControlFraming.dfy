/**
 Control messages: one JSON line, then a body of the length that line declares, over a stream that
 hands the bytes out in arbitrary pieces.
 */
module ControlFraming {
  import opened Common
  import opened Json

  const MAX_HEADER := 64 * 1024
  const MAX_BODY := 128 * 1024 * 1024
  const READ_CHUNK := 64 * 1024
  const NEWLINE: byte := 0x0A

  /** JSON as a pair of functions, since its text is not modelled. */
  datatype Codec = Codec(dumps: Object -> Bytes, loads: Bytes -> Option<Value>)

  /** What is asked of it: an object reads back as itself, and its text has no line break in it. */
  ghost predicate Sound(codec: Codec) {
    forall h: Object :: codec.loads(codec.dumps(h)) == Some(Dict(h)) && NEWLINE !in codec.dumps(h)
  }

  datatype FramingError =
    | HeaderTooLarge(size: nat)
    | EndedInHeader
    | InvalidHeader
    | HeaderNotAnObject
    | InvalidBodyLength
    | BodyTooLarge(length: int)
    | EndedInBody(got: nat, wanted: nat)

  // ----- Writing ----------------------------------------------------------------------------

  /** The header as it is sent: a body announces its length. */
  function SentHeader(header: Object, body: Bytes): Object {
    if body == [] then header else header["body_len" := Int(|body|)]
  }

  function EncodeMessage(codec: Codec, header: Object, body: Bytes): (r: Result<Bytes, FramingError>)
    ensures r.Success? <==> |codec.dumps(SentHeader(header, body))| <= MAX_HEADER
  {
    var line := codec.dumps(SentHeader(header, body));
    if |line| > MAX_HEADER then Failure(HeaderTooLarge(|line|)) else Success(line + [NEWLINE] + body)
  }

  // ----- Reading a whole byte string --------------------------------------------------------

  function IndexOf(s: Bytes, b: byte): (index: Option<nat>)
    ensures index.Some? ==> index.value < |s| && s[index.value] == b && b !in s[..index.value]
    ensures index.None? ==> b !in s
  {
    if s == [] then None
    else if s[0] == b then Some(0)
    else
      var tail := IndexOf(s[1..], b);
      if tail.None? then None
      else
        assert s[..tail.value + 1] == [s[0]] + s[1..][..tail.value];
        Some(tail.value + 1)
  }

  /** The first message of a byte string and what follows it, the end, or an error. */
  datatype Reading =
    | Message(header: Object, body: Bytes, rest: Bytes)
    | End
    | Bad(error: FramingError)

  /** The `body_len` of a header, if it is one a message may have. */
  function BodyLength(header: Object): (r: Result<nat, FramingError>) {
    var length := Get(header, "body_len", Int(0));
    if !length.Int? || length.number < 0 then Failure(InvalidBodyLength)
    else if length.number > MAX_BODY then Failure(BodyTooLarge(length.number))
    else Success(length.number)
  }

  /** What the line of a message says: its header and the length of its body. */
  function ParseLine(codec: Codec, line: Bytes): (r: Result<(Object, nat), FramingError>) {
    var value := codec.loads(line);
    if value.None? then Failure(InvalidHeader)
    else if !value.value.Dict? then Failure(HeaderNotAnObject)
    else
      var length := BodyLength(value.value.entries);
      if length.Failure? then Failure(length.error) else Success((value.value.entries, length.value))
  }

  function Next(codec: Codec, s: Bytes): Reading {
    var index := IndexOf(s, NEWLINE);
    if index.None? then (if s == [] then End else Bad(EndedInHeader))
    else
      var parsed, rest := ParseLine(codec, s[..index.value]), s[index.value + 1..];
      if parsed.Failure? then Bad(parsed.error)
      else
        var (header, length) := parsed.value;
        if |rest| < length then Bad(EndedInBody(|rest|, length))
        else Message(header, rest[..length], rest[length..])
  }

  /**
   What any line of bytes and what follows it are: a message if the line is the text of an object whose
   `body_len` is absent, or a number up to 128 MiB that the bytes behind the line reach; else which error.
   */
  lemma NextOfLine(codec: Codec, line: Bytes, rest: Bytes)
    requires 10 !in line
    ensures var next := Next(codec, line + [10] + rest);
      match codec.loads(line)
      case None => next == Bad(InvalidHeader)
      case Some(Dict(header)) =>
        if "body_len" !in header then next == Message(header, [], rest)
        else (
          match header["body_len"]
          case Int(n) =>
            if n < 0 then next == Bad(InvalidBodyLength)
            else if n > 134217728 then next == Bad(BodyTooLarge(n))
            else if |rest| < n then next == Bad(EndedInBody(|rest|, n))
            else next == Message(header, rest[..n], rest[n..])
          case _ => next == Bad(InvalidBodyLength))
      case Some(_) => next == Bad(HeaderNotAnObject)
  {
    hide IndexOf;
    var s := line + [10] + rest;
    assert s[..|line|] == line && s[|line| + 1..] == rest && s[|line|] == NEWLINE;
    IsFirstBreak(s, |line|);
    assert rest[..0] == [] && rest[0..] == rest;
  }

  /** And bytes without a line break are the end if there are none, and an error otherwise. */
  lemma NextWithoutBreak(codec: Codec, s: Bytes)
    requires 10 !in s
    ensures Next(codec, s) == if s == [] then End else Bad(EndedInHeader)
  {
    hide IndexOf;
  }

  // ----- The reader -------------------------------------------------------------------------

  /** Pieces as a stream may hand them out. */
  predicate ValidPieces(pieces: seq<Bytes>) { forall p :: p in pieces ==> 0 < |p| <= READ_CHUNK }

  /** A stream that has `pieces` left to hand out. */
  class Stream {
    var pieces: seq<Bytes>

    constructor (pieces: seq<Bytes>)
      requires ValidPieces(pieces)
      ensures this.pieces == pieces
    {
      this.pieces := pieces;
    }

    /** The next piece, or nothing at the end. */
    method Read() returns (data: Bytes)
      modifies this
      ensures if old(pieces) == [] then data == [] && pieces == []
              else data == old(pieces)[0] && pieces == old(pieces)[1..]
    {
      if pieces == [] { return []; }
      data, pieces := pieces[0], pieces[1..];
    }
  }

  /**
   A header is too large once more than 65536 bytes of it are there without a line break. Whether
   that is ever seen depends on the pieces.
   */
  predicate Overflows(buffer: Bytes, pieces: seq<Bytes>)
    decreases |pieces|
  {
    NEWLINE !in buffer && (|buffer| > MAX_HEADER || (pieces != [] && Overflows(buffer + pieces[0], pieces[1..])))
  }

  class MessageReader {
    const codec: Codec
    const stream: Stream
    var buffer: Bytes
    var eof: bool

    constructor (codec: Codec, stream: Stream)
      requires ValidPieces(stream.pieces)
      ensures this.codec == codec && this.stream == stream
      ensures Valid() && Remaining() == Concat(stream.pieces) && buffer == []
    {
      this.codec, this.stream := codec, stream;
      buffer, eof := [], false;
    }

    ghost predicate Valid()
      reads this, stream
    {
      ValidPieces(stream.pieces) && (eof ==> stream.pieces == [])
    }

    /** The bytes not yet consumed: those buffered, and those still to come. */
    ghost function Remaining(): Bytes
      reads this, stream
    {
      buffer + Concat(stream.pieces)
    }

    /** One more piece, or the news that there is none. */
    method Fill() returns (more: bool)
      requires Valid()
      modifies this, stream
      ensures Valid() && Remaining() == old(Remaining())
      ensures more <==> old(stream.pieces) != []
      ensures more ==> buffer == old(buffer + stream.pieces[0]) && stream.pieces == old(stream.pieces)[1..]
      ensures !more ==> buffer == old(buffer) && stream.pieces == []
    {
      if eof { return false; }
      var data := stream.Read();
      if data == [] {
        eof := true;
        return false;
      }
      buffer := buffer + data;
      more := true;
    }

    /** The next line without its line break, or nothing at the end of the stream. */
    method ReadLine() returns (r: Result<Option<Bytes>, FramingError>)
      requires Valid()
      modifies this, stream
      ensures Valid()
      ensures r.Failure? && r.error.HeaderTooLarge? <==> old(Overflows(buffer, stream.pieces))
      ensures !old(Overflows(buffer, stream.pieces)) ==>
        match IndexOf(old(Remaining()), NEWLINE)
        case Some(i) => r == Success(Some(old(Remaining())[..i])) && Remaining() == old(Remaining())[i + 1..]
        case None => (if old(Remaining()) == [] then r == Success(None) else r == Failure(EndedInHeader))
    {
      ghost var all := Remaining();
      while true
        invariant Valid() && Remaining() == all
        invariant Overflows(buffer, stream.pieces) <==> old(Overflows(buffer, stream.pieces))
        decreases |stream.pieces|
      {
        var index := IndexOf(buffer, NEWLINE);
        FirstBreak(buffer, Concat(stream.pieces));
        if index.Some? {
          var line := buffer[..index.value];
          assert all[..index.value] == line;
          buffer := buffer[index.value + 1..];
          assert all[index.value + 1..] == Remaining();
          return Success(Some(line));
        }
        if |buffer| > MAX_HEADER { return Failure(HeaderTooLarge(|buffer|)); }
        var more := Fill();
        if !more {
          assert all == buffer;
          return if buffer != [] then Failure(EndedInHeader) else Success(None);
        }
      }
    }

    method ReadExactly(count: nat) returns (r: Result<Bytes, FramingError>)
      requires Valid()
      modifies this, stream
      ensures Valid()
      ensures var all := old(Remaining());
        if |all| < count then r == Failure(EndedInBody(|all|, count))
        else r == Success(all[..count]) && Remaining() == all[count..]
    {
      ghost var all := Remaining();
      while |buffer| < count
        invariant Valid() && Remaining() == all
        decreases |stream.pieces|
      {
        var more := Fill();
        if !more { return Failure(EndedInBody(|buffer|, count)); }
      }
      var body := buffer[..count];
      assert all[..count] == body;
      buffer := buffer[count..];
      assert all[count..] == Remaining();
      r := Success(body);
    }

    /** The next message. It is what the remaining bytes as a whole say, unless its line is too long. */
    method ReadMessage() returns (r: Result<Option<(Object, Bytes)>, FramingError>)
      requires Valid()
      modifies this, stream
      ensures Valid()
      ensures r.Failure? && r.error.HeaderTooLarge? <==> old(Overflows(buffer, stream.pieces))
      ensures !old(Overflows(buffer, stream.pieces)) ==>
        match Next(codec, old(Remaining()))
        case Message(header, body, rest) => r == Success(Some((header, body))) && Remaining() == rest
        case End => r == Success(None)
        case Bad(error) => r == Failure(error)
    {
      var line := ReadLine();
      if line.Failure? { return Failure(line.error); }
      if line.value.None? { return Success(None); }
      var parsed := ParseLine(codec, line.value.value);
      if parsed.Failure? { return Failure(parsed.error); }
      var (header, length) := parsed.value;
      var body: Bytes := [];
      if length > 0 {
        var read := ReadExactly(length);
        if read.Failure? { return Failure(read.error); }
        body := read.value;
      }
      r := Success(Some((header, body)));
    }
  }

  /** The first line break of a prefix is the first of the whole. */
  lemma FirstBreak(a: Bytes, b: Bytes)
    ensures IndexOf(a, NEWLINE).Some? ==> IndexOf(a + b, NEWLINE) == IndexOf(a, NEWLINE)
  {
    if IndexOf(a, NEWLINE).Some? {
      IsFirstBreak(a + b, IndexOf(a, NEWLINE).value);
    }
  }

  lemma IsFirstBreak(s: Bytes, i: nat)
    requires i < |s| && s[i] == NEWLINE && NEWLINE !in s[..i]
    ensures IndexOf(s, NEWLINE) == Some(i)
  {
    var j := IndexOf(s, NEWLINE);
    assert j.Some? by { assert s[i] in s; }
    assert forall k :: 0 <= k < i ==> s[k] in s[..i];
    assert forall k :: 0 <= k < j.value ==> s[k] in s[..j.value];
  }

  // ----- Which lines are too long -----------------------------------------------------------

  /** The limit is overstepped exactly when some pieces end between the 65537th byte and the line break. */
  lemma {:induction false} OverflowsIff(buffer: Bytes, pieces: seq<Bytes>)
    ensures Overflows(buffer, pieces) <==>
      exists k :: 0 <= k <= |pieces|
        && |buffer + Concat(pieces[..k])| > 65536 && NEWLINE !in buffer + Concat(pieces[..k])
    decreases |pieces|
  {
    assert buffer + Concat(pieces[..0]) == buffer;
    if pieces == [] {
    } else {
      OverflowsIff(buffer + pieces[0], pieces[1..]);
      forall k | 1 <= k <= |pieces|
        ensures buffer + Concat(pieces[..k]) == buffer + pieces[0] + Concat(pieces[1..][..k - 1])
      {
        assert pieces[..k][1..] == pieces[1..][..k - 1];
      }
      if Overflows(buffer + pieces[0], pieces[1..]) {
        var k :| 0 <= k <= |pieces[1..]| && |buffer + pieces[0] + Concat(pieces[1..][..k])| > MAX_HEADER
          && NEWLINE !in buffer + pieces[0] + Concat(pieces[1..][..k]);
        assert |buffer + Concat(pieces[..k + 1])| > MAX_HEADER && NEWLINE !in buffer + Concat(pieces[..k + 1]);
      }
    }
  }

  /** A line of up to 65536 bytes is never refused, however it arrives. */
  lemma FittingLineIsNeverRefused(buffer: Bytes, pieces: seq<Bytes>)
    requires var all := buffer + Concat(pieces);
      match IndexOf(all, NEWLINE) case Some(i) => i <= 65536 case None => |all| <= 65536
    ensures !Overflows(buffer, pieces)
  {
    hide IndexOf, Overflows;
    OverflowsIff(buffer, pieces);
    forall k | 0 <= k <= |pieces|
      ensures |buffer + Concat(pieces[..k])| <= MAX_HEADER || NEWLINE in buffer + Concat(pieces[..k])
    {
      PartFits(buffer, pieces, k);
    }
  }

  lemma PartFits(buffer: Bytes, pieces: seq<Bytes>, k: nat)
    requires k <= |pieces|
    requires
      var all := buffer + Concat(pieces);
      match IndexOf(all, NEWLINE) case Some(i) => i <= MAX_HEADER case None => |all| <= MAX_HEADER
    ensures |buffer + Concat(pieces[..k])| <= MAX_HEADER || NEWLINE in buffer + Concat(pieces[..k])
  {
    hide IndexOf, Concat;
    ConcatAppend(pieces[..k], pieces[k..]);
    assert pieces[..k] + pieces[k..] == pieces;
    assert buffer + Concat(pieces) == buffer + Concat(pieces[..k]) + Concat(pieces[k..]);
    BreakComesInTime(buffer + Concat(pieces[..k]), Concat(pieces[k..]));
  }

  /** More than 65536 bytes of a line that fits include its line break. */
  lemma BreakComesInTime(part: Bytes, rest: Bytes)
    requires
      match IndexOf(part + rest, NEWLINE) case Some(i) => i <= MAX_HEADER case None => |part + rest| <= MAX_HEADER
    ensures |part| <= MAX_HEADER || NEWLINE in part
  {
    hide IndexOf;
    if |part| > MAX_HEADER {
      var i := IndexOf(part + rest, NEWLINE).value;
      assert part[i] == (part + rest)[i];
    }
  }

  /** A stream of pieces up to the size asked for passes the limit before any line twice as long ends. */
  lemma {:induction false} VeryLongLineIsRefused(buffer: Bytes, pieces: seq<Bytes>)
    requires ValidPieces(pieces) && NEWLINE !in buffer
    requires var all := buffer + Concat(pieces);
      |all| >= 131072 && NEWLINE !in all[..131072]
    ensures Overflows(buffer, pieces)
    decreases |pieces|
  {
    var all := buffer + Concat(pieces);
    assert pieces == [] ==> all == buffer;
    if |buffer| <= MAX_HEADER {
      if pieces != [] {
        var more := buffer + pieces[0];
        assert more + Concat(pieces[1..]) == all;
        assert pieces[0] in pieces;
        assert more == all[..|more|];
        assert forall b :: b in more ==> b in all[..MAX_HEADER + READ_CHUNK] by {
          forall k | 0 <= k < |more| ensures more[k] in all[..MAX_HEADER + READ_CHUNK] {
            assert more[k] == all[..MAX_HEADER + READ_CHUNK][k];
          }
        }
        VeryLongLineIsRefused(more, pieces[1..]);
      }
    }
  }

  /** In between, the same bytes are a message or an error, depending on how they arrive. */
  lemma LongLineDependsOnPieces(line: Bytes)
    requires NEWLINE !in line && 65536 < |line| < 131072
    ensures var head, tail := line[..65536], line[65536..];
      && ValidPieces([head, tail + [NEWLINE]]) && !Overflows([], [head, tail + [NEWLINE]])
      && ValidPieces([head, tail, [NEWLINE]]) && Overflows([], [head, tail, [NEWLINE]])
      && Concat([head, tail + [NEWLINE]]) == Concat([head, tail, [NEWLINE]])
  {
    var head, tail := line[..MAX_HEADER], line[MAX_HEADER..];
    var end := tail + [NEWLINE];
    var two, three := [head, end], [head, tail, [NEWLINE]];
    assert [] + head == head && head + tail == line && two[1..] == [end] && three[1..] == [tail, [NEWLINE]];
    assert NEWLINE in head + end by { assert (head + end)[|line|] == NEWLINE; }
    assert !Overflows(head + end, [end][1..]);
    assert !Overflows(head, [end]);
    assert Overflows(head + tail, three[1..][1..]);
    assert Overflows(head, three[1..]);
    assert three[1..][1..] == [[NEWLINE]];
    ConcatOne([], end);
    ConcatOne([], [NEWLINE]);
    assert [] + [end] == [end] && [] + [[NEWLINE]] == [[NEWLINE]];
  }

  // ----- Round trips ------------------------------------------------------------------------

  /**
   What is read from an encoded message, whatever follows it, is that message, exactly when its
   body is not over the reader's limit and no `body_len` of the caller's own contradicts an empty body.
   */
  lemma MessageRoundTripsIff(codec: Codec, header: Object, body: Bytes, rest: Bytes)
    requires Sound(codec) && EncodeMessage(codec, header, body).Success?
    ensures Next(codec, EncodeMessage(codec, header, body).value + rest)
      == Message(SentHeader(header, body), body, rest)
      <==> |body| <= MAX_BODY && (body == [] && "body_len" in header ==> header["body_len"] == Int(0))
  {
    hide IndexOf, EncodeMessage, SentHeader, BodyLength;
    var sent := SentHeader(header, body);
    FrontOfEncoded(codec, header, body, rest);
    assert codec.loads(codec.dumps(sent)) == Some(Dict(sent));
    LengthSent(header, body);
    if body != [] {
      assert (body + rest)[..|body|] == body && (body + rest)[|body|..] == rest;
    } else {
      assert body + rest == rest;
      NoLength(header);
      if BodyLength(header) == Success(0) { assert rest[..0] == [] && rest[0..] == rest; }
    }
  }

  /** An encoded message is the text of its header with the length of a body in it, a line break, and the body. */
  lemma EncodedLayout(codec: Codec, header: Object, body: Bytes)
    ensures var line := codec.dumps(if body == [] then header else header["body_len" := Int(|body|)]);
      EncodeMessage(codec, header, body)
        == if |line| <= 65536 then Success(line + [10] + body) else Failure(HeaderTooLarge(|line|))
  {
  }

  /** Where the line of an encoded message ends, and what comes after it. */
  lemma FrontOfEncoded(codec: Codec, header: Object, body: Bytes, rest: Bytes)
    requires Sound(codec) && EncodeMessage(codec, header, body).Success?
    ensures var line, s := codec.dumps(SentHeader(header, body)), EncodeMessage(codec, header, body).value + rest;
      && |s| > |line| && IndexOf(s, NEWLINE) == Some(|line|) && s[..|line|] == line && s[|line| + 1..] == body + rest
  {
    hide IndexOf;
    var line := codec.dumps(SentHeader(header, body));
    assert codec.loads(line).Some?;
    var s := EncodeMessage(codec, header, body).value + rest;
    assert s == line + ([NEWLINE] + (body + rest)) && s[..|line|] == line;
    IsFirstBreak(s, |line|);
  }

  /** A header declares an empty body by saying nothing, or 0. */
  lemma NoLength(header: Object)
    ensures BodyLength(header) == Success(0) <==> ("body_len" in header ==> header["body_len"] == Int(0))
  {
  }

  lemma LengthSent(header: Object, body: Bytes)
    ensures body == [] ==> SentHeader(header, body) == header
    ensures body != [] ==>
      BodyLength(SentHeader(header, body)) ==
        if |body| <= MAX_BODY then Success(|body|) else Failure(BodyTooLarge(|body|))
  {
  }

  predicate Sendable(codec: Codec, message: (Object, Bytes)) {
    && EncodeMessage(codec, message.0, message.1).Success?
    && |message.1| <= MAX_BODY
    && (message.1 == [] && "body_len" in message.0 ==> message.0["body_len"] == Int(0))
  }

  /** The encodings of some messages, one after the other. */
  function Encoded(codec: Codec, messages: seq<(Object, Bytes)>): Bytes
    requires forall m :: m in messages ==> Sendable(codec, m)
  {
    if messages == [] then []
    else
      assert Sendable(codec, messages[0]);
      EncodeMessage(codec, messages[0].0, messages[0].1).value + Encoded(codec, messages[1..])
  }

  /** The same messages as the other side sees them: with the length of each body in its header. */
  function Seen(messages: seq<(Object, Bytes)>): seq<(Object, Bytes)> {
    if messages == [] then [] else [(SentHeader(messages[0].0, messages[0].1), messages[0].1)] + Seen(messages[1..])
  }

  lemma EncodedFits(codec: Codec, header: Object, body: Bytes)
    ensures EncodeMessage(codec, header, body).Success? ==> |codec.dumps(SentHeader(header, body))| <= MAX_HEADER
  {
  }

  /** The front of some encoded messages is the first of them, on a line that fits. */
  lemma NextOfEncoded(codec: Codec, messages: seq<(Object, Bytes)>, buffer: Bytes, pieces: seq<Bytes>)
    requires Sound(codec) && forall m :: m in messages ==> Sendable(codec, m)
    requires buffer + Concat(pieces) == Encoded(codec, messages)
    ensures !Overflows(buffer, pieces)
    ensures messages == [] ==> Next(codec, Encoded(codec, messages)) == End
    ensures messages != [] ==>
      Next(codec, Encoded(codec, messages))
        == Message(Seen(messages)[0].0, messages[0].1, Encoded(codec, messages[1..]))
  {
    hide Overflows, IndexOf, EncodeMessage, Sound;
    if messages != [] {
      var (header, body) := messages[0];
      assert messages[0] in messages;
      var rest := Encoded(codec, messages[1..]);
      hide Next;
      MessageRoundTripsIff(codec, header, body, rest);
      FrontOfEncoded(codec, header, body, rest);
      EncodedFits(codec, header, body);
    }
    FittingLineIsNeverRefused(buffer, pieces);
  }

  /**
   A session that reads until the stream ends, fed with encoded messages in any pieces, reads
   exactly these messages and then the end.
   */
  method ReadSession(reader: MessageReader, ghost sent: seq<(Object, Bytes)>)
    returns (received: seq<(Object, Bytes)>, ok: bool)
    requires Sound(reader.codec) && reader.Valid() && forall m :: m in sent ==> Sendable(reader.codec, m)
    requires reader.Remaining() == Encoded(reader.codec, sent)
    modifies reader, reader.stream
    ensures received == Seen(sent) && ok
  {
    hide Sound, Sendable, Next;
    received, ok := [], true;
    ghost var left := sent;
    while true
      invariant reader.Valid() && forall m :: m in left ==> Sendable(reader.codec, m)
      invariant reader.Remaining() == Encoded(reader.codec, left)
      invariant received + Seen(left) == Seen(sent)
      decreases |left|
    {
      NextOfEncoded(reader.codec, left, reader.buffer, reader.stream.pieces);
      var message := reader.ReadMessage();
      if message.Failure? { return received, false; }
      if message.value.None? { return; }
      received := received + [message.value.value];
      left := left[1..];
    }
  }
}
