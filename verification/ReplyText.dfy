/** A reply, read back: its bytes are one line of UTF-8, and the JSON on it says what the service meant. */
module ReplyText {
  import opened Common
  import opened Json
  import opened JsonReader
  import R = ControlReply
  import F = ControlFraming

  // ----- UTF-8 ------------------------------------------------------------------------------

  /** A number is what its six lowest bits and the rest of it say. */
  lemma SixBits(n: nat)
    ensures n == n / 0x40 * 0x40 + n % 0x40 && n / 0x1000 == n / 0x40 / 0x40 && n / 0x4_0000 == n / 0x1000 / 0x40
  {
  }

  lemma CharDecodes(c: char, rest: Bytes)
    ensures FirstScalar(R.Utf8Char(c) + rest) == Some((c as nat, |R.Utf8Char(c)|))
  {
    var n, b := c as nat, R.Utf8Char(c) + rest;
    SixBits(n);
    SixBits(n / 0x40);
    SixBits(n / 0x1000);
    assert b[0] == R.Utf8Char(c)[0];
    if n < 0x80 {
    } else if n < 0x800 {
      assert b[1] == R.Utf8Char(c)[1];
    } else if n < 0x1_0000 {
      assert b[1] == R.Utf8Char(c)[1] && b[2] == R.Utf8Char(c)[2];
    } else {
      assert b[1] == R.Utf8Char(c)[1] && b[2] == R.Utf8Char(c)[2] && b[3] == R.Utf8Char(c)[3];
    }
  }

  lemma {:induction false} Utf8Decodes(s: string)
    ensures DecodeUtf8(R.Utf8(s)) == Some(s)
  {
    if s != "" {
      var rest := R.Utf8(s[1..]);
      CharDecodes(s[0], rest);
      Utf8Decodes(s[1..]);
      assert (R.Utf8Char(s[0]) + rest)[|R.Utf8Char(s[0])|..] == rest;
      assert [s[0]] + s[1..] == s;
      hide R.Utf8Char, FirstScalar;
    }
  }

  lemma {:induction false} NoBreakInUtf8(s: string)
    requires '\n' !in s
    ensures 10 !in R.Utf8(s)
  {
    if s != "" {
      assert s[0] in s && forall c :: c in s[1..] ==> c in s;
      NoBreakInUtf8(s[1..]);
    }
  }

  // ----- Strings ----------------------------------------------------------------------------

  /** The escape of a character reads as that character. */
  lemma CharReads(c: char, rest: string)
    ensures R.Escape(c) != "" && R.Escape(c)[0] != '\"'
    ensures ReadChar(R.Escape(c) + rest) == Some((c, |R.Escape(c)|))
  {
    var s := R.Escape(c) + rest;
    if |R.Escape(c)| == 6 {
      ControlEscape(c);
      assert s[2..6] == R.Escape(c)[2..6];
    }
  }

  lemma EscapeReads(c: char, rest: string)
    ensures ReadString(R.Escape(c) + rest) ==
      (var others := ReadString(rest); if others.None? then None else Some(([c] + others.value.0, others.value.1)))
  {
    hide R.Escape, ReadChar;
    CharReads(c, rest);
    assert (R.Escape(c) + rest)[|R.Escape(c)|..] == rest;
  }

  lemma ControlEscape(c: char)
    requires |R.Escape(c)| == 6
    ensures FourHex(R.Escape(c)[2..6]) == Some(c as nat) && IsScalar(c as nat)
    ensures R.Escape(c)[0] == '\\' && R.Escape(c)[1] == 'u'
  {
    var h := R.Escape(c)[2..6];
    assert h[0] == '0' && h[1] == '0';
    HexReads(c as nat / 16);
    HexReads(c as nat % 16);
  }

  lemma HexReads(n: nat)
    requires n < 16
    ensures HexValue(R.HexDigit(n)) == Some(n)
  {
  }

  lemma StringEnds(rest: string)
    ensures ReadString("\"" + rest) == Some(("", rest)) && R.EscapeAll("") == ""
  {
    assert ("\"" + rest)[1..] == rest;
  }

  lemma {:induction false} TextReads(s: string, rest: string)
    ensures ReadString(R.EscapeAll(s) + ("\"" + rest)) == Some((s, rest))
  {
    hide R.Escape, ReadString;
    var end := "\"" + rest;
    StringEnds(rest);
    if s == "" {
      assert R.EscapeAll(s) + end == end;
    } else {
      EscapeReads(s[0], R.EscapeAll(s[1..]) + end);
      TextReads(s[1..], rest);
      assert R.EscapeAll(s) + end == R.Escape(s[0]) + (R.EscapeAll(s[1..]) + end);
      assert [s[0]] + s[1..] == s;
    }
  }

  lemma QuoteReads(s: string, rest: string)
    ensures ReadValue(R.Quote(s) + rest) == Some((Text(s), rest))
  {
    hide R.EscapeAll;
    var text := R.Quote(s) + rest;
    assert text[1..] == R.EscapeAll(s) + ("\"" + rest);
    TextReads(s, rest);
  }

  // ----- Numbers and flags ------------------------------------------------------------------

  predicate EndsNumber(rest: string) { rest != "" && !IsDigit(rest[0]) }

  lemma DigitReads(n: nat, last: string, rest: string)
    requires last == ["0123456789"[n % 10]]
    ensures ReadDigits(n / 10, last + rest) == ReadDigits(n, rest)
  {
    assert (last + rest)[1..] == rest;
  }

  lemma {:induction false} DigitsRead(n: nat, rest: string)
    ensures R.Digits(n) != "" && IsDigit(R.Digits(n)[0])
    ensures ReadDigits(0, R.Digits(n) + rest) == ReadDigits(n, rest)
  {
    if n < 10 {
      assert (R.Digits(n) + rest)[1..] == rest;
    } else {
      var last: string := ["0123456789"[n % 10]];
      DigitsRead(n / 10, last + rest);
      DigitReads(n, last, rest);
      assert R.Digits(n) + rest == R.Digits(n / 10) + (last + rest);
      hide ReadDigits;
    }
  }

  lemma IntReads(n: int, rest: string)
    requires EndsNumber(rest)
    ensures ReadValue(R.IntText(n) + rest) == Some((Int(n), rest))
  {
    hide R.Digits, ReadDigits;
    var k := if n < 0 then -n else n;
    DigitsRead(k, rest);
    NumberEnds(k, rest);
    var s := R.IntText(n) + rest;
    if n < 0 { assert s[1..] == R.Digits(k) + rest; }
    assert !("true" <= s) && !("false" <= s) && !("null" <= s) by {
      assert "true"[0] == 't' && "false"[0] == 'f' && "null"[0] == 'n';
    }
  }

  lemma NumberEnds(n: nat, rest: string)
    requires EndsNumber(rest)
    ensures ReadDigits(n, rest) == (n, rest)
  {
  }

  lemma FlagReads(b: bool, rest: string)
    ensures ReadValue(R.BoolText(b) + rest) == Some((Bool(b), rest))
  {
    var s := R.BoolText(b) + rest;
    assert s[|R.BoolText(b)|..] == rest;
  }

  // ----- Objects ----------------------------------------------------------------------------

  lemma MemberReads(key: string, text: string, value: Value, after: string)
    requires after != "" && ReadValue(text + after) == Some((value, after))
    ensures ReadMembers(R.Key(key) + text + after) ==
      if after[0] == '}' then Some((map[key := value], after[1..]))
      else if after[0] != ',' then None
      else (
        match ReadMembers(after[1..])
        case None => None
        case Some((others, rest)) => Some((map[key := value] + others, rest)))
  {
    hide ReadValue, ReadString, R.EscapeAll;
    var s := R.Key(key) + text + after;
    assert s[1..] == R.EscapeAll(key) + ("\"" + (":" + text + after));
    TextReads(key, ":" + text + after);
    assert (":" + text + after)[1..] == text + after;
  }

  lemma ObjectReads(text: string, members: Object, rest: string)
    requires text != "" && text[0] == '\"' && ReadMembers(text) == Some((members, rest))
    ensures ReadValue("{" + text) == Some((Dict(members), rest))
  {
    hide ReadMembers;
    assert ("{" + text)[1..] == text;
  }

  // ----- Replies ----------------------------------------------------------------------------

  /** What a caller is told of a command. */
  function ResultObject(r: R.ExecResult): Object {
    var always := map["exit_code" := Int(r.exitCode), "stdout" := Text(r.stdout), "stderr" := Text(r.stderr),
                      "truncated" := Bool(r.truncated)];
    if r.reason.None? then always else always["truncated_reason" := Text(r.reason.value)]
  }

  function ReplyObject(r: R.ExecResult): Object { map["ok" := Bool(true), "result" := Dict(ResultObject(r))] }

  /** A member, once its value reads as `value` and the rest of the object as `others`. */
  lemma KeyReads(name: string, text: string, value: Value, others: Object, more: string, rest: string)
    requires ReadValue(text + ("," + more)) == Some((value, "," + more)) && ReadMembers(more) == Some((others, rest))
    ensures ReadMembers(R.Key(name) + text + ("," + more)) == Some((map[name := value] + others, rest))
  {
    hide ReadValue, ReadMembers;
    MemberReads(name, text, value, "," + more);
    assert ("," + more)[1..] == more;
  }

  lemma LastKeyReads(name: string, text: string, value: Value, rest: string)
    requires ReadValue(text + ("}" + rest)) == Some((value, "}" + rest))
    ensures ReadMembers(R.Key(name) + text + ("}" + rest)) == Some((map[name := value], rest))
  {
    hide ReadValue, ReadMembers;
    MemberReads(name, text, value, "}" + rest);
    assert ("}" + rest)[1..] == rest;
  }

  // The rest of a result from one of its members on, and what follows the result.

  function FromTruncated(r: R.ExecResult, rest: string): string {
    R.Key("truncated") + R.BoolText(r.truncated) + R.ReasonText(r.reason) + ("}" + rest)
  }

  function FromStderr(r: R.ExecResult, rest: string): string {
    R.Key("stderr") + R.Quote(r.stderr) + ("," + FromTruncated(r, rest))
  }

  function FromStdout(r: R.ExecResult, rest: string): string {
    R.Key("stdout") + R.Quote(r.stdout) + ("," + FromStderr(r, rest))
  }

  function FromExitCode(r: R.ExecResult, rest: string): string {
    R.Key("exit_code") + R.IntText(r.exitCode) + ("," + FromStdout(r, rest))
  }

  lemma TruncatedReads(r: R.ExecResult, rest: string)
    ensures ReadMembers(FromTruncated(r, rest)) == Some((
      if r.reason.None? then map["truncated" := Bool(r.truncated)]
      else map["truncated" := Bool(r.truncated)] + map["truncated_reason" := Text(r.reason.value)], rest))
  {
    hide ReadValue, ReadMembers, R.Key, R.BoolText, R.Quote;
    if r.reason.None? {
      FlagReads(r.truncated, "}" + rest);
      LastKeyReads("truncated", R.BoolText(r.truncated), Bool(r.truncated), rest);
      assert R.Key("truncated") + R.BoolText(r.truncated) + "" == R.Key("truncated") + R.BoolText(r.truncated);
    } else {
      var reason := r.reason.value;
      QuoteReads(reason, "}" + rest);
      LastKeyReads("truncated_reason", R.Quote(reason), Text(reason), rest);
      var more := R.Key("truncated_reason") + R.Quote(reason) + ("}" + rest);
      FlagReads(r.truncated, "," + more);
      KeyReads("truncated", R.BoolText(r.truncated), Bool(r.truncated), map["truncated_reason" := Text(reason)], more,
        rest);
      assert FromTruncated(r, rest) == R.Key("truncated") + R.BoolText(r.truncated) + ("," + more);
    }
  }

  lemma StderrReads(r: R.ExecResult, others: Object, rest: string)
    requires ReadMembers(FromTruncated(r, rest)) == Some((others, rest))
    ensures ReadMembers(FromStderr(r, rest)) == Some((map["stderr" := Text(r.stderr)] + others, rest))
  {
    hide ReadValue, ReadMembers, R.Key, R.Quote, FromTruncated;
    QuoteReads(r.stderr, "," + FromTruncated(r, rest));
    KeyReads("stderr", R.Quote(r.stderr), Text(r.stderr), others, FromTruncated(r, rest), rest);
  }

  lemma StdoutReads(r: R.ExecResult, others: Object, rest: string)
    requires ReadMembers(FromStderr(r, rest)) == Some((others, rest))
    ensures ReadMembers(FromStdout(r, rest)) == Some((map["stdout" := Text(r.stdout)] + others, rest))
  {
    hide ReadValue, ReadMembers, R.Key, R.Quote, FromStderr;
    QuoteReads(r.stdout, "," + FromStderr(r, rest));
    KeyReads("stdout", R.Quote(r.stdout), Text(r.stdout), others, FromStderr(r, rest), rest);
  }

  lemma ExitCodeReads(r: R.ExecResult, others: Object, rest: string)
    requires ReadMembers(FromStdout(r, rest)) == Some((others, rest))
    ensures ReadMembers(FromExitCode(r, rest)) == Some((map["exit_code" := Int(r.exitCode)] + others, rest))
  {
    hide ReadValue, ReadMembers, R.Key, R.IntText, FromStdout;
    IntReads(r.exitCode, "," + FromStdout(r, rest));
    KeyReads("exit_code", R.IntText(r.exitCode), Int(r.exitCode), others, FromStdout(r, rest), rest);
  }

  lemma ObjectIs(r: R.ExecResult, last: Object)
    requires last == if r.reason.None? then map["truncated" := Bool(r.truncated)]
      else map["truncated" := Bool(r.truncated)] + map["truncated_reason" := Text(r.reason.value)]
    ensures map["exit_code" := Int(r.exitCode)] + (map["stdout" := Text(r.stdout)]
      + (map["stderr" := Text(r.stderr)] + last)) == ResultObject(r)
  {
  }

  lemma ResultReads(r: R.ExecResult, rest: string)
    ensures ReadMembers(FromExitCode(r, rest)) == Some((ResultObject(r), rest))
  {
    hide ReadMembers, FromTruncated, FromStderr, FromStdout, FromExitCode, ResultObject;
    TruncatedReads(r, rest);
    var o1 := ReadMembers(FromTruncated(r, rest)).value.0;
    var o2 := map["stderr" := Text(r.stderr)] + o1;
    var o3 := map["stdout" := Text(r.stdout)] + o2;
    StderrReads(r, o1, rest);
    StdoutReads(r, o2, rest);
    ExitCodeReads(r, o3, rest);
    assert map["exit_code" := Int(r.exitCode)] + o3 == ResultObject(r) by { ObjectIs(r, o1); }
  }

  /** The members of a result and its closing brace. */
  function Members(r: R.ExecResult): string {
    R.Key("exit_code") + R.IntText(r.exitCode) + "," + (R.Key("stdout") + R.Quote(r.stdout)) + ","
    + (R.Key("stderr") + R.Quote(r.stderr)) + ","
    + (R.Key("truncated") + R.BoolText(r.truncated) + R.ReasonText(r.reason)) + "}"
  }

  lemma MembersAre(r: R.ExecResult, rest: string)
    ensures Members(r) + rest == FromExitCode(r, rest)
  {
    hide R.Key, R.BoolText, R.IntText, R.Quote, R.ReasonText;
    var err, end := R.Key("stderr") + R.Quote(r.stderr) + ",", FromTruncated(r, rest);
    assert FromStderr(r, rest) == err + end;
    assert R.Key("truncated") + R.BoolText(r.truncated) + R.ReasonText(r.reason) + "}" + rest == end;
    hide FromTruncated;
  }

  lemma BeforeIs(r: R.ExecResult)
    ensures R.Before(r) == "{" + R.Key("ok") + R.BoolText(true) + "," + R.Key("result") + "{"
      + (R.Key("exit_code") + R.IntText(r.exitCode) + "," + R.Key("stdout"))
  {
    hide R.Key, R.BoolText, R.IntText;
  }

  lemma JsonTextIs(r: R.ExecResult)
    ensures R.JsonText(R.Exec(r)) ==
      "{" + R.Key("ok") + R.BoolText(true) + "," + R.Key("result") + "{" + Members(r) + "}"
  {
    hide R.Key, R.BoolText, R.IntText, R.Quote, R.ReasonText;
    BeforeIs(r);
    var head, exit := "{" + R.Key("ok") + R.BoolText(true) + "," + R.Key("result") + "{",
      R.Key("exit_code") + R.IntText(r.exitCode) + "," + R.Key("stdout");
    var end := "," + R.Key("truncated") + R.BoolText(r.truncated) + R.ReasonText(r.reason) + "}";
    assert R.After(r) == end + "}";
    assert Members(r) == exit + R.Quote(r.stdout) + R.Between() + R.Quote(r.stderr) + end;
    hide R.Before, R.Between, R.After, Members;
    assert R.JsonText(R.Exec(r)) == head + (exit + R.Quote(r.stdout) + R.Between() + R.Quote(r.stderr) + end) + "}";
  }

  lemma ResultValue(r: R.ExecResult, rest: string)
    ensures ReadValue("{" + Members(r) + rest) == Some((Dict(ResultObject(r)), rest))
  {
    hide ReadMembers, ReadValue, Members, ResultObject;
    ResultReads(r, rest);
    MembersAre(r, rest);
    StartsWithKey(r, rest);
    hide FromExitCode;
    ObjectReads(FromExitCode(r, rest), ResultObject(r), rest);
    assert "{" + Members(r) + rest == "{" + FromExitCode(r, rest);
  }

  lemma StartsWithKey(r: R.ExecResult, rest: string)
    ensures FromExitCode(r, rest) != "" && FromExitCode(r, rest)[0] == '\"'
  {
    hide R.EscapeAll, R.IntText, FromStdout;
  }

  /** What any reply is: an `ok`, and one member more. */
  lemma OkReads(ok: bool, name: string, text: string, value: Value)
    requires name != "ok" && ReadValue(text + "}") == Some((value, "}"))
    ensures Loads("{" + R.Key("ok") + R.BoolText(ok) + "," + R.Key(name) + text + "}")
      == Some(Dict(map["ok" := Bool(ok), name := value]))
  {
    hide ReadMembers, ReadValue, R.BoolText, R.EscapeAll;
    assert "}" + "" == "}";
    LastKeyReads(name, text, value, "");
    var more := R.Key(name) + text + "}";
    FlagReads(ok, "," + more);
    KeyReads("ok", R.BoolText(ok), Bool(ok), map[name := value], more, "");
    var all := R.Key("ok") + R.BoolText(ok) + ("," + more);
    ObjectReads(all, map["ok" := Bool(ok)] + map[name := value], "");
    assert "{" + R.Key("ok") + R.BoolText(ok) + "," + R.Key(name) + text + "}" == "{" + all by { hide R.Key; }
    assert map["ok" := Bool(ok)] + map[name := value] == map["ok" := Bool(ok), name := value];
  }

  /** A reply to a command says what the result of the command is. */
  lemma ReplyReadsBack(r: R.ExecResult)
    ensures Loads(R.JsonText(R.Exec(r))) == Some(Dict(ReplyObject(r)))
  {
    hide Loads, ReadValue, Members, ResultObject, R.JsonText, R.BoolText, R.Key;
    ResultValue(r, "}");
    OkReads(true, "result", "{" + Members(r), Dict(ResultObject(r)));
    JsonTextIs(r);
    var head := "{" + R.Key("ok") + R.BoolText(true) + "," + R.Key("result");
    assert head + "{" + Members(r) + "}" == head + ("{" + Members(r)) + "}";
  }

  /** And an error sent in place of a reply says that there was one. */
  lemma ErrorReadsBack(op: string, size: nat)
    ensures Loads(R.JsonText(R.ErrorReply(op, size))) ==
      Some(Dict(map["ok" := Bool(false), "error" := Text(R.ErrorText(op, size))]))
  {
    hide Loads, ReadValue, R.Quote, R.ErrorText, R.BoolText, R.Key;
    QuoteReads(R.ErrorText(op, size), "}");
    OkReads(false, "error", R.Quote(R.ErrorText(op, size)), Text(R.ErrorText(op, size)));
  }

  // ----- From the wire ----------------------------------------------------------------------

  lemma {:induction false} NoBreakEscaped(s: string)
    ensures '\n' !in R.EscapeAll(s)
  {
    if s != "" { NoBreakEscaped(s[1..]); }
  }

  predicate OneLine(s: string) { '\n' !in s }

  lemma {:induction false} DigitsOneLine(n: nat)
    ensures OneLine(R.Digits(n))
  {
    if n >= 10 { DigitsOneLine(n / 10); }
  }

  lemma PartsOneLine(s: string, n: int, b: bool)
    ensures OneLine(R.Quote(s)) && OneLine(R.Key(s)) && OneLine(R.IntText(n)) && OneLine(R.BoolText(b))
  {
    hide R.EscapeAll, R.Digits;
    NoBreakEscaped(s);
    DigitsOneLine(if n < 0 then -n else n);
  }

  /** Whatever a command wrote, its reply is one line. */
  lemma ReplyIsOneLine(r: R.ExecResult)
    ensures OneLine(R.JsonText(R.Exec(r)))
  {
    hide R.Key, R.Quote, R.IntText, R.BoolText;
    PartsOneLine("ok", r.exitCode, true);
    PartsOneLine("result", 0, r.truncated);
    PartsOneLine("exit_code", 0, true);
    PartsOneLine("stdout", 0, true);
    PartsOneLine("stderr", 0, true);
    PartsOneLine("truncated", 0, true);
    PartsOneLine("truncated_reason", 0, true);
    PartsOneLine(r.stdout, 0, true);
    PartsOneLine(r.stderr, 0, true);
    if r.reason.Some? { PartsOneLine(r.reason.value, 0, true); }
    assert OneLine(R.Before(r)) && OneLine(R.Between()) && OneLine(R.After(r));
    hide R.Before, R.Between, R.After;
  }

  lemma ErrorIsOneLine(op: string, size: nat)
    ensures OneLine(R.JsonText(R.ErrorReply(op, size)))
  {
    hide R.Key, R.Quote, R.BoolText, R.ErrorText;
    PartsOneLine("ok", 0, false);
    PartsOneLine("error", 0, false);
    PartsOneLine(R.ErrorText(op, size), 0, false);
  }

  /** Reading one line of UTF-8 and what follows it. */
  lemma LineIsRead(codec: F.Codec, response: R.Response, members: Object, rest: Bytes)
    requires forall b :: codec.loads(b) == LoadsBytes(b)
    requires OneLine(R.JsonText(response)) && Loads(R.JsonText(response)) == Some(Dict(members))
    requires "body_len" !in members
    ensures F.Next(codec, R.Message(response, []) + rest) == F.Message(members, [], rest)
  {
    hide R.JsonText, Loads, R.Utf8, DecodeUtf8;
    NoBreakInUtf8(R.JsonText(response));
    Utf8Decodes(R.JsonText(response));
    F.NextOfLine(codec, R.Line(response), rest);
    assert R.Message(response, []) + rest == R.Line(response) + [10] + rest;
  }

  /**
   The bytes of a reply to a command, read as the messages of the control service are, are one message that says
   the result: its exit code, the right text of either output, and whether and why they were cut.
   */
  lemma ReplyIsRead(codec: F.Codec, r: R.ExecResult, rest: Bytes)
    requires forall b :: codec.loads(b) == LoadsBytes(b)
    ensures F.Next(codec, R.Message(R.Exec(r), []) + rest) == F.Message(ReplyObject(r), [], rest)
  {
    hide R.JsonText, Loads, F.Next, R.Message, ResultObject, OneLine;
    ReplyReadsBack(r);
    ReplyIsOneLine(r);
    LineIsRead(codec, R.Exec(r), ReplyObject(r), rest);
  }

  /** And so are the bytes of an error sent in place of a reply. */
  lemma ErrorIsRead(codec: F.Codec, op: string, size: nat, rest: Bytes)
    requires forall b :: codec.loads(b) == LoadsBytes(b)
    ensures F.Next(codec, R.Message(R.ErrorReply(op, size), []) + rest)
      == F.Message(map["ok" := Bool(false), "error" := Text(R.ErrorText(op, size))], [], rest)
  {
    hide R.JsonText, Loads, F.Next, R.Message, R.ErrorText, R.ErrorReply, OneLine;
    ErrorReadsBack(op, size);
    ErrorIsOneLine(op, size);
    LineIsRead(codec, R.ErrorReply(op, size), map["ok" := Bool(false), "error" := Text(R.ErrorText(op, size))], rest);
  }
}
