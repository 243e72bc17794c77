/**
 Replies of the control service. The output of a command travels inside the JSON header, which has
 a size limit, so output that is too long is cut until the header fits.
 */
module ControlReply {
  import opened Common

  const MAX_HEADER := 64 * 1024
  const NEWLINE: byte := 0x0A

  // ----- JSON text --------------------------------------------------------------------------

  function HexDigit(n: nat): char
    requires n < 16
  {
    "0123456789abcdef"[n]
  }

  /** One character inside a JSON string. */
  function Escape(c: char): (text: string)
    ensures |text| <= 6 && (|text| > 1 ==> forall d :: d in text ==> d < 128 as char)
  {
    if c == '\"' then "\\\""
    else if c == '\\' then "\\\\"
    else if c == '\n' then "\\n"
    else if c == '\r' then "\\r"
    else if c == '\t' then "\\t"
    else if c == 8 as char then "\\b"
    else if c == 12 as char then "\\f"
    else if c < ' ' then "\\u00" + [HexDigit(c as int / 16), HexDigit(c as int % 16)]
    else [c]
  }

  function EscapeAll(s: string): string {
    if s == "" then "" else Escape(s[0]) + EscapeAll(s[1..])
  }

  function Quote(s: string): string { "\"" + EscapeAll(s) + "\"" }

  function Digits(n: nat): string {
    if n < 10 then ["0123456789"[n]] else Digits(n / 10) + ["0123456789"[n % 10]]
  }

  function IntText(n: int): string { if n < 0 then "-" + Digits(-n) else Digits(n) }

  function Utf8Char(c: char): (b: Bytes)
    ensures 1 <= |b| <= 4 && (c < 128 as char ==> |b| == 1)
  {
    var n := c as int;
    if n < 0x80 then [n]
    else if n < 0x800 then [0xC0 + n / 0x40, 0x80 + n % 0x40]
    else if n < 0x1_0000 then [0xE0 + n / 0x1000, 0x80 + n / 0x40 % 0x40, 0x80 + n % 0x40]
    else [0xF0 + n / 0x4_0000, 0x80 + n / 0x1000 % 0x40, 0x80 + n / 0x40 % 0x40, 0x80 + n % 0x40]
  }

  function Utf8(s: string): (b: Bytes)
    ensures |s| <= |b| <= 4 * |s|
  {
    if s == "" then [] else Utf8Char(s[0]) + Utf8(s[1..])
  }

  lemma {:induction false} Utf8Append(a: string, b: string)
    ensures Utf8(a + b) == Utf8(a) + Utf8(b)
  {
    if a == "" {
      assert a + b == b;
    } else {
      assert (a + b)[1..] == a[1..] + b;
      Utf8Append(a[1..], b);
    }
  }

  lemma {:induction false} Utf8OfAscii(s: string)
    requires forall c :: c in s ==> c < 128 as char
    ensures |Utf8(s)| == |s|
  {
    if s != "" {
      assert s[0] in s;
      assert forall c :: c in s[1..] ==> c in s;
      Utf8OfAscii(s[1..]);
    }
  }

  /** The bytes a text takes inside a JSON string. */
  function TextSize(s: string): nat { |Utf8(EscapeAll(s))| }

  /** A character costs from 1 to 6 bytes. */
  lemma CharSize(c: char)
    ensures 1 <= |Utf8(Escape(c))| <= 6
  {
    if |Escape(c)| > 1 {
      Utf8OfAscii(Escape(c));
    } else {
      assert Utf8(Escape(c)) == Utf8Char(Escape(c)[0]) + Utf8(Escape(c)[1..]);
    }
  }

  lemma {:induction false} TextSizeBounds(s: string)
    ensures |s| <= TextSize(s) <= 6 * |s|
  {
    if s != "" {
      CharSize(s[0]);
      Utf8Append(Escape(s[0]), EscapeAll(s[1..]));
      TextSizeBounds(s[1..]);
    }
  }

  /** Dropping characters from the front never makes a text larger. */
  lemma {:induction false} SuffixIsSmaller(s: string, from: nat)
    requires from <= |s|
    ensures TextSize(s[from..]) <= TextSize(s)
  {
    if from == 0 {
      assert s[0..] == s;
    } else {
      SuffixIsSmaller(s[1..], from - 1);
      assert s[from..] == s[1..][from - 1..];
      Utf8Append(Escape(s[0]), EscapeAll(s[1..]));
    }
  }

  lemma {:induction false} DigitsBound(n: nat, k: nat)
    requires k > 0 && n < Power10(k)
    ensures |Digits(n)| <= k
  {
    if n >= 10 { DigitsBound(n / 10, k - 1); }
  }

  function Power10(k: nat): nat { if k == 0 then 1 else 10 * Power10(k - 1) }

  // ----- Replies ----------------------------------------------------------------------------

  datatype ExecResult = ExecResult(exitCode: int, stdout: string, stderr: string, truncated: bool,
                                     reason: Option<string>)

  /** The result of a command, or any other response as its header text. */
  datatype Response = Exec(result: ExecResult) | Other(text: string)

  const REASON := "output exceeded the 65536-byte response header limit; only the last "
    + "part is returned. Redirect output to a file and fetch it with /v1/file."

  function BoolText(b: bool): string { if b then "true" else "false" }

  /** The name of a member of an object. */
  function Key(name: string): string { Quote(name) + ":" }

  function ReasonText(reason: Option<string>): string {
    if reason.None? then "" else "," + Key("truncated_reason") + Quote(reason.value)
  }

  /** What comes before, between and after the two outputs. */
  function Before(r: ExecResult): string {
    "{" + Key("ok") + BoolText(true) + "," + Key("result") + "{" + Key("exit_code") + IntText(r.exitCode) + ","
    + Key("stdout")
  }

  function Between(): string { "," + Key("stderr") }

  function After(r: ExecResult): string {
    "," + Key("truncated") + BoolText(r.truncated) + ReasonText(r.reason) + "}" + "}"
  }

  function JsonText(response: Response): string {
    match response
    case Exec(r) => Before(r) + Quote(r.stdout) + Between() + Quote(r.stderr) + After(r)
    case Other(text) => text
  }

  function Line(response: Response): Bytes { Utf8(JsonText(response)) }

  predicate Fits(response: Response) { |Line(response)| <= MAX_HEADER }

  /** A reply on the wire: the body follows the line. */
  function Message(response: Response, body: Bytes): Bytes { Line(response) + [NEWLINE] + body }

  function ErrorText(op: string, size: nat): string {
    op + " response header is " + IntText(size)
    + " bytes, over the 65536-byte JSON header limit; send large data as a message body instead "
    + "(for files, use /v1/file)"
  }

  /** The error sent in place of a reply that does not fit. */
  function ErrorReply(op: string, size: nat): Response {
    Other("{" + Key("ok") + BoolText(false) + "," + Key("error") + Quote(ErrorText(op, size)) + "}")
  }

  function Tail(s: string, n: nat): (t: string)
    ensures |t| == Min(|s|, n) && t == s[|s| - |t|..]
  {
    if |s| > n then s[|s| - n..] else s
  }

  function Trimmed(r: ExecResult, budget: nat): ExecResult {
    r.(stdout := Tail(r.stdout, budget / 2), stderr := Tail(r.stderr, budget / 2), truncated := true,
      reason := Some(REASON))
  }

  /** The header of a trimmed result fits at this budget. */
  predicate FitsAt(r: ExecResult, budget: nat) { Fits(Exec(Trimmed(r, budget))) }

  /** The budgets tried, in order: 32768, half of that, and so on, down to 256. */
  predicate IsBudget(budget: nat) {
    budget in {32768, 16384, 8192, 4096, 2048, 1024, 512, 256}
  }

  /** A header is its fixed parts and its two outputs, each at its size in JSON. */
  lemma SizeOfExec(r: ExecResult)
    ensures |Line(Exec(r))| ==
      |Utf8(Before(r))| + |Utf8(Between())| + |Utf8(After(r))| + 4 + TextSize(r.stdout) + TextSize(r.stderr)
  {
    hide Before, After, Between, EscapeAll;
    SizeOfQuote(r.stdout);
    SizeOfQuote(r.stderr);
    var a := Before(r) + Quote(r.stdout);
    Utf8Append(Before(r), Quote(r.stdout));
    Utf8Append(a, Between());
    Utf8Append(a + Between(), Quote(r.stderr));
    Utf8Append(a + Between() + Quote(r.stderr), After(r));
  }

  lemma SizeOfQuote(s: string)
    ensures |Utf8(Quote(s))| == 2 + TextSize(s)
  {
    hide EscapeAll;
    Utf8Append("\"" + EscapeAll(s), "\"");
    Utf8Append("\"", EscapeAll(s));
    Utf8OfAscii("\"");
  }

  /** A larger budget never makes the header smaller. */
  lemma TrimmingIsMonotone(r: ExecResult, small: nat, large: nat)
    requires small <= large && FitsAt(r, large)
    ensures FitsAt(r, small)
  {
    hide Line, Utf8, EscapeAll, Before, After;
    SizeOfExec(Trimmed(r, small));
    SizeOfExec(Trimmed(r, large));
    SameParts(Trimmed(r, small), Trimmed(r, large));
    TailShrinks(r.stdout, small / 2, large / 2);
    TailShrinks(r.stderr, small / 2, large / 2);
  }

  lemma SameParts(a: ExecResult, b: ExecResult)
    requires a.exitCode == b.exitCode && a.truncated == b.truncated && a.reason == b.reason
    ensures Before(a) == Before(b) && After(a) == After(b)
  {
  }

  lemma TailShrinks(s: string, small: nat, large: nat)
    requires small <= large
    ensures TextSize(Tail(s, small)) <= TextSize(Tail(s, large))
  {
    hide TextSize;
    var t := Tail(s, large);
    SuffixIsSmaller(t, |t| - |Tail(s, small)|);
    assert t[|t| - |Tail(s, small)|..] == Tail(s, small);
  }

  /** The first budget, halved from 32768 on, at which the header fits. */
  predicate IsFirstFit(r: ExecResult, budget: nat) {
    IsBudget(budget) && FitsAt(r, budget) && (budget < 32768 ==> !FitsAt(r, 2 * budget))
  }

  /** The bytes of a reply; a failure is an error that does not fit itself. */
  method EncodeResponse(op: string, response: Response, payload: Bytes) returns (r: Result<Bytes, nat>)
    requires response.Exec? ==> op == "exec" && payload == []
    ensures |Line(response)| <= 65536 ==> r == Success(Message(response, payload))
    // the output of a command is cut at the first budget that fits, if any does
    ensures |Line(response)| > 65536 && response.Exec? && FitsAt(response.result, 256) ==>
      exists b: nat :: IsFirstFit(response.result, b) && r == Success(Message(Exec(Trimmed(response.result, b)), []))
    // anything else becomes an error, if that fits
    ensures |Line(response)| > 65536 && !(response.Exec? && FitsAt(response.result, 256)) ==>
      var error := ErrorReply(op, |Line(response)|);
      r == if |Line(error)| <= 65536 then Success(Message(error, [])) else Failure(|Line(error)|)
  {
    hide Line, Trimmed, ErrorReply;
    var line := Line(response);
    if |line| <= MAX_HEADER { return Success(line + [NEWLINE] + payload); }
    if response.Exec? {
      var b: nat := MAX_HEADER / 2;
      while b >= 256
        invariant IsBudget(b) || b == 128
        invariant b < 32768 ==> !FitsAt(response.result, 2 * b)
      {
        var trimmed := Line(Exec(Trimmed(response.result, b)));
        if |trimmed| <= MAX_HEADER {
          TrimmingIsMonotone(response.result, 256, b);
          assert IsFirstFit(response.result, b);
          return Success(trimmed + [NEWLINE] + payload);
        }
        b := b / 2;
      }
    }
    var error := Line(ErrorReply(op, |line|));
    r := if |error| <= MAX_HEADER then Success(error + [NEWLINE] + []) else Failure(|error|);
  }

  /** An exit status as an operating system has it. */
  predicate IsExitCode(code: int) { -0x8000_0000 <= code <= 0xFFFF_FFFF }

  /**
   The outcome of a command is never replaced by an error: whatever it wrote, and however much of
   it needs escapes, its header fits at the third budget at the latest.
   */
  lemma ExecAlwaysFits(r: ExecResult)
    requires IsExitCode(r.exitCode)
    ensures FitsAt(r, 8192)
  {
    hide Utf8, EscapeAll, Escape;
    var t := Trimmed(r, 8192);
    SizeOfExec(t);
    TextSizeBounds(t.stdout);
    TextSizeBounds(t.stderr);
    ExitCodeIsShort(r.exitCode);
    FixedPartsAreSmall(t);
  }

  lemma ExitCodeIsShort(code: int)
    requires IsExitCode(code)
    ensures |IntText(code)| <= 11
  {
    assert Power10(10) == 10_000_000_000;
    DigitsBound(if code < 0 then -code else code, 10);
  }

  lemma KeyLength(name: string)
    ensures |Key(name)| <= 6 * |name| + 3
  {
    hide EscapeAll;
    EscapedLength(name);
  }

  lemma ReasonLength()
    ensures |ReasonText(Some(REASON))| <= 1500
  {
    hide EscapeAll, Key;
    KeyLength("truncated_reason");
    EscapedLength(REASON);
    assert |REASON| <= 200;
  }

  lemma FixedPartsAreSmall(t: ExecResult)
    requires |IntText(t.exitCode)| <= 11 && t.reason == Some(REASON)
    ensures |Utf8(Before(t))| + |Utf8(Between())| + |Utf8(After(t))| <= 16000
  {
    hide Utf8, EscapeAll, IntText, Key, ReasonText;
    KeyLength("ok");
    KeyLength("result");
    KeyLength("exit_code");
    KeyLength("stdout");
    KeyLength("stderr");
    KeyLength("truncated");
    ReasonLength();
  }

  lemma {:induction false} EscapedLength(s: string)
    ensures |EscapeAll(s)| <= 6 * |s|
  {
    if s != "" { EscapedLength(s[1..]); }
  }

  /** What a reply keeps of the result of a command: at least the last 4096 characters of either output. */
  predicate Keeps(sent: ExecResult, result: ExecResult) {
    && sent.exitCode == result.exitCode
    && |sent.stdout| <= |result.stdout| && sent.stdout == result.stdout[|result.stdout| - |sent.stdout|..]
    && |sent.stderr| <= |result.stderr| && sent.stderr == result.stderr[|result.stderr| - |sent.stderr|..]
    && |sent.stdout| >= Min(|result.stdout|, 4096) && |sent.stderr| >= Min(|result.stderr|, 4096)
  }

  lemma TrimmedKeeps(result: ExecResult, budget: nat)
    requires budget >= 8192
    ensures Keeps(Trimmed(result, budget), result)
  {
    assert budget / 2 >= 4096;
  }

  lemma FirstFitKeeps(result: ExecResult, budget: nat)
    requires IsExitCode(result.exitCode) && IsFirstFit(result, budget)
    ensures budget >= 8192 && Keeps(Trimmed(result, budget), result)
  {
    hide FitsAt, Keeps, IsExitCode;
    ExecAlwaysFits(result);
    if budget < 8192 { TrimmingIsMonotone(result, 2 * budget, 8192); }
    TrimmedKeeps(result, budget);
  }

  /** So the outcome of a command is always sent: whole if that fits, and otherwise marked as cut. */
  method ReplyToExec(result: ExecResult) returns (r: Result<Bytes, nat>)
    requires IsExitCode(result.exitCode)
    ensures |Line(Exec(result))| <= 65536 ==> r == Success(Message(Exec(result), []))
    ensures |Line(Exec(result))| > 65536 ==>
      exists sent :: Keeps(sent, result) && sent.truncated && sent.reason == Some(REASON) && |Line(Exec(sent))| <= 65536
        && r == Success(Message(Exec(sent), []))
  {
    hide Line, Keeps;
    ExecAlwaysFits(result);
    TrimmingIsMonotone(result, 256, 8192);
    r := EncodeResponse("exec", Exec(result), []);
    if !Fits(Exec(result)) {
      ghost var b: nat :| IsFirstFit(result, b) && r == Success(Message(Exec(Trimmed(result, b)), []));
      FirstFitKeeps(result, b);
      assert Keeps(Trimmed(result, b), result);
    }
  }
}
