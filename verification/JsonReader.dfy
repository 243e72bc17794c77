/**
 Reading replies back: UTF-8, and JSON text without spaces, lists and fractions, as far as replies need it. Nothing
 here looks at how the text was made.
 */
module JsonReader {
  import opened Common
  import opened Json

  // ----- UTF-8 ------------------------------------------------------------------------------

  predicate IsScalar(n: int) { 0 <= n < 0xD800 || 0xE000 <= n < 0x11_0000 }

  predicate IsMore(b: byte) { 0x80 <= b < 0xC0 }

  /** The number the first character of `b` encodes, and how many bytes it takes. */
  function FirstScalar(b: Bytes): (r: Option<(nat, nat)>)
    requires b != []
    ensures r.Some? ==> IsScalar(r.value.0) && 0 < r.value.1 <= |b|
  {
    var read :=
      if b[0] < 0x80 then Some((b[0] as nat, 1))
      else if 0xC0 <= b[0] < 0xE0 && |b| >= 2 && IsMore(b[1]) then
        Some(((b[0] as nat - 0xC0) * 0x40 + (b[1] as nat - 0x80), 2))
      else if 0xE0 <= b[0] < 0xF0 && |b| >= 3 && IsMore(b[1]) && IsMore(b[2]) then
        Some(((b[0] as nat - 0xE0) * 0x1000 + (b[1] as nat - 0x80) * 0x40 + (b[2] as nat - 0x80), 3))
      else if 0xF0 <= b[0] < 0xF8 && |b| >= 4 && IsMore(b[1]) && IsMore(b[2]) && IsMore(b[3]) then
        Some(((b[0] as nat - 0xF0) * 0x4_0000 + (b[1] as nat - 0x80) * 0x1000 + (b[2] as nat - 0x80) * 0x40
              + (b[3] as nat - 0x80), 4))
      else None;
    if read.Some? && IsScalar(read.value.0) then read else None
  }

  function DecodeUtf8(b: Bytes): Option<string> {
    if b == [] then Some("")
    else
      var first := FirstScalar(b);
      if first.None? then None
      else
        var rest := DecodeUtf8(b[first.value.1..]);
        if rest.None? then None else Some([first.value.0 as char] + rest.value)
  }

  // ----- JSON text --------------------------------------------------------------------------

  function HexValue(c: char): (n: Option<nat>)
    ensures n.Some? ==> n.value < 16
  {
    if '0' <= c <= '9' then Some(c as nat - '0' as nat)
    else if 'a' <= c <= 'f' then Some(c as nat - 'a' as nat + 10)
    else if 'A' <= c <= 'F' then Some(c as nat - 'A' as nat + 10)
    else None
  }

  function FourHex(s: string): Option<nat>
    requires |s| == 4
  {
    var a, b, c, d := HexValue(s[0]), HexValue(s[1]), HexValue(s[2]), HexValue(s[3]);
    if a.None? || b.None? || c.None? || d.None? then None
    else Some(((a.value * 16 + b.value) * 16 + c.value) * 16 + d.value)
  }

  /** The character an escape stands for, and its length. */
  function ReadEscape(s: string): (r: Option<(char, nat)>)
    requires s != "" && s[0] == '\\'
    ensures r.Some? ==> 0 < r.value.1 <= |s|
  {
    if |s| < 2 then None
    else if s[1] == '\"' || s[1] == '\\' || s[1] == '/' then Some((s[1], 2))
    else if s[1] == 'n' then Some(('\n', 2))
    else if s[1] == 'r' then Some(('\r', 2))
    else if s[1] == 't' then Some(('\t', 2))
    else if s[1] == 'b' then Some((8 as char, 2))
    else if s[1] == 'f' then Some((12 as char, 2))
    else if s[1] == 'u' && |s| >= 6 && FourHex(s[2..6]).Some? && IsScalar(FourHex(s[2..6]).value) then
      Some((FourHex(s[2..6]).value as char, 6))
    else None
  }

  /** The first character a string's text says, and its length in the text. */
  function ReadChar(s: string): (r: Option<(char, nat)>)
    requires s != ""
    ensures r.Some? ==> 0 < r.value.1 <= |s|
  {
    if s[0] < ' ' then None else if s[0] == '\\' then ReadEscape(s) else Some((s[0], 1))
  }

  /** The rest of a string whose opening quote has been read, and what follows its closing quote. */
  function ReadString(s: string): (r: Option<(string, string)>)
    ensures r.Some? ==> |r.value.1| < |s|
    decreases |s|
  {
    if s == "" then None
    else if s[0] == '\"' then Some(("", s[1..]))
    else
      var first := ReadChar(s);
      if first.None? then None
      else
        var others := ReadString(s[first.value.1..]);
        if others.None? then None else Some(([first.value.0] + others.value.0, others.value.1))
  }

  predicate IsDigit(c: char) { '0' <= c <= '9' }

  /** The number whose digits so far say `n`, and what follows it. */
  function ReadDigits(n: nat, s: string): (r: (nat, string))
    ensures |r.1| <= |s|
    decreases |s|
  {
    if s == "" || !IsDigit(s[0]) then (n, s) else ReadDigits(10 * n + (s[0] as nat - '0' as nat), s[1..])
  }

  function ReadInt(s: string): (r: Option<(int, string)>)
    ensures r.Some? ==> |r.value.1| < |s|
  {
    if s != "" && IsDigit(s[0]) then Some(ReadDigits(0, s))
    else if |s| > 1 && s[0] == '-' && IsDigit(s[1]) then
      var (n, rest) := ReadDigits(0, s[1..]);
      Some((0 - n as int, rest))
    else None
  }

  function ReadValue(s: string): (r: Option<(Value, string)>)
    ensures r.Some? ==> |r.value.1| < |s|
    decreases |s|, 0
  {
    if s == "" then None
    else if s[0] == '\"' then
      var text := ReadString(s[1..]);
      if text.None? then None else Some((Text(text.value.0), text.value.1))
    else if s[0] == '{' then
      if |s| > 1 && s[1] == '}' then Some((Dict(map[]), s[2..]))
      else
        var members := ReadMembers(s[1..]);
        if members.None? then None else Some((Dict(members.value.0), members.value.1))
    else if "true" <= s then Some((Bool(true), s[4..]))
    else if "false" <= s then Some((Bool(false), s[5..]))
    else if "null" <= s then Some((Null, s[4..]))
    else
      var number := ReadInt(s);
      if number.None? then None else Some((Int(number.value.0), number.value.1))
  }

  /** The members of an object up to its closing brace; of two with the same key the later one counts. */
  function ReadMembers(s: string): (r: Option<(Object, string)>)
    ensures r.Some? ==> |r.value.1| < |s|
    decreases |s|, 1
  {
    if s == "" || s[0] != '\"' then None
    else
      var key := ReadString(s[1..]);
      if key.None? || key.value.1 == "" || key.value.1[0] != ':' then None
      else
        var value := ReadValue(key.value.1[1..]);
        if value.None? || value.value.1 == "" then None
        else
          var member, after := map[key.value.0 := value.value.0], value.value.1;
          if after[0] == '}' then Some((member, after[1..]))
          else if after[0] != ',' then None
          else
            var others := ReadMembers(after[1..]);
            if others.None? then None else Some((member + others.value.0, others.value.1))
  }

  /** The value a whole text says. */
  function Loads(s: string): Option<Value> {
    var value := ReadValue(s);
    if value.Some? && value.value.1 == "" then Some(value.value.0) else None
  }

  /** And what bytes say. */
  function LoadsBytes(b: Bytes): Option<Value> {
    var text := DecodeUtf8(b);
    if text.None? then None else Loads(text.value)
  }
}
