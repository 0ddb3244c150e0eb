/** A reader for canonical JSON text, the partner of the printer. It follows the grammar of
    RFC 8259 without insignificant whitespace. */
module JsonReader {
  import opened Prelude
  import opened Text
  import N = NumberLayout

  /** What JSON text means: objects are key maps and numbers are the decimals they denote. */
  datatype Value =
    | VNull
    | VBool(b: bool)
    | VStr(s: string)
    | VNum(r: real)
    | VArr(vs: seq<Value>)
    | VObj(m: map<string, Value>)

  function HexValue(c: char): Option<nat> {
    if '0' <= c <= '9' then Some(c as int - 48)
    else if 'a' <= c <= 'f' then Some(c as int - 87)
    else if 'A' <= c <= 'F' then Some(c as int - 55)
    else None
  }

  function SimpleEscape(c: char): Option<char> {
    if c == '"' || c == '\\' || c == '/' then Some(c)
    else if c == 'n' then Some('\n')
    else if c == 'r' then Some('\r')
    else if c == 't' then Some('\t')
    else if c == 'f' then Some(12 as char)
    else if c == 'b' then Some(8 as char)
    else None
  }

  /** A four-digit hexadecimal escape of a scalar value. */
  function ReadHex4(s: string): Option<char>
    requires |s| >= 4
  {
    var a :- HexValue(s[0]);
    var b :- HexValue(s[1]);
    var c :- HexValue(s[2]);
    var d :- HexValue(s[3]);
    var n := ((a * 16 + b) * 16 + c) * 16 + d;
    if 0 <= n < 0xD800 || 0xE000 <= n <= 0xFFFF then Some(n as char) else None
  }

  /** One character of a string body and how many text characters spell it. */
  function ReadChar(s: string): (r: Option<(char, nat)>)
    ensures r.Some? ==> 0 < r.value.1 <= |s|
  {
    if s == [] || s[0] == '"' || s[0] as int < 0x20 then None
    else if s[0] != '\\' then Some((s[0], 1))
    else if |s| < 2 then None
    else if s[1] == 'u' then
      if |s| < 6 then None
      else
        var c :- ReadHex4(s[2..6]);
        Some((c, 6))
    else
      var c :- SimpleEscape(s[1]);
      Some((c, 2))
  }

  /** The rest of a string body, up to and past the closing quote. */
  function ReadChars(s: string): (r: Option<(string, string)>)
    ensures r.Some? ==> |r.value.1| < |s|
  {
    if s == [] then None
    else if s[0] == '"' then Some(("", s[1..]))
    else
      var c :- ReadChar(s);
      var more :- ReadChars(s[c.1..]);
      Some(([c.0] + more.0, more.1))
  }

  function ReadString(s: string): (r: Option<(string, string)>)
    ensures r.Some? ==> |r.value.1| < |s|
  {
    if s != [] && s[0] == '"' then ReadChars(s[1..]) else None
  }

  /** The longest run of digits. */
  function Span(s: string): (r: (string, string))
    ensures AllDigits(r.0) && s == r.0 + r.1
    ensures r.1 != [] ==> !IsDigit(r.1[0])
  {
    if s != [] && IsDigit(s[0]) then
      var r := Span(s[1..]);
      assert s == [s[0]] + s[1..];
      ([s[0]] + r.0, r.1)
    else ("", s)
  }

  function ReadFraction(s: string): (r: Option<(string, string)>)
    ensures r.Some? ==> AllDigits(r.value.0) && |r.value.1| <= |s|
  {
    if s != [] && s[0] == '.' then
      var f := Span(s[1..]);
      if f.0 == [] then None else Some(f)
    else Some(("", s))
  }

  function ReadExponent(s: string): (r: Option<(int, string)>)
    ensures r.Some? ==> |r.value.1| <= |s|
  {
    if s != [] && (s[0] == 'e' || s[0] == 'E') then
      var signed := |s| > 1 && (s[1] == '+' || s[1] == '-');
      var e := Span(if signed then s[2..] else s[1..]);
      if e.0 == [] then None
      else
        var magnitude: int := NatValue(e.0);
        Some((if signed && s[1] == '-' then -magnitude else magnitude, e.1))
    else Some((0, s))
  }

  /** Digits without a superfluous leading zero, then an optional fraction and exponent. */
  function ReadUnsigned(s: string): (r: Option<(real, string)>)
    ensures r.Some? ==> |r.value.1| < |s| && IsDigit(s[0])
  {
    var i := Span(s);
    if i.0 == [] || (i.0[0] == '0' && |i.0| > 1) then None
    else
      var f :- ReadFraction(i.1);
      var e :- ReadExponent(f.1);
      Some((N.Denotes(i.0, f.0, e.0), e.1))
  }

  function ReadNumber(s: string): (r: Option<(real, string)>)
    ensures r.Some? ==> |r.value.1| < |s| && (s[0] == '-' || IsDigit(s[0]))
  {
    if s != [] && s[0] == '-' then
      var u :- ReadUnsigned(s[1..]);
      Some((-u.0, u.1))
    else ReadUnsigned(s)
  }

  function ReadWord(s: string, word: string, v: Value): (r: Option<(Value, string)>)
    requires word != []
    ensures r.Some? ==> |r.value.1| < |s|
  {
    if |word| <= |s| && s[..|word|] == word then Some((v, s[|word|..])) else None
  }

  /** Later members win, as in a Python dict. */
  function MapOf(ms: seq<(string, Value)>): map<string, Value> {
    if ms == [] then map[] else MapOf(ms[..|ms| - 1])[ms[|ms| - 1].0 := ms[|ms| - 1].1]
  }

  function Read(s: string): (r: Option<(Value, string)>)
    ensures r.Some? ==> |r.value.1| < |s|
    decreases |s|, 0
  {
    if s == [] then None
    else if s[0] == 'n' then ReadWord(s, "null", VNull)
    else if s[0] == 't' then ReadWord(s, "true", VBool(true))
    else if s[0] == 'f' then ReadWord(s, "false", VBool(false))
    else if s[0] == '"' then
      var t :- ReadString(s);
      Some((VStr(t.0), t.1))
    else if s[0] == '[' then
      if |s| > 1 && s[1] == ']' then Some((VArr([]), s[2..]))
      else
        var vs :- ReadElements(s[1..]);
        Some((VArr(vs.0), vs.1))
    else if s[0] == '{' then
      if |s| > 1 && s[1] == '}' then Some((VObj(map[]), s[2..]))
      else
        var ms :- ReadMembers(s[1..]);
        Some((VObj(MapOf(ms.0)), ms.1))
    else
      var n :- ReadNumber(s);
      Some((VNum(n.0), n.1))
  }

  function ReadElements(s: string): (r: Option<(seq<Value>, string)>)
    ensures r.Some? ==> |r.value.1| < |s|
    decreases |s|, 1
  {
    var v :- Read(s);
    if v.1 == [] then None
    else if v.1[0] == ']' then Some(([v.0], v.1[1..]))
    else if v.1[0] == ',' then
      var more :- ReadElements(v.1[1..]);
      Some(([v.0] + more.0, more.1))
    else None
  }

  function ReadMembers(s: string): (r: Option<(seq<(string, Value)>, string)>)
    ensures r.Some? ==> |r.value.1| < |s|
    decreases |s|, 1
  {
    var k :- ReadString(s);
    if k.1 == [] || k.1[0] != ':' then None
    else
      var v :- Read(k.1[1..]);
      if v.1 == [] then None
      else if v.1[0] == '}' then Some(([(k.0, v.0)], v.1[1..]))
      else if v.1[0] == ',' then
        var more :- ReadMembers(v.1[1..]);
        Some(([(k.0, v.0)] + more.0, more.1))
      else None
  }

  function ReadAll(s: string): Option<Value> {
    var r :- Read(s);
    if r.1 == [] then Some(r.0) else None
  }
}
