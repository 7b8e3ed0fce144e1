/** JSON values and CPython's `json.loads` on a `str`, as the C scanner
    implements it with the default options: strict strings (no raw control
    characters), the NaN and Infinity constants, whitespace limited to
    space, tab, newline and carriage return, a leading byte-order mark
    refused, and nothing but whitespace allowed after the value. */
module Json {
  import opened Wrappers
  import opened Strings

  /** A decoded value. Numbers keep their literal text; an object keeps
      its members in document order, duplicates included (a Python dict
      keeps the last value under each key, see `Get`). */
  datatype JValue =
    | JNull
    | JBool(b: bool)
    | JNumber(literal: string)
    | JString(s: string)
    | JArray(items: seq<JValue>)
    | JObject(members: seq<(string, JValue)>)

  /** Why `Loads` gives no value: the text is not JSON (JSONDecodeError),
      or it is, but a `\u` escape leaves a lone surrogate, which Python
      keeps in its string and a Dafny string cannot hold. */
  datatype DecodeError = Malformed | LoneSurrogate

  /** A value read off the front of the text, the text after it, and
      whether a lone surrogate was decoded on the way (which stands in the
      value as U+FFFD). */
  datatype Parsed<T> = Parsed(value: T, rest: string, lone: bool)

  const REPLACEMENT: char := '\U{FFFD}'
  const BOM: char := '\U{FEFF}'

  predicate IsWs(c: char) {
    c == ' ' || c == '\t' || c == '\n' || c == '\r'
  }

  function SkipWs(s: string): (r: string)
    ensures |r| <= |s| && r == s[|s| - |r|..]
    ensures r == [] || !IsWs(r[0])
    decreases |s|
  {
    if s != [] && IsWs(s[0]) then SkipWs(s[1..]) else s
  }

  predicate IsDigit(c: char) {
    '0' <= c <= '9'
  }

  /** The number of ASCII digits at the front of `s`. */
  function DigitRun(s: string): (n: nat)
    ensures n <= |s|
    ensures forall i :: 0 <= i < n ==> IsDigit(s[i])
    ensures n == |s| || !IsDigit(s[n])
  {
    if s != [] && IsDigit(s[0]) then 1 + DigitRun(s[1..]) else 0
  }

  /** The length of the number literal at the front of `s`, 0 if there is
      none: `-?(0|[1-9][0-9]*)`, then a fraction only when a digit follows
      the point, then an exponent only when a digit follows the `e` and its
      optional sign (otherwise the scanner backs off to before the `e`). */
  function NumberEnd(s: string): (n: nat)
    ensures n <= |s|
  {
    var i := if s != [] && s[0] == '-' then 1 else 0;
    if i >= |s| then 0
    else
      var j := if '1' <= s[i] <= '9' then i + 1 + DigitRun(s[i + 1..])
               else if s[i] == '0' then i + 1
               else 0;
      if j == 0 then 0
      else
        var f := if j + 1 < |s| && s[j] == '.' && IsDigit(s[j + 1]) then j + 2 + DigitRun(s[j + 2..]) else j;
        if f + 1 < |s| && (s[f] == 'e' || s[f] == 'E') then
          var k := if s[f + 1] == '-' || s[f + 1] == '+' then f + 2 else f + 1;
          var d := DigitRun(s[k..]);
          if d > 0 then k + d else f
        else f
  }

  /** The value of a hexadecimal digit in either case, -1 for any other
      character. */
  function HexValue(c: char): (v: int)
    ensures -1 <= v < 16
    ensures v >= 0 <==> IsDigit(c) || 'a' <= c <= 'f' || 'A' <= c <= 'F'
  {
    if '0' <= c <= '9' then c as int - '0' as int
    else if 'a' <= c <= 'f' then c as int - 'a' as int + 10
    else if 'A' <= c <= 'F' then c as int - 'A' as int + 10
    else -1
  }

  predicate IsHex4(s: string) {
    |s| == 4 && forall i :: 0 <= i < 4 ==> HexValue(s[i]) >= 0
  }

  function Hex4Value(s: string): (n: nat)
    requires IsHex4(s)
    ensures n < 0x10000
  {
    HexValue(s[0]) * 0x1000 + HexValue(s[1]) * 0x100 + HexValue(s[2]) * 0x10 + HexValue(s[3])
  }

  predicate IsHighSurrogate(n: int) { 0xD800 <= n <= 0xDBFF }
  predicate IsLowSurrogate(n: int) { 0xDC00 <= n <= 0xDFFF }

  /** The escape after a backslash inside a string. `\uXXXX` for a high
      surrogate is joined with an immediately following `\uXXXX` low
      surrogate provided at least one more character follows the pair; a
      surrogate left unpaired is decoded as is (here: flagged). */
  function ParseEscape(s: string): (r: Option<Parsed<string>>)
    ensures r.Some? ==> |r.value.rest| < |s|
  {
    if s == [] then None
    else if s[0] == 'u' then
      if |s| < 6 || !IsHex4(s[1..5]) then None
      else
        var c := Hex4Value(s[1..5]);
        var t := s[5..];
        if IsHighSurrogate(c) && |t| >= 7 && t[0] == '\\' && t[1] == 'u' then
          if !IsHex4(t[2..6]) then None
          else
            var c2 := Hex4Value(t[2..6]);
            if IsLowSurrogate(c2) then
              Some(Parsed([(0x10000 + (c - 0xD800) * 0x400 + (c2 - 0xDC00)) as char], t[6..], false))
            else Some(Parsed([REPLACEMENT], t, true))
        else if IsHighSurrogate(c) || IsLowSurrogate(c) then Some(Parsed([REPLACEMENT], t, true))
        else Some(Parsed([c as char], t, false))
    else if s[0] == '"' || s[0] == '\\' || s[0] == '/' then Some(Parsed([s[0]], s[1..], false))
    else if s[0] == 'b' then Some(Parsed(['\U{8}'], s[1..], false))
    else if s[0] == 'f' then Some(Parsed(['\U{C}'], s[1..], false))
    else if s[0] == 'n' then Some(Parsed(['\n'], s[1..], false))
    else if s[0] == 'r' then Some(Parsed(['\r'], s[1..], false))
    else if s[0] == 't' then Some(Parsed(['\t'], s[1..], false))
    else None
  }

  /** The surrogate-pair branch of `ParseEscape`, unfolded. */
  lemma ParseEscapePair(u: string)
    requires |u| >= 6 && u[0] == 'u' && IsHex4(u[1..5]) && IsHighSurrogate(Hex4Value(u[1..5]))
    requires var t := u[5..]; |t| >= 7 && t[0] == '\\' && t[1] == 'u' && IsHex4(t[2..6]) && IsLowSurrogate(Hex4Value(t[2..6]))
    ensures var t := u[5..];
            var hi, lo := Hex4Value(u[1..5]), Hex4Value(t[2..6]);
            ParseEscape(u) == Some(Parsed([(0x10000 + (hi - 0xD800) * 0x400 + (lo - 0xDC00)) as char], t[6..], false))
  {
  }

  /** The rest of a string after its opening quote, up to and including the
      closing quote. */
  function ParseStringBody(s: string): (r: Option<Parsed<string>>)
    ensures r.Some? ==> |r.value.rest| < |s|
    decreases |s|
  {
    if s == [] then None
    else if s[0] == '"' then Some(Parsed([], s[1..], false))
    else if s[0] == '\\' then
      match ParseEscape(s[1..])
      case None => None
      case Some(e) =>
        match ParseStringBody(e.rest)
        case None => None
        case Some(p) => Some(Parsed(e.value + p.value, p.rest, e.lone || p.lone))
    else if s[0] < ' ' then None
    else
      match ParseStringBody(s[1..])
      case None => None
      case Some(p) => Some(Parsed([s[0]] + p.value, p.rest, p.lone))
  }

  /** One value at the very front of `s` (no whitespace skipped). */
  function ParseValue(s: string): (r: Option<Parsed<JValue>>)
    ensures r.Some? ==> |r.value.rest| < |s|
    decreases |s|, 0
  {
    if s == [] then None
    else if s[0] == '"' then
      match ParseStringBody(s[1..])
      case None => None
      case Some(p) => Some(Parsed(JString(p.value), p.rest, p.lone))
    else if s[0] == '{' then ParseObject(s[1..])
    else if s[0] == '[' then ParseArray(s[1..])
    else if StartsWith(s, "null") then Some(Parsed(JNull, s[4..], false))
    else if StartsWith(s, "true") then Some(Parsed(JBool(true), s[4..], false))
    else if StartsWith(s, "false") then Some(Parsed(JBool(false), s[5..], false))
    else if StartsWith(s, "NaN") then Some(Parsed(JNumber("NaN"), s[3..], false))
    else if StartsWith(s, "Infinity") then Some(Parsed(JNumber("Infinity"), s[8..], false))
    else if StartsWith(s, "-Infinity") then Some(Parsed(JNumber("-Infinity"), s[9..], false))
    else
      var n := NumberEnd(s);
      if n == 0 then None else Some(Parsed(JNumber(s[..n]), s[n..], false))
  }

  /** An array after its `[`. */
  function ParseArray(s: string): (r: Option<Parsed<JValue>>)
    ensures r.Some? ==> |r.value.rest| < |s|
    decreases |s|, 2
  {
    var t := SkipWs(s);
    if t != [] && t[0] == ']' then Some(Parsed(JArray([]), t[1..], false))
    else
      match ParseElements(t)
      case None => None
      case Some(p) => Some(Parsed(JArray(p.value), p.rest, p.lone))
  }

  /** The elements of a non-empty array and its closing `]`. */
  function ParseElements(s: string): (r: Option<Parsed<seq<JValue>>>)
    ensures r.Some? ==> |r.value.rest| < |s|
    decreases |s|, 1
  {
    match ParseValue(s)
    case None => None
    case Some(v) =>
      var c := SkipWs(v.rest);
      if c != [] && c[0] == ']' then Some(Parsed([v.value], c[1..], v.lone))
      else if c == [] || c[0] != ',' then None
      else
        match ParseElements(SkipWs(c[1..]))
        case None => None
        case Some(m) => Some(Parsed([v.value] + m.value, m.rest, v.lone || m.lone))
  }

  /** An object after its `{`. */
  function ParseObject(s: string): (r: Option<Parsed<JValue>>)
    ensures r.Some? ==> |r.value.rest| < |s|
    decreases |s|, 3
  {
    var t := SkipWs(s);
    if t != [] && t[0] == '}' then Some(Parsed(JObject([]), t[1..], false))
    else
      match ParseMembers(t)
      case None => None
      case Some(p) => Some(Parsed(JObject(p.value), p.rest, p.lone))
  }

  /** One member: a quoted key, `:` and a value, with the whitespace after
      the `:` and after the value skipped. */
  function ParseMember(s: string): (r: Option<Parsed<(string, JValue)>>)
    ensures r.Some? ==> |r.value.rest| < |s|
    decreases |s|, 1
  {
    if s == [] || s[0] != '"' then None
    else
      match ParseStringBody(s[1..])
      case None => None
      case Some(k) =>
        var a := SkipWs(k.rest);
        if a == [] || a[0] != ':' then None
        else
          match ParseValue(SkipWs(a[1..]))
          case None => None
          case Some(v) => Some(Parsed((k.value, v.value), SkipWs(v.rest), k.lone || v.lone))
  }

  /** The members of a non-empty object and its closing `}`: a member,
      then `}` or `,` and the next member. */
  function ParseMembers(s: string): (r: Option<Parsed<seq<(string, JValue)>>>)
    ensures r.Some? ==> |r.value.rest| < |s|
    decreases |s|, 2
  {
    match ParseMember(s)
    case None => None
    case Some(m) =>
      var c := m.rest;
      if c != [] && c[0] == '}' then Some(Parsed([m.value], c[1..], m.lone))
      else if c == [] || c[0] != ',' then None
      else
        match ParseMembers(SkipWs(c[1..]))
        case None => None
        case Some(more) => Some(Parsed([m.value] + more.value, more.rest, m.lone || more.lone))
  }

  lemma SkipWsAt(s: string)
    requires s != [] && !IsWs(s[0])
    ensures SkipWs(s) == s
  {
  }

  /** `ParseMember` given what the key and the value parse to. */
  lemma ParseMemberStep(s: string, key: string, a: string, v: JValue, c: string)
    requires s != [] && s[0] == '"'
    requires ParseStringBody(s[1..]) == Some(Parsed(key, a, false))
    requires a != [] && a[0] == ':'
    requires ParseValue(SkipWs(a[1..])) == Some(Parsed(v, c, false))
    requires c != [] && !IsWs(c[0])
    ensures ParseMember(s) == Some(Parsed((key, v), c, false))
  {
    SkipWsAt(a);
    SkipWsAt(c);
    var k := ParseStringBody(s[1..]).value;
    assert k.rest == a && SkipWs(k.rest) == a;
    var w := ParseValue(SkipWs(a[1..])).value;
    assert w.value == v && w.rest == c && SkipWs(w.rest) == c;
    assert !(k.lone || w.lone);
  }

  lemma ParseMembersLast(s: string, m: (string, JValue), c: string)
    requires ParseMember(s) == Some(Parsed(m, c, false))
    requires c != [] && c[0] == '}'
    ensures ParseMembers(s) == Some(Parsed([m], c[1..], false))
  {
  }

  lemma ParseMembersMore(s: string, m: (string, JValue), c: string, more: seq<(string, JValue)>, t: string)
    requires ParseMember(s) == Some(Parsed(m, c, false))
    requires c != [] && c[0] == ','
    requires ParseMembers(SkipWs(c[1..])) == Some(Parsed(more, t, false))
    ensures ParseMembers(s) == Some(Parsed([m] + more, t, false))
  {
  }

  /** `json.loads(s)`. */
  function Loads(s: string): Result<JValue, DecodeError> {
    if s != [] && s[0] == BOM then Failure(Malformed)
    else
      match ParseValue(SkipWs(s))
      case None => Failure(Malformed)
      case Some(p) =>
        if SkipWs(p.rest) != [] then Failure(Malformed)
        else if p.lone then Failure(LoneSurrogate)
        else Success(p.value)
  }

  /** `ParseValue` on an object whose members start right after the `{`. */
  lemma ParseValueObject(s: string, members: seq<(string, JValue)>, t: string)
    requires s != [] && s[0] == '"'
    requires ParseMembers(s) == Some(Parsed(members, t, false))
    ensures ParseValue("{" + s) == Some(Parsed(JObject(members), t, false))
  {
    assert ("{" + s)[1..] == s;
    SkipWsAt(s);
  }

  /** `Loads` on a text that is one value and nothing else. */
  lemma LoadsWhole(s: string, v: JValue)
    requires s != [] && !IsWs(s[0]) && s[0] != BOM
    requires ParseValue(s) == Some(Parsed(v, "", false))
    ensures Loads(s) == Success(v)
  {
    SkipWsAt(s);
  }

  /** `d.get(key)` on the dict an object decodes to: the value of the last
      member with that key. */
  function Get(members: seq<(string, JValue)>, key: string): (r: Option<JValue>)
    ensures r.Some? <==> exists i :: 0 <= i < |members| && members[i].0 == key
    ensures r.Some? ==>
              exists i :: 0 <= i < |members| && members[i] == (key, r.value) &&
                forall j :: i < j < |members| ==> members[j].0 != key
    decreases |members|
  {
    if members == [] then None
    else if members[|members| - 1].0 == key then Some(members[|members| - 1].1)
    else Get(members[..|members| - 1], key)
  }

  /** The characters a value can start with. */
  predicate CanStartValue(c: char) {
    || c == '"' || c == '{' || c == '[' || c == '-' || IsDigit(c)
    || c == 'n' || c == 't' || c == 'f' || c == 'N' || c == 'I'
  }

  lemma StartsWithHead(s: string, prefix: string)
    requires prefix != [] && StartsWith(s, prefix)
    ensures s[0] == prefix[0]
  {
    assert s[0] == s[..|prefix|][0];
  }

  lemma ParseValueNeedsStart(s: string)
    requires s == [] || !CanStartValue(s[0])
    ensures ParseValue(s) == None
  {
    if s != [] {
      if StartsWith(s, "null") { StartsWithHead(s, "null"); }
      if StartsWith(s, "true") { StartsWithHead(s, "true"); }
      if StartsWith(s, "false") { StartsWithHead(s, "false"); }
      if StartsWith(s, "NaN") { StartsWithHead(s, "NaN"); }
      if StartsWith(s, "Infinity") { StartsWithHead(s, "Infinity"); }
      if StartsWith(s, "-Infinity") { StartsWithHead(s, "-Infinity"); }
    }
  }

  /** A text whose first non-blank character can start no JSON value (a
      letter other than those of `null`, `true`, `false`, `NaN` and
      `Infinity`, say) is refused, as are the empty and all-blank texts. */
  lemma LoadsRefusesNonValueStart(s: string)
    requires var t := SkipWs(s); t == [] || !CanStartValue(t[0])
    ensures Loads(s) == Failure(Malformed)
  {
    ParseValueNeedsStart(SkipWs(s));
  }
}
