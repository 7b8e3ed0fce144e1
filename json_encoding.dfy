/** CPython's `json.dumps` with its defaults, for the values the worker
    encodes: strings and dicts of strings. `ensure_ascii` writes every
    character outside printable ASCII as `\uXXXX` (lower-case hex, a UTF-16
    surrogate pair above U+FFFF), and the separators are ", " and ": ". */
module JsonEncoding {
  import opened Wrappers
  import opened Strings
  import opened Json

  const HEX_DIGITS: string := "0123456789abcdef"

  function HexDigit(n: nat): (c: char)
    requires n < 16
    ensures HexValue(c) == n && ' ' <= c <= '~'
  {
    HEX_DIGITS[n]
  }

  /** Four lower-case hex digits for a code unit. */
  function Hex4(n: nat): (h: string)
    requires n < 0x10000
    ensures IsHex4(h) && Hex4Value(h) == n
    ensures forall i :: 0 <= i < |h| ==> ' ' <= h[i] <= '~'
  {
    HexPlaces(n);
    [HexDigit(n / 0x1000), HexDigit(n / 0x100 % 0x10), HexDigit(n / 0x10 % 0x10), HexDigit(n % 0x10)]
  }

  /** The four hex places of a code unit. */
  lemma HexPlaces(n: nat)
    requires n < 0x10000
    ensures n / 0x1000 < 0x10
    ensures n == n / 0x1000 * 0x1000 + n / 0x100 % 0x10 * 0x100 + n / 0x10 % 0x10 * 0x10 + n % 0x10
  {
    var q1 := n / 0x10;
    var q2 := q1 / 0x10;
    assert n == q1 * 0x10 + n % 0x10;
    assert q1 == q2 * 0x10 + q1 % 0x10;
    assert q2 == n / 0x100 && q2 / 0x10 == n / 0x1000;
  }

  predicate IsPrintableAscii(s: string) {
    forall i :: 0 <= i < |s| ==> ' ' <= s[i] <= '~'
  }

  /** The characters with a two-character escape, and the letter after the
      backslash. */
  predicate HasShortEscape(c: char) {
    c == '"' || c == '\\' || c == '\U{8}' || c == '\U{C}' || c == '\n' || c == '\r' || c == '\t'
  }

  function ShortEscape(c: char): (x: char)
    requires HasShortEscape(c)
    ensures ' ' <= x <= '~'
  {
    if c == '"' then '"'
    else if c == '\\' then '\\'
    else if c == '\U{8}' then 'b'
    else if c == '\U{C}' then 'f'
    else if c == '\n' then 'n'
    else if c == '\r' then 'r'
    else 't'
  }

  /** The UTF-16 halves of a character above U+FFFF. */
  function HighSurrogate(c: char): (n: nat)
    requires c as int >= 0x10000
    ensures IsHighSurrogate(n)
  {
    0xD800 + (c as int - 0x10000) / 0x400
  }

  function LowSurrogate(c: char): (n: nat)
    requires c as int >= 0x10000
    ensures IsLowSurrogate(n)
  {
    0xDC00 + (c as int - 0x10000) % 0x400
  }

  /** The decoder's joining formula undoes the split. */
  lemma JoinSurrogates(c: char)
    requires c as int >= 0x10000
    ensures 0x10000 + (HighSurrogate(c) - 0xD800) * 0x400 + (LowSurrogate(c) - 0xDC00) == c as int
  {
  }

  /** What follows the backslash in a `\u` escape: one UTF-16 code unit, or
      both halves of a surrogate pair for a character above U+FFFF. */
  function UnicodeEscape(c: char): (e: string)
    ensures IsPrintableAscii(e)
  {
    if c as int >= 0x10000 then "u" + Hex4(HighSurrogate(c)) + "\\u" + Hex4(LowSurrogate(c))
    else "u" + Hex4(c as int)
  }

  /** One character as `ensure_ascii` writes it: printable ASCII other than
      the quote and the backslash as itself, otherwise an escape. */
  function EscapeChar(c: char): (e: string)
    ensures e != [] && IsPrintableAscii(e)
  {
    if HasShortEscape(c) then ['\\', ShortEscape(c)]
    else if ' ' <= c <= '~' then [c]
    else ['\\'] + UnicodeEscape(c)
  }

  /** The characters of a string, escaped. The output is printable ASCII
      whatever the input. */
  function EscapeString(s: string): (e: string)
    ensures IsPrintableAscii(e)
    decreases |s|
  {
    if s == [] then [] else EscapeChar(s[0]) + EscapeString(s[1..])
  }

  /** `json.dumps(s)` for a string. */
  function EncodeString(s: string): string {
    "\"" + EscapeString(s) + "\""
  }

  function EncodeMembers(pairs: seq<(string, string)>): string
    requires pairs != []
    decreases |pairs|
  {
    EncodeString(pairs[0].0) + ": " + EncodeString(pairs[0].1) +
      (if |pairs| == 1 then "" else ", " + EncodeMembers(pairs[1..]))
  }

  /** `json.dumps(d)` for a dict whose keys and values are strings, in the
      dict's order. */
  function DumpsStringDict(pairs: seq<(string, string)>): string {
    if pairs == [] then "{}" else "{" + EncodeMembers(pairs) + "}"
  }

  /** The members such a dict decodes to. */
  function StringMembers(pairs: seq<(string, string)>): (m: seq<(string, JValue)>)
    ensures |m| == |pairs|
    ensures forall i :: 0 <= i < |pairs| ==> m[i] == (pairs[i].0, JString(pairs[i].1))
    decreases |pairs|
  {
    if pairs == [] then [] else [(pairs[0].0, JString(pairs[0].1))] + StringMembers(pairs[1..])
  }

  /** The decoder's result with one character put in front. */
  function Prepend(c: char, r: Option<Parsed<string>>): Option<Parsed<string>> {
    match r
    case None => None
    case Some(p) => Some(Parsed([c] + p.value, p.rest, p.lone))
  }

  /** A character other than a quote, a backslash or a control character
      stands for itself. */
  lemma PlainCharDecodes(c: char, rest: string)
    requires c != '"' && c != '\\' && c >= ' '
    ensures ParseStringBody([c] + rest) == Prepend(c, ParseStringBody(rest))
  {
    assert ([c] + rest)[1..] == rest;
  }

  /** A backslash escape that decodes to `c` with no lone surrogate. */
  lemma EscapeThenBody(x: string, c: char, rest: string)
    requires ParseEscape(x) == Some(Parsed([c], rest, false))
    ensures ParseStringBody("\\" + x) == Prepend(c, ParseStringBody(rest))
  {
    assert ("\\" + x)[1..] == x;
  }

  lemma ShortEscapeDecodes(c: char, rest: string)
    requires HasShortEscape(c)
    ensures ParseEscape([ShortEscape(c)] + rest) == Some(Parsed([c], rest, false))
  {
    assert ([ShortEscape(c)] + rest)[1..] == rest;
  }

  lemma UnitEscapeDecodes(c: char, rest: string)
    requires c as int < 0x10000 && rest != []
    ensures ParseEscape(UnicodeEscape(c) + rest) == Some(Parsed([c], rest, false))
  {
    var u := UnicodeEscape(c) + rest;
    assert u[1..5] == Hex4(c as int);
    assert u[5..] == rest;
  }

  /** Where the pieces of a surrogate-pair escape sit. */
  lemma PairEscapeLayout(c: char, rest: string) returns (u: string, t: string)
    requires c as int >= 0x10000 && rest != []
    ensures u == UnicodeEscape(c) + rest && t == u[5..]
    ensures |u| >= 6 && u[0] == 'u' && u[1..5] == Hex4(HighSurrogate(c))
    ensures |t| >= 7 && t[0] == '\\' && t[1] == 'u' && t[2..6] == Hex4(LowSurrogate(c)) && t[6..] == rest
  {
    var h1, h2 := Hex4(HighSurrogate(c)), Hex4(LowSurrogate(c));
    u := UnicodeEscape(c) + rest;
    t := u[5..];
    PairLayout(h1, h2, rest);
  }

  /** Where the two hex groups of `u` h1 `\u` h2 sit. */
  lemma PairLayout(h1: string, h2: string, rest: string)
    requires |h1| == 4 && |h2| == 4 && rest != []
    ensures var u := "u" + h1 + "\\u" + h2 + rest;
            var t := u[5..];
            && |u| >= 6 && u[0] == 'u' && u[1..5] == h1
            && |t| >= 7 && t[0] == '\\' && t[1] == 'u' && t[2..6] == h2 && t[6..] == rest
  {
    var u := "u" + h1 + "\\u" + h2 + rest;
    assert u == "u" + h1 + ("\\u" + h2 + rest);
    var t := u[5..];
    assert t == "\\u" + h2 + rest;
  }

  lemma PairEscapeDecodes(c: char, rest: string)
    requires c as int >= 0x10000 && rest != []
    ensures ParseEscape(UnicodeEscape(c) + rest) == Some(Parsed([c], rest, false))
  {
    var u, t := PairEscapeLayout(c, rest);
    var hi, lo := HighSurrogate(c), LowSurrogate(c);
    assert Hex4Value(u[1..5]) == hi && Hex4Value(t[2..6]) == lo;
    ParseEscapePair(u);
    JoinSurrogates(c);
    var joined := 0x10000 + (hi - 0xD800) * 0x400 + (lo - 0xDC00);
    assert joined == c as int;
    assert ParseEscape(u) == Some(Parsed([joined as char], rest, false));
  }

  /** An escaped character decodes back to itself, provided something
      follows it (a surrogate pair is only joined then). */
  lemma EscapeCharDecodes(c: char, rest: string)
    requires rest != []
    ensures ParseStringBody(EscapeChar(c) + rest) == Prepend(c, ParseStringBody(rest))
  {
    if HasShortEscape(c) {
      var x := [ShortEscape(c)] + rest;
      assert EscapeChar(c) + rest == "\\" + x;
      ShortEscapeDecodes(c, rest);
      EscapeThenBody(x, c, rest);
    } else if ' ' <= c <= '~' {
      PlainCharDecodes(c, rest);
    } else {
      var x := UnicodeEscape(c) + rest;
      assert EscapeChar(c) + rest == "\\" + x;
      if c as int >= 0x10000 {
        PairEscapeDecodes(c, rest);
      } else {
        UnitEscapeDecodes(c, rest);
      }
      EscapeThenBody(x, c, rest);
    }
  }

  /** Escaping a string and closing the quote decodes to exactly that
      string, with no lone surrogate, and leaves what follows untouched. */
  lemma {:induction false} EscapeStringDecodes(s: string, tail: string)
    ensures ParseStringBody(EscapeString(s) + "\"" + tail) == Some(Parsed(s, tail, false))
    decreases |s|
  {
    if s == [] {
      assert EscapeString(s) + "\"" + tail == "\"" + tail;
      assert ("\"" + tail)[1..] == tail;
    } else {
      var rest := EscapeString(s[1..]) + "\"" + tail;
      assert EscapeString(s) + "\"" + tail == EscapeChar(s[0]) + rest;
      EscapeCharDecodes(s[0], rest);
      EscapeStringDecodes(s[1..], tail);
      assert [s[0]] + s[1..] == s;
    }
  }

  lemma EncodeStringDecodes(s: string, tail: string)
    ensures ParseValue(EncodeString(s) + tail) == Some(Parsed(JString(s), tail, false))
  {
    QuoteLayout(EscapeString(s), tail);
    EscapeStringDecodes(s, tail);
  }

  lemma QuoteLayout(e: string, tail: string)
    ensures var t := "\"" + e + "\"" + tail;
            t != [] && t[0] == '"' && t[1..] == e + "\"" + tail
  {
    var t := "\"" + e + "\"" + tail;
    assert t == "\"" + (e + "\"" + tail);
  }

  lemma SkipOneSpace(s: string)
    requires s != [] && !IsWs(s[0])
    ensures SkipWs(" " + s) == s
  {
    assert (" " + s)[1..] == s;
  }

  /** Where the pieces of an encoded member list sit: the quoted key, the
      `: ` separator, the quoted value and whatever comes after. */
  lemma MembersLayout(pairs: seq<(string, string)>, tail: string) returns (a: string, after: string)
    requires pairs != []
    ensures var s := EncodeMembers(pairs) + "}" + tail;
            && s != [] && s[0] == '"'
            && s[1..] == EscapeString(pairs[0].0) + "\"" + a
            && a != [] && a[0] == ':' && a[1..] == " " + (EncodeString(pairs[0].1) + after)
    ensures |pairs| == 1 ==> after == "}" + tail
    ensures |pairs| > 1 ==> after == ", " + (EncodeMembers(pairs[1..]) + "}" + tail)
  {
    var e, v := EscapeString(pairs[0].0), EncodeString(pairs[0].1);
    var more := if |pairs| == 1 then "" else ", " + EncodeMembers(pairs[1..]);
    assert EncodeMembers(pairs) == "\"" + e + "\"" + ": " + v + more;
    QuotedLayout(e, v, more, tail);
    after := more + "}" + tail;
    a := ": " + v + after;
    ColonLayout(v, after);
    if |pairs| == 1 {
      EmptyConcat("}", tail);
    } else {
      Regroup(", ", EncodeMembers(pairs[1..]), "}", tail);
    }
  }

  /** The layout of a member `"e": v`, then `m`, the closing brace and `tail`,
      regrouped after the opening quote. */
  lemma QuotedLayout(e: string, v: string, m: string, tail: string)
    ensures var s := "\"" + e + "\"" + ": " + v + m + "}" + tail;
            && s != [] && s[0] == '"'
            && s[1..] == e + "\"" + (": " + v + (m + "}" + tail))
  {
    var s := "\"" + e + "\"" + ": " + v + m + "}" + tail;
    assert s == "\"" + (e + "\"" + (": " + v + (m + "}" + tail)));
  }

  lemma ColonLayout(v: string, after: string)
    ensures var a := ": " + v + after;
            a != [] && a[0] == ':' && a[1..] == " " + (v + after)
  {
    assert ": " + v + after == ":" + (" " + (v + after));
  }

  lemma EmptyConcat(x: string, y: string)
    ensures "" + x + y == x + y
  {
  }

  lemma Regroup(w: string, x: string, y: string, z: string)
    ensures w + x + y + z == w + (x + y + z)
  {
  }

  /** The first member of an encoded member list parses to the first pair,
      and parsing stops at the `,` or `}` after it. */
  lemma FirstMemberDecodes(pairs: seq<(string, string)>, tail: string) returns (after: string)
    requires pairs != []
    ensures ParseMember(EncodeMembers(pairs) + "}" + tail) ==
              Some(Parsed((pairs[0].0, JString(pairs[0].1)), after, false))
    ensures |pairs| == 1 ==> after == "}" + tail
    ensures |pairs| > 1 ==> after == ", " + (EncodeMembers(pairs[1..]) + "}" + tail)
  {
    var key, value := pairs[0].0, pairs[0].1;
    var s := EncodeMembers(pairs) + "}" + tail;
    var a;
    a, after := MembersLayout(pairs, tail);
    EncodedMemberDecodes(s, key, value, a, after);
  }

  /** `"key": "value"` followed by `,` or `}` parses to that member. */
  lemma EncodedMemberDecodes(s: string, key: string, value: string, a: string, after: string)
    requires s != [] && s[0] == '"' && s[1..] == EscapeString(key) + "\"" + a
    requires a != [] && a[0] == ':' && a[1..] == " " + (EncodeString(value) + after)
    requires after != [] && (after[0] == '}' || after[0] == ',')
    ensures ParseMember(s) == Some(Parsed((key, JString(value)), after, false))
  {
    EscapeStringDecodes(key, a);
    QuoteLayout(EscapeString(value), after);
    SkipOneSpace(EncodeString(value) + after);
    EncodeStringDecodes(value, after);
    ParseMemberStep(s, key, a, JString(value), after);
  }

  /** The members of an encoded dict decode to its pairs, in order. */
  lemma {:induction false} EncodeMembersDecode(pairs: seq<(string, string)>, tail: string)
    requires pairs != []
    ensures ParseMembers(EncodeMembers(pairs) + "}" + tail) == Some(Parsed(StringMembers(pairs), tail, false))
    decreases |pairs|
  {
    var m := (pairs[0].0, JString(pairs[0].1));
    var s := EncodeMembers(pairs) + "}" + tail;
    var after := FirstMemberDecodes(pairs, tail);
    StringMembersCons(pairs);
    if |pairs| == 1 {
      AfterBrace(tail);
      ParseMembersLast(s, m, after);
    } else {
      var next := EncodeMembers(pairs[1..]) + "}" + tail;
      MembersStartWithQuote(pairs[1..], "}" + tail);
      ConcatAssoc(EncodeMembers(pairs[1..]), "}", tail);
      EncodeMembersDecode(pairs[1..], tail);
      MembersAfterFirst(s, m, next, StringMembers(pairs[1..]), tail);
    }
  }

  /** A member, then ", " and the members of `next`. */
  lemma MembersAfterFirst(s: string, m: (string, JValue), next: string, more: seq<(string, JValue)>, tail: string)
    requires ParseMember(s) == Some(Parsed(m, ", " + next, false))
    requires next != [] && next[0] == '"'
    requires ParseMembers(next) == Some(Parsed(more, tail, false))
    ensures ParseMembers(s) == Some(Parsed([m] + more, tail, false))
  {
    AfterComma(next);
    ParseMembersMore(s, m, ", " + next, more, tail);
  }

  /** The whitespace after the separator ", " is skipped. */
  lemma AfterComma(next: string)
    requires next != [] && !IsWs(next[0])
    ensures SkipWs((", " + next)[1..]) == next
  {
    assert (", " + next)[1..] == " " + next;
    SkipOneSpace(next);
  }

  lemma AfterBrace(tail: string)
    ensures ("}" + tail)[1..] == tail
  {
  }

  lemma StringMembersCons(pairs: seq<(string, string)>)
    requires pairs != []
    ensures StringMembers(pairs) == [(pairs[0].0, JString(pairs[0].1))] + StringMembers(pairs[1..])
    ensures |pairs| == 1 ==> StringMembers(pairs) == [(pairs[0].0, JString(pairs[0].1))]
  {
  }

  /** `json.loads(json.dumps(d))` gives back the dict's pairs, for every dict
      of strings, whatever characters its strings hold. */
  lemma LoadsDumpsStringDict(pairs: seq<(string, string)>)
    ensures Loads(DumpsStringDict(pairs)) == Success(JObject(StringMembers(pairs)))
  {
    if pairs == [] {
      LoadsEmptyDict();
    } else {
      LoadsNonEmptyDict(pairs);
    }
  }

  lemma MembersStartWithQuote(pairs: seq<(string, string)>, tail: string)
    requires pairs != []
    ensures EncodeMembers(pairs) + tail != [] && (EncodeMembers(pairs) + tail)[0] == '"'
  {
    var k := EncodeString(pairs[0].0);
    assert k[0] == '"';
    ConcatAssoc(k, ": " + EncodeString(pairs[0].1) +
      (if |pairs| == 1 then "" else ", " + EncodeMembers(pairs[1..])), tail);
  }

  lemma LoadsEmptyDict()
    ensures Loads("{}") == Success(JObject([]))
  {
    LoadsEmptyObject("{}");
  }

  /** Any two-character text `{}` loads as the empty object. */
  lemma LoadsEmptyObject(s: string)
    requires |s| == 2 && s[0] == '{' && s[1] == '}'
    ensures Loads(s) == Success(JObject([]))
  {
    var t := s[1..];
    assert t != [] && t[0] == '}' && t[1..] == [];
    ClosedObjectParses(t);
    assert ParseValue(s) == ParseObject(t);
    LoadsWhole(s, JObject([]));
  }

  lemma ClosedObjectParses(s: string)
    requires s != [] && s[0] == '}'
    ensures ParseObject(s) == Some(Parsed(JObject([]), s[1..], false))
  {
    SkipWsAt(s);
    var t := SkipWs(s);
    assert t == s && t != [] && t[0] == '}';
  }

  lemma LoadsNonEmptyDict(pairs: seq<(string, string)>)
    requires pairs != []
    ensures Loads("{" + EncodeMembers(pairs) + "}") == Success(JObject(StringMembers(pairs)))
  {
    var body := EncodeMembers(pairs) + "}";
    assert "{" + EncodeMembers(pairs) + "}" == "{" + body;
    assert body == EncodeMembers(pairs) + "}" + "";
    MembersStartWithQuote(pairs, "}");
    EncodeMembersDecode(pairs, "");
    ParseValueObject(body, StringMembers(pairs), "");
    LoadsWhole("{" + body, JObject(StringMembers(pairs)));
  }
}
