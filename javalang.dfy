/** The parts of java.lang that the backend's logic leans on: the
    `String` methods `isBlank`, `trim` and `split`, and the exceptions the
    services throw. Java strings are sequences of UTF-16 units; every
    character these methods test is in the Basic Multilingual Plane, so a
    sequence of Unicode scalar values stands in for them. */
module JavaLang {
  import opened Wrappers
  import opened Strings

  /** `Character.isWhitespace` on a code point: the space, line and paragraph
      separators except the three no-break spaces, plus U+0009..U+000D and
      U+001C..U+001F. */
  predicate IsWhitespace(c: char) {
    || ('\t' <= c <= '\r')
    || ('\U{1C}' <= c <= '\U{1F}')
    || c == ' '
    || c == '\U{1680}'
    || ('\U{2000}' <= c <= '\U{2006}')
    || ('\U{2008}' <= c <= '\U{200A}')
    || c == '\U{2028}' || c == '\U{2029}'
    || c == '\U{205F}'
    || c == '\U{3000}'
  }

  /** `String.isBlank`: empty, or made only of whitespace code points. */
  predicate IsBlank(s: string) {
    forall i :: 0 <= i < |s| ==> IsWhitespace(s[i])
  }

  /** The characters `String.trim` removes: every code unit up to U+0020. */
  predicate IsTrimmable(c: char) {
    c <= ' '
  }

  predicate AllTrimmable(s: string) {
    forall i :: 0 <= i < |s| ==> IsTrimmable(s[i])
  }

  /** No trimmable character at either end. */
  predicate Trimmed(s: string) {
    s == [] || (!IsTrimmable(s[0]) && !IsTrimmable(s[|s| - 1]))
  }

  /** The characters after the leading trimmable ones. */
  function TrimStart(s: string): (r: string)
    ensures |r| <= |s|
    decreases |s|
  {
    if s != [] && IsTrimmable(s[0]) then TrimStart(s[1..]) else s
  }

  /** The characters before the trailing trimmable ones. */
  function TrimEnd(s: string): (r: string)
    ensures |r| <= |s|
    decreases |s|
  {
    if s != [] && IsTrimmable(s[|s| - 1]) then TrimEnd(s[..|s| - 1]) else s
  }

  /** `TrimStart` cuts off a trimmable prefix and stops at a character that
      is not trimmable. */
  lemma {:induction false} TrimStartShape(s: string)
    ensures var r := TrimStart(s);
            && |r| <= |s| && r == s[|s| - |r|..]
            && AllTrimmable(s[..|s| - |r|])
            && (r == [] || !IsTrimmable(r[0]))
    decreases |s|
  {
    if s != [] && IsTrimmable(s[0]) {
      TrimStartShape(s[1..]);
      var r := TrimStart(s[1..]);
      assert s[1..][..|s| - 1 - |r|] == s[1..|s| - |r|];
      assert forall i | 1 <= i < |s| - |r| :: s[i] == s[1..][..|s| - 1 - |r|][i - 1];
    }
  }

  /** `TrimEnd` cuts off a trimmable suffix and stops at a character that is
      not trimmable. */
  lemma {:induction false} TrimEndShape(s: string)
    ensures var r := TrimEnd(s);
            && |r| <= |s| && r == s[..|r|]
            && AllTrimmable(s[|r|..])
            && (r == [] || !IsTrimmable(r[|r| - 1]))
    decreases |s|
  {
    if s != [] && IsTrimmable(s[|s| - 1]) {
      var t := s[..|s| - 1];
      TrimEndShape(t);
      var r := TrimEnd(t);
      assert t[..|r|] == s[..|r|];
      assert forall i | |r| <= i < |s| - 1 :: s[i] == t[|r|..][i - |r|];
    }
  }

  /** `String.trim`: drop the code units up to U+0020 at both ends. */
  function Trim(s: string): (r: string)
    ensures Trimmed(r)
    ensures |r| <= |s|
  {
    TrimStartShape(s);
    TrimEndShape(TrimStart(s));
    TrimEnd(TrimStart(s))
  }

  lemma {:induction false} TrimStartOfPadded(a: string, t: string)
    requires AllTrimmable(a)
    requires t == [] || !IsTrimmable(t[0])
    ensures TrimStart(a + t) == t
    decreases |a|
  {
    if a != [] {
      assert (a + t)[1..] == a[1..] + t;
      TrimStartOfPadded(a[1..], t);
    }
  }

  lemma {:induction false} TrimEndOfPadded(t: string, b: string)
    requires AllTrimmable(b)
    requires t == [] || !IsTrimmable(t[|t| - 1])
    ensures TrimEnd(t + b) == t
    decreases |b|
  {
    if b != [] {
      assert (t + b)[..|t + b| - 1] == t + b[..|b| - 1];
      TrimEndOfPadded(t, b[..|b| - 1]);
    }
  }

  /** `trim` removes exactly the padding: whatever string with no trimmable
      character at its ends is wrapped in trimmable padding, trimming gives
      that string back. Together with `TrimIsUnpadding` this pins `Trim`
      down completely. */
  lemma TrimOfPadded(a: string, t: string, b: string)
    requires AllTrimmable(a) && AllTrimmable(b) && Trimmed(t)
    ensures Trim(a + t + b) == t
  {
    if t == [] {
      assert a + t + b == a + b;
      assert AllTrimmable(a + b);
      TrimStartOfPadded(a + b, []);
      assert a + b + [] == a + b;
    } else {
      assert a + t + b == a + (t + b);
      TrimStartOfPadded(a, t + b);
      TrimEndOfPadded(t, b);
    }
  }

  /** Every string is its trimmed self wrapped in trimmable padding. */
  lemma TrimIsUnpadding(s: string)
    ensures var lead := |s| - |TrimStart(s)|;
            && lead + |Trim(s)| <= |s|
            && s == s[..lead] + Trim(s) + s[lead + |Trim(s)|..]
            && AllTrimmable(s[..lead]) && AllTrimmable(s[lead + |Trim(s)|..])
  {
    var u := TrimStart(s);
    TrimStartShape(s);
    TrimEndShape(u);
    SuffixOfPrefix(s, u, TrimEnd(u));
  }

  /** `r` is a prefix of `u`, itself a suffix of `s`: `s` is what lies
      before `u`, then `r`, then the rest of `u`. */
  lemma SuffixOfPrefix(s: string, u: string, r: string)
    requires |u| <= |s| && u == s[|s| - |u|..]
    requires |r| <= |u| && r == u[..|r|]
    ensures var lead := |s| - |u|;
            && s == s[..lead] + r + s[lead + |r|..]
            && s[lead + |r|..] == u[|r|..]
  {
    var lead := |s| - |u|;
    assert s[lead + |r|..] == u[|r|..];
    assert r + u[|r|..] == u;
    calc {
      s;
      s[..lead] + u;
      s[..lead] + (r + u[|r|..]);
      { ConcatAssoc(s[..lead], r, u[|r|..]); }
      s[..lead] + r + u[|r|..];
    }
  }

  /** Where the trimmed string sits inside the original. */
  lemma TrimSlice(s: string) returns (i: nat, j: nat)
    ensures i <= j <= |s| && Trim(s) == s[i..j]
    ensures AllTrimmable(s[..i]) && AllTrimmable(s[j..])
  {
    var u := TrimStart(s);
    TrimStartShape(s);
    TrimEndShape(u);
    i := |s| - |u|;
    j := i + |TrimEnd(u)|;
    assert s[j..] == u[|TrimEnd(u)|..];
    assert s[i..j] == u[..|TrimEnd(u)|];
  }

  /** `trim` gives the empty string exactly when every character is
      trimmable. */
  lemma TrimEmptyIff(s: string)
    ensures Trim(s) == [] <==> AllTrimmable(s)
  {
    TrimIsUnpadding(s);
    if AllTrimmable(s) {
      TrimOfPadded(s, [], []);
      assert s + [] + [] == s;
    }
  }

  /** `String.split(sep)` for a one-character regular expression: the pieces
      between the separators with the trailing empty pieces removed, or the
      whole string in a one-element array when the separator does not occur. */
  function JavaSplit(s: string, sep: char): (parts: seq<string>)
    ensures |parts| <= |Split(s, sep)|
  {
    if sep !in s then [s] else DropTrailingEmpty(Split(s, sep))
  }

  function DropTrailingEmpty(parts: seq<string>): (r: seq<string>)
    ensures |r| <= |parts| && r == parts[..|r|]
    ensures forall i :: |r| <= i < |parts| ==> parts[i] == ""
    decreases |parts|
  {
    if parts != [] && parts[|parts| - 1] == "" then DropTrailingEmpty(parts[..|parts| - 1])
    else parts
  }

  /** When every character is the separator, every piece is empty. */
  lemma {:induction false} SplitOfSeparatorsOnly(s: string, sep: char)
    requires forall i :: 0 <= i < |s| ==> s[i] == sep
    ensures forall i :: 0 <= i < |Split(s, sep)| ==> Split(s, sep)[i] == ""
    decreases |s|
  {
    if s != [] {
      SplitOfSeparatorsOnly(s[1..], sep);
    }
  }

  /** A character other than the separator leaves some piece non-empty. */
  lemma {:induction false} SplitKeepsOtherCharacter(s: string, sep: char, k: nat) returns (i: nat)
    requires k < |s| && s[k] != sep
    ensures i < |Split(s, sep)| && Split(s, sep)[i] != ""
    decreases |s|
  {
    if s[0] != sep {
      i := 0;
    } else {
      var j := SplitKeepsOtherCharacter(s[1..], sep, k - 1);
      i := j + 1;
    }
  }

  /** `email.split("@")[0]` in Java: ArrayIndexOutOfBoundsException when the
      split leaves no piece. */
  function FirstPiece(s: string, sep: char): (r: Result<string, JavaException>)
  {
    var parts := JavaSplit(s, sep);
    if |parts| == 0 then Failure(JavaException(ArrayIndexOutOfBounds, Some("Index 0 out of bounds for length 0")))
    else Success(parts[0])
  }

  /** The first piece is the text before the first separator (the whole
      string when there is none); Java's split only fails when the string is
      made of separators and nothing else. */
  lemma FirstPieceIsPrefix(s: string, sep: char)
    ensures sep !in s ==> FirstPiece(s, sep) == Success(s)
    ensures sep in s && (exists k :: 0 <= k < |s| && s[k] != sep) ==>
              FirstPiece(s, sep) == Success(s[..IndexOf(s, sep)])
    ensures s != [] && (forall k :: 0 <= k < |s| ==> s[k] == sep) ==>
              FirstPiece(s, sep).Failure? && FirstPiece(s, sep).error.kind == ArrayIndexOutOfBounds
  {
    SplitFirst(s, sep);
    var parts := Split(s, sep);
    if sep in s {
      if k :| 0 <= k < |s| && s[k] != sep {
        var i := SplitKeepsOtherCharacter(s, sep, k);
        assert i < |DropTrailingEmpty(parts)|;
        assert DropTrailingEmpty(parts)[0] == parts[0];
      } else {
        SplitOfSeparatorsOnly(s, sep);
        var r := DropTrailingEmpty(parts);
        if |r| > 0 {
          assert r[|r| - 1] == parts[|r| - 1] == "";
          DropTrailingEmptyEndsNonEmpty(parts);
        }
      }
    }
  }

  lemma DropTrailingEmptyEndsNonEmpty(parts: seq<string>)
    ensures var r := DropTrailingEmpty(parts); r == [] || r[|r| - 1] != ""
    decreases |parts|
  {
    if parts != [] && parts[|parts| - 1] == "" {
      DropTrailingEmptyEndsNonEmpty(parts[..|parts| - 1]);
    }
  }

  /** The exception kinds the modelled code throws or handles.
      UnauthorizedException is the backend's own RuntimeException. */
  datatype ExceptionKind =
    | Unauthorized
    | DataIntegrityViolation
    | ArrayIndexOutOfBounds
    | InvalidPath
    | FileNotFound
    | OtherException(className: string)

  /** A thrown exception: its kind and `getMessage()`, which may be null. */
  datatype JavaException = JavaException(kind: ExceptionKind, message: Option<string>)

  function UnauthorizedException(message: string): JavaException {
    JavaException(Unauthorized, Some(message))
  }
}
