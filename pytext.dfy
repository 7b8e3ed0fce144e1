/** The parts of Python's `str` and `os.path` that the worker and the API
    schemas use: `lower` and `capitalize` on ASCII letters, and the POSIX
    `os.path.splitext`. */
module PythonText {
  import opened Strings

  predicate IsAsciiUpper(c: char) { 'A' <= c <= 'Z' }
  predicate IsAsciiLower(c: char) { 'a' <= c <= 'z' }

  function ToLower(c: char): (r: char)
    ensures IsAsciiUpper(c) ==> IsAsciiLower(r) && r as int == c as int + 32
    ensures !IsAsciiUpper(c) ==> r == c
    ensures !IsAsciiUpper(r)
  {
    if IsAsciiUpper(c) then (c as int + 32) as char else c
  }

  function ToUpper(c: char): (r: char)
    ensures IsAsciiLower(c) ==> IsAsciiUpper(r)
    ensures !IsAsciiLower(c) ==> r == c
  {
    if IsAsciiLower(c) then (c as int - 32) as char else c
  }

  /** `str.lower` on the ASCII letters: each capital becomes its small
      letter (32 code points on), every other character is kept, and no
      capital is left. */
  function Lower(s: string): (r: string)
    ensures |r| == |s|
    ensures forall i :: 0 <= i < |s| && IsAsciiUpper(s[i]) ==> r[i] as int == s[i] as int + 32
    ensures forall i :: 0 <= i < |s| && !IsAsciiUpper(s[i]) ==> r[i] == s[i]
    ensures forall i :: 0 <= i < |r| ==> !IsAsciiUpper(r[i])
  {
    seq(|s|, i requires 0 <= i < |s| => ToLower(s[i]))
  }

  /** Lower-casing works character by character, so it commutes with
      taking a slice. */
  lemma LowerSlice(s: string, i: nat, j: nat)
    requires i <= j <= |s|
    ensures Lower(s)[i..j] == Lower(s[i..j])
  {
    var a, b := Lower(s)[i..j], Lower(s[i..j]);
    forall k | 0 <= k < j - i ensures a[k] == b[k] {
      assert s[i..j][k] == s[i + k];
      if IsAsciiUpper(s[i + k]) {
        assert a[k] as int == s[i + k] as int + 32 == b[k] as int;
      }
    }
  }

  /** Lower-casing twice is lower-casing once. */
  lemma LowerIdempotent(s: string)
    ensures Lower(Lower(s)) == Lower(s)
  {
    var l := Lower(s);
    forall k | 0 <= k < |s| ensures Lower(l)[k] == l[k] {
      assert !IsAsciiUpper(l[k]);
    }
  }

  /** `str.capitalize`: the first character upper-cased, the rest lower-cased. */
  function Capitalize(s: string): (r: string)
    ensures |r| == |s|
    ensures s != [] ==> r[0] == ToUpper(s[0]) && r[1..] == Lower(s[1..])
    // only `_` itself turns into `_`
    ensures forall i :: 0 <= i < |s| ==> (r[i] == '_' <==> s[i] == '_')
  {
    if s == [] then [] else [ToUpper(s[0])] + Lower(s[1..])
  }

  /** The index of the last occurrence of `c`, or -1 (`str.rfind`). */
  function RFind(s: string, c: char): (i: int)
    ensures -1 <= i < |s|
    ensures i >= 0 ==> s[i] == c
    ensures forall j :: i < j < |s| ==> s[j] != c
    decreases |s|
  {
    if s == [] then -1
    else if s[|s| - 1] == c then |s| - 1
    else RFind(s[..|s| - 1], c)
  }

  /** Whether some character other than '.' lies in `s[from..to]`. */
  predicate HasNonDot(s: string, from: int, to: int)
    requires 0 <= from && to <= |s|
  {
    exists k :: from <= k < to && s[k] != '.'
  }

  /** `os.path.splitext(p)[0]` on POSIX: the text before the last '.' when
      that dot comes after the last '/' and some character other than '.'
      lies between that '/' and the dot; otherwise the whole path. */
  function SplitExtRoot(p: string): (root: string)
    ensures |root| <= |p| && root == p[..|root|]
  {
    var sep := RFind(p, '/');
    var dot := RFind(p, '.');
    if dot > sep && HasNonDot(p, sep + 1, dot) then p[..dot] else p
  }

  /** The extension `splitext` cuts off is a '.' followed by neither '.' nor
      '/', and the name before it is not made of dots alone. */
  lemma SplitExtRootCuts(p: string)
    ensures var root := SplitExtRoot(p);
            root != p ==>
              && |root| < |p| && p[|root|] == '.'
              && (forall j :: |root| < j < |p| ==> p[j] != '.' && p[j] != '/')
              && (exists k :: 0 <= k < |root| && root[k] != '.' &&
                    forall j :: k < j < |root| ==> root[j] != '/')
  {
    var sep := RFind(p, '/');
    var dot := RFind(p, '.');
    if dot > sep && HasNonDot(p, sep + 1, dot) {
      var root := p[..dot];
      assert SplitExtRoot(p) == root;
      var k :| sep + 1 <= k < dot && p[k] != '.';
      assert root[k] != '.';
      assert forall j :: k < j < |root| ==> root[j] == p[j] && p[j] != '/';
    }
  }

  /** A path whose last component has no '.' keeps its whole text. */
  lemma SplitExtRootNoDot(p: string)
    requires forall j :: RFind(p, '/') < j < |p| ==> p[j] != '.'
    ensures SplitExtRoot(p) == p
  {
  }
}
