/** Language-neutral helpers on strings: prefixes, substring search and
    splitting at a separator character. The Java- and Python-specific
    behaviour built on them lives in JavaLang and PythonText. */
module Strings {

  /** Concatenation regroups freely; stated once so that long chains of
      concatenations can be regrouped one step at a time. */
  lemma ConcatAssoc<T>(x: seq<T>, y: seq<T>, z: seq<T>)
    ensures x + y + z == x + (y + z)
  {
  }

  /** Slices of a suffix are slices of the whole. */
  lemma SlicesOfSuffix<T>(s: seq<T>, n: nat, i: nat, j: nat)
    requires n <= |s| && i <= j <= |s| - n
    ensures s[n..][i..j] == s[n + i..n + j]
    ensures s[n..][..i] == s[n..n + i]
    ensures s[n..][j..] == s[n + j..]
  {
  }

  predicate StartsWith(s: string, prefix: string) {
    |prefix| <= |s| && s[..|prefix|] == prefix
  }

  /** Whether `needle` occurs as a contiguous piece of `s`. */
  predicate Contains(s: string, needle: string)
    decreases |s|
  {
    StartsWith(s, needle) || (s != [] && Contains(s[1..], needle))
  }

  lemma {:induction false} ContainsAt(s: string, needle: string, i: nat)
    requires i + |needle| <= |s| && s[i..i + |needle|] == needle
    ensures Contains(s, needle)
  {
    if i > 0 {
      assert s[1..][i - 1..i - 1 + |needle|] == s[i..i + |needle|];
      ContainsAt(s[1..], needle, i - 1);
    }
  }

  /** An occurrence that `Contains` reports sits at some index. */
  lemma {:induction false} ContainsFound(s: string, needle: string) returns (i: nat)
    requires Contains(s, needle)
    ensures i + |needle| <= |s| && s[i..i + |needle|] == needle
    decreases |s|
  {
    if StartsWith(s, needle) {
      i := 0;
    } else {
      var j := ContainsFound(s[1..], needle);
      assert s[1..][j..j + |needle|] == s[j + 1..j + 1 + |needle|];
      i := j + 1;
    }
  }

  /** The index of the first occurrence of `c` in `s`. */
  function IndexOf(s: string, c: char): (i: nat)
    requires c in s
    ensures i < |s| && s[i] == c && c !in s[..i]
  {
    if s[0] == c then 0 else 1 + IndexOf(s[1..], c)
  }

  /** The pieces of `s` between the occurrences of `sep`, in order, empty
      pieces included (Python's `str.split` with a one-character separator). */
  function Split(s: string, sep: char): (parts: seq<string>)
    ensures |parts| >= 1
    ensures forall i :: 0 <= i < |parts| ==> sep !in parts[i]
    decreases |s|
  {
    if s == [] then [""]
    else
      var rest := Split(s[1..], sep);
      if s[0] == sep then [""] + rest
      else [[s[0]] + rest[0]] + rest[1..]
  }

  /** The pieces joined back together with `sep` between them. */
  function Join(parts: seq<string>, sep: string): string
    decreases |parts|
  {
    if parts == [] then ""
    else if |parts| == 1 then parts[0]
    else parts[0] + sep + Join(parts[1..], sep)
  }

  /** Splitting loses nothing: joining the pieces with the separator gives
      the string back. */
  lemma {:induction false} JoinSplit(s: string, sep: char)
    ensures Join(Split(s, sep), [sep]) == s
  {
    if s != [] {
      var rest := Split(s[1..], sep);
      JoinSplit(s[1..], sep);
      if s[0] == sep {
        assert Split(s, sep) == [""] + rest;
        assert ([""] + rest)[1..] == rest;
      } else {
        var parts := [[s[0]] + rest[0]] + rest[1..];
        assert Split(s, sep) == parts;
        if |rest| == 1 {
          assert Join(rest, [sep]) == rest[0];
        } else {
          assert parts[1..] == rest[1..];
          assert Join(rest, [sep]) == rest[0] + [sep] + Join(rest[1..], [sep]);
        }
      }
    }
  }

  /** The first piece is everything before the first separator, or the whole
      string when there is none. */
  lemma {:induction false} SplitFirst(s: string, sep: char)
    ensures sep !in s ==> Split(s, sep)[0] == s && |Split(s, sep)| == 1
    ensures sep in s ==> Split(s, sep)[0] == s[..IndexOf(s, sep)] && |Split(s, sep)| >= 2
    decreases |s|
  {
    if s != [] {
      var rest := Split(s[1..], sep);
      if s[0] == sep {
        assert Split(s, sep) == [""] + rest;
        assert IndexOf(s, sep) == 0;
      } else {
        assert Split(s, sep) == [[s[0]] + rest[0]] + rest[1..];
        SplitFirst(s[1..], sep);
        assert s == [s[0]] + s[1..];
        if sep in s {
          assert sep in s[1..];
          var j := IndexOf(s[1..], sep);
          assert IndexOf(s, sep) == 1 + j;
          assert s[..1 + j] == [s[0]] + s[1..][..j];
        } else {
          assert sep !in s[1..];
        }
      }
    }
  }

  /** A leading separator gives an empty first piece. */
  lemma SplitAfterSeparator(sep: char, y: string)
    ensures Split([sep] + y, sep) == [""] + Split(y, sep)
  {
    assert ([sep] + y)[0] == sep;
    assert ([sep] + y)[1..] == y;
  }

  /** A separator splits the text at that point: the pieces of the two
      sides, one after the other. */
  lemma {:induction false} SplitAppend(x: string, sep: char, y: string)
    ensures Split(x + [sep] + y, sep) == Split(x, sep) + Split(y, sep)
    decreases |x|
  {
    if x == [] {
      assert x + [sep] + y == [sep] + y;
      assert ([sep] + y)[1..] == y;
    } else {
      assert (x + [sep] + y)[0] == x[0];
      assert (x + [sep] + y)[1..] == x[1..] + [sep] + y;
      SplitAppend(x[1..], sep, y);
    }
  }
}
