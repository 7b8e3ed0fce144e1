/** `ai/api/schemas.py`: the worker's error codes and the alias generator
    that gives every API field its camelCase JSON name. */
module Schemas {
  import opened Wrappers
  import opened Strings
  import opened PythonText

  /** `ErrorCode`, a string enum: each member is its value on the wire. */
  datatype ErrorCode = GPU_OOM | FILE_NOT_SUPPORTED | UNKNOWN_ERROR
  {
    function Value(): (v: string)
      ensures |v| == 10 && v[..7] == "WORKER_"
      ensures forall i :: 7 <= i < 10 ==> '0' <= v[i] <= '9'
    {
      match this
      case GPU_OOM => "WORKER_001"
      case FILE_NOT_SUPPORTED => "WORKER_002"
      case UNKNOWN_ERROR => "WORKER_999"
    }
  }

  /** `ErrorCode(v)`: the member with that value, if any. */
  function FromValue(v: string): (r: Option<ErrorCode>)
    ensures r.Some? ==> r.value.Value() == v
  {
    if v == "WORKER_001" then Some(GPU_OOM)
    else if v == "WORKER_002" then Some(FILE_NOT_SUPPORTED)
    else if v == "WORKER_999" then Some(UNKNOWN_ERROR)
    else None
  }

  /** The three values are distinct: every member is found again by its value. */
  lemma FromValueOfValue(c: ErrorCode)
    ensures FromValue(c.Value()) == Some(c)
  {
  }

  /** Every word after the first, capitalised and run together. */
  function CapitalizeWords(words: seq<string>): (r: string)
    decreases |words|
  {
    if words == [] then "" else Capitalize(words[0]) + CapitalizeWords(words[1..])
  }

  /** The alias generator: split at `_`, keep the first word as it is,
      capitalise the others and join them without a separator. */
  function Alias(name: string): string {
    var words := Split(name, '_');
    words[0] + CapitalizeWords(words[1..])
  }

  lemma {:induction false} CapitalizeWordsAppend(u: seq<string>, v: seq<string>)
    ensures CapitalizeWords(u + v) == CapitalizeWords(u) + CapitalizeWords(v)
    decreases |u|
  {
    if u != [] {
      assert (u + v)[1..] == u[1..] + v;
      CapitalizeWordsAppend(u[1..], v);
      var c, x, y := Capitalize(u[0]), CapitalizeWords(u[1..]), CapitalizeWords(v);
      assert (u + v)[0] == u[0];
      assert CapitalizeWords(u + v) == c + (x + y);
      assert c + (x + y) == c + x + y;
    } else {
      assert u + v == v;
    }
  }

  lemma {:induction false} CapitalizeWordsHasNoUnderscore(words: seq<string>)
    requires forall i :: 0 <= i < |words| ==> '_' !in words[i]
    ensures '_' !in CapitalizeWords(words)
    decreases |words|
  {
    if words != [] {
      CapitalizeWordsHasNoUnderscore(words[1..]);
    }
  }

  /** No alias contains `_`. */
  lemma AliasHasNoUnderscore(name: string)
    ensures '_' !in Alias(name)
  {
    var words := Split(name, '_');
    CapitalizeWordsHasNoUnderscore(words[1..]);
  }

  /** A name without `_` is its own alias. */
  lemma AliasOfPlainName(name: string)
    requires '_' !in name
    ensures Alias(name) == name
  {
    SplitFirst(name, '_');
    var words := Split(name, '_');
    assert words[1..] == [];
  }

  /** The alias starts with the text before the first `_`, unchanged. */
  lemma AliasKeepsFirstWord(name: string)
    requires '_' in name
    ensures StartsWith(Alias(name), name[..IndexOf(name, '_')])
  {
    SplitFirst(name, '_');
  }

  /** What follows each further `_` is capitalised and appended: the alias
      of `a_b` is the alias of `a` followed by the capitalised words of `b`. */
  lemma AliasOfJoined(a: string, b: string)
    ensures Alias(a + "_" + b) == Alias(a) + CapitalizeWords(Split(b, '_'))
  {
    SplitAppend(a, '_', b);
    JoinedWords(Split(a, '_'), Split(b, '_'));
  }

  /** The alias built from the words `u + v` is the one built from `u`,
      followed by the capitalised words of `v`. */
  lemma JoinedWords(u: seq<string>, v: seq<string>)
    requires u != []
    ensures (u + v)[0] + CapitalizeWords((u + v)[1..]) == u[0] + CapitalizeWords(u[1..]) + CapitalizeWords(v)
  {
    assert (u + v)[0] == u[0];
    assert (u + v)[1..] == u[1..] + v;
    CapitalizeWordsAppend(u[1..], v);
    ConcatAssoc(u[0], CapitalizeWords(u[1..]), CapitalizeWords(v));
  }

  /** The empty words that doubled underscores make contribute nothing. */
  lemma AliasSkipsEmptyWords(a: string, b: string)
    ensures Alias(a + "__" + b) == Alias(a + "_" + b)
  {
    DoubledUnderscore(a, b);
    AliasOfJoined(a, "_" + b);
    AliasOfJoined(a, b);
    SplitAfterSeparator('_', b);
    EmptyFirstWord(Split(b, '_'));
  }

  lemma DoubledUnderscore(a: string, b: string)
    ensures a + "__" + b == a + "_" + ("_" + b)
  {
    assert "__" == "_" + "_";
    ConcatAssoc(a + "_", "_", b);
  }

  lemma EmptyFirstWord(words: seq<string>)
    ensures CapitalizeWords([""] + words) == CapitalizeWords(words)
  {
    assert ([""] + words)[0] == "";
    assert ([""] + words)[1..] == words;
  }

  /** Two plain words joined by one `_`. */
  lemma OneUnderscore(a: string, b: string)
    requires '_' !in a && '_' !in b
    ensures Alias(a + "_" + b) == a + Capitalize(b)
  {
    AliasOfJoined(a, b);
    AliasOfPlainName(a);
    SplitFirst(b, '_');
    var cb := Capitalize(b);
    assert CapitalizeWords(Split(b, '_')) == cb + CapitalizeWords([]);
  }

  /** The field names of the API models that carry an underscore:
      `job_id`, `file_path`, `error_code` and `error_message`. */
  lemma JobIdAlias()
    ensures Alias("job_id") == "jobId"
  {
    Aliased("job_id", "job", "id", "jobId", "Id");
  }

  lemma FilePathAlias()
    ensures Alias("file_path") == "filePath"
  {
    Aliased("file_path", "file", "path", "filePath", "Path");
  }

  lemma ErrorCodeAlias()
    ensures Alias("error_code") == "errorCode"
  {
    Aliased("error_code", "error", "code", "errorCode", "Code");
  }

  lemma ErrorMessageAlias()
    ensures Alias("error_message") == "errorMessage"
  {
    Aliased("error_message", "error", "message", "errorMessage", "Message");
  }

  lemma Aliased(name: string, a: string, b: string, alias: string, cb: string)
    requires name == a + "_" + b && alias == a + cb
    requires '_' !in a && '_' !in b
    requires b != [] && IsAsciiLower(b[0]) && cb == [ToUpper(b[0])] + b[1..]
    requires forall i :: 1 <= i < |b| ==> !IsAsciiUpper(b[i])
    ensures Alias(name) == alias
  {
    OneUnderscore(a, b);
    assert Lower(b[1..]) == b[1..];
  }
}
