/** `ai/worker/tasks.py`: the `process_audio_task` Celery task. The worker
    process keeps one speech-to-text service (a model name, and whether its
    model is loaded); a task resolves its options, switches the service to
    the requested model, transcribes, writes the result file and reports its
    progress, and turns any exception into a JSON `{code, message}` payload.
    Loading, transcribing and writing are oracles in `Env`. */
module Worker {
  import opened Wrappers
  import opened Strings
  import opened PythonText
  import opened Json
  import opened JsonEncoding
  import opened Schemas

  /** The model the worker process starts with. */
  const INITIAL_MODEL: string := "large-v3-turbo"
  const DEFAULT_BATCH_SIZE: int := 16
  const DEFAULT_LANGUAGE: string := "ko"
  /** What the lower-cased text of an exception is searched for. */
  const OOM_NEEDLE: string := "out of memory"
  const OOM_MESSAGE: string := "GPU Out of Memory. Please try a smaller model or batch size."
  const FILE_NOT_FOUND_PREFIX: string := "Audio file not found: "
  const RESULT_SUFFIX: string := "_result.json"

  /** The `options` dict of a request: each key present or absent. */
  datatype Options = Options(
    model: Option<string>,
    batchSize: Option<int>,
    noAlign: Option<bool>,
    language: Option<string>)

  /** The options after the defaults are filled in. */
  datatype Settings = Settings(model: string, batchSize: int, noAlign: bool, language: string)

  function GetOr<T>(o: Option<T>, default: T): T {
    if o.Some? then o.value else default
  }

  /** `options.get(key, default)` for the four keys; no `options` at all
      means an empty dict. The model defaults to the one the service holds. */
  function ResolveOptions(options: Option<Options>, current: string): (s: Settings)
    ensures options.None? ==> s == Settings(current, DEFAULT_BATCH_SIZE, false, DEFAULT_LANGUAGE)
    ensures options.Some? ==>
              && s.model == (if options.value.model.Some? then options.value.model.value else current)
              && s.batchSize == (if options.value.batchSize.Some? then options.value.batchSize.value else DEFAULT_BATCH_SIZE)
              && s.noAlign == (options.value.noAlign.Some? && options.value.noAlign.value)
              && s.language == (if options.value.language.Some? then options.value.language.value else DEFAULT_LANGUAGE)
  {
    var o := GetOr(options, Options(None, None, None, None));
    Settings(GetOr(o.model, current), GetOr(o.batchSize, DEFAULT_BATCH_SIZE),
             GetOr(o.noAlign, false), GetOr(o.language, DEFAULT_LANGUAGE))
  }

  /** The Python exceptions the classification tells apart. */
  datatype PyExceptionKind = CudaOutOfMemory | FileNotFoundError | OtherError(className: string)

  /** A raised exception and `str(e)`. */
  datatype PyException = PyException(kind: PyExceptionKind, text: string)

  /** The arguments of one `transcribe` call on the service holding `model`. */
  datatype TranscribeCall = TranscribeCall(model: string, audioPath: string, batchSize: int, align: bool, language: string)

  /** What a task does that others can see: its `update_state` reports, the
      model unloads and loads, the transcription and the result file. */
  datatype Event =
    | Progress(percent: int)
    | Succeeded
    | Unloaded(model: string)
    | Loaded(model: string)
    | Transcribed(call: TranscribeCall)
    | Wrote(path: string, result: JValue)

  /** The outside world: whether loading a model raises, what a
      transcription returns or raises, and whether writing a file raises. */
  datatype Env = Env(
    loadError: string -> Option<PyException>,
    transcribe: TranscribeCall -> Result<JValue, PyException>,
    writeError: string -> Option<PyException>)

  /** An error code and its message. */
  datatype Classified = Classified(code: ErrorCode, message: string)

  /** "out of memory" in the lower-cased message, or a CUDA out-of-memory
      error. */
  predicate IsOutOfMemory(e: PyException) {
    Contains(Lower(e.text), OOM_NEEDLE) || e.kind == CudaOutOfMemory
  }

  /** The piece of `text` at `i` lower-cases to "out of memory". */
  predicate NeedleAt(text: string, i: nat) {
    i + |OOM_NEEDLE| <= |text| && Lower(text[i..i + |OOM_NEEDLE|]) == OOM_NEEDLE
  }

  /** The test ignores case: an exception's text is out-of-memory exactly
      when some piece of it lower-cases to "out of memory". */
  lemma OomTextIgnoresCase(e: PyException)
    ensures Contains(Lower(e.text), OOM_NEEDLE) <==> exists i: nat :: NeedleAt(e.text, i)
  {
    if Contains(Lower(e.text), OOM_NEEDLE) {
      var i := ContainsFound(Lower(e.text), OOM_NEEDLE);
      LowerSlice(e.text, i, i + |OOM_NEEDLE|);
      assert NeedleAt(e.text, i);
    }
    if exists i: nat :: NeedleAt(e.text, i) {
      var i: nat :| NeedleAt(e.text, i);
      OomIgnoresCase(e, i);
    }
  }

  /** Any casing of "out of memory" anywhere in the text makes it
      out-of-memory. */
  lemma OomIgnoresCase(e: PyException, i: nat)
    requires NeedleAt(e.text, i)
    ensures Contains(Lower(e.text), OOM_NEEDLE) && IsOutOfMemory(e)
  {
    LowerSlice(e.text, i, i + |OOM_NEEDLE|);
    ContainsAt(Lower(e.text), OOM_NEEDLE, i);
  }

  /** "CUDA Out Of Memory" raised as a plain RuntimeError is classified as
      out-of-memory, and gets the fixed message. */
  lemma ShoutedOomIsGpuOom(filePath: string)
    ensures Classify(PyException(OtherError("RuntimeError"), "CUDA Out Of Memory"), filePath) ==
              Classified(GPU_OOM, OOM_MESSAGE)
  {
    var text := "CUDA Out Of Memory";
    var piece := text[5..18];
    assert piece == "Out Of Memory";
    var l := Lower(piece);
    assert l == OOM_NEEDLE by {
      forall k | 0 <= k < 13 ensures l[k] == OOM_NEEDLE[k] {
        if k == 0 || k == 4 || k == 7 { assert IsAsciiUpper(piece[k]); }
      }
    }
    OomIgnoresCase(PyException(OtherError("RuntimeError"), text), 5);
  }

  /** The `except` block's classification: out-of-memory first, then a
      missing file, else unknown with `str(e)`. */
  function Classify(e: PyException, filePath: string): (c: Classified)
    ensures c.code == GPU_OOM <==> IsOutOfMemory(e)
    ensures c.code == FILE_NOT_SUPPORTED <==> !IsOutOfMemory(e) && e.kind == FileNotFoundError
    ensures c.code == GPU_OOM ==> c.message == OOM_MESSAGE
    ensures c.code == FILE_NOT_SUPPORTED ==> c.message == FILE_NOT_FOUND_PREFIX + filePath
    ensures c.code == UNKNOWN_ERROR ==> c.message == e.text
  {
    if IsOutOfMemory(e) then Classified(GPU_OOM, OOM_MESSAGE)
    else if e.kind == FileNotFoundError then Classified(FILE_NOT_SUPPORTED, FILE_NOT_FOUND_PREFIX + filePath)
    else Classified(UNKNOWN_ERROR, e.text)
  }

  /** `json.dumps({"code": error_code, "message": error_msg})`, the text of
      the exception the task raises. */
  function ErrorPayload(c: Classified): string {
    DumpsStringDict([("code", c.code.Value()), ("message", c.message)])
  }

  /** The payload is a JSON object with exactly the keys "code" and
      "message", in that order, holding the code's value and the message. */
  lemma ErrorPayloadDecodes(c: Classified)
    ensures Loads(ErrorPayload(c)) ==
              Success(JObject([("code", JString(c.code.Value())), ("message", JString(c.message))]))
  {
    var pairs := [("code", c.code.Value()), ("message", c.message)];
    LoadsDumpsStringDict(pairs);
    assert StringMembers(pairs) == [("code", JString(c.code.Value())), ("message", JString(c.message))];
  }

  /** `f"{os.path.splitext(file_path)[0]}_result.json"`. */
  function ResultPath(filePath: string): string {
    SplitExtRoot(filePath) + RESULT_SUFFIX
  }

  /** The result path is a prefix of the audio path, then "_result.json". */
  lemma ResultPathShape(filePath: string)
    ensures var path := ResultPath(filePath);
            && |path| >= |RESULT_SUFFIX| && path[|path| - |RESULT_SUFFIX|..] == RESULT_SUFFIX
            && StartsWith(filePath, path[..|path| - |RESULT_SUFFIX|])
  {
    var root := SplitExtRoot(filePath);
    assert (root + RESULT_SUFFIX)[..|root|] == root;
  }

  /** The result file sits next to the audio file: the audio path without
      its extension, then "_result.json". */
  lemma ResultPathReplacesExtension(dir: string, stem: string, ext: string)
    requires '/' !in stem && '.' !in stem && stem != []
    requires '/' !in ext && '.' !in ext
    ensures ResultPath(dir + "/" + stem + "." + ext) == dir + "/" + stem + RESULT_SUFFIX
  {
    var p := dir + "/" + stem + "." + ext;
    var sep, dot := |dir|, |dir| + 1 + |stem|;
    assert p[sep] == '/' && p[dot] == '.';
    assert RFind(p, '.') == dot by {
      forall j | dot < j < |p| ensures p[j] != '.' { assert p[j] == ext[j - dot - 1]; }
      RFindIs(p, '.', dot);
    }
    assert RFind(p, '/') == sep by {
      forall j | sep < j < |p| ensures p[j] != '/' {
        if j < dot { assert p[j] == stem[j - sep - 1]; }
        else if j > dot { assert p[j] == ext[j - dot - 1]; }
      }
      RFindIs(p, '/', sep);
    }
    assert p[sep + 1] == stem[0];
    assert p[..dot] == dir + "/" + stem;
  }

  /** A dot-file keeps its name: "/d/.x" gives "/d/.x_result.json". */
  lemma ResultPathOfDotFile(dir: string, name: string)
    requires '/' !in name && '.' !in name
    ensures ResultPath(dir + "/." + name) == dir + "/." + name + RESULT_SUFFIX
  {
    var p := dir + "/." + name;
    var sep := |dir|;
    assert p[sep] == '/' && p[sep + 1] == '.';
    assert RFind(p, '/') == sep by {
      forall j | sep < j < |p| ensures p[j] != '/' {
        if j > sep + 1 { assert p[j] == name[j - sep - 2]; }
      }
      RFindIs(p, '/', sep);
    }
    assert RFind(p, '.') == sep + 1 by {
      forall j | sep + 1 < j < |p| ensures p[j] != '.' { assert p[j] == name[j - sep - 2]; }
      RFindIs(p, '.', sep + 1);
    }
  }

  lemma {:induction false} RFindIs(s: string, c: char, i: nat)
    requires i < |s| && s[i] == c
    requires forall j :: i < j < |s| ==> s[j] != c
    ensures RFind(s, c) == i
    decreases |s|
  {
    if i < |s| - 1 {
      RFindIs(s[..|s| - 1], c, i);
    }
  }

  /** The task's return value, or the classified error of the exception it
      raises; the exception's text is `ErrorPayload(error)`. */
  datatype Outcome = Completed(result: JValue) | Raised(error: Classified)

  /** What one task adds to the events, its outcome and the service it
      leaves behind. */
  datatype TaskRun = TaskRun(events: seq<Event>, outcome: Outcome, model: string, loaded: bool)

  /** A run with some events in front. */
  function Then(prefix: seq<Event>, r: TaskRun): TaskRun {
    r.(events := prefix + r.events)
  }

  /** The `except` block once a step raised `e`: the exception the task
      raises, and an unload of the service's model on out-of-memory. */
  function Fail(e: PyException, model: string, loaded: bool, filePath: string): TaskRun {
    var payload := Raised(Classify(e, filePath));
    if IsOutOfMemory(e) then TaskRun([Unloaded(model)], payload, model, false)
    else TaskRun([], payload, model, loaded)
  }

  /** The arguments the task passes to `transcribe`. */
  function CallFor(filePath: string, s: Settings): TranscribeCall {
    TranscribeCall(s.model, filePath, s.batchSize, !s.noAlign, s.language)
  }

  /** Whether a model load happens: after a switch, or lazily in
      `transcribe` when nothing is loaded. */
  predicate NeedsLoad(start: string, wasLoaded: bool, target: string) {
    start != target || !wasLoaded
  }

  /** A task run on a service holding `start` (loaded or not): report 0;
      when the target model differs, unload the old model and load the new
      one; then go on as `Proceed` says. The first step that raises ends the
      run through `Fail`. */
  function Run(start: string, wasLoaded: bool, filePath: string, options: Option<Options>, env: Env): TaskRun {
    var s := ResolveOptions(options, start);
    var call := CallFor(filePath, s);
    Then([Progress(0)],
      if start == s.model then Proceed(wasLoaded, call, env, filePath)
      else if env.loadError(s.model).Some? then
        Then([Unloaded(start)], Fail(env.loadError(s.model).value, s.model, false, filePath))
      else Then([Unloaded(start), Loaded(s.model)], Proceed(true, call, env, filePath)))
  }

  /** From the report of 20 on: report 20, load the model if none is
      loaded, then transcribe and save. */
  function Proceed(wasLoaded: bool, call: TranscribeCall, env: Env, filePath: string): TaskRun {
    if wasLoaded then Then([Progress(20)], Transcribe(call, env, filePath))
    else if env.loadError(call.model).Some? then
      Then([Progress(20)], Fail(env.loadError(call.model).value, call.model, false, filePath))
    else Then([Progress(20), Loaded(call.model)], Transcribe(call, env, filePath))
  }

  lemma RunSwitchFails(start: string, wasLoaded: bool, filePath: string, options: Option<Options>, env: Env)
    requires var s := ResolveOptions(options, start); start != s.model && env.loadError(s.model).Some?
    ensures var s := ResolveOptions(options, start);
            var f := Fail(env.loadError(s.model).value, s.model, false, filePath);
            Run(start, wasLoaded, filePath, options, env) == f.(events := [Progress(0), Unloaded(start)] + f.events)
  {
  }

  lemma RunProceeds(start: string, wasLoaded: bool, filePath: string, options: Option<Options>, env: Env)
    requires var s := ResolveOptions(options, start); start == s.model || env.loadError(s.model).None?
    ensures var s := ResolveOptions(options, start);
            var p := Proceed(wasLoaded || start != s.model, CallFor(filePath, s), env, filePath);
            Run(start, wasLoaded, filePath, options, env) ==
              p.(events := [Progress(0)] + (if start == s.model then [] else [Unloaded(start), Loaded(s.model)]) + p.events)
  {
  }

  /** The rest of a run once the model is loaded. */
  function Transcribe(call: TranscribeCall, env: Env, filePath: string): TaskRun {
    var path := ResultPath(filePath);
    match env.transcribe(call)
    case Failure(e) => Fail(e, call.model, true, filePath)
    case Success(result) =>
      if env.writeError(path).Some? then
        Then([Transcribed(call), Progress(90)], Fail(env.writeError(path).value, call.model, true, filePath))
      else TaskRun([Transcribed(call), Progress(90), Wrote(path, result), Succeeded], Completed(result), call.model, true)
  }

  /** The items `f` picks out of `events`, in order. */
  function Projection<U>(events: seq<Event>, f: Event -> Option<U>): seq<U>
    decreases |events|
  {
    if events == [] then []
    else Item(events[0], f) + Projection(events[1..], f)
  }

  lemma {:induction false} ProjectionAppend<U>(a: seq<Event>, b: seq<Event>, f: Event -> Option<U>)
    ensures Projection(a + b, f) == Projection(a, f) + Projection(b, f)
    decreases |a|
  {
    if a != [] {
      assert (a + b)[0] == a[0];
      assert (a + b)[1..] == a[1..] + b;
      ProjectionAppend(a[1..], b, f);
      ConcatAssoc(Item(a[0], f), Projection(a[1..], f), Projection(b, f));
    } else {
      assert a + b == b;
    }
  }

  /** What `f` picks out of one event. */
  function Item<U>(e: Event, f: Event -> Option<U>): seq<U> {
    if f(e).Some? then [f(e).value] else []
  }

  lemma ProjectionCons<U>(e: Event, rest: seq<Event>, f: Event -> Option<U>)
    ensures Projection([e] + rest, f) == Item(e, f) + Projection(rest, f)
  {
    assert ([e] + rest)[0] == e;
    assert ([e] + rest)[1..] == rest;
  }

  /** The projections of an event put in front of a sequence. */
  lemma ProjectsCons(e: Event, events: seq<Event>, p: seq<int>, c: seq<TranscribeCall>, u: seq<string>, l: seq<string>)
    requires Projects(events, p, c, u, l)
    ensures Projects([e] + events, Item(e, PercentOf) + p, Item(e, CallOf) + c, Item(e, UnloadOf) + u, Item(e, LoadOf) + l)
  {
    ProjectionCons(e, events, PercentOf);
    ProjectionCons(e, events, CallOf);
    ProjectionCons(e, events, UnloadOf);
    ProjectionCons(e, events, LoadOf);
  }

  function PercentOf(e: Event): Option<int> {
    if e.Progress? then Some(e.percent) else None
  }

  function CallOf(e: Event): Option<TranscribeCall> {
    if e.Transcribed? then Some(e.call) else None
  }

  function UnloadOf(e: Event): Option<string> {
    if e.Unloaded? then Some(e.model) else None
  }

  function LoadOf(e: Event): Option<string> {
    if e.Loaded? then Some(e.model) else None
  }

  /** Whether a run raised out-of-memory. */
  predicate RaisedOom(r: TaskRun) {
    r.outcome.Raised? && r.outcome.error.code == GPU_OOM
  }

  /** What the events of a run say, item by item: the progress reports,
      the transcriptions, the models unloaded and the models loaded. */
  predicate Projects(events: seq<Event>, percents: seq<int>, calls: seq<TranscribeCall>,
                     unloads: seq<string>, loads: seq<string>)
  {
    && Projection(events, PercentOf) == percents
    && Projection(events, CallOf) == calls
    && Projection(events, UnloadOf) == unloads
    && Projection(events, LoadOf) == loads
  }

  lemma ProjectsThen(prefix: seq<Event>, events: seq<Event>, p: seq<int>, c: seq<TranscribeCall>, u: seq<string>, l: seq<string>,
                     p': seq<int>, c': seq<TranscribeCall>, u': seq<string>, l': seq<string>)
    requires Projects(prefix, p, c, u, l) && Projects(events, p', c', u', l')
    ensures Projects(prefix + events, p + p', c + c', u + u', l + l')
  {
    ProjectionAppend(prefix, events, PercentOf);
    ProjectionAppend(prefix, events, CallOf);
    ProjectionAppend(prefix, events, UnloadOf);
    ProjectionAppend(prefix, events, LoadOf);
  }

  /** The projections of a run with one more event in front. */
  lemma ThenCons(e: Event, r: TaskRun, p: seq<int>, c: seq<TranscribeCall>, u: seq<string>, l: seq<string>)
    requires Projects(r.events, p, c, u, l)
    ensures Projects(Then([e], r).events, Item(e, PercentOf) + p, Item(e, CallOf) + c,
                     Item(e, UnloadOf) + u, Item(e, LoadOf) + l)
  {
    ProjectsCons(e, r.events, p, c, u, l);
  }

  /** How a run ends: on `model`; when it completes, with that model
      loaded, after writing `result` to `path` and reporting success; after
      out-of-memory, with the model just unloaded. */
  predicate Ends(r: TaskRun, model: string, path: string, result: Option<JValue>) {
    && r.model == model
    && (r.outcome.Completed? ==>
          && r.loaded && result == Some(r.outcome.result)
          && r.events != [] && r.events[|r.events| - 1] == Succeeded
          && Wrote(path, r.outcome.result) in r.events)
    && (RaisedOom(r) ==> !r.loaded && r.events != [] && r.events[|r.events| - 1] == Unloaded(model))
  }

  lemma EndsThen(prefix: seq<Event>, r: TaskRun, model: string, path: string, result: Option<JValue>)
    requires Ends(r, model, path, result)
    ensures Ends(Then(prefix, r), model, path, result)
  {
    var t := Then(prefix, r);
    if t.outcome.Completed? || RaisedOom(t) {
      assert t.events[|t.events| - 1] == r.events[|r.events| - 1];
    }
    if t.outcome.Completed? {
      var i :| 0 <= i < |r.events| && r.events[i] == Wrote(path, r.outcome.result);
      assert t.events[|prefix| + i] == r.events[i];
    }
  }

  /** The transcription's result, if it returns one. */
  function ResultOf(call: TranscribeCall, env: Env): Option<JValue> {
    if env.transcribe(call).Success? then Some(env.transcribe(call).value) else None
  }

  lemma FailFacts(e: PyException, model: string, loaded: bool, filePath: string)
    ensures var r := Fail(e, model, loaded, filePath);
            && r.outcome == Raised(Classify(e, filePath))
            && Ends(r, model, ResultPath(filePath), None)
            && Projects(r.events, [], [], if RaisedOom(r) then [model] else [], [])
            && (!RaisedOom(r) ==> r.loaded == loaded)
  {
  }

  lemma TranscribeFacts(call: TranscribeCall, env: Env, filePath: string)
    ensures var r := Transcribe(call, env, filePath);
            var ok := env.transcribe(call).Success?;
            && Ends(r, call.model, ResultPath(filePath), ResultOf(call, env))
            && Projects(r.events, if ok then [90] else [], if ok then [call] else [],
                        if RaisedOom(r) then [call.model] else [], [])
            && (r.outcome.Completed? <==> ok && env.writeError(ResultPath(filePath)).None?)
  {
    var path := ResultPath(filePath);
    match env.transcribe(call)
    case Failure(e) =>
      FailFacts(e, call.model, true, filePath);
    case Success(result) =>
      if env.writeError(path).Some? {
        var e := env.writeError(path).value;
        FailFacts(e, call.model, true, filePath);
        WriteFailFacts(call, Fail(e, call.model, true, filePath), path, Some(result));
      } else {
        CompletedFacts(call, path, result);
      }
  }

  /** A transcription whose result file cannot be written. */
  lemma WriteFailFacts(call: TranscribeCall, f: TaskRun, path: string, result: Option<JValue>)
    requires Ends(f, call.model, path, result)
    requires Projects(f.events, [], [], if RaisedOom(f) then [call.model] else [], [])
    ensures var r := Then([Transcribed(call), Progress(90)], f);
            && Ends(r, call.model, path, result)
            && Projects(r.events, [90], [call], if RaisedOom(f) then [call.model] else [], [])
  {
    var u := if RaisedOom(f) then [call.model] else [];
    EndsThen([Transcribed(call), Progress(90)], f, call.model, path, result);
    TranscribedProjects(call);
    ProjectsThen([Transcribed(call), Progress(90)], f.events, [90], [call], [], [], [], [], u, []);
  }

  /** A transcription whose result file is written. */
  lemma CompletedFacts(call: TranscribeCall, path: string, result: JValue)
    ensures var r := TaskRun([Transcribed(call), Progress(90), Wrote(path, result), Succeeded],
                             Completed(result), call.model, true);
            && Ends(r, call.model, path, Some(result))
            && Projects(r.events, [90], [call], [], [])
  {
    var done, saved := [Transcribed(call), Progress(90)], [Wrote(path, result), Succeeded];
    TranscribedProjects(call);
    SavedProjects(path, result);
    ProjectsThen(done, saved, [90], [call], [], [], [], [], [], []);
    assert done + saved == [Transcribed(call), Progress(90), Wrote(path, result), Succeeded];
  }

  lemma TranscribedProjects(call: TranscribeCall)
    ensures Projects([Transcribed(call), Progress(90)], [90], [call], [], [])
  {
    ProjectsCons(Progress(90), [], [], [], [], []);
    ProjectsCons(Transcribed(call), [Progress(90)], [90], [], [], []);
    assert [Transcribed(call)] + [Progress(90)] == [Transcribed(call), Progress(90)];
  }

  lemma SavedProjects(path: string, result: JValue)
    ensures Projects([Wrote(path, result), Succeeded], [], [], [], [])
  {
    ProjectsCons(Succeeded, [], [], [], [], []);
    ProjectsCons(Wrote(path, result), [Succeeded], [], [], [], []);
    assert [Wrote(path, result)] + [Succeeded] == [Wrote(path, result), Succeeded];
  }

  /** How a run from the report of 20 on ends. */
  lemma ProceedEnds(wasLoaded: bool, call: TranscribeCall, env: Env, filePath: string)
    ensures var r := Proceed(wasLoaded, call, env, filePath);
            var loadFails := !wasLoaded && env.loadError(call.model).Some?;
            && Ends(r, call.model, ResultPath(filePath), ResultOf(call, env))
            && (r.outcome.Completed? <==>
                  !loadFails && env.transcribe(call).Success? && env.writeError(ResultPath(filePath)).None?)
  {
    var t := Transcribe(call, env, filePath);
    TranscribeFacts(call, env, filePath);
    if wasLoaded {
      EndsThen([Progress(20)], t, call.model, ResultPath(filePath), ResultOf(call, env));
    } else if env.loadError(call.model).Some? {
      var e := env.loadError(call.model).value;
      FailFacts(e, call.model, false, filePath);
      EndsThen([Progress(20)], Fail(e, call.model, false, filePath), call.model, ResultPath(filePath), ResultOf(call, env));
    } else {
      EndsThen([Progress(20), Loaded(call.model)], t, call.model, ResultPath(filePath), ResultOf(call, env));
    }
  }

  /** What a run from the report of 20 on reports, transcribes, unloads
      and loads: 20, then 90 when the transcription returns; that one
      transcription; the model after out-of-memory; the model when it had
      to be loaded and loading worked. */
  predicate ProceedProjected(wasLoaded: bool, call: TranscribeCall, env: Env, filePath: string) {
    var r := Proceed(wasLoaded, call, env, filePath);
    var loadFails := !wasLoaded && env.loadError(call.model).Some?;
    var ok := !loadFails && env.transcribe(call).Success?;
    Projects(r.events, [20] + (if ok then [90] else []), if ok then [call] else [],
             if RaisedOom(r) then [call.model] else [],
             if !wasLoaded && !loadFails then [call.model] else [])
  }

  lemma ProceedProjects(wasLoaded: bool, call: TranscribeCall, env: Env, filePath: string)
    ensures ProceedProjected(wasLoaded, call, env, filePath)
  {
    if wasLoaded {
      ProceedLoadedProjects(call, env, filePath);
    } else if env.loadError(call.model).Some? {
      ProceedLoadFailsProjects(call, env, filePath);
    } else {
      ProceedLoadsProjects(call, env, filePath);
    }
  }

  lemma ProceedLoadedProjects(call: TranscribeCall, env: Env, filePath: string)
    ensures ProceedProjected(true, call, env, filePath)
  {
    var t := Transcribe(call, env, filePath);
    var ok := env.transcribe(call).Success?;
    TranscribeFacts(call, env, filePath);
    ThenCons(Progress(20), t, if ok then [90] else [], if ok then [call] else [],
             if RaisedOom(t) then [call.model] else [], []);
  }

  lemma ProceedLoadFailsProjects(call: TranscribeCall, env: Env, filePath: string)
    requires env.loadError(call.model).Some?
    ensures ProceedProjected(false, call, env, filePath)
  {
    var e := env.loadError(call.model).value;
    var f := Fail(e, call.model, false, filePath);
    FailFacts(e, call.model, false, filePath);
    ThenCons(Progress(20), f, [], [], if RaisedOom(f) then [call.model] else [], []);
  }

  lemma ProceedLoadsProjects(call: TranscribeCall, env: Env, filePath: string)
    requires env.loadError(call.model).None?
    ensures ProceedProjected(false, call, env, filePath)
  {
    var t := Transcribe(call, env, filePath);
    var ok := env.transcribe(call).Success?;
    var ninety: seq<int> := if ok then [90] else [];
    var calls := if ok then [call] else [];
    var u := if RaisedOom(t) then [call.model] else [];
    TranscribeFacts(call, env, filePath);
    LoadHeadProjects(call.model);
    ProjectsThen([Progress(20), Loaded(call.model)], t.events, [20], [], [], [call.model], ninety, calls, u, []);
  }

  lemma LoadHeadProjects(model: string)
    ensures Projects([Progress(20), Loaded(model)], [20], [], [], [model])
  {
    ProjectsCons(Loaded(model), [], [], [], [], []);
    ProjectsCons(Progress(20), [Loaded(model)], [], [], [], [model]);
    assert [Progress(20)] + [Loaded(model)] == [Progress(20), Loaded(model)];
  }

  /** How a task ends, for every service state, options and outcome of the
      outside calls: it holds the target model; it completes exactly when
      no step raised, and then returns the transcription after writing it to
      the result path and reporting success, with the model loaded; after
      out-of-memory no model is loaded. */
  lemma RunEnds(start: string, wasLoaded: bool, filePath: string, options: Option<Options>, env: Env)
    ensures var s := ResolveOptions(options, start);
            var call := CallFor(filePath, s);
            var r := Run(start, wasLoaded, filePath, options, env);
            var loadFails := NeedsLoad(start, wasLoaded, s.model) && env.loadError(s.model).Some?;
            && Ends(r, s.model, ResultPath(filePath), ResultOf(call, env))
            && (r.outcome.Completed? <==>
                  !loadFails && env.transcribe(call).Success? && env.writeError(ResultPath(filePath)).None?)
  {
    var s := ResolveOptions(options, start);
    var call := CallFor(filePath, s);
    var path, result := ResultPath(filePath), ResultOf(call, env);
    if start == s.model {
      ProceedEnds(wasLoaded, call, env, filePath);
      EndsThen([Progress(0)], Proceed(wasLoaded, call, env, filePath), s.model, path, result);
    } else if env.loadError(s.model).Some? {
      var f := Fail(env.loadError(s.model).value, s.model, false, filePath);
      FailFacts(env.loadError(s.model).value, s.model, false, filePath);
      EndsThen([Unloaded(start)], f, s.model, path, result);
      EndsThen([Progress(0)], Then([Unloaded(start)], f), s.model, path, result);
    } else {
      var p := Proceed(true, call, env, filePath);
      ProceedEnds(true, call, env, filePath);
      EndsThen([Unloaded(start), Loaded(s.model)], p, s.model, path, result);
      EndsThen([Progress(0)], Then([Unloaded(start), Loaded(s.model)], p), s.model, path, result);
    }
  }

  /** What a task reports, transcribes, unloads and loads:
      - it reports 0, then 20 unless the model switch failed, then 90 when
        the transcription succeeded;
      - it transcribes at most once, with the resolved options (`align` is
        the negation of `no_align`);
      - it unloads the old model exactly when the target differs, and the
        model it holds after an out-of-memory error;
      - it loads the target model exactly when a load is needed and works. */
  predicate RunProjected(start: string, wasLoaded: bool, filePath: string, options: Option<Options>, env: Env) {
    var s := ResolveOptions(options, start);
    var target := s.model;
    var call := TranscribeCall(target, filePath, s.batchSize, !s.noAlign, s.language);
    var r := Run(start, wasLoaded, filePath, options, env);
    var loadFails := NeedsLoad(start, wasLoaded, target) && env.loadError(target).Some?;
    var ok := !loadFails && env.transcribe(call).Success?;
    Projects(r.events,
      [0] + (if loadFails && start != target then [] else [20]) + (if ok then [90] else []),
      if ok then [call] else [],
      (if start != target then [start] else []) + (if RaisedOom(r) then [target] else []),
      if NeedsLoad(start, wasLoaded, target) && !loadFails then [target] else [])
  }

  lemma RunProjectsKeep(start: string, wasLoaded: bool, filePath: string, options: Option<Options>, env: Env)
    requires ResolveOptions(options, start).model == start
    ensures RunProjected(start, wasLoaded, filePath, options, env)
  {
    var s := ResolveOptions(options, start);
    var call := CallFor(filePath, s);
    var p := Proceed(wasLoaded, call, env, filePath);
    ProceedProjects(wasLoaded, call, env, filePath);
    var ok := !(!wasLoaded && env.loadError(start).Some?) && env.transcribe(call).Success?;
    var ninety: seq<int> := if ok then [90] else [];
    var calls := if ok then [call] else [];
    var unloads := if RaisedOom(p) then [start] else [];
    var loads := if !wasLoaded && !(!wasLoaded && env.loadError(start).Some?) then [start] else [];
    var r := Run(start, wasLoaded, filePath, options, env);
    assert r == Then([Progress(0)], p);
    StartProjects(p, ninety, calls, unloads, loads);
    assert call == TranscribeCall(start, filePath, s.batchSize, !s.noAlign, s.language);
  }

  /** The report of 0 in front of a run that reports 20 first. */
  lemma StartProjects(p: TaskRun, ninety: seq<int>, calls: seq<TranscribeCall>, unloads: seq<string>, loads: seq<string>)
    requires Projects(p.events, [20] + ninety, calls, unloads, loads)
    ensures Projects(Then([Progress(0)], p).events, [0] + [20] + ninety, calls, [] + unloads, loads)
  {
    ThenCons(Progress(0), p, [20] + ninety, calls, unloads, loads);
    ConcatAssoc([0], [20], ninety);
  }

  lemma RunProjectsSwitchFails(start: string, wasLoaded: bool, filePath: string, options: Option<Options>, env: Env)
    requires ResolveOptions(options, start).model != start
    requires env.loadError(ResolveOptions(options, start).model).Some?
    ensures RunProjected(start, wasLoaded, filePath, options, env)
  {
    var target := ResolveOptions(options, start).model;
    var e := env.loadError(target).value;
    var f := Fail(e, target, false, filePath);
    var u := if RaisedOom(f) then [target] else [];
    FailFacts(e, target, false, filePath);
    RunSwitchFails(start, wasLoaded, filePath, options, env);
    ConcatAssoc([Progress(0)], [Unloaded(start)], f.events);
    assert Run(start, wasLoaded, filePath, options, env) == Then([Progress(0)], Then([Unloaded(start)], f));
    ThenCons(Unloaded(start), f, [], [], u, []);
    ThenCons(Progress(0), Then([Unloaded(start)], f), [], [], [start] + u, []);
  }

  lemma SwitchHeadProjects(start: string, target: string)
    ensures Projects([Progress(0)] + [Unloaded(start), Loaded(target)], [0], [], [start], [target])
  {
    ProjectsCons(Loaded(target), [], [], [], [], []);
    ProjectsCons(Unloaded(start), [Loaded(target)], [], [], [], [target]);
    assert [Unloaded(start)] + [Loaded(target)] == [Unloaded(start), Loaded(target)];
    ProjectsCons(Progress(0), [Unloaded(start), Loaded(target)], [], [], [start], [target]);
  }

  lemma RunProjectsSwitch(start: string, wasLoaded: bool, filePath: string, options: Option<Options>, env: Env)
    requires ResolveOptions(options, start).model != start
    requires env.loadError(ResolveOptions(options, start).model).None?
    ensures RunProjected(start, wasLoaded, filePath, options, env)
  {
    var s := ResolveOptions(options, start);
    var target := s.model;
    var call := CallFor(filePath, s);
    var p := Proceed(true, call, env, filePath);
    ProceedProjects(true, call, env, filePath);
    var ok := env.transcribe(call).Success?;
    var head := [Progress(0)] + [Unloaded(start), Loaded(target)];
    SwitchHeadProjects(start, target);
    var ninety: seq<int> := if ok then [90] else [];
    RunProceeds(start, wasLoaded, filePath, options, env);
    ProjectsThen(head, p.events, [0], [], [start], [target],
                 [20] + ninety, if ok then [call] else [],
                 if RaisedOom(p) then [target] else [], []);
    ConcatAssoc([0], [20], ninety);
  }

  lemma RunProjects(start: string, wasLoaded: bool, filePath: string, options: Option<Options>, env: Env)
    ensures RunProjected(start, wasLoaded, filePath, options, env)
  {
    var target := ResolveOptions(options, start).model;
    if target == start {
      RunProjectsKeep(start, wasLoaded, filePath, options, env);
    } else if env.loadError(target).Some? {
      RunProjectsSwitchFails(start, wasLoaded, filePath, options, env);
    } else {
      RunProjectsSwitch(start, wasLoaded, filePath, options, env);
    }
  }

  /** Progress is reported in the order 0, 20, 90, and a completed task
      reported all three. */
  lemma RunReportsProgressInOrder(start: string, wasLoaded: bool, filePath: string, options: Option<Options>, env: Env)
    ensures var r := Run(start, wasLoaded, filePath, options, env);
            var p := Projection(r.events, PercentOf);
            && (p == [0] || p == [0, 20] || p == [0, 20, 90])
            && (r.outcome.Completed? ==> p == [0, 20, 90] && r.events[|r.events| - 1] == Succeeded)
  {
    RunProjects(start, wasLoaded, filePath, options, env);
    RunEnds(start, wasLoaded, filePath, options, env);
    var s := ResolveOptions(options, start);
    var call := CallFor(filePath, s);
    var loadFails := NeedsLoad(start, wasLoaded, s.model) && env.loadError(s.model).Some?;
    var ok := !loadFails && env.transcribe(call).Success?;
    var twenty: seq<int> := if loadFails && start != s.model then [] else [20];
    var ninety: seq<int> := if ok then [90] else [];
    var r := Run(start, wasLoaded, filePath, options, env);
    assert Projection(r.events, PercentOf) == [0] + twenty + ninety;
    assert r.outcome.Completed? ==> ok;
    ProgressShapes(twenty, ninety);
  }

  lemma ProgressShapes(twenty: seq<int>, ninety: seq<int>)
    requires twenty == [] || twenty == [20]
    requires ninety == [] || (ninety == [90] && twenty == [20])
    ensures var p := [0] + twenty + ninety; p == [0] || p == [0, 20] || p == [0, 20, 90]
    ensures ninety == [90] ==> [0] + twenty + ninety == [0, 20, 90]
  {
  }

  /** A raising task raises the classification of the exception one of its
      steps raised: the model load it needed, the transcription or the
      result write. */
  lemma RunRaised(start: string, wasLoaded: bool, filePath: string, options: Option<Options>, env: Env)
    returns (e: PyException)
    requires Run(start, wasLoaded, filePath, options, env).outcome.Raised?
    ensures var s := ResolveOptions(options, start);
            var call := CallFor(filePath, s);
            && ((NeedsLoad(start, wasLoaded, s.model) && env.loadError(s.model) == Some(e))
                || env.transcribe(call) == Failure(e)
                || env.writeError(ResultPath(filePath)) == Some(e))
            && Run(start, wasLoaded, filePath, options, env).outcome.error == Classify(e, filePath)
  {
    var s := ResolveOptions(options, start);
    var call := CallFor(filePath, s);
    if NeedsLoad(start, wasLoaded, s.model) && env.loadError(s.model).Some? {
      e := env.loadError(s.model).value;
    } else if env.transcribe(call).Failure? {
      e := env.transcribe(call).error;
    } else {
      e := env.writeError(ResultPath(filePath)).value;
    }
  }

  /** The worker process: the service `current_stt_service` refers to and
      everything its tasks did so far. */
  class Worker {
    var model: string
    var loaded: bool
    var events: seq<Event>

    /** The module-level `STTService(model_name="large-v3-turbo")`; its
        model is not loaded yet. */
    constructor()
      ensures model == INITIAL_MODEL && !loaded && events == []
    {
      model := INITIAL_MODEL;
      loaded := false;
      events := [];
    }

    /** `unload_model`: drops whatever model is loaded. */
    method UnloadModel()
      modifies this
      ensures model == old(model) && !loaded && events == old(events) + [Unloaded(model)]
    {
      events := events + [Unloaded(model)];
      loaded := false;
    }

    /** `load_model`: loads the model when none is loaded; a failed load
        leaves nothing loaded. */
    method LoadModel(env: Env) returns (error: Option<PyException>)
      modifies this
      ensures model == old(model)
      ensures old(loaded) ==> error.None? && loaded && events == old(events)
      ensures !old(loaded) ==> error == env.loadError(model)
      ensures !old(loaded) && error.None? ==> loaded && events == old(events) + [Loaded(model)]
      ensures !old(loaded) && error.Some? ==> !loaded && events == old(events)
    {
      error := None;
      if !loaded {
        error := env.loadError(model);
        if error.None? {
          loaded := true;
          events := events + [Loaded(model)];
        }
      }
    }

    /** The `except` block: classify, unload on out-of-memory, raise the
        payload. */
    method Raise(e: PyException, filePath: string) returns (outcome: Outcome)
      modifies this
      ensures var r := Fail(e, old(model), old(loaded), filePath);
              events == old(events) + r.events && outcome == r.outcome && model == r.model && loaded == r.loaded
    {
      if IsOutOfMemory(e) {
        UnloadModel();
      }
      outcome := Raised(Classify(e, filePath));
    }

    /** From the `transcribe` call to the end of the `try` block, with the
        model loaded. */
    method TranscribeAndSave(call: TranscribeCall, filePath: string, env: Env) returns (outcome: Outcome)
      requires loaded && call.model == model
      modifies this
      ensures var r := Transcribe(call, env, filePath);
              events == old(events) + r.events && outcome == r.outcome && model == r.model && loaded == r.loaded
    {
      var result := env.transcribe(call);
      if result.Failure? {
        outcome := Raise(result.error, filePath);
      } else {
        var done := [Transcribed(call), Progress(90)];
        events := events + done;
        var path := ResultPath(filePath);
        var error := env.writeError(path);
        if error.Some? {
          outcome := Raise(error.value, filePath);
          assert events == old(events) + (done + Fail(error.value, model, true, filePath).events);
        } else {
          events := events + [Wrote(path, result.value), Succeeded];
          outcome := Completed(result.value);
        }
      }
    }

    /** The `try` block after the model switch. */
    method Continue(call: TranscribeCall, filePath: string, env: Env) returns (outcome: Outcome)
      requires call.model == model
      modifies this
      ensures var r := Proceed(old(loaded), call, env, filePath);
              events == old(events) + r.events && outcome == r.outcome && model == r.model && loaded == r.loaded
    {
      ghost var before, wasLoaded := events, loaded;
      events := events + [Progress(20)];
      var error := LoadModel(env);
      ghost var ready := events;
      if error.Some? {
        ghost var f := Fail(error.value, model, false, filePath);
        outcome := Raise(error.value, filePath);
        assert Proceed(wasLoaded, call, env, filePath) == Then([Progress(20)], f);
        ConcatAssoc(before, [Progress(20)], f.events);
      } else {
        ghost var t := Transcribe(call, env, filePath);
        ghost var head := if wasLoaded then [Progress(20)] else [Progress(20), Loaded(model)];
        assert ready == before + head;
        outcome := TranscribeAndSave(call, filePath, env);
        assert Proceed(wasLoaded, call, env, filePath) == Then(head, t);
        ConcatAssoc(before, head, t.events);
      }
    }

    /** The model switch: unload the old model, rebind to a fresh
        service for `target` and load it. */
    method SwitchModel(target: string, env: Env) returns (error: Option<PyException>)
      modifies this
      ensures model == target && error == env.loadError(target) && loaded == error.None?
      ensures events == old(events) + [Unloaded(old(model))] + (if error.None? then [Loaded(target)] else [])
    {
      UnloadModel();
      model := target;
      error := LoadModel(env);
    }

    /** `process_audio_task(file_path, options)`. */
    method ProcessAudio(filePath: string, options: Option<Options>, env: Env) returns (outcome: Outcome)
      modifies this
      ensures var r := Run(old(model), old(loaded), filePath, options, env);
              && events == old(events) + r.events && outcome == r.outcome
              && model == r.model && loaded == r.loaded
    {
      ghost var start, wasLoaded, before := model, loaded, events;
      events := events + [Progress(0)];
      var s := ResolveOptions(options, model);
      var call := CallFor(filePath, s);
      if model != s.model {
        var error := SwitchModel(s.model, env);
        if error.Some? {
          outcome := Raise(error.value, filePath);
          RunSwitchFails(start, wasLoaded, filePath, options, env);
          ghost var f := Fail(error.value, s.model, false, filePath);
          ConcatAssoc(before, [Progress(0), Unloaded(start)], f.events);
          return;
        }
      }
      ghost var ready := loaded;
      ghost var switch := [Progress(0)] + (if start == s.model then [] else [Unloaded(start), Loaded(s.model)]);
      assert events == before + switch;
      outcome := Continue(call, filePath, env);
      RunProceeds(start, wasLoaded, filePath, options, env);
      ConcatAssoc(before, switch, Proceed(ready, call, env, filePath).events);
    }
  }
}
