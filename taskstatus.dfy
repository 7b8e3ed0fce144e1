/** The status endpoint of the AI server, `GET /status/{job_id}`: the state
    and info the task queue keeps for a job, mapped to a
    `TaskStatusResponse`, and that response held to its declared schema
    when FastAPI serialises it. */
module TaskStatus {
  import opened Wrappers
  import opened Json
  import opened Schemas
  import opened Worker

  /** What the route reads of `AsyncResult.info`: whether it is a dict, its
      "progress" entry when that is an integer, and `str(info)`. For a
      failed task `info` is the raised exception, whose `str` is the
      argument it was raised with. */
  datatype TaskInfo = TaskInfo(isDict: bool, progress: Option<int>, text: string)

  /** The response object the route builds and updates. */
  datatype TaskStatusResponse = TaskStatusResponse(
    jobId: string, status: string, progress: real, result: Option<JValue>,
    errorCode: Option<JValue>, errorMessage: Option<JValue>)

  /** The response body once it conforms to the schema: `error_code` is one
      of the `ErrorCode` values and `error_message` a string. */
  datatype StatusBody = StatusBody(
    jobId: string, status: string, progress: real, result: Option<JValue>,
    errorCode: Option<ErrorCode>, errorMessage: Option<string>)

  /** What the client receives: the body, or a 500 when the route raises an
      exception it does not catch or the response does not fit its schema.
      `OutsideModel` stands for failure texts whose JSON holds a lone
      surrogate, which Python keeps in a `str` and this model cannot. */
  datatype StatusReply = Ok(body: StatusBody) | InternalServerError | OutsideModel

  /** What the `try` block in the FAILURE branch makes of the failure text:
      the fields to set, or the way it ends otherwise. */
  datatype FailureFields =
    | Fields(code: Option<JValue>, message: Option<JValue>)
    | NotAnObject    // `.get` on a list, string or number: AttributeError
    | Unrepresentable

  /** `dict.get(key)`: None when the key is missing or maps to JSON null. */
  function PyGet(members: seq<(string, JValue)>, key: string): (r: Option<JValue>)
    ensures r.Some? <==> Get(members, key).Some? && Get(members, key).value != JNull
    ensures r.Some? ==> r == Get(members, key)
  {
    match Get(members, key)
    case None => None
    case Some(v) => if v == JNull then None else Some(v)
  }

  /** `json.loads(error_str)` and the two `get`s, or the JSONDecodeError
      fallback: code "WORKER_999" with the raw text as the message. */
  function DecodeFailure(text: string): (f: FailureFields)
    ensures Loads(text) == Failure(Malformed) ==>
              f == Fields(Some(JString(UNKNOWN_ERROR.Value())), Some(JString(text)))
    ensures Loads(text) == Failure(LoneSurrogate) ==> f == Unrepresentable
    ensures (Loads(text).Success? && !Loads(text).value.JObject?) ==> f == NotAnObject
    ensures (Loads(text).Success? && Loads(text).value.JObject?) ==>
              f == Fields(PyGet(Loads(text).value.members, "code"), PyGet(Loads(text).value.members, "message"))
  {
    match Loads(text)
    case Failure(Malformed) => Fields(Some(JString(UNKNOWN_ERROR.Value())), Some(JString(text)))
    case Failure(LoneSurrogate) => Unrepresentable
    case Success(JObject(members)) => Fields(PyGet(members, "code"), PyGet(members, "message"))
    case Success(_) => NotAnObject
  }

  /** `error_code: Optional[ErrorCode]`: absent, or a string that is one of
      the enum's values. */
  function CheckCode(v: Option<JValue>): (r: Result<Option<ErrorCode>, string>)
    ensures r.Success? <==> v.None? || (v.value.JString? && FromValue(v.value.s).Some?)
    ensures r.Success? && v.Some? ==> r.value.Some? && r.value.value.Value() == v.value.s
    ensures r.Success? && v.None? ==> r.value.None?
  {
    match v
    case None => Success(None)
    case Some(JString(s)) =>
      (match FromValue(s)
       case Some(c) => Success(Some(c))
       case None => Failure("error_code"))
    case Some(_) => Failure("error_code")
  }

  /** `error_message: Optional[str]`: absent, or a string. */
  function CheckMessage(v: Option<JValue>): (r: Result<Option<string>, string>)
    ensures r.Success? <==> v.None? || v.value.JString?
    ensures r.Success? && v.Some? ==> r.value == Some(v.value.s)
    ensures r.Success? && v.None? ==> r.value.None?
  {
    match v
    case None => Success(None)
    case Some(JString(s)) => Success(Some(s))
    case Some(_) => Failure("error_message")
  }

  /** Serialising against the response model: a body when both error
      fields fit their types, a 500 otherwise. */
  function Conform(r: TaskStatusResponse): (reply: StatusReply)
    ensures reply.Ok? <==> CheckCode(r.errorCode).Success? && CheckMessage(r.errorMessage).Success?
    ensures reply.Ok? ==>
              && reply.body.jobId == r.jobId && reply.body.status == r.status
              && reply.body.progress == r.progress && reply.body.result == r.result
    ensures !reply.Ok? ==> reply == InternalServerError
  {
    match (CheckCode(r.errorCode), CheckMessage(r.errorMessage))
    case (Success(code), Success(message)) =>
      Ok(StatusBody(r.jobId, r.status, r.progress, r.result, code, message))
    case _ => InternalServerError
  }

  /** Where the FAILURE branch ends, given what its `try` block made of the
      failure text. */
  function FailureReply(jobId: string, f: FailureFields): StatusReply {
    match f
    case Fields(code, message) => Conform(TaskStatusResponse(jobId, "FAILURE", 0.0, None, code, message))
    case NotAnObject => InternalServerError
    case Unrepresentable => OutsideModel
  }

  /** `get_task_status`: start from the task's own status and progress 0;
      PENDING keeps 0; PROCESSING takes the progress out of a dict info
      (default 0); SUCCESS sets 100 and the result; FAILURE decodes the
      failure text; any other state keeps the start. */
  method GetTaskStatus(jobId: string, state: string, info: TaskInfo, result: JValue) returns (reply: StatusReply)
    ensures state == "PENDING" ==> reply == Ok(StatusBody(jobId, "PENDING", 0.0, None, None, None))
    ensures state == "PROCESSING" ==>
              reply == Ok(StatusBody(jobId, "PROCESSING",
                                     if info.isDict && info.progress.Some? then info.progress.value as real else 0.0,
                                     None, None, None))
    ensures state == "SUCCESS" ==> reply == Ok(StatusBody(jobId, "SUCCESS", 100.0, Some(result), None, None))
    ensures state == "FAILURE" ==> reply == FailureReply(jobId, DecodeFailure(info.text))
    ensures state !in {"PENDING", "PROCESSING", "SUCCESS", "FAILURE"} ==>
              reply == Ok(StatusBody(jobId, state, 0.0, None, None, None))
  {
    var response := TaskStatusResponse(jobId, state, 0.0, None, None, None);
    if state == "PENDING" {
      response := response.(status := "PENDING");
    } else if state == "PROCESSING" {
      response := response.(status := "PROCESSING");
      if info.isDict {
        var progress := if info.progress.Some? then info.progress.value else 0;
        response := response.(progress := progress as real);
      }
    } else if state == "SUCCESS" {
      response := response.(status := "SUCCESS");
      response := response.(progress := 100.0);
      response := response.(result := Some(result));
    } else if state == "FAILURE" {
      response := response.(status := "FAILURE");
      reply := ReportFailure(response, info.text);
      return;
    }
    reply := Conform(response);
  }

  /** The FAILURE branch: decode the failure text into the error fields,
      falling back to WORKER_999 and the raw text when it is not JSON. */
  method ReportFailure(response: TaskStatusResponse, errorStr: string) returns (reply: StatusReply)
    ensures var f := DecodeFailure(errorStr);
            f.Fields? ==> reply == Conform(response.(errorCode := f.code, errorMessage := f.message))
    ensures DecodeFailure(errorStr) == NotAnObject ==> reply == InternalServerError
    ensures DecodeFailure(errorStr) == Unrepresentable ==> reply == OutsideModel
  {
    var response := response;
    match Loads(errorStr) {
      case Failure(Malformed) =>
        response := response.(errorCode := Some(JString(UNKNOWN_ERROR.Value())));
        response := response.(errorMessage := Some(JString(errorStr)));
      case Failure(LoneSurrogate) =>
        return OutsideModel;
      case Success(JObject(members)) =>
        response := response.(errorCode := PyGet(members, "code"));
        response := response.(errorMessage := PyGet(members, "message"));
      case Success(_) =>
        return InternalServerError;
    }
    reply := Conform(response);
  }

  /** A failure text that decodes to an object gives that object's
      "code" and "message" entries. */
  lemma DecodeObject(text: string, members: seq<(string, JValue)>)
    requires Loads(text) == Success(JObject(members))
    ensures DecodeFailure(text) == Fields(PyGet(members, "code"), PyGet(members, "message"))
  {
  }

  lemma GetOfPair(k1: string, v1: JValue, k2: string, v2: JValue)
    requires k1 != k2
    ensures Get([(k1, v1), (k2, v2)], k1) == Some(v1)
    ensures Get([(k1, v1), (k2, v2)], k2) == Some(v2)
  {
    assert [(k1, v1), (k2, v2)][..1] == [(k1, v1)];
  }

  /** Round trip: the failure text the worker raises decodes back to the
      code and message it was built from. */
  lemma DecodeErrorPayload(c: Classified)
    ensures DecodeFailure(ErrorPayload(c)) == Fields(Some(JString(c.code.Value())), Some(JString(c.message)))
  {
    var code, message := JString(c.code.Value()), JString(c.message);
    ErrorPayloadDecodes(c);
    DecodeObject(ErrorPayload(c), [("code", code), ("message", message)]);
    GetOfPair("code", code, "message", message);
  }

  /** The client of a task the worker failed receives that failure's code
      and message, whichever of all the worker's errors it was. */
  lemma WorkerFailureReply(jobId: string, c: Classified)
    ensures FailureReply(jobId, DecodeFailure(ErrorPayload(c))) ==
              Ok(StatusBody(jobId, "FAILURE", 0.0, None, Some(c.code), Some(c.message)))
  {
    DecodeErrorPayload(c);
    CodeMessageReply(jobId, c.code, c.message);
  }

  /** A string code naming an `ErrorCode` and a string message pass through. */
  lemma CodeMessageReply(jobId: string, code: ErrorCode, message: string)
    ensures FailureReply(jobId, Fields(Some(JString(code.Value())), Some(JString(message)))) ==
              Ok(StatusBody(jobId, "FAILURE", 0.0, None, Some(code), Some(message)))
  {
    FromValueOfValue(code);
  }

  /** End to end: when a task run raises, the status of its job carries the
      classification of the exception that one of the run's steps raised. */
  lemma FailedRunStatus(jobId: string, start: string, wasLoaded: bool, filePath: string,
                        options: Option<Options>, env: Env)
    returns (e: PyException)
    requires Run(start, wasLoaded, filePath, options, env).outcome.Raised?
    ensures var s := ResolveOptions(options, start);
            var call := CallFor(filePath, s);
            var c := Classify(e, filePath);
            && ((NeedsLoad(start, wasLoaded, s.model) && env.loadError(s.model) == Some(e))
                || env.transcribe(call) == Failure(e)
                || env.writeError(ResultPath(filePath)) == Some(e))
            && FailureReply(jobId, DecodeFailure(ErrorPayload(Run(start, wasLoaded, filePath, options, env).outcome.error)))
                 == Ok(StatusBody(jobId, "FAILURE", 0.0, None, Some(c.code), Some(c.message)))
  {
    e := RunRaised(start, wasLoaded, filePath, options, env);
    WorkerFailureReply(jobId, Classify(e, filePath));
  }

  /** A failure text that is not JSON (an exception's plain message, an
      empty text) is reported as WORKER_999 with the text as the message. */
  lemma PlainFailureReply(jobId: string, text: string)
    requires var t := SkipWs(text); t == [] || !CanStartValue(t[0])
    ensures FailureReply(jobId, DecodeFailure(text)) ==
              Ok(StatusBody(jobId, "FAILURE", 0.0, None, Some(UNKNOWN_ERROR), Some(text)))
  {
    LoadsRefusesNonValueStart(text);
    MalformedFailureReply(jobId, text);
  }

  /** A failure text that is not JSON gives WORKER_999 with the text. */
  lemma MalformedFailureReply(jobId: string, text: string)
    requires Loads(text) == Failure(Malformed)
    ensures FailureReply(jobId, DecodeFailure(text)) ==
              Ok(StatusBody(jobId, "FAILURE", 0.0, None, Some(UNKNOWN_ERROR), Some(text)))
  {
    CodeMessageReply(jobId, UNKNOWN_ERROR, text);
  }

  /** A JSON failure text is a reply exactly when it is an object whose
      "code" is absent, null or an `ErrorCode` value and whose "message" is
      absent, null or a string; a missing key and a null one both give an
      absent field. */
  lemma ObjectFailureReply(jobId: string, text: string, members: seq<(string, JValue)>)
    requires Loads(text) == Success(JObject(members))
    ensures var reply := FailureReply(jobId, DecodeFailure(text));
            var code, message := Get(members, "code"), Get(members, "message");
            && (reply.Ok? <==>
                  && (code.None? || code.value == JNull || (code.value.JString? && FromValue(code.value.s).Some?))
                  && (message.None? || message.value == JNull || message.value.JString?))
            && (reply.Ok? ==> (reply.body.errorCode.None? <==> code.None? || code.value == JNull))
            && (reply.Ok? ==> (reply.body.errorMessage.None? <==> message.None? || message.value == JNull))
  {
    DecodeObject(text, members);
    FieldsReply(jobId, PyGet(members, "code"), PyGet(members, "message"));
  }

  lemma FieldsReply(jobId: string, code: Option<JValue>, message: Option<JValue>)
    ensures var reply := FailureReply(jobId, Fields(code, message));
            && (reply.Ok? <==>
                  && (code.None? || (code.value.JString? && FromValue(code.value.s).Some?))
                  && (message.None? || message.value.JString?))
            && (reply.Ok? ==> (reply.body.errorCode.None? <==> code.None?))
            && (reply.Ok? ==> (reply.body.errorMessage.None? <==> message.None?))
  {
  }
}
