/** `ApiResponse`, the JSON envelope every endpoint answers with. Its two
    static factories are the only way the code builds one, so the envelope
    is a two-variant value; the three getters read it back. */
module Responses {
  import opened Wrappers

  /** `ApiResponse.Status`. */
  datatype Status = SUCCESS | ERROR

  /** `ErrorResponse(code, message)`; the message is an exception's
      `getMessage()` at every use, so it may be null. */
  datatype ErrorResponse = ErrorResponse(code: string, message: Option<string>)

  /** An envelope as one of the factories left it: `success(data)` (the data
      may be null) or `error(code, message)`. */
  datatype ApiResponse<T> =
    | SuccessResponse(payload: Option<T>)
    | ErrorEnvelope(failure: ErrorResponse)
  {
    /** `getStatus()`. */
    function GetStatus(): (s: Status)
      ensures s == SUCCESS <==> SuccessResponse?
    {
      if SuccessResponse? then SUCCESS else ERROR
    }

    /** `getData()`: null on every error envelope. */
    function GetData(): (d: Option<T>)
      ensures ErrorEnvelope? ==> d.None?
    {
      if SuccessResponse? then payload else None
    }

    /** `getError()`: null exactly on success envelopes. */
    function GetError(): (e: Option<ErrorResponse>)
      ensures e.None? <==> SuccessResponse?
    {
      if SuccessResponse? then None else Some(failure)
    }
  }

  /** `ApiResponse.success(data)`. */
  function Success<T>(data: Option<T>): (r: ApiResponse<T>)
    ensures r.GetStatus() == SUCCESS && r.GetData() == data && r.GetError().None?
  {
    SuccessResponse(data)
  }

  /** `ApiResponse.error(code, message)`. */
  function Error<T>(code: string, message: Option<string>): (r: ApiResponse<T>)
    ensures r.GetStatus() == ERROR && r.GetData().None?
    ensures r.GetError() == Some(ErrorResponse(code, message))
  {
    ErrorEnvelope(ErrorResponse(code, message))
  }

  /** The envelope shape the factories guarantee, stated on the getters. */
  predicate WellFormed<T>(r: ApiResponse<T>) {
    || (r.GetStatus() == SUCCESS && r.GetError().None?)
    || (r.GetStatus() == ERROR && r.GetData().None? && r.GetError().Some?)
  }

  /** Every envelope is well formed, and the getters determine it: it is
      the factory call they describe. */
  lemma EnvelopeFromGetters<T>(r: ApiResponse<T>)
    ensures WellFormed(r)
    ensures r.GetStatus() == SUCCESS ==> r == Success(r.GetData())
    ensures r.GetStatus() == ERROR ==>
              r == Error(r.GetError().value.code, r.GetError().value.message)
  {
  }

  /** The getters of two envelopes agree only when the envelopes are equal. */
  lemma GettersDetermineEnvelope<T>(r: ApiResponse<T>, q: ApiResponse<T>)
    requires r.GetStatus() == q.GetStatus() && r.GetData() == q.GetData() && r.GetError() == q.GetError()
    ensures r == q
  {
    EnvelopeFromGetters(r);
    EnvelopeFromGetters(q);
  }
}
