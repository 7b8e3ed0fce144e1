/** The `kr.ac.hansung.cse.overlang` application's `GlobalExceptionHandler`,
    which has only the catch-all handler. */
module KrAdvice {
  import opened Wrappers
  import opened JavaLang
  import opened Responses
  import Advice

  /** `handleException`: every exception becomes a 500 with COMMON_001. */
  function HandleException(e: JavaException): (r: Advice.ResponseEntity<Advice.VoidResponse>)
    ensures r.status == Advice.INTERNAL_SERVER_ERROR
    ensures r.body.GetStatus() == ERROR && r.body.GetData().None?
    ensures r.body.GetError() == Some(ErrorResponse(Advice.COMMON_001, e.message))
  {
    Advice.ResponseEntity(Advice.INTERNAL_SERVER_ERROR, Error(Advice.COMMON_001, e.message))
  }

  /** The two applications answer alike except for UnauthorizedException,
      which only the backend maps to 401 and AUTH_001; even then the
      message is the same. */
  lemma AgreesWithBackend(e: JavaException)
    ensures e.kind != Unauthorized <==> HandleException(e) == Advice.Handle(e)
    ensures HandleException(e).body.GetError().value.message == Advice.Handle(e).body.GetError().value.message
  {
  }
}
