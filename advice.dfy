/** The backend's `GlobalExceptionHandler`: Spring calls the handler whose
    declared exception type is the closest match, so an
    UnauthorizedException reaches `handleUnauthorized` and every other
    exception `handleException`. */
module Advice {
  import opened Wrappers
  import opened JavaLang
  import opened Responses

  const UNAUTHORIZED: int := 401
  const INTERNAL_SERVER_ERROR: int := 500

  const AUTH_001: string := "AUTH_001"
  const COMMON_001: string := "COMMON_001"

  /** `ResponseEntity.status(s).body(b)`. */
  datatype ResponseEntity<T> = ResponseEntity(status: int, body: T)

  /** `ApiResponse<Void>`: the data slot can only ever be null. */
  type VoidResponse = ApiResponse<()>

  /** `handleUnauthorized`. */
  function HandleUnauthorized(e: JavaException): (r: ResponseEntity<VoidResponse>)
    requires e.kind == Unauthorized
    ensures r.status == UNAUTHORIZED
    ensures r.body.GetStatus() == ERROR && r.body.GetData().None?
    ensures r.body.GetError() == Some(ErrorResponse(AUTH_001, e.message))
  {
    ResponseEntity(UNAUTHORIZED, Error(AUTH_001, e.message))
  }

  /** `handleException`. */
  function HandleException(e: JavaException): (r: ResponseEntity<VoidResponse>)
    ensures r.status == INTERNAL_SERVER_ERROR
    ensures r.body.GetStatus() == ERROR && r.body.GetData().None?
    ensures r.body.GetError() == Some(ErrorResponse(COMMON_001, e.message))
  {
    ResponseEntity(INTERNAL_SERVER_ERROR, Error(COMMON_001, e.message))
  }

  /** The response Spring sends for an exception that leaves a controller. */
  function Handle(e: JavaException): (r: ResponseEntity<VoidResponse>)
    ensures e.kind == Unauthorized ==> r == HandleUnauthorized(e)
    ensures e.kind != Unauthorized ==> r == HandleException(e)
  {
    if e.kind == Unauthorized then HandleUnauthorized(e) else HandleException(e)
  }

  /** The mapping seen from the client: 401 with AUTH_001 exactly for
      Unauthorized, 500 with COMMON_001 for everything else, always an
      error envelope with no data and the exception's own message. */
  lemma HandleClassifies(e: JavaException)
    ensures Handle(e).status == UNAUTHORIZED <==> e.kind == Unauthorized
    ensures Handle(e).status == INTERNAL_SERVER_ERROR <==> e.kind != Unauthorized
    ensures Handle(e).body.GetError().value.code == AUTH_001 <==> e.kind == Unauthorized
    ensures Handle(e).body.GetError().value.code == COMMON_001 <==> e.kind != Unauthorized
    ensures Handle(e).body.GetError().value.message == e.message
    ensures Handle(e).body.GetStatus() == ERROR && Handle(e).body.GetData().None?
  {
  }

  /** Which status a client gets, by the code the envelope carries. */
  lemma StatusMatchesCode(e: JavaException)
    ensures Handle(e).status == (if Handle(e).body.GetError().value.code == AUTH_001 then UNAUTHORIZED else INTERNAL_SERVER_ERROR)
  {
  }
}
