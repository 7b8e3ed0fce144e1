/** `BearerTokenResolver.resolve`: the bearer token out of an
    `Authorization` header value. */
module Bearer {
  import opened Wrappers
  import opened Strings
  import opened JavaLang

  const BEARER_PREFIX: string := "Bearer "

  const MISSING_HEADER: string := "Invalid or missing Authorization header"
  const EMPTY_TOKEN: string := "Bearer token is empty"

  /** The token, or Unauthorized. `header` is `None` when the request has no
      `Authorization` header. */
  function Resolve(header: Option<string>): (r: Result<string, JavaException>)
    // no header, or not exactly "Bearer " (case and the single space matter)
    ensures (header.None? || !StartsWith(header.value, BEARER_PREFIX)) ==>
              r == Failure(UnauthorizedException(MISSING_HEADER))
    // the prefix followed by padding only
    ensures header.Some? && StartsWith(header.value, BEARER_PREFIX) &&
            AllTrimmable(header.value[|BEARER_PREFIX|..]) ==>
              r == Failure(UnauthorizedException(EMPTY_TOKEN))
    // a token is never empty and never starts or ends with a character up to U+0020
    ensures r.Success? ==> r.value != [] && Trimmed(r.value)
  {
    if header.None? || !StartsWith(header.value, BEARER_PREFIX) then
      Failure(UnauthorizedException(MISSING_HEADER))
    else
      var rest := header.value[|BEARER_PREFIX|..];
      var token := Trim(rest);
      TrimEmptyIff(rest);
      if token == [] then
        Failure(UnauthorizedException(EMPTY_TOKEN))
      else
        Success(token)
  }

  /** A token is the header with the prefix and the padding around the
      token cut off: the lemma returns where the token sits in the header. */
  lemma TokenPosition(header: string) returns (lead: nat, trail: nat)
    requires Resolve(Some(header)).Success?
    ensures |BEARER_PREFIX| <= lead <= trail <= |header|
    ensures Resolve(Some(header)).value == header[lead..trail]
    ensures AllTrimmable(header[|BEARER_PREFIX|..lead]) && AllTrimmable(header[trail..])
  {
    var n := |BEARER_PREFIX|;
    var rest := header[n..];
    ResolveSucceedsIff(header);
    var i, j := TrimSlice(rest);
    lead, trail := n + i, n + j;
    SlicesOfSuffix(header, n, i, j);
  }

  /** Exactly the headers that start with "Bearer " and carry a character
      above U+0020 after it yield a token, and that token is the trimmed
      remainder. */
  lemma ResolveSucceedsIff(header: string)
    ensures Resolve(Some(header)).Success? <==>
              StartsWith(header, BEARER_PREFIX) && !AllTrimmable(header[|BEARER_PREFIX|..])
    ensures Resolve(Some(header)).Success? ==>
              Resolve(Some(header)).value == Trim(header[|BEARER_PREFIX|..])
  {
    if StartsWith(header, BEARER_PREFIX) {
      TrimEmptyIff(header[|BEARER_PREFIX|..]);
    }
  }

  /** Resolving a header built from a token gives the token back, whatever
      padding surrounds it. */
  lemma ResolvePaddedToken(lead: string, token: string, trail: string)
    requires AllTrimmable(lead) && AllTrimmable(trail)
    requires token != [] && Trimmed(token)
    ensures Resolve(Some(BEARER_PREFIX + lead + token + trail)) == Success(token)
  {
    var h := BEARER_PREFIX + lead + token + trail;
    assert h[..|BEARER_PREFIX|] == BEARER_PREFIX;
    assert h[|BEARER_PREFIX|..] == lead + token + trail;
    TrimOfPadded(lead, token, trail);
  }
}
