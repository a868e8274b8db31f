/** Bearer tokens that own a session (src/access_token.rs). */
module AccessTokens {
  import opened Common
  import opened Errors

  /** A validated owner credential, compared by exact value. */
  datatype AccessToken = AccessToken(value: Bytes)

  const MinLength: nat := 10
  const MaxLength: nat := 100

  /** `AccessToken::from_string`: accepts 10 to 100 bytes, kept verbatim. */
  function FromString(s: Bytes): (r: Result<AccessToken>)
    ensures r.Ok? <==> MinLength <= |s| <= MaxLength
    ensures r.Ok? ==> r.value == AccessToken(s)
    ensures r.Err? ==> r.error == BadAccessToken
  {
    if |s| < MinLength || |s| > MaxLength then Err(BadAccessToken) else Ok(AccessToken(s))
  }

  /** A malformed token is answered with 401 Unauthorized, not 400 Bad Request. */
  lemma MalformedTokenIsUnauthorized(s: Bytes)
    requires |s| < MinLength || |s| > MaxLength
    ensures FromString(s).Err? && StatusCode(FromString(s).error) == Unauthorized
  {
  }
}
