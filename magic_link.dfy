/** Purpose-bound magic-link tokens (`magic_link.py`): short-lived tokens
    whose `purpose` claim says whether they verify an address or log a user
    in. */
module MagicLink {
  import opened Common
  import opened Jose

  const TOKEN_EXP_MINUTES: int := 10

  /** The token lifetime in the seconds that `exp` is counted in. */
  const TOKEN_LIFETIME: int := TOKEN_EXP_MINUTES * 60

  const INVALID_OR_EXPIRED: string := "Invalid or expired token"
  const INVALID_PURPOSE: string := "Invalid token purpose"

  /** `create_magic_token(email, purpose)` at time `now` (one clock reading
      for both `iat` and `exp`). */
  function CreateMagicToken(key: Key, email: string, purpose: string, now: int): (t: Token)
    ensures t.Jws? && t.alg == ALGORITHM
    ensures t.claims.sub == Some(email) && t.claims.purpose == Some(purpose)
    ensures t.claims.iat == Some(now) && t.claims.exp == Some(now + 600)
  {
    Encode(Claims(Some(email), Some(purpose), Some(now), Some(now + TOKEN_LIFETIME)), key)
  }

  /** `verify_magic_token(token, purpose)` at time `now`: the decoded payload,
      or the 400 error it raises. Decoding is checked before the purpose. */
  function VerifyMagicToken(key: Key, token: Token, purpose: string, now: int): (r: Result<Claims, HttpError>)
    ensures r.Ok? <==> Decode(token, key, now).Some? && token.claims.purpose == Some(purpose)
    ensures r.Ok? ==> r.value == token.claims
    ensures r.Err? ==> r.error.status == 400
    ensures r.Err? && Decode(token, key, now).None? ==> r.error.detail == INVALID_OR_EXPIRED
    ensures r.Err? && Decode(token, key, now).Some? ==> r.error.detail == INVALID_PURPOSE
  {
    match Decode(token, key, now)
    case None => Err(HttpError(400, INVALID_OR_EXPIRED))
    case Some(payload) =>
      if payload.purpose != Some(purpose) then Err(HttpError(400, INVALID_PURPOSE))
      else Ok(payload)
  }

  /** A fresh token verifies, for the purpose it was made for, from its issue
      time up to and including its expiry, and carries the address it was
      made for. */
  lemma MagicTokenRoundTrip(key: Key, email: string, purpose: string, issued: int, now: int)
    requires issued <= now <= issued + TOKEN_LIFETIME
    ensures var r := VerifyMagicToken(key, CreateMagicToken(key, email, purpose, issued), purpose, now);
      r.Ok? && r.value.sub == Some(email) && r.value.purpose == Some(purpose)
  {
  }

  /** After its expiry a token fails as invalid or expired, whatever purpose
      the verifier expects: the purpose is never looked at. */
  lemma MagicTokenExpires(key: Key, email: string, purpose: string, issued: int, expected: string, now: int)
    requires now > issued + TOKEN_LIFETIME
    ensures VerifyMagicToken(key, CreateMagicToken(key, email, purpose, issued), expected, now)
            == Err(HttpError(400, INVALID_OR_EXPIRED))
  {
  }

  /** A token made for one purpose is refused for any other, even while it is
      unexpired. */
  lemma MagicTokenPurposeBound(key: Key, email: string, purpose: string, issued: int, expected: string, now: int)
    requires purpose != expected
    requires now <= issued + TOKEN_LIFETIME
    ensures VerifyMagicToken(key, CreateMagicToken(key, email, purpose, issued), expected, now)
            == Err(HttpError(400, INVALID_PURPOSE))
  {
  }

  /** A token with no `purpose` claim is refused for every expected purpose. */
  lemma NoPurposeNeverAccepted(key: Key, token: Token, expected: string, now: int)
    requires token.Jws? && token.claims.purpose.None?
    ensures VerifyMagicToken(key, token, expected, now).Err?
  {
  }
}
