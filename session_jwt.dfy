/** Session tokens (`jwt.py`): two-hour tokens with a subject and no purpose,
    signed with the same key and algorithm as the magic links. */
module SessionJwt {
  import opened Common
  import opened Jose
  import MagicLink

  const SESSION_EXP_HOURS: int := 2

  /** The session lifetime in seconds. */
  const SESSION_LIFETIME: int := SESSION_EXP_HOURS * 3600

  const INVALID_SESSION: string := "Invalid session token"

  /** `create_jwt(email)` at time `now`. */
  function CreateJwt(key: Key, email: string, now: int): (t: Token)
    ensures t.Jws? && t.alg == ALGORITHM
    ensures t.claims.sub == Some(email) && t.claims.purpose.None?
    ensures t.claims.iat == Some(now) && t.claims.exp == Some(now + 7200)
  {
    Encode(Claims(Some(email), None, Some(now), Some(now + SESSION_LIFETIME)), key)
  }

  /** `verify_jwt(token)` at time `now`: the payload, or the 401 error. */
  function VerifyJwt(key: Key, token: Token, now: int): (r: Result<Claims, HttpError>)
    ensures r.Ok? <==> Decode(token, key, now).Some?
    ensures r.Ok? ==> r.value == token.claims
    ensures r.Err? ==> r.error == HttpError(401, INVALID_SESSION)
  {
    match Decode(token, key, now)
    case None => Err(HttpError(401, INVALID_SESSION))
    case Some(payload) => Ok(payload)
  }

  /** A session token verifies for two hours after it is minted and carries
      the address it was minted for; after that it fails with 401. */
  lemma SessionRoundTrip(key: Key, email: string, issued: int, now: int)
    ensures var r := VerifyJwt(key, CreateJwt(key, email, issued), now);
      if now <= issued + SESSION_LIFETIME then r.Ok? && r.value.sub == Some(email)
      else r == Err(HttpError(401, INVALID_SESSION))
  {
  }

  /** A session token is never accepted as a magic link, for any purpose. */
  lemma SessionTokenIsNoMagicLink(key: Key, email: string, issued: int, expected: string, now: int)
    ensures MagicLink.VerifyMagicToken(key, CreateJwt(key, email, issued), expected, now).Err?
  {
  }

  /** `verify_jwt` checks no purpose: an unexpired magic-link token passes as
      a session token. */
  lemma MagicLinkPassesAsSession(key: Key, email: string, purpose: string, issued: int, now: int)
    requires issued <= now <= issued + MagicLink.TOKEN_LIFETIME
    ensures VerifyJwt(key, MagicLink.CreateMagicToken(key, email, purpose, issued), now).Ok?
  {
  }
}
