/** The part of the `jose.jwt` library that the backend uses: `encode` with
    HS256 and `decode` with `algorithms=["HS256"]`. The HMAC itself is not
    modelled: a signature is the symbolic term `Mac(key, alg, claims)`, so a
    signature checks exactly when it was made with the same key over the same
    claims. */
module Jose {
  import opened Common

  type Key = string

  /** `ALGORITHM` in both token modules. */
  const ALGORITHM: string := "HS256"

  /** The registered claims the backend reads or writes; each may be absent
      from a token that was not made by this backend. Times are seconds since
      the epoch, as `encode` stores them. */
  datatype Claims = Claims(sub: Option<string>, purpose: Option<string>, iat: Option<int>, exp: Option<int>)

  datatype Signature = Mac(key: Key, alg: string, claims: Claims)

  /** A presented token: a JWS compact token with its header algorithm, its
      claims and its signature, or text that does not parse as one. */
  datatype Token = Jws(alg: string, claims: Claims, signature: Signature) | Malformed(text: string)

  function Sign(key: Key, alg: string, claims: Claims): Signature
  {
    Mac(key, alg, claims)
  }

  /** `jwt.encode(claims, key, algorithm=ALGORITHM)`. */
  function Encode(claims: Claims, key: Key): Token
  {
    Jws(ALGORITHM, claims, Sign(key, ALGORITHM, claims))
  }

  /** The library rejects a token only once `exp < now`; a token without
      `exp` never expires. */
  predicate Unexpired(claims: Claims, now: int)
  {
    claims.exp.None? || now <= claims.exp.value
  }

  /** `jwt.decode(token, key, algorithms=[ALGORITHM])` at time `now`: `None`
      stands for the `JWTError` it raises. */
  function Decode(token: Token, key: Key, now: int): (r: Option<Claims>)
    ensures r.Some? ==> token.Jws? && r.value == token.claims && Unexpired(r.value, now)
    ensures r.Some? ==> token.alg == ALGORITHM && token.signature.key == key
  {
    match token
    case Malformed(_) => None
    case Jws(alg, claims, signature) =>
      if alg == ALGORITHM && signature == Sign(key, alg, claims) && Unexpired(claims, now)
      then Some(claims) else None
  }

  /** Decoding what was encoded under the same key gives back the claims as
      long as they have not expired, and fails once they have. */
  lemma DecodeEncode(claims: Claims, key: Key, now: int)
    ensures Decode(Encode(claims, key), key, now) == if Unexpired(claims, now) then Some(claims) else None
  {
  }

  /** A token made under one key never decodes under another. */
  lemma DecodeOtherKey(claims: Claims, key: Key, other: Key, now: int)
    requires other != key
    ensures Decode(Encode(claims, key), other, now) == None
  {
  }
}
