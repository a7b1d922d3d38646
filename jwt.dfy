/** The token codec of the backend: JSON Web Tokens (RFC 7519) in the compact JWS form of
    section 7.1 of RFC 7515, signed with one secret per token kind and carrying the `exp`
    claim of section 4.1.4 of RFC 7519. A token is modelled by what its signature and
    claims establish: the secret it was signed with, its identity claims, and its issue and
    expiry times in seconds. HMAC and base64url are not modelled: the compact string form
    is reached through a `Codec`, a pair of functions the model leaves uninterpreted. */
module Jwt {
  import opened Common

  /** `expiresIn: '15m'`, in seconds. */
  const AccessLifetime: int := 15 * 60
  /** `expiresIn: '7d'`, in seconds. */
  const RefreshLifetime: int := 7 * 24 * 60 * 60

  /** `JWT_SECRET` and `JWT_REFRESH_SECRET`, read once from the environment. */
  datatype Secrets = Secrets(access: string, refresh: string)

  /** `AuthUser`, the payload of both token kinds. `role` is `None` when the payload was
      built from a role string that is not a key of `UserRole`: `JSON.stringify` then drops
      the property. */
  datatype Claims = Claims(id: string, email: string, role: Option<string>)

  datatype Token = Token(secret: string, claims: Claims, iat: int, exp: int)

  /** The compact serialisation of a token and its decoding, `None` for a string that is
      not a well-formed token. */
  datatype Codec = Codec(encode: Token -> string, decode: string -> Option<Token>)

  /** `jwt.sign(payload, secret, { expiresIn })` at time `now`. */
  function Sign(payload: Claims, secret: string, lifetime: int, now: int): (t: Token)
    ensures t.secret == secret && t.claims == payload
    ensures t.iat == now && t.exp == now + lifetime
  {
    Token(secret, payload, now, now + lifetime)
  }

  /** `jwt.verify(token, secret)` on a decoded token at time `now`: the payload when the
      signature was made with `secret` and the token has not expired; the library treats
      `exp` as expired once the clock reaches it. */
  function Verify(t: Token, secret: string, now: int): (r: Option<Claims>)
    ensures r.Some? <==> t.secret == secret && now < t.exp
    ensures r.Some? ==> r.value == t.claims
  {
    if t.secret == secret && now < t.exp then Some(t.claims) else None
  }

  /** `jwt.verify` on the compact string: malformed strings fail. */
  function VerifyString(codec: Codec, token: string, secret: string, now: int): (r: Option<Claims>)
    ensures r.Some? <==> codec.decode(token).Some? && Verify(codec.decode(token).value, secret, now).Some?
  {
    match codec.decode(token)
    case None => None
    case Some(t) => Verify(t, secret, now)
  }

  function GenerateAccessToken(keys: Secrets, payload: Claims, now: int): (t: Token)
    ensures t.secret == keys.access && t.claims == payload && t.exp == now + AccessLifetime
  {
    Sign(payload, keys.access, AccessLifetime, now)
  }

  function GenerateRefreshToken(keys: Secrets, payload: Claims, now: int): (t: Token)
    ensures t.secret == keys.refresh && t.claims == payload && t.exp == now + RefreshLifetime
  {
    Sign(payload, keys.refresh, RefreshLifetime, now)
  }

  /** `verifyAccessToken(token)`: the claims of a well-formed, unexpired token signed with
      the access secret. */
  function VerifyAccessToken(keys: Secrets, codec: Codec, token: string, now: int): (r: Option<Claims>)
    ensures r.Some? <==> (codec.decode(token).Some? && codec.decode(token).value.secret == keys.access
      && now < codec.decode(token).value.exp)
    ensures r.Some? ==> r.value == codec.decode(token).value.claims
  {
    VerifyString(codec, token, keys.access, now)
  }

  /** `verifyRefreshToken(token)`: the same under the refresh secret. */
  function VerifyRefreshToken(keys: Secrets, codec: Codec, token: string, now: int): (r: Option<Claims>)
    ensures r.Some? <==> (codec.decode(token).Some? && codec.decode(token).value.secret == keys.refresh
      && now < codec.decode(token).value.exp)
    ensures r.Some? ==> r.value == codec.decode(token).value.claims
  {
    VerifyString(codec, token, keys.refresh, now)
  }

  /** The codec decodes what it encoded, and a compact serialisation is never empty
      (it holds two dots, section 7.1 of RFC 7515). */
  predicate Decodes(codec: Codec, t: Token) {
    codec.decode(codec.encode(t)) == Some(t) && codec.encode(t) != ""
  }

  /** An access token verifies, with its payload, at every time from its issue until
      just before its expiry, and fails from its expiry on. */
  lemma AccessTokenLifetime(keys: Secrets, codec: Codec, payload: Claims, issued: int, now: int)
    requires Decodes(codec, GenerateAccessToken(keys, payload, issued))
    ensures issued <= now < issued + AccessLifetime ==>
      VerifyAccessToken(keys, codec, codec.encode(GenerateAccessToken(keys, payload, issued)), now) == Some(payload)
    ensures now >= issued + AccessLifetime ==>
      VerifyAccessToken(keys, codec, codec.encode(GenerateAccessToken(keys, payload, issued)), now).None?
  {
  }

  /** A refresh token verifies, with its payload, for seven days after its issue. */
  lemma RefreshTokenLifetime(keys: Secrets, codec: Codec, payload: Claims, issued: int, now: int)
    requires Decodes(codec, GenerateRefreshToken(keys, payload, issued))
    ensures issued <= now < issued + RefreshLifetime ==>
      VerifyRefreshToken(keys, codec, codec.encode(GenerateRefreshToken(keys, payload, issued)), now) == Some(payload)
    ensures now >= issued + RefreshLifetime ==>
      VerifyRefreshToken(keys, codec, codec.encode(GenerateRefreshToken(keys, payload, issued)), now).None?
  {
  }

  /** With distinct secrets, no string that decodes to a token signed with the access
      secret passes `verifyRefreshToken`, and no refresh token passes `verifyAccessToken`,
      at any time. */
  lemma SecretsSeparateKinds(keys: Secrets, codec: Codec, token: string, now: int)
    requires keys.access != keys.refresh
    requires codec.decode(token).Some?
    ensures codec.decode(token).value.secret == keys.access ==> VerifyRefreshToken(keys, codec, token, now).None?
    ensures codec.decode(token).value.secret == keys.refresh ==> VerifyAccessToken(keys, codec, token, now).None?
  {
  }

  /** The two tokens that `generateAccessToken` and `generateRefreshToken` make from one
      payload carry that payload and differ in secret and lifetime only. */
  lemma PairSharesPayload(keys: Secrets, payload: Claims, now: int)
    ensures GenerateAccessToken(keys, payload, now).claims == GenerateRefreshToken(keys, payload, now).claims == payload
    ensures GenerateRefreshToken(keys, payload, now).exp - GenerateAccessToken(keys, payload, now).exp
      == RefreshLifetime - AccessLifetime
  {
  }
}
