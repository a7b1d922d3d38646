/** The request gate of the issue routes: `authenticateToken.ts`, which takes the token
    from the Authorization header, verifies it with the access secret and attaches the
    claims to the request, and `authorizeRole.ts`, which admits a request whose claimed
    role is in an allow-list. */
module Middleware {
  import opened Common
  import opened Jwt
  import opened Responses

  const ForbiddenMessage := "Forbidden: insufficient permissions"

  /** What a middleware does with a request: call `next`, or answer it. */
  datatype Step = Next | Respond(response: Response)

  // ------------------------------------------------------------------------------------
  // authenticateToken
  // ------------------------------------------------------------------------------------

  /** `authHeader?.split(' ')[1]`: the second space-separated field of the header, or
      `undefined` when there is no header or no second field. The scheme word in front of
      it is not looked at. */
  function TokenFromHeader(header: Option<string>): (r: Option<string>)
    ensures r.Some? <==> header.Some? && |Split(header.value, ' ')| >= 2
    ensures r.Some? ==> r.value == Split(header.value, ' ')[1] && ' ' !in r.value
  {
    if header.None? then None
    else
      var fields := Split(header.value, ' ');
      if |fields| >= 2 then Some(fields[1]) else None
  }

  /** Whatever the first word is, a header `word + " " + token` yields the token
      (section 2.1 of RFC 6750 prescribes `Bearer`, which is not checked). */
  lemma {:induction false} AnySchemeWord(scheme: string, token: string)
    requires ' ' !in scheme && ' ' !in token
    ensures TokenFromHeader(Some(scheme + " " + token)) == Some(token)
  {
    SplitAfterWord(scheme, token, ' ');
    SplitNoSeparator(token, ' ');
  }

  /** A header without a space has no second field, and two spaces after the scheme word
      make the second field empty: both count as a missing token. */
  lemma {:induction false} HeaderWithoutToken(scheme: string, rest: string)
    requires ' ' !in scheme
    ensures TokenFromHeader(Some(scheme)).None?
    ensures TokenFromHeader(Some(scheme + "  " + rest)) == Some("")
  {
    SplitNoSeparator(scheme, ' ');
    assert scheme + "  " + rest == scheme + [' '] + ([' '] + rest);
    SplitAfterWord(scheme, [' '] + rest, ' ');
    SplitAfterWord("", rest, ' ');
    assert "" + [' '] + rest == [' '] + rest;
  }

  /** What `authenticateToken` decides: admit with the verified claims, or answer. */
  datatype Gate = Admit(claims: Claims) | Deny(response: Response)

  /** No token or an empty one answers 401 'Access token missing'; a token that fails
      verification with the access secret answers 401 'Invalid or expired token';
      otherwise the request is admitted with the decoded payload. */
  function Authenticate(header: Option<string>, keys: Secrets, codec: Codec, now: int): (g: Gate)
    ensures g.Admit? <==>
      && TokenFromHeader(header).Some? && TokenFromHeader(header).value != ""
      && VerifyAccessToken(keys, codec, TokenFromHeader(header).value, now).Some?
    ensures g.Admit? ==> Some(g.claims) == VerifyAccessToken(keys, codec, TokenFromHeader(header).value, now)
    ensures g.Deny? ==> g.response.status == 401
  {
    var token := TokenFromHeader(header);
    if token.None? || token.value == "" then Deny(SendError(401, TokenMissingMessage))
    else
      match VerifyAccessToken(keys, codec, token.value, now)
      case None => Deny(SendError(401, TokenInvalidMessage))
      case Some(claims) => Admit(claims)
  }

  /** The two 401 answers are told apart by their message. */
  lemma AuthenticateRejections(header: Option<string>, keys: Secrets, codec: Codec, now: int)
    ensures var token := TokenFromHeader(header);
      && (token.None? || token.value == "" ==>
            Authenticate(header, keys, codec, now) == Deny(SendError(401, TokenMissingMessage)))
      && (token.Some? && token.value != "" && VerifyAccessToken(keys, codec, token.value, now).None? ==>
            Authenticate(header, keys, codec, now) == Deny(SendError(401, TokenInvalidMessage)))
  {
  }

  /** An access token presented as `Bearer <token>` before it expires admits the request
      with exactly the payload it was signed with. */
  lemma {:induction false} AuthenticateAccessToken(keys: Secrets, codec: Codec, payload: Claims, issued: int, now: int)
    requires Decodes(codec, GenerateAccessToken(keys, payload, issued))
    requires ' ' !in codec.encode(GenerateAccessToken(keys, payload, issued))
    requires issued <= now < issued + AccessLifetime
    ensures Authenticate(Some("Bearer " + codec.encode(GenerateAccessToken(keys, payload, issued))), keys, codec, now)
      == Admit(payload)
  {
    AnySchemeWord("Bearer", codec.encode(GenerateAccessToken(keys, payload, issued)));
    assert "Bearer" + " " == "Bearer ";
    AccessTokenLifetime(keys, codec, payload, issued, now);
  }

  /** Only the access secret is consulted: when the secrets differ, a refresh token in the
      header is answered 401 'Invalid or expired token'. */
  lemma {:induction false} AuthenticateRejectsRefreshToken(keys: Secrets, codec: Codec, payload: Claims, issued: int, now: int, scheme: string)
    requires keys.access != keys.refresh
    requires Decodes(codec, GenerateRefreshToken(keys, payload, issued))
    requires ' ' !in scheme && ' ' !in codec.encode(GenerateRefreshToken(keys, payload, issued))
    ensures Authenticate(Some(scheme + " " + codec.encode(GenerateRefreshToken(keys, payload, issued))), keys, codec, now)
      == Deny(SendError(401, TokenInvalidMessage))
  {
    var t := codec.encode(GenerateRefreshToken(keys, payload, issued));
    AnySchemeWord(scheme, t);
    SecretsSeparateKinds(keys, codec, t, now);
  }

  /** `req.user`, the one field of the request the gate writes. */
  class AuthRequest {
    var user: Option<Claims>

    constructor()
      ensures user.None?
    {
      user := None;
    }
  }

  /** `authenticateToken(req, res, next)`: on admission `req.user` is set to the decoded
      payload and `next` is called once; on denial `req.user` is left alone and `next` is
      not called. */
  method AuthenticateToken(req: AuthRequest, header: Option<string>, keys: Secrets, codec: Codec, now: int) returns (step: Step)
    modifies req
    ensures Authenticate(header, keys, codec, now).Admit? ==>
      step == Next && req.user == Some(Authenticate(header, keys, codec, now).claims)
    ensures Authenticate(header, keys, codec, now).Deny? ==>
      step == Respond(Authenticate(header, keys, codec, now).response) && req.user == old(req.user)
  {
    var token := TokenFromHeader(header);
    if token.None? || token.value == "" {
      return Respond(SendError(401, TokenMissingMessage));
    }
    var verified := VerifyAccessToken(keys, codec, token.value, now);
    if verified.None? {
      return Respond(SendError(401, TokenInvalidMessage));
    }
    req.user := verified;
    step := Next;
  }

  // ------------------------------------------------------------------------------------
  // authorizeRole
  // ------------------------------------------------------------------------------------

  /** `authorizeRole(...allowedRoles)` applied to `req.user`: the request goes on exactly
      when there is a user whose role is one of `allowed`; otherwise 403. A claim without
      a role (`undefined`) is never included. */
  function AuthorizeRole(allowed: seq<string>, user: Option<Claims>): (r: Step)
    ensures r == Next <==> user.Some? && user.value.role.Some? && user.value.role.value in allowed
    ensures r != Next ==> r == Respond(SendError(403, ForbiddenMessage))
  {
    if user.None? || user.value.role.None? || user.value.role.value !in allowed then
      Respond(SendError(403, ForbiddenMessage))
    else
      Next
  }

  /** The decision depends only on the set of allowed roles: reordering or repeating
      entries changes nothing. */
  lemma AuthorizeRoleSetOnly(a: seq<string>, b: seq<string>, user: Option<Claims>)
    requires forall x :: x in a <==> x in b
    ensures AuthorizeRole(a, user) == AuthorizeRole(b, user)
  {
  }

  /** With an empty allow-list every request is rejected. */
  lemma AuthorizeRoleEmpty(user: Option<Claims>)
    ensures AuthorizeRole([], user) == Respond(SendError(403, ForbiddenMessage))
  {
  }

  /** There is no ranking among roles: admitting `super_admin` does not admit `admin` or
      `user`. */
  lemma AuthorizeRoleNoRank(c: Claims)
    requires c.role == Some(RoleValue(USER)) || c.role == Some(RoleValue(ADMIN))
    ensures AuthorizeRole([RoleValue(SUPER_ADMIN)], Some(c)) == Respond(SendError(403, ForbiddenMessage))
  {
    assert RoleValue(SUPER_ADMIN)[0] != RoleValue(ADMIN)[0];
  }
}
