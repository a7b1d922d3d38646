/** The super administrator of `prisma/seed.ts`. Its stored role is written with a hyphen,
    which is not a value of the role enum, so the role claim of its tokens is empty. */
module Seed {
  import opened Common
  import opened Jwt
  import opened Store
  import opened Responses
  import opened AuthController
  import opened Middleware
  import opened IssueRoutes

  /** The role the seed script stores for its super administrator. */
  const SeedSuperAdminRole := "super-admin"

  /** The role that script evidently means: the enum value `super_admin`. */
  const IntendedSuperAdminRole := RoleValue(SUPER_ADMIN)

  /** The hyphenated role has no enum member, so its claim is `undefined`. */
  lemma SeedRoleHasNoClaim()
    ensures ClaimRole(SeedSuperAdminRole).None?
  {
    var key := ToUpper(SeedSuperAdminRole);
    assert key[5] == '-';
    assert RoleKey(SUPER_ADMIN)[5] == '_';
    assert forall ro: Role :: RoleKey(ro) != key;
  }

  /** As seeded: the super administrator, holding a fresh access token, is refused with 403
      on PUT and DELETE of any issue. */
  lemma {:induction false} SeedSuperAdminForbidden(u: UserRecord, verb: Verb, id: string, keys: Secrets, codec: Codec, issued: int, now: int)
    requires u.role == SeedSuperAdminRole
    requires verb == PUT || verb == DELETE
    requires Decodes(codec, GenerateAccessToken(keys, PayloadOf(u), issued))
    requires ' ' !in codec.encode(GenerateAccessToken(keys, PayloadOf(u), issued))
    requires issued <= now < issued + AccessLifetime
    ensures var header := Some("Bearer " + codec.encode(GenerateAccessToken(keys, PayloadOf(u), issued)));
      Dispatch(verb, Item(id), header, keys, codec, now) == Answered(SendError(403, ForbiddenMessage))
  {
    SeedRoleHasNoClaim();
    AuthenticateAccessToken(keys, codec, PayloadOf(u), issued, now);
    var header := Some("Bearer " + codec.encode(GenerateAccessToken(keys, PayloadOf(u), issued)));
    EnumGatePassesEveryRole(verb, id, header, keys, codec, now);
  }

  /** With the intended role the same user reaches the handler, with its claims attached. */
  lemma {:induction false} IntendedSuperAdminAdmitted(u: UserRecord, verb: Verb, id: string, keys: Secrets, codec: Codec, issued: int, now: int)
    requires u.role == IntendedSuperAdminRole
    requires verb == PUT || verb == DELETE
    requires Decodes(codec, GenerateAccessToken(keys, PayloadOf(u), issued))
    requires ' ' !in codec.encode(GenerateAccessToken(keys, PayloadOf(u), issued))
    requires issued <= now < issued + AccessLifetime
    ensures var header := Some("Bearer " + codec.encode(GenerateAccessToken(keys, PayloadOf(u), issued)));
      Dispatch(verb, Item(id), header, keys, codec, now)
        == Reached(if verb == PUT then UpdateIssue else DeleteIssue, Some(PayloadOf(u)))
  {
    ClaimRoleOfEnumValue(SUPER_ADMIN);
    assert PayloadOf(u).role == Some(RoleValue(SUPER_ADMIN));
    AuthenticateAccessToken(keys, codec, PayloadOf(u), issued, now);
    var header := Some("Bearer " + codec.encode(GenerateAccessToken(keys, PayloadOf(u), issued)));
    GatedRoutes(verb, id, header, keys, codec, now);
    var o := Dispatch(verb, Item(id), header, keys, codec, now);
    assert o.Reached?;
    assert o.handler in {UpdateIssue, DeleteIssue} by {
      var c := Chain(verb, Item(id));
      var k :| 0 <= k < |c| && c[k] == Run(o.handler);
    }
  }
}
