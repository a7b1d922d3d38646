/** `auth.controller.ts`: registration, login and token rotation. Each handler is a
    sequence of early returns; the user table is the store's `users` map. */
module AuthController {
  import opened Common
  import opened Jwt
  import opened Bcrypt
  import opened Zod
  import opened AuthSchema
  import opened Responses
  import opened Store

  const RefreshMissingMessage := "Refresh token missing"
  const RefreshInvalidMessage := "Invalid or expired refresh token"
  const TokenRefreshedMessage := "Token refreshed successfully"

  /** `UserRole[role.toUpperCase() as keyof typeof UserRole]`: the enum value whose key is
      the upper-cased stored role, or none. */
  function ClaimRole(stored: string): (r: Option<string>)
    ensures r.Some? <==> RoleByKey(ToUpper(stored)).Some?
    ensures r.Some? ==> r.value in AllRoleValues
  {
    match RoleByKey(ToUpper(stored))
    case None => None
    case Some(ro) => Some(RoleValue(ro))
  }

  /** Each value of the role enum maps to itself. */
  lemma ClaimRoleOfEnumValue(ro: Role)
    ensures ClaimRole(RoleValue(ro)) == Some(RoleValue(ro))
  {
    match ro
    case USER => assert ToUpper("user") == "USER";
    case ADMIN => assert ToUpper("admin") == "ADMIN";
    case SUPER_ADMIN => assert ToUpper("super_admin") == "SUPER_ADMIN";
  }

  /** The payload both tokens carry: `{ id: String(user.id), email, role }`, built from the
      user record. */
  function PayloadOf(u: UserRecord): (c: Claims)
    ensures JsNumber(c.id) == Some(u.id)
    ensures c.email == u.email
    ensures c.role == ClaimRole(u.role)
  {
    NumberOfString(u.id);
    Claims(NatToString(u.id), u.email, ClaimRole(u.role))
  }

  datatype TokenPair = TokenPair(access: Token, refresh: Token)

  /** `generateAccessToken(payload)` and `generateRefreshToken(payload)` at time `now`. */
  function IssuePair(keys: Secrets, payload: Claims, now: int): (p: TokenPair)
    ensures p.access.claims == payload && p.refresh.claims == payload
    ensures p.access.secret == keys.access && p.refresh.secret == keys.refresh
    ensures p.access.exp == now + AccessLifetime && p.refresh.exp == now + RefreshLifetime
  {
    TokenPair(GenerateAccessToken(keys, payload, now), GenerateRefreshToken(keys, payload, now))
  }

  // ------------------------------------------------------------------------------------
  // register
  // ------------------------------------------------------------------------------------

  /** The user as the register response shows it: id, email and role. */
  function RegisteredUserJson(u: UserRecord): Json {
    JObj([("id", JNum(u.id)), ("email", JStr(u.email)), ("role", JStr(u.role))])
  }

  function RegisteredBody(u: UserRecord): Json {
    JObj([("message", JStr(UserRegisteredMessage)), ("success", JBool(true)), ("user", RegisteredUserJson(u))])
  }

  /** The user shown in the register response carries no password field. */
  lemma RegisteredUserHidesPassword(u: UserRecord)
    ensures Get(RegisteredUserJson(u), "password").None?
    ensures Get(RegisteredUserJson(u), "id") == Some(JNum(u.id))
  {
    var fields := [("id", JNum(u.id)), ("email", JStr(u.email)), ("role", JStr(u.role))];
    assert fields[..2][..1] == fields[..1];
    assert Lookup(fields, "id") == Lookup(fields[..2], "id") == Lookup(fields[..1], "id");
  }

  /** `register(req, res)`. A body that fails validation is answered with the generic
      message, because the whole `safeParse` result, which is neither a ZodError nor an
      Error, is passed on. */
  method Register(db: Database, body: Json, isEmail: string -> bool, salt: string) returns (res: Response)
    requires db.Valid()
    modifies db
    ensures db.Valid()
    ensures db.issues == old(db.issues) && db.nextIssueId == old(db.nextIssueId)
    ensures ParseRegister(body, isEmail).Invalid? ==>
      res == SendErrorResponse(400, NotAnError) && db.users == old(db.users) && db.nextUserId == old(db.nextUserId)
    ensures ParseRegister(body, isEmail).Valid? ==>
      var d := ParseRegister(body, isEmail).data;
      if FindUserByEmail(old(db.users), d.email).Some? then
        res == SendErrorResponse(400, Error(UserAlreadyExistsMessage)) && db.users == old(db.users) && db.nextUserId == old(db.nextUserId)
      else
        var u := UserRecord(old(db.nextUserId), d.name, d.email, HashPassword(d.password, salt), d.role);
        && u.id !in old(db.users)
        && db.users == old(db.users)[u.id := u] && db.nextUserId == old(db.nextUserId) + 1
        && res == Response(201, RegisteredBody(u))
  {
    var parsed := ParseRegister(body, isEmail);
    if parsed.Invalid? {
      return SendErrorResponse(400, NotAnError);
    }
    var d := parsed.data;
    var existing := FindUserByEmail(db.users, d.email);
    if existing.Some? {
      return SendErrorResponse(400, Error(UserAlreadyExistsMessage));
    }
    var hashed := HashPassword(d.password, salt);
    var user := db.CreateUser(d.name, d.email, hashed, d.role);
    return Response(201, RegisteredBody(user));
  }

  // ------------------------------------------------------------------------------------
  // login
  // ------------------------------------------------------------------------------------

  /** What `login` decides: the response of an early return, or the user and the pair of
      tokens issued for them. */
  datatype LoginResult = LoginRejected(response: Response) | LoggedIn(user: UserRecord, tokens: TokenPair)

  /** `login(req, res)` up to serialisation: validate, look the user up by email, compare
      the password, then issue both tokens from one payload. */
  function Login(users: map<nat, UserRecord>, body: Json, keys: Secrets, isEmail: string -> bool, now: int): (r: LoginResult)
    requires UsersWellFormed(users)
    ensures r.LoggedIn? ==> r.user.id in users && users[r.user.id] == r.user
  {
    match ParseLogin(body, isEmail)
    case Invalid(issues) => LoginRejected(SendErrorResponse(400, ZodError(issues)))
    case Valid(d) =>
      match FindUserByEmail(users, d.email)
      case None => LoginRejected(SendErrorResponse(400, Error(UserNotFoundMessage)))
      case Some(u) =>
        if !Compare(d.password, u.password) then
          LoginRejected(SendErrorResponse(400, Error(InvalidCredentialsMessage)))
        else
          LoggedIn(u, IssuePair(keys, PayloadOf(u), now))
  }

  /** The user as the login response shows it. */
  function LoginUserJson(u: UserRecord): Json {
    JObj([("id", JNum(u.id)), ("email", JStr(u.email)), ("role", JStr(u.role)), ("name", JStr(u.name))])
  }

  /** The response `login` sends. */
  function LoginResponse(r: LoginResult, codec: Codec): Response {
    match r
    case LoginRejected(res) => res
    case LoggedIn(u, p) =>
      Response(200, JObj([
        ("message", JStr(LoginSuccessMessage)),
        ("token", JStr(codec.encode(p.access))),
        ("refreshToken", JStr(codec.encode(p.refresh))),
        ("user", LoginUserJson(u))]))
  }

  /** Login with an invalid body answers 400 with the zod issues; with an unknown email
      400 'User not found'; with a wrong password 400 'Invalid email or password'; it
      issues tokens exactly when the email is known and the password matches its hash. */
  lemma LoginOutcomes(users: map<nat, UserRecord>, body: Json, keys: Secrets, isEmail: string -> bool, now: int)
    requires UsersWellFormed(users)
    ensures var r := Login(users, body, keys, isEmail, now);
      match ParseLogin(body, isEmail)
      case Invalid(issues) => r == LoginRejected(SendErrorResponse(400, ZodError(issues)))
      case Valid(d) =>
        && ((forall id | id in users :: users[id].email != d.email) ==>
              r == LoginRejected(SendErrorResponse(400, Error(UserNotFoundMessage))))
        && (forall id | id in users && users[id].email == d.email ::
              !Compare(d.password, users[id].password) ==>
                r == LoginRejected(SendErrorResponse(400, Error(InvalidCredentialsMessage))))
        && (r.LoggedIn? <==> exists id | id in users :: users[id].email == d.email && Compare(d.password, users[id].password))
  {
  }

  /** On success both tokens carry the identical payload `{String(id), email, role}` of the
      stored record, the access token under the access secret for 15 minutes and the
      refresh token under the refresh secret for 7 days. */
  lemma LoginIssuesMatchingPair(users: map<nat, UserRecord>, body: Json, keys: Secrets, isEmail: string -> bool, now: int)
    requires UsersWellFormed(users)
    requires Login(users, body, keys, isEmail, now).LoggedIn?
    ensures var r := Login(users, body, keys, isEmail, now);
      && r.tokens.access.claims == r.tokens.refresh.claims
      && r.tokens.access.claims == Claims(NatToString(r.user.id), r.user.email, ClaimRole(r.user.role))
      && r.tokens.access.secret == keys.access && r.tokens.access.exp == now + AccessLifetime
      && r.tokens.refresh.secret == keys.refresh && r.tokens.refresh.exp == now + RefreshLifetime
      && r.user.email == ParseLogin(body, isEmail).data.email
  {
  }

  /** A stored user whose hash was made from `password` can log in with it. */
  lemma LoginWithMatchingPassword(users: map<nat, UserRecord>, keys: Secrets, isEmail: string -> bool, now: int, id: nat, password: string, salt: string)
    requires UsersWellFormed(users)
    requires id in users && users[id].password == HashPassword(password, salt)
    requires isEmail(users[id].email) && password != ""
    ensures var body := JObj([("email", JStr(users[id].email)), ("password", JStr(password))]);
      Login(users, body, keys, isEmail, now) == LoggedIn(users[id], IssuePair(keys, PayloadOf(users[id]), now))
  {
    var body := JObj([("email", JStr(users[id].email)), ("password", JStr(password))]);
    var fields := [("email", JStr(users[id].email)), ("password", JStr(password))];
    assert fields[..1] == [("email", JStr(users[id].email))];
    assert Lookup(fields, "email") == Lookup(fields[..1], "email");
    CompareHashed(password, password, salt);
  }

  /** A password whose UTF-8 form fills bcrypt's 72 bytes logs in with anything appended
      to it: an 80-character ASCII password with its last 8 characters changed is
      accepted. */
  lemma LoginIgnoresBytesBeyondKey(users: map<nat, UserRecord>, keys: Secrets, isEmail: string -> bool, now: int, id: nat, password: string, tail: string, salt: string)
    requires UsersWellFormed(users)
    requires id in users && users[id].password == HashPassword(password, salt)
    requires isEmail(users[id].email) && |Utf8(password)| >= MaxKeyBytes
    ensures var body := JObj([("email", JStr(users[id].email)), ("password", JStr(password + tail))]);
      Login(users, body, keys, isEmail, now) == LoggedIn(users[id], IssuePair(keys, PayloadOf(users[id]), now))
  {
    var fields := [("email", JStr(users[id].email)), ("password", JStr(password + tail))];
    assert fields[..1] == [("email", JStr(users[id].email))];
    assert Lookup(fields, "email") == Lookup(fields[..1], "email");
    assert password + tail != "";
    TailBeyondKeyIgnored(password, tail, salt);
  }

  /** The login response carries the encoded tokens and shows the user without the
      password hash; rejections carry no token. */
  lemma LoginResponseShape(r: LoginResult, codec: Codec)
    ensures r.LoggedIn? ==>
      && LoginResponse(r, codec).status == 200
      && Get(LoginResponse(r, codec).body, "token") == Some(JStr(codec.encode(r.tokens.access)))
      && Get(LoginUserJson(r.user), "password").None?
    ensures r.LoginRejected? ==> LoginResponse(r, codec) == r.response
  {
    if r.LoggedIn? {
      var fields := [
        ("message", JStr(LoginSuccessMessage)),
        ("token", JStr(codec.encode(r.tokens.access))),
        ("refreshToken", JStr(codec.encode(r.tokens.refresh))),
        ("user", LoginUserJson(r.user))];
      assert fields[..2][..1] == fields[..1];
      assert Lookup(fields, "token") == Lookup(fields[..2], "token");
    }
  }

  // ------------------------------------------------------------------------------------
  // refresh
  // ------------------------------------------------------------------------------------

  /** What `refresh` decides. */
  datatype RefreshResult = RefreshRejected(response: Response) | Refreshed(user: UserRecord, tokens: TokenPair)

  /** The claims `verifyRefreshToken(refreshToken)` yields; a value that is not a string
      makes the library throw, like a token that fails verification. */
  function DecodeRefreshField(v: Json, keys: Secrets, codec: Codec, now: int): Option<Claims> {
    if v.JStr? then VerifyRefreshToken(keys, codec, v.s, now) else None
  }

  /** `refresh(req, res)` up to serialisation. */
  function Refresh(users: map<nat, UserRecord>, body: Json, keys: Secrets, codec: Codec, now: int): (r: RefreshResult)
    requires UsersWellFormed(users)
    ensures r.Refreshed? ==> r.user.id in users && users[r.user.id] == r.user
  {
    var field := Get(body, "refreshToken");
    if !Truthy(field) then RefreshRejected(SendErrorResponse(401, Error(RefreshMissingMessage)))
    else
      match DecodeRefreshField(field.value, keys, codec, now)
      case None => RefreshRejected(SendErrorResponse(403, Error(RefreshInvalidMessage)))
      case Some(decoded) =>
        match JsNumber(decoded.id)
        // `Number(decoded.id)` is NaN: the database client throws, the outer catch answers 500
        case None => RefreshRejected(SendErrorResponse(500, LibraryError))
        case Some(id) =>
          match FindUserById(users, id)
          case None => RefreshRejected(SendErrorResponse(404, Error(UserNotFoundMessage)))
          case Some(u) => Refreshed(u, IssuePair(keys, PayloadOf(u), now))
  }

  /** The response `refresh` sends. */
  function RefreshResponse(r: RefreshResult, codec: Codec): Response {
    match r
    case RefreshRejected(res) => res
    case Refreshed(_, p) =>
      Response(200, JObj([
        ("success", JBool(true)),
        ("message", JStr(TokenRefreshedMessage)),
        ("token", JStr(codec.encode(p.access))),
        ("refreshToken", JStr(codec.encode(p.refresh)))]))
  }

  /** No token gives 401, a token that fails verification 403, a verified token whose user
      no longer exists 404; none of these issues a pair. */
  lemma RefreshRejections(users: map<nat, UserRecord>, body: Json, keys: Secrets, codec: Codec, now: int)
    requires UsersWellFormed(users)
    ensures var r := Refresh(users, body, keys, codec, now);
      var field := Get(body, "refreshToken");
      && (!Truthy(field) ==> r == RefreshRejected(SendErrorResponse(401, Error(RefreshMissingMessage))))
      && (Truthy(field) && DecodeRefreshField(field.value, keys, codec, now).None? ==>
            r == RefreshRejected(SendErrorResponse(403, Error(RefreshInvalidMessage))))
      && (Truthy(field) && DecodeRefreshField(field.value, keys, codec, now).Some? ==>
            var id := JsNumber(DecodeRefreshField(field.value, keys, codec, now).value.id);
            id.Some? && id.value !in users ==> r == RefreshRejected(SendErrorResponse(404, Error(UserNotFoundMessage))))
  {
  }

  /** A new pair is built from the current user record, not from the decoded token: its
      claims are those of `users[Number(decoded.id)]`, so a changed role or email is
      picked up. */
  lemma RefreshUsesCurrentRecord(users: map<nat, UserRecord>, body: Json, keys: Secrets, codec: Codec, now: int)
    requires UsersWellFormed(users)
    requires Refresh(users, body, keys, codec, now).Refreshed?
    ensures var r := Refresh(users, body, keys, codec, now);
      var decoded := DecodeRefreshField(Get(body, "refreshToken").value, keys, codec, now);
      && decoded.Some?
      && JsNumber(decoded.value.id) == Some(r.user.id)
      && r.tokens == IssuePair(keys, PayloadOf(users[r.user.id]), now)
  {
  }

  /** The refresh token of a login, presented within its seven days while its user still
      exists, yields a new pair built from the user's record as it is now. */
  lemma {:induction false} RefreshAfterLogin(users: map<nat, UserRecord>, u: UserRecord, keys: Secrets, codec: Codec, issued: int, now: int)
    requires UsersWellFormed(users)
    requires u.id in users
    requires Decodes(codec, IssuePair(keys, PayloadOf(u), issued).refresh)
    requires issued <= now < issued + RefreshLifetime
    ensures var t := codec.encode(IssuePair(keys, PayloadOf(u), issued).refresh);
      Refresh(users, JObj([("refreshToken", JStr(t))]), keys, codec, now)
        == Refreshed(users[u.id], IssuePair(keys, PayloadOf(users[u.id]), now))
  {
    var t := codec.encode(IssuePair(keys, PayloadOf(u), issued).refresh);
    var body := JObj([("refreshToken", JStr(t))]);
    assert Get(body, "refreshToken") == Some(JStr(t));
    assert DecodeRefreshField(JStr(t), keys, codec, now) == Some(PayloadOf(u));
    assert FindUserById(users, u.id) == Some(users[u.id]);
  }

  /** With distinct secrets, an access token presented for refresh is rejected with 403. */
  lemma RefreshRejectsAccessToken(users: map<nat, UserRecord>, keys: Secrets, codec: Codec, payload: Claims, issued: int, now: int)
    requires UsersWellFormed(users)
    requires keys.access != keys.refresh
    requires Decodes(codec, GenerateAccessToken(keys, payload, issued))
    ensures var t := codec.encode(GenerateAccessToken(keys, payload, issued));
      var r := Refresh(users, JObj([("refreshToken", JStr(t))]), keys, codec, now);
      r.RefreshRejected? && r.response.status == 403
  {
    var t := codec.encode(GenerateAccessToken(keys, payload, issued));
    assert Get(JObj([("refreshToken", JStr(t))]), "refreshToken") == Some(JStr(t));
    assert DecodeRefreshField(JStr(t), keys, codec, now).None?;
  }
}
