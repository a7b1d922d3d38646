# Issue Tracker core in Dafny

This project models the core of the Issue Tracker, an issue-tracking web application. It has two sides.

On the backend, an Express service with JWT authentication:
- **Token codec** (`Jwt`): access and refresh tokens, each signed with its own secret. They expire after 15 minutes and 7 days, with the `exp` claim of section 4.1.4 of RFC 7519.
- **Session handlers** (`AuthController`): `register`, `login` and `refresh` over a user table.
- **Request gate** (`Middleware`, `IssueRoutes`) of the `/api/issues` router:
  - the Authorization header and `authenticateToken`;
  - `authorizeRole`;
  - the route-to-chain table.
- **Issue handlers** (`IssueController`) over an issue table.
- **Validators** (`IssueSchema`, `AuthSchema`, built on `Zod`).
- **Response helpers** (`Responses`).

On the frontend, a React/Redux client:
- **Redux slices** (`IssuesSlice`, `AuthSlice`), including `localStorage`.
- **Query building** (`FetchIssues`): the issue query, in the form of section 5.2 of the WHATWG URL Standard, and the Authorization header built from the stored token.

Cryptography is uninterpreted:
- A token records the secret it was signed with, its claims, its issue time and its expiry.
- A `Codec` of two abstract functions stands for the compact JWS string of section 7.1 of RFC 7515.
- A bcrypt hash records its cost, its salt and its preimage. `compare` looks only at the first 72 UTF-8 bytes of a password, as bcrypt does.

Persistence is replaced by the `Store.Database` class. It holds two maps keyed by id and hands out increasing ids. Its invariant `Valid` says:
- ids match their keys;
- emails are unique;
- every issue's `userId` names a user.

Handlers that write the database are methods on it. The checks those handlers make are pure `Plan…`/`…Access` functions.

Two functions of JavaScript are modelled explicitly:
- `Number(s)` (`JsNumber`): the empty string is 0, a string of decimal digits is read as an exact unbounded natural number, and anything else is `NaN`. A `NaN` id makes a database query throw (500). JavaScript's rounding of large values is not modelled (see "## Left out").
- `String(n)` (`NatToString`).

The current time `now` (in seconds) and the random bcrypt salt are parameters. So are the zod email check (`isEmail`), percent-encoding (`encode`), `JSON.parse` of the stored user (`parse`) and the server's reply to the refresh request (`server`).

## Model

| member | source | states |
|---|---|---|
| Jwt.Sign | apps/backend/src/utils/jwt.ts:7-13 | a signed token carries the given secret and payload and expires `lifetime` seconds after `now` |
| Jwt.Verify | apps/backend/src/utils/jwt.ts:15-21 | verification succeeds exactly when the secret is the signing secret and `now < exp`, and then yields the signed claims |
| Jwt.VerifyString | apps/backend/src/utils/jwt.ts:15-21 | a string verifies exactly when it decodes to a token that verifies |
| Jwt.VerifyAccessToken | apps/backend/src/utils/jwt.ts:15-17 | yields claims exactly for a well-formed, unexpired token signed with `JWT_SECRET`, and then its signed claims |
| Jwt.VerifyRefreshToken | apps/backend/src/utils/jwt.ts:19-21 | yields claims exactly for a well-formed, unexpired token signed with `JWT_REFRESH_SECRET`, and then its signed claims |
| Jwt.GenerateAccessToken | apps/backend/src/utils/jwt.ts:7-9 | an access token is signed with `JWT_SECRET` and expires 15 minutes after issue |
| Jwt.GenerateRefreshToken | apps/backend/src/utils/jwt.ts:11-13 | a refresh token is signed with `JWT_REFRESH_SECRET` and expires 7 days after issue |
| Jwt.AccessTokenLifetime | apps/backend/src/utils/jwt.ts:7-17 | round trip: an access token verifies to its payload before its expiry; it fails at or after `exp` |
| Jwt.RefreshTokenLifetime | apps/backend/src/utils/jwt.ts:11-21 | round trip: a refresh token verifies to its payload for seven days; it fails at or after `exp` |
| Jwt.SecretsSeparateKinds | apps/backend/src/utils/jwt.ts:15-21 | with distinct secrets, `verifyRefreshToken` rejects every access token and `verifyAccessToken` rejects every refresh token |
| Jwt.PairSharesPayload | apps/backend/src/utils/jwt.ts:7-13 | the two kinds made from one payload carry that payload and differ only in secret and lifetime |
| Bcrypt.HashPassword | apps/backend/src/controllers/auth/auth.controller.ts:26 | a hash is made with cost factor 10 and the given salt |
| Bcrypt.KeyBytes | apps/backend/src/controllers/auth/auth.controller.ts:26 | bcrypt uses the password's UTF-8 bytes, at most the first 72 |
| Bcrypt.Compare | apps/backend/src/controllers/auth/auth.controller.ts:56 | `bcrypt.compare` accepts the password the hash was made from |
| Bcrypt.CompareHashed | apps/backend/src/controllers/auth/auth.controller.ts:56 | `bcrypt.compare` accepts the password a hash was made from; among ASCII passwords of at most 72 characters it rejects every other |
| Bcrypt.TailBeyondKeyIgnored | apps/backend/src/controllers/auth/auth.controller.ts:56 | once a password fills 72 UTF-8 bytes, anything appended to it still matches its hash |
| AuthController.ClaimRole | apps/backend/src/controllers/auth/auth.controller.ts:64 | `UserRole[role.toUpperCase()]` yields a role exactly when the upper-cased stored role is an enum key, and then yields one of the enum values |
| AuthController.ClaimRoleOfEnumValue | apps/backend/src/controllers/auth/auth.controller.ts:64 | each enum value maps to itself |
| AuthController.PayloadOf | apps/backend/src/controllers/auth/auth.controller.ts:61-65 | the payload's id is `String(user.id)`, which `Number` maps back to the id; its email and role come from the record |
| AuthController.IssuePair | apps/backend/src/controllers/auth/auth.controller.ts:66-67 | both tokens carry the one payload; the access token uses the access secret and 15 minutes, the refresh token the refresh secret and 7 days |
| AuthController.RegisteredUserHidesPassword | apps/backend/src/controllers/auth/auth.controller.ts:31-35 | the user in the register response has no password field |
| AuthController.Register | apps/backend/src/controllers/auth/auth.controller.ts:12-35 | an invalid body gives 400 with the generic message and an existing email gives 400 'User already exists'; in both cases the user table is unchanged. Otherwise exactly one user is added under the next id, with the bcrypt hash of the password, and the answer is 201 |
| AuthController.Login | apps/backend/src/controllers/auth/auth.controller.ts:42-67 | a successful login is for a stored user record |
| AuthController.LoginOutcomes | apps/backend/src/controllers/auth/auth.controller.ts:44-59 | an invalid body gives 400 with the zod issues, an unknown email 400 'User not found', a wrong password 400 'Invalid email or password'; tokens are issued exactly when the email is known and the password matches |
| AuthController.LoginIssuesMatchingPair | apps/backend/src/controllers/auth/auth.controller.ts:61-67 | on success both tokens carry the identical payload `{String(id), email, UserRole[upper(role)]}` of the logged-in user |
| AuthController.LoginWithMatchingPassword | apps/backend/src/controllers/auth/auth.controller.ts:49-67 | a stored user whose hash was made from a password logs in with that password |
| AuthController.LoginIgnoresBytesBeyondKey | apps/backend/src/controllers/auth/auth.controller.ts:49-67 | a stored user whose password fills 72 UTF-8 bytes also logs in with that password followed by anything |
| AuthController.LoginResponseShape | apps/backend/src/controllers/auth/auth.controller.ts:69-74 | the success response is 200 with the encoded access token and shows the user without the password; a rejection is answered as decided |
| AuthController.Refresh | apps/backend/src/controllers/auth/auth.controller.ts:81-112 | a new pair is issued only for a user of the table |
| AuthController.RefreshRejections | apps/backend/src/controllers/auth/auth.controller.ts:85-103 | a missing token gives 401, a token that fails verification 403, a verified token whose user is gone 404; none of these issues a pair |
| AuthController.RefreshUsesCurrentRecord | apps/backend/src/controllers/auth/auth.controller.ts:97-112 | on success the new pair is built from the current user record named by the token's id, not from the decoded claims |
| AuthController.RefreshAfterLogin | apps/backend/src/controllers/auth/auth.controller.ts:81-112 | the refresh token of a login, presented within seven days while its user exists, yields the pair for that user's current record |
| AuthController.RefreshRejectsAccessToken | apps/backend/src/controllers/auth/auth.controller.ts:89-95 | with distinct secrets, an access token presented for refresh gets 403 |
| Middleware.TokenFromHeader | apps/backend/src/middleware/auth/authenticateToken.ts:9-10 | the token is the second space-separated field of the header, present exactly when there is a header with a second field |
| Middleware.AnySchemeWord | apps/backend/src/middleware/auth/authenticateToken.ts:9-10 | whatever the first word is (it is never checked against `Bearer`), `word token` yields the token |
| Middleware.HeaderWithoutToken | apps/backend/src/middleware/auth/authenticateToken.ts:10-12 | a header without a space has no token; a double space after the scheme word gives the empty token |
| Middleware.Authenticate | apps/backend/src/middleware/auth/authenticateToken.ts:8-18 | the request is admitted exactly when a non-empty token verifies with the access secret, with the decoded claims; otherwise 401 |
| Middleware.AuthenticateRejections | apps/backend/src/middleware/auth/authenticateToken.ts:12-15 | a missing or empty token gives 401 'Access token missing'; a failed verification gives 401 'Invalid or expired token' |
| Middleware.AuthenticateAccessToken | apps/backend/src/middleware/auth/authenticateToken.ts:14-18 | `Bearer <access token>` before expiry admits the request with exactly the signed payload |
| Middleware.AuthenticateRejectsRefreshToken | apps/backend/src/middleware/auth/authenticateToken.ts:6-15 | only the access secret is used: with distinct secrets a refresh token gets 401 'Invalid or expired token' |
| Middleware.AuthenticateToken | apps/backend/src/middleware/auth/authenticateToken.ts:8-18 | on admission `req.user` is set to the decoded payload and `next` is called; on denial `req.user` is unchanged and the request is answered |
| Middleware.AuthorizeRole | apps/backend/src/middleware/auth/authorizeRole.ts:6-12 | `next` exactly when `req.user` is present and its role is in the allow-list; otherwise 403 'Forbidden: insufficient permissions' |
| Middleware.AuthorizeRoleSetOnly | apps/backend/src/middleware/auth/authorizeRole.ts:8 | the decision depends only on the set of allowed roles, not on their order |
| Middleware.AuthorizeRoleEmpty | apps/backend/src/middleware/auth/authorizeRole.ts:6-9 | an empty allow-list rejects every request |
| Middleware.AuthorizeRoleNoRank | apps/backend/src/middleware/auth/authorizeRole.ts:8 | there is no rank: allowing `super_admin` admits neither `admin` nor `user` |
| IssueRoutes.Chain | apps/backend/src/routes/issues/issue.routes.ts:15-29 | every chain starts with `authenticateToken`, and authentication appears nowhere else |
| IssueRoutes.RunChain | apps/backend/src/routes/issues/issue.routes.ts:15-29 | a request reaches only a handler that is in its chain |
| IssueRoutes.Dispatch | apps/backend/src/routes/issues/issue.routes.ts:15-29 | a request reaches only a handler registered for its verb and path |
| IssueRoutes.AuthenticationFirst | apps/backend/src/routes/issues/issue.routes.ts:15 | a request whose token is not admitted gets the authentication answer, on every route |
| IssueRoutes.OpenRoutes | apps/backend/src/routes/issues/issue.routes.ts:17-19 | GET `/`, GET `/:id` and POST `/` reach their handler exactly when the token is admitted, with `req.user` set; there is no role gate |
| IssueRoutes.GatedRoutes | apps/backend/src/routes/issues/issue.routes.ts:20-29 | PUT and DELETE `/:id` run authenticate, then the enum-wide role gate, then the handler. The handler is reached exactly when the token is admitted and its role is an enum value; otherwise an admitted request gets 403 |
| IssueRoutes.EnumGatePassesEveryRole | apps/backend/src/routes/issues/issue.routes.ts:22-27 | every enum role passes the PUT/DELETE gate; a role that failed the enum lookup gets 403 |
| IssueRoutes.UnmatchedFallsThrough | apps/backend/src/routes/issues/issue.routes.ts:15 | a request matching no route is still authenticated and then falls out of the router |
| Store.FindUserByEmail | apps/backend/src/controllers/auth/auth.controller.ts:50 | finds the stored user with that email exactly when there is one |
| Store.FindUserById | apps/backend/src/controllers/auth/auth.controller.ts:97-99 | finds the user with that id exactly when there is one |
| Store.ApplyUpdate | apps/backend/src/controllers/issues/issue.controller.ts:121-124 | present fields replace, absent ones stay; id, status, owner and creation time never change |
| Store.Database.CreateUser | apps/backend/src/controllers/auth/auth.controller.ts:27-29 | adds exactly one user under the next unused id and keeps the invariant |
| Store.Database.CreateIssue | apps/backend/src/controllers/issues/issue.controller.ts:19-26 | adds exactly one issue under the next unused id, with the default status |
| Store.Database.UpdateIssue | apps/backend/src/controllers/issues/issue.controller.ts:121-124 | rewrites exactly one row with `ApplyUpdate` |
| Store.Database.DeleteIssue | apps/backend/src/controllers/issues/issue.controller.ts:151 | removes exactly that id; every other issue keeps its row |
| IssueController.PlanCreate | apps/backend/src/controllers/issues/issue.controller.ts:9-26 | a row is created exactly when the body is valid, there is a user, and `Number(req.user.id)` names a user; the row then takes the validated fields and that `userId` |
| IssueController.CreateValidatesFirst | apps/backend/src/controllers/issues/issue.controller.ts:9-15 | a bad body gives 400 with the issues before the user is looked at; a valid body without a user gives 401 |
| IssueController.CreateIssue | apps/backend/src/controllers/issues/issue.controller.ts:7-31 | a rejection leaves the table unchanged; otherwise exactly one row is added and the answer is 201 |
| IssueController.QueryText | apps/backend/src/controllers/issues/issue.controller.ts:50-58 | a query parameter counts exactly when it is a non-empty string |
| IssueController.BuildWhere | apps/backend/src/controllers/issues/issue.controller.ts:48-60 | status and priority are upper-cased and role lower-cased, each filter only when its parameter is present |
| IssueController.RowsBelow | apps/backend/src/controllers/issues/issue.controller.ts:62 | the stored rows below an id bound, each once, in increasing id order |
| IssueController.FilterRows | apps/backend/src/controllers/issues/issue.controller.ts:62-63 | keeps exactly the rows that satisfy every filter |
| IssueController.InsertByCreatedDesc | apps/backend/src/controllers/issues/issue.controller.ts:65 | insertion keeps the list sorted by `createdAt` descending and adds exactly the row |
| IssueController.SortByCreatedDesc | apps/backend/src/controllers/issues/issue.controller.ts:65 | the result is sorted by `createdAt` descending and is a permutation of the input |
| IssueController.ListIssues | apps/backend/src/controllers/issues/issue.controller.ts:62-66 | `findMany` with `orderBy: { createdAt: "desc" }` is sorted newest first and is a permutation of the rows the `where` selects |
| IssueController.ListIssuesSpec | apps/backend/src/controllers/issues/issue.controller.ts:62-66 | the listing is newest first and a permutation of the matching rows; a row is listed exactly when it is stored and matches every filter |
| IssueController.GetAllIssues | apps/backend/src/controllers/issues/issue.controller.ts:44-68 | answers 200 with the listing for the normalised `where` |
| IssueController.PriorityFilterIgnoresCase | apps/backend/src/controllers/issues/issue.controller.ts:54-56 | `?priority=high` lists exactly the HIGH issues |
| IssueController.ListingShowsPasswordField | apps/backend/src/controllers/issues/issue.controller.ts:64 | `include: { user: true }` nests the whole user row, password hash included, in every listed issue |
| IssueController.FindThenUser | apps/backend/src/controllers/issues/issue.controller.ts:78-85 | access is granted exactly when the id is a number, the row exists and there is a user |
| IssueController.GetIssueById | apps/backend/src/controllers/issues/issue.controller.ts:75-95 | 200 with the row exactly when the id is found and there is a user |
| IssueController.GetIssueByIdAnyCaller | apps/backend/src/controllers/issues/issue.controller.ts:80-95 | a missing id gives 404 for any caller; any authenticated caller can read any issue, since there is no ownership check |
| IssueController.OwnedAccess | apps/backend/src/controllers/issues/issue.controller.ts:110-119 | access is granted exactly when `FindThenUser` grants it and the caller is not a `'user'` who does not own the row |
| IssueController.OwnedAccessOrder | apps/backend/src/controllers/issues/issue.controller.ts:135-149 | the checks run in this order: NaN id 500, missing 404, no user 401. It is 403 exactly when the role is `'user'` and the caller does not own the issue; admins and super admins pass |
| IssueController.PlanUpdate | apps/backend/src/controllers/issues/issue.controller.ts:105-119 | validation 400 comes first; the update goes ahead exactly when the body is valid and `OwnedAccess` grants access |
| IssueController.UpdateIssue | apps/backend/src/controllers/issues/issue.controller.ts:101-126 | a failed update leaves the table unchanged; a successful one rewrites exactly the one row with the validated fields and answers 200 |
| IssueController.UpdateChangesOnlyBodyFields | apps/backend/src/controllers/issues/issue.controller.ts:121-124 | an update keeps id, status, owner and creation time, and a field absent from the body keeps its value |
| IssueController.DeleteIssue | apps/backend/src/controllers/issues/issue.controller.ts:132-152 | same 404/401/403 rule; on success exactly that issue is removed and the answer is 200 |
| IssueController.DeleteKeepsOthers | apps/backend/src/controllers/issues/issue.controller.ts:151 | removing one issue leaves every other issue untouched |
| IssueSchema.PriorityOf | apps/backend/src/schemas/issue.schema.ts:4 | a priority name is accepted exactly when it is LOW, MEDIUM or HIGH |
| IssueSchema.ParseCreateIssue | apps/backend/src/schemas/issue.schema.ts:6-10 | `createIssueSchema.safeParse`: a rejection always carries at least one issue |
| IssueSchema.CreateIssueRules | apps/backend/src/schemas/issue.schema.ts:6-10 | a create body parses exactly when the title's `.length` (UTF-16 code units) is at least 3, the description's at least 5 and the priority is in the enum; the output holds those values |
| IssueSchema.ParseUpdateIssue | apps/backend/src/schemas/issue.schema.ts:12-16 | `updateIssueSchema.safeParse`: a rejection always carries at least one issue |
| IssueSchema.UpdateIssueRules | apps/backend/src/schemas/issue.schema.ts:12-16 | every update field is optional; a present field obeys the create rule and is carried over unchanged |
| IssueSchema.AstralTitleMeetsMinimum | apps/backend/src/schemas/issue.schema.ts:7 | `.min(3)` counts code units: an emoji followed by one letter is long enough |
| IssueSchema.EmptyUpdateIsValid | apps/backend/src/schemas/issue.schema.ts:12-16 | the empty object is a valid update with no fields |
| IssueSchema.UpdateStripsOtherKeys | apps/backend/src/schemas/issue.schema.ts:12-16 | a key other than title, description or priority, such as `status` or `userId`, does not change the parsed update |
| IssueSchema.CreateStripsOtherKeys | apps/backend/src/schemas/issue.schema.ts:6-10 | the same holds for the create schema |
| AuthSchema.ParseRegister | apps/backend/src/schemas/auth.schema.ts:3-9 | `registerSchema.safeParse`: a rejection always carries at least one issue |
| AuthSchema.RegisterRules | apps/backend/src/schemas/auth.schema.ts:3-9 | a register body parses exactly when: name is any string; email passes the format check; password and confirmPassword each have a `.length` (UTF-16 code units) of at least 6; role is absent or one of the three values. Equality of the two passwords is not checked, and an absent role becomes 'user' |
| AuthSchema.ParseLogin | apps/backend/src/schemas/auth.schema.ts:11-14 | `loginSchema.safeParse`: a rejection always carries at least one issue |
| AuthSchema.LoginRules | apps/backend/src/schemas/auth.schema.ts:11-14 | a login body parses exactly when the email passes the format check and the password is non-empty |
| Responses.SendErrorResponse | apps/backend/src/utils/errorResponse.ts:4-11 | the response has the status the caller gives, whatever was thrown |
| Responses.SendError | apps/backend/src/utils/response.ts:3-5 | the response has the status the caller gives |
| Responses.SendSuccess | apps/backend/src/utils/response.ts:7-9 | the status is 200 and the body is an object of at most the three keys `success`, `message` and `data` |
| Responses.ErrorResponseShapes | apps/backend/src/utils/errorResponse.ts:4-11 | a ZodError is sent as `{errors}`, an Error as `{message}`, anything else with 'An unexpected error occurred'; the status passes through unchanged |
| Responses.SendErrorShape | apps/backend/src/utils/response.ts:3-5 | `sendError` keeps the status and sends `{success: false, message}` |
| Responses.SendSuccessShape | apps/backend/src/utils/response.ts:7-9 | `sendSuccess` always answers 200 with `success: true`, echoes the data unchanged and supplies no default message |
| Common.JsNumber | apps/backend/src/controllers/issues/issue.controller.ts:78 | `Number(s)` is a number exactly when `s` is all decimal digits (the empty string included) |
| Common.Utf16Length | apps/backend/src/schemas/issue.schema.ts:7-8 | JavaScript's `.length` lies between the number of characters and twice that, and is 0 only for the empty string |
| Common.Utf16LengthBmp | apps/backend/src/schemas/auth.schema.ts:6 | on characters up to U+FFFF, `.length` is the number of characters |
| Common.Utf16LengthAstral | apps/backend/src/schemas/auth.schema.ts:6 | a character above U+FFFF counts twice: `"😀a".length` is 3 |
| Common.ToUpper | apps/backend/src/controllers/issues/issue.controller.ts:51-55 | `toUpperCase()` keeps the length and maps each letter a-z to A-Z |
| Common.ToLower | apps/backend/src/controllers/issues/issue.controller.ts:59 | `toLowerCase()` keeps the length and maps each letter A-Z to a-z |
| Zod.MinIssues | apps/backend/src/schemas/issue.schema.ts:7-8 | `z.string().min(n)` reports nothing exactly when the value is a string whose `.length` in UTF-16 code units is at least `n`, and otherwise one issue |
| Zod.OptionalMinIssues | apps/backend/src/schemas/issue.schema.ts:13-14 | `.optional()` also lets an absent value through |
| Common.Split | apps/backend/src/middleware/auth/authenticateToken.ts:10 | `split(' ')` yields space-free fields that join back to the header |
| Common.NumberOfString | apps/backend/src/controllers/auth/auth.controller.ts:98 | `Number(String(id))` is `id`, so a token's id claim names the user it was issued for |
| IssuesSlice.ReplaceFirst | apps/frontend/src/features/issues/store/issuesSlice.ts:136-137 | the `findIndex`-then-assign update keeps the list's length |
| IssuesSlice.WithoutId | apps/frontend/src/features/issues/store/issuesSlice.ts:149 | `filter` never lengthens the list |
| IssuesSlice.ReplaceFirstNoMatch | apps/frontend/src/features/issues/store/issuesSlice.ts:134-138 | when no entry has the id, the update leaves the list unchanged |
| IssuesSlice.ReplaceFirstAt | apps/frontend/src/features/issues/store/issuesSlice.ts:134-138 | only the first entry with the id is replaced; every other entry and the length stay |
| IssuesSlice.WithoutIdMembers | apps/frontend/src/features/issues/store/issuesSlice.ts:149 | after filtering, an entry is present exactly when it was present and has a different id |
| IssuesSlice.WithoutIdAppend | apps/frontend/src/features/issues/store/issuesSlice.ts:149 | the filter keeps the original order: it distributes over concatenation |
| IssuesSlice.FindIndex | apps/frontend/src/features/issues/store/issuesSlice.ts:136 | `findIndex` yields the first index with the id, or -1 exactly when there is none |
| IssuesSlice.IssuesState.SelectIssue | apps/frontend/src/features/issues/store/issuesSlice.ts:100-102 | changes only `selectedIssue` |
| IssuesSlice.IssuesState.Pending | apps/frontend/src/features/issues/store/issuesSlice.ts:106-109 | sets `loading` and clears `error`; the list is unchanged |
| IssuesSlice.IssuesState.Rejected | apps/frontend/src/features/issues/store/issuesSlice.ts:114-117 | clears `loading` and sets `error` to the payload; the list is unchanged |
| IssuesSlice.IssuesState.FetchFulfilled | apps/frontend/src/features/issues/store/issuesSlice.ts:110-113 | replaces the list wholesale with the payload |
| IssuesSlice.IssuesState.CreateFulfilled | apps/frontend/src/features/issues/store/issuesSlice.ts:122-125 | appends the payload at the end; earlier entries are unchanged |
| IssuesSlice.IssuesState.UpdateFulfilled | apps/frontend/src/features/issues/store/issuesSlice.ts:134-138 | the new list is the old one with only the first matching entry replaced |
| IssuesSlice.IssuesState.DeleteFulfilled | apps/frontend/src/features/issues/store/issuesSlice.ts:147-150 | removes every entry with that id |
| IssuesSlice.ThunkUrl | apps/frontend/src/features/issues/store/issuesSlice.ts:38-43 | the thunk always requests `/api/issues?` and the query, with params in the order role, status, priority |
| IssuesSlice.ThunkUrlMatchesFetch | apps/frontend/src/features/issues/store/issuesSlice.ts:38-43 | for every filter set, the thunk's URL equals the one `fetchIssues.ts` builds (lines 18-19 there) exactly when at least one filter is given |
| IssuesSlice.ThunkUrlWithoutFilters | apps/frontend/src/features/issues/store/issuesSlice.ts:43 | without filters the thunk requests `/api/issues?` |
| FetchIssues.SearchParams.Append | apps/frontend/src/features/issues/fetchIssues.ts:12-14 | `append` adds the pair at the end |
| FetchIssues.FilterPairs | apps/frontend/src/features/issues/fetchIssues.ts:12-14 | at most one pair per filter, so at most three |
| FetchIssues.Serialize | apps/frontend/src/features/issues/fetchIssues.ts:18 | `params.toString()` is empty for no params, and non-empty when the first param has a name |
| FetchIssues.FilterPairsRules | apps/frontend/src/features/issues/fetchIssues.ts:12-14 | a filter contributes a pair exactly when it is present and non-empty, in the fixed order role, status, priority |
| FetchIssues.BuildParams | apps/frontend/src/features/issues/fetchIssues.ts:10-14 | the params are the pairs of the given filters, in that order |
| FetchIssues.Url | apps/frontend/src/features/issues/fetchIssues.ts:19 | an empty query gives `/api/issues`, any other `/api/issues?` plus the query |
| FetchIssues.UrlOfFilters | apps/frontend/src/features/issues/fetchIssues.ts:12-19 | the URL is the bare path exactly when no filter is given, with no trailing `?` |
| FetchIssues.TwoFilters | apps/frontend/src/features/issues/fetchIssues.ts:12-18 | role and priority give `role=…&priority=…` |
| FetchIssues.AuthorizationHeader | apps/frontend/src/features/issues/fetchIssues.ts:23 | the header is `'Bearer ' + token` for a stored token and `''` otherwise |
| FetchIssues.RequestOf | apps/frontend/src/features/issues/fetchIssues.ts:9-23 | the request goes to the URL of the filters and carries the Authorization header of the stored token |
| FetchIssues.HeaderReachesBackend | apps/frontend/src/features/issues/fetchIssues.ts:23 | the backend's header split returns the stored token, and a missing token is a missing token there |
| AuthSlice.InitialUser | apps/frontend/src/features/auth/authSlice.ts:36-41 | with no stored user, the fallback is `{No_name, No_Email, 'user', 0}` |
| AuthSlice.InitialToken | apps/frontend/src/features/auth/authSlice.ts:32 | an empty stored token counts as none |
| AuthSlice.AuthState.Logout | apps/frontend/src/features/auth/authSlice.ts:106-114 | token and refreshToken become null and user `{}`; the `user`, `token` and `refreshToken` storage keys are removed |
| AuthSlice.AuthState.SetToken | apps/frontend/src/features/auth/authSlice.ts:115-117 | changes only `token` |
| AuthSlice.AuthState.LoginPending | apps/frontend/src/features/auth/authSlice.ts:121-124 | sets `loading` and clears `error` |
| AuthSlice.AuthState.LoginFulfilled | apps/frontend/src/features/auth/authSlice.ts:125-133 | sets token, refreshToken and user from the payload and clears `loading` |
| AuthSlice.AuthState.LoginRejected | apps/frontend/src/features/auth/authSlice.ts:134-137 | clears `loading` and sets `error`; token and user are unchanged |
| AuthSlice.AuthState.RefreshFulfilled | apps/frontend/src/features/auth/authSlice.ts:138-141 | replaces the token and clears the error; refreshToken is never updated |
| AuthSlice.RefreshOutcome | apps/frontend/src/features/auth/authSlice.ts:80-97 | with no refresh token it rejects 'No refresh token'; it fulfils exactly when the reply body's token is a string |
| AuthSlice.RefreshAccessToken | apps/frontend/src/features/auth/authSlice.ts:76-100 | no request is sent without a refresh token; storage changes only when a string token arrives, and then only the `token` key changes |
| AuthSlice.RefreshOutcomeRejections | apps/frontend/src/features/auth/authSlice.ts:87-97 | a failed request rejects 'Session expired. Please log in again.'; a non-string token rejects 'Invalid token format from server' |
| Seed.SeedRoleHasNoClaim | apps/backend/prisma/seed.ts:17 | the seeded role `'super-admin'` has no enum member, so its role claim is undefined |
| Seed.SeedSuperAdminForbidden | apps/backend/prisma/seed.ts:17 | as seeded, the super administrator with a valid access token gets 403 on PUT and DELETE |
| Seed.IntendedSuperAdminAdmitted | apps/backend/prisma/seed.ts:17 | with the role `super_admin` the same user reaches the handler |

## Left out

- Cryptography: HMAC-SHA256 signatures, base64url, and bcrypt's algorithm and salt generation are uninterpreted. A token is decoded through an abstract codec, and `Decodes` is a hypothesis of the round-trip lemmas.
- The `UserRole` enum file and the Prisma schema are not part of this model. The enum is taken to be USER/'user', ADMIN/'admin' and SUPER_ADMIN/'super_admin', after the register schema's values. The default issue status is the `Database.defaultStatus` constant.
- Status and priority are compared as strings in the listing filter. Both are upper-cased, which points to enum columns. If they are, an unknown status or priority filter makes Prisma throw (500), where the model answers 200 with an empty list. The Prisma schema is not part of this model.
- Bcrypt.CompareHashed: rejects other passwords only among ASCII passwords of at most 72 characters. In general, all passwords whose first 72 UTF-8 bytes agree match one hash (`TailBeyondKeyIgnored`). Collisions of the hash function itself are not modelled.
- `createdAt` appears in response bodies as a number of seconds. Prisma sends a `DateTime` as an ISO 8601 string, and that formatting is not modelled.
- Express also routes `HEAD` requests to `router.get` handlers; `Verb` has no `HEAD`, so that path is not modelled.
- Common.JsNumber: gives the exact value of every digit string. JavaScript's `Number` is a 64-bit float: it rounds above 2^53 (`Number("9007199254740993")` is 9007199254740992) and gives `Infinity` beyond about 1.8e308. Prisma's range check on `Int` ids is not modelled either. An id such as 3000000000 is probably rejected there, so the source would answer 500 where the model answers 404.
- Case mapping covers ASCII letters only. `Number` on strings with spaces, signs, decimals or exponents is treated as `NaN` rather than trimmed or parsed.
- The `catch` blocks that generic database failures reach (a lost connection, a constraint other than the user foreign key) are left out. The 500 paths that a `NaN` id or a missing user id produce are kept.
- The user table's `createdAt`/`updatedAt` columns and the issue's `updatedAt` are not modelled. Neither are the `iat`/`exp` fields that `jwt.verify` adds to `req.user` (`Claims` holds only id, email and role).
- zod's default message texts are `None` in `ZodIssue.message`.
- Zod.IssueJson: renders an issue as `code`, `path` and `message` only. zod also sends per-code fields, and those are dropped: `minimum`, `type`, `inclusive` and `exact` for `too_small`; `options` and `received` for `invalid_enum_value`; `validation` for `invalid_string`. So every 400 body built from zod issues lacks those keys.
- The axios calls and interceptors, the `createIssue`/`updateIssue`/`deleteIssue` thunks' request code and their `rejectWithValue` messages, and the `loginUser`/`registerUser` thunks' storage writes are network plumbing. They are left out.
- The frontend create and update fulfilled cases receive the backend's wrapped body `{message, issue, success}` as the payload. The model takes the payload as given.
- The selectors of both slices are plain field reads. `JSON.parse` failing on a corrupt stored user, and `localStorage` throwing, are not modelled.
- Concurrency between requests and the asynchronous scheduling of thunks are left out; every operation is sequential.
- `Login` and `Refresh` are functions of the user table, so neither can change it. No separate lemma states this.

## Findings

| source | as written | input that shows it | evidently intended | confidence | as-written member | corrected member |
|---|---|---|---|---|---|---|
| apps/backend/prisma/seed.ts:17 | the seeded super administrator's role is `'super-admin'`, with a hyphen, which is not a key of `UserRole` after upper-casing | log in as superadmin@example.com, then PUT `/api/issues/1` with the access token: the role claim is undefined and `authorizeRole` answers 403 | the enum value `'super_admin'`, which the register schema also uses | medium, not executed | Seed.SeedSuperAdminForbidden | Seed.IntendedSuperAdminAdmitted |
