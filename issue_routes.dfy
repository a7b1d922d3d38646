/** `issue.routes.ts`: the router mounted at `/api/issues`. Authentication is registered
    with `use` ahead of every route; PUT and DELETE on `/:id` add a role gate whose
    allow-list is the whole role enum. The router is modelled as the table of middleware
    chains it ends up holding, and a request runs down its chain as a small state
    machine: missing token, then invalid token, then forbidden role, then the handler. */
module IssueRoutes {
  import opened Common
  import opened Jwt
  import opened Responses
  import opened Middleware

  datatype Verb = GET | POST | PUT | DELETE | PATCH

  /** `/` or `/:id` below the mount point; anything deeper matches no route. */
  datatype Path = Collection | Item(id: string) | Other

  datatype Handler = GetAllIssues | GetIssueById | CreateIssue | UpdateIssue | DeleteIssue

  datatype Stage = Authenticate | AuthorizeRoles(allowed: seq<string>) | Run(handler: Handler)

  /** The allow-list of lines 22 and 27: `UserRole.USER, UserRole.ADMIN, UserRole.SUPER_ADMIN`. */
  const EveryRole: seq<string> := AllRoleValues

  /** The stages a route registers after the shared authentication, or none when no route
      matches. */
  function RouteStages(verb: Verb, path: Path): Option<seq<Stage>> {
    match (verb, path)
    case (GET, Collection) => Some([Run(GetAllIssues)])
    case (GET, Item(_)) => Some([Run(GetIssueById)])
    case (POST, Collection) => Some([Run(CreateIssue)])
    case (PUT, Item(_)) => Some([AuthorizeRoles(EveryRole), Run(UpdateIssue)])
    case (DELETE, Item(_)) => Some([AuthorizeRoles(EveryRole), Run(DeleteIssue)])
    case _ => None
  }

  /** The chain of a request: `issueRoutes.use(authenticateToken)` first, then the matching
      route's stages (an unmatched request is still authenticated before it falls through). */
  function Chain(verb: Verb, path: Path): (c: seq<Stage>)
    ensures |c| >= 1 && c[0] == Authenticate
    ensures forall k | 1 <= k < |c| :: c[k] != Authenticate
  {
    [Authenticate] + (if RouteStages(verb, path).Some? then RouteStages(verb, path).value else [])
  }

  /** Where a request ends: at a handler with the request's `user`, answered by a
      middleware, or falling out of the router. */
  datatype Outcome = Reached(handler: Handler, user: Option<Claims>) | Answered(response: Response) | Unrouted

  /** Runs the stages in order, each calling `next` or answering. */
  function RunChain(chain: seq<Stage>, header: Option<string>, keys: Secrets, codec: Codec, now: int, user: Option<Claims>): (o: Outcome)
    ensures o.Reached? ==> exists k | 0 <= k < |chain| :: chain[k] == Run(o.handler)
  {
    if |chain| == 0 then Unrouted
    else
      match chain[0]
      case Authenticate =>
        (match Middleware.Authenticate(header, keys, codec, now)
         case Deny(res) => Answered(res)
         case Admit(claims) =>
           RunChain(chain[1..], header, keys, codec, now, Some(claims)))
      case AuthorizeRoles(allowed) =>
        (match AuthorizeRole(allowed, user)
         case Respond(res) => Answered(res)
         case Next => RunChain(chain[1..], header, keys, codec, now, user))
      case Run(h) => Reached(h, user)
  }

  /** Dispatch of one request to the router. */
  function Dispatch(verb: Verb, path: Path, header: Option<string>, keys: Secrets, codec: Codec, now: int): (o: Outcome)
    ensures o.Reached? ==> RouteStages(verb, path).Some? && Run(o.handler) in RouteStages(verb, path).value
  {
    RunChain(Chain(verb, path), header, keys, codec, now, None)
  }

  /** Nothing but authentication can answer first: a request whose token is not admitted
      gets the authentication's 401 whatever route it targets. */
  lemma AuthenticationFirst(verb: Verb, path: Path, header: Option<string>, keys: Secrets, codec: Codec, now: int)
    ensures Middleware.Authenticate(header, keys, codec, now).Deny? ==>
      Dispatch(verb, path, header, keys, codec, now) == Answered(Middleware.Authenticate(header, keys, codec, now).response)
  {
  }

  /** GET `/`, GET `/:id` and POST `/` reach their handler exactly when the token is
      admitted, with `req.user` set to its claims; there is no role gate. */
  lemma OpenRoutes(verb: Verb, path: Path, header: Option<string>, keys: Secrets, codec: Codec, now: int)
    requires (verb, path) == (GET, Collection) || (verb == GET && path.Item?) || (verb, path) == (POST, Collection)
    ensures var g := Middleware.Authenticate(header, keys, codec, now);
      var o := Dispatch(verb, path, header, keys, codec, now);
      && (o.Reached? <==> g.Admit?)
      && (g.Admit? ==> o.user == Some(g.claims))
      && (o.Reached? ==> o.handler == (if verb == POST then CreateIssue else if path.Item? then GetIssueById else GetAllIssues))
  {
    var h := if verb == POST then CreateIssue else if path.Item? then GetIssueById else GetAllIssues;
    var c := Chain(verb, path);
    assert c == [Authenticate, Run(h)];
    var g := Middleware.Authenticate(header, keys, codec, now);
    if g.Admit? {
      assert c[1..] == [Run(h)];
      assert Dispatch(verb, path, header, keys, codec, now) == RunChain(c[1..], header, keys, codec, now, Some(g.claims));
    }
  }

  /** PUT and DELETE on `/:id` run authentication, then the enum-wide role gate, then the
      handler: the handler is reached exactly when the token is admitted and its role
      claim is one of the enum's values; an admitted token without such a role gets 403. */
  lemma GatedRoutes(verb: Verb, id: string, header: Option<string>, keys: Secrets, codec: Codec, now: int)
    requires verb == PUT || verb == DELETE
    ensures Chain(verb, Item(id)) == [Authenticate, AuthorizeRoles(EveryRole), Run(if verb == PUT then UpdateIssue else DeleteIssue)]
    ensures var g := Middleware.Authenticate(header, keys, codec, now);
      var o := Dispatch(verb, Item(id), header, keys, codec, now);
      && (o.Reached? <==> g.Admit? && g.claims.role.Some? && g.claims.role.value in AllRoleValues)
      && (o.Reached? ==> o.user == Some(g.claims))
      && (g.Admit? && !o.Reached? ==> o == Answered(SendError(403, ForbiddenMessage)))
  {
    var h := if verb == PUT then UpdateIssue else DeleteIssue;
    var c := Chain(verb, Item(id));
    assert c == [Authenticate, AuthorizeRoles(EveryRole), Run(h)];
    var g := Middleware.Authenticate(header, keys, codec, now);
    if g.Admit? {
      assert c[1..] == [AuthorizeRoles(EveryRole), Run(h)];
      assert c[1..][1..] == [Run(h)];
      assert Dispatch(verb, Item(id), header, keys, codec, now) == RunChain(c[1..], header, keys, codec, now, Some(g.claims));
    }
  }

  /** Since the allow-list is the whole enum, a token whose role claim is any enum value
      passes the PUT and DELETE gate; only a role that failed the enum lookup is stopped. */
  lemma {:induction false} EnumGatePassesEveryRole(verb: Verb, id: string, header: Option<string>, keys: Secrets, codec: Codec, now: int)
    requires verb == PUT || verb == DELETE
    requires Middleware.Authenticate(header, keys, codec, now).Admit?
    ensures var c := Middleware.Authenticate(header, keys, codec, now).claims;
      (exists ro: Role :: c.role == Some(RoleValue(ro))) ==> Dispatch(verb, Item(id), header, keys, codec, now).Reached?
    ensures var c := Middleware.Authenticate(header, keys, codec, now).claims;
      c.role.None? ==> Dispatch(verb, Item(id), header, keys, codec, now) == Answered(SendError(403, ForbiddenMessage))
  {
    GatedRoutes(verb, id, header, keys, codec, now);
    var c := Middleware.Authenticate(header, keys, codec, now).claims;
    if exists ro: Role :: c.role == Some(RoleValue(ro)) {
      var ro: Role :| c.role == Some(RoleValue(ro));
      assert RoleValue(ro) in AllRoleValues;
    }
  }

  /** A request that matches no route is authenticated and then falls out of the router. */
  lemma UnmatchedFallsThrough(verb: Verb, path: Path, header: Option<string>, keys: Secrets, codec: Codec, now: int)
    requires RouteStages(verb, path).None?
    ensures Middleware.Authenticate(header, keys, codec, now).Admit? ==> Dispatch(verb, path, header, keys, codec, now) == Unrouted
  {
    var c := Chain(verb, path);
    assert c == [Authenticate];
    var g := Middleware.Authenticate(header, keys, codec, now);
    if g.Admit? {
      assert c[1..] == [];
      assert Dispatch(verb, path, header, keys, codec, now) == RunChain([], header, keys, codec, now, Some(g.claims));
    }
  }
}
