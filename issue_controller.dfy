/** `issue.controller.ts`: the five issue handlers over the issue table. Each handler is a
    chain of early returns; the checks are pure decisions (`Plan…` functions) and the
    handlers that write carry them out on the `Database`. A thrown database error ends in
    the handler's `catch`, which answers 500 with its own message and the error object. */
module IssueController {
  import opened Common
  import opened Jwt
  import opened Zod
  import opened IssueSchema
  import opened Store
  import opened Responses

  const UserNotFoundUnauthorized := "Unauthorized: user not found"
  const UserRoleNotFound := "Unauthorized: user role not found"
  const NotYourIssue := "Forbidden: not your issue"
  const ErrorCreating := "Error creating issue"
  const ErrorFetchingAll := "Error fetching issues"
  const ErrorFetching := "Error fetching issue"
  const ErrorUpdating := "Error updating issue"
  const ErrorDeleting := "Error deleting issue"

  /** `{ message }`. */
  function MessageBody(message: string): Json {
    JObj([("message", JStr(message))])
  }

  /** The body of a `catch`: `{ message, error }`, the error object left opaque. */
  function CaughtBody(message: string): Json {
    JObj([("message", JStr(message)), ("error", JOpaque)])
  }

  /** A row of the issue table as Prisma returns it. */
  function RowJson(row: IssueRow): Json {
    JObj([
      ("id", JNum(row.id)), ("title", JStr(row.title)), ("description", JStr(row.description)),
      ("priority", JStr(PriorityName(row.priority))), ("status", JStr(row.status)),
      ("userId", JNum(row.userId)), ("createdAt", JNum(row.createdAt))])
  }

  /** `include: { user: true }`: the whole user row, password hash included, is nested
      under `user`. */
  function UserRowJson(u: UserRecord): Json {
    JObj([("id", JNum(u.id)), ("name", JStr(u.name)), ("email", JStr(u.email)), ("password", JOpaque), ("role", JStr(u.role))])
  }

  /** The ownership rule of update and delete: only the role `'user'` is restricted, to
      the issues whose `userId` is `Number(req.user.id)` (a `NaN` id owns nothing). */
  predicate Restricted(user: Claims, row: IssueRow) {
    user.role == Some("user") && JsNumber(user.id) != Some(row.userId)
  }

  // ------------------------------------------------------------------------------------
  // createIssue
  // ------------------------------------------------------------------------------------

  datatype CreatePlan = CreateRejected(response: Response) | CreateRow(data: CreateIssueInput, userId: nat)

  /** The checks of `createIssue`: validation, then the user, then the write, which throws
      when `Number(req.user.id)` is `NaN` or names no user (the foreign key). */
  function PlanCreate(users: map<nat, UserRecord>, body: Json, user: Option<Claims>): (p: CreatePlan)
    ensures p.CreateRow? <==>
      ParseCreateIssue(body).Valid? && user.Some? && JsNumber(user.value.id).Some? && JsNumber(user.value.id).value in users
    ensures p.CreateRow? ==> p.data == ParseCreateIssue(body).data && Some(p.userId) == JsNumber(user.value.id)
  {
    match ParseCreateIssue(body)
    case Invalid(issues) => CreateRejected(Response(400, JObj([("errors", IssuesJson(issues))])))
    case Valid(d) =>
      if user.None? then CreateRejected(Response(401, MessageBody(UserNotFoundUnauthorized)))
      else
        match JsNumber(user.value.id)
        case None => CreateRejected(Response(500, CaughtBody(ErrorCreating)))
        case Some(uid) =>
          if uid !in users then CreateRejected(Response(500, CaughtBody(ErrorCreating)))
          else CreateRow(d, uid)
  }

  /** A bad body is answered 400 before the user is looked at; a valid body without a
      user gets 401. */
  lemma CreateValidatesFirst(users: map<nat, UserRecord>, body: Json, user: Option<Claims>)
    ensures ParseCreateIssue(body).Invalid? ==>
      PlanCreate(users, body, user) == CreateRejected(Response(400, JObj([("errors", IssuesJson(ParseCreateIssue(body).issues))])))
    ensures ParseCreateIssue(body).Valid? && user.None? ==>
      PlanCreate(users, body, user) == CreateRejected(Response(401, MessageBody(UserNotFoundUnauthorized)))
  {
  }

  function CreatedBody(row: IssueRow): Json {
    JObj([("message", JStr(IssueCreatedMessage)), ("issue", RowJson(row)), ("success", JBool(true))])
  }

  /** `createIssue(req, res)` at time `now`: the new row belongs to `Number(req.user.id)`,
      holds the validated fields and the default status, and takes the next id. */
  method CreateIssue(db: Database, body: Json, user: Option<Claims>, now: int) returns (res: Response)
    requires db.Valid()
    modifies db
    ensures db.Valid()
    ensures db.users == old(db.users) && db.nextUserId == old(db.nextUserId)
    ensures PlanCreate(old(db.users), body, user).CreateRejected? ==>
      && res == PlanCreate(old(db.users), body, user).response
      && db.issues == old(db.issues) && db.nextIssueId == old(db.nextIssueId)
    ensures PlanCreate(old(db.users), body, user).CreateRow? ==>
      var p := PlanCreate(old(db.users), body, user);
      var row := IssueRow(old(db.nextIssueId), p.data.title, p.data.description, p.data.priority, db.defaultStatus, p.userId, now);
      && row.id !in old(db.issues)
      && db.issues == old(db.issues)[row.id := row] && db.nextIssueId == old(db.nextIssueId) + 1
      && res == Response(201, CreatedBody(row))
  {
    var plan := PlanCreate(db.users, body, user);
    if plan.CreateRejected? {
      return plan.response;
    }
    var row := db.CreateIssue(plan.data, plan.userId, now);
    return Response(201, CreatedBody(row));
  }

  // ------------------------------------------------------------------------------------
  // getAllIssues
  // ------------------------------------------------------------------------------------

  /** The `where` object: each filter present or not. `role` filters on the issue's user. */
  datatype Where = Where(status: Option<string>, priority: Option<string>, role: Option<string>)

  /** `req.query[key]` when it is a non-empty string (`value && typeof value === "string"`);
      a repeated parameter arrives as an array and is ignored. */
  function QueryText(query: Json, key: string): (r: Option<string>)
    ensures r.Some? <==> exists s :: Get(query, key) == Some(JStr(s)) && s != ""
    ensures r.Some? ==> Get(query, key) == Some(JStr(r.value))
  {
    match Get(query, key)
    case Some(JStr(s)) => if s != "" then Some(s) else None
    case _ => None
  }

  /** Builds `where` one field at a time: status and priority upper-cased, role
      lower-cased, a filter only for a parameter that is present. */
  method BuildWhere(query: Json) returns (w: Where)
    ensures w.status.Some? <==> QueryText(query, "status").Some?
    ensures w.status.Some? ==> w.status.value == ToUpper(QueryText(query, "status").value)
    ensures w.priority.Some? <==> QueryText(query, "priority").Some?
    ensures w.priority.Some? ==> w.priority.value == ToUpper(QueryText(query, "priority").value)
    ensures w.role.Some? <==> QueryText(query, "role").Some?
    ensures w.role.Some? ==> w.role.value == ToLower(QueryText(query, "role").value)
  {
    w := Where(None, None, None);
    var status := QueryText(query, "status");
    if status.Some? {
      w := w.(status := Some(ToUpper(status.value)));
    }
    var priority := QueryText(query, "priority");
    if priority.Some? {
      w := w.(priority := Some(ToUpper(priority.value)));
    }
    var role := QueryText(query, "role");
    if role.Some? {
      w := w.(role := Some(ToLower(role.value)));
    }
  }

  /** Whether a row satisfies every filter of `where`. */
  predicate Matches(w: Where, users: map<nat, UserRecord>, row: IssueRow) {
    && (w.status.Some? ==> row.status == w.status.value)
    && (w.priority.Some? ==> PriorityName(row.priority) == w.priority.value)
    && (w.role.Some? ==> row.userId in users && users[row.userId].role == w.role.value)
  }

  /** The rows whose id is below `n`, in increasing id order. */
  function RowsBelow(issues: map<nat, IssueRow>, n: nat): (r: seq<IssueRow>)
    requires forall id | id in issues :: issues[id].id == id
    ensures forall x :: x in r <==> exists id | id in issues :: id < n && issues[id] == x
    ensures forall i, j | 0 <= i < j < |r| :: r[i].id < r[j].id
    ensures forall k | 0 <= k < |r| :: r[k].id < n
  {
    if n == 0 then []
    else
      var rest := RowsBelow(issues, n - 1);
      if n - 1 in issues then rest + [issues[n - 1]] else rest
  }

  /** The rows that satisfy `where`, in their order. */
  function FilterRows(rows: seq<IssueRow>, users: map<nat, UserRecord>, w: Where): (r: seq<IssueRow>)
    ensures forall x :: x in r <==> x in rows && Matches(w, users, x)
    ensures multiset(r) <= multiset(rows)
  {
    if |rows| == 0 then []
    else
      assert rows == [rows[0]] + rows[1..];
      (if Matches(w, users, rows[0]) then [rows[0]] else []) + FilterRows(rows[1..], users, w)
  }

  predicate SortedByCreatedDesc(s: seq<IssueRow>) {
    forall i, j | 0 <= i < j < |s| :: s[i].createdAt >= s[j].createdAt
  }

  /** Inserts a row in front of the first row created no later than it. */
  function InsertByCreatedDesc(x: IssueRow, s: seq<IssueRow>): (r: seq<IssueRow>)
    requires SortedByCreatedDesc(s)
    ensures SortedByCreatedDesc(r)
    ensures multiset(r) == multiset(s) + multiset{x}
    ensures |r| == |s| + 1 && (r[0] == x || (|s| > 0 && r[0] == s[0]))
  {
    if |s| == 0 then [x]
    else if x.createdAt >= s[0].createdAt then [x] + s
    else
      var rest := InsertByCreatedDesc(x, s[1..]);
      assert s == [s[0]] + s[1..];
      assert rest[0].createdAt <= s[0].createdAt;
      [s[0]] + rest
  }

  /** `orderBy: { createdAt: "desc" }`. */
  function SortByCreatedDesc(s: seq<IssueRow>): (r: seq<IssueRow>)
    ensures SortedByCreatedDesc(r)
    ensures multiset(r) == multiset(s)
  {
    if |s| == 0 then []
    else
      assert s == [s[0]] + s[1..];
      InsertByCreatedDesc(s[0], SortByCreatedDesc(s[1..]))
  }

  /** `prisma.issue.findMany({ where, orderBy: { createdAt: "desc" } })` over the rows
      with id below `n`. */
  function ListIssues(issues: map<nat, IssueRow>, users: map<nat, UserRecord>, w: Where, n: nat): (l: seq<IssueRow>)
    requires forall id | id in issues :: issues[id].id == id
    ensures SortedByCreatedDesc(l)
    ensures multiset(l) == multiset(FilterRows(RowsBelow(issues, n), users, w))
  {
    SortByCreatedDesc(FilterRows(RowsBelow(issues, n), users, w))
  }

  /** The listed rows are exactly the stored rows that satisfy every filter, newest first,
      each stored row listed as often as it is stored (a permutation of the matching rows
      in id order). */
  lemma {:induction false} ListIssuesSpec(issues: map<nat, IssueRow>, users: map<nat, UserRecord>, w: Where, n: nat)
    requires forall id | id in issues :: issues[id].id == id && id < n
    ensures var l := ListIssues(issues, users, w, n);
      && SortedByCreatedDesc(l)
      && multiset(l) == multiset(FilterRows(RowsBelow(issues, n), users, w))
      && (forall x :: x in l <==> x in issues.Values && Matches(w, users, x))
  {
    var rows := RowsBelow(issues, n);
    var filtered := FilterRows(rows, users, w);
    var l := ListIssues(issues, users, w, n);
    assert multiset(l) == multiset(filtered);
    forall x
      ensures x in l <==> x in issues.Values && Matches(w, users, x)
    {
      assert x in l <==> x in multiset(l);
      assert x in filtered <==> x in multiset(filtered);
      assert x in issues.Values <==> exists id | id in issues :: id < n && issues[id] == x;
    }
  }

  /** One entry of the list: the row with its user nested in. */
  function ListedJson(row: IssueRow, users: map<nat, UserRecord>): Json {
    match RowJson(row)
    case JObj(fields) => JObj(fields + [("user", if row.userId in users then UserRowJson(users[row.userId]) else JNull)])
    case _ => JNull
  }

  function ListJson(rows: seq<IssueRow>, users: map<nat, UserRecord>): (j: Json)
    ensures j.JArr? && |j.items| == |rows|
  {
    JArr(seq(|rows|, k requires 0 <= k < |rows| => ListedJson(rows[k], users)))
  }

  /** `getAllIssues(req, res)`: 200 with the filtered rows, newest first, each with its
      user. */
  method GetAllIssues(db: Database, query: Json) returns (res: Response)
    requires db.Valid()
    ensures res.status == 200
    ensures exists w: Where ::
      && (w.status.Some? <==> QueryText(query, "status").Some?)
      && (w.status.Some? ==> w.status.value == ToUpper(QueryText(query, "status").value))
      && (w.priority.Some? <==> QueryText(query, "priority").Some?)
      && (w.priority.Some? ==> w.priority.value == ToUpper(QueryText(query, "priority").value))
      && (w.role.Some? <==> QueryText(query, "role").Some?)
      && (w.role.Some? ==> w.role.value == ToLower(QueryText(query, "role").value))
      && res.body == ListJson(ListIssues(db.issues, db.users, w, db.nextIssueId), db.users)
  {
    var w := BuildWhere(query);
    var rows := ListIssues(db.issues, db.users, w, db.nextIssueId);
    res := Response(200, ListJson(rows, db.users));
  }

  /** `?priority=high` lists exactly the HIGH issues: the filter is upper-cased before it
      is compared. */
  lemma {:induction false} PriorityFilterIgnoresCase(issues: map<nat, IssueRow>, users: map<nat, UserRecord>, n: nat, x: IssueRow)
    requires forall id | id in issues :: issues[id].id == id && id < n
    ensures var w := Where(None, Some(ToUpper("high")), None);
      x in ListIssues(issues, users, w, n) <==> x in issues.Values && x.priority == HIGH
  {
    var w := Where(None, Some(ToUpper("high")), None);
    assert ToUpper("high") == "HIGH";
    ListIssuesSpec(issues, users, w, n);
    assert PriorityName(x.priority) == "HIGH" <==> x.priority == HIGH by {
      assert PriorityName(LOW)[0] == 'L';
    }
  }

  /** Every listed entry shows its user's password hash: `include: { user: true }`
      selects the whole user row. */
  lemma ListingShowsPasswordField(row: IssueRow, users: map<nat, UserRecord>)
    requires row.userId in users
    ensures Get(ListedJson(row, users), "user") == Some(UserRowJson(users[row.userId]))
    ensures Get(UserRowJson(users[row.userId]), "password") == Some(JOpaque)
  {
    var u := users[row.userId];
    var fields := [("id", JNum(u.id)), ("name", JStr(u.name)), ("email", JStr(u.email)), ("password", JOpaque), ("role", JStr(u.role))];
    assert fields[..4][..3] == fields[..3];
    assert Lookup(fields, "password") == Lookup(fields[..4], "password");
  }

  // ------------------------------------------------------------------------------------
  // getIssueById, updateIssue, deleteIssue
  // ------------------------------------------------------------------------------------

  /** What the checks of a handler decide: answer, or go on with the issue id. */
  datatype Access = Denied(response: Response) | Granted(id: nat)

  /** `Number(id)` and `findUnique`: a `NaN` id makes the query throw (500), a missing
      row is answered 404, and only then is the user checked (401). */
  function FindThenUser(issues: map<nat, IssueRow>, idParam: string, user: Option<Claims>, caught: string): (a: Access)
    ensures a.Granted? <==> JsNumber(idParam).Some? && JsNumber(idParam).value in issues && user.Some?
    ensures a.Granted? ==> Some(a.id) == JsNumber(idParam)
  {
    match JsNumber(idParam)
    case None => Denied(Response(500, CaughtBody(caught)))
    case Some(id) =>
      if id !in issues then Denied(Response(404, MessageBody(IssueNotFoundMessage)))
      else if user.None? then Denied(Response(401, MessageBody(UserRoleNotFound)))
      else Granted(id)
  }

  /** The checks of update and delete: those of `FindThenUser`, then 403 for a caller
      that `Restricted` excludes. */
  function OwnedAccess(issues: map<nat, IssueRow>, idParam: string, user: Option<Claims>, caught: string): (a: Access)
    ensures a.Granted? <==> FindThenUser(issues, idParam, user, caught).Granted? && !Restricted(user.value, issues[JsNumber(idParam).value])
    ensures a.Granted? ==> a.id in issues && Some(a.id) == JsNumber(idParam) && !Restricted(user.value, issues[a.id])
  {
    match FindThenUser(issues, idParam, user, caught)
    case Denied(res) => Denied(res)
    case Granted(id) =>
      if Restricted(user.value, issues[id]) then Denied(Response(403, MessageBody(NotYourIssue)))
      else Granted(id)
  }

  /** `getIssueById(req, res)`: no ownership check. */
  function GetIssueById(issues: map<nat, IssueRow>, idParam: string, user: Option<Claims>): (r: Response)
    ensures r.status == 200 <==> FindThenUser(issues, idParam, user, ErrorFetching).Granted?
    ensures r.status == 200 ==> r.body == RowJson(issues[JsNumber(idParam).value])
  {
    match FindThenUser(issues, idParam, user, ErrorFetching)
    case Denied(res) => res
    case Granted(id) => Response(200, RowJson(issues[id]))
  }

  /** A missing issue is answered 404 before the user is checked, and any authenticated
      caller reads any issue, whatever its role and owner. */
  lemma GetIssueByIdAnyCaller(issues: map<nat, IssueRow>, id: nat, a: Claims, b: Option<Claims>)
    ensures id !in issues ==> GetIssueById(issues, NatToString(id), b) == Response(404, MessageBody(IssueNotFoundMessage))
    ensures id in issues ==> GetIssueById(issues, NatToString(id), Some(a)) == Response(200, RowJson(issues[id]))
  {
    NumberOfString(id);
  }

  /** The checks of update and delete in the order they are made: a `NaN` id 500, a
      missing issue 404, no user 401, a `'user'` who does not own the issue 403; admins,
      super admins and owners pass. */
  lemma OwnedAccessOrder(issues: map<nat, IssueRow>, idParam: string, user: Option<Claims>, caught: string)
    ensures JsNumber(idParam).None? ==> OwnedAccess(issues, idParam, user, caught) == Denied(Response(500, CaughtBody(caught)))
    ensures JsNumber(idParam).Some? && JsNumber(idParam).value !in issues ==>
      OwnedAccess(issues, idParam, user, caught) == Denied(Response(404, MessageBody(IssueNotFoundMessage)))
    ensures JsNumber(idParam).Some? && JsNumber(idParam).value in issues ==>
      var row := issues[JsNumber(idParam).value];
      && (user.None? ==> OwnedAccess(issues, idParam, user, caught) == Denied(Response(401, MessageBody(UserRoleNotFound))))
      && (user.Some? ==>
            ((OwnedAccess(issues, idParam, user, caught) == Denied(Response(403, MessageBody(NotYourIssue))))
             <==> user.value.role == Some("user") && JsNumber(user.value.id) != Some(row.userId)))
      && (user.Some? && user.value.role != Some("user") ==> OwnedAccess(issues, idParam, user, caught).Granted?)
  {
  }

  datatype UpdatePlan = UpdateRejected(response: Response) | UpdateRow(id: nat, data: UpdateIssueInput)

  /** The checks of `updateIssue`: validation first, then those of `OwnedAccess`. */
  function PlanUpdate(issues: map<nat, IssueRow>, idParam: string, body: Json, user: Option<Claims>): (p: UpdatePlan)
    ensures p.UpdateRow? <==> ParseUpdateIssue(body).Valid? && OwnedAccess(issues, idParam, user, ErrorUpdating).Granted?
    ensures p.UpdateRow? ==> p.id in issues && p.data == ParseUpdateIssue(body).data
    ensures ParseUpdateIssue(body).Invalid? ==> p.response == Response(400, JObj([("errors", IssuesJson(ParseUpdateIssue(body).issues))]))
  {
    match ParseUpdateIssue(body)
    case Invalid(issues') => UpdateRejected(Response(400, JObj([("errors", IssuesJson(issues'))])))
    case Valid(d) =>
      match OwnedAccess(issues, idParam, user, ErrorUpdating)
      case Denied(res) => UpdateRejected(res)
      case Granted(id) => UpdateRow(id, d)
  }

  function UpdatedBody(row: IssueRow): Json {
    JObj([("message", JStr(IssueUpdatedMessage)), ("issue", RowJson(row)), ("success", JBool(true))])
  }

  /** `updateIssue(req, res)`: a rejected update leaves the table as it was; an accepted
      one rewrites only the fields of the validated body in that one row. */
  method UpdateIssue(db: Database, idParam: string, body: Json, user: Option<Claims>) returns (res: Response)
    requires db.Valid()
    modifies db
    ensures db.Valid()
    ensures db.users == old(db.users) && db.nextIssueId == old(db.nextIssueId) && db.nextUserId == old(db.nextUserId)
    ensures PlanUpdate(old(db.issues), idParam, body, user).UpdateRejected? ==>
      res == PlanUpdate(old(db.issues), idParam, body, user).response && db.issues == old(db.issues)
    ensures PlanUpdate(old(db.issues), idParam, body, user).UpdateRow? ==>
      var p := PlanUpdate(old(db.issues), idParam, body, user);
      var row := ApplyUpdate(old(db.issues)[p.id], p.data);
      db.issues == old(db.issues)[p.id := row] && res == Response(200, UpdatedBody(row))
  {
    var plan := PlanUpdate(db.issues, idParam, body, user);
    if plan.UpdateRejected? {
      return plan.response;
    }
    var row := db.UpdateIssue(plan.id, plan.data);
    return Response(200, UpdatedBody(row));
  }

  /** An accepted update keeps the row's id, status, owner and creation time, and a
      field absent from the body keeps its value. */
  lemma UpdateChangesOnlyBodyFields(issues: map<nat, IssueRow>, idParam: string, body: Json, user: Option<Claims>)
    requires PlanUpdate(issues, idParam, body, user).UpdateRow?
    ensures var p := PlanUpdate(issues, idParam, body, user);
      var old_ := issues[p.id];
      var new_ := ApplyUpdate(old_, p.data);
      && new_.id == old_.id && new_.status == old_.status && new_.userId == old_.userId && new_.createdAt == old_.createdAt
      && (Get(body, "title").None? ==> new_.title == old_.title)
      && (Get(body, "title").Some? ==> Get(body, "title") == Some(JStr(new_.title)))
      && (Get(body, "description").None? ==> new_.description == old_.description)
      && (Get(body, "priority").None? ==> new_.priority == old_.priority)
  {
    UpdateIssueRules(body);
  }

  /** `deleteIssue(req, res)`: exactly the one issue is removed, or nothing changes. */
  method DeleteIssue(db: Database, idParam: string, user: Option<Claims>) returns (res: Response)
    requires db.Valid()
    modifies db
    ensures db.Valid()
    ensures db.users == old(db.users) && db.nextIssueId == old(db.nextIssueId) && db.nextUserId == old(db.nextUserId)
    ensures OwnedAccess(old(db.issues), idParam, user, ErrorDeleting).Denied? ==>
      res == OwnedAccess(old(db.issues), idParam, user, ErrorDeleting).response && db.issues == old(db.issues)
    ensures OwnedAccess(old(db.issues), idParam, user, ErrorDeleting).Granted? ==>
      var id := OwnedAccess(old(db.issues), idParam, user, ErrorDeleting).id;
      && db.issues == old(db.issues) - {id}
      && res == Response(200, JObj([("message", JStr(IssueDeletedMessage)), ("success", JBool(true))]))
  {
    var access := OwnedAccess(db.issues, idParam, user, ErrorDeleting);
    if access.Denied? {
      return access.response;
    }
    db.DeleteIssue(access.id);
    return Response(200, JObj([("message", JStr(IssueDeletedMessage)), ("success", JBool(true))]));
  }

  /** Removing one issue leaves every other issue as it was. */
  lemma DeleteKeepsOthers(issues: map<nat, IssueRow>, id: nat)
    ensures forall other | other in issues && other != id :: other in issues - {id} && (issues - {id})[other] == issues[other]
    ensures id !in issues - {id}
  {
  }
}
