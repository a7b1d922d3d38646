/** The database the backend reaches through Prisma, replaced by two in-memory tables keyed
    by id: users and issues. Ids are handed out in increasing order; emails are unique;
    every issue belongs to a user of the table. */
module Store {
  import opened Common
  import opened Bcrypt
  import opened IssueSchema

  /** A row of the user table. `password` holds the bcrypt hash; `role` is the string
      stored at registration. */
  datatype UserRecord = UserRecord(id: nat, name: string, email: string, password: Hash, role: string)

  /** A row of the issue table. `createdAt` is the creation time in seconds. */
  datatype IssueRow = IssueRow(
    id: nat, title: string, description: string, priority: Priority,
    status: string, userId: nat, createdAt: int)

  /** Ids match their keys and no two users share an email. */
  predicate UsersWellFormed(users: map<nat, UserRecord>) {
    && (forall id | id in users :: users[id].id == id)
    && (forall i, j | i in users && j in users && users[i].email == users[j].email :: i == j)
  }

  /** `findUserByEmail(email)`. */
  function FindUserByEmail(users: map<nat, UserRecord>, email: string): (r: Option<UserRecord>)
    requires UsersWellFormed(users)
    ensures r.Some? <==> exists id | id in users :: users[id].email == email
    ensures r.Some? ==> r.value.id in users && users[r.value.id] == r.value && r.value.email == email
  {
    if exists id | id in users :: users[id].email == email then
      var id :| id in users && users[id].email == email;
      Some(users[id])
    else None
  }

  /** `prisma.user.findUnique({ where: { id } })`. */
  function FindUserById(users: map<nat, UserRecord>, id: nat): (r: Option<UserRecord>)
    ensures r.Some? <==> id in users
    ensures r.Some? ==> r.value == users[id]
  {
    if id in users then Some(users[id]) else None
  }

  /** An update applied to a row: the present fields replace, the others stay. */
  function ApplyUpdate(row: IssueRow, d: UpdateIssueInput): (r: IssueRow)
    ensures r.id == row.id && r.status == row.status && r.userId == row.userId && r.createdAt == row.createdAt
    ensures r.title == (if d.title.Some? then d.title.value else row.title)
    ensures r.description == (if d.description.Some? then d.description.value else row.description)
    ensures r.priority == (if d.priority.Some? then d.priority.value else row.priority)
  {
    row.(
      title := if d.title.Some? then d.title.value else row.title,
      description := if d.description.Some? then d.description.value else row.description,
      priority := if d.priority.Some? then d.priority.value else row.priority)
  }

  class Database {
    var users: map<nat, UserRecord>
    var nextUserId: nat
    var issues: map<nat, IssueRow>
    var nextIssueId: nat
    /** The status column's default, which the schema (not part of this model) sets. */
    const defaultStatus: string

    ghost predicate Valid()
      reads this
    {
      && UsersWellFormed(users)
      && (forall id | id in users :: id < nextUserId)
      && (forall id | id in issues :: issues[id].id == id && id < nextIssueId && issues[id].userId in users)
    }

    constructor (defaultStatus: string)
      ensures Valid()
      ensures users == map[] && issues == map[] && this.defaultStatus == defaultStatus
    {
      users, nextUserId := map[], 1;
      issues, nextIssueId := map[], 1;
      this.defaultStatus := defaultStatus;
    }

    /** `prisma.user.create({ data: { name, email, password, role } })`. */
    method CreateUser(name: string, email: string, password: Hash, role: string) returns (u: UserRecord)
      requires Valid()
      requires FindUserByEmail(users, email).None?
      modifies this
      ensures Valid()
      ensures u == UserRecord(old(nextUserId), name, email, password, role)
      ensures old(nextUserId) !in old(users)
      ensures users == old(users)[u.id := u] && nextUserId == old(nextUserId) + 1
      ensures issues == old(issues) && nextIssueId == old(nextIssueId)
    {
      u := UserRecord(nextUserId, name, email, password, role);
      users := users[nextUserId := u];
      nextUserId := nextUserId + 1;
    }

    /** `prisma.issue.create({ data: { title, description, priority, userId } })`, for a
        `userId` of an existing user (the foreign key). */
    method CreateIssue(d: CreateIssueInput, userId: nat, now: int) returns (row: IssueRow)
      requires Valid()
      requires userId in users
      modifies this
      ensures Valid()
      ensures row == IssueRow(old(nextIssueId), d.title, d.description, d.priority, defaultStatus, userId, now)
      ensures old(nextIssueId) !in old(issues)
      ensures issues == old(issues)[row.id := row] && nextIssueId == old(nextIssueId) + 1
      ensures users == old(users) && nextUserId == old(nextUserId)
    {
      row := IssueRow(nextIssueId, d.title, d.description, d.priority, defaultStatus, userId, now);
      issues := issues[nextIssueId := row];
      nextIssueId := nextIssueId + 1;
    }

    /** `prisma.issue.update({ where: { id }, data })`. */
    method UpdateIssue(id: nat, d: UpdateIssueInput) returns (row: IssueRow)
      requires Valid()
      requires id in issues
      modifies this`issues
      ensures Valid()
      ensures row == ApplyUpdate(old(issues)[id], d)
      ensures issues == old(issues)[id := row]
    {
      row := ApplyUpdate(issues[id], d);
      issues := issues[id := row];
    }

    /** `prisma.issue.delete({ where: { id } })`. */
    method DeleteIssue(id: nat)
      requires Valid()
      requires id in issues
      modifies this`issues
      ensures Valid()
      ensures issues == old(issues) - {id}
      ensures forall k | k in old(issues) && k != id :: k in issues && issues[k] == old(issues)[k]
    {
      issues := issues - {id};
    }
  }
}
