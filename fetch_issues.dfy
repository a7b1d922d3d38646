/** `fetchIssues.ts`: the frontend's issue query. The filters are appended to a
    `URLSearchParams` one by one, serialised in the `application/x-www-form-urlencoded`
    form of section 5.2 of the WHATWG URL Standard, and the stored token goes into the
    Authorization header. Percent-encoding of a value is a parameter. */
module FetchIssues {
  import opened Common
  import Middleware

  /** `IssueFilters`: each filter may be missing. */
  datatype IssueFilters = IssueFilters(role: Option<string>, status: Option<string>, priority: Option<string>)

  /** `if (filters.x)`: a filter that is present and not the empty string. */
  predicate Given(v: Option<string>) {
    v.Some? && v.value != ""
  }

  /** A `URLSearchParams` object: its list of name-value pairs. */
  class SearchParams {
    var entries: seq<(string, string)>

    constructor()
      ensures entries == []
    {
      entries := [];
    }

    /** `params.append(name, value)`. */
    method Append(name: string, value: string)
      modifies this
      ensures entries == old(entries) + [(name, value)]
    {
      entries := entries + [(name, value)];
    }
  }

  /** One pair as `name=value`; the names used here are plain ASCII letters, which the
      serialiser leaves as they are. */
  function Pair(e: (string, string), encode: string -> string): string {
    e.0 + "=" + encode(e.1)
  }

  /** `params.toString()`: the pairs joined with `&`. */
  function Serialize(entries: seq<(string, string)>, encode: string -> string): (q: string)
    ensures |entries| == 0 ==> q == ""
    ensures |entries| > 0 && entries[0].0 != "" ==> q != ""
  {
    if |entries| == 0 then ""
    else if |entries| == 1 then Pair(entries[0], encode)
    else Pair(entries[0], encode) + "&" + Serialize(entries[1..], encode)
  }

  /** The pairs the filters contribute, in the fixed order role, status, priority. */
  function FilterPairs(filters: IssueFilters): (ps: seq<(string, string)>)
    ensures |ps| <= 3
  {
    (if Given(filters.role) then [("role", filters.role.value)] else [])
    + (if Given(filters.status) then [("status", filters.status.value)] else [])
    + (if Given(filters.priority) then [("priority", filters.priority.value)] else [])
  }

  /** A filter contributes a pair exactly when it is given, with its own value; the names
      come in the order role, status, priority, so a pair's name fixes its position among
      those present. */
  lemma FilterPairsRules(filters: IssueFilters)
    ensures var ps := FilterPairs(filters);
      && |ps| == (if Given(filters.role) then 1 else 0) + (if Given(filters.status) then 1 else 0) + (if Given(filters.priority) then 1 else 0)
      && (Given(filters.role) ==> ps[0] == ("role", filters.role.value))
      && (Given(filters.status) ==> ps[if Given(filters.role) then 1 else 0] == ("status", filters.status.value))
      && (Given(filters.priority) ==> ps[|ps| - 1] == ("priority", filters.priority.value))
      && (forall k | 0 <= k < |ps| :: ps[k].0 in ["role", "status", "priority"] && ps[k].1 != "")
  {
  }

  /** Builds the parameters one `append` at a time. */
  method BuildParams(filters: IssueFilters) returns (params: SearchParams)
    ensures fresh(params)
    ensures params.entries == FilterPairs(filters)
  {
    params := new SearchParams();
    if Given(filters.role) {
      params.Append("role", filters.role.value);
    }
    if Given(filters.status) {
      params.Append("status", filters.status.value);
    }
    if Given(filters.priority) {
      params.Append("priority", filters.priority.value);
    }
  }

  const IssuesPath := "/api/issues"

  /** `query ? '/api/issues?' + query : '/api/issues'`. */
  function Url(query: string): (url: string)
    ensures query == "" ==> url == IssuesPath
    ensures query != "" ==> url == IssuesPath + "?" + query
  {
    if query != "" then IssuesPath + "?" + query else IssuesPath
  }

  /** The URL of a filter set: the bare path exactly when no filter is given, otherwise
      the path, `?` and the pairs. */
  lemma UrlOfFilters(filters: IssueFilters, encode: string -> string)
    ensures var q := Serialize(FilterPairs(filters), encode);
      && (q == "" <==> !Given(filters.role) && !Given(filters.status) && !Given(filters.priority))
      && (q == "" ==> Url(q) == IssuesPath)
      && (q != "" ==> Url(q) == IssuesPath + "?" + q)
  {
  }

  /** The query of two given filters: `role=<role>&priority=<priority>`. */
  lemma TwoFilters(role: string, priority: string, encode: string -> string)
    requires role != "" && priority != ""
    ensures Serialize(FilterPairs(IssueFilters(Some(role), None, Some(priority))), encode)
      == "role=" + encode(role) + "&priority=" + encode(priority)
  {
    var ps := FilterPairs(IssueFilters(Some(role), None, Some(priority)));
    assert ps == [("role", role), ("priority", priority)];
    assert ps[1..] == [("priority", priority)];
  }

  /** `fetchIssues(filters)` up to the request: the URL it gets and its header. */
  method RequestOf(filters: IssueFilters, storedToken: Option<string>, encode: string -> string) returns (url: string, authorization: string)
    ensures url == Url(Serialize(FilterPairs(filters), encode))
    ensures authorization == AuthorizationHeader(storedToken)
  {
    var params := BuildParams(filters);
    var query := Serialize(params.entries, encode);
    url := Url(query);
    authorization := AuthorizationHeader(storedToken);
  }

  /** `token ? 'Bearer ' + token : ''`. */
  function AuthorizationHeader(token: Option<string>): (h: string)
    ensures Given(token) ==> h == "Bearer " + token.value
    ensures !Given(token) ==> h == ""
  {
    if Given(token) then "Bearer " + token.value else ""
  }

  /** The header this client sends is read back by the backend's gate: a stored token
      without spaces is the token the backend verifies, and no stored token is a missing
      token there. */
  lemma {:induction false} HeaderReachesBackend(token: Option<string>)
    requires Given(token) ==> ' ' !in token.value
    ensures Given(token) ==> Middleware.TokenFromHeader(Some(AuthorizationHeader(token))) == token
    ensures !Given(token) ==> Middleware.TokenFromHeader(Some(AuthorizationHeader(token))).None?
  {
    if Given(token) {
      Middleware.AnySchemeWord("Bearer", token.value);
      assert "Bearer" + " " + token.value == "Bearer " + token.value;
    } else {
      SplitNoSeparator("", ' ');
    }
  }
}
