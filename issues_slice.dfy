/** `issuesSlice.ts`: the frontend's Redux state of the issue list. Each reducer assigns
    fields of the state in place (Immer), so the state is a class and each case a method;
    the list is a sequence the methods reassign. */
module IssuesSlice {
  import opened Common
  import opened FetchIssues

  /** The frontend's `Issue`: the optional fields may be missing. */
  datatype Issue = Issue(
    id: int, title: string, description: string, priority: string,
    createdAt: Option<int>, status: Option<string>, success: Option<bool>)

  /** The list with the first entry whose id is `x.id` replaced by `x`. */
  function ReplaceFirst(list: seq<Issue>, x: Issue): (r: seq<Issue>)
    ensures |r| == |list|
  {
    if |list| == 0 then []
    else if list[0].id == x.id then [x] + list[1..]
    else [list[0]] + ReplaceFirst(list[1..], x)
  }

  /** `list.filter(i => i.id !== id)`. */
  function WithoutId(list: seq<Issue>, id: int): (r: seq<Issue>)
    ensures |r| <= |list|
  {
    if |list| == 0 then []
    else (if list[0].id != id then [list[0]] else []) + WithoutId(list[1..], id)
  }

  /** An entry survives the filter exactly when it was in the list with another id. */
  lemma {:induction false} WithoutIdMembers(list: seq<Issue>, id: int, x: Issue)
    ensures x in WithoutId(list, id) <==> x in list && x.id != id
  {
    if |list| > 0 {
      WithoutIdMembers(list[1..], id, x);
      assert list == [list[0]] + list[1..];
    }
  }

  /** Without an entry carrying `x.id` the list is unchanged. */
  lemma {:induction false} ReplaceFirstNoMatch(list: seq<Issue>, x: Issue)
    requires forall k | 0 <= k < |list| :: list[k].id != x.id
    ensures ReplaceFirst(list, x) == list
  {
    if |list| > 0 {
      assert forall k | 0 <= k < |list[1..]| :: list[1..][k] == list[k + 1];
      ReplaceFirstNoMatch(list[1..], x);
    }
  }

  /** When `i` is the first index carrying `x.id`, entry `i` becomes `x` and every other
      entry stays. */
  lemma {:induction false} ReplaceFirstAt(list: seq<Issue>, x: Issue, i: nat)
    requires i < |list| && list[i].id == x.id
    requires forall k | 0 <= k < i :: list[k].id != x.id
    ensures ReplaceFirst(list, x) == list[i := x]
  {
    if i == 0 {
      assert [x] + list[1..] == list[0 := x];
    } else {
      assert forall k | 0 <= k < i - 1 :: list[1..][k] == list[k + 1];
      ReplaceFirstAt(list[1..], x, i - 1);
      assert [list[0]] + list[1..][i - 1 := x] == list[i := x];
    }
  }

  /** Filtering keeps the order: it distributes over concatenation. */
  lemma {:induction false} WithoutIdAppend(a: seq<Issue>, b: seq<Issue>, id: int)
    ensures WithoutId(a + b, id) == WithoutId(a, id) + WithoutId(b, id)
  {
    if |a| > 0 {
      var head: seq<Issue> := if a[0].id != id then [a[0]] else [];
      assert (a + b)[0] == a[0] && (a + b)[1..] == a[1..] + b;
      assert WithoutId(a + b, id) == head + WithoutId(a[1..] + b, id);
      WithoutIdAppend(a[1..], b, id);
      assert WithoutId(a, id) == head + WithoutId(a[1..], id);
      assert head + (WithoutId(a[1..], id) + WithoutId(b, id))
        == (head + WithoutId(a[1..], id)) + WithoutId(b, id);
    } else {
      assert a + b == b;
    }
  }

  /** The state of the slice. `error` is `None` for both `null` and `undefined`. */
  class IssuesState {
    var list: seq<Issue>
    var loading: bool
    var error: Option<string>
    var selectedIssue: Option<Issue>

    /** `initialState`. */
    constructor()
      ensures list == [] && !loading && error.None? && selectedIssue.None?
    {
      list, loading, error, selectedIssue := [], false, None, None;
    }

    /** `selectIssue(payload)`. */
    method SelectIssue(payload: Option<Issue>)
      modifies this
      ensures selectedIssue == payload
      ensures list == old(list) && loading == old(loading) && error == old(error)
    {
      selectedIssue := payload;
    }

    /** The pending case of each of the four thunks. */
    method Pending()
      modifies this
      ensures loading && error.None?
      ensures list == old(list) && selectedIssue == old(selectedIssue)
    {
      loading := true;
      error := None;
    }

    /** The rejected case of each of the four thunks: `error = action.payload` (for
        `fetchIssues`, which has no `rejectWithValue`, the payload is `undefined`). */
    method Rejected(payload: Option<string>)
      modifies this
      ensures !loading && error == payload
      ensures list == old(list) && selectedIssue == old(selectedIssue)
    {
      loading := false;
      error := payload;
    }

    /** `fetchIssues.fulfilled`: the list is replaced wholesale. */
    method FetchFulfilled(payload: seq<Issue>)
      modifies this
      ensures !loading && list == payload
      ensures error == old(error) && selectedIssue == old(selectedIssue)
    {
      loading := false;
      list := payload;
    }

    /** `createIssue.fulfilled`: `state.list.push(payload)`. */
    method CreateFulfilled(payload: Issue)
      modifies this
      ensures !loading && list == old(list) + [payload]
      ensures error == old(error) && selectedIssue == old(selectedIssue)
    {
      loading := false;
      list := list + [payload];
    }

    /** `updateIssue.fulfilled`: `findIndex` and, when found, `state.list[idx] = payload`. */
    method UpdateFulfilled(payload: Issue)
      modifies this
      ensures !loading && list == ReplaceFirst(old(list), payload)
      ensures error == old(error) && selectedIssue == old(selectedIssue)
    {
      loading := false;
      var idx := FindIndex(list, payload.id);
      if idx != -1 {
        ReplaceFirstAt(list, payload, idx);
        list := list[idx := payload];
      } else {
        ReplaceFirstNoMatch(list, payload);
      }
    }

    /** `deleteIssue.fulfilled`: every entry with that id is dropped. */
    method DeleteFulfilled(id: int)
      modifies this
      ensures !loading && list == WithoutId(old(list), id)
      ensures error == old(error) && selectedIssue == old(selectedIssue)
    {
      loading := false;
      list := WithoutId(list, id);
    }
  }

  /** `list.findIndex(i => i.id === id)`: the first index with that id, or -1. */
  method FindIndex(list: seq<Issue>, id: int) returns (idx: int)
    ensures -1 <= idx < |list|
    ensures idx == -1 <==> forall k | 0 <= k < |list| :: list[k].id != id
    ensures idx >= 0 ==> list[idx].id == id && forall k | 0 <= k < idx :: list[k].id != id
  {
    var i := 0;
    while i < |list|
      invariant 0 <= i <= |list|
      invariant forall k | 0 <= k < i :: list[k].id != id
    {
      if list[i].id == id {
        return i;
      }
      i := i + 1;
    }
    return -1;
  }

  /** The URL the `fetchIssues` thunk requests: `/api/issues?` and the query, the `?`
      there even when no filter is given. */
  method ThunkUrl(filters: IssueFilters, encode: string -> string) returns (url: string)
    ensures url == IssuesPath + "?" + Serialize(FilterPairs(filters), encode)
  {
    var params := BuildParams(filters);
    url := IssuesPath + "?" + Serialize(params.entries, encode);
  }

  /** Without filters the thunk still appends `?`, where `fetchIssues.ts` sends the bare
      path. */
  lemma ThunkUrlWithoutFilters(encode: string -> string)
    ensures IssuesPath + "?" + Serialize(FilterPairs(IssueFilters(None, None, None)), encode) == "/api/issues?"
    ensures Url(Serialize(FilterPairs(IssueFilters(None, None, None)), encode)) == "/api/issues"
  {
  }

  /** For every filter set, the thunk and `fetchIssues.ts` request the same URL exactly
      when at least one filter is given; with none the thunk's URL has a trailing `?`. */
  lemma ThunkUrlMatchesFetch(filters: IssueFilters, encode: string -> string)
    ensures var q := Serialize(FilterPairs(filters), encode);
      (IssuesPath + "?" + q == Url(q)) <==> (Given(filters.role) || Given(filters.status) || Given(filters.priority))
  {
    var q := Serialize(FilterPairs(filters), encode);
    UrlOfFilters(filters, encode);
    if q == "" {
      assert |IssuesPath + "?" + q| != |IssuesPath|;
    }
  }
}
