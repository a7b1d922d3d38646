/** `authSlice.ts`: the frontend's Redux state of the session. `localStorage` is a string
    map; the reducers and the `refreshAccessToken` thunk write it in place. */
module AuthSlice {
  import opened Common

  /** The stored user, or `{}` after logout. */
  datatype User = User(id: int, name: string, email: string, role: string) | NoUser

  /** The user assumed when none is stored. */
  const DefaultUser := User(0, "No_name", "No_Email", "user")

  const NoRefreshTokenMessage := "No refresh token"
  const InvalidTokenFormatMessage := "Invalid token format from server"
  const SessionExpiredMessage := "Session expired. Please log in again."

  /** `localStorage`. */
  class Storage {
    var items: map<string, string>

    constructor(items: map<string, string>)
      ensures this.items == items
    {
      this.items := items;
    }

    /** `getItem(key)`: `null` (`None`) for a missing key. */
    function GetItem(key: string): (v: Option<string>)
      reads this
      ensures v.Some? <==> key in items
      ensures v.Some? ==> v.value == items[key]
    {
      if key in items then Some(items[key]) else None
    }

    method SetItem(key: string, value: string)
      modifies this
      ensures items == old(items)[key := value]
    {
      items := items[key := value];
    }

    method RemoveItem(key: string)
      modifies this
      ensures items == old(items) - {key}
    {
      items := items - {key};
    }
  }

  /** `JSON.parse(stored || 'null') || default`: `parse` gives the parsed user, or `None`
      for a falsy parse result. */
  function InitialUser(stored: Option<string>, parse: string -> Option<User>): (u: User)
    ensures stored.None? || stored.value == "" ==> u == DefaultUser
  {
    if stored.None? || stored.value == "" then DefaultUser
    else
      match parse(stored.value)
      case None => DefaultUser
      case Some(v) => v
  }

  /** `localStorage.getItem('token') || null`: an empty stored token counts as none. */
  function InitialToken(stored: Option<string>): (t: Option<string>)
    ensures t.Some? <==> stored.Some? && stored.value != ""
    ensures t.Some? ==> t == stored
  {
    if stored.Some? && stored.value != "" then stored else None
  }

  /** The session state. `error` is `None` for `null`. */
  class AuthState {
    var token: Option<string>
    var loading: bool
    var error: Option<string>
    var user: User
    var refreshToken: Option<string>

    /** `initialState`, read from storage. */
    constructor(storage: Storage, parse: string -> Option<User>)
      ensures token == InitialToken(storage.GetItem("token"))
      ensures refreshToken == storage.GetItem("refreshToken")
      ensures user == InitialUser(storage.GetItem("user"), parse)
      ensures !loading && error.None?
    {
      token := InitialToken(storage.GetItem("token"));
      loading := false;
      error := None;
      refreshToken := storage.GetItem("refreshToken");
      user := InitialUser(storage.GetItem("user"), parse);
    }

    /** `logout()`: the session is dropped from the state and from storage. */
    method Logout(storage: Storage)
      modifies this, storage
      ensures user == NoUser && token.None? && refreshToken.None?
      ensures loading == old(loading) && error == old(error)
      ensures storage.items == old(storage.items) - {"user", "token", "refreshToken"}
    {
      user := NoUser;
      token := None;
      refreshToken := None;
      storage.RemoveItem("user");
      storage.RemoveItem("token");
      storage.RemoveItem("refreshToken");
    }

    /** `setToken(payload)`. */
    method SetToken(payload: Option<string>)
      modifies this
      ensures token == payload
      ensures loading == old(loading) && error == old(error) && user == old(user) && refreshToken == old(refreshToken)
    {
      token := payload;
    }

    /** `loginUser.pending`. */
    method LoginPending()
      modifies this
      ensures loading && error.None?
      ensures token == old(token) && user == old(user) && refreshToken == old(refreshToken)
    {
      loading := true;
      error := None;
    }

    /** `loginUser.fulfilled`: the session of the payload. */
    method LoginFulfilled(newToken: string, newRefreshToken: string, newUser: User)
      modifies this
      ensures !loading && token == Some(newToken) && refreshToken == Some(newRefreshToken) && user == newUser
      ensures error == old(error)
    {
      loading := false;
      token := Some(newToken);
      refreshToken := Some(newRefreshToken);
      user := newUser;
    }

    /** `loginUser.rejected`. */
    method LoginRejected(payload: Option<string>)
      modifies this
      ensures !loading && error == payload
      ensures token == old(token) && user == old(user) && refreshToken == old(refreshToken)
    {
      loading := false;
      error := payload;
    }

    /** `refreshAccessToken.fulfilled`: only the access token is replaced. */
    method RefreshFulfilled(newToken: string)
      modifies this
      ensures token == Some(newToken) && error.None?
      ensures refreshToken == old(refreshToken) && user == old(user) && loading == old(loading)
    {
      token := Some(newToken);
      error := None;
    }
  }

  /** What the server does with the refresh request: a reply body, or a failed request
      (network error or non-2xx status). */
  datatype Reply = ReplyBody(body: Json) | RequestFailed

  datatype ThunkResult = Fulfilled(token: string) | RejectedWith(message: string)

  /** The guards of `refreshAccessToken`, given the stored refresh token and the reply to
      the request (when one is made). */
  function RefreshOutcome(refreshToken: Option<string>, reply: Reply): (r: ThunkResult)
    ensures refreshToken.None? || refreshToken.value == "" ==> r == RejectedWith(NoRefreshTokenMessage)
    ensures r.Fulfilled? <==>
      && refreshToken.Some? && refreshToken.value != ""
      && reply.ReplyBody? && !reply.body.JNull? && exists t :: Get(reply.body, "token") == Some(JStr(t))
    ensures r.Fulfilled? ==> Get(reply.body, "token") == Some(JStr(r.token))
  {
    if refreshToken.None? || refreshToken.value == "" then RejectedWith(NoRefreshTokenMessage)
    else
      match reply
      case RequestFailed => RejectedWith(SessionExpiredMessage)
      case ReplyBody(body) =>
        // `res.data.token` on a `null` body throws, and the catch answers
        if body.JNull? then RejectedWith(SessionExpiredMessage)
        else
          match Get(body, "token")
          case Some(JStr(t)) => Fulfilled(t)
          case _ => RejectedWith(InvalidTokenFormatMessage)
  }

  /** `refreshAccessToken()`: `server` answers the request body `{ refreshToken }`. No
      request is made without a refresh token; only a string token is stored. */
  method RefreshAccessToken(auth: AuthState, storage: Storage, server: Json -> Reply) returns (r: ThunkResult, sent: Option<Json>)
    modifies storage
    ensures auth.refreshToken.None? || auth.refreshToken.value == "" ==> sent.None?
    ensures auth.refreshToken.Some? && auth.refreshToken.value != "" ==>
      sent == Some(JObj([("refreshToken", JStr(auth.refreshToken.value))]))
    ensures r == RefreshOutcome(auth.refreshToken, if sent.Some? then server(sent.value) else RequestFailed)
    ensures r.Fulfilled? ==> storage.items == old(storage.items)["token" := r.token]
    ensures r.RejectedWith? ==> storage.items == old(storage.items)
  {
    var refreshToken := auth.refreshToken;
    if refreshToken.None? || refreshToken.value == "" {
      return RejectedWith(NoRefreshTokenMessage), None;
    }
    sent := Some(JObj([("refreshToken", JStr(refreshToken.value))]));
    var reply := server(sent.value);
    r := RefreshOutcome(refreshToken, reply);
    if r.Fulfilled? {
      storage.SetItem("token", r.token);
    }
  }

  /** The thunk's rejections in order: no refresh token, a failed request, a token that
      is not a string. */
  lemma RefreshOutcomeRejections(refreshToken: string, body: Json)
    requires refreshToken != ""
    ensures RefreshOutcome(Some(refreshToken), RequestFailed) == RejectedWith(SessionExpiredMessage)
    ensures !body.JNull? && (forall t :: Get(body, "token") != Some(JStr(t))) ==>
      RefreshOutcome(Some(refreshToken), ReplyBody(body)) == RejectedWith(InvalidTokenFormatMessage)
  {
  }
}
