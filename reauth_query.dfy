/**
 * How every request to the server is sent: the access token goes in an
 * `authorization: Bearer` header (RFC 6750 section 2.1), and a reply of 401
 * triggers one refresh of the access token followed by one retry, or a logout.
 */
module ReauthQuery {
  import opened Wrappers
  import opened Text
  import opened Wire
  import opened AuthSlice

  type Headers = map<string, string>

  /** Attaches the access token when it is non-empty; otherwise the headers go out as they are. */
  function PrepareHeaders(headers: Headers, token: Option<string>): (r: Headers)
    ensures "authorization" in r && r != headers ==> token.Some?
    ensures forall k :: k != "authorization" ==> (k in r <==> k in headers)
    ensures forall k :: k in headers && k != "authorization" ==> r[k] == headers[k]
    ensures token.Some? && token.value != "" ==> r == headers["authorization" := "Bearer " + token.value]
  {
    if token.Some? && token.value != "" then headers["authorization" := "Bearer " + token.value]
    else headers
  }

  /** The header carries the token in the `Bearer` scheme, and the token can be read back from it. */
  lemma BearerCarriesToken(headers: Headers, token: string)
    requires token != ""
    ensures "authorization" in PrepareHeaders(headers, Some(token))
    ensures var h := PrepareHeaders(headers, Some(token))["authorization"];
      StartsWith(h, "Bearer ") && h[7..] == token
  {
  }

  /** An empty or missing token adds no header. */
  lemma NoTokenNoHeader(headers: Headers, token: Option<string>)
    requires token.None? || token.value == ""
    ensures PrepareHeaders(headers, token) == headers
  {
  }

  datatype Request = Request(url: string, verb: string, body: Json)

  /** A request as it goes on the wire, with the headers prepared for it. */
  datatype Sent = Sent(request: Request, headers: Headers)

  /** What one server call returns: a body, an HTTP error status, or a failure to fetch. */
  datatype Reply = Data(data: Json) | HttpError(status: int, data: Json) | FetchError

  function RefreshRequest(refreshToken: string): Request
  {
    Request("/auth/refresh-token", "POST", JObj(map["refreshToken" := JStr(refreshToken)]))
  }

  predicate IsUnauthorized(r: Reply)
  {
    r.HttpError? && r.status == 401
  }

  /** The new access token in a refresh reply: a body with a truthy `accessToken`. */
  function NewAccessToken(r: Reply): (t: Option<string>)
    ensures t.Some? ==> r.Data? && Truthy(Get(r.data, "accessToken"))
  {
    if r.Data? && Truthy(r.data) && Truthy(Get(r.data, "accessToken"))
    then Some(ToStr(Get(r.data, "accessToken")))
    else None
  }

  /** What the wrapper does to the session. */
  datatype SessionChange = Unchanged | Renewed(c: Credentials) | Ended

  datatype Outcome = Outcome(result: Reply, sent: seq<Sent>, change: SessionChange)

  /**
   * The wrapper's behaviour for one call, given the session it starts from and
   * the replies of the (at most three) server calls it makes, in order.
   */
  function Reauth(s: AuthState, args: Request, replies: seq<Reply>): (o: Outcome)
    requires |replies| == 3
    ensures 1 <= |o.sent| <= 3 && o.sent[0] == Sent(args, PrepareHeaders(map[], s.accessToken))
    ensures o.change == Unchanged <==> !IsUnauthorized(replies[0])
    ensures o.change.Renewed? <==> |o.sent| == 3
    ensures o.change.Renewed? ==> o.result == replies[2] && o.sent[2].request == args
    ensures !o.change.Renewed? ==> o.result == replies[0]
  {
    var first := Sent(args, PrepareHeaders(map[], s.accessToken));
    if !IsUnauthorized(replies[0]) then Outcome(replies[0], [first], Unchanged)
    else if s.refreshToken.None? || s.refreshToken.value == "" then Outcome(replies[0], [first], Ended)
    else
      var rt := s.refreshToken.value;
      var refresh := Sent(RefreshRequest(rt), PrepareHeaders(map[], s.accessToken));
      match NewAccessToken(replies[1])
      case None => Outcome(replies[0], [first, refresh], Ended)
      case Some(at) =>
        var retry := Sent(args, PrepareHeaders(map[], Some(at)));
        Outcome(replies[2], [first, refresh, retry], Renewed(Credentials(s.user, at, rt)))
  }

  /** A reply other than 401 is returned as it is, after exactly one call, and the session is kept. */
  lemma PassThrough(s: AuthState, args: Request, replies: seq<Reply>)
    requires |replies| == 3 && !IsUnauthorized(replies[0])
    ensures Reauth(s, args, replies) == Outcome(replies[0], [Sent(args, PrepareHeaders(map[], s.accessToken))], Unchanged)
  {
  }

  /**
   * A 401 with a successful refresh: one refresh call carrying the refresh token,
   * then one retry carrying the new access token, whose reply is returned even if
   * it is a 401 again; the session keeps its user and refresh token.
   */
  lemma RefreshThenRetry(s: AuthState, args: Request, replies: seq<Reply>)
    requires |replies| == 3 && IsUnauthorized(replies[0])
    requires s.refreshToken.Some? && s.refreshToken.value != ""
    requires NewAccessToken(replies[1]).Some?
    ensures var o := Reauth(s, args, replies);
      && o.result == replies[2]
      && |o.sent| == 3
      && o.sent[1].request == RefreshRequest(s.refreshToken.value)
      && o.sent[2].request == args
      && o.sent[2].headers == PrepareHeaders(map[], NewAccessToken(replies[1]))
      && o.change == Renewed(Credentials(s.user, NewAccessToken(replies[1]).value, s.refreshToken.value))
  {
  }

  /** A 401 without a usable refresh ends the session and returns the 401 itself. */
  lemma UnauthorizedWithoutRefreshLogsOut(s: AuthState, args: Request, replies: seq<Reply>)
    requires |replies| == 3 && IsUnauthorized(replies[0])
    requires s.refreshToken.None? || s.refreshToken.value == "" || NewAccessToken(replies[1]).None?
    ensures Reauth(s, args, replies).result == replies[0]
    ensures Reauth(s, args, replies).change == Ended
  {
  }

  /** The wrapper makes at most one refresh call and at most one retry. */
  lemma AtMostOneRefresh(s: AuthState, args: Request, replies: seq<Reply>)
    requires |replies| == 3
    ensures var o := Reauth(s, args, replies);
      1 <= |o.sent| <= 3 && o.sent[0].request == args
      && (|o.sent| >= 2 ==> o.sent[1].request.url == "/auth/refresh-token")
      && (|o.sent| == 3 ==> o.sent[2].request == args)
  {
  }

  /**
   * The wrapper run against the store: `replies` are the outcomes of the server
   * calls in the order they are made.
   */
  method BaseQueryWithReauth(store: AuthStore, args: Request, replies: seq<Reply>)
    returns (result: Reply, sent: seq<Sent>)
    requires |replies| == 3
    modifies store
    ensures Outcome(result, sent, Reauth(old(store.State()), args, replies).change) == Reauth(old(store.State()), args, replies)
    ensures match Reauth(old(store.State()), args, replies).change
      case Unchanged => store.State() == old(store.State()) && store.storage == old(store.storage)
      case Renewed(c) => store.State() == AuthState(c.user, Some(c.accessToken), Some(c.refreshToken), true)
                         && store.storage == StoreCredentials(old(store.storage), c)
      case Ended => store.State() == LoggedOut && store.storage == map[]
  {
    result := replies[0];
    sent := [Sent(args, PrepareHeaders(map[], store.accessToken))];
    if IsUnauthorized(result) {
      var refreshToken := store.refreshToken;
      if refreshToken.Some? && refreshToken.value != "" {
        sent := sent + [Sent(RefreshRequest(refreshToken.value), PrepareHeaders(map[], store.accessToken))];
        var accessToken := NewAccessToken(replies[1]);
        if accessToken.Some? {
          var user := store.user;
          store.SetCredentials(Credentials(user, accessToken.value, refreshToken.value));
          sent := sent + [Sent(args, PrepareHeaders(map[], store.accessToken))];
          result := replies[2];
        } else {
          store.Logout();
        }
      } else {
        store.Logout();
      }
    }
  }
}
