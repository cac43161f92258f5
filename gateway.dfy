/**
 * The shared axios instance: a request interceptor that attaches the access
 * token read from `localStorage`, and a response interceptor that, on a 401,
 * refreshes the access token once and resends the request.
 *
 * The network is an oracle: `respond(n, headers)` is the reply to the n-th
 * send of the request, `refresh(token)` the reply of `token/refresh/`.
 */
module Gateway {
  import opened Wrappers
  import opened Types
  import opened Http
  import opened BrowserStorage
  import opened SessionCodec
  import AuthSlice
  import BaseQuery

  /** A reply; a failure without a status is a request that got no response. */
  datatype HttpResult = Success(status: int) | Failure(errorStatus: Option<int>)

  datatype RefreshReply = Refreshed(access: string) | RefreshFailed

  datatype Network = Network(respond: (nat, Headers) -> HttpResult, refresh: string -> RefreshReply)

  datatype Error = ResponseError(status: Option<int>) | StoredTokensUnreadable

  datatype Outcome = Resolved(status: int) | Rejected(error: Error)

  /** What the outside world sees, in order. */
  datatype Event = Sent(attempt: nat, headers: Headers) | RefreshCalled(refreshToken: string) | Redirected(path: string)

  /** The end of one call: its outcome, the storage, the request's headers and `_retry` flag, and the events. */
  datatype Run = Run(outcome: Outcome, items: map<string, string>, headers: Headers, retried: bool, trace: seq<Event>)

  const LoginPath := "/login"

  /** The request interceptor; `None` when reading the stored tokens throws. */
  function AttachToken(items: map<string, string>, headers: Headers): (r: Option<Headers>)
    ensures Stored(items, "tokens").None? ==> r == Some(headers)
    ensures r.Some? ==> forall k :: k in r.value && k != Authorization ==> k in headers && r.value[k] == headers[k]
  {
    match Stored(items, "tokens")
    case None => Some(headers)
    case Some(text) =>
      match DecodeTokens(text)
      case Value(t) => Some(headers[Authorization := Bearer(t.access)])
      case _ => None
  }

  /** Both session keys removed, everything else kept. */
  function Cleared(items: map<string, string>): map<string, string>
  {
    items - {"tokens", "user"}
  }

  function RetryRank(retried: bool): nat { if retried then 0 else 1 }

  /** One pass through the interceptors and the network (`api(config)`). */
  function Dispatch(items: map<string, string>, headers: Headers, retried: bool, net: Network, attempt: nat): Run
    decreases RetryRank(retried), 1
  {
    match AttachToken(items, headers)
    case None => Run(Rejected(StoredTokensUnreadable), items, headers, retried, [])
    case Some(h) =>
      match net.respond(attempt, h)
      case Success(status) => Run(Resolved(status), items, h, retried, [Sent(attempt, h)])
      case Failure(status) =>
        var r := OnResponseError(items, h, retried, status, net, attempt + 1);
        r.(trace := [Sent(attempt, h)] + r.trace)
  }

  /** The response interceptor's error handler. */
  function OnResponseError(items: map<string, string>, headers: Headers, retried: bool, status: Option<int>, net: Network, attempt: nat): Run
    decreases RetryRank(retried), 0
  {
    var original := Rejected(ResponseError(status));
    if status == Some(401) && !retried then
      match Stored(items, "tokens")
      case None => Run(original, items, headers, true, [])
      case Some(text) =>
        match DecodeTokens(text)
        case Value(t) =>
          (match net.refresh(t.refresh)
           case Refreshed(access) =>
             var r := Dispatch(items["tokens" := EncodeTokens(AuthTokens(access, t.refresh))],
                               headers[Authorization := Bearer(access)], true, net, attempt);
             r.(trace := [RefreshCalled(t.refresh)] + r.trace)
           case RefreshFailed =>
             Run(original, Cleared(items), headers, true, [RefreshCalled(t.refresh), Redirected(LoginPath)]))
        case _ => Run(original, Cleared(items), headers, true, [Redirected(LoginPath)])
    else
      Run(original, items, headers, retried, [])
  }

  // ---------------------------------------------------------------- traces

  function Sends(trace: seq<Event>): nat
  {
    if trace == [] then 0 else (if trace[0].Sent? then 1 else 0) + Sends(trace[1..])
  }

  function Refreshes(trace: seq<Event>): nat
  {
    if trace == [] then 0 else (if trace[0].RefreshCalled? then 1 else 0) + Refreshes(trace[1..])
  }

  lemma {:induction false} CountsAppend(a: seq<Event>, b: seq<Event>)
    ensures Sends(a + b) == Sends(a) + Sends(b)
    ensures Refreshes(a + b) == Refreshes(a) + Refreshes(b)
  {
    if a != [] {
      assert (a + b)[1..] == a[1..] + b;
      CountsAppend(a[1..], b);
    } else {
      assert a + b == b;
    }
  }

  /** A call whose `_retry` flag is already set is sent at most once and never refreshes. */
  lemma RetriedCallSendsOnce(items: map<string, string>, headers: Headers, net: Network, attempt: nat)
    ensures var r := Dispatch(items, headers, true, net, attempt);
      Sends(r.trace) <= 1 && Refreshes(r.trace) == 0 && r.items == items && r.retried
  {
    match AttachToken(items, headers)
    case None =>
    case Some(h) =>
      match net.respond(attempt, h)
      case Success(_) =>
      case Failure(status) =>
        CountsAppend([Sent(attempt, h)], []);
  }

  /** One logical request is sent at most twice and causes at most one refresh call. */
  lemma AtMostOneRetry(items: map<string, string>, headers: Headers, retried: bool, net: Network, attempt: nat)
    ensures var r := Dispatch(items, headers, retried, net, attempt);
      Sends(r.trace) <= 2 && Refreshes(r.trace) <= 1
  {
    if retried {
      RetriedCallSendsOnce(items, headers, net, attempt);
    } else {
      match AttachToken(items, headers)
      case None =>
      case Some(h) =>
        match net.respond(attempt, h)
        case Success(_) =>
        case Failure(status) =>
          var e := OnResponseError(items, h, false, status, net, attempt + 1);
          CountsAppend([Sent(attempt, h)], e.trace);
          FirstErrorCounts(items, h, status, net, attempt + 1);
    }
  }

  /** The 401 handler on a first failure resends at most once and refreshes at most once. */
  lemma FirstErrorCounts(items: map<string, string>, h: Headers, status: Option<int>, net: Network, attempt: nat)
    ensures var e := OnResponseError(items, h, false, status, net, attempt);
      Sends(e.trace) <= 1 && Refreshes(e.trace) <= 1
  {
    if status == Some(401) && Stored(items, "tokens").Some? {
      var d := DecodeTokens(Stored(items, "tokens").value);
      if d.Value? {
        var t := d.value;
        match net.refresh(t.refresh)
        case Refreshed(access) =>
          RefreshedCounts(items, h, net, attempt, t, access);
        case RefreshFailed =>
          assert OnResponseError(items, h, false, status, net, attempt).trace == [RefreshCalled(t.refresh), Redirected(LoginPath)];
          CountsAppend([RefreshCalled(t.refresh)], [Redirected(LoginPath)]);
      } else {
        assert OnResponseError(items, h, false, status, net, attempt).trace == [Redirected(LoginPath)];
        CountsAppend([Redirected(LoginPath)], []);
      }
    }
  }

  /** A successful refresh adds one refresh call and one resend. */
  lemma RefreshedCounts(items: map<string, string>, h: Headers, net: Network, attempt: nat, t: AuthTokens, access: string)
    requires Stored(items, "tokens").Some? && DecodeTokens(Stored(items, "tokens").value) == Value(t)
    requires net.refresh(t.refresh) == Refreshed(access)
    ensures var e := OnResponseError(items, h, false, Some(401), net, attempt);
      Sends(e.trace) <= 1 && Refreshes(e.trace) == 1
  {
    var items' := items["tokens" := EncodeTokens(AuthTokens(access, t.refresh))];
    var inner := Dispatch(items', h[Authorization := Bearer(access)], true, net, attempt);
    RefreshStep(items, h, net, attempt, t, access);
    RetriedCallSendsOnce(items', h[Authorization := Bearer(access)], net, attempt);
    CountsAppend([RefreshCalled(t.refresh)], inner.trace);
  }

  // ------------------------------------------------------ single-call facts

  function Settled(reply: HttpResult): Outcome
  {
    match reply
    case Success(status) => Resolved(status)
    case Failure(status) => Rejected(ResponseError(status))
  }

  /**
   * A success, an error other than 401, a 401 on a call already retried and a
   * 401 with no stored tokens all settle with the reply as it came, after one
   * send, with storage untouched.
   */
  lemma NoRefreshWithout401(items: map<string, string>, headers: Headers, retried: bool, net: Network, attempt: nat, h: Headers)
    requires AttachToken(items, headers) == Some(h)
    requires !(net.respond(attempt, h) == Failure(Some(401)) && !retried && Stored(items, "tokens").Some?)
    ensures var r := Dispatch(items, headers, retried, net, attempt);
      r.outcome == Settled(net.respond(attempt, h)) && r.items == items && r.trace == [Sent(attempt, h)]
  {
  }

  /**
   * After a 401, a successful refresh stores the new access token beside the
   * old refresh token and resends the call carrying the new token; whatever
   * the resent call's reply, it is the call's outcome and storage keeps the
   * new tokens.
   */
  lemma RefreshThenResend(items: map<string, string>, headers: Headers, net: Network, attempt: nat,
                          h: Headers, t: AuthTokens, access: string)
    requires AttachToken(items, headers) == Some(h)
    requires net.respond(attempt, h) == Failure(Some(401))
    requires Stored(items, "tokens").Some? && DecodeTokens(Stored(items, "tokens").value) == Value(t)
    requires net.refresh(t.refresh) == Refreshed(access)
    ensures var r := Dispatch(items, headers, false, net, attempt);
      var resent := h[Authorization := Bearer(access)];
      && r.items == items["tokens" := EncodeTokens(AuthTokens(access, t.refresh))]
      && r.trace == [Sent(attempt, h), RefreshCalled(t.refresh), Sent(attempt + 1, resent)]
      && r.outcome == Settled(net.respond(attempt + 1, resent))
      && r.retried
  {
    var items' := items["tokens" := EncodeTokens(AuthTokens(access, t.refresh))];
    var resent := h[Authorization := Bearer(access)];
    AttachEncoded(items', resent, AuthTokens(access, t.refresh));
    assert resent[Authorization := Bearer(access)] == resent;
    ResendSettles(items', resent, net, attempt + 1);
    RefreshStep(items, h, net, attempt + 1, t, access);
    var e := OnResponseError(items, h, false, Some(401), net, attempt + 1);
    assert e == Run(Settled(net.respond(attempt + 1, resent)), items', resent, true,
                    [RefreshCalled(t.refresh)] + [Sent(attempt + 1, resent)]);
    assert Dispatch(items, headers, false, net, attempt) == e.(trace := [Sent(attempt, h)] + e.trace);
  }

  /** The 401 handler's refresh branch: store the new token, then resend. */
  lemma RefreshStep(items: map<string, string>, h: Headers, net: Network, attempt: nat, t: AuthTokens, access: string)
    requires Stored(items, "tokens").Some? && DecodeTokens(Stored(items, "tokens").value) == Value(t)
    requires net.refresh(t.refresh) == Refreshed(access)
    ensures var r := Dispatch(items["tokens" := EncodeTokens(AuthTokens(access, t.refresh))],
                              h[Authorization := Bearer(access)], true, net, attempt);
      OnResponseError(items, h, false, Some(401), net, attempt) == r.(trace := [RefreshCalled(t.refresh)] + r.trace)
  {
  }

  /** Tokens written by the gateway or by the session store are read back by the request interceptor. */
  lemma AttachEncoded(items: map<string, string>, headers: Headers, t: AuthTokens)
    requires "tokens" in items && items["tokens"] == EncodeTokens(t)
    ensures AttachToken(items, headers) == Some(headers[Authorization := Bearer(t.access)])
  {
    TokensRoundTrip(t);
  }

  /** A retried request whose headers already carry the stored token settles with its reply. */
  lemma ResendSettles(items: map<string, string>, headers: Headers, net: Network, attempt: nat)
    requires AttachToken(items, headers) == Some(headers)
    ensures Dispatch(items, headers, true, net, attempt)
         == Run(Settled(net.respond(attempt, headers)), items, headers, true, [Sent(attempt, headers)])
  {
  }

  /**
   * After a 401, a refresh that fails removes both session keys, redirects to
   * the login page, and rejects the call with the original 401.
   */
  lemma FailedRefreshClearsSession(items: map<string, string>, headers: Headers, net: Network, attempt: nat, h: Headers)
    requires AttachToken(items, headers) == Some(h)
    requires net.respond(attempt, h) == Failure(Some(401))
    requires Stored(items, "tokens").Some? && DecodeTokens(Stored(items, "tokens").value).Value?
    requires net.refresh(DecodeTokens(Stored(items, "tokens").value).value.refresh) == RefreshFailed
    ensures var r := Dispatch(items, headers, false, net, attempt);
      var t := DecodeTokens(Stored(items, "tokens").value).value;
      && r.items == Cleared(items) && "tokens" !in r.items && "user" !in r.items
      && r.outcome == Rejected(ResponseError(Some(401)))
      && r.trace == [Sent(attempt, h), RefreshCalled(t.refresh), Redirected(LoginPath)]
  {
  }

  /** The request interceptor throws exactly when a stored tokens text cannot be read. */
  lemma AttachFailsOnUnreadableTokens(items: map<string, string>, headers: Headers)
    ensures AttachToken(items, headers).None? <==>
      Stored(items, "tokens").Some? && !DecodeTokens(Stored(items, "tokens").value).Value?
  {
  }

  /** Unreadable stored tokens reject every call before anything is sent, with storage untouched. */
  lemma UnreadableTokensSendNothing(items: map<string, string>, headers: Headers, retried: bool, net: Network, attempt: nat)
    requires Stored(items, "tokens").Some? && !DecodeTokens(Stored(items, "tokens").value).Value?
    ensures Dispatch(items, headers, retried, net, attempt) == Run(Rejected(StoredTokensUnreadable), items, headers, retried, [])
  {
  }

  /**
   * Should the error handler meet stored tokens it cannot read after a first
   * 401, it removes both session keys, redirects to the login page without
   * calling the refresh endpoint, and rejects with the original 401.
   */
  lemma UnreadableTokensClearSession(items: map<string, string>, h: Headers, net: Network, attempt: nat)
    requires Stored(items, "tokens").Some? && !DecodeTokens(Stored(items, "tokens").value).Value?
    ensures OnResponseError(items, h, false, Some(401), net, attempt)
         == Run(Rejected(ResponseError(Some(401))), Cleared(items), h, true, [Redirected(LoginPath)])
  {
  }

  /** The refresh token held in storage, if the stored tokens can be read. */
  function StoredRefresh(items: map<string, string>): Option<string>
  {
    match AuthSlice.StoredTokens(items)
    case Some(t) => Some(t.refresh)
    case None => None
  }

  /** The gateway never replaces the stored refresh token; it only ever removes it. */
  lemma RefreshTokenNeverChanges(items: map<string, string>, headers: Headers, retried: bool, net: Network, attempt: nat)
    ensures var r := Dispatch(items, headers, retried, net, attempt);
      "tokens" in r.items ==> StoredRefresh(r.items) == StoredRefresh(items)
  {
    if !retried {
      match AttachToken(items, headers)
      case None =>
      case Some(h) =>
        match net.respond(attempt, h)
        case Success(_) =>
        case Failure(status) =>
          if status == Some(401) && Stored(items, "tokens").Some? {
            var d := DecodeTokens(Stored(items, "tokens").value);
            if d.Value? {
              match net.refresh(d.value.refresh)
              case Refreshed(access) =>
                var nt := AuthTokens(access, d.value.refresh);
                var items' := items["tokens" := EncodeTokens(nt)];
                TokensRoundTrip(nt);
                RetriedCallSendsOnce(items', h[Authorization := Bearer(access)], net, attempt + 1);
              case RefreshFailed =>
            }
          }
    }
  }

  // ---------------------------------------------- the two token sources

  /**
   * A refresh is written to `localStorage` only: the Redux session, from
   * which every RTK Query request takes its bearer token, keeps the old access
   * token and no longer matches storage; only a reload picks the new one up.
   */
  lemma RefreshInvisibleToStore(s: AuthSlice.AuthState, items: map<string, string>, headers: Headers, net: Network,
                                h: Headers, t: AuthTokens, access: string)
    requires AuthSlice.Persisted(s, items) && s.tokens == Some(t)
    requires AttachToken(items, headers) == Some(h)
    requires net.respond(0, h) == Failure(Some(401))
    requires net.refresh(t.refresh) == Refreshed(access) && access != t.access
    ensures var r := Dispatch(items, headers, false, net, 0);
      && !AuthSlice.TokensPersisted(s, r.items)
      && (t.access != "" ==> BaseQuery.PrepareHeaders(map[], s)[Authorization] == Bearer(t.access))
      && AuthSlice.Hydrate(r.items) == Ok(s.(tokens := Some(AuthTokens(access, t.refresh))))
  {
    TokensRoundTrip(t);
    assert Stored(items, "tokens") == Some(EncodeTokens(t));
    RefreshThenResend(items, headers, net, 0, h, t, access);
    TokensWrittenAside(s, items, t, AuthTokens(access, t.refresh));
  }

  /** Tokens other than the session's, written to storage, break the match and are what a reload reads. */
  lemma TokensWrittenAside(s: AuthSlice.AuthState, items: map<string, string>, t: AuthTokens, nt: AuthTokens)
    requires AuthSlice.Persisted(s, items) && s.tokens == Some(t) && nt != t
    ensures var items' := items["tokens" := EncodeTokens(nt)];
      && !AuthSlice.TokensPersisted(s, items')
      && AuthSlice.Hydrate(items') == Ok(s.(tokens := Some(nt)))
  {
    var items' := items["tokens" := EncodeTokens(nt)];
    TokensRoundTrip(t);
    TokensRoundTrip(nt);
    assert EncodeTokens(nt) != EncodeTokens(t);
    var s' := s.(tokens := Some(nt));
    assert AuthSlice.Persisted(s', items') by {
      assert AuthSlice.TokensPersisted(s', items');
      assert AuthSlice.UserPersisted(s', items');
    }
    AuthSlice.ReloadRestoresSession(s', items');
  }

  /**
   * A failed refresh clears storage but not the Redux session, which stays
   * authenticated until the redirect reloads the page into a signed-out state.
   */
  lemma FailedRefreshLeavesStoreSignedIn(s: AuthSlice.AuthState, items: map<string, string>, headers: Headers, net: Network,
                                         h: Headers, t: AuthTokens)
    requires AuthSlice.Persisted(s, items) && s.tokens == Some(t)
    requires AttachToken(items, headers) == Some(h)
    requires net.respond(0, h) == Failure(Some(401))
    requires net.refresh(t.refresh) == RefreshFailed
    ensures var r := Dispatch(items, headers, false, net, 0);
      && s.isAuthenticated && !AuthSlice.TokensPersisted(s, r.items)
      && AuthSlice.Hydrate(r.items) == Ok(AuthSlice.AuthState(None, None, false))
  {
    TokensRoundTrip(t);
    assert Stored(items, "tokens") == Some(EncodeTokens(t));
    FailedRefreshClearsSession(items, headers, net, 0, h);
  }

  // ------------------------------------------------------ the interceptors

  /** The mutable request config axios hands to the interceptors. */
  class RequestConfig {
    var headers: Headers
    var retried: bool

    constructor (headers: Headers)
      ensures this.headers == headers && !retried
    {
      this.headers := headers;
      retried := false;
    }
  }

  /** The request interceptor; `false` when reading the stored tokens throws. */
  method InterceptRequest(storage: LocalStorage, config: RequestConfig) returns (ok: bool)
    modifies config
    ensures config.retried == old(config.retried)
    ensures ok == AttachToken(storage.items, old(config.headers)).Some?
    ensures config.headers == AttachToken(storage.items, old(config.headers)).GetOr(old(config.headers))
  {
    ok := true;
    var tokens := Stored(storage.items, "tokens");
    if tokens.Some? {
      match DecodeTokens(tokens.value) {
        case Value(t) => config.headers := config.headers[Authorization := Bearer(t.access)];
        case _ => ok := false;
      }
    }
  }

  /** `api(config)`: both interceptors around one send. */
  method Send(storage: LocalStorage, config: RequestConfig, net: Network, attempt: nat) returns (outcome: Outcome, trace: seq<Event>)
    modifies storage, config
    decreases RetryRank(config.retried), 1
    ensures Run(outcome, storage.items, config.headers, config.retried, trace)
         == Dispatch(old(storage.items), old(config.headers), old(config.retried), net, attempt)
  {
    var ok := InterceptRequest(storage, config);
    if !ok {
      return Rejected(StoredTokensUnreadable), [];
    }
    var sentHeaders := config.headers;
    var reply := net.respond(attempt, sentHeaders);
    match reply {
      case Success(status) =>
        outcome, trace := Resolved(status), [Sent(attempt, sentHeaders)];
      case Failure(status) =>
        var rest;
        outcome, rest := HandleResponseError(storage, config, status, net, attempt + 1);
        trace := [Sent(attempt, sentHeaders)] + rest;
    }
  }

  /** The response interceptor's error handler. */
  method HandleResponseError(storage: LocalStorage, config: RequestConfig, status: Option<int>, net: Network, attempt: nat)
    returns (outcome: Outcome, trace: seq<Event>)
    modifies storage, config
    decreases RetryRank(config.retried), 0
    ensures Run(outcome, storage.items, config.headers, config.retried, trace)
         == OnResponseError(old(storage.items), old(config.headers), old(config.retried), status, net, attempt)
  {
    ghost var items, headers := storage.items, config.headers;
    outcome, trace := Rejected(ResponseError(status)), [];
    if status == Some(401) && !config.retried {
      config.retried := true;
      var tokens := Stored(storage.items, "tokens");
      if tokens.Some? {
        match DecodeTokens(tokens.value) {
          case Value(t) =>
            var reply := net.refresh(t.refresh);
            match reply {
              case Refreshed(access) =>
                storage.SetItem("tokens", EncodeTokens(AuthTokens(access, t.refresh)));
                config.headers := config.headers[Authorization := Bearer(access)];
                var rest;
                outcome, rest := Send(storage, config, net, attempt);
                trace := [RefreshCalled(t.refresh)] + rest;
              case RefreshFailed =>
                ClearSession(storage);
                trace := [RefreshCalled(t.refresh), Redirected(LoginPath)];
                assert OnResponseError(items, headers, false, status, net, attempt)
                    == Run(Rejected(ResponseError(status)), Cleared(items), headers, true, trace);
            }
          case _ =>
            ClearSession(storage);
            trace := [Redirected(LoginPath)];
            assert OnResponseError(items, headers, false, status, net, attempt)
                == Run(Rejected(ResponseError(status)), Cleared(items), headers, true, trace);
        }
      }
    }
  }

  /** Removes both session keys, as the 401 handler does before redirecting. */
  method ClearSession(storage: LocalStorage)
    modifies storage
    ensures storage.items == Cleared(old(storage.items))
  {
    storage.RemoveItem("tokens");
    storage.RemoveItem("user");
    assert storage.items == old(storage.items) - {"tokens"} - {"user"};
  }
}
