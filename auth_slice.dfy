/**
 * The `auth` slice: the session held in the Redux store, hydrated from
 * `localStorage` at start-up, with three reducers that write every change
 * through to `localStorage` under the keys `"tokens"` and `"user"`.
 */
module AuthSlice {
  import opened Wrappers
  import opened Types
  import opened BrowserStorage
  import opened SessionCodec

  datatype AuthState = AuthState(user: Option<User>, tokens: Option<AuthTokens>, isAuthenticated: bool)

  /** `JSON.parse` threw while the slice's module was being evaluated. */
  datatype HydrationError = UnreadableTokens | UnreadableUser

  /** `stored ? JSON.parse(stored) : null`: outer `None` is a thrown parse error. */
  function ParseStoredTokens(text: Option<string>): Option<Option<AuthTokens>>
  {
    match text
    case None => Some(None)
    case Some(t) =>
      match DecodeTokens(t)
      case Malformed => None
      case JsonNull => Some(None)
      case Value(v) => Some(Some(v))
  }

  function ParseStoredUser(text: Option<string>): Option<Option<User>>
  {
    match text
    case None => Some(None)
    case Some(t) =>
      match DecodeUser(t)
      case Malformed => None
      case JsonNull => Some(None)
      case Value(v) => Some(Some(v))
  }

  /** The tokens whose encoding is stored, if any. */
  function StoredTokens(items: map<string, string>): Option<AuthTokens>
  {
    if "tokens" in items && DecodeTokens(items["tokens"]).Value? then Some(DecodeTokens(items["tokens"]).value) else None
  }

  /** The user whose encoding is stored, if any. */
  function StoredUser(items: map<string, string>): Option<User>
  {
    if "user" in items && DecodeUser(items["user"]).Value? then Some(DecodeUser(items["user"]).value) else None
  }

  /** A non-empty stored `"tokens"` text that `JSON.parse` rejects. */
  predicate TokensUnreadable(items: map<string, string>)
  {
    "tokens" in items && items["tokens"] != "" && DecodeTokens(items["tokens"]).Malformed?
  }

  /** A non-empty stored `"user"` text that `JSON.parse` rejects. */
  predicate UserUnreadable(items: map<string, string>)
  {
    "user" in items && items["user"] != "" && DecodeUser(items["user"]).Malformed?
  }

  /**
   * The initial state. `isAuthenticated` tests the stored text, not the
   * parsed value; an error is the exception that aborts start-up.
   */
  function Hydrate(items: map<string, string>): (r: Result<AuthState, HydrationError>)
    ensures r.Ok? ==> (r.value.isAuthenticated <==> "tokens" in items && items["tokens"] != "")
    ensures r.Ok? ==> r.value.tokens == StoredTokens(items)
    ensures r.Ok? ==> r.value.user == StoredUser(items)
    ensures r == Err(UnreadableTokens) <==> TokensUnreadable(items)
    ensures r == Err(UnreadableUser) <==> !TokensUnreadable(items) && UserUnreadable(items)
    ensures r.Ok? <==> !TokensUnreadable(items) && !UserUnreadable(items)
  {
    var storedTokens := Stored(items, "tokens");
    var storedUser := Stored(items, "user");
    match ParseStoredTokens(storedTokens)
    case None => Err(UnreadableTokens)
    case Some(tokens) =>
      match ParseStoredUser(storedUser)
      case None => Err(UnreadableUser)
      case Some(user) => Ok(AuthState(user, tokens, storedTokens.Some?))
  }

  /** The invariant every reducer keeps: authenticated exactly when tokens are held. */
  predicate SessionInvariant(s: AuthState)
  {
    s.isAuthenticated == s.tokens.Some?
  }

  /** `"tokens"` is stored exactly when the state holds tokens, and holds their encoding. */
  predicate TokensPersisted(s: AuthState, items: map<string, string>)
  {
    && ("tokens" in items <==> s.tokens.Some?)
    && (s.tokens.Some? ==> items["tokens"] == EncodeTokens(s.tokens.value))
  }

  /** `"user"` is stored exactly when the state holds a user, and holds its encoding. */
  predicate UserPersisted(s: AuthState, items: map<string, string>)
  {
    && ("user" in items <==> s.user.Some?)
    && (s.user.Some? ==> items["user"] == EncodeUser(s.user.value))
  }

  predicate Persisted(s: AuthState, items: map<string, string>)
  {
    SessionInvariant(s) && TokensPersisted(s, items) && UserPersisted(s, items)
  }

  /** A reload restores exactly the session the reducers last wrote through. */
  lemma ReloadRestoresSession(s: AuthState, items: map<string, string>)
    requires Persisted(s, items)
    ensures Hydrate(items) == Ok(s)
  {
    if s.tokens.Some? {
      TokensRoundTrip(s.tokens.value);
    }
    if s.user.Some? {
      UserRoundTrip(s.user.value);
    }
  }

  /** Storage holding only absent keys or encodings the reducers write. */
  ghost predicate WellFormedStorage(items: map<string, string>)
  {
    && ("tokens" in items ==> exists t :: items["tokens"] == EncodeTokens(t))
    && ("user" in items ==> exists u :: items["user"] == EncodeUser(u))
  }

  /** From such storage, start-up succeeds and the initial state is persisted and keeps the invariant. */
  lemma WellFormedStorageHydrates(items: map<string, string>)
    requires WellFormedStorage(items)
    ensures Hydrate(items).Ok? && Persisted(Hydrate(items).value, items)
  {
    var t: Option<AuthTokens> := None;
    var u: Option<User> := None;
    if "tokens" in items {
      var v :| items["tokens"] == EncodeTokens(v);
      t := Some(v);
    }
    if "user" in items {
      var v :| items["user"] == EncodeUser(v);
      u := Some(v);
    }
    ReloadRestoresSession(AuthState(u, t, t.Some?), items);
  }

  /**
   * Start-up does not derive `isAuthenticated` from the parsed tokens: stored
   * text `null` gives an authenticated session without tokens.
   */
  lemma NullTokensTextAuthenticates(items: map<string, string>)
    requires "tokens" in items && items["tokens"] == "null"
    requires "user" !in items
    ensures Hydrate(items) == Ok(AuthState(None, None, true))
    ensures !SessionInvariant(Hydrate(items).value)
  {
  }

  /** The slice's state, kept in place and written through to `storage`. */
  class AuthStore {
    var user: Option<User>
    var tokens: Option<AuthTokens>
    var isAuthenticated: bool
    const storage: LocalStorage

    function State(): AuthState
      reads this
    {
      AuthState(user, tokens, isAuthenticated)
    }

    /** Module evaluation: hydration, which throws on unreadable stored text. */
    constructor (storage: LocalStorage)
      requires Hydrate(storage.items).Ok?
      ensures this.storage == storage
      ensures State() == Hydrate(storage.items).value
    {
      var init := Hydrate(storage.items).value;
      this.storage := storage;
      user, tokens, isAuthenticated := init.user, init.tokens, init.isAuthenticated;
    }

    method SetCredentials(newTokens: AuthTokens, newUser: Option<User>)
      modifies this, storage
      ensures tokens == Some(newTokens) && isAuthenticated
      ensures user == (if newUser.Some? then newUser else old(user))
      ensures storage.items ==
        if newUser.Some? then old(storage.items)["tokens" := EncodeTokens(newTokens)]["user" := EncodeUser(newUser.value)]
        else old(storage.items)["tokens" := EncodeTokens(newTokens)]
      ensures SessionInvariant(State()) && TokensPersisted(State(), storage.items)
      ensures old(UserPersisted(State(), storage.items)) || newUser.Some? ==> UserPersisted(State(), storage.items)
    {
      tokens := Some(newTokens);
      isAuthenticated := true;
      if newUser.Some? {
        user := newUser;
      }
      storage.SetItem("tokens", EncodeTokens(newTokens));
      if newUser.Some? {
        storage.SetItem("user", EncodeUser(newUser.value));
      }
    }

    method SetUser(newUser: User)
      modifies this, storage
      ensures user == Some(newUser)
      ensures tokens == old(tokens) && isAuthenticated == old(isAuthenticated)
      ensures storage.items == old(storage.items)["user" := EncodeUser(newUser)]
      ensures UserPersisted(State(), storage.items)
      ensures old(SessionInvariant(State())) ==> SessionInvariant(State())
      ensures old(TokensPersisted(State(), storage.items)) ==> TokensPersisted(State(), storage.items)
    {
      user := Some(newUser);
      storage.SetItem("user", EncodeUser(newUser));
    }

    method Logout()
      modifies this, storage
      ensures State() == AuthState(None, None, false)
      ensures storage.items == old(storage.items) - {"tokens", "user"}
      ensures Persisted(State(), storage.items)
    {
      tokens := None;
      user := None;
      isAuthenticated := false;
      storage.RemoveItem("tokens");
      storage.RemoveItem("user");
    }
  }

  /**
   * Logging in stores the tokens first and the profile later, so a session
   * that is authenticated but has no user yet is reachable.
   */
  method AuthenticatedWithoutUser(t: AuthTokens) returns (store: AuthStore)
    ensures store.isAuthenticated && store.user.None? && store.tokens == Some(t)
    ensures Persisted(store.State(), store.storage.items)
  {
    var storage := new LocalStorage(map[]);
    store := new AuthStore(storage);
    store.SetCredentials(t, None);
  }
}
