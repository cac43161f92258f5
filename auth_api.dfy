/**
 * The `authApi` slice: login, registration, the signed-in user's profile,
 * its update and the password change.
 */
module AuthApi {
  import opened Wrappers
  import opened Types
  import opened Http
  import opened Tags

  const Slice := Api("authApi")

  /** `"Users"` is declared but no endpoint provides or invalidates it. */
  const TagTypes: set<string> := {"Profile", "Users"}

  datatype Query = GetProfile

  datatype Mutation =
    | Login(credentials: LoginCredentials)
    | Register(registration: RegisterData)
    | UpdateProfile(profile: ProfileUpdateData)
    | ChangePassword(passwords: PasswordChangeData)

  function QueryRequest(q: Query): Request
  {
    GetRequest("users/me/")
  }

  function MutationRequest(m: Mutation): Request
  {
    match m
    case Login(c) => Request(Post, "auth/login/", CredentialsBody(c))
    case Register(r) => Request(Post, "auth/register/", RegisterBody(r))
    case UpdateProfile(p) => Request(Patch, "users/me/", ProfileBody(p))
    case ChangePassword(p) => Request(Post, "users/me/change-password/", PasswordBody(p))
  }

  function Provides(q: Query): seq<Tag>
  {
    [TypeTag("Profile")]
  }

  /** Only the profile update invalidates anything. */
  function Invalidates(m: Mutation): seq<Tag>
  {
    if m.UpdateProfile? then [TypeTag("Profile")] else []
  }

  function EntryOf(q: Query): Entry { Entry(Slice, Provides(q)) }

  function EffectOf(m: Mutation): Effect { Effect(Slice, Invalidates(m)) }

  // ---------------------------------------------------------------- proofs

  /** Every mutation sends its payload unchanged as the body, to its own endpoint. */
  lemma MutationsSendPayload(m: Mutation)
    ensures MutationRequest(m).verb == (if m.UpdateProfile? then Patch else Post)
    ensures m.Login? ==> MutationRequest(m).body == CredentialsBody(m.credentials)
    ensures m.Register? ==> MutationRequest(m).body == RegisterBody(m.registration)
    ensures m.UpdateProfile? ==> MutationRequest(m).body == ProfileBody(m.profile) && MutationRequest(m).url == QueryRequest(GetProfile).url
    ensures m.ChangePassword? ==> MutationRequest(m).body == PasswordBody(m.passwords)
  {
  }

  /** The tags in use are declared, and `"Users"` is never used. */
  lemma TagsDeclared(q: Query, m: Mutation)
    ensures Declared(Provides(q), TagTypes) && Declared(Invalidates(m), TagTypes)
    ensures forall t :: t in Provides(q) + Invalidates(m) ==> t.kind != "Users"
  {
  }

  /**
   * The cached profile is refetched after a profile update and after nothing
   * else: logging in, registering or changing the password leave it in place.
   */
  lemma ProfileRefetches(m: Mutation, q: Query)
    ensures Refetches(EffectOf(m), EntryOf(q)) <==> m.UpdateProfile?
  {
    if m.UpdateProfile? {
      assert Matches(TypeTag("Profile"), Provides(q)[0]);
    }
  }
}
