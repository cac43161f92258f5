/**
 * The `adminApi` slice: platform analytics, the paginated user list, and the
 * admin's role change and user deletion.
 */
module AdminApi {
  import opened Wrappers
  import opened Types
  import opened Http
  import opened Tags
  import Codec

  const Slice := Api("adminApi")

  const TagTypes: set<string> := {"AdminUsers", "Analytics"}

  datatype Query = GetAnalytics | GetAdminUsers(page: Option<int>)

  /** The role travels as the text the admin picked; the backend validates it. */
  datatype Mutation = UpdateUserRole(id: int, role: string) | DeleteUser(id: int)

  function UserUrl(id: int): string { "admin/users/" + Codec.IntToString(id) + "/" }

  function QueryRequest(q: Query): Request
  {
    match q
    case GetAnalytics => GetRequest("admin-analytics/stats/")
    case GetAdminUsers(page) => GetRequest("users/?page=" + Codec.IntToString(page.GetOr(1)))
  }

  function MutationRequest(m: Mutation): Request
  {
    match m
    case UpdateUserRole(id, role) => Request(Patch, UserUrl(id), RoleBody(role))
    case DeleteUser(id) => Request(Delete, UserUrl(id), NoBody)
  }

  function Provides(q: Query): seq<Tag>
  {
    match q
    case GetAnalytics => [TypeTag("Analytics")]
    case GetAdminUsers(_) => [TypeTag("AdminUsers")]
  }

  function Invalidates(m: Mutation): seq<Tag>
  {
    [TypeTag("AdminUsers")]
  }

  function EntryOf(q: Query): Entry { Entry(Slice, Provides(q)) }

  function EffectOf(m: Mutation): Effect { Effect(Slice, Invalidates(m)) }

  // ---------------------------------------------------------------- proofs

  /** The user list URL carries the page, 1 when none is given. */
  lemma UsersUrlCarriesPage(page: Option<int>)
    ensures IntParam(QueryRequest(GetAdminUsers(page)).url, "users/", "page") == Some(page.GetOr(1))
  {
    var n := Codec.IntToString(page.GetOr(1));
    assert "users/?page=" + n == "users/" + "?page=" + n;
    PageParamOf("users/", page.GetOr(1));
  }

  /** Both mutations name the user in the URL; the role change sends the new role as the body. */
  lemma MutationsNameUser(m: Mutation)
    ensures ResourceId(MutationRequest(m).url, "admin/users/", "/") == Some(m.id)
    ensures m.UpdateUserRole? ==> MutationRequest(m).verb == Patch && MutationRequest(m).body == RoleBody(m.role)
    ensures m.DeleteUser? ==> MutationRequest(m).verb == Delete && MutationRequest(m).body == NoBody
  {
    ResourceIdOf("admin/users/", m.id, "/");
  }

  lemma TagsDeclared(q: Query, m: Mutation)
    ensures Declared(Provides(q), TagTypes) && Declared(Invalidates(m), TagTypes)
  {
  }

  /** A role change or a deletion refetches every cached user page and never the analytics. */
  lemma AdminRefetches(m: Mutation, q: Query)
    ensures Refetches(EffectOf(m), EntryOf(q)) <==> q.GetAdminUsers?
  {
    if q.GetAdminUsers? {
      assert Matches(TypeTag("AdminUsers"), Provides(q)[0]);
    }
  }
}
