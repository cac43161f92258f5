/**
 * All five API slices side by side. Each slice keeps its own cache, so a
 * mutation refetches entries of its own slice only: renting a movie does not
 * refetch that movie's stock, and changing a user's role does not refetch the
 * signed-in user's profile.
 */
module CacheConsistency {
  import opened Wrappers
  import opened Types
  import opened Tags
  import MovieApi
  import RentalApi
  import InventoryApi
  import AdminApi
  import AuthApi

  /** A cached query result of any slice. */
  datatype AnyEntry =
    | MovieEntry(movieQuery: MovieApi.Query)
    | RentalEntry(rentalQuery: RentalApi.Query, result: Option<Paginated<Rental>>)
    | InventoryEntry(inventoryQuery: InventoryApi.Query)
    | AdminEntry(adminQuery: AdminApi.Query)
    | ProfileEntry(profileQuery: AuthApi.Query)

  /** A completed mutation of any slice. */
  datatype AnyMutation =
    | MovieChange(movieMutation: MovieApi.Mutation)
    | RentalChange(rentalMutation: RentalApi.Mutation)
    | InventoryChange(inventoryMutation: InventoryApi.Mutation)
    | AdminChange(adminMutation: AdminApi.Mutation)
    | AccountChange(accountMutation: AuthApi.Mutation)

  function EntryOf(e: AnyEntry): Entry
  {
    match e
    case MovieEntry(q) => MovieApi.EntryOf(q)
    case RentalEntry(q, r) => RentalApi.EntryOf(q, r)
    case InventoryEntry(q) => InventoryApi.EntryOf(q)
    case AdminEntry(q) => AdminApi.EntryOf(q)
    case ProfileEntry(q) => AuthApi.EntryOf(q)
  }

  function EffectOf(m: AnyMutation): Effect
  {
    match m
    case MovieChange(x) => MovieApi.EffectOf(x)
    case RentalChange(x) => RentalApi.EffectOf(x)
    case InventoryChange(x) => InventoryApi.EffectOf(x)
    case AdminChange(x) => AdminApi.EffectOf(x)
    case AccountChange(x) => AuthApi.EffectOf(x)
  }

  /** Whether a mutation and an entry come from the same `createApi` slice. */
  predicate SameSlice(m: AnyMutation, e: AnyEntry)
  {
    || (m.MovieChange? && e.MovieEntry?)
    || (m.RentalChange? && e.RentalEntry?)
    || (m.InventoryChange? && e.InventoryEntry?)
    || (m.AdminChange? && e.AdminEntry?)
    || (m.AccountChange? && e.ProfileEntry?)
  }

  /**
   * The complete refetch table of the application: which cached entry each
   * mutation makes RTK Query fetch again.
   */
  lemma RefetchTable(m: AnyMutation, e: AnyEntry)
    ensures Refetches(EffectOf(m), EntryOf(e)) <==>
      match (m, e)
      case (MovieChange(x), MovieEntry(q)) => q.GetMovies? || (x.UpdateMovie? && q.GetMovie? && q.id == x.id)
      case (RentalChange(_), RentalEntry(q, _)) => !q.GetVendorRentals?
      case (InventoryChange(_), InventoryEntry(_)) => true
      case (AdminChange(_), AdminEntry(q)) => q.GetAdminUsers?
      case (AccountChange(x), ProfileEntry(_)) => x.UpdateProfile?
      case _ => false
  {
    if !SameSlice(m, e) {
      assert EffectOf(m).api != EntryOf(e).api;
    } else {
      match (m, e)
      case (MovieChange(x), MovieEntry(q)) => MovieApi.MovieRefetches(x, q);
      case (RentalChange(x), RentalEntry(q, r)) => RentalApi.RentalRefetches(x, q, r);
      case (InventoryChange(x), InventoryEntry(q)) => InventoryApi.UpdateRefetchesAllInventory(x, q);
      case (AdminChange(x), AdminEntry(q)) => AdminApi.AdminRefetches(x, q);
      case (AccountChange(x), ProfileEntry(q)) => AuthApi.ProfileRefetches(x, q);
    }
  }

  /** After a rental or a return, the cached stock and movie data stay as they were until fetched again. */
  lemma RentingLeavesStockCached(movieId: int, e: AnyEntry)
    requires e.InventoryEntry? || e.MovieEntry?
    ensures !Refetches(EffectOf(RentalChange(RentalApi.RentMovie(movieId))), EntryOf(e))
    ensures !Refetches(EffectOf(RentalChange(RentalApi.ReturnMovie(movieId))), EntryOf(e))
  {
    RefetchTable(RentalChange(RentalApi.RentMovie(movieId)), e);
    RefetchTable(RentalChange(RentalApi.ReturnMovie(movieId)), e);
  }

  /** An admin's role change or deletion leaves every cached profile in place. */
  lemma AdminChangesLeaveProfile(m: AdminApi.Mutation, q: AuthApi.Query)
    ensures !Refetches(EffectOf(AdminChange(m)), EntryOf(ProfileEntry(q)))
  {
    RefetchTable(AdminChange(m), ProfileEntry(q));
  }
}
