/**
 * The `inventoryApi` slice: the full stock list, the stock record of one
 * movie, and the vendor's stock update.
 */
module InventoryApi {
  import opened Wrappers
  import opened Types
  import opened Http
  import opened Tags
  import Codec

  const Slice := Api("inventoryApi")

  const TagTypes: set<string> := {"Inventory"}

  datatype Query = GetInventory | GetMovieInventory(movieId: int)

  /** `{ id, total_copies, available_copies }`: the id goes to the URL, the rest to the body. */
  datatype Mutation = UpdateInventory(id: int, totalCopies: int, availableCopies: int)

  function QueryRequest(q: Query): Request
  {
    match q
    case GetInventory => GetRequest("inventory/")
    case GetMovieInventory(movieId) => GetRequest("inventory/?movie=" + Codec.IntToString(movieId))
  }

  function MutationRequest(m: Mutation): Request
  {
    Request(Patch, "inventory/" + Codec.IntToString(m.id) + "/", InventoryBody(m.totalCopies, m.availableCopies))
  }

  /** `transformResponse` of `getMovieInventory`: the first record of the page, or null for an empty page. */
  function FirstOrNull(results: seq<Inventory>): Option<Inventory>
  {
    if |results| > 0 then Some(results[0]) else None
  }

  function Provides(q: Query): seq<Tag>
  {
    match q
    case GetInventory => [TypeTag("Inventory")]
    case GetMovieInventory(movieId) => [IdTag("Inventory", Num(movieId))]
  }

  function Invalidates(m: Mutation): seq<Tag>
  {
    [TypeTag("Inventory")]
  }

  function EntryOf(q: Query): Entry { Entry(Slice, Provides(q)) }

  function EffectOf(m: Mutation): Effect { Effect(Slice, Invalidates(m)) }

  // ---------------------------------------------------------------- proofs

  /** The per-movie query names the movie in its `movie` parameter. */
  lemma MovieQueryNamesMovie(movieId: int)
    ensures IntParam(QueryRequest(GetMovieInventory(movieId)).url, "inventory/", "movie") == Some(movieId)
  {
    assert "inventory/?movie=" == "inventory/" + "?" + "movie" + "=";
    assert Codec.Escape("movie") == "movie" by {
      Codec.EscapeUnreserved("movie");
    }
    PrefixParamOf("inventory/?movie=", "inventory/", "movie", movieId);
  }

  /** The update names the record in its URL and sends both counts, and nothing else, as the body. */
  lemma UpdateNamesRecord(m: Mutation)
    ensures MutationRequest(m).verb == Patch && MutationRequest(m).body == InventoryBody(m.totalCopies, m.availableCopies)
    ensures ResourceId(MutationRequest(m).url, "inventory/", "/") == Some(m.id)
  {
    ResourceIdOf("inventory/", m.id, "/");
  }

  /** The per-movie result is the first record of the page, and null exactly when the page is empty. */
  lemma MovieInventoryIsFirstOfPage(results: seq<Inventory>)
    ensures FirstOrNull(results).None? <==> results == []
    ensures FirstOrNull(results).Some? ==> FirstOrNull(results).value == results[0] && FirstOrNull(results).value in results
  {
  }

  /**
   * When the backend honours the `movie` filter, so that every record of the
   * page is for that movie, the record shown is that movie's.
   */
  lemma FilteredPageShowsThatMovie(movieId: int, results: seq<Inventory>)
    requires forall i :: 0 <= i < |results| ==> results[i].movie == movieId
    ensures FirstOrNull(results).Some? ==> FirstOrNull(results).value.movie == movieId
  {
    MovieInventoryIsFirstOfPage(results);
  }

  lemma TagsDeclared(q: Query, m: Mutation)
    ensures Declared(Provides(q), TagTypes) && Declared(Invalidates(m), TagTypes)
  {
  }

  /** A stock update refetches the full list and every movie's stock record, whichever record it changed. */
  lemma UpdateRefetchesAllInventory(m: Mutation, q: Query)
    ensures Refetches(EffectOf(m), EntryOf(q))
  {
    assert Matches(TypeTag("Inventory"), Provides(q)[0]);
  }
}
