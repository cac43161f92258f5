/**
 * The `rentalApi` slice: the customer's and the admin's paginated rental
 * lists, the vendor's list, and the rent and return calls.
 */
module RentalApi {
  import opened Wrappers
  import opened Types
  import opened Http
  import opened Tags
  import Codec

  const Slice := Api("rentalApi")

  const TagTypes: set<string> := {"Rental"}

  /** The list tag shared by the customer's and the admin's rental lists. */
  const ListTag := IdTag("Rental", Named("LIST"))

  datatype Query = GetMyRentals(page: Option<int>) | GetAllRentals(page: Option<int>) | GetVendorRentals(page: Option<int>)

  datatype Mutation = RentMovie(movieId: int) | ReturnMovie(rentalId: int)

  function PageUrl(path: string, page: Option<int>): string
  {
    path + "?page=" + Codec.IntToString(page.GetOr(1))
  }

  function QueryRequest(q: Query): Request
  {
    match q
    case GetMyRentals(page) => GetRequest(PageUrl("rentals/", page))
    case GetAllRentals(page) => GetRequest(PageUrl("rentals/", page))
    case GetVendorRentals(page) => GetRequest(PageUrl("rentals/vendor/", page))
  }

  function MutationRequest(m: Mutation): Request
  {
    match m
    case RentMovie(movieId) => Request(Post, "rentals/", RentBody(movieId))
    case ReturnMovie(rentalId) => Request(Post, "rentals/" + Codec.IntToString(rentalId) + "/return_movie/", NoBody)
  }

  /** One tag per rental on the page, then the list tag; only the list tag while no page has arrived. */
  function ListTags(result: Option<Paginated<Rental>>): (tags: seq<Tag>)
    ensures |tags| > 0 && tags[|tags| - 1] == ListTag
    ensures result.Some? ==> |tags| == |result.value.results| + 1
    ensures result.Some? ==> forall i :: 0 <= i < |result.value.results| ==> tags[i] == IdTag("Rental", Num(result.value.results[i].id))
    ensures result.None? ==> tags == [ListTag]
  {
    match result
    case Some(page) => RentalTags(page.results) + [ListTag]
    case None => [ListTag]
  }

  function RentalTags(rentals: seq<Rental>): (tags: seq<Tag>)
    ensures |tags| == |rentals|
    ensures forall i :: 0 <= i < |rentals| ==> tags[i] == IdTag("Rental", Num(rentals[i].id))
  {
    if rentals == [] then [] else [IdTag("Rental", Num(rentals[0].id))] + RentalTags(rentals[1..])
  }

  /** What a cached list provides, given the page it holds (`None` before or after a failed fetch). */
  function Provides(q: Query, result: Option<Paginated<Rental>>): seq<Tag>
  {
    match q
    case GetVendorRentals(_) => [TypeTag("Rental")]
    case _ => ListTags(result)
  }

  function Invalidates(m: Mutation): seq<Tag>
  {
    [ListTag]
  }

  function EntryOf(q: Query, result: Option<Paginated<Rental>>): Entry { Entry(Slice, Provides(q, result)) }

  function EffectOf(m: Mutation): Effect { Effect(Slice, Invalidates(m)) }

  // ---------------------------------------------------------------- proofs

  /** Each list URL carries the requested page, 1 when none is given. */
  lemma ListUrlsCarryPage(q: Query)
    ensures var path := if q.GetVendorRentals? then "rentals/vendor/" else "rentals/";
      QueryRequest(q).verb == Get && IntParam(QueryRequest(q).url, path, "page") == Some(q.page.GetOr(1))
  {
    PageParamOf(if q.GetVendorRentals? then "rentals/vendor/" else "rentals/", q.page.GetOr(1));
  }

  /** Renting sends the movie id in the body; returning names the rental in the URL. */
  lemma MutationsNameTheirTarget(m: Mutation)
    ensures m.RentMovie? ==> MutationRequest(m) == Request(Post, "rentals/", RentBody(m.movieId))
    ensures m.ReturnMovie? ==> MutationRequest(m).verb == Post && MutationRequest(m).body == NoBody
                               && ResourceId(MutationRequest(m).url, "rentals/", "/return_movie/") == Some(m.rentalId)
  {
    if m.ReturnMovie? { ResourceIdOf("rentals/", m.rentalId, "/return_movie/"); }
  }

  lemma TagsDeclared(q: Query, result: Option<Paginated<Rental>>, m: Mutation)
    ensures Declared(Provides(q, result), TagTypes) && Declared(Invalidates(m), TagTypes)
  {
  }

  /**
   * Renting and returning refetch the customer's and the admin's lists,
   * whatever page they hold, and never the vendor's list: its bare tag carries
   * no id, so the list tag does not reach it.
   */
  lemma RentalRefetches(m: Mutation, q: Query, result: Option<Paginated<Rental>>)
    ensures Refetches(EffectOf(m), EntryOf(q, result)) <==> !q.GetVendorRentals?
  {
    var tags := Provides(q, result);
    if !q.GetVendorRentals? {
      assert tags[|tags| - 1] == ListTag;
      assert Matches(ListTag, tags[|tags| - 1]);
    }
  }

  /** No mutation names a single rental's tag: the per-rental tags are never what causes a refetch. */
  lemma RentalIdTagsNeverInvalidated(m: Mutation, q: Query, result: Option<Paginated<Rental>>, t: Tag)
    requires t in Provides(q, result) && t != ListTag
    ensures forall a :: a in Invalidates(m) ==> !Matches(a, t)
  {
  }
}
