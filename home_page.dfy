/**
 * The catalogue page: the query it issues from the `ui` slice, the hero
 * banner, the per-card stock lookup, and the pagination controls.
 */
module HomePage {
  import opened Wrappers
  import opened Types
  import Codec
  import Http
  import UiSlice
  import MovieApi

  const PageSize := 10

  /** `text || undefined`: an empty text is not passed at all. */
  function OrUndefined(text: string): Option<string>
  {
    if text == "" then None else Some(text)
  }

  /** The arguments of `useGetMoviesQuery`, read from the `ui` slice. */
  function MoviesQuery(ui: UiSlice.UiState): MovieApi.Query
  {
    MovieApi.GetMovies(Some(ui.currentPage), OrUndefined(ui.searchQuery), OrUndefined(ui.selectedGenre))
  }

  /**
   * The catalogue request asks for the current page, and names the search
   * text and the genre exactly when they are not empty.
   */
  lemma CatalogueRequestFollowsUi(ui: UiSlice.UiState)
    ensures var url := MovieApi.QueryRequest(MoviesQuery(ui)).url;
      var ps := Http.QueryOf(url, "movies/");
      && Http.IntParam(url, "movies/", "page") == Some(ui.currentPage)
      && ps.Some?
      && Codec.Lookup(ps.value, "search") == (if ui.searchQuery == "" then None else Some(ui.searchQuery))
      && Codec.Lookup(ps.value, "genre") == (if ui.selectedGenre == "" then None else Some(ui.selectedGenre))
  {
    MovieApi.MoviesUrlCarriesFilters(Some(ui.currentPage), OrUndefined(ui.searchQuery), OrUndefined(ui.selectedGenre));
  }

  /** `Math.ceil(count / 10)` on a non-negative count, as integer ceiling division. */
  function PageCount(count: nat): nat
  {
    (count + PageSize - 1) / PageSize
  }

  /** `data ? Math.ceil(data.count / 10) : 1`. */
  function TotalPages(data: Option<Paginated<Movie>>): nat
  {
    if data.Some? then PageCount(data.value.count) else 1
  }

  /** The page count is the least number of 10-item pages that holds every result. */
  lemma PageCountIsLeastCover(count: nat)
    ensures PageCount(count) * PageSize >= count
    ensures PageCount(count) > 0 ==> (PageCount(count) - 1) * PageSize < count
    ensures PageCount(count) == 0 <==> count == 0
  {
    var p := PageCount(count);
    assert p * PageSize + (count + PageSize - 1) % PageSize == count + PageSize - 1;
  }

  predicate PaginationShown(data: Option<Paginated<Movie>>) { TotalPages(data) > 1 }

  predicate PrevDisabled(currentPage: int, isFetching: bool) { currentPage == 1 || isFetching }

  predicate NextDisabled(currentPage: int, data: Option<Paginated<Movie>>, isFetching: bool)
  {
    currentPage >= TotalPages(data) || isFetching
  }

  /** Pagination appears only once a response with more than ten movies has arrived. */
  lemma PaginationNeedsSecondPage(data: Option<Paginated<Movie>>)
    ensures PaginationShown(data) <==> data.Some? && data.value.count > PageSize
  {
    if data.Some? {
      PageCountIsLeastCover(data.value.count);
    }
  }

  /**
   * Starting from a page in range, Prev and Next only ever lead to another
   * page in range: Prev never goes below page 1 and Next never past the last
   * page.
   */
  lemma PagingStaysInRange(ui: UiSlice.UiState, data: Option<Paginated<Movie>>, isFetching: bool)
    requires 1 <= ui.currentPage <= TotalPages(data)
    ensures !PrevDisabled(ui.currentPage, isFetching) ==>
      var next := UiSlice.Reduce(ui, UiSlice.SetCurrentPage(ui.currentPage - 1)).currentPage;
      1 <= next <= TotalPages(data)
    ensures !NextDisabled(ui.currentPage, data, isFetching) ==>
      var next := UiSlice.Reduce(ui, UiSlice.SetCurrentPage(ui.currentPage + 1)).currentPage;
      1 <= next <= TotalPages(data)
  {
  }

  /** The banner movie: the first result, shown only on the unfiltered first page. */
  function Hero(data: Option<Paginated<Movie>>, ui: UiSlice.UiState): Option<Movie>
  {
    if data.Some? && |data.value.results| > 0 && ui.searchQuery == "" && ui.selectedGenre == "" && ui.currentPage == 1
    then Some(data.value.results[0])
    else None
  }

  /**
   * Any search text, any genre or any page other than 1 hides the banner;
   * clearing the genre on a page with no search and a result shows it.
   */
  lemma FiltersHideHero(ui: UiSlice.UiState, a: UiSlice.UiAction, data: Option<Paginated<Movie>>)
    ensures var after := UiSlice.Reduce(ui, a);
      (a.SetSearchQuery? && a.query != "") || (a.SetSelectedGenre? && a.genre != "") || (a.SetCurrentPage? && a.page != 1)
      ==> Hero(data, after).None?
    ensures ui.searchQuery == "" && data.Some? && |data.value.results| > 0 ==>
      Hero(data, UiSlice.Reduce(ui, UiSlice.SetSelectedGenre(""))) == Some(data.value.results[0])
  {
  }

  /** `results.find(inv => inv.movie === movieId)`. */
  function FindInventory(results: seq<Inventory>, movieId: int): (r: Option<Inventory>)
    ensures r.Some? ==> r.value in results && r.value.movie == movieId
    ensures r.None? <==> forall i :: 0 <= i < |results| ==> results[i].movie != movieId
  {
    if results == [] then None
    else if results[0].movie == movieId then Some(results[0])
    else
      var r := FindInventory(results[1..], movieId);
      assert forall i :: 1 <= i < |results| ==> results[i] == results[1..][i - 1];
      r
  }

  /** The record found is the first one for the movie: every record before it is for another movie. */
  lemma {:induction false} FindInventoryIsFirstMatch(results: seq<Inventory>, movieId: int)
    requires FindInventory(results, movieId).Some?
    ensures exists i :: 0 <= i < |results| && results[i] == FindInventory(results, movieId).value
                        && forall j :: 0 <= j < i ==> results[j].movie != movieId
  {
    if results[0].movie != movieId {
      FindInventoryIsFirstMatch(results[1..], movieId);
      var r := FindInventory(results, movieId).value;
      var i :| 0 <= i < |results[1..]| && results[1..][i] == r && forall j :: 0 <= j < i ==> results[1..][j].movie != movieId;
      assert results[i + 1] == r;
      forall j | 0 <= j < i + 1
        ensures results[j].movie != movieId
      {
        if j > 0 { assert results[j] == results[1..][j - 1]; }
      }
    } else {
      assert results[0] == FindInventory(results, movieId).value;
    }
  }

  /** The stock record a movie card shows; `None` while the stock list has not loaded. */
  function CardInventory(inventoryData: Option<Paginated<Inventory>>, movie: Movie): Option<Inventory>
  {
    if inventoryData.Some? then FindInventory(inventoryData.value.results, movie.id) else None
  }

  /**
   * A card shows a stock record exactly when the stock list has loaded and
   * holds a record for that movie; the record shown is then the first one
   * for that movie in the list.
   */
  lemma CardShowsFirstRecordOfMovie(inventoryData: Option<Paginated<Inventory>>, movie: Movie)
    ensures CardInventory(inventoryData, movie).Some? <==>
      inventoryData.Some? && exists i :: 0 <= i < |inventoryData.value.results| && inventoryData.value.results[i].movie == movie.id
    ensures CardInventory(inventoryData, movie).Some? ==>
      exists i :: 0 <= i < |inventoryData.value.results|
        && inventoryData.value.results[i] == CardInventory(inventoryData, movie).value
        && inventoryData.value.results[i].movie == movie.id
        && forall j :: 0 <= j < i ==> inventoryData.value.results[j].movie != movie.id
  {
    if inventoryData.Some? && CardInventory(inventoryData, movie).Some? {
      FindInventoryIsFirstMatch(inventoryData.value.results, movie.id);
    }
  }
}
