/**
 * The `movieApi` slice: the catalogue list, one movie, and the vendor's
 * create, update and delete calls, with the cache tags that tie them together.
 */
module MovieApi {
  import opened Wrappers
  import opened Types
  import opened Http
  import opened Tags
  import Codec

  const Slice := Api("movieApi")

  const TagTypes: set<string> := {"Movies", "Movie"}

  /** `getMovies` takes optional page, search and genre; `getMovie` a movie id. */
  datatype Query = GetMovies(page: Option<int>, search: Option<string>, genre: Option<string>) | GetMovie(id: int)

  datatype Mutation = CreateMovie(form: MovieFormData) | UpdateMovie(id: int, patch: MoviePatch) | DeleteMovie(id: int)

  /** A JavaScript string is truthy when it is not empty; an absent one is not. */
  predicate Truthy(s: Option<string>) { s.Some? && s.value != "" }

  /** The search parameters of `getMovies`: the page (1 when absent), then each filter that is set. */
  function MoviesParams(page: Option<int>, search: Option<string>, genre: Option<string>): Codec.Params
  {
    var ps := [("page", Codec.IntToString(page.GetOr(1)))];
    var ps := if Truthy(search) then Codec.SetParam(ps, "search", search.value) else ps;
    if Truthy(genre) then Codec.SetParam(ps, "genre", genre.value) else ps
  }

  /** The `query` callback of `getMovies`, building its `URLSearchParams` one call at a time. */
  method BuildMoviesParams(page: Option<int>, search: Option<string>, genre: Option<string>) returns (params: Codec.Params)
    ensures params == MoviesParams(page, search, genre)
    ensures Codec.Lookup(params, "page") == Some(Codec.IntToString(page.GetOr(1)))
    ensures Codec.Lookup(params, "search") == if Truthy(search) then Some(search.value) else None
    ensures Codec.Lookup(params, "genre") == if Truthy(genre) then Some(genre.value) else None
  {
    params := [("page", Codec.IntToString(page.GetOr(1)))];
    assert Codec.Lookup(params, "search") == None && Codec.Lookup(params, "genre") == None;
    if search.Some? && search.value != "" {
      Codec.SetParamLookup(params, "search", search.value, "page");
      Codec.SetParamLookup(params, "search", search.value, "genre");
      params := Codec.SetParam(params, "search", search.value);
    }
    if genre.Some? && genre.value != "" {
      Codec.SetParamLookup(params, "genre", genre.value, "page");
      Codec.SetParamLookup(params, "genre", genre.value, "search");
      params := Codec.SetParam(params, "genre", genre.value);
    }
  }

  function MovieUrl(id: int): string { "movies/" + Codec.IntToString(id) + "/" }

  function QueryRequest(q: Query): Request
  {
    match q
    case GetMovies(page, search, genre) => GetRequest("movies/?" + Codec.Serialize(MoviesParams(page, search, genre)))
    case GetMovie(id) => GetRequest(MovieUrl(id))
  }

  function MutationRequest(m: Mutation): Request
  {
    match m
    case CreateMovie(form) => Request(Post, "movies/", MovieBody(form))
    case UpdateMovie(id, patch) => Request(Patch, MovieUrl(id), MoviePatchBody(patch))
    case DeleteMovie(id) => Request(Delete, MovieUrl(id), NoBody)
  }

  function Provides(q: Query): seq<Tag>
  {
    match q
    case GetMovies(_, _, _) => [TypeTag("Movies")]
    case GetMovie(id) => [IdTag("Movie", Num(id))]
  }

  function Invalidates(m: Mutation): seq<Tag>
  {
    match m
    case UpdateMovie(id, _) => [TypeTag("Movies"), IdTag("Movie", Num(id))]
    case _ => [TypeTag("Movies")]
  }

  function EntryOf(q: Query): Entry { Entry(Slice, Provides(q)) }

  function EffectOf(m: Mutation): Effect { Effect(Slice, Invalidates(m)) }

  // ---------------------------------------------------------------- proofs

  /** The parameter list reads back the page (1 when none is given) and each filter exactly when it is non-empty. */
  lemma MoviesParamsRead(page: Option<int>, search: Option<string>, genre: Option<string>)
    ensures var ps := MoviesParams(page, search, genre);
      && Codec.Lookup(ps, "page") == Some(Codec.IntToString(page.GetOr(1)))
      && Codec.Lookup(ps, "search") == (if Truthy(search) then Some(search.value) else None)
      && Codec.Lookup(ps, "genre") == (if Truthy(genre) then Some(genre.value) else None)
  {
    var p0 := [("page", Codec.IntToString(page.GetOr(1)))];
    var p1 := if Truthy(search) then Codec.SetParam(p0, "search", search.value) else p0;
    if Truthy(search) {
      Codec.SetParamLookup(p0, "search", search.value, "page");
      Codec.SetParamLookup(p0, "search", search.value, "genre");
    }
    if Truthy(genre) {
      Codec.SetParamLookup(p1, "genre", genre.value, "page");
      Codec.SetParamLookup(p1, "genre", genre.value, "search");
    }
  }

  /** The parameters of `getMovies` in the order they are set. */
  function MoviesParamsSpec(page: Option<int>, search: Option<string>, genre: Option<string>): Codec.Params
  {
    [("page", Codec.IntToString(page.GetOr(1)))]
    + (if Truthy(search) then [("search", search.value)] else [])
    + (if Truthy(genre) then [("genre", genre.value)] else [])
  }

  /**
   * The parameters are exactly the page, then the search text, then the
   * genre, each filter present only when it is non-empty, and nothing else.
   */
  lemma MoviesParamsInOrder(page: Option<int>, search: Option<string>, genre: Option<string>)
    ensures MoviesParams(page, search, genre) == MoviesParamsSpec(page, search, genre)
  {
    var p0 := [("page", Codec.IntToString(page.GetOr(1)))];
    var p1 := if Truthy(search) then Codec.SetParam(p0, "search", search.value) else p0;
    if Truthy(search) {
      Codec.SetParamAppends(p0, "search", search.value);
    }
    if Truthy(genre) {
      assert forall i :: 0 <= i < |p1| ==> p1[i].0 != "genre";
      Codec.SetParamAppends(p1, "genre", genre.value);
    }
  }

  /** The catalogue URL reads back as exactly that parameter list, in that order. */
  lemma MoviesUrlListsParamsInOrder(page: Option<int>, search: Option<string>, genre: Option<string>)
    ensures QueryOf(QueryRequest(GetMovies(page, search, genre)).url, "movies/") == Some(MoviesParamsSpec(page, search, genre))
  {
    MoviesParamsInOrder(page, search, genre);
    assert QueryRequest(GetMovies(page, search, genre)).url == "movies/" + "?" + Codec.Serialize(MoviesParams(page, search, genre));
    QueryOfBuilt("movies/", MoviesParams(page, search, genre));
  }

  /**
   * The catalogue URL carries the requested page (1 when none is given), and
   * the search text and genre exactly when they are non-empty.
   */
  lemma MoviesUrlCarriesFilters(page: Option<int>, search: Option<string>, genre: Option<string>)
    ensures var url := QueryRequest(GetMovies(page, search, genre)).url;
      && IntParam(url, "movies/", "page") == Some(page.GetOr(1))
      && QueryOf(url, "movies/").Some?
      && Codec.Lookup(QueryOf(url, "movies/").value, "search") == (if Truthy(search) then Some(search.value) else None)
      && Codec.Lookup(QueryOf(url, "movies/").value, "genre") == (if Truthy(genre) then Some(genre.value) else None)
  {
    var ps := MoviesParams(page, search, genre);
    var url := QueryRequest(GetMovies(page, search, genre)).url;
    assert url == "movies/" + "?" + Codec.Serialize(ps);
    QueryOfBuilt("movies/", ps);
    MoviesParamsRead(page, search, genre);
    Codec.IntRoundTrip(page.GetOr(1));
  }

  /** Every request for one movie, and every update or delete, names that movie's id in its URL. */
  lemma RequestsNameTheMovie(q: Query, m: Mutation)
    ensures q.GetMovie? ==> QueryRequest(q).verb == Get && ResourceId(QueryRequest(q).url, "movies/", "/") == Some(q.id)
    ensures m.UpdateMovie? ==> MutationRequest(m) == Request(Patch, MutationRequest(m).url, MoviePatchBody(m.patch))
                               && ResourceId(MutationRequest(m).url, "movies/", "/") == Some(m.id)
    ensures m.DeleteMovie? ==> MutationRequest(m).verb == Delete && ResourceId(MutationRequest(m).url, "movies/", "/") == Some(m.id)
    ensures m.CreateMovie? ==> MutationRequest(m) == Request(Post, "movies/", MovieBody(m.form))
  {
    if q.GetMovie? { ResourceIdOf("movies/", q.id, "/"); }
    if m.UpdateMovie? || m.DeleteMovie? { ResourceIdOf("movies/", m.id, "/"); }
  }

  /** Every tag the slice uses is one of its declared tag types. */
  lemma TagsDeclared(q: Query, m: Mutation)
    ensures Declared(Provides(q), TagTypes) && Declared(Invalidates(m), TagTypes)
  {
  }

  /**
   * Any movie mutation refetches every cached catalogue page; a cached single
   * movie is refetched only by an update of that same movie, so a delete
   * leaves the deleted movie's entry in place.
   */
  lemma MovieRefetches(m: Mutation, q: Query)
    ensures Refetches(EffectOf(m), EntryOf(q)) <==> q.GetMovies? || (m.UpdateMovie? && q.GetMovie? && q.id == m.id)
  {
    if q.GetMovies? {
      assert Matches(TypeTag("Movies"), TypeTag("Movies"));
      assert TypeTag("Movies") in Invalidates(m);
    } else if m.UpdateMovie? && q.id == m.id {
      assert Matches(IdTag("Movie", Num(m.id)), IdTag("Movie", Num(q.id)));
      assert IdTag("Movie", Num(m.id)) in Invalidates(m);
    }
  }
}
