/**
 * The `ui` slice: the catalogue's search text, genre filter and page number.
 * Changing either filter sends the catalogue back to page 1; the page number
 * itself is stored as given, without bounds.
 */
module UiSlice {

  datatype UiState = UiState(searchQuery: string, selectedGenre: string, currentPage: int)

  /** The three actions the slice accepts. */
  datatype UiAction = SetSearchQuery(query: string) | SetSelectedGenre(genre: string) | SetCurrentPage(page: int)

  const Initial := UiState("", "", 1)

  /** The reducer. */
  function Reduce(s: UiState, a: UiAction): (r: UiState)
    ensures r.searchQuery != s.searchQuery || r.selectedGenre != s.selectedGenre ==> r.currentPage == 1
    ensures a.SetCurrentPage? ==> r.searchQuery == s.searchQuery && r.selectedGenre == s.selectedGenre
  {
    match a
    case SetSearchQuery(q) => s.(searchQuery := q, currentPage := 1)
    case SetSelectedGenre(g) => s.(selectedGenre := g, currentPage := 1)
    case SetCurrentPage(p) => s.(currentPage := p)
  }

  /** A run of actions, dispatched in order. */
  function Apply(s: UiState, actions: seq<UiAction>): UiState
    decreases |actions|
  {
    if actions == [] then s else Apply(Reduce(s, actions[0]), actions[1..])
  }

  lemma {:induction false} ApplySnoc(s: UiState, actions: seq<UiAction>, a: UiAction)
    ensures Apply(s, actions + [a]) == Reduce(Apply(s, actions), a)
    decreases |actions|
  {
    if actions == [] {
      assert [a][1..] == [];
      assert actions + [a] == [a];
    } else {
      assert (actions + [a])[1..] == actions[1..] + [a];
      ApplySnoc(Reduce(s, actions[0]), actions[1..], a);
    }
  }

  // Reference definitions, read from the end of the run: the last action of
  // the relevant kind decides each field.

  function LastQuery(initial: string, actions: seq<UiAction>): string
  {
    if actions == [] then initial
    else match actions[|actions| - 1]
      case SetSearchQuery(q) => q
      case _ => LastQuery(initial, actions[..|actions| - 1])
  }

  function LastGenre(initial: string, actions: seq<UiAction>): string
  {
    if actions == [] then initial
    else match actions[|actions| - 1]
      case SetSelectedGenre(g) => g
      case _ => LastGenre(initial, actions[..|actions| - 1])
  }

  /** The page an action leaves behind. */
  function PageAfter(a: UiAction): int
  {
    match a
    case SetCurrentPage(p) => p
    case _ => 1
  }

  /**
   * After any run of actions the search text and the genre are the last ones
   * set, and the page is the one the last action left behind: page 1 right
   * after a filter change.
   */
  lemma {:induction false} ApplyIsLastWriterWins(s: UiState, actions: seq<UiAction>)
    ensures Apply(s, actions).searchQuery == LastQuery(s.searchQuery, actions)
    ensures Apply(s, actions).selectedGenre == LastGenre(s.selectedGenre, actions)
    ensures Apply(s, actions).currentPage == if actions == [] then s.currentPage else PageAfter(actions[|actions| - 1])
    decreases |actions|
  {
    if actions != [] {
      var init := actions[..|actions| - 1];
      var a := actions[|actions| - 1];
      assert actions == init + [a];
      ApplySnoc(s, init, a);
      ApplyIsLastWriterWins(s, init);
    }
  }

  /** Setting the search text and the genre gives the same state in either order. */
  lemma FiltersCommute(s: UiState, q: string, g: string)
    ensures Reduce(Reduce(s, SetSearchQuery(q)), SetSelectedGenre(g))
         == Reduce(Reduce(s, SetSelectedGenre(g)), SetSearchQuery(q))
  {
  }

  /** The slice's store: the three fields, updated in place by the reducers. */
  class UiStore {
    var searchQuery: string
    var selectedGenre: string
    var currentPage: int

    function State(): UiState
      reads this
    {
      UiState(searchQuery, selectedGenre, currentPage)
    }

    constructor ()
      ensures State() == Initial
    {
      searchQuery := "";
      selectedGenre := "";
      currentPage := 1;
    }

    method SetSearchQuery(query: string)
      modifies this
      ensures State() == Reduce(old(State()), UiAction.SetSearchQuery(query))
      ensures currentPage == 1 && selectedGenre == old(selectedGenre)
    {
      searchQuery := query;
      currentPage := 1;
    }

    method SetSelectedGenre(genre: string)
      modifies this
      ensures State() == Reduce(old(State()), UiAction.SetSelectedGenre(genre))
      ensures currentPage == 1 && searchQuery == old(searchQuery)
    {
      selectedGenre := genre;
      currentPage := 1;
    }

    method SetCurrentPage(page: int)
      modifies this
      ensures State() == Reduce(old(State()), UiAction.SetCurrentPage(page))
      ensures searchQuery == old(searchQuery) && selectedGenre == old(selectedGenre)
    {
      currentPage := page;
    }
  }
}
