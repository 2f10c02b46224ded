/** The home page: the query it searches for and the state its fetch leaves behind. */
module Home {
  import opened Js
  import Auth
  import BooksApi

  const DefaultQuery := "bestsellers"
  const GenreSeparator := " OR "
  const MaxGenres := 3
  const FetchErrorMessage := "Failed to fetch books. Please try again."

  /** The genres of the signed-in user, when there is a non-empty list of them. */
  predicate HasGenres(user: Option<Auth.Profile>) {
    user.Some? && user.value.genres.Some? && |user.value.genres.value| > 0
  }

  /** The search query: the typed term when there is one, else up to three of the
      user's genres joined with " OR ", else "bestsellers". */
  function QueryFor(searchTerm: string, user: Option<Auth.Profile>): string {
    if searchTerm != "" then searchTerm
    else if HasGenres(user) then Join(Take(user.value.genres.value, MaxGenres), GenreSeparator)
    else DefaultQuery
  }

  /** Which of the three sources the query comes from. */
  lemma QuerySources(searchTerm: string, user: Option<Auth.Profile>)
    ensures searchTerm != "" ==> QueryFor(searchTerm, user) == searchTerm
    ensures searchTerm == "" && !HasGenres(user) ==> QueryFor(searchTerm, user) == DefaultQuery
    ensures searchTerm == "" && HasGenres(user) ==>
      var g := user.value.genres.value;
      QueryFor(searchTerm, user) == Join(g[..if |g| < MaxGenres then |g| else MaxGenres], GenreSeparator)
  {
  }

  /** Only the first three genres matter. */
  lemma QueryIgnoresLaterGenres(user: Auth.Profile, extra: seq<string>)
    requires user.genres.Some? && |user.genres.value| >= MaxGenres
    ensures QueryFor("", Some(user.(genres := Some(user.genres.value + extra)))) == QueryFor("", Some(user))
  {
    var g := user.genres.value;
    assert (g + extra)[..MaxGenres] == g[..MaxGenres];
  }

  /** The genre query starts with the first genre, so it is empty only when that genre
      is; in every other case the search request is made. */
  lemma QueryEmptyOnlyForBlankGenre(searchTerm: string, user: Option<Auth.Profile>)
    ensures QueryFor(searchTerm, user) == "" ==>
      searchTerm == "" && HasGenres(user) && user.value.genres.value[0] == ""
  {
    if searchTerm == "" && HasGenres(user) {
      var parts := Take(user.value.genres.value, MaxGenres);
      JoinStartsWithFirst(parts, GenreSeparator);
    }
  }

  /** A join starts with its first piece and is empty only when it is one empty piece. */
  lemma JoinStartsWithFirst(parts: seq<string>, sep: string)
    requires |parts| >= 1 && |sep| > 0
    ensures StartsWith(Join(parts, sep), parts[0])
    ensures Join(parts, sep) == "" ==> |parts| == 1 && parts[0] == ""
  {
    if |parts| > 1 {
      assert Join(parts, sep)[..|parts[0]|] == parts[0];
    }
  }

  /** How the awaited search settles. The service catches its own failures, so the
      search it returns never rejects. */
  datatype SearchCall = Resolved(books: seq<BooksApi.Book>) | Rejected

  /** The settled search for a query, with the 20 results the page asks for. */
  function SearchCallOf(query: string, fetch: BooksApi.SearchFetch): (r: SearchCall)
    ensures r.Resolved?
    ensures query == "" ==> r.books == []
  {
    Resolved(BooksApi.SearchBooks(query, BooksApi.DefaultMaxResults, fetch).books)
  }

  class HomePage {
    var searchTerm: string
    var books: seq<BooksApi.Book>
    var loading: bool
    var error: Option<string>

    constructor ()
      ensures searchTerm == "" && books == [] && !loading && error.None?
    {
      searchTerm, books, loading, error := "", [], false, None;
    }

    method HandleSearchChange(value: string)
      modifies this
      ensures searchTerm == value && books == old(books) && loading == old(loading) && error == old(error)
    {
      searchTerm := value;
    }

    /** `fetchAndSetBooks`, given how the search for the current query settles: the
        books on success, the error message on rejection, and loading cleared either way. */
    method FetchAndSetBooks(call: SearchCall)
      modifies this
      ensures !loading && searchTerm == old(searchTerm)
      ensures call.Resolved? ==> books == call.books && error.None?
      ensures call.Rejected? ==> books == old(books) && error == Some(FetchErrorMessage)
    {
      loading := true;
      error := None;
      if call.Resolved? {
        books := call.books;
      } else {
        error := Some(FetchErrorMessage);
      }
      loading := false;
    }
  }

  /** With the search the service really returns, the page ends without an error and
      shows the books of the query chosen from the term and the user. */
  method FetchForUser(page: HomePage, user: Option<Auth.Profile>, fetch: BooksApi.SearchFetch)
    modifies page
    ensures !page.loading && page.error.None?
    ensures page.books == BooksApi.SearchBooks(QueryFor(old(page.searchTerm), user), 20, fetch).books
  {
    var call := SearchCallOf(QueryFor(page.searchTerm, user), fetch);
    page.FetchAndSetBooks(call);
  }
}
