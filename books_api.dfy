/** The book search service: the volume records of the Google Books API turned into
    the application's book records, and the empty and failure cases of the two calls. */
module BooksApi {
  import opened Js

  const NoTitle := "No Title Available"
  const UnknownAuthor := "Unknown Author"
  const GeneralGenre := "General"
  const PlaceholderCover := "https://placehold.co/150x200/cccccc/333333?text=No+Cover"
  const NoDescription := "No description available."
  const DefaultMaxResults := 20

  datatype ImageLinks = ImageLinks(thumbnail: Option<string>)

  /** The `volumeInfo` of a volume; `None` is a key that is absent. */
  datatype VolumeInfo = VolumeInfo(
    title: Option<string>,
    authors: Option<seq<string>>,
    categories: Option<seq<string>>,
    imageLinks: Option<ImageLinks>,
    description: Option<string>)

  /** A volume as the API returns it. */
  datatype Item = Item(id: Option<string>, volumeInfo: Option<VolumeInfo>)

  /** A book as the application uses it. The random price and rating are not part of
      this model. An absent `genre` or `imageUrl` is `undefined` in the source. */
  datatype Book = Book(
    id: Option<string>,
    title: string,
    author: string,
    genre: Option<string>,
    imageUrl: Option<string>,
    description: string)

  /** `arr[0]` of a JavaScript array: `undefined` for an empty one. */
  function First(xs: seq<string>): Option<string> {
    if xs == [] then None else Some(xs[0])
  }

  /** The book of one volume, or `None` where the source fails on a missing `volumeInfo`. */
  function ToBook(item: Item): (r: Option<Book>)
    ensures r.None? <==> item.volumeInfo.None?
    ensures r.Some? ==> r.value.id == item.id
  {
    match item.volumeInfo
    case None => None
    case Some(info) =>
      Some(Book(
        item.id,
        OrElse(info.title, NoTitle),
        if info.authors.Some? then Join(info.authors.value, ", ") else UnknownAuthor,
        if info.categories.Some? then First(info.categories.value) else Some(GeneralGenre),
        if info.imageLinks.Some? then info.imageLinks.value.thumbnail else Some(PlaceholderCover),
        OrElse(info.description, NoDescription)))
  }

  /** The field defaults of a mapped volume. */
  lemma ToBookDefaults(item: Item)
    requires item.volumeInfo.Some?
    ensures var b, info := ToBook(item).value, item.volumeInfo.value;
      && b.title == (if Truthy(info.title) then info.title.value else NoTitle)
      && (info.authors.None? ==> b.author == UnknownAuthor)
      && (info.authors.Some? ==> b.author == Join(info.authors.value, ", "))
      && (info.categories.None? ==> b.genre == Some(GeneralGenre))
      && (info.categories.Some? && info.categories.value != [] ==> b.genre == Some(info.categories.value[0]))
      && (info.categories == Some([]) ==> b.genre.None?)
      && (info.imageLinks.None? ==> b.imageUrl == Some(PlaceholderCover))
      && (info.imageLinks.Some? ==> b.imageUrl == info.imageLinks.value.thumbnail)
      && b.description == (if Truthy(info.description) then info.description.value else NoDescription)
  {
  }

  /** A mapped book always has a title and a description. */
  lemma ToBookHasText(item: Item)
    requires item.volumeInfo.Some?
    ensures ToBook(item).value.title != "" && ToBook(item).value.description != ""
  {
  }

  /** `items.map(...)`: the books of all the volumes, or `None` as soon as one has no
      `volumeInfo` (the mapping throws). */
  function ToBooks(items: seq<Item>): (r: Option<seq<Book>>)
    ensures r.Some? ==> |r.value| == |items|
    ensures r.Some? ==> forall i :: 0 <= i < |items| ==> ToBook(items[i]) == Some(r.value[i])
  {
    if items == [] then Some([])
    else match (ToBook(items[0]), ToBooks(items[1..]))
      case (Some(b), Some(bs)) => Some([b] + bs)
      case _ => None
  }

  /** The mapping fails exactly when some volume has no `volumeInfo`. */
  lemma {:induction false} ToBooksFailsIff(items: seq<Item>)
    ensures ToBooks(items).None? <==> exists i :: 0 <= i < |items| && items[i].volumeInfo.None?
  {
    if items != [] {
      ToBooksFailsIff(items[1..]);
      if ToBooks(items).None? && items[0].volumeInfo.Some? {
        var i :| 0 <= i < |items[1..]| && items[1..][i].volumeInfo.None?;
        assert items[i + 1].volumeInfo.None?;
      }
      if ToBooks(items).Some? {
        assert forall i :: 0 <= i < |items| ==> ToBook(items[i]).Some?;
      }
    }
  }

  /** Mapped books keep the order and the ids of the volumes. */
  lemma SameIdsInOrder(items: seq<Item>)
    requires ToBooks(items).Some?
    ensures forall i :: 0 <= i < |items| ==> ToBooks(items).value[i].id == items[i].id
  {
  }

  // ---------------------------------------------------------------- the two calls

  /** What the search request gives: a failure (network error, a status that is not OK,
      a body that is not JSON) or the `items` of the body, possibly absent. */
  datatype SearchFetch = SearchFailed | SearchFetched(items: Option<seq<Item>>)

  /** The request `searchBooks` makes. */
  datatype SearchRequest = SearchRequest(query: string, maxResults: int)

  datatype SearchRun = SearchRun(request: Option<SearchRequest>, books: seq<Book>)

  /** `searchBooks(query, maxResults)`: no request for an empty query; every failure,
      including a volume without `volumeInfo`, gives no books. */
  function SearchBooks(query: string, maxResults: int, fetch: SearchFetch): (r: SearchRun)
    ensures query == "" ==> r == SearchRun(None, [])
    ensures query != "" ==> r.request == Some(SearchRequest(query, maxResults))
    ensures fetch.SearchFailed? || (fetch.SearchFetched? && fetch.items.None?) ==> r.books == []
    ensures query != "" && fetch.SearchFetched? && fetch.items.Some? && ToBooks(fetch.items.value).Some? ==>
      r.books == ToBooks(fetch.items.value).value
    ensures query != "" && fetch.SearchFetched? && fetch.items.Some? && ToBooks(fetch.items.value).None? ==>
      r.books == []
  {
    if query == "" then SearchRun(None, [])
    else
      var books := match fetch
        case SearchFailed => []
        case SearchFetched(None) => []
        case SearchFetched(Some(items)) => OrElseEmpty(ToBooks(items));
      SearchRun(Some(SearchRequest(query, maxResults)), books)
  }

  function OrElseEmpty(r: Option<seq<Book>>): seq<Book> {
    if r.Some? then r.value else []
  }

  /** A successful search returns one book per volume, in order, with the volume's id. */
  lemma SearchKeepsItems(query: string, maxResults: int, items: seq<Item>)
    requires query != ""
    requires forall i :: 0 <= i < |items| ==> items[i].volumeInfo.Some?
    ensures var books := SearchBooks(query, maxResults, SearchFetched(Some(items))).books;
      |books| == |items| && forall i :: 0 <= i < |items| ==> books[i].id == items[i].id && ToBook(items[i]) == Some(books[i])
  {
    ToBooksFailsIff(items);
  }

  /** What the request for one volume gives: a failure, or the body (`None` for `null`). */
  datatype VolumeFetch = VolumeFailed | VolumeFetched(item: Option<Item>)

  /** `getBookById(id)`: `null` for a falsy id, a failure, a `null` body or a body
      without `volumeInfo`; otherwise the same mapping as the search. */
  function GetBookById(id: Option<string>, fetch: VolumeFetch): (r: Option<Book>)
    ensures !Truthy(id) || fetch.VolumeFailed? ==> r.None?
    ensures Truthy(id) && fetch.VolumeFetched? && fetch.item.None? ==> r.None?
    ensures Truthy(id) && fetch.VolumeFetched? && fetch.item.Some? ==> r == ToBook(fetch.item.value)
  {
    if !Truthy(id) then None
    else match fetch
      case VolumeFailed => None
      case VolumeFetched(None) => None
      case VolumeFetched(Some(item)) => ToBook(item)
  }

  /** A volume fetched by id gives the same book as in a search result. */
  lemma ByIdAgreesWithSearch(id: string, query: string, item: Item)
    requires id != "" && query != "" && item.volumeInfo.Some?
    ensures SearchBooks(query, DefaultMaxResults, SearchFetched(Some([item]))).books
         == [GetBookById(Some(id), VolumeFetched(Some(item))).value]
  {
    var b := ToBook(item).value;
    assert [item][1..] == [] && ToBooks([]) == Some([]) && [b] + [] == [b];
    assert ToBooks([item]) == Some([b]);
  }
}
