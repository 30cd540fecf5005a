/**
 * The home listing (`App`, src/App.jsx): a paged movie list, or the results of
 * a title search, with Previous/Next buttons shown while no search text is typed.
 */
module App {
  import opened Js
  import opened Api

  const MoviesEndpoint := "https://moviesapi.ir/api/v1/movies"

  /** `totalPages` before the first listing arrives, and when it has no `last_page`. */
  const DefaultTotalPages := 25

  /** The listing request for a page (`url`). */
  function ListingUrl(page: int): string
  {
    MoviesEndpoint + "?page=" + IntToString(page)
  }

  /** The search request for the typed text, sent as typed (`searchUrl`). */
  function SearchUrl(searchWords: string): string
  {
    MoviesEndpoint + "?q=" + searchWords
  }

  /** The listing URL depends on the page alone, and on all of it: the listing effect re-runs exactly when the page changes. */
  lemma ListingUrlInjective(p: int, q: int)
    ensures ListingUrl(p) == ListingUrl(q) <==> p == q
  {
    var prefix := MoviesEndpoint + "?page=";
    if ListingUrl(p) == ListingUrl(q) {
      assert IntToString(p) == ListingUrl(p)[|prefix|..];
      assert IntToString(q) == ListingUrl(q)[|prefix|..];
      IntToStringInjective(p, q);
    }
  }

  /** The search URL depends on the typed text alone, and on all of it. */
  lemma SearchUrlInjective(a: string, b: string)
    ensures SearchUrl(a) == SearchUrl(b) <==> a == b
  {
    var prefix := MoviesEndpoint + "?q=";
    if SearchUrl(a) == SearchUrl(b) {
      assert a == SearchUrl(a)[|prefix|..];
      assert b == SearchUrl(b)[|prefix|..];
    }
  }

  /** No listing request is ever a search request. */
  lemma ListingUrlIsNotSearchUrl(page: int, searchWords: string)
    ensures ListingUrl(page) != SearchUrl(searchWords)
  {
    var k := |MoviesEndpoint| + 1;
    assert ListingUrl(page)[k] == 'p';
    assert SearchUrl(searchWords)[k] == 'q';
  }

  /** `totalPages` after a listing: `metadata.last_page`, or 25 when missing or 0. */
  function TotalPagesOf(body: MoviePage): (total: int)
    ensures total != 0
    ensures body.lastPage.Some? && body.lastPage.value != 0 ==> total == body.lastPage.value
    ensures body.lastPage.None? || body.lastPage == Some(0) ==> total == DefaultTotalPages
  {
    OrIfFalsy(body.lastPage, DefaultTotalPages)
  }

  class AppState {
    var movies: seq<Movie>
    var page: int
    var searchWords: string
    var loading: bool
    var totalPages: int

    /** The page never drops below 1 and the page count is never 0. */
    ghost predicate Valid()
      reads this
    {
      page >= 1 && totalPages != 0
    }

    /** Mounting: the state hooks' initial values. */
    constructor ()
      ensures Valid()
      ensures movies == [] && page == 1 && searchWords == "" && !loading
      ensures totalPages == DefaultTotalPages
    {
      movies := [];
      page := 1;
      searchWords := "";
      loading := false;
      totalPages := DefaultTotalPages;
    }

    /** Typing in the search box. */
    method SetSearchWords(text: string)
      requires Valid()
      modifies this
      ensures Valid() && searchWords == text
      ensures movies == old(movies) && page == old(page) && loading == old(loading)
      ensures totalPages == old(totalPages)
    {
      searchWords := text;
    }

    /** The listing effect starts: it sets `loading` and requests the current page. */
    method BeginListing() returns (request: string)
      requires Valid()
      modifies this
      ensures Valid() && loading
      ensures request == ListingUrl(page)
      ensures !ShowsEmptyMessage()
      ensures movies == old(movies) && page == old(page) && searchWords == old(searchWords)
      ensures totalPages == old(totalPages)
    {
      loading := true;
      request := ListingUrl(page);
    }

    /**
     * The listing effect ends. On success the movies and the page count are
     * replaced; either way `loading` is cleared. A success without `data` is
     * outside the model: the component would keep `undefined` as its list.
     */
    method CompleteListing(response: Response<MoviePage>)
      requires Valid()
      requires response.Ok? ==> response.body.data.Some?
      modifies this
      ensures Valid() && !loading
      ensures response.Ok? ==> movies == response.body.data.value && totalPages == TotalPagesOf(response.body)
      ensures ShowsEmptyMessage() <==> movies == []
      ensures response.Failed? ==> movies == old(movies) && totalPages == old(totalPages)
      ensures page == old(page) && searchWords == old(searchWords)
    {
      if response.Ok? {
        movies := response.body.data.value;
        totalPages := TotalPagesOf(response.body);
      }
      loading := false;
    }

    /**
     * `handleSearch`: sends the search for the typed text (and sets `loading`)
     * only when the text is not blank after trimming; otherwise nothing changes.
     */
    method HandleSearch() returns (request: Option<string>)
      requires Valid()
      modifies this
      ensures Valid()
      ensures request.Some? <==> !IsBlank(searchWords)
      ensures request.Some? ==> request.value == SearchUrl(searchWords)
      ensures loading == (request.Some? || old(loading))
      ensures movies == old(movies) && page == old(page) && searchWords == old(searchWords)
      ensures totalPages == old(totalPages)
    {
      TrimEmptyIffBlank(searchWords);
      request := None;
      if Trim(searchWords) != "" {
        loading := true;
        request := Some(SearchUrl(searchWords));
      }
    }

    /** The search resolves: its results replace the list and the page goes back to 1. */
    method CompleteSearch(response: Response<MoviePage>)
      requires Valid()
      requires response.Ok? ==> response.body.data.Some?
      modifies this
      ensures Valid() && !loading
      ensures response.Ok? ==> movies == response.body.data.value && page == 1 && PrevDisabled()
      ensures ShowsEmptyMessage() <==> movies == []
      ensures response.Failed? ==> movies == old(movies) && page == old(page)
      ensures searchWords == old(searchWords) && totalPages == old(totalPages)
    {
      if response.Ok? {
        movies := response.body.data.value;
        page := 1;
      }
      loading := false;
    }

    /** `clearSearch`: empties the search box and goes back to page 1; nothing else changes. */
    method ClearSearch()
      requires Valid()
      modifies this
      ensures Valid() && searchWords == "" && page == 1
      ensures ShowsPagination() && PrevDisabled()
      ensures movies == old(movies) && loading == old(loading) && totalPages == old(totalPages)
    {
      searchWords := "";
      page := 1;
    }

    /** Previous: goes back one page only when past the first page. */
    method PreviousPage()
      requires Valid()
      modifies this
      ensures Valid()
      ensures page == if old(page) > 1 then old(page) - 1 else old(page)
      ensures old(PrevDisabled()) ==> page == old(page)
      ensures movies == old(movies) && searchWords == old(searchWords) && loading == old(loading)
      ensures totalPages == old(totalPages)
    {
      if page > 1 {
        page := page - 1;
      }
    }

    /** Next: goes forward one page; the handler has no guard, the button is disabled instead. */
    method NextPage()
      requires Valid()
      modifies this
      ensures Valid() && page == old(page) + 1
      ensures !old(NextDisabled()) ==> page <= totalPages
      ensures movies == old(movies) && searchWords == old(searchWords) && loading == old(loading)
      ensures totalPages == old(totalPages)
    {
      page := page + 1;
    }

    predicate PrevDisabled()
      reads this
    {
      page <= 1
    }

    predicate NextDisabled()
      reads this
    {
      page >= totalPages
    }

    /** The Previous/Next bar is shown only while the search box is empty. */
    predicate ShowsPagination()
      reads this
    {
      searchWords == ""
    }

    /** "No movie found" is shown when the list is empty and nothing is loading. */
    predicate ShowsEmptyMessage()
      reads this
    {
      |movies| == 0 && !loading
    }
  }
}
