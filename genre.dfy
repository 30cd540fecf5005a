/**
 * The genre listing page (`GenrePage`, src/Genre.jsx): one page of a genre's
 * movies, the page number mirrored into the `page` query parameter, the genre's
 * name looked up in the API's genre list.
 */
module Genre {
  import opened Js
  import opened Api
  import Pagination

  /** The heading shown when the genre is unknown: the Persian word for "genre". */
  const DefaultGenreLabel := "\U{0698}\U{0627}\U{0646}\U{0631}"

  /** The query string, one value per parameter name. */
  type Query = map<string, string>

  /**
   * The initial page: `parseInt` of the `page` parameter, or 1 when it is
   * absent, not a number, or 0. Negative pages are kept.
   */
  function InitialPage(query: Query): (page: int)
    ensures page != 0
    ensures "page" !in query ==> page == 1
    ensures "page" in query ==> match ParseInt(query["page"])
                                  case Some(n) => page == (if n == 0 then 1 else n)
                                  case None => page == 1
  {
    OrIfFalsy(if "page" in query then ParseInt(query["page"]) else None, 1)
  }

  /**
   * The query string the page writes back: only a `page` parameter holding the
   * page's text, and only past the first page.
   */
  function SyncQuery(page: int): (query: Query)
    ensures "page" in query <==> page > 1
    ensures query.Keys <= {"page"}
    ensures "page" in query ==> ParseInt(query["page"]) == Some(page)
  {
    ParseIntOfIntToString(page);
    if page > 1 then map["page" := IntToString(page)] else map[]
  }

  /**
   * Writing the page into the query string and reading it back gives the same
   * page for every page from 1 on; other pages come back as page 1.
   */
  lemma InitialPageOfSyncQuery(page: int)
    ensures InitialPage(SyncQuery(page)) == if page >= 1 then page else 1
  {
  }

  /** `totalPages` after a listing: `metadata.page_count`, or 1 when missing or 0. */
  function TotalPagesOf(body: MoviePage): (total: int)
    ensures total != 0
    ensures body.pageCount.Some? && body.pageCount.value != 0 ==> total == body.pageCount.value
    ensures body.pageCount.None? || body.pageCount == Some(0) ==> total == 1
  {
    OrIfFalsy(body.pageCount, 1)
  }

  /** The movies after a listing: `data`, or none when it is missing. */
  function MoviesOf(body: MoviePage): seq<Movie>
  {
    if body.data.Some? then body.data.value else []
  }

  /**
   * The heading: the name of the first listed genre whose id is the route's id,
   * or the default label when the id does not parse, no genre has it, or its
   * name is empty.
   */
  function GenreLabel(genres: seq<Genre>, routeId: string): (heading: string)
    ensures heading != ""
    ensures heading == DefaultGenreLabel ||
            exists i :: 0 <= i < |genres| && ParseInt(routeId) == Some(genres[i].id) && heading == genres[i].name
    ensures (forall i :: 0 <= i < |genres| ==> ParseInt(routeId) != Some(genres[i].id)) ==>
            heading == DefaultGenreLabel
    ensures forall i :: 0 <= i < |genres| && ParseInt(routeId) == Some(genres[i].id) &&
                        (forall j :: 0 <= j < i ==> ParseInt(routeId) != Some(genres[j].id)) ==>
                        heading == if genres[i].name != "" then genres[i].name else DefaultGenreLabel
  {
    var genre := FindFirst(genres, (g: Genre) => ParseInt(routeId) == Some(g.id));
    assert forall i :: 0 <= i < |genres| && ParseInt(routeId) == Some(genres[i].id) &&
                       (forall j :: 0 <= j < i ==> ParseInt(routeId) != Some(genres[j].id)) ==>
                       genre == Some(genres[i]) by {
      forall i | 0 <= i < |genres| && ParseInt(routeId) == Some(genres[i].id) &&
                 (forall j :: 0 <= j < i ==> ParseInt(routeId) != Some(genres[j].id))
        ensures genre == Some(genres[i])
      {
        var k :| 0 <= k < |genres| && genres[k] == genre.value && ParseInt(routeId) == Some(genres[k].id) &&
                 forall j :: 0 <= j < k ==> ParseInt(routeId) != Some(genres[j].id);
        assert k == i;
      }
    }
    if genre.Some? && genre.value.name != "" then genre.value.name else DefaultGenreLabel
  }

  class GenrePage {
    /** The `:id` route parameter. */
    const routeId: string
    var searchParams: Query
    var movies: seq<Movie>
    var loading: bool
    var genreName: string
    var page: int
    var totalPages: int

    ghost predicate Valid()
      reads this
    {
      totalPages != 0
    }

    /** Mounting: the state hooks' initial values, the page read from the query string. */
    constructor (routeId: string, searchParams: Query)
      ensures Valid()
      ensures this.routeId == routeId && this.searchParams == searchParams
      ensures movies == [] && !loading && genreName == ""
      ensures page == InitialPage(searchParams) && totalPages == 1
    {
      this.routeId := routeId;
      this.searchParams := searchParams;
      movies := [];
      loading := false;
      genreName := "";
      page := InitialPage(searchParams);
      totalPages := 1;
    }

    /** The fetch effect starts: `setLoading(true)`. */
    method BeginFetch()
      requires Valid()
      modifies this
      ensures Valid() && loading
      ensures !ShowsTopPagination() && !ShowsBottomPagination() && !ShowsEmptyMessage()
      ensures movies == old(movies) && genreName == old(genreName) && page == old(page)
      ensures totalPages == old(totalPages) && searchParams == old(searchParams)
    {
      loading := true;
    }

    /**
     * The fetch effect ends, given the listing response and, when the listing
     * succeeded, the genre-list response. A failed listing changes nothing but
     * `loading`; a failed genre list keeps the previous name.
     */
    method CompleteFetch(listing: Response<MoviePage>, genres: Response<seq<Genre>>)
      requires Valid()
      modifies this
      ensures Valid() && !loading
      ensures listing.Ok? ==> movies == MoviesOf(listing.body) && totalPages == TotalPagesOf(listing.body)
      ensures listing.Failed? ==> movies == old(movies) && totalPages == old(totalPages)
      ensures genreName == if listing.Ok? && genres.Ok? then GenreLabel(genres.body, routeId)
                           else old(genreName)
      ensures listing.Ok? ==> (ShowsTopPagination() <==> TotalPagesOf(listing.body) > 1)
      ensures listing.Ok? ==> (ShowsEmptyMessage() <==> listing.body.data.None? || listing.body.data == Some([]))
      ensures listing.Ok? ==> (ShowsBottomPagination() <==> TotalPagesOf(listing.body) > 1 && !ShowsEmptyMessage())
      ensures page == old(page) && searchParams == old(searchParams)
    {
      if listing.Ok? {
        movies := MoviesOf(listing.body);
        totalPages := TotalPagesOf(listing.body);
        if genres.Ok? {
          genreName := GenreLabel(genres.body, routeId);
        }
      }
      loading := false;
    }

    /** The query-string effect: the page is written back into the URL. */
    method SyncSearchParams()
      requires Valid()
      modifies this
      ensures Valid() && searchParams == SyncQuery(page)
      ensures page >= 1 ==> InitialPage(searchParams) == page
      ensures movies == old(movies) && loading == old(loading) && genreName == old(genreName)
      ensures page == old(page) && totalPages == old(totalPages)
    {
      searchParams := SyncQuery(page);
      InitialPageOfSyncQuery(page);
    }

    /** `handlePageChange`: any page the pager asks for becomes the current page. */
    method HandlePageChange(newPage: int)
      requires Valid()
      modifies this
      ensures Valid() && page == newPage
      ensures movies == old(movies) && loading == old(loading) && genreName == old(genreName)
      ensures totalPages == old(totalPages) && searchParams == old(searchParams)
    {
      page := newPage;
    }

    /** The pager above the grid: shown when not loading and there is more than one page. */
    predicate ShowsTopPagination()
      reads this
    {
      !loading && totalPages > 1
    }

    /** The pager below the grid: shown when there is more than one page and some movie. */
    predicate ShowsBottomPagination()
      reads this
    {
      !loading && totalPages > 1 && |movies| > 0
    }

    /** "No movie found" is shown when not loading and the page is empty. */
    predicate ShowsEmptyMessage()
      reads this
    {
      !loading && |movies| == 0
    }

    /** The pager's buttons as this page renders them. */
    function PageButtons(): (pages: seq<int>)
      reads this
      ensures |pages| <= Pagination.ShowPages
      ensures 1 <= page <= totalPages ==> page in pages
    {
      assert 1 <= page <= totalPages ==> page in Pagination.PageWindow(page, totalPages) by {
        if 1 <= page <= totalPages {
          Pagination.WindowHasCurrent(page, totalPages);
        }
      }
      Pagination.PageWindow(page, totalPages)
    }
  }
}
