# Movie catalogue front end: pagination, page, search and genre state

A Dafny model of the state logic of a React front end for a movie catalogue
(moviesapi.ir). Three views are modelled:

- **Home listing** (`App`, src/App.jsx), module `App`, class `AppState`. It
  holds a page of movies, the page number, the search box text, a loading flag
  and the page count. Previous/Next buttons are shown only while the search box
  is empty. A search is sent only when the trimmed text is non-empty.
- **Genre page** (`GenrePage`, src/Genre.jsx), module `Genre`, class
  `GenrePage`. It shows one page of a genre's movies. The page number is read
  from the `page` query parameter and written back to it. The genre's name is
  looked up in the API's genre list. Its pager is the `Pagination` component,
  module `Pagination`. `getPageNumbers` is modelled both as the imperative
  method `GetPageNumbers` and as the function `PageWindow` that specifies it.
- **Genre picker** (`Genres`, src/Genres.jsx), module `Genres`, class
  `GenresPicker`. It holds the constant 21-entry table `genresList` and the
  `fetchMoviesByGenre` transitions.

Module `Js` models the JavaScript built-ins these views use: `||` on numbers,
`trim`, `Array.prototype.find`, `toString` and `parseInt` on decimal text.
Module `Api` holds the response shapes.

Each asynchronous handler or effect is split into a `Begin…` method and a
`Complete…` method. `Begin…` sets `loading`. `Complete…` takes the response as
an input and applies the rest of the handler as one step. A response is
`Ok(body)` or `Failed`. Each view's class states its full new state after every
step. `AppState.Valid()` says that the home page is never below 1 and the page
count is never 0, and every transition keeps it.

The display rules are predicates on the classes: `PrevDisabled`/`NextDisabled`,
`ShowsPagination`, `ShowsEmptyMessage`, `ShowsTopPagination`/`ShowsBottomPagination`,
`ShowsResults` and `MovieCount`. The methods' contracts say how each step
changes them. `AppState.NextDisabled` and `GenresPicker.ShowsResults` are
used only through other members: `NextPage`'s contract and `ShowsEmptyMessage`.

The listing request depends on the page alone (`App.ListingUrlInjective`). The
listing effect re-runs only when that request changes. So clearing a search
made on page 1 leaves the search results on screen. A successful search from a
later page moves to page 1, and that re-runs the listing.

## Model

| member | source | states |
|---|---|---|
| `Pagination.PageWindow` | src/Genre.jsx:86-97 | Every page button lies in `[1, totalPages]`. Each is one more than the one before. There are exactly `min(5, max(0, totalPages))` of them, for any current page. |
| `Pagination.GetPageNumbers` | src/Genre.jsx:85-99 | The loop pushes exactly the pages of `PageWindow`. |
| `Pagination.WindowHasCurrent` | src/Genre.jsx:88-97 | If `1 <= currentPage <= totalPages`, the current page is among the buttons. |
| `Pagination.WindowCentred` | src/Genre.jsx:88-93 | If `3 <= currentPage <= totalPages - 2`, the buttons are `currentPage-2 .. currentPage+2`. |
| `Pagination.WindowEndsAtLast` | src/Genre.jsx:89-93 | If the current page is within two of the last, the window is shifted left so it ends at `totalPages`. |
| `Pagination.WindowStartsAtFirst` | src/Genre.jsx:88-93 | If the current page is at most 3, the window starts at page 1. |
| `Pagination.PagerTargetsExist` | src/Genre.jsx:103-130 | With the current page in range, every page requested by an enabled Previous, an enabled Next or a page button is in `[1, totalPages]`. |
| `Genre.InitialPage` | src/Genre.jsx:147 | The initial page is the parsed `page` parameter. It is 1 when the parameter is absent, not a number, or 0. It is never 0, and negative values are kept. |
| `Genre.SyncQuery` | src/Genre.jsx:176-182 | The written query has only a `page` key. The key is present exactly when page > 1, and its text parses back to the page. |
| `Genre.InitialPageOfSyncQuery` | src/Genre.jsx:147-182 | Writing the page and reading it back gives the same page for every page >= 1, and 1 for any other page. |
| `Genre.TotalPagesOf` | src/Genre.jsx:158 | `totalPages` is `page_count`, or 1 when it is missing or 0. It is never 0. |
| `Genre.GenreLabel` | src/Genre.jsx:164-165 | The heading is never empty. It is the default label or the name of a listed genre whose id is the parsed route id. It is the default label when no listed genre has that id. When the first listed genre with that id has a non-empty name, the heading is that name; when the name is empty, it is the default label. |
| `Genre.GenrePage.constructor` | src/Genre.jsx:141-148 | Initial state: no movies, not loading, empty name, `totalPages` 1, page from `InitialPage`. |
| `Genre.GenrePage.BeginFetch` | src/Genre.jsx:152 | `loading` becomes true and nothing else changes. While loading, neither pager and no empty message show. |
| `Genre.GenrePage.CompleteFetch` | src/Genre.jsx:150-174 | `loading` ends false. A successful listing sets the movies and `totalPages`. The name is set only when the genre list also succeeds. A failed listing keeps everything else. The page never changes. After a successful listing, the top pager shows exactly when the new page count exceeds 1. The empty message shows exactly when `data` is missing or empty. The bottom pager shows exactly when there is more than one page and the message does not show. |
| `Genre.GenrePage.SyncSearchParams` | src/Genre.jsx:176-182 | The query string becomes `SyncQuery(page)`. For page >= 1, reading it back gives the page. Nothing else changes. |
| `Genre.GenrePage.HandlePageChange` | src/Genre.jsx:184-187 | Any requested page becomes current, unguarded. Nothing else changes. |
| `Genre.GenrePage.PageButtons` | src/Genre.jsx:205-211 | The page renders at most 5 page buttons, and the current page is among them when it is in range. |
| `App.ListingUrlInjective` | src/App.jsx:17 | Two listing URLs are equal exactly when their pages are equal. |
| `App.SearchUrlInjective` | src/App.jsx:18 | Two search URLs are equal exactly when their search texts are equal. |
| `App.ListingUrlIsNotSearchUrl` | src/App.jsx:17-18 | No listing URL equals any search URL. |
| `App.TotalPagesOf` | src/App.jsx:26 | `totalPages` is `last_page`, or 25 when it is missing or 0. It is never 0. |
| `App.AppState.constructor` | src/App.jsx:11-15 | Initial state: no movies, page 1, empty search, not loading, 25 pages. |
| `App.AppState.SetSearchWords` | src/App.jsx:101 | Typing replaces the search text and nothing else. |
| `App.AppState.BeginListing` | src/App.jsx:17-23 | `loading` becomes true and nothing else changes. The request sent is the listing URL of the current page. No empty message shows while loading. |
| `App.AppState.CompleteListing` | src/App.jsx:22-29 | On success the movies and `totalPages` are replaced. On failure they are kept. `loading` ends false either way, and the page and search text never change. Afterwards the empty message shows exactly when the list is empty. |
| `App.AppState.HandleSearch` | src/App.jsx:32-36 | A search is sent exactly when the search text is not all white space, and the request is the search URL of the text as typed. Only then does `loading` become true. Otherwise nothing changes. |
| `App.AppState.CompleteSearch` | src/App.jsx:36-42 | On success the results replace the movies and the page becomes 1, which disables Previous. On failure both are kept. `loading` ends false either way. Afterwards the empty message shows exactly when the list is empty. |
| `App.AppState.ClearSearch` | src/App.jsx:46-49 | The search text becomes empty and the page 1, so the pager shows with Previous disabled. Nothing else changes. |
| `App.AppState.PreviousPage` | src/App.jsx:127 | The page goes down by one only when it is above 1, so it never drops below 1. When Previous was disabled, the page does not change. |
| `App.AppState.NextPage` | src/App.jsx:143-144 | The page goes up by exactly one. When Next was enabled, the new page is at most `totalPages`. |
| `Genres.GenresListIds` | src/Genres.jsx:8-135 | The table has 21 entries and the entry at index `i` has id `i+1`. |
| `Genres.GenresListIdsAscend` | src/Genres.jsx:8-135 | Ids strictly ascend, so they are pairwise distinct. |
| `Genres.FindById` | src/Genres.jsx:149 | On a table numbered from 1, `find` by id returns the entry at index `id-1` exactly when the id is in range. Otherwise it returns nothing. |
| `Genres.GenreById` | src/Genres.jsx:149 | The lookup succeeds exactly for ids 1..21, and returns the entry with that id at index `id-1`. |
| `Genres.GenreByIdOfEntry` | src/Genres.jsx:183-186 | Each button's id finds its own entry. |
| `Genres.GenresPicker.constructor` | src/Genres.jsx:138-140 | Initial state: nothing selected, no movies, not loading. |
| `Genres.GenresPicker.BeginFetch` | src/Genres.jsx:143 | `loading` becomes true and nothing else changes. No empty message shows while loading. |
| `Genres.GenresPicker.CompleteFetch` | src/Genres.jsx:142-162 | On success the movies are replaced and the selection becomes the entry with the requested id. A genre is then selected, and the results section shows, exactly for ids 1..21. The displayed count is the number of movies received. On failure the movies are emptied and the selection is kept. The empty message then shows exactly when a genre was already selected, because it sits inside the results section (src/Genres.jsx:210). `loading` ends false either way. |
| `Js.LeadingBlanks` | src/App.jsx:33 | The count of leading characters removed by trimming. It is at most the length, every counted character is white space, and the next character is not. |
| `Js.TrailingBlanks` | src/App.jsx:33 | The count of trailing characters removed by trimming. It is at most the length, every counted character is white space, and the one before them is not. |
| `Js.TrimStart` | src/App.jsx:33 | Removing the leading white space leaves nothing exactly when the input is all white space. |
| `Js.TrimEnd` | src/App.jsx:33 | Removing the trailing white space leaves nothing exactly when the input is all white space. |
| `Js.TrimEmptyIffBlank` | src/App.jsx:33 | `trim()` gives the empty string exactly when every character is white space. |
| `Js.FindFirst` | src/Genres.jsx:149 | Returns nothing exactly when no element satisfies the test. Otherwise it returns a satisfying element with no satisfying element before it. |
| `Js.NatToString` | src/Genre.jsx:178 | The text of a number is non-empty and all decimal digits. |
| `Js.ParseInt` | src/Genre.jsx:147 | A parse succeeds only on a non-empty string of digits, optionally after a minus sign. |
| `Js.DigitsValueOfNatToString` | src/Genre.jsx:178 | The digits of `n` have value `n`. |
| `Js.ParseIntOfNatToString` | src/Genre.jsx:147-178 | Parsing the text of a non-negative integer gives that integer back. |
| `Js.ParseIntOfMinusDigits` | src/Genre.jsx:147 | A minus sign followed by digits parses to the negated value of the digits. |
| `Js.ParseIntOfNegativeToString` | src/Genre.jsx:147-178 | Parsing the text of a negative integer gives that integer back. |
| `Js.ParseIntOfIntToString` | src/Genre.jsx:147-178 | Parsing the text of any integer gives that integer back. |
| `Js.IntToStringInjective` | src/App.jsx:17 | Two integers have equal texts exactly when they are equal. |

## Left out

- Rendering is not modelled: JSX layout, Tailwind classes, icons, Persian UI text and the poster `onError` fallbacks. The display conditions are kept as predicates.
- The HTTP requests and the API's response schema are not modelled. Responses are inputs: `Ok` with a body whose `data`, `last_page` and `page_count` may each be absent, or `Failed`.
- The genre request URLs (src/Genre.jsx:155, src/Genres.jsx:146) are not modelled, because the responses are inputs.
- React's effect scheduling and re-render order are not modelled. Each handler or effect is a method call, and so are the `[id, page]` and `[url]` dependency re-runs. Requests that overlap and resolve out of order are not modelled.
- `setTimeout`/`scrollIntoView` (src/Genres.jsx:151-156) and `window.scrollTo` (src/Genre.jsx:186) are browser side effects and are not modelled.
- `console.error` diagnostics are not modelled.
- Js.ParseInt: it accepts only an optional minus sign followed by decimal digits. JavaScript's `parseInt` also accepts leading white space, a `+`, trailing characters ("3abc") and a `0x` prefix.
- Js.NatToString, Js.IntToString and Genre.InitialPageOfSyncQuery: numbers are unbounded integers here. JavaScript numbers are doubles, which hold integers exactly only up to 2^53; past that, `currentPage + 1` may not change the page. JavaScript also prints 10^21 and above in exponent form ("1e+21"), which `parseInt` reads back as 1. So the decimal-text round trip, and the page round trip through the query string, hold only for pages below both bounds.
- Js.IsWhitespace: it lists ECMAScript's WhiteSpace and LineTerminator code points, that is the space separators of Unicode 15 and the BOM. Later additions to the Unicode space-separator category are not tracked.
- The search text is put into the search URL as typed. The model does the same and does not URL-encode it.
- App.AppState.CompleteListing, App.AppState.CompleteSearch and Genres.GenresPicker.CompleteFetch require a successful response to carry `data`. The source stores `res.data.data` unchecked, and without `data` the list it renders would be `undefined`.
- Movies keep only an id and a title, which are the fields the logic keys on. The rest of the record (poster, year, country, rating, genres) is display only.
- Query strings are maps from a name to one value. Repeated parameters are not modelled.
- src/SingleMovie.jsx and src/Routers.jsx are not part of this model. They hold one fetch with null checks, and a route table matched by react-router.
