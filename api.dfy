/**
 * What the views receive from the movie catalogue's REST API. The requests
 * themselves are not modelled: each handler takes the response it got as an input.
 */
module Api {
  import opened Js

  /** A catalogue record; only the fields the views key and label by. */
  datatype Movie = Movie(id: int, title: string)

  /** An entry of the API's genre list. */
  datatype Genre = Genre(id: int, name: string)

  /**
   * The body of a paged listing: `data` and the `metadata.last_page` and
   * `metadata.page_count` fields, each possibly absent.
   */
  datatype MoviePage = MoviePage(data: Option<seq<Movie>>, lastPage: Option<int>, pageCount: Option<int>)

  /** A request either resolves with a body or rejects (network error, non-2xx status). */
  datatype Response<+T> = Ok(body: T) | Failed
}
