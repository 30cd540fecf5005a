/**
 * The genre picker (`Genres`, src/Genres.jsx): a fixed table of 21 genres, one
 * button each; a click loads that genre's movies and selects the genre.
 */
module Genres {
  import opened Js
  import opened Api

  /** A genre button: its id, name, Tailwind colour classes and icon name. */
  datatype GenreEntry = GenreEntry(id: int, name: string, color: string, icon: string)

  /** `genresList`. */
  const GenresList: seq<GenreEntry> := [
    GenreEntry(1, "Crime", "from-red-500 to-pink-600", "mdi:police-badge"),
    GenreEntry(2, "Drama", "from-blue-500 to-cyan-600", "mdi:theater"),
    GenreEntry(3, "Action", "from-orange-500 to-red-600", "mdi:explosion"),
    GenreEntry(4, "Biography", "from-emerald-500 to-teal-600", "mdi:account-details"),
    GenreEntry(5, "History", "from-amber-500 to-orange-600", "mdi:castle"),
    GenreEntry(6, "Adventure", "from-green-500 to-emerald-600", "mdi:map-search"),
    GenreEntry(7, "Fantasy", "from-purple-500 to-indigo-600", "mdi:dragon"),
    GenreEntry(8, "Western", "from-yellow-500 to-amber-600", "mdi:cowboy"),
    GenreEntry(9, "Comedy", "from-lime-500 to-green-600", "mdi:emoticon-lol"),
    GenreEntry(10, "Sci-Fi", "from-indigo-500 to-purple-600", "mdi:robot-excited"),
    GenreEntry(11, "Mystery", "from-gray-500 to-blue-600", "mdi:magnify-expand"),
    GenreEntry(12, "Thriller", "from-rose-500 to-red-600", "mdi:ghost"),
    GenreEntry(13, "Family", "from-cyan-500 to-blue-600", "mdi:home-heart"),
    GenreEntry(14, "War", "from-stone-500 to-gray-600", "mdi:tank"),
    GenreEntry(15, "Animation", "from-pink-500 to-rose-600", "mdi:animation-play"),
    GenreEntry(16, "Romance", "from-red-500 to-pink-500", "mdi:heart-plus"),
    GenreEntry(17, "Horror", "from-zinc-500 to-gray-800", "mdi:skull-crossbones"),
    GenreEntry(18, "Music", "from-violet-500 to-purple-500", "mdi:music-clef-treble"),
    GenreEntry(19, "Film-Noir", "from-neutral-500 to-stone-700", "mdi:detective"),
    GenreEntry(20, "Musical", "from-fuchsia-500 to-purple-600", "mdi:microphone-variant"),
    GenreEntry(21, "Sport", "from-sky-500 to-blue-500", "mdi:trophy-award")
  ]

  /** The table's ids are 1 to 21 in order: the entry with id `g` sits at index `g - 1`. */
  lemma GenresListIds()
    ensures |GenresList| == 21
    ensures forall i :: 0 <= i < |GenresList| ==> GenresList[i].id == i + 1
  {
  }

  /** The ids ascend, so no two entries share an id. */
  lemma GenresListIdsAscend()
    ensures forall i, j :: 0 <= i < j < |GenresList| ==> GenresList[i].id < GenresList[j].id
  {
    GenresListIds();
  }

  /** Ids numbered from 1 by position. */
  predicate NumberedFromOne(table: seq<GenreEntry>)
  {
    forall i :: 0 <= i < |table| ==> table[i].id == i + 1
  }

  /** `find` by id on a table numbered from 1: the entry at index `id - 1`, if there is one. */
  function FindById(table: seq<GenreEntry>, genreId: int): (r: Option<GenreEntry>)
    requires NumberedFromOne(table)
    ensures r.Some? <==> 1 <= genreId <= |table|
    ensures r.Some? ==> r.value == table[genreId - 1] && r.value.id == genreId
  {
    assert 1 <= genreId <= |table| ==> table[genreId - 1].id == genreId;
    FindFirst(table, (e: GenreEntry) => e.id == genreId)
  }

  /** `genresList.find(genre => genre.id === genreId)`: the entry with that id, if any. */
  function GenreById(genreId: int): (r: Option<GenreEntry>)
    ensures r.Some? <==> 1 <= genreId <= 21
    ensures r.Some? ==> r.value == GenresList[genreId - 1] && r.value.id == genreId
  {
    GenresListIds();
    FindById(GenresList, genreId)
  }

  /** Every button's id finds its own entry. */
  lemma GenreByIdOfEntry(i: int)
    requires 0 <= i < |GenresList|
    ensures GenreById(GenresList[i].id) == Some(GenresList[i])
  {
    GenresListIds();
    var id := GenresList[i].id;
    assert id == i + 1;
    var r := GenreById(id);
    assert r.Some? && r.value == GenresList[id - 1];
  }

  class GenresPicker {
    var selectedGenre: Option<GenreEntry>
    var movies: seq<Movie>
    var loading: bool

    /** Mounting: no genre selected, no movies, not loading. */
    constructor ()
      ensures selectedGenre == None && movies == [] && !loading
    {
      selectedGenre := None;
      movies := [];
      loading := false;
    }

    /** `fetchMoviesByGenre` starts: `setLoading(true)`. */
    method BeginFetch()
      modifies this
      ensures loading && !ShowsEmptyMessage()
      ensures selectedGenre == old(selectedGenre) && movies == old(movies)
    {
      loading := true;
    }

    /**
     * `fetchMoviesByGenre` ends. On success the movies are replaced and the
     * genre with the requested id is selected; on failure the list is emptied
     * and the selection kept. Either way `loading` is cleared. A success without
     * `data` is outside the model.
     */
    method CompleteFetch(genreId: int, response: Response<MoviePage>)
      requires response.Ok? ==> response.body.data.Some?
      modifies this
      ensures !loading
      ensures response.Ok? ==> movies == response.body.data.value && selectedGenre == GenreById(genreId)
      ensures response.Ok? ==> MovieCount() == |response.body.data.value|
      ensures response.Failed? ==> movies == [] && selectedGenre == old(selectedGenre)
      ensures response.Failed? ==> (ShowsEmptyMessage() <==> old(selectedGenre).Some?)
    {
      if response.Ok? {
        movies := response.body.data.value;
        selectedGenre := GenreById(genreId);
      } else {
        movies := [];
      }
      loading := false;
    }

    /** The count in the results header (shown with the results section): the number of movies held. */
    function MovieCount(): nat
      reads this
    {
      |movies|
    }

    /** The results section is shown once a genre is selected. */
    predicate ShowsResults()
      reads this
    {
      selectedGenre.Some?
    }

    /**
     * "No movie in this genre" is shown inside the results section, so only
     * once a genre is selected, and then when not loading and the list is empty.
     */
    predicate ShowsEmptyMessage()
      reads this
    {
      ShowsResults() && !loading && |movies| == 0
    }
  }
}
