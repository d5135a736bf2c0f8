/** The browser's local storage as the page scripts use it: the favorites
    list kept under the `movies` key and the theme preference. The JSON text
    stored under a key is modelled by the value it encodes; properties that
    are undefined or null are None on both sides of the round trip. */
module Storage {
  import opened Js

  /** A movie as the pages handle it: a record from the movie database
      (id, title, poster_path, overview, release_date, vote_average), a
      stored favorite (poster instead of poster_path), or an entry of the
      manual add form (title and poster only). Fields the scripts never read
      are not modelled. */
  datatype Movie = Movie(
    id: Option<int>,
    title: Option<string>,
    poster: Option<string>,
    posterPath: Option<string>,
    overview: Option<string>,
    releaseDate: Option<string>,
    voteAverage: Option<real>)

  class LocalStorage {
    /** The list stored under `movies`; None while the key is absent. */
    var movies: Option<seq<Movie>>
    /** The value stored under `theme-preference`. */
    var themePreference: Option<string>

    constructor (movies: Option<seq<Movie>>, themePreference: Option<string>)
      ensures this.movies == movies && this.themePreference == themePreference
    {
      this.movies := movies;
      this.themePreference := themePreference;
    }

    /** `getFavoriteMovies`: the stored list, or the empty list while the
        key is absent. */
    function FavoriteMovies(): (favs: seq<Movie>)
      reads this
      ensures movies.None? ==> favs == []
      ensures movies.Some? ==> favs == movies.value
    {
      if movies.Some? then movies.value else []
    }
  }
}
