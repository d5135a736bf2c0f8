/** The manual "add a movie" form: a second way into the favorites list,
    which trims its two inputs, ignores a blank title, and appends a
    title-and-poster entry unless a stored entry already has that title,
    compared without regard to case. */
module AddForm {
  import opened Js
  import opened Storage
  import opened Favorites

  /** The `{title, poster}` entry the form stores: no id and no other field. */
  function FormEntry(title: string, poster: string): (m: Movie)
    ensures m.title == Some(title) && m.poster == Some(poster)
    ensures !IdTruthy(m.id) && m.id.None?
    ensures m.posterPath.None? && m.overview.None? && m.releaseDate.None? && m.voteAverage.None?
  {
    Movie(None, Some(title), Some(poster), None, None, None, None)
  }

  /** Some stored entry has this title, compared case-insensitively, a
      missing stored title counting as ''. This is exactly the page's
      `isFavorite` for an entry without an id. */
  predicate TitleTaken(movies: seq<Movie>, title: string)
    ensures TitleTaken(movies, title) <==> IsFavorite(movies, FormEntry(title, ""))
  {
    exists i :: 0 <= i < |movies| && TitleKey(movies[i].title) == TitleKey(Some(title))
  }

  /** The list after a submit with the raw field values. Existing entries
      keep their places; one entry is added exactly when the trimmed title is
      not blank and not yet taken, and it is the trimmed pair. */
  function Submitted(movies: seq<Movie>, titleField: string, posterField: string): (r: seq<Movie>)
    ensures |movies| <= |r| <= |movies| + 1 && r[..|movies|] == movies
    ensures |r| == |movies| + 1 <==>
              !AllWhitespace(titleField) && !TitleTaken(movies, Trim(titleField))
    ensures |r| == |movies| + 1 ==> r[|movies|] == FormEntry(Trim(titleField), Trim(posterField))
  {
    var title := Trim(titleField);
    var poster := Trim(posterField);
    if title == "" || TitleTaken(movies, title) then movies
    else movies + [FormEntry(title, poster)]
  }

  /** After a submit with a non-blank title, that title is taken. */
  lemma SubmittedTakesTitle(movies: seq<Movie>, titleField: string, posterField: string)
    requires !AllWhitespace(titleField)
    ensures TitleTaken(Submitted(movies, titleField, posterField), Trim(titleField))
  {
    var r := Submitted(movies, titleField, posterField);
    if |r| == |movies| {
      assert r == movies;
    } else {
      assert TitleKey(r[|movies|].title) == TitleKey(Some(Trim(titleField)));
    }
  }

  /** Submitting the same title twice, whatever the posters, has the effect
      of submitting it once. */
  lemma SubmitTwiceIsOnce(movies: seq<Movie>, titleField: string, poster1: string, poster2: string)
    ensures Submitted(Submitted(movies, titleField, poster1), titleField, poster2) ==
            Submitted(movies, titleField, poster1)
  {
    if !AllWhitespace(titleField) {
      SubmittedTakesTitle(movies, titleField, poster1);
    }
  }

  /** A form entry is never matched by a movie whose id is truthy, so the
      page's own add can store the same title a second time. */
  lemma FormEntryNotMatchedById(title: string, poster: string, movie: Movie)
    requires IdTruthy(movie.id)
    ensures !Matches(FormEntry(title, poster), movie)
  {
  }

  /** On a list where the title is not taken and no entry has the movie's
      id, a form entry followed by the page's add of a movie with a truthy
      id and the same title appends two entries whose titles compare equal. */
  lemma SameTitleStoredTwice(movies: seq<Movie>, titleField: string, posterField: string, movie: Movie)
    requires !AllWhitespace(titleField) && IdTruthy(movie.id)
    requires movie.title == Some(Trim(titleField))
    requires !TitleTaken(movies, Trim(titleField))
    requires forall i :: 0 <= i < |movies| ==> movies[i].id != movie.id
    ensures var r := Added(Submitted(movies, titleField, posterField), movie);
            |r| == |movies| + 2 && r[..|movies|] == movies &&
            TitleKey(r[|movies|].title) == TitleKey(r[|movies| + 1].title)
  {
    var entry := FormEntry(Trim(titleField), Trim(posterField));
    var first := Submitted(movies, titleField, posterField);
    assert first == movies + [entry];
    FormEntryNotMatchedById(Trim(titleField), Trim(posterField), movie);
    forall i | 0 <= i < |first| ensures !Matches(first[i], movie) {
      if i < |movies| { assert first[i] == movies[i]; }
    }
    AddedAppendsOnce(first, movie);
  }

  /** The submit handler. A blank title returns before storage is read and
      without redirecting; otherwise the list is written back only when the
      entry was appended, and the page then redirects to the movie list. */
  method SubmitForm(storage: LocalStorage, titleField: string, posterField: string)
      returns (redirected: bool)
    modifies storage
    ensures redirected <==> !AllWhitespace(titleField)
    ensures storage.FavoriteMovies() ==
              Submitted(old(storage.FavoriteMovies()), titleField, posterField)
    ensures |storage.FavoriteMovies()| == |old(storage.FavoriteMovies())| ==>
              storage.movies == old(storage.movies)
    ensures storage.themePreference == old(storage.themePreference)
  {
    var title := Trim(titleField);
    var poster := Trim(posterField);
    if title == "" {
      return false;
    }
    var movie := FormEntry(title, poster);
    var movies := storage.FavoriteMovies();
    var taken := TitleTaken(movies, title);
    if !taken {
      movies := movies + [movie];
      storage.movies := Some(movies);
    }
    return true;
  }
}
