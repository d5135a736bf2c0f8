/** The favorites list of the movie page: how a movie is matched against a
    stored entry, the record that is stored for it, and the effect of adding
    and removing a favorite on the list. */
module Favorites {
  import opened Js
  import opened Storage

  /** Prefix of the image URL built from a movie's poster_path. */
  const PosterBase := "https://image.tmdb.org/t/p/w500"

  /** `(title || '').toLowerCase()`: the key titles are compared by. */
  function TitleKey(title: Option<string>): (key: string)
    ensures title.None? ==> key == ""
    ensures title.Some? ==> key == Lower(title.value)
  {
    Lower(OrElse(title, ""))
  }

  /** The entry `entry` is the same favorite as `movie`: by id when the
      movie's id is truthy, otherwise by case-insensitive title, a missing
      title counting as ''. */
  predicate Matches(entry: Movie, movie: Movie)
    ensures IdTruthy(movie.id) ==> (Matches(entry, movie) <==> entry.id == movie.id)
    ensures !IdTruthy(movie.id) ==>
              (Matches(entry, movie) <==> Lower(OrElse(entry.title, "")) == Lower(OrElse(movie.title, "")))
    ensures !IdTruthy(movie.id) && entry.title == movie.title ==> Matches(entry, movie)
  {
    if IdTruthy(movie.id) then entry.id == movie.id
    else TitleKey(entry.title) == TitleKey(movie.title)
  }

  /** `isFavorite`: some stored entry matches the movie. */
  predicate IsFavorite(favs: seq<Movie>, movie: Movie)
    ensures IdTruthy(movie.id) ==>
              (IsFavorite(favs, movie) <==> exists i :: 0 <= i < |favs| && favs[i].id == movie.id)
    ensures !IdTruthy(movie.id) ==>
              (IsFavorite(favs, movie) <==>
               exists i :: 0 <= i < |favs| && TitleKey(favs[i].title) == TitleKey(movie.title))
    ensures favs == [] ==> !IsFavorite(favs, movie)
  {
    exists i :: 0 <= i < |favs| && Matches(favs[i], movie)
  }

  /** `normalizeForStorage`: the six stored fields. The poster is the movie's
      own poster when truthy, else the URL built from a truthy poster_path,
      else null; so an empty poster is never stored, and the record matches
      the movie it was built from. */
  function NormalizeForStorage(movie: Movie): (r: Movie)
    ensures r.id == movie.id && r.title == movie.title
    ensures r.overview == movie.overview && r.releaseDate == movie.releaseDate
    ensures r.voteAverage == movie.voteAverage
    ensures r.posterPath == None
    ensures Truthy(movie.poster) ==> r.poster == movie.poster
    ensures !Truthy(movie.poster) && Truthy(movie.posterPath) ==>
              r.poster == Some(PosterBase + movie.posterPath.value)
    ensures !Truthy(movie.poster) && !Truthy(movie.posterPath) ==> r.poster == None
    ensures r.poster == None || Truthy(r.poster)
    ensures Matches(r, movie)
  {
    var ownPoster := if Truthy(movie.poster) then movie.poster else None;
    var poster := if !Truthy(ownPoster) && Truthy(movie.posterPath)
                  then Some(PosterBase + movie.posterPath.value) else ownPoster;
    Movie(movie.id, movie.title, poster, None, movie.overview, movie.releaseDate, movie.voteAverage)
  }

  /** The list after `addFavorite(movie)`: the movie is a favorite afterwards,
      the earlier entries keep their places, and at most one entry is added. */
  function Added(favs: seq<Movie>, movie: Movie): (r: seq<Movie>)
    ensures IsFavorite(r, movie)
    ensures |favs| <= |r| <= |favs| + 1 && r[..|favs|] == favs
  {
    if IsFavorite(favs, movie) then favs
    else
      var r := favs + [NormalizeForStorage(movie)];
      assert Matches(r[|favs|], movie);
      r
  }

  /** The list after `removeFavorite(movie)`, i.e. `favs.filter` keeping the
      entries that do not match: no match is left, and every survivor is an
      entry of the original list. */
  function Without(favs: seq<Movie>, movie: Movie): (r: seq<Movie>)
    ensures !IsFavorite(r, movie)
    ensures multiset(r) <= multiset(favs)
  {
    if favs == [] then []
    else
      var rest := Without(favs[1..], movie);
      assert favs == [favs[0]] + favs[1..];
      if Matches(favs[0], movie) then rest
      else
        assert forall i :: 1 <= i < |rest| + 1 ==> ([favs[0]] + rest)[i] == rest[i - 1];
        [favs[0]] + rest
  }

  /** Adding a movie that is already a favorite leaves the list as it is;
      adding one that is not appends exactly its normalised record. */
  lemma AddedAppendsOnce(favs: seq<Movie>, movie: Movie)
    ensures IsFavorite(favs, movie) ==> Added(favs, movie) == favs
    ensures !IsFavorite(favs, movie) ==> Added(favs, movie) == favs + [NormalizeForStorage(movie)]
  {
  }

  /** `addFavorite` is idempotent. */
  lemma AddedIdempotent(favs: seq<Movie>, movie: Movie)
    ensures Added(Added(favs, movie), movie) == Added(favs, movie)
  {
  }

  /** Removing leaves the list unchanged exactly when the movie was not a
      favorite. */
  lemma {:induction false} WithoutUnchanged(favs: seq<Movie>, movie: Movie)
    ensures Without(favs, movie) == favs <==> !IsFavorite(favs, movie)
  {
    if favs != [] && !IsFavorite(favs, movie) {
      assert !Matches(favs[0], movie);
      forall i | 0 <= i < |favs| - 1 ensures !Matches(favs[1..][i], movie) {
        assert favs[1..][i] == favs[i + 1];
      }
      WithoutUnchanged(favs[1..], movie);
      assert favs == [favs[0]] + favs[1..];
    }
  }

  /** Removal keeps order: it filters each part of a list separately. */
  lemma {:induction false} WithoutConcat(a: seq<Movie>, b: seq<Movie>, movie: Movie)
    ensures Without(a + b, movie) == Without(a, movie) + Without(b, movie)
  {
    if a == [] {
      assert a + b == b;
    } else {
      assert (a + b)[0] == a[0];
      assert (a + b)[1..] == a[1..] + b;
      WithoutConcat(a[1..], b, movie);
    }
  }

  /** Removal drops every copy of a matching entry and keeps every copy of
      a non-matching one. */
  lemma {:induction false} WithoutCounts(favs: seq<Movie>, movie: Movie, e: Movie)
    ensures multiset(Without(favs, movie))[e] ==
              if Matches(e, movie) then 0 else multiset(favs)[e]
  {
    if favs == [] {
    } else {
      WithoutCounts(favs[1..], movie, e);
      assert favs == [favs[0]] + favs[1..];
      assert multiset(favs) == multiset([favs[0]]) + multiset(favs[1..]);
      if !Matches(favs[0], movie) {
        var rest := Without(favs[1..], movie);
        assert multiset([favs[0]] + rest) == multiset([favs[0]]) + multiset(rest);
      }
    }
  }

  /** Removing right after adding a new favorite restores the list. */
  lemma RemoveUndoesAdd(favs: seq<Movie>, movie: Movie)
    requires !IsFavorite(favs, movie)
    ensures Without(Added(favs, movie), movie) == favs
  {
    WithoutConcat(favs, [NormalizeForStorage(movie)], movie);
    WithoutUnchanged(favs, movie);
    assert [NormalizeForStorage(movie)][1..] == [];
  }
}
