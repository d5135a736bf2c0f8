/** The movie page's state outside the DOM: the light/dark theme, the
    "show only favorites" flag, and the handlers that add and remove
    favorites in local storage. */
module App {
  import opened Js
  import opened Storage
  import opened Favorites

  /** `dataset.theme || 'light'`: the theme in force. */
  function CurrentTheme(theme: Option<string>): (current: string)
    ensures current != ""
    ensures Truthy(theme) ==> current == theme.value
    ensures !Truthy(theme) ==> current == "light"
  {
    OrElse(theme, "light")
  }

  /** The theme the toggle button switches to: light from dark, dark from
      anything else. */
  function ToggledTheme(theme: Option<string>): (r: string)
    ensures r == "light" || r == "dark"
    ensures r == "light" <==> CurrentTheme(theme) == "dark"
  {
    if CurrentTheme(theme) == "dark" then "light" else "dark"
  }

  /** From light or dark, toggling twice restores the theme in force; from any
      other value, two toggles end in light. */
  lemma ToggleTwice(theme: Option<string>)
    ensures CurrentTheme(theme) == "light" || CurrentTheme(theme) == "dark" ==>
              CurrentTheme(Some(ToggledTheme(Some(ToggledTheme(theme))))) == CurrentTheme(theme)
    ensures CurrentTheme(theme) != "light" && CurrentTheme(theme) != "dark" ==>
              CurrentTheme(Some(ToggledTheme(Some(ToggledTheme(theme))))) == "light"
  {
  }

  class Page {
    /** The browser storage the page reads and writes. */
    const storage: LocalStorage
    /** `document.documentElement.dataset.theme`. */
    var theme: Option<string>
    /** `showingOnlyFavorites`. */
    var showingOnlyFavorites: bool

    constructor (storage: LocalStorage, theme: Option<string>)
      ensures this.storage == storage && this.theme == theme
      ensures !showingOnlyFavorites
    {
      this.storage := storage;
      this.theme := theme;
      showingOnlyFavorites := false;
    }

    /** The theme button's click handler: switch the theme and remember it. */
    method ToggleTheme()
      modifies this, storage
      ensures theme == Some(ToggledTheme(old(theme)))
      ensures storage.themePreference == theme
      ensures storage.movies == old(storage.movies)
      ensures showingOnlyFavorites == old(showingOnlyFavorites)
    {
      var newTheme := ToggledTheme(theme);
      theme := Some(newTheme);
      storage.themePreference := Some(newTheme);
    }

    /** `addFavorite`: nothing is written when the movie is already a
        favorite; otherwise its normalised record is appended and the list
        written back. */
    method AddFavorite(movie: Movie)
      modifies storage
      ensures storage.FavoriteMovies() == Added(old(storage.FavoriteMovies()), movie)
      ensures IsFavorite(old(storage.FavoriteMovies()), movie) ==> storage.movies == old(storage.movies)
      ensures !IsFavorite(old(storage.FavoriteMovies()), movie) ==>
                storage.movies == Some(old(storage.FavoriteMovies()) + [NormalizeForStorage(movie)])
      ensures storage.themePreference == old(storage.themePreference)
    {
      var favs := storage.FavoriteMovies();
      if IsFavorite(storage.FavoriteMovies(), movie) {
        return;
      }
      favs := favs + [NormalizeForStorage(movie)];
      storage.movies := Some(favs);
    }

    /** `removeFavorite`: the entries matching the movie are filtered out
        and the list is written back, even when nothing matched. */
    method RemoveFavorite(movie: Movie)
      modifies storage
      ensures storage.movies == Some(Without(old(storage.FavoriteMovies()), movie))
      ensures storage.themePreference == old(storage.themePreference)
    {
      var favs := storage.FavoriteMovies();
      favs := Without(favs, movie);
      storage.movies := Some(favs);
    }

    /** The heart button of a rendered movie: removes a favorite, adds a
        non-favorite, and reports the new pressed state, which is the movie's
        new favorite status. */
    method ClickFavoriteButton(movie: Movie) returns (favorited: bool)
      modifies storage
      ensures favorited == !IsFavorite(old(storage.FavoriteMovies()), movie)
      ensures favorited == IsFavorite(storage.FavoriteMovies(), movie)
      ensures !favorited ==> storage.movies == Some(Without(old(storage.FavoriteMovies()), movie))
      ensures favorited ==>
                storage.movies == Some(old(storage.FavoriteMovies()) + [NormalizeForStorage(movie)])
      ensures storage.themePreference == old(storage.themePreference)
    {
      if IsFavorite(storage.FavoriteMovies(), movie) {
        RemoveFavorite(movie);
        favorited := false;
      } else {
        AddFavorite(movie);
        favorited := true;
      }
    }

    /** The "my favorites" button: flips the flag. Entering the favorites
        view shows the stored list (Some); leaving it reloads the popular
        movies (None). */
    method ClickShowFavorites() returns (shown: Option<seq<Movie>>)
      modifies this
      ensures showingOnlyFavorites == !old(showingOnlyFavorites)
      ensures shown == if showingOnlyFavorites then Some(storage.FavoriteMovies()) else None
      ensures theme == old(theme)
    {
      showingOnlyFavorites := !showingOnlyFavorites;
      if showingOnlyFavorites {
        shown := Some(storage.FavoriteMovies());
      } else {
        shown := None;
      }
    }

    /** `resetFavoritesView`, run before a search or a clear: the flag is
        false afterwards whatever it was. */
    method ResetFavoritesView()
      modifies this
      ensures !showingOnlyFavorites
      ensures theme == old(theme)
    {
      if showingOnlyFavorites {
        showingOnlyFavorites := false;
      }
    }
  }
}
