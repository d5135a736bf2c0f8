# Filmes: favorites list, page state and proxy rules

Filmes is a movie-browsing page backed by a small proxy for the movie
database API. This project models the parts of it that follow fixed rules:

- the **favorites list** the page keeps in local storage under the `movies`
  key. A movie matches a stored entry by `id` when the movie's id is truthy.
  Otherwise it matches by title, compared case-insensitively, with a missing
  title read as `''` (`Favorites.Matches`, `Favorites.IsFavorite`). Adding
  appends a normalised record unless an entry already matches. Removing
  filters out every matching entry.
- the page's two small state machines: the light/dark theme toggle and the
  "show only favorites" flag (`App.Page`).
- the **manual add form**, a second way into the same list. It trims both
  fields, ignores a blank title, de-duplicates by title alone and appends a
  `{title, poster}` entry (`AddForm`).
- the **proxy's request rules** for `/api/popular-movies` and
  `/api/search-movies`. These cover which parameter gives the search term, the
  defaults, the 400 rejection of a blank term, and the status and body chosen
  for each upstream outcome (`Proxy`).

Modules: `Js` covers JavaScript truthiness, the `||` default, `trim` and
`toLowerCase`. `Storage` holds the movie record and the local-storage object.
`Favorites` holds the list logic of `app.js` and `App` its page state.
`AddForm` models `adicionar.js` and `Proxy` models `server.js`.

Local storage is a class whose `movies` field holds the decoded list, or None
while the key is absent. Reading it gives `[]` in that case, as
`getItem('movies') || '[]'` does. The page's handlers are methods that update
that field and the page's own fields in place. The list logic they use is
stated as functions (`Added`, `Without`, `Submitted`), and the lemmas prove
the properties about those functions. The proxy logic has no state and is
written as functions. The upstream call (`fetch`) and `encodeURIComponent`
are passed in as function parameters.

## Model

| member | source | states |
|---|---|---|
| `Js.Truthy` | server.js:39 | A string property is truthy exactly when it is present and not `''`. This drives every `||` default. |
| `Js.IdTruthy` | app.js:47 | An id is truthy exactly when it is present and not 0. |
| `Js.OrElse` | server.js:72-74 | The JavaScript or-default gives the value when it is truthy and the fallback otherwise. |
| `Js.Trim` | server.js:67 | `trim` leaves no whitespace at either end and never lengthens its input. The result is empty exactly when the input is all whitespace. |
| `Js.TrimCutsWhitespaceEnds` | server.js:67 | `trim` cuts only whitespace: the input is a whitespace prefix, then the trimmed value, then a whitespace suffix. |
| `Js.TrimIgnoresPadding` | adicionar.js:8-9 | Whitespace padding on either side of a string does not change what `trim` returns. |
| `Js.TrimIdempotent` | adicionar.js:8-9 | Trimming an already trimmed value changes nothing. |
| `Js.Lower` | app.js:50 | Lower-casing keeps the length. Each upper-case ASCII letter becomes its lower-case letter and every other character is kept. |
| `Storage.LocalStorage.FavoriteMovies` | app.js:41-43 | `getFavoriteMovies` returns the stored list, or `[]` while the `movies` key is absent. |
| `Favorites.TitleKey` | app.js:50 | The comparison key of a title is its lower-cased text, or `''` when the title is missing. |
| `Favorites.Matches` | app.js:47-50 | A stored entry matches a movie by equal id when the movie's id is truthy. Otherwise it matches when the lower-cased titles are equal, a missing title counting as `''`. |
| `Favorites.IsFavorite` | app.js:45-51 | `isFavorite` holds exactly when some stored entry has the movie's id (when that id is truthy), or otherwise some stored entry has the movie's title up to case. An empty list holds no favorite. |
| `Favorites.NormalizeForStorage` | app.js:53-66 | The stored record keeps id, title, overview, release date and vote average. It drops poster_path. The poster is the movie's own poster if truthy, else the base URL plus a truthy poster_path, else null, so an empty poster is never stored. The record matches the movie it came from. |
| `Favorites.Added` | app.js:68-73 | After `addFavorite`, the movie is a favorite. Earlier entries keep their places, and at most one entry is added. |
| `Favorites.AddedAppendsOnce` | app.js:70-71 | The definition of `Added`, unfolded: a movie that is already a favorite leaves the list unchanged, and otherwise exactly its normalised record is appended at the end. |
| `Favorites.AddedIdempotent` | app.js:70 | Adding the same movie twice gives the same list as adding it once. |
| `Favorites.Without` | app.js:75-83 | After `removeFavorite`, no entry matches the movie. Every survivor is an entry of the original list. |
| `Favorites.WithoutUnchanged` | app.js:77-81 | Removing leaves the list unchanged if and only if the movie was not a favorite. |
| `Favorites.WithoutConcat` | app.js:78-80 | Removal filters each part of a list separately, so survivors keep their original order. |
| `Favorites.WithoutCounts` | app.js:78-80 | Removal keeps every copy of an entry that does not match the movie and drops every copy of one that does. |
| `Favorites.RemoveUndoesAdd` | app.js:68-83 | Removing a movie right after adding it as a new favorite restores the original list. |
| `App.CurrentTheme` | app.js:31 | The theme in force is the page's theme when truthy, else `light`. It is never empty. |
| `App.ToggledTheme` | app.js:31-32 | The toggle switches to light from dark, and to dark from anything else, including a missing theme (read as light). |
| `App.ToggleTwice` | app.js:31-33 | From light or dark, two toggles restore the theme. From any other value, two toggles end in light. |
| `App.Page.constructor` | app.js:11 | The "show only favorites" flag starts false. |
| `App.Page.ToggleTheme` | app.js:30-36 | The page theme becomes the toggled theme and is saved as the theme preference. The favorites list and the flag are unchanged. |
| `App.Page.AddFavorite` | app.js:68-73 | The stored list becomes `Added` of the old list. Nothing is written when the movie was already a favorite. Otherwise the old list plus the normalised record is written. |
| `App.Page.RemoveFavorite` | app.js:75-83 | The stored list becomes `Without` of the old list. It is written back even when nothing matched. |
| `App.Page.ClickFavoriteButton` | app.js:118-139 | For a favorite, the button writes back the old list without the matching entries. For a non-favorite, it writes the old list plus the normalised record. Its new pressed state is the movie's new favorite status, which is the negation of the old one. |
| `App.Page.ClickShowFavorites` | app.js:355-369 | The flag is negated. Entering the favorites view shows the stored list. Leaving it reloads the popular movies. |
| `App.Page.ResetFavoritesView` | app.js:315-323 | Afterwards the flag is false, whatever it was before. |
| `AddForm.FormEntry` | adicionar.js:14 | The form's entry holds the title and the poster and nothing else: no id, no poster_path, overview, release date or vote. |
| `AddForm.TitleTaken` | adicionar.js:18 | The form's duplicate test holds exactly when the page's `isFavorite` would hold for an entry without an id and with that title. |
| `AddForm.Submitted` | adicionar.js:8-22 | Existing entries keep their places. Exactly one entry is appended if and only if the trimmed title is not blank and not already taken (case-insensitively). That entry is the trimmed title and poster, with no id. |
| `AddForm.SubmittedTakesTitle` | adicionar.js:18-21 | After a submit with a non-blank title, that title is taken. |
| `AddForm.SubmitTwiceIsOnce` | adicionar.js:17-22 | Submitting the same title twice, with any posters, has the effect of submitting it once. |
| `AddForm.FormEntryNotMatchedById` | adicionar.js:14 | A form entry has no id, so a movie with a truthy id never matches it. |
| `AddForm.SameTitleStoredTwice` | adicionar.js:17-21 | Take any list where the title is not taken and no entry has the movie's id. Adding the title through the form and then the same-titled movie (with a truthy id) through the page appends two entries with equal titles. |
| `AddForm.SubmitForm` | adicionar.js:8-25 | The handler redirects exactly when the trimmed title is not blank. The stored list becomes `Submitted` of the old one. Storage is written only when an entry was appended. |
| `Proxy.SearchTerm` | server.js:67 | The search term is `query` if truthy, else `q` if truthy, else `''`, then trimmed. |
| `Proxy.ResolvePopular` | server.js:39-40 | The language defaults to `pt-BR` and the page to 1 when absent or empty. |
| `Proxy.ResolveSearch` | server.js:67-74 | The request is rejected with 400 and the fixed error body if and only if the search term is blank. Otherwise the term is kept and language, page and include_adult default to `pt-BR`, 1 and `false`. |
| `Proxy.IsOk` | server.js:49 | `response.ok` holds exactly for statuses 200 to 299, so never for 400 or 500. |
| `Proxy.PopularUrl` | server.js:42 | The popular-movies URL is the endpoint with the key, the language and the page inserted as they are. |
| `Proxy.SearchUrl` | server.js:76 | The search URL is the endpoint with the key and the language, then the encoded search term, then the page and include_adult. Only the term is encoded. |
| `Proxy.Relay` | server.js:49-60 | An exception or an unreadable body gives 500 with `Internal server error`. A non-OK upstream status is answered with that same status and the endpoint's error. An OK answer relays its JSON with status 200. A success status always carries relayed data. |
| `Proxy.HandlePopular` | server.js:37-61 | Every popular-movies request makes one upstream call, with the defaulted parameters, and answers as `Relay` says. |
| `Proxy.HandleSearch` | server.js:64-95 | A blank term gets 400 and no upstream call. Otherwise there is exactly one upstream call, built from the resolved parameters, and it decides the answer. |
| `Proxy.SearchStatusOrigins` | server.js:68-94 | A 400 from the search endpoint is either the blank-term rejection or the upstream's own 400. A 200 always relays the upstream's JSON. |
| `Proxy.BlankQueryShadowsQ` | server.js:67-70 | A whitespace-only `query` is truthy and so wins over `q`. The request is then rejected with 400 whatever `q` holds. |
| `Proxy.SearchIgnoresPadding` | server.js:67 | Whitespace around `query` does not change the upstream URL. The answer is then also unchanged, because the upstream call is modelled as a function of the URL. |

## Left out

- Rendering, the details modal, focus trapping, toasts, animation frames and timers (app.js:87-270). These are DOM and timing behaviour with no state of their own; only the favorite button's effect on storage is modelled.
- Network calls on the page (`fetchFromApi`, `loadPopularMovies`, the network part of the search form) and the Express setup: CORS, static files, `/health`, `listen`. These are I/O and framework plumbing.
- The API key's resolution from the environment (server.js:14-19). The key is a parameter of the URL builders.
- `JSON.parse` of malformed stored text, which would throw. The stored JSON is modelled by the value it encodes.
- Js.Lower: only ASCII letters are lower-cased; full Unicode `toLowerCase` is not modelled.
- Movie ids: `id` is an optional integer, and its truthiness is "present and not 0". String ids, `NaN` and the strict-equality behaviour between mixed id types are not modelled. Fields the scripts never read are not modelled.
- Query parameters: each parameter is an optional string. Express turns a repeated parameter into an array, and `trim` on an array would throw (and so answer 500); this is not modelled.
- URI encoding: `encodeURIComponent` is a function parameter, so the `URIError` it raises on lone surrogates is not modelled (Dafny strings cannot hold them). A failure of `response.text()` on the error path is not modelled either.
- Button labels, `aria` attributes, console logging, the redirect target of the add form and async/await scheduling.
