/** The request rules of the proxy's two movie endpoints,
    `/api/popular-movies` and `/api/search-movies`: which query parameters
    are used and with what defaults, when a request is rejected before any
    upstream call, and which status and body answer each upstream outcome.
    The upstream call and `encodeURIComponent` are parameters. */
module Proxy {
  import opened Js

  const DefaultLanguage := "pt-BR"
  /** `req.query.page || 1`: the number 1, which the URL template renders as "1". */
  const DefaultPage := "1"
  const DefaultIncludeAdult := "false"

  const MissingQueryError := "Missing required query parameter `query` or `q`"
  const PopularFailError := "Failed to fetch popular movies from TMDB"
  const SearchFailError := "Failed to fetch search results from TMDB"
  const InternalError := "Internal server error"

  const PopularEndpoint := "https://api.themoviedb.org/3/movie/popular"
  const SearchEndpoint := "https://api.themoviedb.org/3/search/movie"

  /** The query-string parameters the handlers read; None when absent. */
  datatype QueryParams = QueryParams(
    query: Option<string>,
    q: Option<string>,
    language: Option<string>,
    page: Option<string>,
    includeAdult: Option<string>)

  /** A JSON response body: the fixed error object, or the upstream JSON
      relayed as it was received. */
  datatype Body = ErrorBody(error: string) | Relayed(json: string)

  datatype Response = Response(status: nat, body: Body)

  /** What the upstream call produced: an exception (network failure), or an
      answer with its status and its body, None when the body is not JSON. */
  datatype Upstream = Threw | Answered(status: nat, json: Option<string>)

  /** One handled request: the upstream URL requested, if any, and the
      response sent. */
  datatype Exchange = Exchange(upstreamUrl: Option<string>, response: Response)

  datatype PopularRequest = PopularRequest(language: string, page: string)

  datatype SearchRequest = SearchRequest(query: string, language: string, page: string, includeAdult: string)

  datatype Resolved<T> = Accepted(request: T) | Rejected(response: Response)

  /** `response.ok`: a status in the range 200 to 299. */
  predicate IsOk(status: nat)
    ensures IsOk(status) <==> 200 <= status < 300
    ensures IsOk(status) ==> status != 400 && status != 500
  {
    200 <= status <= 299
  }

  /** `(req.query.query || req.query.q || '').trim()`. */
  function SearchTerm(p: QueryParams): (term: string)
    ensures Truthy(p.query) ==> term == Trim(p.query.value)
    ensures !Truthy(p.query) && Truthy(p.q) ==> term == Trim(p.q.value)
    ensures !Truthy(p.query) && !Truthy(p.q) ==> term == ""
  {
    Trim(OrElse(p.query, OrElse(p.q, "")))
  }

  /** The parameters of `/api/popular-movies`, defaulted when absent or
      empty. */
  function ResolvePopular(p: QueryParams): (r: PopularRequest)
    ensures !Truthy(p.language) ==> r.language == DefaultLanguage
    ensures Truthy(p.language) ==> r.language == p.language.value
    ensures !Truthy(p.page) ==> r.page == DefaultPage
    ensures Truthy(p.page) ==> r.page == p.page.value
  {
    PopularRequest(OrElse(p.language, DefaultLanguage), OrElse(p.page, DefaultPage))
  }

  /** The parameters of `/api/search-movies`: a blank search term is
      rejected with 400 and the fixed error body; otherwise the trimmed term
      and the other parameters, defaulted when absent or empty. */
  function ResolveSearch(p: QueryParams): (r: Resolved<SearchRequest>)
    ensures r.Rejected? <==> SearchTerm(p) == ""
    ensures r.Rejected? ==> r.response == Response(400, ErrorBody(MissingQueryError))
    ensures r.Accepted? ==> r.request.query == SearchTerm(p)
    ensures r.Accepted? && !Truthy(p.language) ==> r.request.language == DefaultLanguage
    ensures r.Accepted? && Truthy(p.language) ==> r.request.language == p.language.value
    ensures r.Accepted? && !Truthy(p.page) ==> r.request.page == DefaultPage
    ensures r.Accepted? && Truthy(p.page) ==> r.request.page == p.page.value
    ensures r.Accepted? && !Truthy(p.includeAdult) ==> r.request.includeAdult == DefaultIncludeAdult
    ensures r.Accepted? && Truthy(p.includeAdult) ==> r.request.includeAdult == p.includeAdult.value
  {
    var query := SearchTerm(p);
    if query == "" then Rejected(Response(400, ErrorBody(MissingQueryError)))
    else Accepted(SearchRequest(query, OrElse(p.language, DefaultLanguage),
                                OrElse(p.page, DefaultPage),
                                OrElse(p.includeAdult, DefaultIncludeAdult)))
  }

  /** The upstream URL of the popular-movies endpoint: the key, the language
      and the page are inserted as they are. */
  function PopularUrl(apiKey: string, r: PopularRequest): (url: string)
    ensures var head := PopularEndpoint + "?api_key=" + apiKey + "&language=" + r.language + "&page=";
            |head| <= |url| && url[..|head|] == head && url[|head|..] == r.page
  {
    var head := PopularEndpoint + "?api_key=" + apiKey + "&language=" + r.language + "&page=";
    var url := head + r.page;
    assert url[..|head|] == head && url[|head|..] == r.page;
    url
  }

  /** The upstream URL of the search endpoint. Only the search term is
      URI-encoded; the key, language, page and include_adult are inserted as
      they came. */
  function SearchUrl(apiKey: string, encode: string -> string, r: SearchRequest): (url: string)
    ensures var head := SearchEndpoint + "?api_key=" + apiKey + "&language=" + r.language + "&query=";
            var tail := "&page=" + r.page + "&include_adult=" + r.includeAdult;
            |head| + |tail| <= |url| && url[..|head|] == head && url[|url| - |tail|..] == tail &&
            url[|head|..|url| - |tail|] == encode(r.query)
  {
    var head := SearchEndpoint + "?api_key=" + apiKey + "&language=" + r.language + "&query=";
    var tail := "&page=" + r.page + "&include_adult=" + r.includeAdult;
    var url := head + encode(r.query) + tail;
    assert url[..|head|] == head;
    assert url[|url| - |tail|..] == tail;
    assert url[|head|..|url| - |tail|] == encode(r.query);
    url
  }

  /** The answer to an upstream outcome: an exception or an unreadable body
      gives 500 with the generic error; a non-OK answer gives its own status
      with the endpoint's error; an OK answer relays its JSON with the
      default status 200. So a success status always carries relayed data
      and an error status always the error object. */
  function Relay(up: Upstream, failError: string): (resp: Response)
    ensures up.Threw? ==> resp == Response(500, ErrorBody(InternalError))
    ensures up.Answered? && !IsOk(up.status) ==> resp == Response(up.status, ErrorBody(failError))
    ensures up.Answered? && IsOk(up.status) && up.json.Some? ==>
              resp == Response(200, Relayed(up.json.value))
    ensures up.Answered? && IsOk(up.status) && up.json.None? ==>
              resp == Response(500, ErrorBody(InternalError))
    ensures resp.body.Relayed? <==> IsOk(resp.status)
  {
    match up
    case Threw => Response(500, ErrorBody(InternalError))
    case Answered(status, json) =>
      if !IsOk(status) then Response(status, ErrorBody(failError))
      else if json.None? then Response(500, ErrorBody(InternalError))
      else Response(200, Relayed(json.value))
  }

  /** The `/api/popular-movies` handler: always one upstream request, with
      the defaulted parameters. */
  function HandlePopular(p: QueryParams, apiKey: string, fetch: string -> Upstream): (x: Exchange)
    ensures x.upstreamUrl == Some(PopularUrl(apiKey, ResolvePopular(p)))
    ensures x.response == Relay(fetch(x.upstreamUrl.value), PopularFailError)
  {
    var url := PopularUrl(apiKey, ResolvePopular(p));
    Exchange(Some(url), Relay(fetch(url), PopularFailError))
  }

  /** The `/api/search-movies` handler: a blank search term is answered with
      400 and no upstream request; otherwise one upstream request, whose
      outcome decides the answer. */
  function HandleSearch(p: QueryParams, apiKey: string, encode: string -> string,
                        fetch: string -> Upstream): (x: Exchange)
    ensures x.upstreamUrl.None? <==> SearchTerm(p) == ""
    ensures x.upstreamUrl.None? ==> x.response == Response(400, ErrorBody(MissingQueryError))
    ensures x.upstreamUrl.Some? ==>
              ResolveSearch(p).Accepted? &&
              x.upstreamUrl.value == SearchUrl(apiKey, encode, ResolveSearch(p).request)
    ensures x.upstreamUrl.Some? ==> x.response == Relay(fetch(x.upstreamUrl.value), SearchFailError)
  {
    match ResolveSearch(p)
    case Rejected(resp) => Exchange(None, resp)
    case Accepted(r) =>
      var url := SearchUrl(apiKey, encode, r);
      Exchange(Some(url), Relay(fetch(url), SearchFailError))
  }

  /** Where the search endpoint's statuses come from: a 400 is either the
      rejection of a blank term, with no upstream request, or the upstream's
      own 400; a 200 always relays the upstream's JSON. */
  lemma SearchStatusOrigins(p: QueryParams, apiKey: string, encode: string -> string,
                            fetch: string -> Upstream)
    ensures var x := HandleSearch(p, apiKey, encode, fetch);
            x.response.status == 400 ==>
              x.upstreamUrl.None? ||
              (fetch(x.upstreamUrl.value).Answered? && fetch(x.upstreamUrl.value).status == 400)
    ensures var x := HandleSearch(p, apiKey, encode, fetch);
            x.response.status == 200 ==>
              x.upstreamUrl.Some? && x.response.body == Relayed(fetch(x.upstreamUrl.value).json.value)
  {
    var x := HandleSearch(p, apiKey, encode, fetch);
    if x.upstreamUrl.Some? {
      var up := fetch(x.upstreamUrl.value);
      assert x.response == Relay(up, SearchFailError);
    }
  }

  /** A `query` made only of whitespace is truthy, so it wins over `q`, and
      the request is rejected whatever `q` holds. */
  lemma BlankQueryShadowsQ(p: QueryParams, apiKey: string, encode: string -> string,
                           fetch: string -> Upstream)
    requires Truthy(p.query) && AllWhitespace(p.query.value)
    ensures HandleSearch(p, apiKey, encode, fetch) == Exchange(None, Response(400, ErrorBody(MissingQueryError)))
  {
  }

  /** Whitespace around the search term does not change the upstream
      request. */
  lemma SearchIgnoresPadding(p: QueryParams, pre: string, post: string, apiKey: string,
                             encode: string -> string, fetch: string -> Upstream)
    requires Truthy(p.query) && AllWhitespace(pre) && AllWhitespace(post)
    ensures HandleSearch(p.(query := Some(pre + p.query.value + post)), apiKey, encode, fetch) ==
            HandleSearch(p, apiKey, encode, fetch)
  {
    TrimIgnoresPadding(pre, p.query.value, post);
  }
}
