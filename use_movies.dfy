/**
 * The data hooks of the movie catalog (src/hooks/useMovies.ts): the browse hook
 * `useMovies`, the search hook `useSearchMovies` and the image URL builder.
 *
 * Each hook keeps a handful of `useState` cells. A request splits at its first
 * `await`: the synchronous part before it (set loading, clear the error, check the
 * API key, which with no key already ends in the `catch` and `finally`) and the part
 * that runs when the response has arrived (status check, parsing, `catch`, `finally`).
 * The network is not modelled; what it delivered is an input of type `Network`.
 */
module UseMovies {
  import opened Wrappers
  import Js

  /** A movie as the catalog API returns it (the fields the app reads; ratings are left out). */
  datatype Movie = Movie(
    id: int,
    title: string,
    overview: string,
    posterPath: Option<string>,
    backdropPath: Option<string>,
    releaseDate: string)

  /** One page of a list or search response. */
  datatype MoviesResponse = MoviesResponse(page: int, results: seq<Movie>, totalPages: int, totalResults: int)

  /** A value thrown inside the `try`: an `Error` with a message, or anything else. */
  datatype Thrown = ErrorValue(message: string) | OtherValue

  /** How `response.json()` ended: a parsed page, or a thrown value (a malformed body). */
  datatype Body = Parsed(data: MoviesResponse) | Unparsable(thrown: Thrown)

  /** An HTTP response: status code, status text and body. */
  datatype Response = Response(status: nat, statusText: string, body: Body)

  /** What `fetch` produced: a response, or a rejection (a transport failure). */
  datatype Network = Delivered(response: Response) | Failed(thrown: Thrown)

  /** `response.ok` of the Fetch standard: the status is in the range 200 to 299. */
  predicate IsOk(r: Response)
    ensures IsOk(r) <==> r.status / 100 == 2
  {
    200 <= r.status <= 299
  }

  /** At most this many movies are kept from one response. */
  const PageCap: nat := 10

  const MissingKeyMessage: string := "API Key de TMDB no configurada"
  const BrowseFallbackMessage: string := "Error desconocido"
  const SearchFallbackMessage: string := "Error en la búsqueda"

  /** `results.slice(0, 10)`: the first ten results, or all of them when there are fewer. */
  function FirstTen(results: seq<Movie>): (r: seq<Movie>)
    ensures |r| <= PageCap
    ensures |r| == if |results| < PageCap then |results| else PageCap
    ensures r == results[..|r|]
  {
    if |results| <= PageCap then results else results[..PageCap]
  }

  /** The message thrown for a response that is not ok: `Error <status>: <statusText>`. */
  function HttpErrorMessage(status: nat, statusText: string): (m: string)
    ensures |m| > 6 && m[..6] == "Error " && Js.Truthy(Some(m))
  {
    "Error " + Js.NatToString(status) + ": " + statusText
  }

  /** The status and the status text can be read back out of the message, so the message is faithful. */
  lemma HttpErrorMessageUnambiguous(s1: nat, t1: string, s2: nat, t2: string)
    requires HttpErrorMessage(s1, t1) == HttpErrorMessage(s2, t2)
    ensures s1 == s2 && t1 == t2
  {
    var d1, d2 := Js.NatToString(s1), Js.NatToString(s2);
    var m := HttpErrorMessage(s1, t1);
    assert m == "Error " + d1 + ": " + t1 && m == "Error " + d2 + ": " + t2;
    assert m[6..] == d1 + (": " + t1) == d2 + (": " + t2);
    NumeralPrefix(d1, ": " + t1, d2, ": " + t2);
    Js.NatToStringInjective(s1, s2);
    assert t1 == m[8 + |d1|..] == t2;
  }

  /** A numeral followed by a non-digit is determined by the whole string. */
  lemma NumeralPrefix(d1: string, r1: string, d2: string, r2: string)
    requires Js.AllDigits(d1) && Js.AllDigits(d2) && d1 + r1 == d2 + r2
    requires r1 != [] && !Js.IsDigit(r1[0]) && r2 != [] && !Js.IsDigit(r2[0])
    ensures d1 == d2 && r1 == r2
  {
    if |d1| < |d2| {
      DigitAt(d2, r2, |d1|);
      assert false;
    } else if |d2| < |d1| {
      DigitAt(d1, r1, |d2|);
      assert false;
    }
    assert d1 == (d1 + r1)[..|d1|] == d2;
  }

  lemma DigitAt(d: string, r: string, k: int)
    requires Js.AllDigits(d) && 0 <= k < |d|
    ensures Js.IsDigit((d + r)[k])
  {
  }

  /** The message the `catch` stores: an Error's own message, else the hook's fallback text. */
  function CaughtMessage(t: Thrown, fallback: string): (m: string)
    ensures t.ErrorValue? ==> m == t.message
    ensures t == OtherValue ==> m == fallback
  {
    match t
    case ErrorValue(message) => message
    case OtherValue => fallback
  }

  /**
   * The body of the `try` up to the state updates: the key check, the request,
   * the status check and the body parsing, in that order. With no key configured,
   * nothing is requested and the network outcome plays no part.
   */
  function Resolve(apiKey: Option<string>, net: Network): (r: Result<MoviesResponse, Thrown>)
    ensures !Js.Truthy(apiKey) ==> r == Failure(ErrorValue(MissingKeyMessage))
    ensures r.Success? <==>
      Js.Truthy(apiKey) && net.Delivered? && IsOk(net.response) && net.response.body.Parsed?
    ensures r.Success? ==> r.value == net.response.body.data
    ensures Js.Truthy(apiKey) && net.Delivered? && !IsOk(net.response) ==>
      r == Failure(ErrorValue(HttpErrorMessage(net.response.status, net.response.statusText)))
    ensures Js.Truthy(apiKey) && net.Failed? ==> r == Failure(net.thrown)
    ensures Js.Truthy(apiKey) && net.Delivered? && IsOk(net.response) && net.response.body.Unparsable? ==>
      r == Failure(net.response.body.thrown)
  {
    if !Js.Truthy(apiKey) then Failure(ErrorValue(MissingKeyMessage))
    else
      match net
      case Failed(t) => Failure(t)
      case Delivered(resp) =>
        if !IsOk(resp) then Failure(ErrorValue(HttpErrorMessage(resp.status, resp.statusText)))
        else
          match resp.body
          case Parsed(data) => Success(data)
          case Unparsable(t) => Failure(t)
  }

  // ===========================================================================
  // useMovies: browse one endpoint page by page

  /** The four state cells of `useMovies`. */
  datatype BrowseState = BrowseState(movies: seq<Movie>, loading: bool, error: Option<string>, totalPages: int)

  /** The `useState` initial values. */
  const InitialBrowse: BrowseState := BrowseState([], true, None, 0)

  /** `setLoading(true); setError(null)`: loading, no error, the data kept. */
  function StartBrowse(s: BrowseState): (r: BrowseState)
    ensures r.loading && r.error == None
    ensures r.movies == s.movies && r.totalPages == s.totalPages
  {
    s.(loading := true, error := None)
  }

  /**
   * `fetchMovies` up to its first `await`. With a key, loading is set, the error
   * cleared and a request goes out (`pending`). With no key the throw, the `catch`
   * and the `finally` run in the same synchronous step: no request, not loading.
   */
  function BeginBrowse(s: BrowseState, apiKey: Option<string>): (r: (BrowseState, bool))
    ensures r.1 <==> Js.Truthy(apiKey)
    ensures r.1 ==> r.0 == StartBrowse(s)
    ensures !r.1 ==> !r.0.loading && r.0.error == Some(MissingKeyMessage)
    ensures r.0.movies == s.movies && r.0.totalPages == s.totalPages
  {
    if Js.Truthy(apiKey) then (StartBrowse(s), true)
    else (s.(loading := false, error := Some(MissingKeyMessage)), false)
  }

  /** `fetchMovies` after its `await`: store the page, or the error; always end loading. */
  function CompleteBrowse(s: BrowseState, apiKey: Option<string>, net: Network): (r: BrowseState)
    ensures !r.loading
    ensures Resolve(apiKey, net).Success? ==>
      var data := Resolve(apiKey, net).value;
      r.movies == FirstTen(data.results) && r.totalPages == data.totalPages && r.error == s.error
    ensures Resolve(apiKey, net).Failure? ==>
      r.error == Some(CaughtMessage(Resolve(apiKey, net).error, BrowseFallbackMessage)) &&
      r.movies == s.movies && r.totalPages == s.totalPages
  {
    match Resolve(apiKey, net)
    case Success(data) => s.(movies := FirstTen(data.results), totalPages := data.totalPages, loading := false)
    case Failure(t) => s.(error := Some(CaughtMessage(t, BrowseFallbackMessage)), loading := false)
  }

  /** The no-key step is the whole `try` / `catch` / `finally` run at once, whatever the network would have said. */
  lemma MissingKeyBrowseSettlesAtOnce(s: BrowseState, apiKey: Option<string>, net: Network)
    requires !Js.Truthy(apiKey)
    ensures !BeginBrowse(s, apiKey).1
    ensures BeginBrowse(s, apiKey).0 == CompleteBrowse(StartBrowse(s), apiKey, net)
  {
  }

  /**
   * A whole browse fetch: its start, and its completion when a request went out.
   * Whether or not the no-key case settles early, the outcome is the plain reading
   * of `fetchMovies`: set loading and clear the error, then run the `try`.
   */
  function FetchBrowse(s: BrowseState, apiKey: Option<string>, net: Network): (r: BrowseState)
    ensures r == CompleteBrowse(StartBrowse(s), apiKey, net)
  {
    var (begun, pending) := BeginBrowse(s, apiKey);
    if pending then CompleteBrowse(begun, apiKey, net) else begun
  }

  /** With a key, the fetch that runs on mount changes nothing visible until it completes. */
  lemma StartOnMountIsInitial(apiKey: Option<string>)
    requires Js.Truthy(apiKey)
    ensures BeginBrowse(InitialBrowse, apiKey) == (InitialBrowse, true)
  {
  }

  /** A successful fetch leaves a settled page: no error, at most ten movies, the response's page count. */
  lemma BrowseSuccess(s: BrowseState, apiKey: Option<string>, net: Network)
    requires Resolve(apiKey, net).Success?
    ensures var r := FetchBrowse(s, apiKey, net);
      && !r.loading && r.error == None && |r.movies| <= PageCap
      && r.movies == FirstTen(net.response.body.data.results)
      && r.totalPages == net.response.body.data.totalPages
  {
  }

  /** A failed fetch keeps the stale movies and page count and reports an error, which is `Some`. */
  lemma BrowseFailure(s: BrowseState, apiKey: Option<string>, net: Network)
    requires Resolve(apiKey, net).Failure?
    ensures var r := FetchBrowse(s, apiKey, net);
      && !r.loading && r.error.Some?
      && r.movies == s.movies && r.totalPages == s.totalPages
    ensures Js.Truthy(apiKey) && net.Delivered? && !IsOk(net.response) ==>
      FetchBrowse(s, apiKey, net).error ==
        Some(HttpErrorMessage(net.response.status, net.response.statusText))
  {
  }

  /** The invariant `|movies| <= 10` holds from the start and survives every fetch. */
  lemma BrowseKeepsCap(s: BrowseState, apiKey: Option<string>, net: Network)
    requires |s.movies| <= PageCap
    ensures |BeginBrowse(s, apiKey).0.movies| <= PageCap
    ensures |CompleteBrowse(s, apiKey, net).movies| <= PageCap
  {
  }

  /**
   * The browse hook as an object: its state cells, the effect dependencies it last
   * ran with, and the API key the build environment supplied.
   */
  class BrowseHook {
    const apiKey: Option<string>
    /** How many requests have gone out whose responses have not been handled yet. */
    var outstanding: nat
    var movies: seq<Movie>
    var loading: bool
    var error: Option<string>
    var totalPages: int
    var endpoint: string
    var page: int

    function State(): BrowseState
      reads this
    {
      BrowseState(movies, loading, error, totalPages)
    }

    /** Mounting with `(endpoint, page)`: the initial cells, then the start of the mount effect's fetch. */
    constructor(apiKey: Option<string>, endpoint: Option<string>, page: Option<int>)
      ensures this.apiKey == apiKey
      ensures State() == BeginBrowse(InitialBrowse, apiKey).0
      ensures this.endpoint == endpoint.GetOr("popular") && this.page == page.GetOr(1)
      ensures outstanding == if Js.Truthy(apiKey) then 1 else 0
    {
      this.apiKey := apiKey;
      outstanding := if Js.Truthy(apiKey) then 1 else 0;
      movies, totalPages := [], 0;
      if Js.Truthy(apiKey) {
        loading, error := true, None;
      } else {
        loading, error := false, Some(MissingKeyMessage);
      }
      this.endpoint, this.page := endpoint.GetOr("popular"), page.GetOr(1);
    }

    /** A render with new arguments: the effect runs, and a fetch starts, iff a dependency changed. */
    method Rerender(endpoint: string, page: int) returns (started: bool)
      modifies this
      ensures started <==> (endpoint, page) != old((this.endpoint, this.page))
      ensures this.endpoint == endpoint && this.page == page
      ensures State() == if started then BeginBrowse(old(State()), apiKey).0 else old(State())
      ensures outstanding == old(outstanding) + if started && Js.Truthy(apiKey) then 1 else 0
    {
      started := endpoint != this.endpoint || page != this.page;
      this.endpoint, this.page := endpoint, page;
      if started {
        var _ := Start();
      }
    }

    /** `fetchMovies` up to its first `await`; `pending` says whether a request is now outstanding. */
    method Start() returns (pending: bool)
      modifies this
      ensures (State(), pending) == BeginBrowse(old(State()), apiKey)
      ensures endpoint == old(endpoint) && page == old(page)
      ensures outstanding == old(outstanding) + if pending then 1 else 0
    {
      loading := true;
      error := None;
      pending := Js.Truthy(apiKey);
      if pending {
        outstanding := outstanding + 1;
      } else {
        error := Some(CaughtMessage(ErrorValue(MissingKeyMessage), BrowseFallbackMessage));
        loading := false;
      }
    }

    /** The continuation after the response: the rest of the `try`, the `catch` and the `finally`. */
    method Settle(net: Network)
      requires outstanding > 0
      modifies this
      ensures State() == CompleteBrowse(old(State()), apiKey, net)
      ensures endpoint == old(endpoint) && page == old(page)
      ensures outstanding == old(outstanding) - 1
    {
      outstanding := outstanding - 1;
      var outcome := Resolve(apiKey, net);
      match outcome {
        case Success(data) =>
          movies := FirstTen(data.results);
          totalPages := data.totalPages;
        case Failure(t) =>
          error := Some(CaughtMessage(t, BrowseFallbackMessage));
      }
      loading := false;
    }
  }

  // ===========================================================================
  // useSearchMovies: search on demand

  /** The three state cells of `useSearchMovies`. */
  datatype SearchState = SearchState(movies: seq<Movie>, loading: bool, error: Option<string>)

  /** The `useState` initial values: nothing found, not loading, no error. */
  const InitialSearch: SearchState := SearchState([], false, None)

  /** `!query.trim()`: the query holds nothing but white space. */
  predicate IsBlankQuery(query: string)
    ensures IsBlankQuery(query) <==> Js.IsBlank(query)
  {
    Js.TrimEmptyIffBlank(query);
    Js.Trim(query) == ""
  }

  /**
   * `searchMovies` up to its first `await`. A blank query empties the results and
   * returns. Otherwise loading is set and the error cleared; with a key the request
   * goes out (`requested`), and with none the `catch` and `finally` run at once.
   */
  function BeginSearch(s: SearchState, query: string, apiKey: Option<string>): (r: (SearchState, bool))
    ensures r.1 <==> !Js.IsBlank(query) && Js.Truthy(apiKey)
    ensures Js.IsBlank(query) ==> r.0 == s.(movies := [])
    ensures r.1 ==> r.0 == s.(loading := true, error := None)
    ensures !Js.IsBlank(query) && !Js.Truthy(apiKey) ==>
      r.0 == SearchState([], false, Some(MissingKeyMessage))
  {
    Js.TrimEmptyIffBlank(query);
    if IsBlankQuery(query) then (s.(movies := []), false)
    else if Js.Truthy(apiKey) then (s.(loading := true, error := None), true)
    else (SearchState([], false, Some(MissingKeyMessage)), false)
  }

  /** `searchMovies` after its `await`: the first ten results, or an error and no results. */
  function CompleteSearch(s: SearchState, apiKey: Option<string>, net: Network): (r: SearchState)
    ensures !r.loading
    ensures Resolve(apiKey, net).Success? ==>
      r.movies == FirstTen(Resolve(apiKey, net).value.results) && r.error == s.error
    ensures Resolve(apiKey, net).Failure? ==>
      r.movies == [] && r.error == Some(CaughtMessage(Resolve(apiKey, net).error, SearchFallbackMessage))
  {
    match Resolve(apiKey, net)
    case Success(data) => s.(movies := FirstTen(data.results), loading := false)
    case Failure(t) => s.(error := Some(CaughtMessage(t, SearchFallbackMessage)), movies := [], loading := false)
  }

  /** The no-key step is the whole `try` / `catch` / `finally` run at once, whatever the network would have said. */
  lemma MissingKeySearchSettlesAtOnce(s: SearchState, query: string, apiKey: Option<string>, net: Network)
    requires !Js.IsBlank(query) && !Js.Truthy(apiKey)
    ensures !BeginSearch(s, query, apiKey).1
    ensures BeginSearch(s, query, apiKey).0 == CompleteSearch(s.(loading := true, error := None), apiKey, net)
  {
  }

  /**
   * A whole `searchMovies` call; the network outcome is used only when a request is made.
   * Any query that is not blank comes out as the plain reading of the code: set
   * loading and clear the error, then run the `try`.
   */
  function Search(s: SearchState, query: string, apiKey: Option<string>, net: Network): (r: SearchState)
    ensures Js.IsBlank(query) ==> r == s.(movies := [])
    ensures !Js.IsBlank(query) ==> r == CompleteSearch(s.(loading := true, error := None), apiKey, net)
  {
    var (begun, requested) := BeginSearch(s, query, apiKey);
    if requested then CompleteSearch(begun, apiKey, net) else begun
  }

  /** A blank query clears the results and leaves loading and error as they were. */
  lemma BlankSearchIsLocal(s: SearchState, query: string, apiKey: Option<string>, net: Network)
    requires Js.IsBlank(query)
    ensures Search(s, query, apiKey, net) == SearchState([], s.loading, s.error)
  {
  }

  /** A non-blank query always settles: not loading, at most ten results, and an error iff it failed. */
  lemma SearchSettles(s: SearchState, query: string, apiKey: Option<string>, net: Network)
    requires !Js.IsBlank(query)
    ensures var r := Search(s, query, apiKey, net);
      && !r.loading && |r.movies| <= PageCap
      && (r.error.Some? <==> Resolve(apiKey, net).Failure?)
      && (r.error.Some? ==> r.movies == [])
  {
  }

  /** Unlike browsing, a failed search does not keep stale results. */
  lemma SearchFailureClears(s: SearchState, query: string, apiKey: Option<string>, net: Network)
    requires !Js.IsBlank(query) && Resolve(apiKey, net).Failure?
    ensures Search(s, query, apiKey, net).movies == []
    ensures Js.Truthy(apiKey) && net.Delivered? && !IsOk(net.response) ==>
      Search(s, query, apiKey, net).error ==
        Some(HttpErrorMessage(net.response.status, net.response.statusText))
  {
  }

  /**
   * The two `catch` blocks store a thrown Error's own message, and differ in the
   * fallback text for anything else that is thrown.
   */
  lemma CaughtMessages(b: BrowseState, s: SearchState, query: string, apiKey: Option<string>, net: Network)
    requires !Js.IsBlank(query) && Resolve(apiKey, net).Failure?
    ensures Resolve(apiKey, net).error == OtherValue ==>
      FetchBrowse(b, apiKey, net).error == Some("Error desconocido") &&
      Search(s, query, apiKey, net).error == Some("Error en la búsqueda")
    ensures Resolve(apiKey, net).error.ErrorValue? ==>
      FetchBrowse(b, apiKey, net).error == Some(Resolve(apiKey, net).error.message) &&
      Search(s, query, apiKey, net).error == Some(Resolve(apiKey, net).error.message)
  {
  }

  /** The search hook as an object: its state cells and the API key the build environment supplied. */
  class SearchHook {
    const apiKey: Option<string>
    /** How many requests have gone out whose responses have not been handled yet. */
    var outstanding: nat
    var movies: seq<Movie>
    var loading: bool
    var error: Option<string>

    function State(): SearchState
      reads this
    {
      SearchState(movies, loading, error)
    }

    constructor(apiKey: Option<string>)
      ensures this.apiKey == apiKey && State() == InitialSearch && outstanding == 0
    {
      this.apiKey := apiKey;
      outstanding := 0;
      movies, loading, error := [], false, None;
    }

    /** The synchronous part of `searchMovies`; `requested` says whether a request goes out. */
    method Begin(query: string) returns (requested: bool)
      modifies this
      ensures (State(), requested) == BeginSearch(old(State()), query, apiKey)
      ensures outstanding == old(outstanding) + if requested then 1 else 0
    {
      Js.TrimEmptyIffBlank(query);
      if Js.Trim(query) == "" {
        movies := [];
        requested := false;
        return;
      }
      loading := true;
      error := None;
      requested := Js.Truthy(apiKey);
      if requested {
        outstanding := outstanding + 1;
      } else {
        error := Some(CaughtMessage(ErrorValue(MissingKeyMessage), SearchFallbackMessage));
        movies := [];
        loading := false;
      }
    }

    /** The continuation after the response: the rest of the `try`, the `catch` and the `finally`. */
    method Settle(net: Network)
      requires outstanding > 0
      modifies this
      ensures State() == CompleteSearch(old(State()), apiKey, net)
      ensures outstanding == old(outstanding) - 1
    {
      outstanding := outstanding - 1;
      var outcome := Resolve(apiKey, net);
      match outcome {
        case Success(data) =>
          movies := FirstTen(data.results);
        case Failure(t) =>
          error := Some(CaughtMessage(t, SearchFallbackMessage));
          movies := [];
      }
      loading := false;
    }

    /** `searchMovies(query)` run to completion with the given network outcome. */
    method SearchMovies(query: string, net: Network) returns (requested: bool)
      modifies this
      ensures requested <==> !Js.IsBlank(query) && Js.Truthy(apiKey)
      ensures State() == Search(old(State()), query, apiKey, net)
      ensures outstanding == old(outstanding)
    {
      requested := Begin(query);
      if requested {
        Settle(net);
      }
    }
  }

  // ===========================================================================
  // getImageUrl

  /** The poster and backdrop sizes the image CDN offers. */
  datatype ImageSize = W300 | W500 | W780 | Original

  function SizeSegment(size: ImageSize): string {
    match size
    case W300 => "w300"
    case W500 => "w500"
    case W780 => "w780"
    case Original => "original"
  }

  const ImageBase: string := "https://image.tmdb.org/t/p/"
  const PlaceholderImage: string := "/placeholder-movie.svg"

  /**
   * `getImageUrl(path, size = 'w500')`: the placeholder for a null or empty path,
   * otherwise the CDN base, the size segment and the path, with no separator added.
   */
  function ImageUrl(path: Option<string>, size: Option<ImageSize>): (url: string)
    ensures !Js.Truthy(path) ==> url == PlaceholderImage
    ensures Js.Truthy(path) ==>
      var prefix := ImageBase + SizeSegment(size.GetOr(W500));
      |url| == |prefix| + |path.value| && url[..|prefix|] == prefix && url[|prefix|..] == path.value
  {
    if !Js.Truthy(path) then PlaceholderImage else ImageBase + SizeSegment(size.GetOr(W500)) + path.value
  }

  /** A CDN URL is never the placeholder, and it determines both the size and the path. */
  lemma ImageUrlUnambiguous(p1: Option<string>, z1: ImageSize, p2: Option<string>, z2: ImageSize)
    requires Js.Truthy(p1) && Js.Truthy(p2)
    ensures ImageUrl(p1, Some(z1)) != PlaceholderImage
    ensures ImageUrl(p1, Some(z1)) == ImageUrl(p2, Some(z2)) ==> z1 == z2 && p1 == p2
  {
    var u1, u2 := ImageUrl(p1, Some(z1)), ImageUrl(p2, Some(z2));
    assert u1[0] == 'h' != PlaceholderImage[0];
    if u1 == u2 {
      var b := |ImageBase|;
      var s1, s2 := SizeSegment(z1), SizeSegment(z2);
      assert u1[b] == s1[0] && u1[b + 1] == s1[1];
      assert u2[b] == s2[0] && u2[b + 1] == s2[1];
      assert z1 == z2;
      assert p1.value == u1[b + |s1|..] == p2.value;
    }
  }
}
