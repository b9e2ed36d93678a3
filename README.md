# movies-app: a verified model of its view-state logic

movies-app is a browser catalog of films served by the TMDB API. Most of it is markup. This
project models the small amount of state logic underneath, and proves properties of it:

- **The data hooks** (`useMovies`, `useSearchMovies`). Each holds `movies`, `loading` and `error`;
  the browse hook also holds `totalPages`. A fetch is split at its first `await`. The part
  before sets `loading`, clears `error` and checks the API key. With no key the `throw`, the
  `catch` and the `finally` all run in that same synchronous step, so no request goes out.
  With a key, the part after the `await` runs the status check and the parsing, then applies
  `catch` / `finally`. The network outcome is an input value (`Network`): a delivered
  response with status, status text and body, or a rejection. `response.ok` is derived from
  the status (200 to 299).
  Each hook is a class whose methods are proved equal to pure transition functions
  (`BeginBrowse`, `CompleteBrowse`, `BeginSearch`, `CompleteSearch`). The lemmas about those
  functions state what each outcome overwrites and what it keeps. The browse hook also
  records its effect dependencies (`endpoint`, `page`) and re-fetches only when they change.
- **`getImageUrl`**: the placeholder for a missing path, else CDN base + size + path.
- **The carousel** (`MovieSlider`). It holds a slide index over the first ten top-rated movies,
  moved by `nextSlide`/`prevSlide` with JavaScript's truncating `%`. A repeating timer,
  modelled as discrete ticks, is armed only for a non-empty slice. The timer effect is
  re-run exactly when the slide count changes, so an armed timer always moves over the
  current count. The module also chooses
  the rendered branch, the side previews and the focal card.
- **Pagination and views** (`MoviesGrid`, `MovieList`). The view is chosen in priority order.
  The pagination rules live in one module that both components use: when the bar shows,
  which button is disabled, and which page each button requests. `MovieList` stores
  `currentPage` and updates it.
- **The upcoming panel** (`MoviesCommingSoon`): the view choice and the shortened overview.

A few JavaScript built-ins are written out in module `Js`:
- string truthiness (`null` and `""` are falsy);
- integer-to-decimal rendering in template literals;
- `String.prototype.trim` over the ECMAScript white-space set;
- the truncating remainder.

Behaviour of the code worth noting:
- After a failed browse fetch, `error` is set while the stale `movies` remain
  (src/hooks/useMovies.ts:61-62 sets only `error`). The three conditions loading, error and
  data-ready are therefore not mutually exclusive.
- An `Error` thrown with an empty message stores `""` in `error`
  (src/hooks/useMovies.ts:62). Every view tests `error` for truthiness
  (src/components/MovieList/MovieList.tsx:36), so it shows the movies (or the empty view),
  not the error view.
- Nothing chooses between search results and the browse list. `App` passes
  `onSearchResults`, `onSearchStateChange`, `searchResults` and `isSearching`
  (src/App.tsx:21-33), but `HeaderNavbar` takes no props (src/components/Header/Header.tsx:10)
  and neither does `Home` (src/containers/Home/Home.tsx:3). There is no such rule to model.

## Model

| member | source | states |
|---|---|---|
| UseMovies.FirstTen | src/hooks/useMovies.ts:59 | `slice(0, 10)` keeps exactly the first min(10, n) results, so at most ten |
| Js.Truthy | src/components/MovieList/MovieList.tsx:36 | a nullable string is truthy iff it is present and not empty; `Js.Or` and every view's branch tests are stated through it |
| Js.Or | src/components/MoviesCommingSoon/MoviesCommingSoon.tsx:37 | JavaScript's logical or of a nullable string and a fallback gives the string when it is truthy, else the fallback |
| Js.NatToString | src/hooks/useMovies.ts:55 | the status is rendered as a non-empty numeral of digits with no leading zero |
| Js.NatToStringRoundTrip | src/hooks/useMovies.ts:55 | reading the rendered numeral back gives the status code |
| UseMovies.HttpErrorMessage | src/hooks/useMovies.ts:54-56 | the non-ok message starts with `Error ` and is truthy, so it reaches the error views |
| UseMovies.HttpErrorMessageUnambiguous | src/hooks/useMovies.ts:55 | `Error <status>: <statusText>` determines both the status and the status text |
| UseMovies.Resolve | src/hooks/useMovies.ts:45-58 | a missing key fails with the key message and ignores the network; a rejection fails with what was thrown; a non-ok status fails with the status message; an ok body that does not parse fails with what `response.json()` threw; only an ok, parsed response succeeds |
| UseMovies.IsOk | src/hooks/useMovies.ts:54 | `response.ok` holds exactly for the 2xx statuses |
| UseMovies.CaughtMessage | src/hooks/useMovies.ts:62 | a thrown Error stores its own message; anything else thrown stores the hook's fallback text |
| UseMovies.StartBrowse | src/hooks/useMovies.ts:42-43 | starting a fetch sets loading, clears the error, keeps movies and totalPages |
| UseMovies.BeginBrowse | src/hooks/useMovies.ts:41-50 | a request goes out iff the key is truthy, with loading set and error cleared; with no key the fetch settles at once, not loading, with the key message; movies and totalPages are kept |
| UseMovies.MissingKeyBrowseSettlesAtOnce | src/hooks/useMovies.ts:42-65 | with no key, the synchronous step already equals the full `try` / `catch` / `finally` for any network outcome |
| UseMovies.CompleteBrowse | src/hooks/useMovies.ts:58-64 | success stores the first ten results and total_pages; failure stores the caught message and keeps movies and totalPages; loading ends false either way |
| UseMovies.StartOnMountIsInitial | src/hooks/useMovies.ts:35-50 | the initial state is movies `[]`, loading true, error null, totalPages 0; with a key, the mount fetch's start does not change it and sends a request |
| UseMovies.BrowseSuccess | src/hooks/useMovies.ts:58-64 | a successful fetch ends not loading, without error, with at most ten movies and the response's page count |
| UseMovies.BrowseFailure | src/hooks/useMovies.ts:46-64 | a failed fetch ends not loading, with an error, and with the previous movies and totalPages; for a non-ok response the error is `Error <status>: <statusText>` |
| UseMovies.CaughtMessages | src/hooks/useMovies.ts:61-62 | a thrown non-Error leaves `Error desconocido` after a browse and `Error en la búsqueda` after a search; a thrown Error leaves its own message in both |
| UseMovies.BrowseKeepsCap | src/hooks/useMovies.ts:59 | at most ten movies is preserved by the start and by every completion |
| UseMovies.FetchBrowse | src/hooks/useMovies.ts:41-65 | a whole fetch, with or without a key, ends as the plain reading of `fetchMovies`: loading set and error cleared, then the `try`, `catch` and `finally` |
| UseMovies.BrowseHook.constructor | src/hooks/useMovies.ts:34-50 | mounting gives the initial cells followed by the start of the mount fetch, with endpoint `popular` and page 1 by default |
| UseMovies.BrowseHook.Rerender | src/hooks/useMovies.ts:40-69 | the effect runs iff the endpoint or the page changed, and then the cells become `BeginBrowse` of the old cells |
| UseMovies.BrowseHook.Start | src/hooks/useMovies.ts:41-50 | the cells and the pending flag are those of `BeginBrowse`, and a request sent is counted as outstanding |
| UseMovies.BrowseHook.Settle | src/hooks/useMovies.ts:45-65 | only for a request that went out: the cells become `CompleteBrowse` of the old cells and the outcome, and one fewer request is outstanding |
| Js.SkipBlanksForward | src/hooks/useMovies.ts:81 | the leading scan of `trim()` passes only white space and stops at the first non-space or at the end |
| Js.SkipBlanksBackward | src/hooks/useMovies.ts:81 | the trailing scan of `trim()` passes only white space and stops after the last non-space, or at the start of the kept run |
| Js.Trim | src/hooks/useMovies.ts:81 | `trim()` is the slice between a blank prefix and a blank suffix, and it neither starts nor ends with white space |
| Js.TrimEmptyIffBlank | src/hooks/useMovies.ts:81 | `query.trim()` is empty exactly when every character is JavaScript white space |
| UseMovies.IsBlankQuery | src/hooks/useMovies.ts:81 | `!query.trim()` holds exactly when the query is made only of white space |
| UseMovies.BeginSearch | src/hooks/useMovies.ts:80-94 | a blank query empties the results and requests nothing; otherwise with no key the search settles at once with no results and the key message; with a key it requests, with loading set and error cleared |
| UseMovies.MissingKeySearchSettlesAtOnce | src/hooks/useMovies.ts:86-112 | with no key, the synchronous step of a non-blank search already equals the full `try` / `catch` / `finally` for any network outcome |
| UseMovies.CompleteSearch | src/hooks/useMovies.ts:89-112 | success stores the first ten results; failure stores the caught message and empties the results; loading ends false |
| UseMovies.BlankSearchIsLocal | src/hooks/useMovies.ts:80-84 | a blank search sets movies to `[]` and leaves loading and error unchanged |
| UseMovies.SearchSettles | src/hooks/useMovies.ts:86-112 | a non-blank search ends not loading, with at most ten movies, with an error iff the request failed, and without movies when it failed |
| UseMovies.SearchFailureClears | src/hooks/useMovies.ts:107-109 | a failed search never keeps stale results; a non-ok response gives the status message |
| UseMovies.Search | src/hooks/useMovies.ts:80-113 | a blank query only empties the results; any other query ends as loading set and error cleared followed by the `try`, `catch` and `finally` |
| UseMovies.SearchHook.constructor | src/hooks/useMovies.ts:76-78 | the initial search state is movies `[]`, loading false, error null |
| UseMovies.SearchHook.Begin | src/hooks/useMovies.ts:80-94 | the cells and the request flag are those of `BeginSearch`, and a request sent is counted as outstanding |
| UseMovies.SearchHook.Settle | src/hooks/useMovies.ts:89-112 | only for a request that went out: the cells become `CompleteSearch` of the old cells and the outcome, and one fewer request is outstanding |
| UseMovies.SearchHook.SearchMovies | src/hooks/useMovies.ts:80-113 | a request is made iff the query is not blank and the key is truthy; the final cells are `Search` of the old ones |
| UseMovies.ImageUrl | src/hooks/useMovies.ts:119-122 | a null or empty path gives `/placeholder-movie.svg`; otherwise the URL is the CDN base and the size (default `w500`) followed by the path unchanged |
| UseMovies.ImageUrlUnambiguous | src/hooks/useMovies.ts:121 | a CDN URL is never the placeholder, and it determines both its size and its path although no separator is inserted |
| MovieSlider.TopMovies | src/components/MovieSlider/MovieSlider.tsx:19-20 | the slice is the first min(10, n) movies, so totalSlides is at most ten |
| Js.Rem | src/components/MovieSlider/MovieSlider.tsx:23 | JavaScript `%`: the remainder takes the dividend's sign and the truncated quotient restores the dividend |
| MovieSlider.NextIndex | src/components/MovieSlider/MovieSlider.tsx:22-24 | from an index in [0, n), next is the following index, wrapping from n-1 to 0 |
| MovieSlider.PrevIndex | src/components/MovieSlider/MovieSlider.tsx:26-28 | from an index in [0, n), prev is the preceding index, wrapping from 0 to n-1 |
| MovieSlider.PrevUndoesNext | src/components/MovieSlider/MovieSlider.tsx:22-28 | prev undoes next and next undoes prev |
| MovieSlider.AdvanceIsModular | src/components/MovieSlider/MovieSlider.tsx:22-24 | k forward moves from i land on (i + k) mod n |
| MovieSlider.FullCycle | src/components/MovieSlider/MovieSlider.tsx:22-24 | n forward moves return to the starting slide |
| MovieSlider.ButtonsDisabled | src/components/MovieSlider/MovieSlider.tsx:79 | with at least one slide, the arrows are disabled exactly when next from the first slide stays on it |
| MovieSlider.DisabledExactlyWhenMovesAreIdle | src/components/MovieSlider/MovieSlider.tsx:79 | the arrows are disabled (totalSlides <= 1) exactly when neither move would change the slide |
| MovieSlider.ShowsLeftPreview | src/components/MovieSlider/MovieSlider.tsx:89 | for a slide in range, `topMovies[currentSlide - 1]` exists iff the slide is not the first |
| MovieSlider.ShowsRightPreview | src/components/MovieSlider/MovieSlider.tsx:99 | for a slide in range, `topMovies[currentSlide + 1]` exists iff the slide is not the last |
| MovieSlider.PreviewsDoNotWrap | src/components/MovieSlider/MovieSlider.tsx:89-106 | the left preview shows iff the slide is not the first, the right iff it is not the last; at the ends they do not wrap although the moves do |
| MovieSlider.SliderBranch | src/components/MovieSlider/MovieSlider.tsx:45-70 | loading first; then a truthy error or an empty slice gives the error view; otherwise the carousel over one to ten slides |
| MovieSlider.SlideView | src/components/MovieSlider/MovieSlider.tsx:84-161 | the focal card is the current movie with its `original` backdrop and w500 poster, previews are its true neighbours' w300 posters, the overview falls back to `No description available.` |
| MovieSlider.Slider.constructor | src/components/MovieSlider/MovieSlider.tsx:14-43 | the slide index starts at 0 and the mount effect arms a timer iff there is a slide |
| MovieSlider.Slider.SyncTimer | src/components/MovieSlider/MovieSlider.tsx:35-43 | the previous interval is cleared, the slide count is recorded, and a new interval is armed only for a non-empty slice |
| MovieSlider.Slider.Rerender | src/components/MovieSlider/MovieSlider.tsx:35-43 | the effect re-runs iff the slide count changed, so an armed interval always moves over the current count |
| MovieSlider.Slider.Unmount | src/components/MovieSlider/MovieSlider.tsx:42 | unmounting clears the interval |
| MovieSlider.Slider.NextSlide | src/components/MovieSlider/MovieSlider.tsx:22-24 | the index becomes `NextIndex` of the old one and stays in range |
| MovieSlider.Slider.PrevSlide | src/components/MovieSlider/MovieSlider.tsx:26-28 | the index becomes `PrevIndex` of the old one and stays in range |
| MovieSlider.Slider.Tick | src/components/MovieSlider/MovieSlider.tsx:38-40 | a timer tick is `nextSlide` over the slide count the armed interval sees |
| Pagination.ControlsFor | src/components/MovieList/MovieList.tsx:81-93 | previous is disabled iff the page is 1, next iff the page equals totalPages |
| Pagination.Click | src/components/MovieList/MovieList.tsx:79-96 | a disabled button requests nothing; previous requests page - 1, next requests page + 1 |
| Pagination.EnabledMoveStaysInBounds | src/components/MovieList/MovieList.tsx:81-95 | within [1, totalPages], a button is enabled iff its neighbour page exists, and it requests a page in range |
| Pagination.NavigateStaysInBounds | src/components/MovieList/MovieList.tsx:77-99 | any sequence of clicks from a page in [1, totalPages] stays in [1, totalPages] |
| Pagination.NextReachesEveryPage | src/components/MovieList/MovieList.tsx:91-96 | k presses of next from page 1 reach page 1 + k, so every page is reachable |
| Pagination.NextEnabledPastLastPage | src/components/MovieList/MovieList.tsx:93 | the `===` test guards only the exact last page: past it, next stays enabled |
| MoviesGrid.Effective | src/components/MoviesGrid/MoviesGrid.tsx:19-30 | absent props default to showPagination false, currentPage 1, totalPages 1, loading false, error null |
| MoviesGrid.HeaderFor | src/components/MoviesGrid/MoviesGrid.tsx:92-97 | the header block shows iff the title or the subtitle is a non-empty string, each line iff its own prop is |
| MoviesGrid.Render | src/components/MoviesGrid/MoviesGrid.tsx:47-133 | loading, then a truthy error, then an empty list, then the grid; the bar shows iff showPagination and totalPages > 1 |
| MoviesGrid.HandlePageChange | src/components/MoviesGrid/MoviesGrid.tsx:40-45 | the page is forwarded unchanged iff an `onPageChange` callback was passed |
| MoviesGrid.PaginationShown | src/components/MoviesGrid/MoviesGrid.tsx:109 | the grid's bar shows iff `showPagination` and more than one page; its meaning for clicks is stated by `ClickPage` and `GridRequestsStayInBounds` |
| MoviesGrid.ClickPage | src/components/MoviesGrid/MoviesGrid.tsx:111-127 | a click hands up a page only from a shown bar with a callback, previous page - 1 and next page + 1; with both present only a disabled end button hands up nothing |
| MoviesGrid.GridRequestsStayInBounds | src/components/MoviesGrid/MoviesGrid.tsx:109-131 | from a page in range, the grid requests a page iff the bar is shown, the button is enabled and a callback exists, and that page is in range |
| MovieList.Endpoint | src/components/MovieList/MovieList.tsx:13 | each category fetches its own API endpoint, `popular`, `top_rated`, `upcoming` or `now_playing` |
| MovieList.Heading | src/components/MovieList/MovieList.tsx:57-60 | each category renders its own heading |
| MovieList.HeadingInjective | src/components/MovieList/MovieList.tsx:56-61 | every heading is non-empty and no two categories share one, so exactly one heading shows |
| MovieList.Render | src/components/MovieList/MovieList.tsx:25-100 | loading, then a truthy error, then the list (with no separate empty branch), with its heading and count; the bar shows iff totalPages > 1 |
| MovieList.PaginationShown | src/components/MovieList/MovieList.tsx:77 | the list's bar shows iff there is more than one page; `Render` and `ClickPagination` state what follows from it |
| MovieList.MovieListState.constructor | src/components/MovieList/MovieList.tsx:11-12 | the category defaults to `popular` and the page starts at 1 |
| MovieList.MovieListState.HandlePageChange | src/components/MovieList/MovieList.tsx:20-23 | the page becomes the requested page and nothing else changes |
| MovieList.MovieListState.ClickPagination | src/components/MovieList/MovieList.tsx:77-99 | a click fires only when the list view shows the bar with that button enabled; enabled clicks keep the page in [1, totalPages] |
| MovieList.MovieListState.SelectPage | src/components/MovieList/MovieList.tsx:12-23 | after a page change, the hook is re-rendered with the new page, and its effect runs (`BeginBrowse`) iff the page changed |
| MovieList.MovieListState.Rerender | src/components/MovieList/MovieList.tsx:11-13 | a new `category` prop keeps the page cell, so the hook fetches that same page of the new endpoint, and a fetch starts iff the category changed |
| MoviesComingSoon.OverviewText | src/components/MoviesCommingSoon/MoviesCommingSoon.tsx:62-67 | an empty overview gives `Descripción no disponible`; more than 100 characters give the first 100 plus `...`; otherwise the overview unchanged |
| MoviesComingSoon.OverviewIsPrefixBounded | src/components/MoviesCommingSoon/MoviesCommingSoon.tsx:63-66 | the shown text is at most 103 characters, exactly 103 when cut, and starts with the overview's own opening |
| MoviesComingSoon.CardFor | src/components/MoviesCommingSoon/MoviesCommingSoon.tsx:48-75 | one card: the movie, its w300 poster URL and its shortened overview, as `Render` states for every card |
| MoviesComingSoon.Render | src/components/MoviesCommingSoon/MoviesCommingSoon.tsx:19-78 | loading first; then a truthy error or an empty list shows the error or `No hay próximos estrenos disponibles`; otherwise one card per movie with its w300 poster and its shortened overview |

## Left out

- `fetch`, `response.json()`, URL building and `encodeURIComponent` are I/O. The network outcome
  is an input. The `page` argument of `searchMovies` is used only in the URL. The endpoint and
  page of `useMovies` appear in the URL, which is not modelled, and as the effect's
  dependencies, which are (`BrowseHook.Rerender`).
- The API key lookup from the build environment is external. The key is a constructor parameter
  (`apiKey`), and `!API_KEY` is its truthiness.
- Concurrency: overlapping requests and the stale-response race. Each `Settle` is one atomic
  step. Nothing orders several pending requests, and the code does not attempt to.
- Timer timing: `setInterval` every 5000 ms is modelled as discrete `Tick` events.
- `formatRating` is floating-point `Math.round` arithmetic. The rating fields of a movie are
  left out for the same reason.
- The release year (`new Date(...).getFullYear()`) is date parsing by a library.
- Browser side effects (`window.scrollTo`, `window.location.reload`, `console.log`) and the
  `onMovieClick` callbacks. `Slide.focal` records which movie a click hands over.
- `useUpcomingMovies` is not defined in the repository. Its `{movies, loading, error}` output
  is an input of `MoviesComingSoon.Render`.
- Markup and wiring files (`Header.tsx`, `Home.tsx`, `MovieCard.tsx`, `App.tsx`, `main.tsx`,
  `fontawesome.ts`) hold no logic to model.
- Strings are sequences of Unicode scalar values. JavaScript lengths and `substring` count
  UTF-16 code units, so the two agree only for text without astral characters.
- MovieSlider.NextIndex: requires totalSlides > 0. The source computes NaN at 0, and its
  callers never call it then (no buttons, no timer).
- MovieSlider.PrevIndex: requires totalSlides > 0, for the same reason.
