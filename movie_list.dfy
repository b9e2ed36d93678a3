/**
 * The paginated category list (src/components/MovieList/MovieList.tsx): a page
 * number kept in state, the browse hook fed with the category and that page, and
 * the view chosen from the hook's state.
 */
module MovieList {
  import opened Wrappers
  import Js
  import opened UseMovies
  import Pagination

  /** The four list endpoints of the catalog API. */
  datatype Category = Popular | TopRated | Upcoming | NowPlaying

  /** The endpoint name passed to `useMovies`: the category's path segment of the catalog API. */
  function Endpoint(c: Category): (r: string)
    ensures c == Popular ==> r == "popular"
    ensures c == TopRated ==> r == "top_rated"
    ensures c == Upcoming ==> r == "upcoming"
    ensures c == NowPlaying ==> r == "now_playing"
  {
    match c
    case Popular => "popular"
    case TopRated => "top_rated"
    case Upcoming => "upcoming"
    case NowPlaying => "now_playing"
  }

  const PopularHeading: string := "Películas Populares"
  const TopRatedHeading: string := "Mejor Valoradas"
  const UpcomingHeading: string := "Próximamente"
  const NowPlayingHeading: string := "En Cartelera"

  /** The four `category === ... && '...'` expressions; a false one renders nothing. */
  function Heading(c: Category): (h: string)
    ensures c == Popular ==> h == PopularHeading
    ensures c == TopRated ==> h == TopRatedHeading
    ensures c == Upcoming ==> h == UpcomingHeading
    ensures c == NowPlaying ==> h == NowPlayingHeading
  {
    (if c == Popular then PopularHeading else "") +
    (if c == TopRated then TopRatedHeading else "") +
    (if c == Upcoming then UpcomingHeading else "") +
    (if c == NowPlaying then NowPlayingHeading else "")
  }

  /** Every category has a heading, and no two categories share one. */
  lemma HeadingInjective(c1: Category, c2: Category)
    ensures Heading(c1) != ""
    ensures Heading(c1) == Heading(c2) ==> c1 == c2
  {
    if c1 != c2 {
      var h1, h2 := Heading(c1), Heading(c2);
      assert h1[0] != h2[0] || h1[1] != h2[1];
    }
  }

  datatype View =
    | ListLoading
    | ListError(message: string)
    | ListPage(heading: string, count: nat, cards: seq<Movie>, pagination: Option<Pagination.Controls>)

  /** `totalPages > 1`: the bar is shown only when there is another page. */
  predicate PaginationShown(totalPages: int) {
    totalPages > 1
  }

  /** The rendered view: loading, then a truthy error, then the list (an empty list included). */
  function Render(category: Category, currentPage: int, hook: BrowseState): (v: View)
    ensures v == ListLoading <==> hook.loading
    ensures v.ListError? <==> !hook.loading && Js.Truthy(hook.error)
    ensures v.ListError? ==> v.message == hook.error.value
    ensures v.ListPage? <==> !hook.loading && !Js.Truthy(hook.error)
    ensures v.ListPage? ==> v.heading == Heading(category) && v.count == |hook.movies| && v.cards == hook.movies
    ensures v.ListPage? ==> (v.pagination.Some? <==> PaginationShown(hook.totalPages))
    ensures v.ListPage? && v.pagination.Some? ==>
      v.pagination.value == Pagination.ControlsFor(currentPage, hook.totalPages)
  {
    if hook.loading then ListLoading
    else if Js.Truthy(hook.error) then ListError(hook.error.value)
    else ListPage(Heading(category), |hook.movies|, hook.movies,
      if PaginationShown(hook.totalPages) then Some(Pagination.ControlsFor(currentPage, hook.totalPages)) else None)
  }

  /** The component's own state: its category prop and the `currentPage` cell. */
  class MovieListState {
    var category: Category
    var currentPage: int

    /** `category = 'popular'` by default; `useState(1)`. */
    constructor(category: Option<Category>)
      ensures this.category == category.GetOr(Popular) && currentPage == 1
    {
      this.category := category.GetOr(Popular);
      currentPage := 1;
    }

    /** `handlePageChange(page)`: store the page as given; nothing is validated. */
    method HandlePageChange(page: int)
      modifies this`currentPage
      ensures currentPage == page
    {
      currentPage := page;
    }

    /** The page a click on a pagination button asks for, given what the list shows; None if no enabled button is there. */
    function ClickTarget(b: Pagination.Button, hook: BrowseState): Option<int>
      reads this
    {
      var v := Render(category, currentPage, hook);
      if v.ListPage? && v.pagination.Some? then Pagination.Click(v.pagination.value, b) else None
    }

    /**
     * A click on a pagination button of the list as rendered from `hook`: it fires only
     * when the list view shows the bar with that button enabled, and then changes the page.
     */
    method ClickPagination(b: Pagination.Button, hook: BrowseState) returns (requested: Option<int>)
      modifies this`currentPage
      ensures requested == old(ClickTarget(b, hook))
      ensures requested.Some? <==>
        !hook.loading && !Js.Truthy(hook.error) && PaginationShown(hook.totalPages) &&
        !(if b == Pagination.Previous then old(currentPage) == 1 else old(currentPage) == hook.totalPages)
      ensures currentPage == requested.GetOr(old(currentPage))
      ensures 1 <= old(currentPage) <= hook.totalPages ==> 1 <= currentPage <= hook.totalPages
    {
      if 1 <= currentPage <= hook.totalPages {
        Pagination.EnabledMoveStaysInBounds(currentPage, hook.totalPages, b);
      }
      requested := ClickTarget(b, hook);
      if requested.Some? {
        HandlePageChange(requested.value);
      }
    }

    /**
     * A page change followed by the re-render it causes: the hook sees the new page
     * and starts a fetch exactly when the page differs from the one it last fetched.
     */
    method SelectPage(hook: BrowseHook, page: int) returns (started: bool)
      requires hook.endpoint == Endpoint(category) && hook.page == currentPage
      modifies this`currentPage, hook
      ensures currentPage == page && hook.endpoint == Endpoint(category) && hook.page == page
      ensures started <==> page != old(currentPage)
      ensures hook.State() == if started then BeginBrowse(old(hook.State()), hook.apiKey).0 else old(hook.State())
      ensures hook.outstanding == old(hook.outstanding) + if started && Js.Truthy(hook.apiKey) then 1 else 0
    {
      HandlePageChange(page);
      started := hook.Rerender(Endpoint(category), currentPage);
    }

    /**
     * A re-render with a (possibly different) `category` prop. The page cell keeps
     * its value, so the hook fetches that same page of the new endpoint, and a fetch
     * starts exactly when the category changed.
     */
    method Rerender(hook: BrowseHook, category: Option<Category>) returns (started: bool)
      requires hook.endpoint == Endpoint(this.category) && hook.page == currentPage
      modifies this`category, hook
      ensures this.category == category.GetOr(Popular) && currentPage == old(currentPage)
      ensures hook.endpoint == Endpoint(this.category) && hook.page == currentPage
      ensures started <==> this.category != old(this.category)
      ensures hook.State() == if started then BeginBrowse(old(hook.State()), hook.apiKey).0 else old(hook.State())
      ensures hook.outstanding == old(hook.outstanding) + if started && Js.Truthy(hook.apiKey) then 1 else 0
    {
      this.category := category.GetOr(Popular);
      started := hook.Rerender(Endpoint(this.category), currentPage);
    }
  }
}
