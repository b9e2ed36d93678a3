/**
 * The reusable movie grid (src/components/MoviesGrid/MoviesGrid.tsx): a stateless
 * component whose output is a function of its props.
 */
module MoviesGrid {
  import opened Wrappers
  import Js
  import opened UseMovies
  import Pagination

  /**
   * The props as a caller passes them; an absent optional prop is None.
   * `hasPageChange` says whether an `onPageChange` callback was passed.
   */
  datatype GridProps = GridProps(
    movies: seq<Movie>,
    title: Option<string>,
    subtitle: Option<string>,
    showPagination: Option<bool>,
    currentPage: Option<int>,
    totalPages: Option<int>,
    hasPageChange: bool,
    loading: Option<bool>,
    error: Option<string>)

  /** The props after the destructuring defaults are applied. */
  datatype Settings = Settings(showPagination: bool, currentPage: int, totalPages: int, loading: bool, error: Option<string>)

  /** Defaults: no pagination, page 1 of 1, not loading, no error. */
  function Effective(p: GridProps): (s: Settings)
    ensures p.showPagination == None ==> !s.showPagination
    ensures p.currentPage == None ==> s.currentPage == 1
    ensures p.totalPages == None ==> s.totalPages == 1
    ensures p.loading == None ==> !s.loading
    ensures p.error == None ==> s.error == None
    ensures p.showPagination.Some? ==> s.showPagination == p.showPagination.value
    ensures p.currentPage.Some? ==> s.currentPage == p.currentPage.value
    ensures p.totalPages.Some? ==> s.totalPages == p.totalPages.value
    ensures p.loading.Some? ==> s.loading == p.loading.value
    ensures p.error.Some? ==> s.error == p.error
  {
    Settings(p.showPagination.GetOr(false), p.currentPage.GetOr(1), p.totalPages.GetOr(1), p.loading.GetOr(false), p.error)
  }

  /** The header block: each line is present when its prop is a non-empty string. */
  datatype Header = Header(title: Option<string>, subtitle: Option<string>)

  datatype View =
    | GridLoading
    | GridError(message: string)
    | GridEmpty
    | Grid(header: Option<Header>, cards: seq<Movie>, pagination: Option<Pagination.Controls>)

  /** `(title || subtitle) && <header>`, with `title && <h2>` and `subtitle && <p>` inside. */
  function HeaderFor(title: Option<string>, subtitle: Option<string>): (h: Option<Header>)
    ensures h.Some? <==> Js.Truthy(title) || Js.Truthy(subtitle)
    ensures h.Some? ==> (h.value.title.Some? <==> Js.Truthy(title)) && (h.value.subtitle.Some? <==> Js.Truthy(subtitle))
    ensures h.Some? && h.value.title.Some? ==> h.value.title == title
    ensures h.Some? && h.value.subtitle.Some? ==> h.value.subtitle == subtitle
  {
    if Js.Truthy(title) || Js.Truthy(subtitle) then
      Some(Header(if Js.Truthy(title) then title else None, if Js.Truthy(subtitle) then subtitle else None))
    else None
  }

  /** `showPagination && totalPages > 1`. */
  predicate PaginationShown(s: Settings) {
    s.showPagination && s.totalPages > 1
  }

  /** The rendered view, branch by branch in the order the component tests them. */
  function Render(p: GridProps): (v: View)
    ensures v == GridLoading <==> Effective(p).loading
    ensures v.GridError? <==> !Effective(p).loading && Js.Truthy(Effective(p).error)
    ensures v.GridError? ==> v.message == p.error.value
    ensures v == GridEmpty <==> !Effective(p).loading && !Js.Truthy(Effective(p).error) && p.movies == []
    ensures v.Grid? ==> |v.cards| > 0 && v.cards == p.movies
    ensures v.Grid? ==> v.header == HeaderFor(p.title, p.subtitle)
    ensures v.Grid? ==> (v.pagination.Some? <==> PaginationShown(Effective(p)))
    ensures v.Grid? && v.pagination.Some? ==>
      v.pagination.value == Pagination.ControlsFor(Effective(p).currentPage, Effective(p).totalPages)
  {
    var s := Effective(p);
    if s.loading then GridLoading
    else if Js.Truthy(s.error) then GridError(s.error.value)
    else if |p.movies| == 0 then GridEmpty
    else
      Grid(HeaderFor(p.title, p.subtitle), p.movies,
        if PaginationShown(s) then Some(Pagination.ControlsFor(s.currentPage, s.totalPages)) else None)
  }

  /** `handlePageChange(page)`: the page passed on to `onPageChange`, or None when there is no callback. */
  function HandlePageChange(p: GridProps, page: int): (forwarded: Option<int>)
    ensures forwarded.Some? <==> p.hasPageChange
    ensures forwarded.Some? ==> forwarded.value == page
  {
    if p.hasPageChange then Some(page) else None
  }

  /** The page a click on a rendered pagination button hands to the parent, if any. */
  function ClickPage(p: GridProps, b: Pagination.Button): (r: Option<int>)
    ensures r.Some? ==> Render(p).Grid? && PaginationShown(Effective(p)) && p.hasPageChange
    ensures r.Some? ==>
      r.value == if b == Pagination.Previous then Effective(p).currentPage - 1 else Effective(p).currentPage + 1
    ensures r.None? && Render(p).Grid? && PaginationShown(Effective(p)) && p.hasPageChange ==>
      if b == Pagination.Previous then Effective(p).currentPage == 1
      else Effective(p).currentPage == Effective(p).totalPages
  {
    var v := Render(p);
    if v.Grid? && v.pagination.Some? then
      var page := Pagination.Click(v.pagination.value, b);
      if page.Some? then HandlePageChange(p, page.value) else None
    else None
  }

  /**
   * Within the page range, the grid only ever asks its parent for a page in the range,
   * and it asks exactly when the bar is shown, the button enabled and a callback passed.
   */
  lemma GridRequestsStayInBounds(p: GridProps, b: Pagination.Button)
    requires 1 <= Effective(p).currentPage <= Effective(p).totalPages
    ensures var r := ClickPage(p, b); var s := Effective(p);
      && (r.Some? <==>
            Render(p).Grid? && PaginationShown(s) && p.hasPageChange &&
            (if b == Pagination.Previous then s.currentPage > 1 else s.currentPage < s.totalPages))
      && (r.Some? ==> 1 <= r.value <= s.totalPages)
  {
    var s := Effective(p);
    Pagination.EnabledMoveStaysInBounds(s.currentPage, s.totalPages, b);
  }
}
