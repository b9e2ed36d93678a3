/**
 * The top-rated carousel (src/components/MovieSlider/MovieSlider.tsx): a slide index
 * over the first ten top-rated movies, moved by the arrow buttons and by a repeating
 * timer, and the choice of what the component renders.
 */
module MovieSlider {
  import opened Wrappers
  import Js
  import opened UseMovies

  /** `topMovies = movies.slice(0, 10)`, whose length is `totalSlides`. */
  function TopMovies(movies: seq<Movie>): (top: seq<Movie>)
    ensures |top| <= 10 && |top| <= |movies| && top == movies[..|top|]
    ensures |movies| >= 10 ==> |top| == 10
    ensures |movies| < 10 ==> top == movies
  {
    FirstTen(movies)
  }

  /** `nextSlide`: `(prev + 1) % totalSlides`, with JavaScript's `%`. */
  function NextIndex(i: int, n: int): (r: int)
    requires n > 0
    ensures 0 <= i < n ==> 0 <= r < n && r == if i + 1 == n then 0 else i + 1
  {
    if 0 <= i < n then
      if i + 1 == n then DivModUnique(n, n, 1, 0); Js.Rem(i + 1, n)
      else DivModUnique(i + 1, n, 0, i + 1); Js.Rem(i + 1, n)
    else Js.Rem(i + 1, n)
  }

  /** `prevSlide`: `(prev - 1 + totalSlides) % totalSlides`; slide 0 goes to the last slide. */
  function PrevIndex(i: int, n: int): (r: int)
    requires n > 0
    ensures 0 <= i < n ==> 0 <= r < n && r == if i == 0 then n - 1 else i - 1
  {
    if 0 <= i < n then
      if i == 0 then DivModUnique(n - 1, n, 0, n - 1); Js.Rem(i - 1 + n, n)
      else DivModUnique(i - 1 + n, n, 1, i - 1); Js.Rem(i - 1 + n, n)
    else Js.Rem(i - 1 + n, n)
  }

  /** The two moves undo each other. */
  lemma PrevUndoesNext(i: int, n: int)
    requires 0 <= i < n
    ensures PrevIndex(NextIndex(i, n), n) == i
    ensures NextIndex(PrevIndex(i, n), n) == i
  {
  }

  /** The slide after k moves forward (k button presses or k timer ticks). */
  function Advance(i: int, n: int, k: nat): int
    requires n > 0
    decreases k
  {
    if k == 0 then i else NextIndex(Advance(i, n, k - 1), n)
  }

  /** Euclidean division is unique: a quotient and a remainder in range are `/` and `%`. */
  lemma DivModUnique(a: int, n: int, q: int, r: int)
    requires n > 0 && 0 <= r < n && a == q * n + r
    ensures a / n == q && a % n == r
  {
    var q', r' := a / n, a % n;
    var d := q - q';
    assert d * n == r' - r by {
      assert q * n - q' * n == (q - q') * n;
    }
    if d >= 1 {
      MulAtLeast(d, n);
    } else if d <= -1 {
      MulAtLeast(-d, n);
    }
  }

  lemma {:induction false} MulAtLeast(d: int, n: int)
    requires d >= 1 && n > 0
    ensures d * n >= n
    decreases d
  {
    if d > 1 {
      MulAtLeast(d - 1, n);
      assert d * n == (d - 1) * n + n;
    }
  }

  /** One more step forward adds one modulo n. */
  lemma ModSuccessor(a: int, n: int)
    requires n > 0
    ensures (a + 1) % n == if a % n + 1 == n then 0 else a % n + 1
  {
    var q, r := a / n, a % n;
    assert a == q * n + r;
    if r + 1 == n {
      DivModUnique(a + 1, n, q + 1, 0);
    } else {
      DivModUnique(a + 1, n, q, r + 1);
    }
  }

  /** k moves forward land on slide (i + k) mod n. */
  lemma {:induction false} AdvanceIsModular(i: int, n: int, k: nat)
    requires 0 <= i < n
    ensures Advance(i, n, k) == (i + k) % n
    decreases k
  {
    if k > 0 {
      AdvanceIsModular(i, n, k - 1);
      ModSuccessor(i + k - 1, n);
    }
  }

  /** n moves forward return to the starting slide. */
  lemma FullCycle(i: int, n: int)
    requires 0 <= i < n
    ensures Advance(i, n, n) == i
  {
    AdvanceIsModular(i, n, n);
    DivModUnique(i + n, n, 1, i);
  }

  /** The arrow buttons are disabled when `totalSlides <= 1`. */
  predicate ButtonsDisabled(totalSlides: int)
    ensures 0 < totalSlides ==> (ButtonsDisabled(totalSlides) <==> NextIndex(0, totalSlides) == 0)
  {
    totalSlides <= 1
  }

  /** The buttons are disabled exactly when neither move would change the slide. */
  lemma DisabledExactlyWhenMovesAreIdle(i: int, n: int)
    requires 0 <= i < n
    ensures ButtonsDisabled(n) <==> NextIndex(i, n) == i && PrevIndex(i, n) == i
  {
  }

  /** `topMovies[currentSlide - 1]` exists. */
  predicate ShowsLeftPreview(top: seq<Movie>, i: int)
    ensures 0 <= i < |top| ==> (ShowsLeftPreview(top, i) <==> i != 0)
  {
    0 <= i - 1 < |top|
  }

  /** `topMovies[currentSlide + 1]` exists. */
  predicate ShowsRightPreview(top: seq<Movie>, i: int)
    ensures 0 <= i < |top| ==> (ShowsRightPreview(top, i) <==> i != |top| - 1)
  {
    0 <= i + 1 < |top|
  }

  /** The previews show the true neighbours and do not wrap around, although the moves do. */
  lemma PreviewsDoNotWrap(top: seq<Movie>, i: int)
    requires 0 <= i < |top|
    ensures ShowsLeftPreview(top, i) <==> i > 0
    ensures ShowsRightPreview(top, i) <==> i + 1 < |top|
    ensures |top| >= 2 && i == 0 ==> !ShowsLeftPreview(top, i) && PrevIndex(i, |top|) == |top| - 1
    ensures |top| >= 2 && i == |top| - 1 ==> !ShowsRightPreview(top, i) && NextIndex(i, |top|) == 0
  {
  }

  /** What the component returns: the loading section, the error section or the carousel. */
  datatype Branch = Loading | Unavailable | Carousel

  /** `if (loading)`, then `if (error || topMovies.length === 0)`, then the carousel. */
  function SliderBranch(loading: bool, error: Option<string>, movies: seq<Movie>): (b: Branch)
    ensures b == Loading <==> loading
    ensures b == Unavailable <==> !loading && (Js.Truthy(error) || movies == [])
    ensures b == Carousel ==> 1 <= |TopMovies(movies)| <= 10
  {
    if loading then Loading
    else if Js.Truthy(error) || |TopMovies(movies)| == 0 then Unavailable
    else Carousel
  }

  /** The carousel's content for one slide. */
  datatype Slide = Slide(
    focal: Movie,                 // the movie `onMovieClick` receives
    leftPoster: Option<string>,   // the side previews (w300 posters)
    rightPoster: Option<string>,
    backdrop: string,             // the original-size backdrop
    poster: string,               // the w500 poster
    overview: string,
    buttonsDisabled: bool)

  const NoDescription: string := "No description available."

  function SlideView(top: seq<Movie>, i: int): (s: Slide)
    requires 0 <= i < |top|
    ensures s.focal == top[i]
    ensures s.leftPoster.Some? <==> i > 0
    ensures s.leftPoster.Some? ==> s.leftPoster.value == ImageUrl(top[i - 1].posterPath, Some(W300))
    ensures s.rightPoster.Some? <==> i + 1 < |top|
    ensures s.rightPoster.Some? ==> s.rightPoster.value == ImageUrl(top[i + 1].posterPath, Some(W300))
    ensures s.backdrop == ImageUrl(top[i].backdropPath, Some(Original))
    ensures s.poster == ImageUrl(top[i].posterPath, Some(W500))
    ensures s.overview == if top[i].overview == "" then NoDescription else top[i].overview
    ensures s.buttonsDisabled <==> |top| == 1
  {
    Slide(
      top[i],
      if ShowsLeftPreview(top, i) then Some(ImageUrl(top[i - 1].posterPath, Some(W300))) else None,
      if ShowsRightPreview(top, i) then Some(ImageUrl(top[i + 1].posterPath, Some(W300))) else None,
      ImageUrl(top[i].backdropPath, Some(Original)),
      ImageUrl(top[i].posterPath, Some(W500)),
      Js.Or(Some(top[i].overview), NoDescription),
      ButtonsDisabled(|top|))
  }

  /**
   * The component's own state: `currentSlide`, the slide count the auto-advance
   * effect last ran with (its dependency list), and the interval it has armed,
   * recorded as the slide count its callback closes over.
   */
  class Slider {
    var currentSlide: int
    var slides: nat
    var timer: Option<nat>

    /** An armed interval moves over the slide count the effect last ran with, which is not zero. */
    predicate Valid()
      reads this
    {
      timer.Some? ==> timer.value == slides && slides > 0
    }

    /** `0 <= currentSlide < totalSlides`. */
    predicate InRange(totalSlides: int)
      reads this
    {
      0 <= currentSlide < totalSlides
    }

    /** On mount the slide is 0 and the effect runs once with the first slide count. */
    constructor(totalSlides: nat)
      ensures Valid() && currentSlide == 0 && slides == totalSlides
      ensures timer == if totalSlides == 0 then None else Some(totalSlides)
    {
      currentSlide := 0;
      slides := totalSlides;
      timer := if totalSlides == 0 then None else Some(totalSlides);
    }

    /**
     * The effect keyed on `totalSlides`: its cleanup clears the previous interval,
     * then it arms a new one only when there is at least one slide.
     */
    method SyncTimer(totalSlides: nat)
      modifies this`slides, this`timer
      ensures Valid() && slides == totalSlides
      ensures timer == if totalSlides == 0 then None else Some(totalSlides)
    {
      timer := None;
      slides := totalSlides;
      if totalSlides != 0 {
        timer := Some(totalSlides);
      }
    }

    /**
     * A render with the slide count `totalSlides`: the effect re-runs exactly when
     * the count differs from the one it last ran with, so an armed interval always
     * moves over the current count.
     */
    method Rerender(totalSlides: nat) returns (rearmed: bool)
      requires Valid()
      modifies this`slides, this`timer
      ensures rearmed <==> totalSlides != old(slides)
      ensures Valid() && slides == totalSlides
      ensures rearmed ==> timer == if totalSlides == 0 then None else Some(totalSlides)
      ensures !rearmed ==> timer == old(timer)
      ensures timer.Some? ==> timer.value == totalSlides
    {
      rearmed := totalSlides != slides;
      if rearmed {
        SyncTimer(totalSlides);
      }
    }

    /** The unmount cleanup: `clearInterval`. */
    method Unmount()
      modifies this`timer
      ensures Valid() && timer == None && slides == old(slides)
    {
      timer := None;
    }

    /** `nextSlide`, as the "next" button calls it. */
    method NextSlide(totalSlides: int)
      requires totalSlides > 0
      modifies this`currentSlide
      ensures currentSlide == NextIndex(old(currentSlide), totalSlides)
      ensures old(InRange(totalSlides)) ==> InRange(totalSlides)
    {
      currentSlide := Js.Rem(currentSlide + 1, totalSlides);
    }

    /** `prevSlide`, as the "previous" button calls it. */
    method PrevSlide(totalSlides: int)
      requires totalSlides > 0
      modifies this`currentSlide
      ensures currentSlide == PrevIndex(old(currentSlide), totalSlides)
      ensures old(InRange(totalSlides)) ==> InRange(totalSlides)
    {
      currentSlide := Js.Rem(currentSlide - 1 + totalSlides, totalSlides);
    }

    /** One firing of the armed interval: the `nextSlide` of the render that armed it. */
    method Tick()
      requires Valid() && timer.Some?
      modifies this`currentSlide
      ensures currentSlide == NextIndex(old(currentSlide), timer.value)
      ensures old(InRange(timer.value)) ==> InRange(timer.value)
    {
      NextSlide(timer.value);
    }
  }
}
