/**
 * The upcoming-releases panel (src/components/MoviesCommingSoon/MoviesCommingSoon.tsx):
 * the choice of view and the shortened overview of each movie. The hook that feeds
 * it, `useUpcomingMovies`, is not part of this model; its state is an input.
 */
module MoviesComingSoon {
  import opened Wrappers
  import Js
  import opened UseMovies

  /** Overviews longer than this are cut. */
  const OverviewLimit: nat := 100
  const Ellipsis: string := "..."
  const NoOverview: string := "Descripción no disponible"
  const NoUpcoming: string := "No hay próximos estrenos disponibles"

  /** The overview as a card shows it: a placeholder, the first 100 characters and "...", or verbatim. */
  function OverviewText(overview: string): (r: string)
    ensures overview == "" ==> r == NoOverview
    ensures |overview| > OverviewLimit ==> r == overview[..OverviewLimit] + Ellipsis
    ensures 1 <= |overview| <= OverviewLimit ==> r == overview
  {
    if overview == "" then NoOverview
    else if |overview| > OverviewLimit then overview[..OverviewLimit] + Ellipsis
    else overview
  }

  /** What a card shows is never longer than 103 characters, and it starts with the overview's own opening. */
  lemma OverviewIsPrefixBounded(overview: string)
    ensures |OverviewText(overview)| <= OverviewLimit + |Ellipsis|
    ensures |overview| > OverviewLimit ==> |OverviewText(overview)| == OverviewLimit + |Ellipsis|
    ensures overview != "" ==>
      var k := if |overview| < OverviewLimit then |overview| else OverviewLimit;
      OverviewText(overview)[..k] == overview[..k]
  {
  }

  /** One card of the list. */
  datatype Card = Card(movie: Movie, poster: string, overview: string)

  datatype View = Loading | Message(text: string) | List(cards: seq<Card>)

  function CardFor(m: Movie): Card {
    Card(m, ImageUrl(m.posterPath, Some(W300)), OverviewText(m.overview))
  }

  /** Loading first; then a truthy error or an empty list shows a message; otherwise one card per movie. */
  function Render(loading: bool, error: Option<string>, movies: seq<Movie>): (v: View)
    ensures v == Loading <==> loading
    ensures v.Message? <==> !loading && (Js.Truthy(error) || movies == [])
    ensures v.Message? ==> v.text == if Js.Truthy(error) then error.value else NoUpcoming
    ensures v.List? ==> |v.cards| == |movies| > 0
    ensures v.List? ==> forall i :: 0 <= i < |v.cards| ==>
      && v.cards[i].movie == movies[i]
      && v.cards[i].poster == ImageUrl(movies[i].posterPath, Some(W300))
      && v.cards[i].overview == OverviewText(movies[i].overview)
  {
    if loading then Loading
    else if Js.Truthy(error) || |movies| == 0 then Message(Js.Or(error, NoUpcoming))
    else List(seq(|movies|, i requires 0 <= i < |movies| => CardFor(movies[i])))
  }
}
