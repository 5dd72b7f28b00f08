/** The "More Like This" tab: the first twelve recommendation entries of a
    title, each projected onto the fields of a movie/series card. */
module Recommendations {
  import opened Js

  /** How many recommendation cards the tab shows at most. */
  const MaxCards := 12

  /** One entry of `recommendations.results` as the media database returns it. */
  datatype Entry = Entry(
    id: int,
    title: Option<string>,
    name: Option<string>,
    releaseDate: Option<string>,
    firstAirDate: Option<string>,
    backdropPath: Option<string>,
    posterPath: Option<string>,
    mediaType: Option<string>,
    voteAverage: Option<real>,
    overview: Option<string>)

  /** The properties handed to one recommendation card. */
  datatype Card = Card(
    id: int,
    poster: Option<string>,
    title: Option<string>,
    date: Option<string>,
    mediaType: Option<string>,
    voteAverage: Option<real>,
    description: Option<string>)

  function Min(a: int, b: int): int {
    if a <= b then a else b
  }

  /** The card for one entry: movies carry `title` and `release_date`, series
      carry `name` and `first_air_date`; the landscape backdrop is the picture. */
  function ToCard(e: Entry): (c: Card)
    ensures c.id == e.id && c.mediaType == e.mediaType
    ensures c.voteAverage == e.voteAverage && c.description == e.overview
    ensures c.poster == e.backdropPath
    ensures Truthy(e.title) ==> c.title == e.title
    ensures !Truthy(e.title) ==> c.title == e.name
    ensures Truthy(e.releaseDate) ==> c.date == e.releaseDate
    ensures !Truthy(e.releaseDate) ==> c.date == e.firstAirDate
  {
    Card(e.id, e.backdropPath, Or(e.title, e.name), Or(e.releaseDate, e.firstAirDate),
         e.mediaType, e.voteAverage, e.overview)
  }

  /** `entries.map(ToCard)`. */
  function MapCards(entries: seq<Entry>): (cards: seq<Card>)
    ensures |cards| == |entries|
    ensures forall i :: 0 <= i < |entries| ==> cards[i] == ToCard(entries[i])
  {
    if entries == [] then [] else [ToCard(entries[0])] + MapCards(entries[1..])
  }

  /** `recommended.slice(0, 12).map(...)`: one card per entry, in the order the
      database returned them, for at most the first twelve entries. */
  function Recommended(recommended: seq<Entry>): (cards: seq<Card>)
    ensures |cards| == Min(MaxCards, |recommended|)
    ensures forall i :: 0 <= i < |cards| ==> cards[i] == ToCard(recommended[i])
  {
    MapCards(recommended[..Min(MaxCards, |recommended|)])
  }

  /** The tab as the page draws it: `recommended.slice(0, 12)` throws a
      TypeError when `recommended` is undefined, which is `None` here. */
  function RecommendedTab(recommended: Option<seq<Entry>>): (cards: Option<seq<Card>>)
    ensures cards.None? <==> recommended.None?
    ensures cards.Some? ==> |cards.value| == Min(MaxCards, |recommended.value|)
    ensures cards.Some? ==> forall i :: 0 <= i < |cards.value| ==>
      cards.value[i] == ToCard(recommended.value[i])
  {
    match recommended
    case None => None
    case Some(entries) => Some(Recommended(entries))
  }

  /** Entries after the twelfth never show. */
  lemma RecommendedIgnoresTail(recommended: seq<Entry>, more: seq<Entry>)
    requires |recommended| >= MaxCards
    ensures Recommended(recommended + more) == Recommended(recommended)
  {
  }

  /** Two lists of entries that differ only in `poster_path` give the same cards. */
  lemma PosterPathUnused(recommended: seq<Entry>, other: seq<Entry>)
    requires |recommended| == |other|
    requires forall i :: 0 <= i < |other| ==>
      other[i] == recommended[i].(posterPath := other[i].posterPath)
    ensures Recommended(other) == Recommended(recommended)
  {
  }
}
