/**
 * The top-rated selection (`prepareTopRatedCards`): the caller's record array
 * is sorted in place by rating, highest first, with a stable sort; the first
 * five records are then projected to the response's card shape.
 */
module TopRated {
  import opened JsValues
  import opened CardMapping
  import opened StableSort

  /** The CDN location every image id is appended to. */
  const ImagePrefix: string := "https://media-assets.swiggy.com/swiggy/image/upload/fl_lossy,f_auto,q_auto,w_208,h_208,c_fit/"

  /** How many cards the response carries at most. */
  const TopCount: nat := 5

  datatype Ratings = Ratings(rating: Json, ratingCount: Json, ratingCountV2: Json)

  /** One card of the response. */
  datatype TopCard = TopCard(name: Json, imageId: string, price: Json, ratings: Ratings)

  /** The sort key `parseFloat(card.aggregatedRating) || 0`. */
  function Rating(card: Record): real
  {
    RatingValue(card.aggregatedRating)
  }

  /** The projection of one record into the response's card shape; the image
      id is converted to a string and appended to the prefix. */
  function ToTopCard(card: Record): TopCard
  {
    TopCard(card.restaurantName, ImagePrefix + JsString(card.imageId), card.price,
            Ratings(card.aggregatedRating, card.ratingCount, card.ratingCountV2))
  }

  function Min(a: nat, b: nat): nat
  {
    if a <= b then a else b
  }

  /** `sorted.slice(0, 5).map(ToTopCard)`. */
  function TopCards(sorted: seq<Record>): seq<TopCard>
  {
    seq(Min(TopCount, |sorted|), k requires 0 <= k < Min(TopCount, |sorted|) => ToTopCard(sorted[k]))
  }

  /** The response's cards: `min(5, n)` of them, each the projection of an
      input record with the CDN prefix before its image id, highest rated
      first, none rated below a record that was left out, and records of
      equal rating in their input order. */
  lemma TopCardsSpec(s: seq<Record>)
    ensures |TopCards(SortDown(s, Rating))| == Min(TopCount, |s|)
    ensures forall k :: 0 <= k < |TopCards(SortDown(s, Rating))| ==>
      && SortDown(s, Rating)[k] in s
      && TopCards(SortDown(s, Rating))[k] == ToTopCard(SortDown(s, Rating)[k])
      && TopCards(SortDown(s, Rating))[k].imageId[..|ImagePrefix|] == ImagePrefix
    ensures forall k, j :: 0 <= k < |TopCards(SortDown(s, Rating))| && k < j < |s| ==>
      Rating(SortDown(s, Rating)[k]) >= Rating(SortDown(s, Rating)[j])
    ensures forall v :: WithKey(SortDown(s, Rating), Rating, v) == WithKey(s, Rating, v)
  {
    SortDownPermutes(s, Rating);
    SortDownSorted(s, Rating);
    var sorted := SortDown(s, Rating);
    forall k | 0 <= k < |sorted|
      ensures sorted[k] in s
    {
      assert sorted[k] in multiset(sorted);
    }
    forall v
      ensures WithKey(sorted, Rating, v) == WithKey(s, Rating, v)
    {
      SortDownStable(s, Rating, v);
    }
  }

  /** Whether the sort throws. The comparator applies `parseFloat` to the
      ratings of both records it compares, and with two or more records every
      record takes part in some comparison; a single record is never compared. */
  predicate SortThrows(cards: seq<Record>)
  {
    |cards| >= 2 && exists i :: 0 <= i < |cards| && ToPrimitiveThrows(cards[i].aggregatedRating)
  }

  /** Whether the projection of the first five sorted records throws: the
      prefix is concatenated with each one's image id. */
  predicate ProjectionThrows(sorted: seq<Record>)
  {
    exists k :: 0 <= k < Min(TopCount, |sorted|) && ToPrimitiveThrows(sorted[k].imageId)
  }

  /** `prepareTopRatedCards(processedCards)`: the cards, or the TypeError that
      the sort or the projection throws. */
  function TopRatedOf(cards: seq<Record>): Result<seq<TopCard>>
  {
    if SortThrows(cards) || ProjectionThrows(SortDown(cards, Rating)) then Err(ConversionError)
    else Ok(TopCards(SortDown(cards, Rating)))
  }

  /** A single record is never compared, so its rating is never converted:
      only its image id can make the selection throw. */
  lemma LoneRecordRatingUnread(card: Record)
    ensures TopRatedOf([card]).Err? <==> ToPrimitiveThrows(card.imageId)
    ensures TopRatedOf([card]).Ok? ==> TopRatedOf([card]).value == [ToTopCard(card)]
  {
    assert [card][..0] == [];
    assert SortDown([card], Rating) == [card];
  }

  /** `prepareTopRatedCards(processedCards)`: the caller's array is sorted in
      place, highest rating first, and the first five are projected. A
      comparator that throws leaves the array as it was, as the sort works
      on a copy of the items and writes them back only at the end. */
  method PrepareTopRatedCards(a: array<Record>) returns (top: Result<seq<TopCard>>)
    modifies a
    ensures top == TopRatedOf(old(a[..]))
    ensures SortThrows(old(a[..])) ==> a[..] == old(a[..])
    ensures !SortThrows(old(a[..])) ==> a[..] == SortDown(old(a[..]), Rating)
    ensures multiset(a[..]) == multiset(old(a[..]))
    ensures top.Ok? ==> SortedDown(a[..], Rating) && top.value == TopCards(a[..])
  {
    if SortThrows(a[..]) {
      return Err(ConversionError);
    }
    SortInPlace(a, Rating);
    SortDownPermutes(old(a[..]), Rating);
    SortDownSorted(old(a[..]), Rating);
    if ProjectionThrows(a[..]) {
      top := Err(ConversionError);
    } else {
      top := Ok(TopCards(a[..]));
    }
  }
}
