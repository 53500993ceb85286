/**
 * Turning raw dish cards into flat records (`processCards`): a structural
 * filter, a projection with defaults for absent fields, and a quality gate on
 * the three rating fields. The same chain as scrapev2 inlines it.
 */
module CardMapping {
  import opened JsValues
  import opened Sequences

  /** The flat record built for one dish card. Every field holds the JavaScript
      value `raw || default` evaluated to. */
  datatype Record = Record(
    restaurantName: Json,
    imageId: Json,
    price: Json,
    locality: Json,
    deliveryTime: Json,
    avgRatingRestaurant: Json,
    aggregatedRating: Json,
    ratingCount: Json,
    ratingCountV2: Json,
    lastMileTravel: Json)

  /** What the filter callback does with a card. */
  datatype Screening = Keep | Skip | Throws

  /** `card?.card?.card`. */
  function Inner(card: Json): Option<Json>
  {
    Member(Member(Some(card), "card"), "card")
  }

  /** `card?.card?.card?.["@type"]?.includes("Dish")`: undefined when the type
      is absent or null, a substring test on a string, an element test on an
      array, and a TypeError on any other value (it has no `includes`). */
  function DishMarker(card: Json): Result<bool>
  {
    match Member(Inner(card), "@type")
    case None => Ok(false)
    case Some(JNull) => Ok(false)
    case Some(JStr(s)) => Ok(HasSubstring(s, "Dish"))
    case Some(JArr(a)) => Ok(JStr("Dish") in a)
    case Some(_) => Err(TypeError("includes is not a function"))
  }

  /** The filter callback: a dish marker, a truthy `info` and a truthy
      `restaurant.info`. */
  function Screen(card: Json): Screening
  {
    match DishMarker(card)
    case Err(_) => Throws
    case Ok(isDish) =>
      if isDish && Truthy(Member(Inner(card), "info")) && Truthy(Member(Member(Inner(card), "restaurant"), "info"))
      then Keep else Skip
  }

  predicate IsKept(card: Json)
  {
    Screen(card) == Keep
  }

  /** `card.card.card.info`; the `|| {}` never applies after the filter. */
  function InfoOf(card: Json): Json
    requires IsKept(card)
  {
    Member(Inner(card), "info").value
  }

  /** `card.card.card.restaurant.info`. */
  function RestaurantOf(card: Json): Json
    requires IsKept(card)
  {
    Member(Member(Inner(card), "restaurant"), "info").value
  }

  /** `info.ratings?.aggregatedRating`. */
  function RatingsOf(card: Json): Option<Json>
    requires IsKept(card)
  {
    Member(Member(Some(InfoOf(card)), "ratings"), "aggregatedRating")
  }

  /** `restaurant.sla`. */
  function SlaOf(card: Json): Option<Json>
    requires IsKept(card)
  {
    Member(Some(RestaurantOf(card)), "sla")
  }

  /** The record literal: each leaf falls back to "" or 0 when it is absent
      or falsy, and is carried over unchanged otherwise. */
  function Project(card: Json): (r: Record)
    requires IsKept(card)
    ensures !Truthy(Member(Some(InfoOf(card)), "price")) ==> r.price == JNum(0.0)
    ensures Truthy(Member(Some(InfoOf(card)), "price")) ==> Some(r.price) == Member(Some(InfoOf(card)), "price")
    ensures !Truthy(Member(Some(RestaurantOf(card)), "name")) ==> r.restaurantName == JStr("")
    ensures Truthy(Member(Some(RestaurantOf(card)), "name")) ==> Some(r.restaurantName) == Member(Some(RestaurantOf(card)), "name")
    ensures !Truthy(Member(Some(InfoOf(card)), "imageId")) ==> r.imageId == JStr("")
    ensures Truthy(Member(Some(InfoOf(card)), "imageId")) ==> Some(r.imageId) == Member(Some(InfoOf(card)), "imageId")
    ensures !Truthy(Member(Some(RestaurantOf(card)), "locality")) ==> r.locality == JStr("")
    ensures Truthy(Member(Some(RestaurantOf(card)), "locality")) ==> Some(r.locality) == Member(Some(RestaurantOf(card)), "locality")
    ensures !Truthy(Member(SlaOf(card), "deliveryTime")) ==> r.deliveryTime == JStr("")
    ensures Truthy(Member(SlaOf(card), "deliveryTime")) ==> Some(r.deliveryTime) == Member(SlaOf(card), "deliveryTime")
    ensures !Truthy(Member(Some(RestaurantOf(card)), "avgRating")) ==> r.avgRatingRestaurant == JStr("")
    ensures Truthy(Member(Some(RestaurantOf(card)), "avgRating")) ==> Some(r.avgRatingRestaurant) == Member(Some(RestaurantOf(card)), "avgRating")
    ensures !Truthy(Member(SlaOf(card), "lastMileTravel")) ==> r.lastMileTravel == JNum(0.0)
    ensures Truthy(Member(SlaOf(card), "lastMileTravel")) ==> Some(r.lastMileTravel) == Member(SlaOf(card), "lastMileTravel")
    ensures !Truthy(Member(RatingsOf(card), "rating")) <==> r.aggregatedRating == JNum(0.0)
    ensures !Truthy(Member(RatingsOf(card), "ratingCount")) <==> r.ratingCount == JNum(0.0)
    ensures !Truthy(Member(RatingsOf(card), "ratingCountV2")) <==> r.ratingCountV2 == JNum(0.0)
  {
    var info := Some(InfoOf(card));
    var restaurant := Some(RestaurantOf(card));
    Record(
      Or(Member(restaurant, "name"), JStr("")),
      Or(Member(info, "imageId"), JStr("")),
      Or(Member(info, "price"), JNum(0.0)),
      Or(Member(restaurant, "locality"), JStr("")),
      Or(Member(SlaOf(card), "deliveryTime"), JStr("")),
      Or(Member(restaurant, "avgRating"), JStr("")),
      Or(Member(RatingsOf(card), "rating"), JNum(0.0)),
      Or(Member(RatingsOf(card), "ratingCount"), JNum(0.0)),
      Or(Member(RatingsOf(card), "ratingCountV2"), JNum(0.0)),
      Or(Member(SlaOf(card), "lastMileTravel"), JNum(0.0)))
  }

  /** The quality gate: none of the three rating fields is `=== 0`. */
  predicate IsRated(r: Record)
  {
    r.aggregatedRating != JNum(0.0) && r.ratingCount != JNum(0.0) && r.ratingCountV2 != JNum(0.0)
  }

  /** The async map callback: the record, or null when the gate rejects it. */
  function MapCard(card: Json): (r: Option<Record>)
    requires IsKept(card)
    ensures r.Some? <==>
      Truthy(Member(RatingsOf(card), "rating")) && Truthy(Member(RatingsOf(card), "ratingCount"))
      && Truthy(Member(RatingsOf(card), "ratingCountV2"))
    ensures r.Some? ==> r.value == Project(card) && IsRated(r.value)
  {
    var r := Project(card);
    if !IsRated(r) then None else Some(r)
  }

  /** `eligibleCards.map(...)` awaited with `Promise.all`, which keeps positions. */
  function MapCards(cards: seq<Json>): (r: seq<Option<Record>>)
    requires forall c :: c in cards ==> IsKept(c)
    ensures |r| == |cards|
    ensures forall k :: 0 <= k < |cards| ==> r[k] == MapCard(cards[k])
  {
    seq(|cards|, k requires 0 <= k < |cards| => MapCard(cards[k]))
  }

  predicate IsPresent(o: Option<Record>)
  {
    o.Some?
  }

  /** `filter(Boolean)`: records are objects, so exactly the nulls go. */
  function Compact(rs: seq<Option<Record>>): (r: seq<Record>)
    ensures |r| == |Filter(rs, IsPresent)|
    ensures forall k :: 0 <= k < |r| ==> Filter(rs, IsPresent)[k] == Some(r[k])
  {
    var present := Filter(rs, IsPresent);
    forall k | 0 <= k < |present| ensures present[k].Some? { FilterKeeps(rs, IsPresent, present[k]); }
    seq(|present|, k requires 0 <= k < |present| => present[k].value)
  }

  /** Each compacted record is the value of a non-null entry, in order, and
      every non-null entry contributes. */
  lemma CompactOrigins(rs: seq<Option<Record>>) returns (idx: seq<nat>)
    ensures |idx| == |Compact(rs)|
    ensures forall k :: 0 <= k < |idx| ==> idx[k] < |rs| && rs[idx[k]] == Some(Compact(rs)[k])
    ensures forall k, l :: 0 <= k < l < |idx| ==> idx[k] < idx[l]
    ensures forall i :: 0 <= i < |rs| && rs[i].Some? ==> i in idx
  {
    idx := FilterOrigins(rs, IsPresent);
    forall i | 0 <= i < |rs| && rs[i].Some?
      ensures i in idx
    {
      assert IsPresent(rs[i]);
    }
  }

  /** The cards that pass the filter callback. */
  function EligibleCards(cards: seq<Json>): (r: seq<Json>)
    ensures forall c :: c in r ==> IsKept(c)
  {
    var r := Filter(cards, IsKept);
    forall c | c in r ensures IsKept(c) { FilterKeeps(cards, IsKept, c); }
    r
  }

  /** Some card makes the filter callback throw. */
  predicate SomeCardThrows(cards: seq<Json>)
  {
    exists c :: c in cards && Screen(c) == Throws
  }

  /** `processCards(cardsArray)`: filter, map, drop nulls. A value without a
      `filter` method, or a callback that throws, rejects the whole call. */
  function ProcessCards(cardsArray: Json): Result<seq<Record>>
  {
    if !cardsArray.JArr? then Err(TypeError("cardsArray.filter is not a function"))
    else if SomeCardThrows(cardsArray.items) then Err(TypeError("includes is not a function"))
    else Ok(Compact(MapCards(EligibleCards(cardsArray.items))))
  }

  /** The card's `@type` is present, is not null, and is neither a string nor
      an array, so it has no `includes` to call. */
  predicate TypeLacksIncludes(card: Json)
  {
    var t := Member(Inner(card), "@type");
    t.Some? && !t.value.JNull? && !t.value.JStr? && !t.value.JArr?
  }

  /** `processCards` throws exactly when its argument is not an array, or when
      one card's `@type` has no `includes`; one such card fails the whole batch. */
  lemma ProcessCardsFails(cardsArray: Json)
    ensures ProcessCards(cardsArray).Err? <==>
      !cardsArray.JArr? || exists i :: 0 <= i < |cardsArray.items| && TypeLacksIncludes(cardsArray.items[i])
  {
    if cardsArray.JArr? {
      var cards := cardsArray.items;
      if SomeCardThrows(cards) {
        var c :| c in cards && Screen(c) == Throws;
        var i :| 0 <= i < |cards| && cards[i] == c;
        assert TypeLacksIncludes(cards[i]);
      }
      if exists i :: 0 <= i < |cards| && TypeLacksIncludes(cards[i]) {
        var i :| 0 <= i < |cards| && TypeLacksIncludes(cards[i]);
        assert Screen(cards[i]) == Throws;
      }
    }
  }

  /** The position, among `cards`, of the card each record comes from. */
  ghost function RecordSources(cards: seq<Json>): (idx: seq<nat>)
  {
    var idxE := KeptPositions(cards, IsKept);
    var idxC := KeptPositions(MapCards(EligibleCards(cards)), IsPresent);
    KeptPositionsPick(cards, IsKept);
    seq(|idxC|, k requires 0 <= k < |idxC| => idxE[idxC[k]])
  }

  lemma RecordSourcesSound(cards: seq<Json>)
    requires !SomeCardThrows(cards)
    ensures |Compact(MapCards(EligibleCards(cards)))| == |RecordSources(cards)| <= |cards|
    ensures forall k :: 0 <= k < |RecordSources(cards)| ==>
      RecordSources(cards)[k] < |cards| && IsKept(cards[RecordSources(cards)[k]])
      && Compact(MapCards(EligibleCards(cards)))[k] == Project(cards[RecordSources(cards)[k]])
      && IsRated(Compact(MapCards(EligibleCards(cards)))[k])
    ensures forall k, l :: 0 <= k < l < |RecordSources(cards)| ==> RecordSources(cards)[k] < RecordSources(cards)[l]
  {
    var out := Compact(MapCards(EligibleCards(cards)));
    var eligible := EligibleCards(cards);
    var mapped := MapCards(eligible);
    KeptPositionsPick(cards, IsKept);
    KeptPositionsPick(mapped, IsPresent);
    var idxE := KeptPositions(cards, IsKept);
    var idxC := KeptPositions(mapped, IsPresent);
    var idx := RecordSources(cards);
    forall k | 0 <= k < |idx|
      ensures idx[k] < |cards| && IsKept(cards[idx[k]])
      ensures out[k] == Project(cards[idx[k]]) && IsRated(out[k])
    {
      var j := idxC[k];
      assert mapped[j] == MapCard(eligible[j]);
      assert eligible[j] == cards[idxE[j]];
    }
  }

  lemma RecordSourcesComplete(cards: seq<Json>, i: nat)
    requires !SomeCardThrows(cards)
    requires i < |cards| && IsKept(cards[i]) && IsRated(Project(cards[i]))
    ensures i in RecordSources(cards)
  {
    var eligible := EligibleCards(cards);
    var mapped := MapCards(eligible);
    KeptPositionsPick(cards, IsKept);
    KeptPositionsCover(cards, IsKept, i);
    var idxE := KeptPositions(cards, IsKept);
    var j :| 0 <= j < |idxE| && idxE[j] == i;
    assert mapped[j] == MapCard(cards[i]);
    KeptPositionsCover(mapped, IsPresent, j);
    var idxC := KeptPositions(mapped, IsPresent);
    var k :| 0 <= k < |idxC| && idxC[k] == j;
    assert RecordSources(cards)[k] == i;
  }

  /** Every record comes from a card that passed the filter and the gate, in
      the cards' order; and every such card yields its record. */
  lemma ProcessCardsOrigins(cards: seq<Json>) returns (idx: seq<nat>)
    requires ProcessCards(JArr(cards)).Ok?
    ensures |ProcessCards(JArr(cards)).value| == |idx| <= |cards|
    ensures forall k :: 0 <= k < |idx| ==>
      idx[k] < |cards| && IsKept(cards[idx[k]])
      && ProcessCards(JArr(cards)).value[k] == Project(cards[idx[k]])
      && IsRated(ProcessCards(JArr(cards)).value[k])
    ensures forall k, l :: 0 <= k < l < |idx| ==> idx[k] < idx[l]
    ensures forall i :: 0 <= i < |cards| && IsKept(cards[i]) && IsRated(Project(cards[i])) ==> i in idx
  {
    assert ProcessCards(JArr(cards)).value == Compact(MapCards(EligibleCards(cards)));
    idx := RecordSources(cards);
    RecordSourcesSound(cards);
    forall i | 0 <= i < |cards| && IsKept(cards[i]) && IsRated(Project(cards[i]))
      ensures i in idx
    {
      RecordSourcesComplete(cards, i);
    }
  }

  /** The gate: no record has a rating field `=== 0`, so the record of a kept
      card whose rating, rating count or rating-count variant is absent or
      falsy is not among the results. */
  lemma ProcessCardsGate(cards: seq<Json>)
    requires ProcessCards(JArr(cards)).Ok?
    ensures forall r :: r in ProcessCards(JArr(cards)).value ==> IsRated(r)
    ensures forall c :: c in cards && IsKept(c) && !IsRated(Project(c)) ==> Project(c) !in ProcessCards(JArr(cards)).value
  {
    var idx := ProcessCardsOrigins(cards);
  }
}
