/**
 * Locating the list of dish cards in the parsed search response
 * (`extractCardsArray`), and the narrower lookup that `scrapev2` inlines.
 */
module CardExtraction {
  import opened JsValues

  /** `response?.data?.cards`: the top-level card groups. */
  function TopLevelCards(response: Json): Option<Json>
  {
    Member(Member(Some(response), "data"), "cards")
  }

  /** `group?.groupedCard?.cardGroupMap?.DISH?.cards`. */
  function DishCards(group: Option<Json>): Option<Json>
  {
    Member(Member(Member(Member(group, "groupedCard"), "cardGroupMap"), "DISH"), "cards")
  }

  /** Whether a group exposes a (truthy) dish list. */
  predicate HasDishCards(group: Option<Json>)
  {
    Truthy(DishCards(group))
  }

  /** The `for ... of` scan: the dish list of the first group that has one. */
  function ScanGroups(groups: seq<Json>): (r: Option<Json>)
  {
    if groups == [] then None
    else if HasDishCards(Some(groups[0])) then DishCards(Some(groups[0]))
    else ScanGroups(groups[1..])
  }

  /** `extractCardsArray(apiResponse)`: the primary path `data.cards[1]`, then
      the scan, then `[]`. Iterating a truthy `data.cards` that is neither an
      array nor a string throws. */
  function ExtractCardsArray(response: Json): Result<Json>
  {
    var cards := TopLevelCards(response);
    if !Truthy(cards) then Ok(JArr([]))
    else if HasDishCards(Element(cards, 1)) then Ok(DishCards(Element(cards, 1)).value)
    else match cards.value
      case JArr(groups) =>
        var found := ScanGroups(groups);
        if found.Some? then Ok(found.value) else Ok(JArr([]))
      case JStr(_) => Ok(JArr([]))  // a one-character string has no `groupedCard`
      case _ => Err(TypeError("apiResponse.data.cards is not iterable"))
  }

  /** `i` is the first group, in scan order, that exposes a dish list. */
  ghost predicate FirstDishGroup(groups: seq<Json>, i: int)
  {
    && 0 <= i < |groups|
    && HasDishCards(Some(groups[i]))
    && forall j :: 0 <= j < i ==> !HasDishCards(Some(groups[j]))
  }

  /** The scan returns the dish list of the first group that has one, and
      nothing when no group has one. */
  lemma {:induction false} ScanGroupsFindsFirst(groups: seq<Json>) returns (i: int)
    ensures ScanGroups(groups).Some? ==> FirstDishGroup(groups, i) && ScanGroups(groups) == DishCards(Some(groups[i]))
    ensures ScanGroups(groups).None? <==> forall j :: 0 <= j < |groups| ==> !HasDishCards(Some(groups[j]))
  {
    if groups == [] {
      i := 0;
    } else if HasDishCards(Some(groups[0])) {
      i := 0;
    } else {
      var rest := groups[1..];
      var k := ScanGroupsFindsFirst(rest);
      i := k + 1;
      forall j | 1 <= j < |groups|
        ensures groups[j] == rest[j - 1]
      {
      }
    }
  }

  /** Without `data.cards` the result is `[]`. */
  lemma ExtractWithoutCards(response: Json)
    requires !Truthy(TopLevelCards(response))
    ensures ExtractCardsArray(response) == Ok(JArr([]))
  {
  }

  /** When `data.cards[1]` carries a dish list, that list is the result. */
  lemma ExtractPrimaryPath(response: Json)
    requires Truthy(TopLevelCards(response))
    requires HasDishCards(Element(TopLevelCards(response), 1))
    ensures ExtractCardsArray(response) == Ok(DishCards(Element(TopLevelCards(response), 1)).value)
  {
  }

  /** Otherwise, with an array of groups, the result is the dish list of the
      first group that has one, or `[]` when none has. */
  lemma ExtractFallback(response: Json, groups: seq<Json>)
    requires TopLevelCards(response) == Some(JArr(groups))
    requires !HasDishCards(Element(TopLevelCards(response), 1))
    ensures (exists i :: FirstDishGroup(groups, i) && ExtractCardsArray(response) == Ok(DishCards(Some(groups[i])).value))
         || ((forall j :: 0 <= j < |groups| ==> !HasDishCards(Some(groups[j]))) && ExtractCardsArray(response) == Ok(JArr([])))
  {
    var i := ScanGroupsFindsFirst(groups);
  }

  /** The only failure is iterating a truthy `data.cards` that is neither an
      array nor a string; every success is a truthy value or `[]`. */
  lemma ExtractFailsOnlyWhenNotIterable(response: Json)
    ensures ExtractCardsArray(response).Err? <==>
      && Truthy(TopLevelCards(response))
      && !HasDishCards(Element(TopLevelCards(response), 1))
      && !TopLevelCards(response).value.JArr?
      && !TopLevelCards(response).value.JStr?
    ensures ExtractCardsArray(response).Ok? ==>
      Truthy(Some(ExtractCardsArray(response).value)) || ExtractCardsArray(response).value == JArr([])
  {
    var cards := TopLevelCards(response);
    if Truthy(cards) && !HasDishCards(Element(cards, 1)) && cards.value.JArr? {
      var i := ScanGroupsFindsFirst(cards.value.items);
    }
  }

  // ---------------------------------------------------------------------
  // The lookup inlined in scrapev2

  /** scrapev2's lookup: `data.cards[1]`'s dish list or `[]`. Its fallback scan
      sits in a `catch` block that an optional-chaining test never reaches. */
  function ExtractCardsV2(response: Json): (r: Json)
    ensures !HasDishCards(Element(TopLevelCards(response), 1)) ==> r == JArr([])
  {
    var primary := DishCards(Element(TopLevelCards(response), 1));
    if Truthy(primary) then primary.value else JArr([])
  }

  /** The two lookups agree whenever the primary path is present. */
  lemma ExtractV2AgreesOnPrimaryPath(response: Json)
    requires HasDishCards(Element(TopLevelCards(response), 1))
    ensures ExtractCardsArray(response) == Ok(ExtractCardsV2(response))
  {
    var cards := TopLevelCards(response);
    if !Truthy(cards) {
      // Element of a falsy value is undefined, so the primary path is absent.
      assert false;
    }
  }

  /** A response whose dish group is the first group and not the second. */
  function DishGroupFirstResponse(dish: Json): Json
  {
    var group := JObj(map["groupedCard" := JObj(map["cardGroupMap" := JObj(map["DISH" := JObj(map["cards" := JArr([dish])])])])]);
    JObj(map["data" := JObj(map["cards" := JArr([group])])])
  }

  /** On that response scrapev2 finds no cards while the shared lookup's scan
      finds the dish list. */
  lemma ExtractV2MissesFallbackGroup(dish: Json)
    ensures ExtractCardsV2(DishGroupFirstResponse(dish)) == JArr([])
    ensures ExtractCardsArray(DishGroupFirstResponse(dish)) == Ok(JArr([dish]))
  {
    var response := DishGroupFirstResponse(dish);
    var groups := TopLevelCards(response).value.items;
    assert |groups| == 1;
    assert HasDishCards(Some(groups[0]));
  }
}
