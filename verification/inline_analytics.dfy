/**
 * The pipeline that `scrapev2` inlines instead of calling the shared helpers:
 * the same filter and projection with the quality gate applied as a second
 * filter, and analytics whose extremes are seeded with the first record and
 * taken over every record with JavaScript's loose `<`, and whose series are
 * not filtered by price.
 */
module InlineAnalytics {
  import opened JsValues
  import opened Sequences
  import opened CardMapping
  import opened Analytics

  /** `.map(card => ({ ...record literal... }))` over the eligible cards. */
  function ProjectAll(cards: seq<Json>): (r: seq<Record>)
    requires forall c :: c in cards ==> IsKept(c)
    ensures |r| == |cards|
    ensures forall k :: 0 <= k < |cards| ==> r[k] == Project(cards[k])
  {
    seq(|cards|, k requires 0 <= k < |cards| => Project(cards[k]))
  }

  /** scrapev2's chain: filter, map, `filter(Boolean)` (which keeps every
      record, as records are objects), then the gate as a filter. */
  function ProcessCardsV2(cardsArray: Json): Result<seq<Record>>
  {
    if !cardsArray.JArr? then Err(TypeError("cardsArray.filter is not a function"))
    else if SomeCardThrows(cardsArray.items) then Err(TypeError("includes is not a function"))
    else Ok(Filter(ProjectAll(EligibleCards(cardsArray.items)), IsRated))
  }

  /** The async callback's answer for a projected record: the record, or
      `null` when the gate rejects it. */
  function Gate(r: Record): Option<Record>
  {
    if IsRated(r) then Some(r) else None
  }

  lemma GateAsFilter(cards: seq<Json>)
    requires forall c :: c in cards ==> IsKept(c)
    ensures Compact(MapCards(cards)) == Filter(ProjectAll(cards), IsRated)
  {
    var mapped, projected := MapCards(cards), ProjectAll(cards);
    forall k | 0 <= k < |cards|
      ensures mapped[k] == Gate(projected[k]) && (IsPresent(mapped[k]) <==> IsRated(projected[k]))
    {
      assert mapped[k] == MapCard(cards[k]) && projected[k] == Project(cards[k]);
    }
    FilterMapped(projected, mapped, Gate, IsRated, IsPresent);
    var lhs, rhs := Compact(mapped), Filter(projected, IsRated);
    forall k | 0 <= k < |lhs|
      ensures lhs[k] == rhs[k]
    {
      FilterKeeps(projected, IsRated, rhs[k]);
    }
  }

  /** The inlined chain yields exactly what `processCards` yields, errors
      included. */
  lemma ProcessCardsV2Agrees(cardsArray: Json)
    ensures ProcessCardsV2(cardsArray) == ProcessCards(cardsArray)
  {
    if cardsArray.JArr? && !SomeCardThrows(cardsArray.items) {
      GateAsFilter(EligibleCards(cardsArray.items));
    }
  }

  // ---------------------------------------------------------------------
  // The inline analytics

  /** One call of the `forEach` callback on the pair `(minCard, maxCard)`,
      for the price comparison `less` (the source's `<`). */
  function StepV2(extremes: (Record, Record), card: Record, less: (Json, Json) -> bool): (Record, Record)
  {
    (if less(card.price, extremes.0.price) then card else extremes.0,
     if less(extremes.1.price, card.price) then card else extremes.1)
  }

  /** The `forEach` loop from a seed, unfolded from the last record. */
  function ScanV2(seed: (Record, Record), cards: seq<Record>, less: (Json, Json) -> bool): (Record, Record)
  {
    if cards == [] then seed else StepV2(ScanV2(seed, cards[..|cards| - 1], less), cards[|cards| - 1], less)
  }

  /** The analytics object scrapev2 builds when no conversion throws; its
      extremes are always objects. */
  function InlineReportOf(cards: seq<Record>): Report
    requires |cards| > 0
  {
    var extremes := ScanV2((cards[0], cards[0]), cards, LooseLess);
    var prices := ValidPrices(cards);
    Report(Some(Summarize(extremes.0)), Some(Summarize(extremes.1)), Average(Sum(prices), |prices|),
           RatingPoints(cards), DistancePoints(cards))
  }

  /** scrapev2's analytics: the report, or the TypeError of a failed
      conversion. The records that make it throw are those that make
      `calculateAnalytics` throw, at other sites: the `forEach` compares every
      record's price with `<`, and `priceVSrating` applies `parseFloat` to
      every rating. */
  function InlineAnalyticsOf(cards: seq<Record>): Result<Report>
    requires |cards| > 0
  {
    if AnalyticsThrows(cards) then Err(ConversionError) else Ok(InlineReportOf(cards))
  }

  lemma {:induction false} ScanV2Extremes(seed: (Record, Record), cards: seq<Record>, less: (Json, Json) -> bool)
    returns (lo: int, hi: int)
    ensures -1 <= lo < |cards| && -1 <= hi < |cards|
    ensures ScanV2(seed, cards, less).0 == (if lo < 0 then seed.0 else cards[lo])
    ensures ScanV2(seed, cards, less).1 == (if hi < 0 then seed.1 else cards[hi])
    ensures forall j :: lo < j < |cards| && 0 <= j ==> !less(cards[j].price, ScanV2(seed, cards, less).0.price)
    ensures forall j :: hi < j < |cards| && 0 <= j ==> !less(ScanV2(seed, cards, less).1.price, cards[j].price)
  {
    if cards == [] {
      lo, hi := -1, -1;
    } else {
      var n := |cards| - 1;
      var front := cards[..n];
      var l, h := ScanV2Extremes(seed, front, less);
      assert forall j :: 0 <= j < n ==> front[j] == cards[j];
      var before := ScanV2(seed, front, less);
      lo := if less(cards[n].price, before.0.price) then n else l;
      hi := if less(before.1.price, cards[n].price) then n else h;
    }
  }

  /** scrapev2's minimum is a record that no later record undercuts by `<`,
      and its maximum one that no later record exceeds by `>`. */
  lemma InlineExtremes(cards: seq<Record>) returns (lo: nat, hi: nat)
    requires |cards| > 0
    ensures lo < |cards| && InlineReportOf(cards).min == Some(Summarize(cards[lo]))
    ensures forall j :: lo < j < |cards| ==> !LooseLess(cards[j].price, cards[lo].price)
    ensures hi < |cards| && InlineReportOf(cards).max == Some(Summarize(cards[hi]))
    ensures forall j :: hi < j < |cards| ==> !LooseLess(cards[hi].price, cards[j].price)
  {
    var l, h := ScanV2Extremes((cards[0], cards[0]), cards, LooseLess);
    lo := if l < 0 then 0 else l;
    hi := if h < 0 then 0 else h;
  }

  /** Every record's price is a number. */
  predicate NumericPrices(cards: seq<Record>)
  {
    forall j :: 0 <= j < |cards| ==> cards[j].price.JNum?
  }

  /** `i` holds the least price of all the records, and no earlier record has it. */
  ghost predicate IsFirstLeast(cards: seq<Record>, i: int)
    requires NumericPrices(cards)
  {
    && 0 <= i < |cards|
    && (forall j :: 0 <= j < |cards| ==> cards[i].price.n <= cards[j].price.n)
    && (forall j :: 0 <= j < i ==> cards[j].price.n > cards[i].price.n)
  }

  /** `i` holds the greatest price of all the records, and no earlier record has it. */
  ghost predicate IsFirstGreatest(cards: seq<Record>, i: int)
    requires NumericPrices(cards)
  {
    && 0 <= i < |cards|
    && (forall j :: 0 <= j < |cards| ==> cards[j].price.n <= cards[i].price.n)
    && (forall j :: 0 <= j < i ==> cards[j].price.n < cards[i].price.n)
  }

  lemma {:induction false} ScanV2Least(cards: seq<Record>, less: (Json, Json) -> bool) returns (lo: int, hi: int)
    requires |cards| > 0 && NumericPrices(cards)
    requires forall x: real, y: real :: less(JNum(x), JNum(y)) <==> x < y
    ensures IsFirstLeast(cards, lo) && ScanV2((cards[0], cards[0]), cards, less).0 == cards[lo]
    ensures IsFirstGreatest(cards, hi) && ScanV2((cards[0], cards[0]), cards, less).1 == cards[hi]
  {
    var n := |cards| - 1;
    var front := cards[..n];
    var seed := (cards[0], cards[0]);
    if n == 0 {
      assert front == [];
      lo, hi := 0, 0;
    } else {
      assert forall j :: 0 <= j < n ==> front[j] == cards[j];
      var l, h := ScanV2Least(front, less);
      assert ScanV2(seed, cards, less) == StepV2(ScanV2(seed, front, less), cards[n], less);
      lo := if cards[n].price.n < cards[l].price.n then n else l;
      hi := if cards[h].price.n < cards[n].price.n then n else h;
    }
  }

  /** When every price is a number, scrapev2's minimum and maximum are the
      first records of least and of greatest price among ALL the records,
      zero and negative prices included. */
  lemma InlineExtremesOverAll(cards: seq<Record>) returns (lo: int, hi: int)
    requires |cards| > 0 && NumericPrices(cards)
    ensures IsFirstLeast(cards, lo) && InlineReportOf(cards).min == Some(Summarize(cards[lo]))
    ensures IsFirstGreatest(cards, hi) && InlineReportOf(cards).max == Some(Summarize(cards[hi]))
  {
    forall x: real, y: real
      ensures LooseLess(JNum(x), JNum(y)) <==> x < y
    {
      LooseLessNumbers(x, y);
    }
    lo, hi := ScanV2Least(cards, LooseLess);
  }

  /** On two numbers, `<` is the order of the numbers. */
  lemma LooseLessNumbers(x: real, y: real)
    ensures LooseLess(JNum(x), JNum(y)) <==> x < y
  {
  }

  lemma {:induction false} ScanMatchesFold(cards: seq<Record>, less: (Json, Json) -> bool)
    requires |cards| > 0
    requires forall i :: 0 <= i < |cards| ==> HasValidPrice(cards[i])
    requires forall x: real, y: real :: less(JNum(x), JNum(y)) <==> x < y
    ensures Fold(cards).min == Some(ScanV2((cards[0], cards[0]), cards, less).0)
    ensures Fold(cards).max == Some(ScanV2((cards[0], cards[0]), cards, less).1)
  {
    var n := |cards| - 1;
    var front := cards[..n];
    assert Fold(cards) == Step(Fold(front), cards[n]);
    if n == 0 {
      assert front == [];
    } else {
      assert forall i :: 0 <= i < |front| ==> front[i] == cards[i];
      ScanMatchesFold(front, less);
    }
  }

  /** When every record has a positive numeric price, scrapev2 reports what
      `calculateAnalytics` reports. */
  lemma InlineAgreesOnValidPrices(cards: seq<Record>)
    requires |cards| > 0
    requires forall i :: 0 <= i < |cards| ==> HasValidPrice(cards[i])
    ensures InlineReportOf(cards) == ReportOf(cards)
    ensures InlineAnalyticsOf(cards) == AnalyticsOf(cards)
  {
    forall x: real, y: real
      ensures LooseLess(JNum(x), JNum(y)) <==> x < y
    {
      LooseLessNumbers(x, y);
    }
    ScanMatchesFold(cards, LooseLess);
    FoldTotals(cards);
    var points := RatingPoints(cards);
    forall i | 0 <= i < |points|
      ensures IsPlotted(points[i])
    {
      LooseLessNumbers(0.0, cards[i].price.n);
    }
    FilterAll(points, IsPlotted);
    forall i | 0 <= i < |cards|
      ensures HasPositivePrice(cards[i])
    {
      LooseLessNumbers(0.0, cards[i].price.n);
    }
    FilterAll(cards, HasPositivePrice);
  }

  /** A record with no price (`0`) becomes scrapev2's minimum and is plotted
      by it, while `calculateAnalytics` skips it in both. */
  lemma InlineDiffersOnZeroPrice(priced: Record, unpriced: Record)
    requires priced.price == JNum(100.0) && unpriced.price == JNum(0.0)
    ensures InlineReportOf([priced, unpriced]).min == Some(Summarize(unpriced))
    ensures ReportOf([priced, unpriced]).min == Some(Summarize(priced))
    ensures |InlineReportOf([priced, unpriced]).priceVSdistance| == 2
    ensures |ReportOf([priced, unpriced]).priceVSdistance| == 1
  {
    var cards := [priced, unpriced];
    assert cards[..1] == [priced] && cards[..1][..0] == [];
    LooseLessNumbers(100.0, 100.0);
    LooseLessNumbers(0.0, 100.0);
    LooseLessNumbers(0.0, 0.0);
    assert ScanV2((priced, priced), cards[..1], LooseLess) == (priced, priced);
    assert Fold(cards[..1]) == Step(Start, priced);
    assert Filter(cards, HasPositivePrice) == [priced] by {
      assert Filter(cards[..1], HasPositivePrice) == [priced];
      assert !HasPositivePrice(unpriced);
    }
  }

  /** scrapev2's analytics block, from the first record as seed through the
      `forEach` loop that updates `minCard` and `maxCard`; the loop stops at
      the first price that cannot be converted, and the series at the first
      rating. */
  method InlineAnalytics(cards: seq<Record>) returns (report: Result<Report>)
    requires |cards| > 0
    ensures report == InlineAnalyticsOf(cards)
    ensures report.Ok? ==> report.value.min.Some? && report.value.max.Some?
  {
    var prices := ValidPrices(cards);
    var minCard := cards[0];
    var maxCard := cards[0];
    for i := 0 to |cards|
      invariant (minCard, maxCard) == ScanV2((cards[0], cards[0]), cards[..i], LooseLess)
      invariant forall j :: 0 <= j < i ==> !ToPrimitiveThrows(cards[j].price)
    {
      assert cards[..i + 1][..i] == cards[..i];
      var card := cards[i];
      if ToPrimitiveThrows(card.price) {
        assert AnalyticsThrows(cards);
        return Err(ConversionError);
      }
      ghost var before := (minCard, maxCard);
      assert ScanV2((cards[0], cards[0]), cards[..i + 1], LooseLess) == StepV2(before, card, LooseLess);
      if LooseLess(card.price, minCard.price) {
        minCard := card;
      }
      if LooseLess(maxCard.price, card.price) {
        maxCard := card;
      }
    }
    assert cards[..|cards|] == cards;
    var avgPrice := if |prices| > 0 then Sum(prices) / |prices| as real else 0.0;
    if exists i :: 0 <= i < |cards| && ToPrimitiveThrows(cards[i].aggregatedRating) {
      return Err(ConversionError);
    }
    assert !AnalyticsThrows(cards);
    report := Ok(Report(Some(Summarize(minCard)), Some(Summarize(maxCard)), avgPrice,
                        RatingPoints(cards), DistancePoints(cards)));
  }
}
