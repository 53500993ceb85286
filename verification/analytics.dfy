/**
 * The price analytics over processed records (`calculateAnalytics`): one
 * pass that keeps the cheapest and the dearest record with a positive numeric
 * price together with a running sum and count, the average derived from them,
 * and two plotting series of the records whose price compares above zero.
 */
module Analytics {
  import opened JsValues
  import opened Sequences
  import opened CardMapping

  /** The summary the response gives of the cheapest and the dearest record. */
  datatype PriceSummary = PriceSummary(name: Json, price: Json, locality: Json, deliveryTime: Json, avgRating: Json)

  datatype RatingPoint = RatingPoint(price: Json, rating: real)

  datatype DistancePoint = DistancePoint(price: Json, distance: Json)

  /** The analytics object; `None` is the `null` of an absent minimum or maximum. */
  datatype Report = Report(
    min: Option<PriceSummary>,
    max: Option<PriceSummary>,
    avgPrice: real,
    priceVSrating: seq<RatingPoint>,
    priceVSdistance: seq<DistancePoint>)

  /** The reducer's accumulator `{ min, max, totalPrice, validPriceCount }`. */
  datatype Acc = Acc(min: Option<Record>, max: Option<Record>, totalPrice: real, validPriceCount: nat)

  /** `typeof card.price === "number" && card.price > 0`: the records the
      reducer does not skip. */
  predicate HasValidPrice(card: Record)
  {
    card.price.JNum? && card.price.n > 0.0
  }

  /** Only records with a valid price ever become the minimum or the maximum. */
  predicate Sound(acc: Acc)
  {
    && (acc.min.Some? ==> HasValidPrice(acc.min.value))
    && (acc.max.Some? ==> HasValidPrice(acc.max.value))
  }

  const Start := Acc(None, None, 0.0, 0)

  /** One call of the reducer. A record replaces the minimum only when it is
      strictly cheaper, and the maximum only when it is strictly dearer. */
  function Step(acc: Acc, card: Record): (r: Acc)
    requires Sound(acc)
    ensures Sound(r)
  {
    if !HasValidPrice(card) then acc
    else
      var price := card.price.n;
      Acc(
        if acc.min.None? || price < acc.min.value.price.n then Some(card) else acc.min,
        if acc.max.None? || price > acc.max.value.price.n then Some(card) else acc.max,
        acc.totalPrice + price,
        acc.validPriceCount + 1)
  }

  /** `processedCards.reduce(Step, Start)`, unfolded from the last record. */
  function Fold(cards: seq<Record>): (r: Acc)
    ensures Sound(r)
  {
    if cards == [] then Start else Step(Fold(cards[..|cards| - 1]), cards[|cards| - 1])
  }

  /** `validPriceCount > 0 ? totalPrice / validPriceCount : 0`. */
  function Average(total: real, count: nat): real
  {
    if count > 0 then total / count as real else 0.0
  }

  function Summarize(card: Record): PriceSummary
  {
    PriceSummary(card.restaurantName, card.price, card.locality, card.deliveryTime, card.avgRatingRestaurant)
  }

  function SummaryOf(card: Option<Record>): Option<PriceSummary>
  {
    match card
    case None => None
    case Some(c) => Some(Summarize(c))
  }

  // ---------------------------------------------------------------------
  // The two series

  /** `card.price > 0`, with JavaScript's loose comparison. */
  predicate HasPositivePrice(card: Record)
  {
    Positive(card.price)
  }

  /** `!isNaN(item.rating) && item.price > 0`; the rating is never NaN. */
  predicate IsPlotted(p: RatingPoint)
  {
    Positive(p.price)
  }

  /** `cards.map(card => ({ price, rating: parseFloat(card.aggregatedRating) || 0 }))`. */
  function RatingPoints(cards: seq<Record>): (r: seq<RatingPoint>)
    ensures |r| == |cards|
    ensures forall k :: 0 <= k < |cards| ==> r[k] == RatingPoint(cards[k].price, RatingValue(cards[k].aggregatedRating))
  {
    seq(|cards|, k requires 0 <= k < |cards| => RatingPoint(cards[k].price, RatingValue(cards[k].aggregatedRating)))
  }

  /** `cards.map(card => ({ price, distance: card.lastMileTravel }))`. */
  function DistancePoints(cards: seq<Record>): (r: seq<DistancePoint>)
    ensures |r| == |cards|
    ensures forall k :: 0 <= k < |cards| ==> r[k] == DistancePoint(cards[k].price, cards[k].lastMileTravel)
  {
    seq(|cards|, k requires 0 <= k < |cards| => DistancePoint(cards[k].price, cards[k].lastMileTravel))
  }

  /** `priceVSrating`: map, then filter. */
  function RatingSeries(cards: seq<Record>): seq<RatingPoint>
  {
    Filter(RatingPoints(cards), IsPlotted)
  }

  /** `priceVSdistance`: filter, then map. */
  function DistanceSeries(cards: seq<Record>): seq<DistancePoint>
  {
    DistancePoints(Filter(cards, HasPositivePrice))
  }

  /** The object `calculateAnalytics(processedCards)` returns when no
      conversion throws. */
  function ReportOf(cards: seq<Record>): Report
  {
    if |cards| == 0 then Report(None, None, 0.0, [], [])
    else
      var acc := Fold(cards);
      Report(SummaryOf(acc.min), SummaryOf(acc.max), Average(acc.totalPrice, acc.validPriceCount),
             RatingSeries(cards), DistanceSeries(cards))
  }

  /** Whether `calculateAnalytics` throws. The reducer converts nothing, as
      it compares only prices that are numbers; but the rating series applies
      `parseFloat` to every record's rating, and both series compare every
      record's price with 0. */
  predicate AnalyticsThrows(cards: seq<Record>)
  {
    exists i :: 0 <= i < |cards| && (ToPrimitiveThrows(cards[i].aggregatedRating) || ToPrimitiveThrows(cards[i].price))
  }

  /** `calculateAnalytics(processedCards)`: the report, or the TypeError of a
      failed conversion. */
  function AnalyticsOf(cards: seq<Record>): Result<Report>
  {
    if AnalyticsThrows(cards) then Err(ConversionError) else Ok(ReportOf(cards))
  }

  // ---------------------------------------------------------------------
  // Reference definitions

  /** The valid prices, in order. */
  function ValidPrices(cards: seq<Record>): (ps: seq<real>)
    ensures forall k :: 0 <= k < |ps| ==> ps[k] > 0.0
  {
    if cards == [] then []
    else
      var last := cards[|cards| - 1];
      ValidPrices(cards[..|cards| - 1]) + (if HasValidPrice(last) then [last.price.n] else [])
  }

  function Sum(ps: seq<real>): real
  {
    if ps == [] then 0.0 else Sum(ps[..|ps| - 1]) + ps[|ps| - 1]
  }

  predicate NoValidPrice(cards: seq<Record>)
  {
    forall j :: 0 <= j < |cards| ==> !HasValidPrice(cards[j])
  }

  /** `i` holds the cheapest valid price, and no earlier record has that price. */
  ghost predicate IsFirstMin(cards: seq<Record>, i: int)
  {
    && 0 <= i < |cards|
    && HasValidPrice(cards[i])
    && (forall j :: 0 <= j < |cards| && HasValidPrice(cards[j]) ==> cards[i].price.n <= cards[j].price.n)
    && (forall j :: 0 <= j < i && HasValidPrice(cards[j]) ==> cards[j].price.n > cards[i].price.n)
  }

  /** `i` holds the dearest valid price, and no earlier record has that price. */
  ghost predicate IsFirstMax(cards: seq<Record>, i: int)
  {
    && 0 <= i < |cards|
    && HasValidPrice(cards[i])
    && (forall j :: 0 <= j < |cards| && HasValidPrice(cards[j]) ==> cards[j].price.n <= cards[i].price.n)
    && (forall j :: 0 <= j < i && HasValidPrice(cards[j]) ==> cards[j].price.n < cards[i].price.n)
  }

  // ---------------------------------------------------------------------
  // What the fold computes

  /** The running sum and count are the sum and the number of the valid prices. */
  lemma {:induction false} FoldTotals(cards: seq<Record>)
    ensures Fold(cards).totalPrice == Sum(ValidPrices(cards))
    ensures Fold(cards).validPriceCount == |ValidPrices(cards)|
  {
    if cards != [] {
      var front := cards[..|cards| - 1];
      FoldTotals(front);
      var ps, last := ValidPrices(front), cards[|cards| - 1];
      assert ValidPrices(cards) == ps + (if HasValidPrice(last) then [last.price.n] else []);
      assert Fold(cards) == Step(Fold(front), last);
      if HasValidPrice(last) {
        var qs := ps + [last.price.n];
        assert qs[..|qs| - 1] == ps;
        assert Sum(qs) == Sum(ps) + last.price.n;
      } else {
        assert ValidPrices(cards) == ps;
      }
    }
  }

  /** There is no valid price exactly when the valid prices are empty. */
  lemma {:induction false} NoValidPriceEmpty(cards: seq<Record>)
    ensures NoValidPrice(cards) <==> ValidPrices(cards) == []
  {
    if cards != [] {
      var front := cards[..|cards| - 1];
      NoValidPriceEmpty(front);
      assert forall j :: 0 <= j < |front| ==> front[j] == cards[j];
    }
  }

  /** The minimum is the first record with the cheapest valid price, and the
      maximum the first with the dearest; both are absent exactly when no
      record has a valid price. */
  lemma {:induction false} FoldExtremes(cards: seq<Record>) returns (lo: int, hi: int)
    ensures Fold(cards).min.None? <==> NoValidPrice(cards)
    ensures Fold(cards).max.None? <==> NoValidPrice(cards)
    ensures Fold(cards).min.Some? ==> IsFirstMin(cards, lo) && Fold(cards).min.value == cards[lo]
    ensures Fold(cards).max.Some? ==> IsFirstMax(cards, hi) && Fold(cards).max.value == cards[hi]
  {
    if cards == [] {
      lo, hi := 0, 0;
    } else {
      var n := |cards| - 1;
      var front := cards[..n];
      var l, h := FoldExtremes(front);
      assert forall j :: 0 <= j < n ==> front[j] == cards[j];
      var acc := Fold(front);
      var last := cards[n];
      lo, hi := l, h;
      if HasValidPrice(last) {
        if acc.min.None? || last.price.n < acc.min.value.price.n {
          lo := n;
        }
        if acc.max.None? || last.price.n > acc.max.value.price.n {
          hi := n;
        }
      }
    }
  }

  /** Every valid price lies between any pair of bounds that all valid prices do. */
  lemma {:induction false} ValidPricesWithin(cards: seq<Record>, lo: real, hi: real)
    requires forall j :: 0 <= j < |cards| && HasValidPrice(cards[j]) ==> lo <= cards[j].price.n <= hi
    ensures forall k :: 0 <= k < |ValidPrices(cards)| ==> lo <= ValidPrices(cards)[k] <= hi
  {
    if cards != [] {
      var front := cards[..|cards| - 1];
      assert forall j :: 0 <= j < |front| ==> front[j] == cards[j];
      ValidPricesWithin(front, lo, hi);
    }
  }

  /** A sum of values between `lo` and `hi` lies between `|ps| * lo` and `|ps| * hi`. */
  lemma {:induction false} SumWithin(ps: seq<real>, lo: real, hi: real)
    requires forall k :: 0 <= k < |ps| ==> lo <= ps[k] <= hi
    ensures |ps| as real * lo <= Sum(ps) <= |ps| as real * hi
  {
    if ps != [] {
      var front := ps[..|ps| - 1];
      assert forall k :: 0 <= k < |front| ==> front[k] == ps[k];
      SumWithin(front, lo, hi);
      var m := |front| as real;
      assert |ps| as real * lo == m * lo + lo;
      assert |ps| as real * hi == m * hi + hi;
    }
  }

  /** The average lies between the cheapest and the dearest valid price. */
  lemma AverageWithin(cards: seq<Record>, lo: int, hi: int)
    requires IsFirstMin(cards, lo) && IsFirstMax(cards, hi)
    ensures cards[lo].price.n <= Average(Fold(cards).totalPrice, Fold(cards).validPriceCount) <= cards[hi].price.n
  {
    var l, h := cards[lo].price.n, cards[hi].price.n;
    FoldTotals(cards);
    ValidPricesWithin(cards, l, h);
    assert !NoValidPrice(cards) by {
      assert HasValidPrice(cards[lo]);
    }
    NoValidPriceEmpty(cards);
    AverageOfWithin(ValidPrices(cards), l, h);
  }

  lemma AverageOfWithin(ps: seq<real>, lo: real, hi: real)
    requires ps != []
    requires forall k :: 0 <= k < |ps| ==> lo <= ps[k] <= hi
    ensures lo <= Average(Sum(ps), |ps|) <= hi
  {
    SumWithin(ps, lo, hi);
    QuotientWithin(Sum(ps), |ps| as real, lo, hi);
  }

  lemma QuotientWithin(total: real, count: real, lo: real, hi: real)
    requires count > 0.0 && count * lo <= total <= count * hi
    ensures lo <= total / count <= hi
  {
  }

  /** The report's minimum, maximum and average, as the source promises them:
      without a valid price both extremes are null and the average 0; with one,
      the extremes summarize the first cheapest and the first dearest record,
      every valid price lies between them, and so does the average. */
  lemma AnalyticsBounds(cards: seq<Record>) returns (lo: int, hi: int)
    ensures ReportOf(cards).min.None? <==> NoValidPrice(cards)
    ensures ReportOf(cards).max.None? <==> NoValidPrice(cards)
    ensures NoValidPrice(cards) ==> ReportOf(cards).avgPrice == 0.0
    ensures !NoValidPrice(cards) ==>
      && IsFirstMin(cards, lo) && ReportOf(cards).min == Some(Summarize(cards[lo]))
      && IsFirstMax(cards, hi) && ReportOf(cards).max == Some(Summarize(cards[hi]))
      && cards[lo].price.n <= ReportOf(cards).avgPrice <= cards[hi].price.n
  {
    lo, hi := FoldExtremes(cards);
    FoldTotals(cards);
    NoValidPriceEmpty(cards);
    if !NoValidPrice(cards) {
      AverageWithin(cards, lo, hi);
    }
  }

  // ---------------------------------------------------------------------
  // What the series hold

  lemma RatingSeriesFiltersFirst(cards: seq<Record>)
    ensures RatingSeries(cards) == RatingPoints(Filter(cards, HasPositivePrice))
  {
    var point := (c: Record) => RatingPoint(c.price, RatingValue(c.aggregatedRating));
    FilterMapped(cards, RatingPoints(cards), point, HasPositivePrice, IsPlotted);
  }

  /** Each series holds exactly one entry per record whose price compares
      above zero, in the records' order, carrying that record's price and its
      rating (0 when it does not parse) or its last-mile distance. */
  lemma SeriesOrigins(cards: seq<Record>) returns (idx: seq<nat>)
    ensures |RatingSeries(cards)| == |DistanceSeries(cards)| == |idx|
    ensures forall k :: 0 <= k < |idx| ==>
      && idx[k] < |cards| && HasPositivePrice(cards[idx[k]])
      && RatingSeries(cards)[k] == RatingPoint(cards[idx[k]].price, RatingValue(cards[idx[k]].aggregatedRating))
      && DistanceSeries(cards)[k] == DistancePoint(cards[idx[k]].price, cards[idx[k]].lastMileTravel)
    ensures forall k, l :: 0 <= k < l < |idx| ==> idx[k] < idx[l]
    ensures forall i :: 0 <= i < |cards| && HasPositivePrice(cards[i]) ==> i in idx
  {
    RatingSeriesFiltersFirst(cards);
    idx := FilterOrigins(cards, HasPositivePrice);
  }

  /** A price given as a numeric string is plotted, although the reducer
      skips it: the series and the extremes disagree on it. */
  lemma NumericStringPricePlotted(card: Record)
    requires card.price == JStr("120")
    ensures |RatingSeries([card])| == 1 && |DistanceSeries([card])| == 1
    ensures ReportOf([card]).min.None? && ReportOf([card]).avgPrice == 0.0
  {
    var t: string := "120";
    assert TrimStart(t) == t && TrimEnd(t) == t by {
      assert !IsSpace(t[0]) && !IsSpace(t[2]);
    }
    assert LeadingDigits(t) == 3 by {
      assert t[1..] == "20" && t[2..] == "0" && t[3..] == [];
    }
    assert t[..3] == t && t[3..] == [];
    assert DigitsValue(t) == 120 by {
      assert t[..2] == "12" && t[..2][..1] == "1" && t[..2][..1][..0] == [];
      assert DigitsValue("1") == 1;
      assert DigitsValue("12") == 12;
    }
    assert DecimalPrefix(t) == Some((120.0, 3));
    assert HasPositivePrice(card);
    assert [card][..0] == [];
    assert !HasValidPrice(card);
    assert Fold([card]) == Start;
  }

  /** A price that is an array holding an object with its own `toString`
      member makes `calculateAnalytics` throw, through the array's `join`;
      an own `valueOf` member alone does not. */
  lemma ConversionThroughJoin(card: Record, other: Record)
    requires card.price == JArr([JNull, JObj(map["toString" := JNum(0.0)])])
    requires other.price == JObj(map["valueOf" := JNum(0.0)]) && other.aggregatedRating == JNum(4.5)
    ensures AnalyticsOf([card]) == Err(ConversionError)
    ensures AnalyticsOf([other]).Ok?
  {
    assert ToPrimitiveThrows(card.price.items[1]);
  }

  // ---------------------------------------------------------------------
  // The reduction as the source runs it

  /** `calculateAnalytics(processedCards)`: the early return on an empty list,
      the reducer loop updating the accumulator's fields in place, then the
      series, whose conversions may throw. */
  method CalculateAnalytics(cards: seq<Record>) returns (a: Result<Report>)
    ensures a == AnalyticsOf(cards)
    ensures cards == [] ==> a == Ok(Report(None, None, 0.0, [], []))
    ensures a.Err? <==> exists i :: 0 <= i < |cards| && (ToPrimitiveThrows(cards[i].aggregatedRating) || ToPrimitiveThrows(cards[i].price))
    ensures a.Ok? ==> (a.value.min.None? <==> NoValidPrice(cards))
    ensures a.Ok? && a.value.min.Some? ==>
      && a.value.min.value.price.JNum? && a.value.max.Some? && a.value.max.value.price.JNum?
      && a.value.min.value.price.n <= a.value.avgPrice <= a.value.max.value.price.n
  {
    if |cards| == 0 {
      return Ok(Report(None, None, 0.0, [], []));
    }
    var min: Option<Record> := None;
    var max: Option<Record> := None;
    var totalPrice := 0.0;
    var validPriceCount := 0;
    for i := 0 to |cards|
      invariant Acc(min, max, totalPrice, validPriceCount) == Fold(cards[..i])
    {
      assert cards[..i + 1][..i] == cards[..i];
      var card := cards[i];
      if !card.price.JNum? || card.price.n <= 0.0 {
        continue;
      }
      if min.None? || card.price.n < min.value.price.n {
        min := Some(card);
      }
      if max.None? || card.price.n > max.value.price.n {
        max := Some(card);
      }
      totalPrice := totalPrice + card.price.n;
      validPriceCount := validPriceCount + 1;
    }
    assert cards[..|cards|] == cards;
    var avgPrice := if validPriceCount > 0 then totalPrice / validPriceCount as real else 0.0;
    if AnalyticsThrows(cards) {
      return Err(ConversionError);
    }
    a := Ok(Report(SummaryOf(min), SummaryOf(max), avgPrice, RatingSeries(cards), DistanceSeries(cards)));
    var lo, hi := AnalyticsBounds(cards);
  }
}
