# Swiggy dish-search analytics, modelled in Dafny

This project models the data half of the scraping controller in
`src/controllers/scapperController.js`. It covers the path from the parsed JSON
of the replayed search call to the analytics object and the top-rated cards in
the HTTP response:

- **Locating the dish cards** (`extractCardsArray`). The fixed primary path is
  `data.cards[1].groupedCard.cardGroupMap.DISH.cards`. Failing that, the
  function scans `data.cards` in order, and otherwise returns `[]`.
- **Projecting and gating** (`processCards`). A structural filter keeps cards
  with a `Dish` type, an `info` and a `restaurant.info`. Each kept card becomes
  a flat record whose missing leaves default to `""` or `0`. A record is
  dropped when a rating field is `=== 0`. The rest are compacted in order.
- **Analytics** (`calculateAnalytics`). One pass of the reducer over the
  records with a positive numeric price tracks the minimum, the maximum, the
  sum and the count. The average follows from those. Two series are filtered
  by a loose `price > 0`.
- **Top-rated cards** (`prepareTopRatedCards`). The caller's array is sorted
  in place with a stable descending sort by `parseFloat(rating) || 0`. The
  first five records are projected, with the image CDN prefix placed before
  each image id.
- **The query rewrite** in `fetchSwiggyData`. It makes three
  `URLSearchParams.set` calls, following the WHATWG URL Standard, section 6.2.
- **The `scrape` handler's pipeline and outcomes.** It returns 404, 200 with
  no cards, 200 with analytics, or 500 with the error's message.
- **The variant that `scrapev2` inlines.** Its extraction, filter chain and
  analytics are modelled as separate functions. They are compared with the
  shared helpers.

JSON values are the datatype `JsValues.Json`, and JavaScript's `undefined` is
`Option.None`. The JavaScript semantics the code relies on are written out:
truthiness, `a || b`, optional member access, `ToNumber`, `parseFloat`,
`String(v)`, and the abstract relational comparison behind `<` and `>`. Thrown
`TypeError`s are the `Err` case of `Result`. A conversion to a primitive throws
on an object with its own `toString` member, and on an array that holds such a
value at any depth (`JsValues.ToPrimitiveThrows`). So `parseFloat` of a rating,
`price > 0`, `<` on prices and the image URL's concatenation can all throw, and
the analytics, the top-rated selection and the handler return that error.

Modules, one per file:

- `JsValues`: the values and the coercions.
- `Sequences`: `filter` and where its elements come from.
- `CardExtraction`: `extractCardsArray`.
- `CardMapping`: `processCards`.
- `Analytics`: `calculateAnalytics`.
- `StableSort` and `TopRated`: `prepareTopRatedCards`.
- `QueryParams`: the query rewrite.
- `InlineAnalytics`: the `scrapev2` variant.
- `Scrape`: the handler.

Behaviour of the code worth knowing:

- **The quality gate** drops a record when *any one* of `rating`,
  `ratingCount` and `ratingCountV2` is absent or falsy, not only when all
  three are (`CardMapping.MapCard`, `CardMapping.ProcessCardsGate`).
- **`extractCardsArray` can throw.** When `data.cards` is truthy but is
  neither an array nor a string and has no primary path, `for … of` throws a
  `TypeError` (`CardExtraction.ExtractFailsOnlyWhenNotIterable`).
- **A card's error is not isolated.** A card whose `@type` is present, not
  null, and neither a string nor an array makes `.includes` throw inside the
  filter. The filter is outside the per-card `try`, so the whole batch fails
  (`CardMapping.ProcessCardsFails`). The `catch` inside the map callback can never
  fire, because the filter already guarantees every path it reads.
- **The series can be non-empty with no valid price.** The series use the
  loose `price > 0`, so a numeric-string price is plotted. The extremes and the
  average need `typeof price === "number"` and skip it. Both series are
  therefore empty only when no price compares above 0
  (`Analytics.NumericStringPricePlotted`).
- **One unconvertible value fails the request.** A record whose price or rating
  is an object with its own `toString` member makes `calculateAnalytics` throw.
  So does a top-five record whose image id is one. The handler then answers 500
  (`Analytics.AnalyticsOf`, `TopRated.TopRatedOf`, `Scrape.Scrape`).

## Model

| member | source | states |
|---|---|---|
| CardExtraction.ExtractCardsArray | src/controllers/scapperController.js:112-130 | the lookup itself; its contract is stated by ExtractWithoutCards, ExtractPrimaryPath, ExtractFallback and ExtractFailsOnlyWhenNotIterable |
| CardExtraction.ExtractWithoutCards | src/controllers/scapperController.js:113-115 | a response without a truthy `data.cards` yields `[]` |
| CardExtraction.ExtractPrimaryPath | src/controllers/scapperController.js:118-120 | when `data.cards[1]` carries `groupedCard.cardGroupMap.DISH.cards`, that list is the result |
| CardExtraction.ScanGroupsFindsFirst | src/controllers/scapperController.js:123-127 | the scan returns the dish list of the first group, in order, that has one; it returns nothing exactly when no group has one |
| CardExtraction.ExtractFallback | src/controllers/scapperController.js:122-129 | without the primary path, an array of groups (the empty array included) yields the first group's dish list, or `[]` when no group has one |
| CardExtraction.ExtractFailsOnlyWhenNotIterable | src/controllers/scapperController.js:112-130 | the lookup throws exactly when `data.cards` is truthy, has no primary path and is neither an array nor a string; every success is a truthy value or `[]` |
| CardExtraction.ExtractCardsV2 | src/controllers/scapperController.js:434-452 | scrapev2's lookup yields `[]` whenever the primary path is absent |
| CardExtraction.ExtractV2AgreesOnPrimaryPath | src/controllers/scapperController.js:436-440 | when the primary path is present, scrapev2's lookup and `extractCardsArray` give the same list |
| CardExtraction.ExtractV2MissesFallbackGroup | src/controllers/scapperController.js:441-452 | on a response whose only group carries the dish list, scrapev2 finds `[]` while `extractCardsArray` finds the list |
| CardMapping.DishMarker | src/controllers/scapperController.js:137 | the `@type` test; when it throws is stated by ProcessCardsFails |
| CardMapping.Screen | src/controllers/scapperController.js:135-140 | the filter callback; what it keeps is stated by EligibleCards and ProcessCardsOrigins, when it throws by ProcessCardsFails |
| CardMapping.Project | src/controllers/scapperController.js:145-159 | each leaf is `""` or `0` when absent or falsy; otherwise the price and name are carried over unchanged; a rating field is `0` exactly when its source is absent or falsy |
| CardMapping.MapCard | src/controllers/scapperController.js:143-170 | the callback yields a record exactly when all three rating fields are truthy, and that record is the projection and passes the gate |
| CardMapping.EligibleCards | src/controllers/scapperController.js:135-140 | every card kept by the filter has the Dish marker, `info` and `restaurant.info` |
| CardMapping.CompactOrigins | src/controllers/scapperController.js:177-178 | every compacted record is a non-null answer, in increasing position, and every non-null answer appears |
| CardMapping.ProcessCards | src/controllers/scapperController.js:133-179 | the whole function; its contract is stated by ProcessCardsFails, ProcessCardsOrigins and ProcessCardsGate |
| CardMapping.ProcessCardsFails | src/controllers/scapperController.js:135-140 | `processCards` throws exactly when its argument is not an array or some card's `@type` is present, not null, and neither a string nor an array |
| CardMapping.ProcessCardsOrigins | src/controllers/scapperController.js:133-179 | the output has at most as many records as the input has cards; each record is the projection of a card that passed the filter, in the cards' order; every card that passes the filter and the gate contributes its record |
| CardMapping.ProcessCardsGate | src/controllers/scapperController.js:155-168 | no output record has a rating field `=== 0`, and a kept card with one rating field absent or falsy contributes nothing |
| Analytics.Fold | src/controllers/scapperController.js:194-209 | the reduce; it keeps the accumulator's extremes valid, and FoldTotals and FoldExtremes state what it computes |
| Analytics.Step | src/controllers/scapperController.js:195-207 | the reducer only ever stores records with a positive numeric price as minimum or maximum |
| Analytics.FoldTotals | src/controllers/scapperController.js:194-209 | the running sum and count are the sum and the number of the valid prices, in the order of the records |
| Analytics.FoldExtremes | src/controllers/scapperController.js:196-201 | the minimum and maximum are null exactly when no record has a positive numeric price; otherwise they are the first cheapest and the first dearest such record |
| Analytics.AnalyticsBounds | src/controllers/scapperController.js:194-211 | without a valid price, min and max are null and the average is 0; otherwise min and max summarize the first cheapest and dearest records, every valid price lies between them, and so does the average |
| Analytics.ReportOf | src/controllers/scapperController.js:182-250 | the returned object when no conversion throws; its contract is stated by AnalyticsBounds and SeriesOrigins |
| Analytics.AnalyticsOf | src/controllers/scapperController.js:182-250 | `calculateAnalytics` itself: a TypeError when some record's rating (`parseFloat`, :216) or price (`> 0`, :218 and :221) cannot be converted, otherwise ReportOf; CalculateAnalytics computes it |
| Analytics.ConversionThroughJoin | src/controllers/scapperController.js:213-225 | a price that is an array holding an object with its own `toString` makes `calculateAnalytics` throw; an object with only its own `valueOf` does not |
| Analytics.RatingSeries | src/controllers/scapperController.js:213-218 | `priceVSrating` when no conversion throws (AnalyticsOf checks that first); its contents are stated by RatingSeriesFiltersFirst and SeriesOrigins |
| Analytics.DistanceSeries | src/controllers/scapperController.js:220-225 | `priceVSdistance` when no conversion throws (AnalyticsOf checks that first); its contents are stated by SeriesOrigins |
| Analytics.RatingSeriesFiltersFirst | src/controllers/scapperController.js:213-218 | mapping then filtering `priceVSrating` equals filtering the records by `price > 0` first |
| Analytics.SeriesOrigins | src/controllers/scapperController.js:213-225 | each series holds exactly one entry per record whose price compares above 0, in order, with that record's price and its rating (0 when unparsable) or its `lastMileTravel` |
| Analytics.NumericStringPricePlotted | src/controllers/scapperController.js:196-225 | a record priced `"120"` is plotted in both series while min is null and the average is 0 |
| Analytics.CalculateAnalytics | src/controllers/scapperController.js:182-250 | the loop over the records, then the series, compute `calculateAnalytics`; it throws exactly when some record's rating or price cannot be converted; an empty list gives nulls, 0 and empty series; otherwise min is null exactly when there is no valid price, and else min.price ≤ avgPrice ≤ max.price (in exact arithmetic) |
| StableSort.SortDownPermutes | src/controllers/scapperController.js:254-259 | the sorted list holds the input's elements, each as often as before |
| StableSort.SortDownSorted | src/controllers/scapperController.js:254-259 | the sorted list's keys are non-increasing |
| StableSort.SortDownStable | src/controllers/scapperController.js:254-259 | the elements of each key value keep their input order |
| StableSort.InsertInPlace | src/controllers/scapperController.js:254-259 | one insertion pass puts `a[i]` into the sorted prefix as `StableSort.Insert` does, and leaves the rest of the array unchanged |
| StableSort.SortInPlace | src/controllers/scapperController.js:254-259 | the in-place sort leaves the array equal to the stable descending order of its old contents |
| TopRated.Rating | src/controllers/scapperController.js:256-258 | the sort key: the rating through `parseFloat`, or 0 when that is falsy, for ratings that convert (TopRatedOf checks that first); the order it induces is stated by TopCardsSpec |
| TopRated.ToTopCard | src/controllers/scapperController.js:261-272 | the card projection for an image id that converts (TopRatedOf checks that first); stated by TopCardsSpec (image prefix, fields of an input record) |
| TopRated.TopCards | src/controllers/scapperController.js:260-272 | `slice(0, 5).map(…)`; its length and contents are stated by TopCardsSpec |
| TopRated.TopCardsSpec | src/controllers/scapperController.js:253-273 | the response has `min(5, n)` cards, each the projection of an input record with the CDN prefix before its image id, highest rated first, none rated below a record left out, and equal ratings in input order |
| TopRated.TopRatedOf | src/controllers/scapperController.js:253-273 | `prepareTopRatedCards` itself: a TypeError when the comparator meets a rating that cannot be converted (two or more records) or a top-five image id cannot be converted, otherwise the top cards of the stable sort |
| TopRated.LoneRecordRatingUnread | src/controllers/scapperController.js:254-264 | a single record is never compared, so only its image id can make the selection throw, and otherwise the result is its one projected card |
| TopRated.PrepareTopRatedCards | src/controllers/scapperController.js:253-273 | the result is TopRatedOf of the old contents; the array is left unchanged when the comparator throws, and otherwise becomes the stable descending order of its old contents, a sorted permutation whose first five records the result projects |
| QueryParams.SetParam | src/controllers/scapperController.js:78-80 | `URLSearchParams.set` on the pairs; its contract is stated by SetParamSets, SetParamPlace and SetParamOther |
| QueryParams.Rewrite | src/controllers/scapperController.js:76-80 | the three `set` calls; stated by RewriteSpec |
| QueryParams.SetParamSets | src/controllers/scapperController.js:78-80 | after `set(name, value)` exactly one pair is named `name` and it holds `value`; the pairs of every other name are unchanged and in order |
| QueryParams.SetParamPlace | src/controllers/scapperController.js:78-80 | the pair stays where the first pair of that name was, after an untouched prefix, or goes at the end when there was none |
| QueryParams.SetParamOther | src/controllers/scapperController.js:78-80 | `set` on one name leaves every other name's count and first value as they were |
| QueryParams.RewriteSpec | src/controllers/scapperController.js:76-80 | after the three calls, `lat`, `lng` and `str` each occur exactly once with the given values, and every other parameter keeps its value and relative order |
| QueryParams.SearchParams.Set | src/controllers/scapperController.js:78 | the object's pairs become `set` applied to the old pairs |
| QueryParams.RewriteQuery | src/controllers/scapperController.js:76-80 | the three in-place `set` calls leave exactly one `lat`, `lng` and `str` with the given values, and leave the other parameters as they were |
| InlineAnalytics.ProcessCardsV2 | src/controllers/scapperController.js:455-490 | scrapev2's filter chain; stated by ProcessCardsV2Agrees |
| InlineAnalytics.ProcessCardsV2Agrees | src/controllers/scapperController.js:455-490 | scrapev2's filter, map, `filter(Boolean)` and gate-as-filter chain yields exactly what `processCards` yields, errors included |
| InlineAnalytics.GateAsFilter | src/controllers/scapperController.js:484-490 | compacting the gated answers equals filtering the projections by the gate |
| InlineAnalytics.InlineExtremes | src/controllers/scapperController.js:502-507 | scrapev2's minimum and maximum are records that no later record beats by loose `<` or `>`; the seed is the first record |
| InlineAnalytics.InlineExtremesOverAll | src/controllers/scapperController.js:502-507 | when every price is a number, scrapev2's min and max summarize the first record of least and of greatest price among all the records, zero and negative prices included |
| InlineAnalytics.InlineReportOf | src/controllers/scapperController.js:499-522 | scrapev2's analytics object when no conversion throws; stated by InlineExtremes, InlineExtremesOverAll, InlineAgreesOnValidPrices and InlineDiffersOnZeroPrice |
| InlineAnalytics.InlineAnalyticsOf | src/controllers/scapperController.js:499-522 | scrapev2's analytics: a TypeError when some price cannot be converted for `<` (:505-506) or some rating for `parseFloat` (:514), otherwise InlineReportOf; InlineAnalytics computes it |
| InlineAnalytics.InlineAgreesOnValidPrices | src/controllers/scapperController.js:499-522 | when every record has a positive numeric price, scrapev2's analytics equal `calculateAnalytics`', the errors included |
| InlineAnalytics.InlineDiffersOnZeroPrice | src/controllers/scapperController.js:502-522 | a record without a price (`0`) becomes scrapev2's minimum and is plotted by it, while `calculateAnalytics` skips it in both |
| InlineAnalytics.InlineAnalytics | src/controllers/scapperController.js:499-522 | the `forEach` loop seeded with the first record, stopping at the first price that cannot be converted, then the series, compute scrapev2's analytics, whose min and max are never null |
| Scrape.Pipeline | src/controllers/scapperController.js:288-290 | extraction then processing, the first error winning; its results are stated by the CardExtraction and CardMapping lemmas |
| Scrape.Scrape | src/controllers/scapperController.js:276-330 | a capture error gives status 500 with `Internal Server Error: ` and its message; no captured request gives status 404, and only then; otherwise the rewritten query is sent; a fetch error gives status 500 with `Internal Server Error: ` and its message, a pipeline error the 500 failure with the error's message; no records gives the empty 200; a TypeError from `calculateAnalytics` or, after it, from `prepareTopRatedCards` gives the 500 failure with its message; otherwise 200 carries `calculateAnalytics` of the unsorted records and the top cards of their stable sort |

## Left out

- Numbers are exact reals. Floating-point rounding, `NaN` and `Infinity` are
  not modelled, so `parseFloat` never yields `Infinity`. `Number(string)`
  accepts decimal literals, but not hexadecimal, binary or octal ones.
- `String(v)` (`JsValues.JsString`) is exact only for integers below 10^21
  in magnitude. A fractional number is rendered by the digits of its floor, and
  integers from 10^21 up by all their digits rather than in exponent form.
  It is used by the image URL, by the rating key of the sort and of
  `priceVSrating` when the rating is an array (`[4.5]` gives 4 here, 4.5 in
  JavaScript), and by the loose comparisons on arrays (`[0.5] > 0` is false
  here, true in JavaScript). Strings are sequences of code points rather than
  UTF-16 units.
- The browser is not modelled. This covers `initBrowser`'s single-flight
  launch, `captureSwiggyApiRequest`'s interception and navigation, the page
  and browser lifecycle, and the SIGINT/SIGTERM handlers. It is concurrency
  and foreign-library I/O. `Scrape.Scrape` takes what the capture produced as
  a parameter.
- The network is not modelled: the HTTPS GET, header overriding, chunk
  accumulation and `JSON.parse`. `Scrape.Scrape` takes the parsed response,
  or the rejection message, as a parameter.
- `new URL(…)` parsing and `toString()` serialization are left out. The
  query is modelled as the sequence of its decoded name/value pairs.
- The `req.query` defaults, the Express wiring and the shape of
  `ApiResponse` are left out. `Scrape.Status` and `Scrape.Message` give the
  status code and message of each outcome.
- The `scrapev2` handler itself is left out: its browser launch, capture and
  fetch, and its response wiring. Only its extraction, its filter chain and
  its analytics are modelled. Its top-rated block computes what
  `TopRated.TopRatedOf` computes.
- `src/controllers/analysis.Controller.js` is not part of this model. It holds
  database lookups, a foreign HTTP call, PDF rendering and mail. The routes,
  the middleware and the models are not part of it either.
- `console.error` logging is left out.
- The wording of a thrown `TypeError`'s message is not modelled. The engine's
  message names the failing call expression. The model uses its own text
  (`includes is not a function`, `cardsArray.filter is not a function`,
  `Cannot convert object to primitive value`), so the
  message after `Internal Server Error: ` in `Scrape.Scrape`'s 500 outcome is
  not the program's.
- The order in which `Promise.all` settles is left out. Only its ordered
  result is modelled.
- Analytics.CalculateAnalytics: the accumulator object that the reducer
  mutates is modelled as four local variables updated by the loop.
- Analytics.CalculateAnalytics: `min.price ≤ avgPrice ≤ max.price` is proved
  in exact arithmetic. The program's average is a double, and there the bound
  holds only for integer prices whose sum stays below 2^53 (prices in minor
  units). Three prices of `0.1` sum to 0.30000000000000004, and the average is
  0.10000000000000002, above the maximum 0.1.
- Analytics.AnalyticsBounds: its average bound is exact-arithmetic too, and
  holds in the program only for integer prices, as for
  `Analytics.CalculateAnalytics` above.
- TopRated.PrepareTopRatedCards: when the comparator throws, the array is left
  as it was, as ECMAScript's sort sorts a copy of the items and writes them back
  at the end. Which comparison throws first is not modelled, as every
  conversion error is the same. The model takes it that a single record is never
  passed to the comparator. ECMAScript leaves the comparator calls to the
  engine, and engines make none for one item.

## Findings

| source | as written | input that shows it | evidently intended | confidence | as-written member | corrected member |
|---|---|---|---|---|---|---|
| src/controllers/scapperController.js:436-452 | scrapev2's fallback scan over `data.cards` sits in the `catch` of a `try` whose only test uses optional chaining, which cannot throw there, so the scan never runs | a response whose `data.cards` is `[{groupedCard:{cardGroupMap:{DISH:{cards:[d]}}}}]`: no element 1, dish list in element 0 | scan the groups when the primary path is absent, as `extractCardsArray` does | high, not executed | CardExtraction.ExtractCardsV2 (ExtractV2MissesFallbackGroup) | CardExtraction.ExtractCardsArray (ExtractFallback) |
