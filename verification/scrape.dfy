/**
 * The `scrape` handler: the captured search request's query is rewritten,
 * the fetched response goes through extraction, the card pipeline, the
 * empty check, the analytics (on the processed list as it is) and the
 * top-rated selection (which sorts that list in place), and every outcome,
 * a TypeError thrown by any of these steps included, becomes a status code
 * and a message. The browser capture and the HTTPS
 * fetch are parameters: what they produced is given, not performed.
 */
module Scrape {
  import opened JsValues
  import opened CardExtraction
  import opened CardMapping
  import opened Analytics
  import opened TopRated
  import opened QueryParams

  /** What an awaited I/O step produced: a value, or a rejection with its message. */
  datatype Io<T> = Done(value: T) | Failed(message: string)

  /** The handler's four responses. */
  datatype Outcome =
    | NotFound
    | NoValidCards
    | Success(analytics: Report, cards: seq<TopCard>)
    | Failure(message: string)

  function Status(out: Outcome): nat
  {
    match out
    case NotFound => 404
    case NoValidCards => 200
    case Success(_, _) => 200
    case Failure(_) => 500
  }

  function Message(out: Outcome): string
  {
    match out
    case NotFound => "v3 API request not found"
    case NoValidCards => "No valid cards found to process"
    case Success(_, _) => "API response retrieved successfully"
    case Failure(m) => "Internal Server Error: " + m
  }

  /** `processCards(extractCardsArray(apiResponse))`: the first error thrown,
      or the processed records. */
  function Pipeline(response: Json): Result<seq<Record>>
  {
    match ExtractCardsArray(response)
    case Err(e) => Err(e)
    case Ok(cardsArray) => ProcessCards(cardsArray)
  }

  /** The handler. `capture` is what `captureSwiggyApiRequest` gave: a
      rejection, `null` (no search request seen), or the captured URL's query;
      `fetched` is what `fetchSwiggyData` resolves to for the rewritten URL.
      `sent` is the query of the URL that was fetched, if one was. */
  method Scrape(capture: Io<Option<seq<Pair>>>, lat: string, lng: string, item: string, fetched: Io<Json>)
    returns (out: Outcome, sent: Option<seq<Pair>>)
    ensures capture.Failed? ==> out == Failure(capture.message) && sent == None
    ensures capture.Failed? ==> Status(out) == 500 && Message(out) == "Internal Server Error: " + capture.message
    ensures capture == Done(None) ==> out == NotFound && sent == None
    ensures Status(out) == 404 <==> capture == Done(None)
    ensures capture.Done? && capture.value.Some? ==>
      sent == Some(Rewrite(capture.value.value, lat, lng, item))
    ensures capture.Done? && capture.value.Some? && fetched.Failed? ==> out == Failure(fetched.message)
    ensures capture.Done? && capture.value.Some? && fetched.Failed? ==>
      Status(out) == 500 && Message(out) == "Internal Server Error: " + fetched.message
    ensures capture.Done? && capture.value.Some? && fetched.Done? ==>
      match Pipeline(fetched.value)
      case Err(e) => out == Failure(e.message)
      case Ok(records) =>
        if records == [] then out == NoValidCards
        else match (AnalyticsOf(records), TopRatedOf(records))
          case (Err(e), _) => out == Failure(e.message)
          case (Ok(_), Err(e)) => out == Failure(e.message)
          case (Ok(report), Ok(top)) => out == Success(report, top)
  {
    sent := None;
    if capture.Failed? {
      out := Failure(capture.message);
    } else if capture.value.None? {
      out := NotFound;
    } else {
      var params := new SearchParams(capture.value.value);
      RewriteQuery(params, lat, lng, item);
      sent := Some(params.list);
      if fetched.Failed? {
        out := Failure(fetched.message);
      } else {
        var extracted := ExtractCardsArray(fetched.value);
        if extracted.Err? {
          out := Failure(extracted.error.message);
        } else {
          var processed := ProcessCards(extracted.value);
          if processed.Err? {
            out := Failure(processed.error.message);
          } else if |processed.value| == 0 {
            out := NoValidCards;
          } else {
            var records := processed.value;
            var analytics := CalculateAnalytics(records);
            if analytics.Err? {
              out := Failure(analytics.error.message);
            } else {
              var list := new Record[|records|](k requires 0 <= k < |records| => records[k]);
              assert list[..] == records;
              var top := PrepareTopRatedCards(list);
              if top.Err? {
                out := Failure(top.error.message);
              } else {
                out := Success(analytics.value, top.value);
              }
            }
          }
        }
      }
      assert !out.NotFound?;
    }
    NotFoundStatus(out);
  }

  /** Only the `NotFound` outcome answers 404. */
  lemma NotFoundStatus(out: Outcome)
    ensures Status(out) == 404 <==> out.NotFound?
  {
  }
}
