/**
 * src/lib/api/summary.api.ts: `getDailySummary`, a GET whose query is the
 * two dates as given, returning the body unchanged or one resolved message.
 */
module SummaryApi {
  import opened Wrappers
  import opened Http

  /** The query of the daily-summary request: exactly the two dates. */
  datatype DateRange = DateRange(startDate: string, endDate: string)

  const DailyPath := "/v1/summaries/daily-transactions"
  const DailyFallback := "Failed to fetch daily summary"

  /** The request `getDailySummary(startDate, endDate)` sends. */
  function DailyRequest(startDate: string, endDate: string): (q: Request<DateRange>)
    ensures q.path == DailyPath
    ensures q.query.startDate == startDate && q.query.endDate == endDate
  {
    Get(DailyPath, DateRange(startDate, endDate))
  }

  /**
   * `getDailySummary` against a server: the reply body as it came, or the
   * server's message, the error's own message, or the fallback; every
   * failure ends in a non-empty message.
   */
  function GetDailySummary<B>(startDate: string, endDate: string, server: Request<DateRange> -> Result<B, Thrown>): (r: Result<B, string>)
    ensures r.Success? <==> server(Get(DailyPath, DateRange(startDate, endDate))).Success?
    ensures r.Success? ==> r.value == server(Get(DailyPath, DateRange(startDate, endDate))).value
    ensures r.Failure? ==> r.error == FetchErrorMessage(server(Get(DailyPath, DateRange(startDate, endDate))).error, DailyFallback)
    ensures r.Failure? ==> r.error != ""
  {
    match server(DailyRequest(startDate, endDate))
    case Success(body) => Success(body)
    case Failure(e) => Failure(FetchErrorMessage(e, DailyFallback))
  }

}
