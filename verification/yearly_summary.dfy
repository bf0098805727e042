/**
 * src/Pages/Dashbaord/Summary/yearly-summary-page.tsx: the selected year,
 * `fetchSummary`'s state steps, and the totals, difference and colour
 * derived from the response.
 */
module YearlySummary {
  import opened Wrappers
  import opened Js
  import opened Http
  import Format

  /** `YearlySummaryResponse`, as far as the page reads it: `current.amount`, `previous.amount` and `percentage`. */
  datatype YearlyData = YearlyData(currentAmount: JsNumber, previousAmount: JsNumber, percentage: JsNumber)

  /** `x || 0` on a number that may be missing: a missing, zero or NaN value reads as 0. */
  function OrZero(n: Option<JsNumber>): (r: real)
    ensures n.None? || n.value.NaN? ==> r == 0.0
    ensures n.Some? && n.value.Finite? ==> r == n.value.value
  {
    if n.Some? && n.value.Finite? && n.value.value != 0.0 then n.value.value else 0.0
  }

  /** The three cards' figures. */
  datatype Totals = Totals(current: real, previous: real, growth: real)

  /** `data?.current.amount || 0`, `data?.previous.amount || 0`, `data?.percentage || 0`: all zero before any data. */
  function TotalsOf(data: Option<YearlyData>): (t: Totals)
    ensures data.None? ==> t == Totals(0.0, 0.0, 0.0)
    ensures data.Some? ==>
              t == Totals(OrZero(Some(data.value.currentAmount)), OrZero(Some(data.value.previousAmount)), OrZero(Some(data.value.percentage)))
  {
    if data.None? then Totals(0.0, 0.0, 0.0)
    else Totals(OrZero(Some(data.value.currentAmount)), OrZero(Some(data.value.previousAmount)), OrZero(Some(data.value.percentage)))
  }

  /** The "Avg Growth" amount: current minus previous. */
  function Difference(data: Option<YearlyData>): (d: real)
    ensures d + TotalsOf(data).previous == TotalsOf(data).current
  {
    TotalsOf(data).current - TotalsOf(data).previous
  }

  /** `colorText`: red exactly when the percentage is below zero; a missing or NaN percentage is green. */
  function ColorOf(data: Option<YearlyData>): (c: string)
    ensures c == Format.Red <==> data.Some? && data.value.percentage.Finite? && data.value.percentage.value < 0.0
  {
    Format.ColorByGrowth(TotalsOf(data).growth)
  }

  /** `String(year)`, the argument of `getYearlySummary`. */
  function YearText(year: int): (s: string)
    ensures year >= 0 ==> s == DecimalText(year)
    ensures year < 0 ==> s == "-" + DecimalText(-year)
  {
    if year < 0 then "-" + DecimalText(-year) else DecimalText(year)
  }

  /** The year sent to the server reads back as the year selected. */
  lemma YearTextRoundTrip(year: nat)
    ensures ToNumber(Str(YearText(year))) == Finite(year as real)
  {
    DecimalTextValue(year);
  }

  class YearlySummaryPage {
    var year: int
    var data: Option<YearlyData>
    var loading: bool
    var error: Option<string>
    /** The year text of each request made so far, oldest first. */
    var requests: seq<string>

    /** The year starts at the current one; no data; loading starts true. */
    constructor (currentYear: int)
      ensures year == currentYear && data == None && loading && error == None && requests == []
    {
      year, data, loading, error, requests := currentYear, None, true, None, [];
    }

    /**
     * One `fetchSummary` with the reply `getYearlySummary` settles with: the
     * request carries the year as text; success replaces the data, failure
     * records the thrown message and keeps the old data.
     */
    method FetchSummary(reply: Result<YearlyData, Thrown>)
      modifies this
      ensures requests == old(requests) + [YearText(year)]
      ensures year == old(year) && !loading
      ensures reply.Success? ==> data == Some(reply.value) && error == None
      ensures reply.Failure? ==> data == old(data) && error == reply.error.message
    {
      loading := true;
      error := None;
      requests := requests + [YearText(year)];
      match reply {
        case Success(response) => data := Some(response);
        case Failure(e) => error := e.message;
      }
      loading := false;
    }

    /** `setYear(Number(value))`: a different year re-creates `fetchSummary`, whose effect fetches again; the same year fetches nothing. */
    method SetYear(y: int, reply: Result<YearlyData, Thrown>)
      modifies this
      ensures year == y
      ensures y == old(year) ==> requests == old(requests) && data == old(data) && loading == old(loading) && error == old(error)
      ensures y != old(year) ==> requests == old(requests) + [YearText(y)] && !loading
      ensures y != old(year) && reply.Success? ==> data == Some(reply.value) && error == None
      ensures y != old(year) && reply.Failure? ==> data == old(data) && error == reply.error.message
    {
      if y != year {
        year := y;
        FetchSummary(reply);
      }
    }
  }

  /** A failed fetch for another year keeps the old year's totals on screen. */
  method FailedYearKeepsTotals(d: YearlyData, message: string) returns (shown: Totals, error: Option<string>)
    ensures shown == TotalsOf(Some(d))
    ensures error == Some(message)
  {
    var page := new YearlySummaryPage(2024);
    page.FetchSummary(Success(d));
    page.SetYear(2023, Failure(Thrown(Some(message), None)));
    shown := TotalsOf(page.data);
    error := page.error;
  }
}
