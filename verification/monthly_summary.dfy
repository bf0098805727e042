/**
 * src/Pages/Dashbaord/Summary/monthly-summary-page.tsx: `fetchSummary`'s
 * state steps, the headline taken from the last month, the growth colours,
 * and the table area.
 */
module MonthlySummary {
  import opened Wrappers
  import opened Js
  import opened Http
  import Format
  import ViewState

  /** `MonthTransaction`, as far as the page reads it. */
  datatype MonthItem = MonthItem(month: string, current: real, previous: real, growth: real)

  /** The "Last Transactions" card: current and previous amounts and growth. */
  datatype Headline = Headline(current: real, previous: real, growth: real)

  /** The last month's figures, or zeros when there are no months. */
  function HeadlineOf(items: seq<MonthItem>): (h: Headline)
    ensures items == [] ==> h == Headline(0.0, 0.0, 0.0)
    ensures items != [] ==>
              var last := items[|items| - 1];
              h == Headline(last.current, last.previous, last.growth)
  {
    if |items| > 0 then
      var last := items[|items| - 1];
      Headline(last.current, last.previous, last.growth)
    else Headline(0.0, 0.0, 0.0)
  }

  /** The amount shown under the headline: what the last month added on top of the month before it, or 0 with no months. */
  function HeadlineChange(items: seq<MonthItem>): (d: real)
    ensures items == [] ==> d == 0.0
    ensures items != [] ==> d + items[|items| - 1].previous == items[|items| - 1].current
  {
    var h := HeadlineOf(items);
    h.current - h.previous
  }

  /** A newly reported month becomes the headline, whatever came before it. */
  lemma LatestMonthIsHeadline(items: seq<MonthItem>, m: MonthItem)
    ensures HeadlineOf(items + [m]) == Headline(m.current, m.previous, m.growth)
  {
  }

  /** `colorText` of the headline. */
  function HeadlineColor(items: seq<MonthItem>): (c: string)
    ensures c == Format.Red <==> HeadlineOf(items).growth < 0.0
  {
    Format.ColorByGrowth(HeadlineOf(items).growth)
  }

  /** A row's `colorClass`. */
  function RowColor(m: MonthItem): (c: string)
    ensures c == Format.Red <==> m.growth < 0.0
  {
    Format.ColorByGrowth(m.growth)
  }

  /** The headline is coloured like the last row of the table, and green when there are no rows. */
  lemma HeadlineColoredLikeLastRow(items: seq<MonthItem>)
    ensures items != [] ==> HeadlineColor(items) == RowColor(items[|items| - 1])
    ensures items == [] ==> HeadlineColor(items) == Format.Green
  {
  }

  class MonthlySummaryPage {
    /** The picked months, as the `yyyy-MM` text the request carries. */
    var startMonth: string
    var endMonth: string
    var transactions: seq<MonthItem>
    var loading: bool
    var error: Option<string>
    /** The (start, end) pairs of the requests made so far, oldest first. */
    var requests: seq<(string, string)>

    /** Both pickers start at the current month; loading starts true before the first fetch. */
    constructor (currentMonth: string)
      ensures startMonth == currentMonth && endMonth == currentMonth
      ensures transactions == [] && loading && error == None && requests == []
    {
      startMonth, endMonth := currentMonth, currentMonth;
      transactions, loading, error, requests := [], true, None, [];
    }

    /**
     * One `fetchSummary` with the reply `getMonthlySummary` settles with:
     * the request carries the picked months; success replaces the list,
     * failure records the thrown message and keeps the old list; loading
     * is over either way.
     */
    method FetchSummary(reply: Result<Option<seq<MonthItem>>, Thrown>)
      modifies this
      ensures requests == old(requests) + [(startMonth, endMonth)]
      ensures startMonth == old(startMonth) && endMonth == old(endMonth)
      ensures !loading
      ensures reply.Success? ==> transactions == ViewState.ItemsOrEmpty(reply.value) && error == None
      ensures reply.Failure? ==> transactions == old(transactions) && error == reply.error.message
    {
      loading := true;
      error := None;
      requests := requests + [(startMonth, endMonth)];
      match reply {
        case Success(response) => transactions := ViewState.ItemsOrEmpty(response);
        case Failure(e) => error := e.message;
      }
      loading := false;
    }

    /** Picking a start month (a cleared pick is ignored); each pick is a new `Date`, so the effect fetches again. */
    method PickStartMonth(month: Option<string>, reply: Result<Option<seq<MonthItem>>, Thrown>)
      modifies this
      ensures month.None? ==> (startMonth == old(startMonth) && requests == old(requests) &&
                 transactions == old(transactions) && loading == old(loading) && error == old(error))
      ensures month.Some? ==> startMonth == month.value && requests == old(requests) + [(month.value, old(endMonth))] && !loading
      ensures endMonth == old(endMonth)
      ensures month.Some? && reply.Success? ==> transactions == ViewState.ItemsOrEmpty(reply.value) && error == None
      ensures month.Some? && reply.Failure? ==> transactions == old(transactions) && error == reply.error.message
    {
      if month.Some? {
        startMonth := month.value;
        FetchSummary(reply);
      }
    }

    /** Picking an end month, likewise. */
    method PickEndMonth(month: Option<string>, reply: Result<Option<seq<MonthItem>>, Thrown>)
      modifies this
      ensures month.None? ==> (endMonth == old(endMonth) && requests == old(requests) &&
                 transactions == old(transactions) && loading == old(loading) && error == old(error))
      ensures month.Some? ==> endMonth == month.value && requests == old(requests) + [(old(startMonth), month.value)] && !loading
      ensures startMonth == old(startMonth)
      ensures month.Some? && reply.Success? ==> transactions == ViewState.ItemsOrEmpty(reply.value) && error == None
      ensures month.Some? && reply.Failure? ==> transactions == old(transactions) && error == reply.error.message
    {
      if month.Some? {
        endMonth := month.value;
        FetchSummary(reply);
      }
    }

    /** The "Total Month" figure: the number of rows the table lists once it shows rows. */
    function TotalMonth(): (n: nat)
      reads this
      ensures Table().RowsView? ==> Table().count == n
      ensures !Present(error) && !loading ==> (n == 0 <==> Table().EmptyView?)
    {
      |transactions|
    }

    /** The table card: a message with text first, then the skeleton while loading, then the empty notice, then one row per month. */
    function Table(): (v: ViewState.TableView)
      reads this
      ensures v.ErrorView? <==> Present(error)
      ensures v.ErrorView? ==> v.message == error.value
      ensures v.SkeletonView? <==> !Present(error) && loading
      ensures v.EmptyView? <==> !Present(error) && !loading && transactions == []
      ensures v.RowsView? ==> v.count == |transactions| && transactions != []
    {
      ViewState.TableOf(error, loading, |transactions|)
    }
  }

  /** "Total Month" counts the months the last successful fetch returned, and a failed refresh does not change it. */
  method TotalMonthFollowsFetch(items: seq<MonthItem>, message: string) returns (afterSuccess: nat, afterFailure: nat)
    ensures afterSuccess == |items|
    ensures afterFailure == |items|
  {
    var page := new MonthlySummaryPage("2024-05");
    page.FetchSummary(Success(Some(items)));
    afterSuccess := page.TotalMonth();
    page.FetchSummary(Failure(Thrown(Some(message), None)));
    afterFailure := page.TotalMonth();
  }

  /** A failed refresh leaves the months already shown in place, and shows its message instead of them. */
  method FailedRefreshKeepsMonths(items: seq<MonthItem>, message: string) returns (kept: seq<MonthItem>, table: ViewState.TableView)
    requires message != ""
    ensures kept == items
    ensures table == ViewState.ErrorView(message)
  {
    var page := new MonthlySummaryPage("2024-05");
    page.FetchSummary(Success(Some(items)));
    page.FetchSummary(Failure(Thrown(Some(message), None)));
    kept := page.transactions;
    table := page.Table();
  }
}
