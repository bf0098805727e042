/**
 * src/Pages/Dashbaord/Summary/top-customer-summary-page.tsx: the date range
 * and limit selection, `fetchSummary`'s state steps, the numbered rows and
 * the table area.
 */
module TopCustomer {
  import opened Wrappers
  import opened Http
  import opened Js
  import ViewState

  /** `TopCustomer`, as far as the page reads it. */
  datatype Customer = Customer(name: string, code: string, companyType: string)
  datatype TopCustomerItem = TopCustomerItem(customer: Customer, amount: real)

  /** The request `getTopCustomersSummary(start, end, limit)` receives. */
  datatype TopRequest = TopRequest(startDate: string, endDate: string, limit: int)

  const DefaultLimit := 5

  /** The values of the limit select, in display order. */
  const LimitOptions: seq<int> := [5, 10, 20, 50]

  /** One table row: its "No" cell and its customer. */
  datatype Row = Row(number: int, item: TopCustomerItem)

  /** The rows in list order, numbered from 1. */
  function NumberedRows(items: seq<TopCustomerItem>): (rows: seq<Row>)
    ensures |rows| == |items|
    ensures forall i :: 0 <= i < |rows| ==> rows[i].item == items[i]
    ensures forall i :: 0 <= i < |rows| ==> rows[i].number == i + 1
  {
    seq(|items|, i requires 0 <= i < |items| => Row(i + 1, items[i]))
  }

  /** The numbers run 1, 2, …, n without gaps or repeats. */
  lemma RowNumbersAreConsecutive(items: seq<TopCustomerItem>)
    ensures items != [] ==> NumberedRows(items)[0].number == 1 && NumberedRows(items)[|items| - 1].number == |items|
    ensures forall i, j :: 0 <= i < j < |items| ==> NumberedRows(items)[i].number < NumberedRows(items)[j].number
  {
  }

  class TopCustomerPage {
    /** The picked dates, as the `yyyy-MM-dd` text the request carries. */
    var startDate: string
    var endDate: string
    var limit: int
    var customers: seq<TopCustomerItem>
    var loading: bool
    var error: Option<string>
    var requests: seq<TopRequest>

    /** The limit is always one of the select's values. */
    predicate Valid()
      reads this
    {
      limit in LimitOptions
    }

    /** Both dates start at today, the limit at 5, loading at true. */
    constructor (today: string)
      ensures Valid()
      ensures startDate == today && endDate == today && limit == DefaultLimit
      ensures customers == [] && loading && error == None && requests == []
    {
      startDate, endDate, limit := today, today, DefaultLimit;
      customers, loading, error, requests := [], true, None, [];
    }

    /**
     * One `fetchSummary` with the reply the server settles with: the request
     * carries both dates and the limit; success replaces the list, failure
     * keeps it and records the thrown message.
     */
    method FetchSummary(reply: Result<Option<seq<TopCustomerItem>>, Thrown>)
      modifies this
      requires Valid()
      ensures Valid()
      ensures requests == old(requests) + [TopRequest(startDate, endDate, limit)]
      ensures startDate == old(startDate) && endDate == old(endDate) && limit == old(limit)
      ensures !loading
      ensures reply.Success? ==> customers == ViewState.ItemsOrEmpty(reply.value) && error == None
      ensures reply.Failure? ==> customers == old(customers) && error == reply.error.message
    {
      loading := true;
      error := None;
      requests := requests + [TopRequest(startDate, endDate, limit)];
      match reply {
        case Success(response) => customers := ViewState.ItemsOrEmpty(response);
        case Failure(e) => error := e.message;
      }
      loading := false;
    }

    /** Picking a start date (a cleared pick is ignored); each pick is a new `Date`, so the effect fetches again. */
    method PickStartDate(date: Option<string>, reply: Result<Option<seq<TopCustomerItem>>, Thrown>)
      modifies this
      requires Valid()
      ensures Valid()
      ensures endDate == old(endDate) && limit == old(limit)
      ensures date.None? ==> (startDate == old(startDate) && requests == old(requests) && customers == old(customers) &&
                 loading == old(loading) && error == old(error))
      ensures date.Some? ==> startDate == date.value && requests == old(requests) + [TopRequest(date.value, endDate, limit)] && !loading
      ensures date.Some? && reply.Success? ==> customers == ViewState.ItemsOrEmpty(reply.value) && error == None
      ensures date.Some? && reply.Failure? ==> customers == old(customers) && error == reply.error.message
    {
      if date.Some? {
        startDate := date.value;
        FetchSummary(reply);
      }
    }

    /** Picking an end date, likewise. */
    method PickEndDate(date: Option<string>, reply: Result<Option<seq<TopCustomerItem>>, Thrown>)
      modifies this
      requires Valid()
      ensures Valid()
      ensures startDate == old(startDate) && limit == old(limit)
      ensures date.None? ==> (endDate == old(endDate) && requests == old(requests) && customers == old(customers) &&
                 loading == old(loading) && error == old(error))
      ensures date.Some? ==> endDate == date.value && requests == old(requests) + [TopRequest(startDate, date.value, limit)] && !loading
      ensures date.Some? && reply.Success? ==> customers == ViewState.ItemsOrEmpty(reply.value) && error == None
      ensures date.Some? && reply.Failure? ==> customers == old(customers) && error == reply.error.message
    {
      if date.Some? {
        endDate := date.value;
        FetchSummary(reply);
      }
    }

    /** Choosing the `choice`-th option of the limit select: a new limit fetches again, the current one changes nothing. */
    method SelectLimit(choice: nat, reply: Result<Option<seq<TopCustomerItem>>, Thrown>)
      modifies this
      requires Valid() && choice < |LimitOptions|
      ensures Valid()
      ensures limit == LimitOptions[choice]
      ensures startDate == old(startDate) && endDate == old(endDate)
      ensures limit == old(limit) ==> (requests == old(requests) && customers == old(customers) &&
                 loading == old(loading) && error == old(error))
      ensures limit != old(limit) ==> requests == old(requests) + [TopRequest(startDate, endDate, limit)] && !loading
      ensures limit != old(limit) && reply.Success? ==> customers == ViewState.ItemsOrEmpty(reply.value) && error == None
      ensures limit != old(limit) && reply.Failure? ==> customers == old(customers) && error == reply.error.message
    {
      if LimitOptions[choice] != limit {
        limit := LimitOptions[choice];
        FetchSummary(reply);
      }
    }

    /** The table card: a message with text first, then the skeleton while loading, then the empty notice, then one row per customer. */
    function Table(): (v: ViewState.TableView)
      reads this
      ensures v.ErrorView? <==> Present(error)
      ensures v.ErrorView? ==> v.message == error.value
      ensures v.SkeletonView? <==> !Present(error) && loading
      ensures v.EmptyView? <==> !Present(error) && !loading && customers == []
      ensures v.RowsView? ==> v.count == |NumberedRows(customers)| && NumberedRows(customers) != []
    {
      ViewState.TableOf(error, loading, |customers|)
    }
  }

  /** The first request asks for the top five, and a later choice of "Top 20" asks for twenty. */
  method LimitScenario(today: string, reply: Result<Option<seq<TopCustomerItem>>, Thrown>) returns (first: TopRequest, second: TopRequest)
    ensures first == TopRequest(today, today, 5)
    ensures second == TopRequest(today, today, 20)
  {
    var page := new TopCustomerPage(today);
    page.FetchSummary(reply);
    page.SelectLimit(2, reply);
    first, second := page.requests[0], page.requests[1];
  }
}
