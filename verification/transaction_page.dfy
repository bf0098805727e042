/**
 * src/Pages/Dashbaord/Transaction/transaction-page.tsx: the initial query
 * parameters, `fetchData`'s state steps against `getTransactions`, and the
 * refetch whenever the filter card replaces the parameters.
 */
module TransactionPage {
  import opened Wrappers
  import opened Js
  import opened Http
  import TransactionApi
  import FilterTransaction

  /** The first query: page 1, 100 per page, newest first, from 2023-01-01 up to today. */
  function InitialParams(today: string): (p: TransactionApi.QueryParams)
    ensures p.page == Some(1) && p.perPage == Some(100)
    ensures p.sortBy == Some("created_at") && p.sortDirection == Some("desc")
    ensures p.startDate == Some("2023-01-01") && p.endDate == Some(today)
  {
    TransactionApi.QueryParams(Some(1), Some(100), Some("created_at"), Some("desc"), Some("2023-01-01"), Some(today))
  }

  /** The initial sort is one the filter card offers. */
  lemma InitialSortIsOffered(today: string)
    ensures InitialParams(today).sortBy.value in FilterTransaction.SortByOptions
    ensures InitialParams(today).sortDirection.value in FilterTransaction.SortDirectionOptions
  {
  }

  /** The server as the page sees it: every successful body has the declared shape. */
  type Server = Request<TransactionApi.QueryParams> -> Result<map<string, Json>, Thrown>

  ghost predicate WellBehaved(server: Server) {
    forall p :: server(TransactionApi.TransactionsRequest(p)).Success? ==>
      TransactionApi.WellShaped(server(TransactionApi.TransactionsRequest(p)).value)
  }

  class TransactionPageState {
    var data: seq<TransactionApi.Item>
    var loading: bool
    var error: Option<string>
    var params: TransactionApi.QueryParams
    /** The query of each request made so far, oldest first. */
    var requests: seq<TransactionApi.QueryParams>

    constructor (today: string)
      ensures params == InitialParams(today)
      ensures data == [] && loading && error == None && requests == []
    {
      params := InitialParams(today);
      data, loading, error, requests := [], true, None, [];
    }

    /**
     * One `fetchData` against `server`: the current parameters go out
     * unchanged; success shows the normalised items, failure shows the
     * resolved message and keeps the rows.
     */
    method FetchData(server: Server)
      modifies this
      requires WellBehaved(server)
      ensures params == old(params) && !loading
      ensures requests == old(requests) + [params]
      ensures TransactionApi.GetTransactions(params, server).Success? ==>
                data == TransactionApi.GetTransactions(params, server).value.items && error == None
      ensures TransactionApi.GetTransactions(params, server).Failure? ==>
                data == old(data) && error == Some(TransactionApi.GetTransactions(params, server).error)
    {
      loading := true;
      error := None;
      requests := requests + [params];
      var r := TransactionApi.GetTransactions(params, server);
      match r {
        case Success(response) => data := response.items;
        case Failure(message) => error := Some(message);
      }
      loading := false;
    }

    /** The filter card's `onParamsChange`: the new parameters replace the old ones and the effect fetches with them. */
    method ChangeParams(p: TransactionApi.QueryParams, server: Server)
      modifies this
      requires WellBehaved(server)
      ensures params == p && !loading
      ensures requests == old(requests) + [p]
      ensures TransactionApi.GetTransactions(p, server).Success? ==>
                data == TransactionApi.GetTransactions(p, server).value.items && error == None
      ensures TransactionApi.GetTransactions(p, server).Failure? ==>
                data == old(data) && error == Some(TransactionApi.GetTransactions(p, server).error)
    {
      params := p;
      FetchData(server);
    }

    /** One edit in the filter card: the edited key changes, the rest of the query stays, and the page fetches. */
    method EditFilter(key: FilterTransaction.ParamKey, value: string, server: Server)
      modifies this
      requires WellBehaved(server)
      ensures params == FilterTransaction.UpdateParams(old(params), key, value)
      ensures requests == old(requests) + [params]
      ensures !loading
      ensures TransactionApi.GetTransactions(params, server).Success? ==>
                data == TransactionApi.GetTransactions(params, server).value.items && error == None
      ensures TransactionApi.GetTransactions(params, server).Failure? ==>
                data == old(data) && error == Some(TransactionApi.GetTransactions(params, server).error)
    {
      ChangeParams(FilterTransaction.UpdateParams(params, key, value), server);
    }

    /** The "Apply Filter" button: the same parameters again. */
    method ApplyFilter(server: Server)
      modifies this
      requires WellBehaved(server)
      ensures params == old(params) && requests == old(requests) + [params] && !loading
      ensures TransactionApi.GetTransactions(params, server).Success? ==>
                data == TransactionApi.GetTransactions(params, server).value.items && error == None
      ensures TransactionApi.GetTransactions(params, server).Failure? ==>
                data == old(data) && error == Some(TransactionApi.GetTransactions(params, server).error)
    {
      FetchData(server);
    }
  }

  /** Changing the start date keeps the rest of the initial query, including page 1 and 100 per page. */
  method StartDateEdit(today: string, date: string, server: Server) returns (sent: TransactionApi.QueryParams)
    requires WellBehaved(server)
    ensures sent == InitialParams(today).(startDate := Some(date))
  {
    var page := new TransactionPageState(today);
    page.FetchData(server);
    page.EditFilter(FilterTransaction.StartDate, date, server);
    sent := page.requests[1];
  }
}
