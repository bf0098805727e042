/**
 * The table area shared by the monthly and top-customer summary pages
 * (src/Pages/Dashbaord/Summary/monthly-summary-page.tsx,
 * src/Pages/Dashbaord/Summary/top-customer-summary-page.tsx): one nested
 * conditional choosing what the card shows.
 */
module ViewState {
  import opened Wrappers
  import opened Js

  /** What the table card shows. */
  datatype TableView = ErrorView(message: string) | SkeletonView | EmptyView | RowsView(count: nat)

  /** `error ? … : loading ? … : rows.length === 0 ? … : …` */
  function TableOf(error: Option<string>, loading: bool, count: nat): (v: TableView)
    ensures v.ErrorView? <==> Present(error)
    ensures v.ErrorView? ==> v.message == error.value
    ensures v.SkeletonView? <==> !Present(error) && loading
    ensures v.EmptyView? <==> !Present(error) && !loading && count == 0
    ensures v.RowsView? <==> !Present(error) && !loading && count > 0
    ensures v.RowsView? ==> v.count == count
  {
    if Present(error) then ErrorView(error.value)
    else if loading then SkeletonView
    else if count == 0 then EmptyView
    else RowsView(count)
  }

  /** `response?.items ?? []`, with a missing response or item list as `None`. */
  function ItemsOrEmpty<T>(response: Option<seq<T>>): (r: seq<T>)
    ensures response.None? ==> r == []
    ensures response.Some? ==> r == response.value
  {
    response.GetOr([])
  }
}
