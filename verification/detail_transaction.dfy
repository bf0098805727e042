/**
 * src/Pages/Dashbaord/Transaction/detail-transaction-page.tsx: the fetch
 * effect keyed on the route's `id`, with its early return when there is no
 * id, and the values of the detail rows.
 */
module DetailTransaction {
  import opened Wrappers
  import opened Js
  import opened Http
  import TransactionApi
  import TransactionComponents

  /** The customer of a transaction, as far as the page reads it. */
  datatype DetailCustomer = DetailCustomer(name: Option<string>, code: Option<string>)

  /** `TransactionDetail`, the fields the unformatted rows read. */
  datatype TransactionDetail = TransactionDetail(
    referenceId: Option<string>,
    sales: string,
    customer: Option<DetailCustomer>,
    paymentMethod: Option<string>,
    paymentChannel: Option<string>,
    paymentDestination: Option<string>)

  /** The text of the unformatted rows, in display order. */
  datatype DetailValues = DetailValues(
    referenceId: string,
    status: string,
    customerName: string,
    customerEmail: string,
    paymentMethod: string,
    paymentChannel: string,
    paymentDestination: string)

  /** `data?.customer?.<field> ?? ''` */
  function CustomerField(data: Option<TransactionDetail>, code: bool): (r: string)
    ensures data.None? || data.value.customer.None? ==> r == ""
  {
    if data.None? || data.value.customer.None? then ""
    else
      var c := data.value.customer.value;
      (if code then c.code else c.name).GetOr("")
  }

  /**
   * The rows' values: each field `?? ''` (the status as given), all empty
   * while there is no data; the "Customer Email" row shows the customer's
   * code.
   */
  function ValuesOf(data: Option<TransactionDetail>): (v: DetailValues)
    ensures data.None? ==> v == DetailValues("", "", "", "", "", "", "")
    ensures data.Some? ==> v.status == data.value.sales && v.referenceId == data.value.referenceId.GetOr("")
    ensures data.Some? && data.value.customer.Some? ==>
              v.customerEmail == data.value.customer.value.code.GetOr("") &&
              v.customerName == data.value.customer.value.name.GetOr("")
    ensures data.Some? && data.value.customer.None? ==> v.customerName == "" && v.customerEmail == ""
    ensures data.Some? ==>
              v.paymentMethod == data.value.paymentMethod.GetOr("") &&
              v.paymentChannel == data.value.paymentChannel.GetOr("") &&
              v.paymentDestination == data.value.paymentDestination.GetOr("")
  {
    if data.None? then DetailValues("", "", "", "", "", "", "")
    else
      var d := data.value;
      DetailValues(
        d.referenceId.GetOr(""), d.sales, CustomerField(data, false), CustomerField(data, true),
        d.paymentMethod.GetOr(""), d.paymentChannel.GetOr(""), d.paymentDestination.GetOr(""))
  }

  /** The cells of the seven unformatted rows: all skeletons while loading, else their values. */
  function Cells(data: Option<TransactionDetail>, loading: bool): (cs: seq<TransactionComponents.Cell>)
    ensures |cs| == 7
    ensures forall i :: 0 <= i < |cs| ==> (cs[i].Skeleton? <==> loading)
    ensures !loading ==> cs[3] == TransactionComponents.Value(ValuesOf(data).customerEmail)
  {
    var v := ValuesOf(data);
    seq(7, i requires 0 <= i < 7 =>
      TransactionComponents.DetailCell(
        [v.referenceId, v.status, v.customerName, v.customerEmail, v.paymentMethod, v.paymentChannel, v.paymentDestination][i],
        loading))
  }

  class DetailPage {
    var id: Option<string>
    var data: Option<TransactionDetail>
    var loading: bool
    var error: Option<string>
    /** The id of each request made so far, oldest first. */
    var requests: seq<string>

    constructor (id: Option<string>)
      ensures this.id == id && data == None && loading && error == None && requests == []
    {
      this.id := id;
      data, loading, error, requests := None, true, None, [];
    }

    /**
     * One run of the effect's `fetchData`: without an id it returns at once,
     * leaving loading at its value (true on a fresh page); otherwise it
     * requests the detail and records the body or the resolved message.
     */
    method FetchData(server: Request<()> -> Result<TransactionDetail, Thrown>)
      modifies this
      ensures id == old(id)
      ensures !Present(id) ==>
                data == old(data) && loading == old(loading) && error == old(error) && requests == old(requests)
      ensures Present(id) ==> requests == old(requests) + [id.value] && !loading
      ensures Present(id) && TransactionApi.GetTransactionDetail(id.value, server).Success? ==>
                data == Some(TransactionApi.GetTransactionDetail(id.value, server).value) && error == None
      ensures Present(id) && TransactionApi.GetTransactionDetail(id.value, server).Failure? ==>
                data == old(data) && error == Some(TransactionApi.GetTransactionDetail(id.value, server).error)
    {
      if !Present(id) {
        return;
      }
      loading := true;
      error := None;
      requests := requests + [id.value];
      var r := TransactionApi.GetTransactionDetail(id.value, server);
      match r {
        case Success(body) => data := Some(body);
        case Failure(message) => error := Some(message);
      }
      loading := false;
    }

    /** A new route `id`: the effect re-runs only when the id actually changed. */
    method SetId(newId: Option<string>, server: Request<()> -> Result<TransactionDetail, Thrown>)
      modifies this
      ensures id == newId
      ensures newId == old(id) || !Present(newId) ==>
                data == old(data) && loading == old(loading) && error == old(error) && requests == old(requests)
      ensures newId != old(id) && Present(newId) ==> requests == old(requests) + [newId.value] && !loading
      ensures newId != old(id) && Present(newId) && TransactionApi.GetTransactionDetail(newId.value, server).Success? ==>
                data == Some(TransactionApi.GetTransactionDetail(newId.value, server).value) && error == None
      ensures newId != old(id) && Present(newId) && TransactionApi.GetTransactionDetail(newId.value, server).Failure? ==>
                data == old(data) && error == Some(TransactionApi.GetTransactionDetail(newId.value, server).error)
    {
      if newId != id {
        id := newId;
        FetchData(server);
      }
    }
  }

  /** A page opened without an id never requests anything and keeps showing skeletons. */
  method MissingIdStaysLoading(server: Request<()> -> Result<TransactionDetail, Thrown>) returns (requested: bool, cells: seq<TransactionComponents.Cell>)
    ensures !requested
    ensures |cells| == 7 && forall i :: 0 <= i < 7 ==> cells[i].Skeleton?
  {
    var page := new DetailPage(Some(""));
    page.FetchData(server);
    requested := page.requests != [];
    cells := Cells(page.data, page.loading);
  }
}
