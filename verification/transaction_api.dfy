/**
 * src/lib/api/transaction.api.ts: `getTransactions`, which renames the
 * camelCase wire fields of each item to snake_case copies and defaults the
 * missing pagination fields, and `getTransactionDetail`, a pass-through.
 */
module TransactionApi {
  import opened Wrappers
  import opened Js
  import opened Http

  /** `TransactionQueryParams`: every field optional. */
  datatype QueryParams = QueryParams(
    page: Option<int>,
    perPage: Option<int>,
    sortBy: Option<string>,
    sortDirection: Option<string>,
    startDate: Option<string>,
    endDate: Option<string>)

  /** A transaction item as an object: the wire item, and the display item built from it. */
  type Item = map<string, Json>

  /** The assignments after the spread, in source order: each reads the wire field on the left into the key on the right. */
  const Renames: seq<(string, string)> := [
    ("amount", "amount"),
    ("amountDue", "amount_due"),
    ("amountTotal", "amount_total"),
    ("amountUntaxed", "amount_untaxed"),
    ("dateDue", "date_due"),
    ("dateOrder", "date_order"),
    ("paidAt", "paid_at"),
    ("createdAt", "created_at"),
    ("referenceId", "reference_id"),
    ("sales", "sales")
  ]

  function Targets(rs: seq<(string, string)>): set<string> {
    set i | 0 <= i < |rs| :: rs[i].1
  }

  predicate DistinctTargets(rs: seq<(string, string)>) {
    forall i, j :: 0 <= i < j < |rs| ==> rs[i].1 != rs[j].1
  }

  /** `{ ...item, k1: item.s1, ..., kn: item.sn }`: the spread, then each assignment in turn, all reading the original item. */
  function SpreadAssign(item: Item, rs: seq<(string, string)>): Item {
    if rs == [] then item
    else
      var last := rs[|rs| - 1];
      SpreadAssign(item, rs[..|rs| - 1])[last.1 := Prop(item, last.0)]
  }

  /** The object built by a spread and distinct assignments: the item's keys plus the targets, each target holding its source field, every other key untouched. */
  lemma {:induction false} SpreadAssignFields(item: Item, rs: seq<(string, string)>)
    requires DistinctTargets(rs)
    ensures SpreadAssign(item, rs).Keys == item.Keys + Targets(rs)
    ensures forall j :: 0 <= j < |rs| ==> rs[j].1 in SpreadAssign(item, rs) && SpreadAssign(item, rs)[rs[j].1] == Prop(item, rs[j].0)
    ensures forall k :: k in item && k !in Targets(rs) ==> SpreadAssign(item, rs)[k] == item[k]
  {
    if rs != [] {
      var init := rs[..|rs| - 1];
      var last := rs[|rs| - 1];
      assert DistinctTargets(init);
      SpreadAssignFields(item, init);
      assert Targets(rs) == Targets(init) + {last.1} by {
        forall t | t in Targets(rs) ensures t in Targets(init) + {last.1} {
          var i :| 0 <= i < |rs| && rs[i].1 == t;
          if i < |rs| - 1 { assert init[i].1 == t; }
        }
      }
      forall j | 0 <= j < |rs|
        ensures SpreadAssign(item, rs)[rs[j].1] == Prop(item, rs[j].0)
      {
        if j < |rs| - 1 {
          assert rs[j] == init[j];
          assert rs[j].1 != last.1;
        }
      }
    }
  }

  lemma RenamesHaveDistinctTargets()
    ensures DistinctTargets(Renames)
  {
  }

  /**
   * One display item: every wire field is kept, each snake_case key holds
   * its camelCase field verbatim (a missing one reads as undefined), and no
   * value is converted: `amount_due` stays whatever `amountDue` was.
   */
  function NormalizeItem(item: Item): (d: Item)
    ensures d.Keys == item.Keys + Targets(Renames)
    ensures forall k :: k in item && k !in Targets(Renames) ==> d[k] == item[k]
    ensures forall j :: 0 <= j < |Renames| ==> Renames[j].1 in d && d[Renames[j].1] == Prop(item, Renames[j].0)
  {
    var d := SpreadAssign(item, Renames);
    RenamesHaveDistinctTargets();
    SpreadAssignFields(item, Renames);
    d
  }

  /** The amounts and dates are copied, not converted: a string `amountDue` stays a string in `amount_due`. */
  lemma AmountsAndDatesCopied(item: Item)
    ensures "amount_due" in NormalizeItem(item) && NormalizeItem(item)["amount_due"] == Prop(item, "amountDue")
    ensures "amount_total" in NormalizeItem(item) && NormalizeItem(item)["amount_total"] == Prop(item, "amountTotal")
    ensures "date_due" in NormalizeItem(item) && NormalizeItem(item)["date_due"] == Prop(item, "dateDue")
    ensures "created_at" in NormalizeItem(item) && NormalizeItem(item)["created_at"] == Prop(item, "createdAt")
  {
    assert Renames[1] == ("amountDue", "amount_due");
    assert Renames[2] == ("amountTotal", "amount_total");
    assert Renames[4] == ("dateDue", "date_due");
    assert Renames[7] == ("createdAt", "created_at");
  }

  /** The display item is a superset of the wire item: a wire field survives unless a snake_case key of the same name overwrites it. */
  lemma NormalizeKeepsWireFields(item: Item, k: string)
    requires k in item
    ensures k in NormalizeItem(item)
    ensures k !in Targets(Renames) ==> NormalizeItem(item)[k] == item[k]
  {
  }

  /** `Transactions`, the normalised list. */
  datatype Transactions = Transactions(
    items: seq<Item>,
    total: Json,
    currentPage: Json,
    lastPage: Json,
    perPage: Json,
    responseCode: JsNumber,
    responseMessage: Json)

  /** The body matches the declared `TransactionResponse`: `items` is missing or falsy, or an array of objects. */
  predicate WellShaped(raw: map<string, Json>) {
    var v := Prop(raw, "items");
    !Truthy(v) || (v.Arr? && forall x :: x in v.elems ==> x.Obj?)
  }

  /** `raw.items || []` */
  function WireItems(raw: map<string, Json>): (r: seq<Item>)
    requires WellShaped(raw)
    ensures !Truthy(Prop(raw, "items")) ==> r == []
    ensures Truthy(Prop(raw, "items")) ==>
              |r| == |Prop(raw, "items").elems| && forall i :: 0 <= i < |r| ==> Obj(r[i]) == Prop(raw, "items").elems[i]
  {
    var v := Prop(raw, "items");
    if !Truthy(v) then []
    else
      assert forall i :: 0 <= i < |v.elems| ==> v.elems[i] in v.elems;
      seq(|v.elems|, i requires 0 <= i < |v.elems| => assert v.elems[i] in v.elems; v.elems[i].fields)
  }

  /** The normalised list: items in the same order and number, and pagination defaults of 0, "" and `Number(0)`. */
  function Normalize(raw: map<string, Json>): (t: Transactions)
    requires WellShaped(raw)
    ensures |t.items| == |WireItems(raw)|
    ensures forall i :: 0 <= i < |t.items| ==> t.items[i] == NormalizeItem(WireItems(raw)[i])
    ensures t.total == Coalesce(Prop(raw, "total"), Num(0.0))
    ensures t.currentPage == Coalesce(Prop(raw, "currentPage"), Num(0.0))
    ensures t.lastPage == Coalesce(Prop(raw, "lastPage"), Num(0.0))
    ensures t.perPage == Coalesce(Prop(raw, "perPage"), Num(0.0))
    ensures t.responseCode == ToNumber(Coalesce(Prop(raw, "responseCode"), Num(0.0)))
    ensures t.responseMessage == Coalesce(Prop(raw, "responseMessage"), Str(""))
  {
    var wire := WireItems(raw);
    Transactions(
      seq(|wire|, i requires 0 <= i < |wire| => NormalizeItem(wire[i])),
      Coalesce(Prop(raw, "total"), Num(0.0)),
      Coalesce(Prop(raw, "currentPage"), Num(0.0)),
      Coalesce(Prop(raw, "lastPage"), Num(0.0)),
      Coalesce(Prop(raw, "perPage"), Num(0.0)),
      ToNumber(Coalesce(Prop(raw, "responseCode"), Num(0.0))),
      Coalesce(Prop(raw, "responseMessage"), Str("")))
  }

  /** A body with no pagination fields at all normalises to zeros, an empty message and response code 0. */
  lemma EmptyBodyDefaults()
    ensures Normalize(map[]) == Transactions([], Num(0.0), Num(0.0), Num(0.0), Num(0.0), Finite(0.0), Str(""))
  {
  }

  /** A response code sent as a digit string is read as its number. */
  lemma StringResponseCode(raw: map<string, Json>)
    requires WellShaped(raw) && Prop(raw, "responseCode") == Str("20000")
    ensures Normalize(raw).responseCode == Finite(20000.0)
  {
    assert DigitsValue("2") == 2;
    assert DigitsValue("20") == 20 by { assert "20"[..1] == "2"; }
    assert DigitsValue("200") == 200 by { assert "200"[..2] == "20"; }
    assert DigitsValue("2000") == 2000 by { assert "2000"[..3] == "200"; }
    assert DigitsValue("20000") == 20000 by { assert "20000"[..4] == "2000"; }
  }

  /** The request `getTransactions` sends: the query parameters exactly as given. */
  function TransactionsRequest(params: QueryParams): Request<QueryParams> {
    Get("/v1/transactions", params)
  }

  /** The request `getTransactionDetail` sends. */
  function DetailRequest(id: string): Request<()> {
    Get("/v1/transactions/" + id, ())
  }

  /**
   * `getTransactions(params)` against a server: the query goes out
   * unchanged; a reply body comes back normalised; a failure is resolved to
   * one message.
   */
  function GetTransactions(params: QueryParams, server: Request<QueryParams> -> Result<map<string, Json>, Thrown>): (r: Result<Transactions, string>)
    requires server(TransactionsRequest(params)).Success? ==> WellShaped(server(TransactionsRequest(params)).value)
    ensures r.Success? <==> server(Get("/v1/transactions", params)).Success?
    ensures r.Success? ==> r.value == Normalize(server(Get("/v1/transactions", params)).value)
    ensures r.Failure? ==> r.error == FetchErrorMessage(server(Get("/v1/transactions", params)).error, "Failed to fetch transactions")
    ensures r.Failure? ==> r.error != ""
  {
    match server(TransactionsRequest(params))
    case Success(raw) => Success(Normalize(raw))
    case Failure(e) => Failure(FetchErrorMessage(e, "Failed to fetch transactions"))
  }

  /** `getTransactionDetail(id)`: the reply body as it came, or one resolved message. */
  function GetTransactionDetail<B>(id: string, server: Request<()> -> Result<B, Thrown>): (r: Result<B, string>)
    ensures r.Success? <==> server(Get("/v1/transactions/" + id, ())).Success?
    ensures r.Success? ==> r.value == server(Get("/v1/transactions/" + id, ())).value
    ensures r.Failure? ==> r.error == FetchErrorMessage(server(Get("/v1/transactions/" + id, ())).error, "Failed to fetch transaction detail")
    ensures r.Failure? ==> r.error != ""
  {
    match server(DetailRequest(id))
    case Success(body) => Success(body)
    case Failure(e) => Failure(FetchErrorMessage(e, "Failed to fetch transaction detail"))
  }
}
