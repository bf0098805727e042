/**
 * src/Pages/Dashbaord/Transaction/components/filter-transaction.tsx: the
 * filter card's single-key update of the query parameters, its fixed sort
 * choices and its Apply button.
 */
module FilterTransaction {
  import opened Wrappers
  import opened TransactionApi

  /** The keys the card's inputs write: the two dates and the two sort fields. */
  datatype ParamKey = StartDate | EndDate | SortBy | SortDirection

  /** The field a key names. */
  function Field(p: QueryParams, k: ParamKey): Option<string> {
    match k
    case StartDate => p.startDate
    case EndDate => p.endDate
    case SortBy => p.sortBy
    case SortDirection => p.sortDirection
  }

  /** `{ ...params, [key]: value }`: the named key holds the new value, every other field is as before. */
  function UpdateParams(params: QueryParams, key: ParamKey, value: string): (r: QueryParams)
    ensures Field(r, key) == Some(value)
    ensures forall k :: k != key ==> Field(r, k) == Field(params, k)
    ensures r.page == params.page && r.perPage == params.perPage
  {
    match key
    case StartDate => params.(startDate := Some(value))
    case EndDate => params.(endDate := Some(value))
    case SortBy => params.(sortBy := Some(value))
    case SortDirection => params.(sortDirection := Some(value))
  }

  /** Writing the value a field already holds gives back the same parameters. */
  lemma UpdateWithCurrentValue(params: QueryParams, key: ParamKey)
    requires Field(params, key).Some?
    ensures UpdateParams(params, key, Field(params, key).value) == params
  {
  }

  /** Two updates of the same key: the later one wins. */
  lemma LaterUpdateWins(params: QueryParams, key: ParamKey, v1: string, v2: string)
    ensures UpdateParams(UpdateParams(params, key, v1), key, v2) == UpdateParams(params, key, v2)
  {
  }

  /** Updates of different keys commute. */
  lemma UpdatesOfDifferentKeysCommute(params: QueryParams, k1: ParamKey, v1: string, k2: ParamKey, v2: string)
    requires k1 != k2
    ensures UpdateParams(UpdateParams(params, k1, v1), k2, v2) == UpdateParams(UpdateParams(params, k2, v2), k1, v1)
  {
  }

  /** The values of the sort-by select, in display order. */
  const SortByOptions: seq<string> := ["created_at", "amount_due", "status"]

  /** The values of the sort-direction select, in display order. */
  const SortDirectionOptions: seq<string> := ["desc", "asc"]

  /** The sort-by key the select writes is one of its options, and each option names a display-item key. */
  lemma SortByOptionsAreDisplayKeys()
    ensures forall o :: o in SortByOptions ==> o == "status" || o in Targets(Renames)
  {
    assert Renames[7].1 == "created_at";
    assert Renames[1].1 == "amount_due";
  }

  /** The Apply button: disabled, and labelled "Loading...", exactly while loading. */
  datatype Button = Button(enabled: bool, caption: string)

  function ApplyButton(loading: bool): (b: Button)
    ensures b.enabled <==> !loading
    ensures b.caption == (if loading then "Loading..." else "Apply Filter")
  {
    Button(!loading, if loading then "Loading..." else "Apply Filter")
  }
}
