/** The sort selector on category pages. */
module CategoryFilters {
  import opened Wrappers
  import opened QueryParams

  /** The select's value: the current sort, or "default". */
  function SelectValue(currentSort: Option<string>): (v: string)
    ensures currentSort.Some? && currentSort.value != "" ==> v == currentSort.value
    ensures currentSort.None? || currentSort == Some("") ==> v == "default"
  {
    if currentSort.Some? && currentSort.value != "" then currentSort.value else "default"
  }

  /** The parameters after choosing `value`. */
  function SortParams(current: seq<Param>, value: string): seq<Param> {
    if value == "default" then DeleteParam(current, "sort") else SetParam(current, "sort", value)
  }

  /** `handleSortChange`: copy the current parameters, drop or set `sort`,
      and return the URL to navigate to. */
  method HandleSortChange(pathname: string, current: seq<Param>, value: string) returns (url: string)
    ensures url == pathname + "?" + Serialize(SortParams(current, value))
  {
    var params := new SearchParams(current);
    if value == "default" {
      params.Delete("sort");
    } else {
      params.Set("sort", value);
    }
    url := pathname + "?" + params.ToString();
  }

  /** Choosing "default" leaves no sort parameter. */
  lemma DefaultRemovesSort(current: seq<Param>)
    ensures Lookup(SortParams(current, "default"), "sort").None?
  {
  }

  /** Any other choice makes it the one sort value. */
  lemma ChoiceSetsSort(current: seq<Param>, value: string)
    requires value != "default"
    ensures Lookup(SortParams(current, value), "sort") == Some(value)
    ensures forall j :: 0 <= j < |SortParams(current, value)| && SortParams(current, value)[j].0 == "sort" ==>
              SortParams(current, value)[j].1 == value
  {
    SetParamValue(current, "sort", value);
  }

  /** Every other parameter survives either choice, in its order. */
  lemma OtherParamsKept(current: seq<Param>, value: string)
    ensures DeleteParam(SortParams(current, value), "sort") == DeleteParam(current, "sort")
  {
    if value == "default" {
      DeleteParamIdempotent(current, "sort");
    } else {
      SetParamKeepsOthers(current, "sort", value);
    }
  }
}
