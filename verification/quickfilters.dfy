/** The quick-filter chips: clicking toggles a filter in the selection. */
module QuickFilters {
  import opened Wrappers
  import opened Seqs

  /**
   * A click on `filter`: a selected filter is removed (every occurrence of
   * it), an unselected one is appended after the others.
   */
  function ClickFilter(selected: seq<string>, filter: string): (r: seq<string>)
    ensures filter in selected ==> filter !in r && IsSubsequence(r, selected)
    ensures filter in selected ==> forall f :: f in r <==> f in selected && f != filter
    ensures filter in selected ==> forall f :: multiset(r)[f] == if f == filter then 0 else multiset(selected)[f]
    ensures filter !in selected ==> r == selected + [filter]
  {
    if filter in selected then
      FilterCounts(selected, Differs(filter));
      Filter(selected, Differs(filter))
    else selected + [filter]
  }

  /** Clicking an unselected filter twice gives back the original selection. */
  lemma ClickTwice(selected: seq<string>, filter: string)
    requires filter !in selected
    ensures ClickFilter(ClickFilter(selected, filter), filter) == selected
  {
    assert filter in selected + [filter];
    RemoveAppended(selected, filter);
  }

  /** A selection built by clicks never holds a filter twice. */
  lemma ClickKeepsNoDuplicates(selected: seq<string>, filter: string)
    requires NoDuplicates(selected)
    ensures NoDuplicates(ClickFilter(selected, filter))
  {
    if filter in selected {
      FilterKeepsNoDuplicates(selected, Differs(filter));
    }
  }

  /** The "Clear All" button: the empty selection. */
  function ClearAll(selected: seq<string>): (r: seq<string>)
    ensures |r| == 0
  {
    []
  }

  /** The title for a filter type (`"socket"` when none is given). */
  function DefaultTitle(filterType: Option<string>): (r: string)
    ensures filterType.None? || filterType == Some("socket") ==> r == "Socket"
    ensures filterType == Some("interface") ==> r == "Interface"
    ensures filterType == Some("formFactor") ==> r == "Form Factor"
    ensures r == "Filter" <==> filterType.GetOr("socket") !in {"socket", "interface", "formFactor"}
  {
    var t := filterType.GetOr("socket");
    if t == "socket" then "Socket"
    else if t == "interface" then "Interface"
    else if t == "formFactor" then "Form Factor"
    else "Filter"
  }

  /** The heading's subject: the given title unless it is missing or empty, else the default. */
  function Title(title: Option<string>, filterType: Option<string>): (r: string)
    ensures title.Some? && title.value != "" ==> r == title.value
    ensures title.None? || title.value == "" ==> r == DefaultTitle(filterType)
  {
    if title.Some? && title.value != "" then title.value else DefaultTitle(filterType)
  }
}
