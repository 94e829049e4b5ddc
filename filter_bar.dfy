/**
 * The filter bar: three handlers that each build a new filter from the old
 * one, and the values the search box and the two select menus display.
 */
module FilterBar {
  import opened Wrappers
  import opened Types
  import opened Text
  import JobList

  /** The status select: `"all"` clears the status, a status name sets it.
      Unknown strings (the menu never emits one) leave the status unset. */
  function HandleStatusChange(filter: JobFilter, value: string): (r: JobFilter)
    ensures r.search == filter.search && r.sortBy == filter.sortBy
    ensures r.sortDirection == filter.sortDirection
    ensures value == "all" ==> r.status == None
    ensures forall s: JobStatus :: value == StatusName(s) ==> r.status == Some(s)
  {
    forall s: JobStatus ensures value == StatusName(s) ==> ParseStatus(value) == Some(s) {
      ParseStatusName(s);
    }
    filter.(status := if value == "all" then None else ParseStatus(value))
  }

  /** The search box: only `search` changes, to what was typed. */
  function HandleSearchChange(filter: JobFilter, value: string): (r: JobFilter)
    ensures r.search == Some(value)
    ensures r.status == filter.status && r.sortBy == filter.sortBy
    ensures r.sortDirection == filter.sortDirection
  {
    filter.(search := Some(value))
  }

  function FieldName(f: SortField): string {
    match f
    case DateApplied => "dateApplied"
    case CompanyName => "companyName"
    case LastUpdated => "lastUpdated"
  }

  function DirectionName(d: SortDirection): string {
    match d
    case Asc => "asc"
    case Desc => "desc"
  }

  function ParseField(v: string): (r: Option<SortField>)
    ensures r.Some? ==> FieldName(r.value) == v
  {
    if v == "dateApplied" then Some(DateApplied)
    else if v == "companyName" then Some(CompanyName)
    else if v == "lastUpdated" then Some(LastUpdated)
    else None
  }

  function ParseDirection(v: string): (r: Option<SortDirection>)
    ensures r.Some? ==> DirectionName(r.value) == v
  {
    if v == "asc" then Some(Asc) else if v == "desc" then Some(Desc) else None
  }

  /** The sort select: `"field-direction"` split at `-` into the two sort
      parts; `status` and `search` stay as they were. */
  function HandleSortChange(filter: JobFilter, value: string): (r: JobFilter)
    ensures r.status == filter.status && r.search == filter.search
    ensures r.sortBy == ParseField(Split(value, '-')[0])
    ensures |Split(value, '-')| < 2 ==> r.sortDirection == None
    ensures |Split(value, '-')| >= 2 ==> r.sortDirection == ParseDirection(Split(value, '-')[1])
  {
    var parts := Split(value, '-');
    filter.(sortBy := ParseField(parts[0]),
            sortDirection := if |parts| >= 2 then ParseDirection(parts[1]) else None)
  }

  /** What the search box shows: the term, or nothing when unset. */
  function SearchBoxValue(filter: JobFilter): (v: string)
    ensures filter.search.None? ==> v == ""
    ensures filter.search.Some? ==> v == filter.search.value
  {
    filter.search.GetOr("")
  }

  /** What the status select shows: `filter.status || "all"`. */
  function StatusSelectValue(filter: JobFilter): string {
    if filter.status.Some? then StatusName(filter.status.value) else "all"
  }

  /** The select value for a field and a direction, e.g. `"dateApplied-desc"`. */
  function SortValue(f: SortField, d: SortDirection): string {
    FieldName(f) + "-" + DirectionName(d)
  }

  /** What the sort select shows, with the list's defaults filled in. */
  function SortSelectValue(filter: JobFilter): string {
    SortValue(JobList.EffectiveField(filter), JobList.EffectiveDirection(filter))
  }

  /** The orders the sort menu offers, in menu order; entry `i` has the
      select value `SortValue(SortMenu[i].0, SortMenu[i].1)`. */
  const SortMenu: seq<(SortField, SortDirection)> :=
    [(DateApplied, Desc), (DateApplied, Asc), (CompanyName, Asc), (CompanyName, Desc), (LastUpdated, Desc)]

  /** Choosing the status the select shows gives back the same filter. */
  lemma StatusRoundTrip(filter: JobFilter)
    ensures HandleStatusChange(filter, StatusSelectValue(filter)) == filter
  {
    if filter.status.Some? {
      ParseStatusName(filter.status.value);
      match filter.status.value
      case Interested => case Applied => case Interview => case Rejected => case Offer =>
    }
  }

  lemma ParseFieldName(f: SortField)
    ensures ParseField(FieldName(f)) == Some(f) && '-' !in FieldName(f)
  {
  }

  lemma ParseDirectionName(d: SortDirection)
    ensures ParseDirection(DirectionName(d)) == Some(d) && '-' !in DirectionName(d)
  {
  }

  /** A select value built from a field and a direction decodes to them. */
  lemma SortValueDecodes(filter: JobFilter, f: SortField, d: SortDirection)
    ensures HandleSortChange(filter, SortValue(f, d)) ==
      filter.(sortBy := Some(f), sortDirection := Some(d))
  {
    ParseFieldName(f);
    ParseDirectionName(d);
    assert FieldName(f) + "-" + DirectionName(d) == FieldName(f) + ['-'] + DirectionName(d);
    SplitJoin(FieldName(f), DirectionName(d), '-');
  }

  /** Feeding the sort select's value back through the handler gives the
      filter with its effective field and direction made explicit. */
  lemma SortRoundTrip(filter: JobFilter)
    ensures HandleSortChange(filter, SortSelectValue(filter)) ==
      filter.(sortBy := Some(JobList.EffectiveField(filter)),
              sortDirection := Some(JobList.EffectiveDirection(filter)))
  {
    SortValueDecodes(filter, JobList.EffectiveField(filter), JobList.EffectiveDirection(filter));
  }

  /** The menu offers five different orders, and "oldest update first" is
      not among them. */
  lemma SortMenuShape()
    ensures |SortMenu| == 5 && (LastUpdated, Asc) !in SortMenu
    ensures forall i, j :: 0 <= i < j < |SortMenu| ==> SortMenu[i] != SortMenu[j]
  {
  }

  /** Every menu entry's select value decodes to that entry's order. */
  lemma SortMenuDecodes(filter: JobFilter)
    ensures forall i :: 0 <= i < |SortMenu| ==>
      HandleSortChange(filter, SortValue(SortMenu[i].0, SortMenu[i].1)) ==
        filter.(sortBy := Some(SortMenu[i].0), sortDirection := Some(SortMenu[i].1))
  {
    forall i | 0 <= i < |SortMenu|
      ensures HandleSortChange(filter, SortValue(SortMenu[i].0, SortMenu[i].1)) ==
        filter.(sortBy := Some(SortMenu[i].0), sortDirection := Some(SortMenu[i].1))
    {
      SortValueDecodes(filter, SortMenu[i].0, SortMenu[i].1);
    }
  }
}
