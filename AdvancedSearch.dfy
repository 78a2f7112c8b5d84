/** The advanced search panel: the filter record its controls edit, the type checkboxes,
    the reset, and the active-filter chips. */
module AdvancedSearch {
  import opened Common

  datatype SearchFilters = SearchFilters(
    query: string,
    types: seq<string>,
    material: string,
    era: string,
    region: string,
    dateRange: string)

  const EmptyFilters := SearchFilters("", [], "", "", "", "")

  // ---------------------------------------------------------------------------
  // The type checkboxes
  // ---------------------------------------------------------------------------

  /** The new `type` list of `handleTypeChange`. */
  function TypeChange(types: seq<string>, t: string, checked: bool): seq<string>
  {
    if checked then types + [t] else Filter(types, x => x != t)
  }

  /** Checking appends the type at the end, once more even when it is already there:
      the handler does not de-duplicate. */
  lemma CheckAppends(types: seq<string>, t: string)
    ensures |TypeChange(types, t, true)| == |types| + 1
    ensures TypeChange(types, t, true)[..|types|] == types
    ensures TypeChange(types, t, true)[|types|] == t
    ensures multiset(TypeChange(types, t, true))[t] == multiset(types)[t] + 1
  {
    assert TypeChange(types, t, true)[..|types|] == types;
  }

  /** Unchecking removes every occurrence of the type and keeps the others in order. */
  lemma UncheckRemovesAll(types: seq<string>, t: string)
    ensures t !in TypeChange(types, t, false)
    ensures forall x :: x != t ==> (x in TypeChange(types, t, false) <==> x in types)
    ensures IsSubsequence(TypeChange(types, t, false), types)
  {
    FilterIsSubsequence(types, x => x != t);
  }

  /** Checking a box twice and unchecking it once leaves it unchecked: the duplicate the
      second check added goes too. */
  lemma {:induction false} CheckTwiceUncheckOnce(types: seq<string>, t: string)
    ensures TypeChange(TypeChange(TypeChange(types, t, true), t, true), t, false)
            == TypeChange(types, t, false)
  {
    FilterAppend(types + [t], [t], x => x != t);
    FilterAppend(types, [t], x => x != t);
  }

  /** Checking an unchecked box and unchecking it again gives back the list from before. */
  lemma CheckThenUncheck(types: seq<string>, t: string)
    requires t !in types
    ensures TypeChange(TypeChange(types, t, true), t, false) == types
  {
    FilterAppend(types, [t], x => x != t);
    FilterAll(types, x => x != t);
  }

  // ---------------------------------------------------------------------------
  // Active filters
  // ---------------------------------------------------------------------------

  /** The condition of the "Active Filters" panel. */
  predicate ShowsActiveFilters(f: SearchFilters)
  {
    |f.types| > 0 || f.material != "" || f.era != "" || f.region != ""
  }

  /** A select that has a value. */
  predicate IsSet(v: string)
  {
    v != ""
  }

  /** The chips of the panel: the selected types in order, then, in this order, each of
      material, era and region that is set, and nothing for one that is not. */
  function ActiveChips(f: SearchFilters): (chips: seq<string>)
    ensures |f.types| <= |chips| <= |f.types| + 3
    ensures chips[..|f.types|] == f.types
    ensures chips[|f.types|..] == Filter([f.material, f.era, f.region], IsSet)
  {
    assert Filter([f.region], IsSet) == if f.region != "" then [f.region] else [];
    assert Filter([f.era, f.region], IsSet) == (if f.era != "" then [f.era] else []) + Filter([f.region], IsSet);
    assert [f.material, f.era, f.region][1..] == [f.era, f.region];
    f.types + (if f.material != "" then [f.material] else [])
            + (if f.era != "" then [f.era] else [])
            + (if f.region != "" then [f.region] else [])
  }

  function OneIfSet(v: string): nat { if v != "" then 1 else 0 }

  /** The panel shows exactly when it has a chip to show; after the types there is one
      chip per set select, so material, era and region each add a chip iff they are set. */
  lemma PanelIffChips(f: SearchFilters)
    ensures ShowsActiveFilters(f) <==> ActiveChips(f) != []
    ensures |ActiveChips(f)| == |f.types| + OneIfSet(f.material) + OneIfSet(f.era) + OneIfSet(f.region)
    ensures forall i :: |f.types| <= i < |ActiveChips(f)| ==>
              ActiveChips(f)[i] != "" && ActiveChips(f)[i] in {f.material, f.era, f.region}
    ensures f.material != "" ==> ActiveChips(f)[|f.types|] == f.material
    ensures f.region != "" ==> ActiveChips(f)[|ActiveChips(f)| - 1] == f.region
  {
    var chips := ActiveChips(f);
    if ShowsActiveFilters(f) && f.types == [] {
      if f.material != "" {
        assert chips[0] == f.material;
      } else if f.era != "" {
        assert chips[0] == f.era;
      } else {
        assert chips[0] == f.region;
      }
    }
  }

  /** The search text and the date range never show the panel. */
  lemma QueryAndDateRangeNeverCount(f: SearchFilters, query: string, dateRange: string)
    ensures ShowsActiveFilters(f.(query := query, dateRange := dateRange)) == ShowsActiveFilters(f)
    ensures ActiveChips(f.(query := query, dateRange := dateRange)) == ActiveChips(f)
    ensures !ShowsActiveFilters(EmptyFilters.(query := query, dateRange := dateRange))
  {
  }

  // ---------------------------------------------------------------------------
  // The component state
  // ---------------------------------------------------------------------------

  class AdvancedSearchState {
    var filters: SearchFilters
    var isExpanded: bool

    constructor ()
      ensures filters == EmptyFilters && !isExpanded
    {
      filters := EmptyFilters;
      isExpanded := false;
    }

    /** `handleTypeChange`: only `type` changes. */
    method HandleTypeChange(t: string, checked: bool)
      modifies this
      ensures filters == old(filters).(types := TypeChange(old(filters).types, t, checked))
      ensures isExpanded == old(isExpanded)
    {
      if checked {
        filters := filters.(types := filters.types + [t]);
      } else {
        filters := filters.(types := Filter(filters.types, x => x != t));
      }
    }

    /** The search box's `onChange`. */
    method SetQuery(value: string)
      modifies this
      ensures filters == old(filters).(query := value) && isExpanded == old(isExpanded)
    {
      filters := filters.(query := value);
    }

    /** The material select's `onValueChange`. */
    method SetMaterial(value: string)
      modifies this
      ensures filters == old(filters).(material := value) && isExpanded == old(isExpanded)
    {
      filters := filters.(material := value);
    }

    /** The era select's `onValueChange`. */
    method SetEra(value: string)
      modifies this
      ensures filters == old(filters).(era := value) && isExpanded == old(isExpanded)
    {
      filters := filters.(era := value);
    }

    /** The region select's `onValueChange`. */
    method SetRegion(value: string)
      modifies this
      ensures filters == old(filters).(region := value) && isExpanded == old(isExpanded)
    {
      filters := filters.(region := value);
    }

    /** `clearFilters`: every field empty, so the panel is hidden. */
    method ClearFilters()
      modifies this
      ensures filters == EmptyFilters && !ShowsActiveFilters(filters)
      ensures isExpanded == old(isExpanded)
    {
      filters := EmptyFilters;
    }

    /** The Filters button. */
    method ToggleExpanded()
      modifies this
      ensures isExpanded == !old(isExpanded) && filters == old(filters)
    {
      isExpanded := !isExpanded;
    }
  }
}
