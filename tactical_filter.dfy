// useTacticalFilter (src/hooks/useTacticalFilter.ts): the search, date and
// advanced-filter state shared by the list pages, and the predicate that
// decides which records of a list are shown.

module TacticalFilter {
  import opened Seqs
  import opened Text
  import opened Js

  /** A record as the hook reads it, field name to value; a field the record
      does not have reads as undefined. */
  type Item = map<string, Value>

  function Field(item: Item, f: string): Value
  {
    if f in item then item[f] else Undefined
  }

  /** item[f]?.toString(): nothing for undefined and null. */
  function FieldText(item: Item, f: string): Option<string>
  {
    var v := Field(item, f);
    if v.Undefined? || v.Null? then None else Some(ToStr(v))
  }

  datatype DateFilter = DateFilter(start: string, end: string)

  /** The searchTerm, dateFilter and advancedFilters state. */
  datatype FilterState = FilterState(searchTerm: string, dates: DateFilter, advanced: map<string, string>)

  /** The state on mount. */
  function InitialState(): FilterState
  {
    FilterState("", DateFilter("", ""),
      map["status" := "all", "plotId" := "all", "productId" := "all", "operator" := "all", "equipment" := "all"])
  }

  /** The state resetFilters leaves: note the advanced filters become empty. */
  function ResetState(): FilterState
  {
    FilterState("", DateFilter("", ""), map[])
  }

  // ---------------------------------------------------------------- search

  /** The field's text contains the term, both lower-cased. */
  predicate FieldHas(item: Item, f: string, term: string)
  {
    var t := FieldText(item, f);
    t.Some? && Contains(Lower(t.value), Lower(term))
  }

  predicate MatchesBasicSearch(item: Item, fields: seq<string>, term: string)
  {
    term == "" || exists i :: 0 <= i < |fields| && FieldHas(item, fields[i], term)
  }

  /** matchesBasicSearch || customFilter(item, searchTerm), the custom filter
      being optional. */
  predicate MatchesSearch(item: Item, fields: seq<string>, custom: Option<(Item, string) -> bool>, term: string)
  {
    MatchesBasicSearch(item, fields, term) || (custom.Some? && custom.value(item, term))
  }

  // ----------------------------------------------------------------- dates

  /** The lower bound: none when empty; otherwise the record needs a truthy
      date, and both it and the bound must be valid dates with the record's
      not before the bound. dateOf stands for new Date(s). */
  predicate MatchesStart(item: Item, start: string, dateOf: string -> Option<int>)
  {
    start == "" ||
      (Truthy(Field(item, "date")) &&
        var d := dateOf(ToStr(Field(item, "date")));
        var b := dateOf(start);
        d.Some? && b.Some? && d.value >= b.value)
  }

  predicate MatchesEnd(item: Item, end: string, dateOf: string -> Option<int>)
  {
    end == "" ||
      (Truthy(Field(item, "date")) &&
        var d := dateOf(ToStr(Field(item, "date")));
        var b := dateOf(end);
        d.Some? && b.Some? && d.value <= b.value)
  }

  // -------------------------------------------------------------- advanced

  /** 'all', 'Todas' and '' impose no constraint. */
  predicate NoConstraint(value: string)
  {
    value == "all" || value == "Todas" || value == ""
  }

  predicate IsRangeKey(key: string)
  {
    EndsWith(key, "_min") || EndsWith(key, "_max")
  }

  /** key.split('_')[0] */
  function RangeField(key: string): string
  {
    Split(key, '_')[0]
  }

  /** One entry of advancedFilters applied to a record. */
  predicate AdvancedOk(item: Item, key: string, value: string)
  {
    if NoConstraint(value) then true
    else if IsRangeKey(key) then
      var n := ParseFloatOf(Field(item, RangeField(key)));
      var bound := ParseFloat(value);
      if n.None? || bound.None? then true
      else if EndsWith(key, "_min") then n.value >= bound.value
      else n.value <= bound.value
    else FieldText(item, key) == Some(value)
  }

  predicate MatchesAdvanced(item: Item, advanced: map<string, string>)
  {
    forall k :: k in advanced ==> AdvancedOk(item, k, advanced[k])
  }

  // ---------------------------------------------------------- filteredData

  predicate Matches(item: Item, fields: seq<string>, custom: Option<(Item, string) -> bool>,
                    st: FilterState, dateOf: string -> Option<int>)
  {
    MatchesSearch(item, fields, custom, st.searchTerm) &&
    MatchesStart(item, st.dates.start, dateOf) && MatchesEnd(item, st.dates.end, dateOf) &&
    MatchesAdvanced(item, st.advanced)
  }

  function Keep(fields: seq<string>, custom: Option<(Item, string) -> bool>,
                st: FilterState, dateOf: string -> Option<int>): Item -> bool
  {
    (item: Item) => Matches(item, fields, custom, st, dateOf)
  }

  /** filteredData */
  function Filtered(data: seq<Item>, fields: seq<string>, custom: Option<(Item, string) -> bool>,
                    st: FilterState, dateOf: string -> Option<int>): seq<Item>
  {
    Filter(data, Keep(fields, custom, st, dateOf))
  }

  /** The shown list keeps the order of the data and adds nothing, and a
      record is shown exactly when it is in the data and matches. */
  lemma FilteredSpec(data: seq<Item>, fields: seq<string>, custom: Option<(Item, string) -> bool>,
                     st: FilterState, dateOf: string -> Option<int>)
    ensures SubseqOf(Filtered(data, fields, custom, st, dateOf), data)
    ensures forall x :: x in Filtered(data, fields, custom, st, dateOf) <==>
      x in data && Matches(x, fields, custom, st, dateOf)
  {
    FilterIsSubseq(data, Keep(fields, custom, st, dateOf));
    FilterMembers(data, Keep(fields, custom, st, dateOf));
  }

  /** The search matches a record exactly when the term is empty, some search
      field contains it case-insensitively, or the custom filter accepts. */
  lemma SearchSpec(item: Item, fields: seq<string>, custom: Option<(Item, string) -> bool>, term: string, i: nat)
    requires i < |fields|
    ensures term == "" ==> MatchesSearch(item, fields, custom, term)
    ensures FieldHas(item, fields[i], term) ==> MatchesSearch(item, fields, custom, term)
    ensures custom.Some? && custom.value(item, term) ==> MatchesSearch(item, fields, custom, term)
    ensures (term != "" && (custom.None? || !custom.value(item, term)) &&
             (forall k :: 0 <= k < |fields| ==> !FieldHas(item, fields[k], term))) ==>
      !MatchesSearch(item, fields, custom, term)
  {
  }

  /** A field without a value never matches a search term that is not empty. */
  lemma MissingFieldNeverMatches(item: Item, f: string, term: string)
    requires f !in item
    ensures !FieldHas(item, f, term)
  {
  }

  /** 'all', 'Todas' and '' let every record through, whatever the key. */
  lemma NoConstraintPasses(item: Item, key: string, value: string)
    requires NoConstraint(value)
    ensures AdvancedOk(item, key, value)
  {
  }

  lemma SplitAtUnderscore(field: string, suffix: string)
    requires '_' !in field && |suffix| >= 1 && suffix[0] == '_'
    ensures RangeField(field + suffix) == field
  {
    var key := field + suffix;
    assert key[|field|] == '_';
    assert key[..|field|] == field;
    var i := IndexOf(key, '_');
    assert '_' !in key[..|field|];
  }

  /** A '<field>_min' bound, for a field name without '_', keeps a record
      whose field is at least the bound, inclusively; either side not being
      a number lets the record through. */
  lemma RangeMin(item: Item, field: string, value: string)
    requires '_' !in field && !NoConstraint(value)
    ensures var n := ParseFloatOf(Field(item, field));
      var bound := ParseFloat(value);
      AdvancedOk(item, field + "_min", value) <==>
        (n.None? || bound.None? || n.value >= bound.value)
  {
    SplitAtUnderscore(field, "_min");
    assert EndsWith(field + "_min", "_min") by {
      assert (field + "_min")[|field|..] == "_min";
    }
  }

  /** The same for '<field>_max', with at most. */
  lemma RangeMax(item: Item, field: string, value: string)
    requires '_' !in field && !NoConstraint(value)
    ensures var n := ParseFloatOf(Field(item, field));
      var bound := ParseFloat(value);
      AdvancedOk(item, field + "_max", value) <==>
        (n.None? || bound.None? || n.value <= bound.value)
  {
    SplitAtUnderscore(field, "_max");
    assert EndsWith(field + "_max", "_max") by {
      assert (field + "_max")[|field|..] == "_max";
    }
    assert !EndsWith(field + "_max", "_min") by {
      assert (field + "_max")[|field| + 3] == 'x';
    }
  }

  /** Any other key needs the record's field, as text, to equal the value. */
  lemma ExactKey(item: Item, key: string, value: string)
    requires !NoConstraint(value) && !IsRangeKey(key)
    ensures AdvancedOk(item, key, value) <==>
      (key in item && !item[key].Undefined? && !item[key].Null? && ToStr(item[key]) == value)
  {
  }

  /** Date bounds are inclusive, and with a bound set a record without a date
      is left out. */
  lemma DateBounds(item: Item, start: string, end: string, dateOf: string -> Option<int>)
    ensures start != "" && !Truthy(Field(item, "date")) ==> !MatchesStart(item, start, dateOf)
    ensures end != "" && !Truthy(Field(item, "date")) ==> !MatchesEnd(item, end, dateOf)
    ensures (Truthy(Field(item, "date")) && dateOf(ToStr(Field(item, "date"))).Some? &&
             dateOf(ToStr(Field(item, "date"))) == dateOf(start)) ==> MatchesStart(item, start, dateOf)
    ensures (Truthy(Field(item, "date")) && dateOf(ToStr(Field(item, "date"))).Some? &&
             dateOf(ToStr(Field(item, "date"))) == dateOf(end)) ==> MatchesEnd(item, end, dateOf)
  {
  }

  /** A state that imposes nothing shows every record. */
  lemma {:induction false} OpenStateKeepsAll(data: seq<Item>, fields: seq<string>, custom: Option<(Item, string) -> bool>,
                                             st: FilterState, dateOf: string -> Option<int>)
    requires st.searchTerm == "" && st.dates == DateFilter("", "")
    requires forall k :: k in st.advanced ==> NoConstraint(st.advanced[k])
    ensures Filtered(data, fields, custom, st, dateOf) == data
  {
    forall i | 0 <= i < |data| ensures Keep(fields, custom, st, dateOf)(data[i]) {
      forall k | k in st.advanced ensures AdvancedOk(data[i], k, st.advanced[k]) {
        NoConstraintPasses(data[i], k, st.advanced[k]);
      }
    }
    FilterAll(data, Keep(fields, custom, st, dateOf));
  }

  /** After resetFilters every record is shown; on mount too. */
  lemma ResetAndInitialKeepAll(data: seq<Item>, fields: seq<string>, custom: Option<(Item, string) -> bool>,
                               dateOf: string -> Option<int>)
    ensures Filtered(data, fields, custom, ResetState(), dateOf) == data
    ensures Filtered(data, fields, custom, InitialState(), dateOf) == data
  {
    OpenStateKeepsAll(data, fields, custom, ResetState(), dateOf);
    OpenStateKeepsAll(data, fields, custom, InitialState(), dateOf);
  }

  // ------------------------------------------------------------------ hook

  /** The hook's state slots. */
  class TacticalFilterHook {
    var isSidebarOpen: bool
    var searchTerm: string
    var dateFilter: DateFilter
    var advancedFilters: map<string, string>

    constructor ()
      ensures State() == InitialState() && !isSidebarOpen
    {
      isSidebarOpen := false;
      searchTerm := "";
      dateFilter := DateFilter("", "");
      advancedFilters := map["status" := "all", "plotId" := "all", "productId" := "all",
        "operator" := "all", "equipment" := "all"];
    }

    function State(): FilterState
      reads this
    {
      FilterState(searchTerm, dateFilter, advancedFilters)
    }

    /** resetFilters */
    method ResetFilters()
      modifies this
      ensures State() == ResetState() && isSidebarOpen == old(isSidebarOpen)
    {
      searchTerm := "";
      dateFilter := DateFilter("", "");
      advancedFilters := map[];
    }

    /** updateAdvancedFilter(key, value): only that key changes. */
    method UpdateAdvancedFilter(key: string, value: string)
      modifies this
      ensures advancedFilters == old(advancedFilters)[key := value]
      ensures searchTerm == old(searchTerm) && dateFilter == old(dateFilter) && isSidebarOpen == old(isSidebarOpen)
    {
      advancedFilters := advancedFilters[key := value];
    }
  }
}
