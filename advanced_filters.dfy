// The advanced-filter drawer of the products page
// (src/pages/products/components/AdvancedFilters.tsx). The drawer keeps no
// state: every control hands a new criteria record to the page.

module AdvancedFilters {
  import opened Seqs
  import opened Js
  import opened Format

  /** FilterCriteria; expirationWindow is a number of days or null. */
  datatype Criteria = Criteria(
    categories: seq<string>, status: seq<string>, minPrice: string, maxPrice: string,
    minStock: string, maxStock: string, expirationWindow: Option<int>)

  function Other(x: string): string -> bool
  {
    (y: string) => y != x
  }

  /** Removes x when the list includes it, appends it otherwise. */
  function Toggle(list: seq<string>, x: string): seq<string>
  {
    if x in list then Filter(list, Other(x)) else list + [x]
  }

  /** After a toggle x is present exactly when it was absent; every other
      value keeps its membership. */
  lemma ToggleSpec(list: seq<string>, x: string)
    ensures x in Toggle(list, x) <==> x !in list
    ensures forall y :: y != x ==> (y in Toggle(list, x) <==> y in list)
  {
    FilterMembers(list, Other(x));
  }

  /** Toggling twice restores the membership of every value, and restores the
      list itself when the value was absent. */
  lemma ToggleTwice(list: seq<string>, x: string)
    ensures forall y :: y in Toggle(Toggle(list, x), x) <==> y in list
    ensures x !in list ==> Toggle(Toggle(list, x), x) == list
  {
    ToggleSpec(list, x);
    ToggleSpec(Toggle(list, x), x);
    if x !in list {
      FilterAppend(list, [x], Other(x));
      FilterAll(list, Other(x));
      assert Filter([x], Other(x)) == [];
    }
  }

  /** toggleCategory */
  function ToggleCategory(f: Criteria, cat: string): (r: Criteria)
    ensures r == f.(categories := r.categories)
  {
    f.(categories := Toggle(f.categories, cat))
  }

  /** toggleStatus */
  function ToggleStatus(f: Criteria, status: string): (r: Criteria)
    ensures r == f.(status := r.status)
  {
    f.(status := Toggle(f.status, status))
  }

  /** The toggles change their own list as Toggle says and nothing else. */
  lemma TogglesSpec(f: Criteria, v: string)
    ensures (v in ToggleCategory(f, v).categories) <==> v !in f.categories
    ensures (v in ToggleStatus(f, v).status) <==> v !in f.status
    ensures ToggleCategory(ToggleCategory(f, v), v).categories == f.categories || v in f.categories
    ensures v !in f.status ==> ToggleStatus(ToggleStatus(f, v), v) == f
  {
    ToggleSpec(f.categories, v);
    ToggleSpec(f.status, v);
    ToggleTwice(f.categories, v);
    ToggleTwice(f.status, v);
  }

  /** A window button: the active window switches off, another one is chosen. */
  function ToggleWindow(f: Criteria, days: int): (r: Criteria)
    ensures r == f.(expirationWindow := r.expirationWindow)
  {
    f.(expirationWindow := if f.expirationWindow == Some(days) then None else Some(days))
  }

  lemma ToggleWindowSpec(f: Criteria, days: int)
    ensures f.expirationWindow == Some(days) ==> ToggleWindow(f, days).expirationWindow.None?
    ensures f.expirationWindow != Some(days) ==> ToggleWindow(f, days).expirationWindow == Some(days)
    ensures ToggleWindow(ToggleWindow(f, days), days) == f || f.expirationWindow.Some?
  {
  }

  datatype RangeInput = MinPrice | MaxPrice | MinStock | MaxStock

  /** The four range inputs store the masked text of what was typed. */
  function SetRange(f: Criteria, which: RangeInput, typed: string): Criteria
  {
    var m := MaskNumber(Str(typed));
    match which
      case MinPrice => f.(minPrice := m)
      case MaxPrice => f.(maxPrice := m)
      case MinStock => f.(minStock := m)
      case MaxStock => f.(maxStock := m)
  }

  /** Whatever is typed, a range field holds only digits and at most one
      comma. */
  lemma SetRangeMasked(f: Criteria, which: RangeInput, typed: string)
    ensures var r := SetRange(f, which, typed);
      var v := match which case MinPrice => r.minPrice case MaxPrice => r.maxPrice
        case MinStock => r.minStock case MaxStock => r.maxStock;
      DigitsAndCommas(v) && AtMostOneComma(v) && v == MaskNumber(Str(typed))
    ensures SetRange(f, which, typed).categories == f.categories && SetRange(f, which, typed).status == f.status
  {
    MaskNumberSpec(Str(typed));
  }
}
