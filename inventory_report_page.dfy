// The inventory report (src/pages/reports/InventoryReportPage.tsx): the
// category and location menus, the filtered and sorted product list, the
// status counters and health score, the replacement cost and the stock value
// by category, and the filter fields with their reset.

module InventoryReportPage {
  import opened Seqs
  import opened Text
  import opened Js
  import opened Records
  import opened AppContext
  import Grouping

  // ---------------------------------------------------------------- menus

  function CategoryOf(p: Product): string
  {
    p.category
  }

  /** p.location || 'Não Definido' */
  function LocationOf(p: Product): string
  {
    if p.location == "" then "Não Definido" else p.location
  }

  /** ['Todas', ...new Set(products.map(p => p.category))] */
  function Categories(ps: seq<Product>): seq<string>
  {
    ["Todas"] + Distinct(Map(ps, CategoryOf))
  }

  /** ['Todos', ...new Set(products.map(p => p.location || 'Não Definido'))] */
  function Locations(ps: seq<Product>): seq<string>
  {
    ["Todos"] + Distinct(Map(ps, LocationOf))
  }

  /** The menus open with their "any" entry, followed by every category
      (location, a missing one as 'Não Definido') in use, each once. */
  lemma MenusSpec(ps: seq<Product>)
    ensures Categories(ps)[0] == "Todas" && NoDuplicates(Categories(ps)[1..])
    ensures forall c :: c in Categories(ps)[1..] <==> exists i :: 0 <= i < |ps| && ps[i].category == c
    ensures Locations(ps)[0] == "Todos" && NoDuplicates(Locations(ps)[1..])
    ensures forall l :: l in Locations(ps)[1..] <==> exists i :: 0 <= i < |ps| && LocationOf(ps[i]) == l
  {
    DistinctSpec(Map(ps, CategoryOf));
    DistinctSpec(Map(ps, LocationOf));
    assert Categories(ps)[1..] == Distinct(Map(ps, CategoryOf));
    assert Locations(ps)[1..] == Distinct(Map(ps, LocationOf));
    forall c ensures c in Map(ps, CategoryOf) <==> exists i :: 0 <= i < |ps| && ps[i].category == c {
      if c in Map(ps, CategoryOf) {
        var k :| 0 <= k < |ps| && Map(ps, CategoryOf)[k] == c;
      }
      if exists i :: 0 <= i < |ps| && ps[i].category == c {
        var i :| 0 <= i < |ps| && ps[i].category == c;
        assert Map(ps, CategoryOf)[i] == c;
      }
    }
    forall l ensures l in Map(ps, LocationOf) <==> exists i :: 0 <= i < |ps| && LocationOf(ps[i]) == l {
      if l in Map(ps, LocationOf) {
        var k :| 0 <= k < |ps| && Map(ps, LocationOf)[k] == l;
      }
      if exists i :: 0 <= i < |ps| && LocationOf(ps[i]) == l {
        var i :| 0 <= i < |ps| && LocationOf(ps[i]) == l;
        assert Map(ps, LocationOf)[i] == l;
      }
    }
  }

  // -------------------------------------------------------------- filters

  datatype Filters = Filters(
    category: string, status: string, search: string, minPrice: string, maxPrice: string,
    minStock: string, maxStock: string, location: string, sortBy: string)

  /** The initial fields, and resetFilters. */
  function DefaultFilters(): Filters
  {
    Filters("Todas", "all", "", "", "", "", "", "Todos", "value")
  }

  /** bound === '' || value >= parseFloat(bound): a bound that does not parse
      (NaN) drops every product. */
  predicate AtLeast(x: real, bound: string)
  {
    bound == "" || (ParseFloat(bound).Some? && x >= ParseFloat(bound).value)
  }

  predicate AtMost(x: real, bound: string)
  {
    bound == "" || (ParseFloat(bound).Some? && x <= ParseFloat(bound).value)
  }

  /** The eight filter stages, which all have to keep a product. */
  predicate Matches(p: Product, f: Filters)
  {
    (f.category == "Todas" || p.category == f.category) &&
    (f.status == "all" || p.status == f.status) &&
    (f.location == "Todos" || LocationOf(p) == f.location) &&
    Contains(Lower(p.name), Lower(f.search)) &&
    AtLeast(p.price, f.minPrice) && AtMost(p.price, f.maxPrice) &&
    AtLeast(p.stock, f.minStock) && AtMost(p.stock, f.maxStock)
  }

  function MatchesBy(f: Filters): Product -> bool
  {
    (p: Product) => Matches(p, f)
  }

  function StockValue(p: Product): real
  {
    p.stock * p.price
  }

  /** The comparator as "a goes first": the name in code-unit order, or the
      stock, the price or (for any other value) the stock value, largest
      first. */
  function Before(sortBy: string): (Product, Product) -> bool
  {
    if sortBy == "name" then (a: Product, b: Product) => CodeUnitLess(a.name, b.name)
    else if sortBy == "stock" then (a: Product, b: Product) => a.stock > b.stock
    else if sortBy == "price" then (a: Product, b: Product) => a.price > b.price
    else (a: Product, b: Product) => StockValue(a) > StockValue(b)
  }

  function NameOf(p: Product): string
  {
    p.name
  }

  lemma BeforeIsStrictOrder(sortBy: string)
    ensures StrictOrder(Before(sortBy))
  {
    if sortBy == "name" {
      TextKeyIsStrictOrder(NameOf, Before(sortBy));
    }
  }

  /** filteredProducts */
  function Shown(ps: seq<Product>, f: Filters): seq<Product>
  {
    SortBy(Filter(ps, MatchesBy(f)), Before(f.sortBy))
  }

  /** The list holds each product that passes every stage as often as it is
      stored, and nothing else, in the chosen order. */
  lemma ShownSpec(ps: seq<Product>, f: Filters)
    ensures multiset(Shown(ps, f)) == multiset(Filter(ps, MatchesBy(f)))
    ensures forall p :: p in Shown(ps, f) <==> p in ps && Matches(p, f)
    ensures SortedBy(Shown(ps, f), Before(f.sortBy))
  {
    var m := Filter(ps, MatchesBy(f));
    var r := Shown(ps, f);
    BeforeIsStrictOrder(f.sortBy);
    SortBySpec(m, Before(f.sortBy));
    FilterMembers(ps, MatchesBy(f));
    forall p ensures p in r <==> p in m {
      assert p in r <==> p in multiset(r);
      assert p in m <==> p in multiset(m);
    }
  }

  /** What each order means for the products listed one after another. */
  lemma ShownOrder(ps: seq<Product>, f: Filters)
    ensures var r := Shown(ps, f);
      f.sortBy == "name" ==> forall i, j :: 0 <= i < j < |r| ==> !CodeUnitLess(r[j].name, r[i].name)
    ensures var r := Shown(ps, f);
      f.sortBy == "stock" ==> forall i, j :: 0 <= i < j < |r| ==> r[i].stock >= r[j].stock
    ensures var r := Shown(ps, f);
      f.sortBy == "price" ==> forall i, j :: 0 <= i < j < |r| ==> r[i].price >= r[j].price
    ensures var r := Shown(ps, f);
      f.sortBy !in ["name", "stock", "price"] ==> forall i, j :: 0 <= i < j < |r| ==> StockValue(r[i]) >= StockValue(r[j])
  {
    var before := Before(f.sortBy);
    BeforeIsStrictOrder(f.sortBy);
    SortBySpec(Filter(ps, MatchesBy(f)), before);
    var r := Shown(ps, f);
    forall i, j | 0 <= i < j < |r| ensures !before(r[j], r[i]) {
    }
  }

  /** With the fields reset, or as the page opens, every product is listed. */
  lemma DefaultFiltersKeepAll(ps: seq<Product>)
    ensures multiset(Shown(ps, DefaultFilters())) == multiset(ps)
  {
    forall i | 0 <= i < |ps| ensures Matches(ps[i], DefaultFilters()) {
      ContainsEmpty(Lower(ps[i].name));
    }
    FilterAll(ps, MatchesBy(DefaultFilters()));
    BeforeIsStrictOrder("value");
    SortBySpec(ps, Before("value"));
  }

  // ------------------------------------------------------- counters, score

  function HasStatus(s: string): Product -> bool
  {
    (p: Product) => p.status == s
  }

  predicate OkOrLow(p: Product)
  {
    p.status == "ok" || p.status == "low"
  }

  /** okItems, lowItems and criticalItems add up to totalItems when every
      listed product is in one of the three states. */
  lemma StatusCountsAddUp(shown: seq<Product>)
    requires forall i :: 0 <= i < |shown| ==> shown[i].status in ["ok", "low", "critical"]
    ensures Count(shown, HasStatus("ok")) + Count(shown, HasStatus("low")) + Count(shown, HasStatus("critical")) == |shown|
  {
    CountDisjoint(shown, HasStatus("ok"), HasStatus("low"), OkOrLow);
    CountComplement(shown, HasStatus("critical"), OkOrLow);
  }

  /** stockHealthScore: the share of 'ok' products as a rounded percentage, 0
      for an empty list. */
  function HealthScore(shown: seq<Product>): int
  {
    if |shown| > 0 then Round(Count(shown, HasStatus("ok")) as real / |shown| as real * 100.0) else 0
  }

  /** The score is a percentage: 100 when every listed product is 'ok', 0
      when none is or nothing is listed. */
  lemma HealthScoreBounds(shown: seq<Product>)
    ensures 0 <= HealthScore(shown) <= 100
    ensures |shown| > 0 && Count(shown, HasStatus("ok")) == |shown| ==> HealthScore(shown) == 100
    ensures Count(shown, HasStatus("ok")) == 0 ==> HealthScore(shown) == 0
  {
    if |shown| > 0 {
      var ok := Count(shown, HasStatus("ok")) as real;
      var n := |shown| as real;
      var q := ok / n;
      assert q * n == ok;
      assert 0.0 <= q <= 1.0;
      assert Round(q * 100.0) <= 100 by {
        assert (q * 100.0 + 0.5).Floor <= 100;
      }
      if ok == n {
        assert q == 1.0;
        assert Round(100.0) == 100 by {
          assert (100.0 + 0.5).Floor == 100;
        }
      }
      if ok == 0.0 {
        assert q == 0.0;
        assert Round(0.0) == 0 by {
          assert (0.0 + 0.5).Floor == 0;
        }
      }
    }
  }

  // ---------------------------------------------------- replacement cost

  predicate BelowMinimum(p: Product)
  {
    p.stock < p.minStock
  }

  /** What bringing a product back to its minimum costs. */
  function Shortfall(p: Product): real
  {
    if BelowMinimum(p) then (p.minStock - p.stock) * p.price else 0.0
  }

  /** replacementCost, over every product and not only the listed ones. */
  function ReplacementCost(ps: seq<Product>): real
  {
    Sum(ps, Shortfall)
  }

  lemma ShortfallNonneg(p: Product)
    requires p.price >= 0.0
    ensures Shortfall(p) >= 0.0
  {
    if BelowMinimum(p) {
      assert p.minStock - p.stock > 0.0;
    }
  }

  /** Only the products below their minimum cost anything, each its missing
      quantity times its price; with non-negative prices the cost is not
      negative, and it is zero when no product is below its minimum. */
  lemma ReplacementCostSpec(ps: seq<Product>)
    ensures ReplacementCost(ps) == Sum(Filter(ps, BelowMinimum), Shortfall)
    ensures (forall i :: 0 <= i < |ps| ==> ps[i].price >= 0.0) ==> ReplacementCost(ps) >= 0.0
    ensures (forall i :: 0 <= i < |ps| ==> !BelowMinimum(ps[i])) ==> ReplacementCost(ps) == 0.0
  {
    SumOverFilter(ps, BelowMinimum, Shortfall);
    if forall i :: 0 <= i < |ps| ==> ps[i].price >= 0.0 {
      forall i | 0 <= i < |ps| ensures Shortfall(ps[i]) >= 0.0 {
        ShortfallNonneg(ps[i]);
      }
      SumNonneg(ps, Shortfall);
    }
    if forall i :: 0 <= i < |ps| ==> !BelowMinimum(ps[i]) {
      FilterNone(ps, BelowMinimum);
    }
  }

  // ---------------------------------------------------- value by category

  /** valueByCategory, over every product. */
  function ValueByCategory(ps: seq<Product>): seq<(string, real)>
  {
    Grouping.GroupSum(ps, CategoryOf, StockValue)
  }

  /** One chart bar per category in use, each the stock value of that
      category's products, and the bars add up to the stock value of every
      product. */
  lemma ValueByCategorySpec(ps: seq<Product>)
    ensures Grouping.Total(ValueByCategory(ps)) == Sum(ps, StockValue)
    ensures forall c :: (Grouping.Lookup(ValueByCategory(ps), c) ==
      Sum(Filter(ps, Grouping.HasKey(CategoryOf, c)), StockValue))
    ensures NoDuplicates(Grouping.Keys(ValueByCategory(ps)))
    ensures forall c :: c in Grouping.Keys(ValueByCategory(ps)) <==> exists i :: 0 <= i < |ps| && ps[i].category == c
  {
    Grouping.GroupSumSpec(ps, CategoryOf, StockValue);
  }

  // ------------------------------------------------------------ component

  class InventoryReportView {
    const store: AppStore
    var filters: Filters
    var isAdvancedFilterOpen: bool

    constructor (store: AppStore)
      ensures this.store == store && filters == DefaultFilters() && !isAdvancedFilterOpen
    {
      this.store := store;
      filters := DefaultFilters();
      isAdvancedFilterOpen := false;
    }

    /** Any of the filter fields, the search box or the sort select. */
    method SetFilters(f: Filters)
      modifies this
      ensures filters == f && isAdvancedFilterOpen == old(isAdvancedFilterOpen)
    {
      filters := f;
    }

    /** The advanced-filter button. */
    method ToggleAdvanced()
      modifies this
      ensures isAdvancedFilterOpen == !old(isAdvancedFilterOpen) && filters == old(filters)
    {
      isAdvancedFilterOpen := !isAdvancedFilterOpen;
    }

    /** resetFilters: every field back to its initial value. */
    method ResetFilters()
      modifies this
      ensures filters == DefaultFilters() && isAdvancedFilterOpen == old(isAdvancedFilterOpen)
    {
      filters := DefaultFilters();
    }

    /** filteredProducts over the store's list. */
    function ShownProducts(): seq<Product>
      reads this, store
    {
      Shown(store.products, filters)
    }
  }
}
