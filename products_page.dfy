// The products page (src/pages/products/ProductsPage.tsx): the list filter
// and its counters, the single-product and bulk submits, the quick
// adjustment, removal and the edit prefill.

module ProductsPage {
  import opened Seqs
  import opened Text
  import opened Js
  import opened Format
  import opened Records
  import opened Units
  import opened AppContext
  import AdvancedFilters
  import AuditForm
  import QuickAdjust
  import BulkAuditForm

  // ------------------------------------------------------------- filtering

  /** The drawer's criteria when the page opens. */
  const InitialFilters := AdvancedFilters.Criteria([], [], "", "", "", "", None)

  /** 1000 * 3600 * 24 */
  const MsPerDay := 86400000.0

  /** Days from now to the product's expiration. None when the product has no
      date, or when dateOf (new Date(s).getTime()) cannot read it: NaN fails
      every comparison below. */
  function DaysToExpiration(p: Product, now: int, dateOf: string -> Option<int>): Option<real>
  {
    if p.expirationDate.None? || p.expirationDate.value == "" then None
    else match dateOf(p.expirationDate.value)
      case None => None
      case Some(t) => Some((t - now) as real / MsPerDay)
  }

  /** The expiration lies after now and at most days ahead. */
  predicate ExpiresWithin(p: Product, days: real, now: int, dateOf: string -> Option<int>)
  {
    var d := DaysToExpiration(p, now, dateOf);
    d.Some? && 0.0 < d.value <= days
  }

  /** toLowerCase().includes(term.toLowerCase()) */
  predicate Mentions(field: string, term: string)
  {
    Contains(Lower(field), Lower(term))
  }

  /** The search box: name, category, or a location or batch that is set. */
  predicate MatchesSearch(p: Product, term: string)
  {
    Mentions(p.name, term) || Mentions(p.category, term) ||
    (p.location != "" && Mentions(p.location, term)) ||
    (p.batch.Some? && p.batch.value != "" && Mentions(p.batch.value, term))
  }

  /** One status chip; 'expiring' means within 30 days and an unknown chip
      accepts everything. */
  predicate StatusMatches(p: Product, s: string, now: int, dateOf: string -> Option<int>)
  {
    if s == "ok" || s == "low" || s == "critical" then p.status == s
    else if s == "expiring" then ExpiresWithin(p, 30.0, now, dateOf)
    else true
  }

  predicate MatchesStatus(p: Product, chips: seq<string>, now: int, dateOf: string -> Option<int>)
  {
    chips == [] || exists i :: 0 <= i < |chips| && StatusMatches(p, chips[i], now, dateOf)
  }

  /** A range bound typed as text; an empty bound is no bound. */
  predicate AtLeast(x: real, bound: string)
  {
    bound == "" || x >= ParseText(bound)
  }

  predicate AtMost(x: real, bound: string)
  {
    bound == "" || x <= ParseText(bound)
  }

  /** The filter of filteredProducts, condition by condition. */
  predicate Shown(p: Product, term: string, f: AdvancedFilters.Criteria, now: int, dateOf: string -> Option<int>)
  {
    MatchesSearch(p, term) &&
    (f.categories == [] || p.category in f.categories) &&
    MatchesStatus(p, f.status, now, dateOf) &&
    AtLeast(p.price, f.minPrice) && AtMost(p.price, f.maxPrice) &&
    AtLeast(p.stock, f.minStock) && AtMost(p.stock, f.maxStock) &&
    (f.expirationWindow.None? || ExpiresWithin(p, f.expirationWindow.value as real, now, dateOf))
  }

  function ShownBy(term: string, f: AdvancedFilters.Criteria, now: int, dateOf: string -> Option<int>): Product -> bool
  {
    (p: Product) => Shown(p, term, f, now, dateOf)
  }

  /** filteredProducts */
  function Visible(ps: seq<Product>, term: string, f: AdvancedFilters.Criteria, now: int, dateOf: string -> Option<int>): seq<Product>
  {
    Filter(ps, ShownBy(term, f, now, dateOf))
  }

  /** The list shows the products that meet every condition, in store order,
      and nothing else. */
  lemma VisibleSpec(ps: seq<Product>, term: string, f: AdvancedFilters.Criteria, now: int, dateOf: string -> Option<int>)
    ensures SubseqOf(Visible(ps, term, f, now, dateOf), ps)
    ensures forall p :: p in Visible(ps, term, f, now, dateOf) <==> p in ps && Shown(p, term, f, now, dateOf)
  {
    FilterIsSubseq(ps, ShownBy(term, f, now, dateOf));
    FilterMembers(ps, ShownBy(term, f, now, dateOf));
  }

  /** With an empty search and the initial criteria every product is shown. */
  lemma ClearedFiltersShowAll(ps: seq<Product>, now: int, dateOf: string -> Option<int>)
    ensures Visible(ps, "", InitialFilters, now, dateOf) == ps
  {
    assert Lower("") == "";
    FilterAll(ps, ShownBy("", InitialFilters, now, dateOf));
  }

  /** A product without an expiration date is hidden whenever an expiration
      window is chosen, and so is a product that expired already. */
  lemma WindowNeedsFutureDate(p: Product, term: string, f: AdvancedFilters.Criteria, now: int, dateOf: string -> Option<int>)
    requires f.expirationWindow.Some?
    ensures p.expirationDate.None? ==> !Shown(p, term, f, now, dateOf)
    ensures p.expirationDate.Some? && dateOf(p.expirationDate.value).Some? &&
            dateOf(p.expirationDate.value).value <= now ==>
      !Shown(p, term, f, now, dateOf)
  {
    if p.expirationDate.Some? && dateOf(p.expirationDate.value).Some? {
      var t := dateOf(p.expirationDate.value).value;
      if t <= now {
        assert (t - now) as real / MsPerDay <= 0.0;
      }
    }
  }

  /** A single status chip ok, low or critical keeps exactly the products in
      that status; a chip the page does not know keeps everything. */
  lemma SingleStatusChip(p: Product, s: string, now: int, dateOf: string -> Option<int>)
    ensures s in {"ok", "low", "critical"} ==> (MatchesStatus(p, [s], now, dateOf) <==> p.status == s)
    ensures s !in {"ok", "low", "critical", "expiring"} ==> MatchesStatus(p, [s], now, dateOf)
  {
    assert [s][0] == s;
  }

  // ------------------------------------------------------------------ stats

  datatype Stats = Stats(totalItems: nat, lowStockItems: nat, totalStockValue: real)

  function NotOk(p: Product): bool
  {
    p.status != "ok"
  }

  function IsLow(p: Product): bool
  {
    p.status == "low"
  }

  function IsCritical(p: Product): bool
  {
    p.status == "critical"
  }

  function StockValue(p: Product): real
  {
    p.stock * p.price
  }

  /** totalItems, lowStockItems and totalStockValue. */
  function StatsOf(ps: seq<Product>): Stats
  {
    Stats(|ps|, Count(ps, NotOk), Sum(ps, StockValue))
  }

  /** A product put in front adds one item, one alert when it is not 'ok' and
      its stock value. */
  lemma StatsPrepend(p: Product, ps: seq<Product>)
    ensures StatsOf([p] + ps).totalItems == StatsOf(ps).totalItems + 1
    ensures StatsOf([p] + ps).lowStockItems == StatsOf(ps).lowStockItems + (if p.status != "ok" then 1 else 0)
    ensures StatsOf([p] + ps).totalStockValue == p.stock * p.price + StatsOf(ps).totalStockValue
  {
    assert ([p] + ps)[1..] == ps;
  }

  /** The alert count never exceeds the item count, and counts the low and the
      critical products when those are the only statuses besides ok. */
  lemma StatsAlerts(ps: seq<Product>)
    requires forall i :: 0 <= i < |ps| ==> ps[i].status in {"ok", "low", "critical"}
    ensures StatsOf(ps).lowStockItems <= StatsOf(ps).totalItems
    ensures StatsOf(ps).lowStockItems ==
      Count(ps, IsLow) + Count(ps, IsCritical)
  {
    AlertsSplit(ps);
  }

  lemma {:induction false} AlertsSplit(ps: seq<Product>)
    requires forall i :: 0 <= i < |ps| ==> ps[i].status in {"ok", "low", "critical"}
    ensures Count(ps, NotOk) == Count(ps, IsLow) + Count(ps, IsCritical)
  {
    if ps != [] {
      AlertsSplit(ps[1..]);
    }
  }

  // ------------------------------------------------------ quick adjustment

  /** The request handleQuickAdjust hands the store: the payload with the
      operator as customUser. The payload carries no unit and no price flag,
      and an absent batch or cost takes the store's defaults '' and 0. */
  function QuickRequest(pl: QuickAdjust.Payload): AdjustRequest
  {
    AdjustRequest(pl.productId, pl.kind, Number(Fin(pl.quantity)), pl.reason, "",
      if pl.batch.Some? then pl.batch.value else "",
      if pl.cost.Some? then Fin(pl.cost.value) else Fin(0.0),
      false, pl.date, pl.operator, None)
  }

  function QuickActivity(pl: QuickAdjust.Payload, c: Clock): Activity
  {
    Activity(c.now, if pl.kind == "in" then "Entrada (Ajuste Rápido)" else "Saída (Ajuste Rápido)",
      "Produto ID: " + IntToString(pl.productId), c.iso, "neutral")
  }

  /** handleQuickAdjust as the page runs it: the adjustment, then the page's
      own log entry, computed from the log of the render, so that it
      replaces the entry the adjustment wrote. */
  function QuickAdjusted(s: Lists, pl: QuickAdjust.Payload, c: Clock): Lists
  {
    var s1 := WithLedger(s, Adjust(LedgerOf(s), QuickRequest(pl), c, s.userName));
    s1.(activities := LogActivity(s.activities, QuickActivity(pl, c)))
  }

  /** The store's adjustment decides products and movements; the log gains
      the page's entry only, whether or not the store took the adjustment. */
  lemma QuickAdjustedSpec(s: Lists, pl: QuickAdjust.Payload, c: Clock)
    ensures QuickAdjusted(s, pl, c).products == Adjust(LedgerOf(s), QuickRequest(pl), c, s.userName).products
    ensures QuickAdjusted(s, pl, c).movements == Adjust(LedgerOf(s), QuickRequest(pl), c, s.userName).movements
    ensures QuickAdjusted(s, pl, c).activities == LogActivity(s.activities, QuickActivity(pl, c))
    ensures QuickAdjusted(s, pl, c).activities[0] == QuickActivity(pl, c)
    ensures !Accepted(LedgerOf(s), QuickRequest(pl)) ==>
      QuickAdjusted(s, pl, c).products == s.products && QuickAdjusted(s, pl, c).movements == s.movements
  {
    AdjustGuard(LedgerOf(s), QuickRequest(pl), c, s.userName);
    LogActivitySpec(s.activities, QuickActivity(pl, c));
  }

  /** handleQuickAdjust as intended: the page's entry logged after the
      store's. */
  function QuickAdjustedIntended(s: Lists, pl: QuickAdjust.Payload, c: Clock): Lists
  {
    var s1 := WithLedger(s, Adjust(LedgerOf(s), QuickRequest(pl), c, s.userName));
    s1.(activities := LogActivity(s1.activities, QuickActivity(pl, c)))
  }

  /** As intended, an adjustment the store takes is logged twice: the page's
      entry first, then the store's 'Entrada/Saída de estoque' entry. */
  lemma QuickAdjustedIntendedLogsBoth(s: Lists, pl: QuickAdjust.Payload, c: Clock)
    requires Accepted(LedgerOf(s), QuickRequest(pl))
    ensures QuickAdjustedIntended(s, pl, c).products == QuickAdjusted(s, pl, c).products
    ensures QuickAdjustedIntended(s, pl, c).movements == QuickAdjusted(s, pl, c).movements
    ensures |QuickAdjustedIntended(s, pl, c).activities| >= 2
    ensures QuickAdjustedIntended(s, pl, c).activities[0] == QuickActivity(pl, c)
    ensures QuickAdjustedIntended(s, pl, c).activities[1].action ==
      if pl.kind == "in" then "Entrada de estoque" else "Saída de estoque"
  {
    var l := Adjust(LedgerOf(s), QuickRequest(pl), c, s.userName);
    var p := FindProduct(s.products, pl.productId).value;
    var q := ValidQuantity(QuickRequest(pl)).value;
    var shownUnit := if QuickRequest(pl).unit == "" then p.unit else QuickRequest(pl).unit;
    var a := Activity(c.now, if pl.kind == "in" then "Entrada de estoque" else "Saída de estoque",
      p.name + " (" + NumberToString(q) + " " + shownUnit + ")", c.iso,
      if pl.kind == "in" then "income" else "expense");
    assert l.activities == LogActivity(s.activities, a);
    LogActivitySpec(s.activities, a);
    LogActivitySpec(l.activities, QuickActivity(pl, c));
  }

  /** As the page runs it, the store's entry of an accepted adjustment is
      lost: with fewer than 19 entries logged the log grows by one, where
      the intended handler grows it by two. */
  lemma QuickAdjustLosesStoreEntry(s: Lists, pl: QuickAdjust.Payload, c: Clock)
    requires Accepted(LedgerOf(s), QuickRequest(pl)) && |s.activities| < MaxActivities - 1
    ensures |QuickAdjusted(s, pl, c).activities| == |s.activities| + 1
    ensures QuickAdjusted(s, pl, c).activities[1..] == s.activities
    ensures |QuickAdjustedIntended(s, pl, c).activities| == |s.activities| + 2
  {
    var l := Adjust(LedgerOf(s), QuickRequest(pl), c, s.userName);
    LogActivitySpec(s.activities, QuickActivity(pl, c));
    assert |l.activities| == |s.activities| + 1 by {
      var p := FindProduct(s.products, pl.productId).value;
      var q := ValidQuantity(QuickRequest(pl)).value;
      var shownUnit := if QuickRequest(pl).unit == "" then p.unit else QuickRequest(pl).unit;
      var a := Activity(c.now, if pl.kind == "in" then "Entrada de estoque" else "Saída de estoque",
        p.name + " (" + NumberToString(q) + " " + shownUnit + ")", c.iso,
        if pl.kind == "in" then "income" else "expense");
      assert l.activities == LogActivity(s.activities, a);
      LogActivitySpec(s.activities, a);
    }
    LogActivitySpec(l.activities, QuickActivity(pl, c));
  }

  /** The request of a payload asks for its quantity in the product's own
      unit, and a positive quantity passes the store's check. */
  lemma QuickRequestQuantity(pl: QuickAdjust.Payload)
    requires pl.quantity > 0.0
    ensures QuickRequest(pl).unit == "" && ValidQuantity(QuickRequest(pl)) == Some(pl.quantity)
  {
  }

  /** The popover's warning and the store agree: a sent exit is refused
      exactly when the preview warned of negative stock. */
  lemma PreviewAgreesWithStore(l: Ledger, f: QuickAdjust.AdjustForm, p: Product, plots: seq<Plot>)
    requires FindProduct(l.products, p.id) == Some(p)
    requires QuickAdjust.Submission(f, p.id, plots).Some? && f.kind == "out"
    ensures QuickAdjust.StockPreview(f, p).Some?
    ensures Accepted(l, QuickRequest(QuickAdjust.Submission(f, p.id, plots).value)) <==>
      !QuickAdjust.StockPreview(f, p).value.warning
  {
    var pl := QuickAdjust.Submission(f, p.id, plots).value;
    QuickAdjust.SubmissionFields(f, p.id, plots);
    QuickRequestQuantity(pl);
    QuickAdjust.StockPreviewSpec(f, p);
    NormalizedSameUnit(p, pl.quantity, "");
  }

  /** A sent entry on a stored product is always taken. */
  lemma EntriesAccepted(l: Ledger, f: QuickAdjust.AdjustForm, p: Product, plots: seq<Plot>)
    requires FindProduct(l.products, p.id) == Some(p)
    requires QuickAdjust.Submission(f, p.id, plots).Some? && f.kind == "in"
    ensures Accepted(l, QuickRequest(QuickAdjust.Submission(f, p.id, plots).value))
  {
    var pl := QuickAdjust.Submission(f, p.id, plots).value;
    QuickAdjust.SubmissionFields(f, p.id, plots);
    QuickRequestQuantity(pl);
  }

  // ------------------------------------------------------- single product

  /** productData of handleProductSubmit, given the id it is stored under.
      The status knows only 'low' and 'ok'. */
  function ProductData(f: AuditForm.ProductForm, id: int): Product
  {
    var stock := ParseText(f.stock);
    var minStock := ParseText(f.minStock);
    Product(id, f.name, f.category, stock, f.unit, OrOne(Some(ParseText(f.unitWeight))),
      minStock, ParseText(f.price), if stock <= minStock then "low" else "ok",
      f.location, Some(f.batch), Some(f.expirationDate))
  }

  /** The parsed fields: the status is 'low' exactly at or below the minimum,
      and the unit weight is never 0 (an empty or zero weight becomes 1). */
  lemma ProductDataSpec(f: AuditForm.ProductForm, id: int)
    ensures ProductData(f, id).id == id && ProductData(f, id).name == f.name
    ensures ProductData(f, id).stock == ParseText(f.stock) && ProductData(f, id).minStock == ParseText(f.minStock)
    ensures ProductData(f, id).price == ParseText(f.price)
    ensures ProductData(f, id).status == "low" <==> ParseText(f.stock) <= ParseText(f.minStock)
    ensures ProductData(f, id).status == "ok" <==> ParseText(f.stock) > ParseText(f.minStock)
    ensures ProductData(f, id).unitWeight != 0.0
    ensures ParseText(f.unitWeight) == 0.0 ==> ProductData(f, id).unitWeight == 1.0
    ensures ParseText(f.unitWeight) != 0.0 ==> ProductData(f, id).unitWeight == ParseText(f.unitWeight)
  {
  }

  /** { ...p, ...productData } for the edited id: every form field replaced,
      the id kept. */
  function EditProducts(ps: seq<Product>, id: int, data: Product): seq<Product>
  {
    Map(ps, (p: Product) => if p.id == id then data.(id := p.id) else p)
  }

  /** The user stamped on the page's own movements. */
  function Stamp(userName: string): string
  {
    if userName == "" then "Sistema" else userName
  }

  /** The opening balance of a new product; the record carries no cost, which
      reads as NaN. */
  function OpeningMovement(p: Product, c: Clock, userName: string): StockMovement
  {
    StockMovement(c.now + 1, p.id, p.name, "in", p.stock, p.unit, p.stock, c.iso,
      "Saldo inicial de implantação", Stamp(userName), OrBlank(p.batch), NaN, None)
  }

  /** handleProductSubmit on the three lists. */
  function SubmitProduct(l: Ledger, f: AuditForm.ProductForm, editing: Option<int>, c: Clock, userName: string): Ledger
  {
    if Editing(editing) then
      Ledger(EditProducts(l.products, editing.value, ProductData(f, editing.value)), l.movements,
        LogActivity(l.activities, Activity(c.now, "Atualizou registro técnico", f.name, c.iso, "neutral")))
    else
      var p := ProductData(f, c.now);
      Ledger([p] + l.products,
        if p.stock > 0.0 then [OpeningMovement(p, c, userName)] + l.movements else l.movements,
        LogActivity(l.activities, Activity(c.now, "Cadastrou novo insumo", f.name, c.iso, "neutral")))
  }

  /** An edit replaces the products with the edited id by the form's data
      under their own id and leaves the other products and every movement. */
  lemma SubmitEditSpec(l: Ledger, f: AuditForm.ProductForm, editing: Option<int>, c: Clock, u: string, i: nat)
    requires Editing(editing) && i < |l.products|
    ensures |SubmitProduct(l, f, editing, c, u).products| == |l.products|
    ensures l.products[i].id == editing.value ==> SubmitProduct(l, f, editing, c, u).products[i] == ProductData(f, editing.value)
    ensures l.products[i].id != editing.value ==> SubmitProduct(l, f, editing, c, u).products[i] == l.products[i]
    ensures SubmitProduct(l, f, editing, c, u).movements == l.movements
  {
  }

  /** A new product goes first under the clock's id; an opening 'in' movement
      of its whole stock is recorded exactly when that stock is positive. */
  lemma SubmitNewSpec(l: Ledger, f: AuditForm.ProductForm, editing: Option<int>, c: Clock, u: string)
    requires !Editing(editing)
    ensures SubmitProduct(l, f, editing, c, u).products == [ProductData(f, c.now)] + l.products
    ensures ParseText(f.stock) > 0.0 ==>
      var ms := SubmitProduct(l, f, editing, c, u).movements;
      |ms| == |l.movements| + 1 && ms[1..] == l.movements &&
      ms[0].productId == c.now && ms[0].kind == "in" &&
      ms[0].realChange == ms[0].quantity == ParseText(f.stock) && ms[0].quantityUnit == f.unit
    ensures ParseText(f.stock) <= 0.0 ==> SubmitProduct(l, f, editing, c, u).movements == l.movements
  {
  }

  /** The submit keeps the ids distinct when every stored id lies before the
      clock, as Date.now() ids do. */
  lemma SubmitKeepsIdsUnique(l: Ledger, f: AuditForm.ProductForm, editing: Option<int>, c: Clock, u: string)
    requires UniqueIds(l.products, (p: Product) => p.id)
    requires forall i :: 0 <= i < |l.products| ==> l.products[i].id < c.now
    ensures UniqueIds(SubmitProduct(l, f, editing, c, u).products, (p: Product) => p.id)
  {
    var r := SubmitProduct(l, f, editing, c, u).products;
    if Editing(editing) {
      var data := ProductData(f, editing.value);
      assert r == EditProducts(l.products, editing.value, data);
      EditKeepsIds(l.products, editing.value, data);
    } else {
      var p := ProductData(f, c.now);
      assert r == [p] + l.products;
      PrependLaterId(p, l.products);
    }
  }

  lemma EditKeepsIds(ps: seq<Product>, id: int, data: Product)
    requires UniqueIds(ps, (p: Product) => p.id)
    ensures UniqueIds(EditProducts(ps, id, data), (p: Product) => p.id)
  {
    var r := EditProducts(ps, id, data);
    assert forall i :: 0 <= i < |r| ==> r[i].id == ps[i].id;
  }

  lemma PrependLaterId(p: Product, ps: seq<Product>)
    requires UniqueIds(ps, (p: Product) => p.id)
    requires forall i :: 0 <= i < |ps| ==> ps[i].id < p.id
    ensures UniqueIds([p] + ps, (p: Product) => p.id)
  {
    var r := [p] + ps;
    assert forall i :: 1 <= i < |r| ==> r[i] == ps[i - 1];
  }

  /** With the corrected price prefill, an opened edit submitted unchanged
      keeps a product whose amounts are whole numbers of units and cents: only
      the status is recomputed, so a 'critical' product comes back 'low'. */
  lemma EditRoundTrip(p: Product)
    requires p.stock >= 0.0 && p.stock.Floor as real == p.stock
    requires p.minStock >= 0.0 && p.minStock.Floor as real == p.minStock
    requires p.unitWeight > 0.0 && p.unitWeight.Floor as real == p.unitWeight
    requires p.price >= 0.0 && (p.price * 100.0).Floor as real == p.price * 100.0
    requires p.batch.Some? && p.expirationDate.Some?
    ensures ProductData(PrefillForm(p), p.id) ==
      p.(status := if p.stock <= p.minStock then "low" else "ok")
  {
    PrefillQuantities(p);
    PrefillWeight(p);
    PrefillPrice(p);
    ProductDataOf(PrefillForm(p), p);
  }

  /** As written, the same unchanged edit of a product with a whole price
      saves a hundredth of that price. */
  lemma EditAsWrittenShrinks(p: Product, n: nat)
    requires p.stock >= 0.0 && p.stock.Floor as real == p.stock
    requires p.minStock >= 0.0 && p.minStock.Floor as real == p.minStock
    requires p.unitWeight > 0.0 && p.unitWeight.Floor as real == p.unitWeight
    requires p.price == n as real
    requires p.batch.Some? && p.expirationDate.Some?
    ensures ProductData(PrefillFormAsWritten(p), p.id) ==
      p.(status := if p.stock <= p.minStock then "low" else "ok", price := p.price / 100.0)
  {
    var f := PrefillFormAsWritten(p);
    PrefillQuantities(p);
    PrefillWeight(p);
    assert ParseText(f.price) == p.price / 100.0 by {
      AmountPrefillShrinks(n);
    }
    ProductDataOf(f, p.(price := p.price / 100.0));
  }

  /** Opening the edit of the only product, priced 12, and saving it
      unchanged stores it priced 0.12. */
  lemma EditAsWrittenCounterexample(l: Ledger, p: Product, c: Clock, u: string)
    requires l.products == [p] && p.price == 12.0 && p.id != 0
    ensures SubmitProduct(l, PrefillFormAsWritten(p), Some(p.id), c, u).products[0].price == 0.12
  {
    assert ParseText(PrefillFormAsWritten(p).price) == 0.12 by {
      AmountPrefillCounterexample();
    }
  }

  lemma PrefillQuantities(p: Product)
    requires p.stock >= 0.0 && p.stock.Floor as real == p.stock
    requires p.minStock >= 0.0 && p.minStock.Floor as real == p.minStock
    ensures ParseText(PrefillForm(p).stock) == p.stock && ParseText(PrefillForm(p).minStock) == p.minStock
  {
    WholeRoundTrip(p.stock);
    WholeRoundTrip(p.minStock);
  }

  lemma PrefillWeight(p: Product)
    requires p.unitWeight > 0.0 && p.unitWeight.Floor as real == p.unitWeight
    ensures ParseText(PrefillForm(p).unitWeight) == p.unitWeight
  {
    WholeRoundTrip(p.unitWeight);
  }

  lemma PrefillPrice(p: Product)
    requires p.price >= 0.0 && (p.price * 100.0).Floor as real == p.price * 100.0
    ensures ParseText(PrefillForm(p).price) == p.price
  {
    AmountPrefillRoundTrip(p.price);
  }

  /** The form's texts that parse back to p's amounts give p back. */
  lemma ProductDataOf(f: AuditForm.ProductForm, p: Product)
    requires f.name == p.name && f.category == p.category && f.unit == p.unit && f.location == p.location
    requires p.batch == Some(f.batch) && p.expirationDate == Some(f.expirationDate)
    requires ParseText(f.stock) == p.stock && ParseText(f.minStock) == p.minStock
    requires ParseText(f.unitWeight) == p.unitWeight != 0.0 && ParseText(f.price) == p.price
    ensures ProductData(f, p.id) == p.(status := if p.stock <= p.minStock then "low" else "ok")
  {
  }

  /** A whole non-negative quantity survives maskNumber and parseValue. */
  lemma WholeRoundTrip(x: real)
    requires x >= 0.0 && x.Floor as real == x
    ensures ParseText(MaskNumber(Number(Fin(x)))) == x
  {
    var n: nat := x.Floor;
    MaskNumberNat(n);
    ParseTextNat(n);
  }

  // --------------------------------------------------------------- bulk

  /** { ...p, id }: the grid's capacity unit has no place in a stored product. */
  function WithId(p: BulkAuditForm.BulkProduct, id: int): Product
  {
    Product(id, p.name, p.category, p.stock, p.unit, p.unitWeight, p.minStock, p.price,
      p.status, p.location, Some(p.batch), Some(p.expirationDate))
  }

  /** The opening movement of the bulk entry; it is recorded even for a zero
      stock. */
  function BulkMovement(p: Product, id: int, c: Clock, userName: string): StockMovement
  {
    StockMovement(id, p.id, p.name, "in", p.stock, p.unit, p.stock, c.iso,
      "Implantação Massiva SpeedGrid™", Stamp(userName), "", NaN, None)
  }

  function StoredProducts(ps: seq<BulkAuditForm.BulkProduct>, now: int): seq<Product>
  {
    MapIndexed(ps, now, (p: BulkAuditForm.BulkProduct, id: int) => WithId(p, id))
  }

  function BulkMovements(ps: seq<Product>, c: Clock, userName: string): seq<StockMovement>
  {
    MapIndexed(ps, c.now + 100, (p: Product, id: int) => BulkMovement(p, id, c, userName))
  }

  /** handleBulkSubmit on the three lists. */
  function BulkLedger(l: Ledger, ps: seq<BulkAuditForm.BulkProduct>, c: Clock, userName: string): Ledger
  {
    var stored := StoredProducts(ps, c.now);
    Ledger(stored + l.products, BulkMovements(stored, c, userName) + l.movements,
      LogActivity(l.activities, Activity(c.now, "Implantação Massiva Concluída",
        NatToString(|ps|) + " novos insumos registrados", c.iso, "neutral")))
  }

  /** Product i of the batch goes in front with id now + i; movement i records
      its whole stock as an entry under id now + 100 + i; the old lists follow. */
  lemma BulkLedgerSpec(l: Ledger, ps: seq<BulkAuditForm.BulkProduct>, c: Clock, u: string, i: nat)
    requires i < |ps|
    ensures var r := BulkLedger(l, ps, c, u);
      |r.products| == |ps| + |l.products| && r.products[|ps|..] == l.products &&
      |r.movements| == |ps| + |l.movements| && r.movements[|ps|..] == l.movements
    ensures var r := BulkLedger(l, ps, c, u);
      r.products[i] == WithId(ps[i], c.now + i) &&
      r.movements[i].id == c.now + 100 + i && r.movements[i].productId == c.now + i &&
      r.movements[i].kind == "in" && r.movements[i].realChange == r.movements[i].quantity == ps[i].stock
  {
    var stored := StoredProducts(ps, c.now);
    assert (stored + l.products)[|ps|..] == l.products;
    assert (BulkMovements(stored, c, u) + l.movements)[|ps|..] == l.movements;
  }

  /** The bulk ids stay distinct from each other and from earlier ones when
      every stored id lies before the clock. */
  lemma BulkKeepsIdsUnique(l: Ledger, ps: seq<BulkAuditForm.BulkProduct>, c: Clock, u: string)
    requires UniqueIds(l.products, (p: Product) => p.id)
    requires forall i :: 0 <= i < |l.products| ==> l.products[i].id < c.now
    ensures UniqueIds(BulkLedger(l, ps, c, u).products, (p: Product) => p.id)
  {
    var stored := StoredProducts(ps, c.now);
    var r := stored + l.products;
    assert forall i :: 0 <= i < |stored| ==> r[i].id == c.now + i;
    assert forall i :: |stored| <= i < |r| ==> r[i] == l.products[i - |stored|];
  }

  // ---------------------------------------------------------------- delete

  function NotId(id: int): Product -> bool
  {
    (p: Product) => p.id != id
  }

  /** deleteProduct after the confirm() answer: the movements stay. */
  function DeleteLedger(l: Ledger, id: int, confirmed: bool, c: Clock): Ledger
  {
    if !confirmed then l
    else
      var acts := match FindProduct(l.products, id)
        case Some(p) => LogActivity(l.activities, Activity(c.now, "Removeu do inventário", p.name, c.iso, "neutral"))
        case None => l.activities;
      Ledger(Filter(l.products, NotId(id)), l.movements, acts)
  }

  /** A confirmed removal leaves no product with the id and every other product
      in order; the history of movements is kept. A refusal changes nothing. */
  lemma DeleteSpec(l: Ledger, id: int, confirmed: bool, c: Clock)
    ensures !confirmed ==> DeleteLedger(l, id, confirmed, c) == l
    ensures confirmed ==> SubseqOf(DeleteLedger(l, id, confirmed, c).products, l.products)
    ensures confirmed ==> forall p :: p in DeleteLedger(l, id, confirmed, c).products <==> p in l.products && p.id != id
    ensures DeleteLedger(l, id, confirmed, c).movements == l.movements
    ensures confirmed && FindProduct(l.products, id).None? ==> DeleteLedger(l, id, confirmed, c).activities == l.activities
  {
    FilterIsSubseq(l.products, NotId(id));
    FilterMembers(l.products, NotId(id));
  }

  // --------------------------------------------------------------- prefill

  function OrBlank(s: Option<string>): string
  {
    if s.Some? then s.value else ""
  }

  /** openEdit's form as written: quantities through maskNumber, the weight
      defaulting to 1, the price through maskValue, which reads its digits as
      cents. */
  function PrefillFormAsWritten(p: Product): AuditForm.ProductForm
  {
    AuditForm.ProductForm(p.name, p.category, MaskNumber(Number(Fin(p.stock))), p.unit,
      MaskNumber(Number(Fin(if p.unitWeight == 0.0 then 1.0 else p.unitWeight))),
      MaskNumber(Number(Fin(p.minStock))), AmountPrefillAsWritten(p.price), p.location,
      OrBlank(p.batch), OrBlank(p.expirationDate))
  }

  /** The prefill the price mask expects: the same form with the price's
      cents masked. */
  function PrefillForm(p: Product): AuditForm.ProductForm
  {
    PrefillFormAsWritten(p).(price := AmountPrefill(p.price))
  }

  // ---------------------------------------------------------------- styles

  const Agricultural: seq<string> := ["Fertilizantes", "Sementes", "Defensivos", "Herbicidas",
    "Fungicidas", "Inseticidas", "Adjuvantes", "Corretivos", "Nutrição Foliar"]
  const Logistics: seq<string> := ["Combustível", "Lubrificantes", "Peças", "Pneus", "Filtros"]
  const Infrastructure: seq<string> := ["Ferramentas", "Materiais de Construção", "Elétrica", "Hidráulica", "Ferragens"]
  const Operations: seq<string> := ["EPIs", "Embalagens", "Limpeza"]
  const Livestock: seq<string> := ["Medicamentos Veterinários", "Suplementos & Nutrição", "Vacinas"]

  /** getCategoryStyles: the first group that lists the category decides. */
  function CategoryStyle(category: string): string
  {
    if category in Agricultural then "text-emerald-500 bg-emerald-500/10"
    else if category in Logistics then "text-blue-500 bg-blue-500/10"
    else if category in Infrastructure then "text-amber-500 bg-amber-500/10"
    else if category in Operations then "text-cyan-500 bg-cyan-500/10"
    else if category in Livestock then "text-rose-500 bg-rose-500/10"
    else "text-slate-500 bg-slate-500/10"
  }

  /** Every category of a group gets its group's colour, since no category is
      in two groups; anything else is slate. */
  lemma CategoryStyleSpec(category: string)
    ensures category in Agricultural ==> CategoryStyle(category) == "text-emerald-500 bg-emerald-500/10"
    ensures category in Logistics ==> CategoryStyle(category) == "text-blue-500 bg-blue-500/10"
    ensures category in Infrastructure ==> CategoryStyle(category) == "text-amber-500 bg-amber-500/10"
    ensures category !in Agricultural + Logistics + Infrastructure + Operations + Livestock ==>
      CategoryStyle(category) == "text-slate-500 bg-slate-500/10"
  {
  }

  /** The same for the operational group. */
  lemma CategoryStyleOperations(category: string)
    ensures category in Operations ==> CategoryStyle(category) == "text-cyan-500 bg-cyan-500/10"
  {
  }

  /** And for the livestock group. */
  lemma CategoryStyleLivestock(category: string)
    ensures category in Livestock ==> CategoryStyle(category) == "text-rose-500 bg-rose-500/10"
  {
    if category in Livestock {
      assert category !in Agricultural && category !in Logistics by {
        assert |category| in {25, 22, 7};
        assert category != "Filtros";
      }
    }
  }

  /** The store updates of handleProductSubmit. */
  method SaveProduct(store: AppStore, f: AuditForm.ProductForm, editing: Option<int>, c: Clock)
    modifies store
    ensures store.Contents() == WithLedger(old(store.Contents()), SubmitProduct(old(store.State()), f, editing, c, old(store.userName)))
  {
    if editing.Some? && editing.value != 0 {
      var data := ProductData(f, editing.value);
      store.products := EditProducts(store.products, editing.value, data);
      store.AddActivity("Atualizou registro técnico", f.name, "neutral", c);
    } else {
      var p := ProductData(f, c.now);
      store.products := [p] + store.products;
      store.AddActivity("Cadastrou novo insumo", f.name, "neutral", c);
      if p.stock > 0.0 {
        store.stockMovements := [OpeningMovement(p, c, store.userName)] + store.stockMovements;
      }
    }
  }

  // ------------------------------------------------------------------ page

  class ProductsPageView {
    const store: AppStore
    const form: AuditForm.AuditFormView
    var searchTerm: string
    var advancedFilters: AdvancedFilters.Criteria
    var isProductFormOpen: bool
    var editingProductId: Option<int>
    var isBulkEntryOpen: bool

    constructor (store: AppStore)
      ensures this.store == store && fresh(form)
      ensures form.productForm == AuditForm.EmptyProductForm() && form.activeFormZone == 1
      ensures searchTerm == "" && advancedFilters == InitialFilters
      ensures !isProductFormOpen && editingProductId == None && !isBulkEntryOpen
    {
      this.store := store;
      form := new AuditForm.AuditFormView();
      searchTerm, advancedFilters := "", InitialFilters;
      isProductFormOpen, editingProductId, isBulkEntryOpen := false, None, false;
    }

    /** handleQuickAdjust(payload). */
    method HandleQuickAdjust(payload: QuickAdjust.Payload, c: Clock)
      modifies store
      ensures store.Contents() == QuickAdjusted(old(store.Contents()), payload, c)
    {
      var seen := store.State();
      store.HandleStockAdjustment(QuickRequest(payload), c);
      store.AddActivityAsRendered(seen.activities, if payload.kind == "in" then "Entrada (Ajuste Rápido)" else "Saída (Ajuste Rápido)",
        "Produto ID: " + IntToString(payload.productId), "neutral", c);
    }

    /** handleProductSubmit: the lists change as SubmitProduct says, then the
        form is closed, emptied and back at zone 1. */
    method HandleProductSubmit(c: Clock)
      modifies this, form, store
      ensures store.Contents() == WithLedger(old(store.Contents()),
        SubmitProduct(old(store.State()), old(form.productForm), old(editingProductId), c, old(store.userName)))
      ensures form.productForm == AuditForm.EmptyProductForm() && form.activeFormZone == 1
      ensures form.showSuccessNotice == old(form.showSuccessNotice)
      ensures !isProductFormOpen && editingProductId == None
      ensures searchTerm == old(searchTerm) && advancedFilters == old(advancedFilters) && isBulkEntryOpen == old(isBulkEntryOpen)
    {
      SaveProduct(store, form.productForm, editingProductId, c);
      isProductFormOpen, editingProductId := false, None;
      form.activeFormZone := 1;
      form.productForm := AuditForm.EmptyProductForm();
    }

    /** handleBulkSubmit(newProducts): the lists change as BulkLedger says and
        the grid closes. */
    method HandleBulkSubmit(newProducts: seq<BulkAuditForm.BulkProduct>, c: Clock)
      modifies this, store
      ensures store.Contents() == WithLedger(old(store.Contents()), BulkLedger(old(store.State()), newProducts, c, old(store.userName)))
      ensures !isBulkEntryOpen
      ensures searchTerm == old(searchTerm) && advancedFilters == old(advancedFilters)
      ensures isProductFormOpen == old(isProductFormOpen) && editingProductId == old(editingProductId)
    {
      var stored := StoredProducts(newProducts, c.now);
      store.products := stored + store.products;
      store.stockMovements := BulkMovements(stored, c, store.userName) + store.stockMovements;
      store.AddActivity("Implantação Massiva Concluída", NatToString(|newProducts|) + " novos insumos registrados", "neutral", c);
      isBulkEntryOpen := false;
    }

    /** deleteProduct(id); confirmed is the answer to confirm(). */
    method DeleteProduct(id: int, confirmed: bool, c: Clock)
      modifies store
      ensures store.Contents() == WithLedger(old(store.Contents()), DeleteLedger(old(store.State()), id, confirmed, c))
    {
      if confirmed {
        var product := FindProduct(store.products, id);
        if product.Some? {
          store.AddActivity("Removeu do inventário", product.value.name, "neutral", c);
        }
        store.products := Filter(store.products, NotId(id));
      }
    }

    /** openEdit(product), with the price prefilled as written. */
    method OpenEdit(product: Product)
      modifies this, form
      ensures editingProductId == Some(product.id) && form.productForm == PrefillFormAsWritten(product)
      ensures isProductFormOpen && form.activeFormZone == 1
      ensures form.showSuccessNotice == old(form.showSuccessNotice)
      ensures searchTerm == old(searchTerm) && advancedFilters == old(advancedFilters) && isBulkEntryOpen == old(isBulkEntryOpen)
    {
      editingProductId := Some(product.id);
      form.productForm := PrefillFormAsWritten(product);
      isProductFormOpen := true;
      form.activeFormZone := 1;
    }
  }
}
