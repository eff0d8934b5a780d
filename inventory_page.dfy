// The stock page (src/pages/inventory/InventoryPage.tsx): the product list
// with its search and status chips, the urgency and movement counters, the
// movement history filter, and the adjustment modal with its cost
// suggestion, its conversion preview and the request it hands the store.

module InventoryPage {
  import opened Seqs
  import opened Text
  import opened Js
  import opened Format
  import opened Records
  import opened Units
  import opened AppContext
  import QuickAdjust
  import ProductsPage

  // ----------------------------------------------------------- product list

  /** The status chips: 'low' lists the low and the critical products,
      'critical' only the critical ones; 'all' and any other value list
      everything. */
  predicate StatusChip(p: Product, chip: string)
  {
    if chip == "all" then true
    else if chip == "low" then p.status == "low" || p.status == "critical"
    else if chip == "critical" then p.status == "critical"
    else true
  }

  /** The search looks at the name only, ignoring case. */
  predicate Listed(p: Product, term: string, chip: string)
  {
    ProductsPage.Mentions(p.name, term) && StatusChip(p, chip)
  }

  function ListedBy(term: string, chip: string): Product -> bool
  {
    p => Listed(p, term, chip)
  }

  /** filteredProducts. */
  function FilteredProducts(ps: seq<Product>, term: string, chip: string): seq<Product>
  {
    Filter(ps, ListedBy(term, chip))
  }

  /** The list holds exactly the products that pass the search and the chip,
      in their stored order. */
  lemma FilteredProductsSpec(ps: seq<Product>, term: string, chip: string)
    ensures forall p :: p in FilteredProducts(ps, term, chip) <==> p in ps && Listed(p, term, chip)
    ensures SubseqOf(FilteredProducts(ps, term, chip), ps)
  {
    FilterMembers(ps, ListedBy(term, chip));
    FilterIsSubseq(ps, ListedBy(term, chip));
  }

  /** Every product under the 'critical' chip is also under the 'low' chip,
      and an empty search with the 'all' chip lists every product. */
  lemma ChipsNest(ps: seq<Product>, term: string)
    ensures forall p :: p in FilteredProducts(ps, term, "critical") ==> p in FilteredProducts(ps, term, "low")
    ensures FilteredProducts(ps, "", "all") == ps
  {
    FilterMembers(ps, ListedBy(term, "critical"));
    FilterMembers(ps, ListedBy(term, "low"));
    assert Lower("") == "";
    forall i | 0 <= i < |ps|
      ensures Listed(ps[i], "", "all")
    {
      ContainsEmpty(Lower(ps[i].name));
    }
    FilterAll(ps, ListedBy("", "all"));
  }

  // --------------------------------------------------------------- urgency

  /** urgencyStats: how many products are 'low' and how many 'critical'. */
  datatype Urgency = Urgency(low: nat, critical: nat)

  function UrgencyOf(ps: seq<Product>): Urgency
  {
    Urgency(Count(ps, ProductsPage.IsLow), Count(ps, ProductsPage.IsCritical))
  }

  /** With an empty search the 'low' chip lists as many products as the two
      urgency counters add up to. */
  lemma {:induction false} UrgencyMatchesLowChip(ps: seq<Product>)
    ensures |FilteredProducts(ps, "", "low")| == UrgencyOf(ps).low + UrgencyOf(ps).critical
  {
    if ps != [] {
      UrgencyMatchesLowChip(ps[1..]);
      assert Lower("") == "";
      ContainsEmpty(Lower(ps[0].name));
    }
  }

  /** With an empty search the 'critical' chip lists as many products as the
      critical counter says. */
  lemma {:induction false} UrgencyMatchesCriticalChip(ps: seq<Product>)
    ensures |FilteredProducts(ps, "", "critical")| == UrgencyOf(ps).critical
  {
    if ps != [] {
      UrgencyMatchesCriticalChip(ps[1..]);
      assert Lower("") == "";
      ContainsEmpty(Lower(ps[0].name));
    }
  }

  // ------------------------------------------------------------- movements

  /** The history tabs: 'all', or the movement type to keep. */
  predicate HistoryShows(m: StockMovement, tab: string)
  {
    tab == "all" || m.kind == tab
  }

  function ShownIn(tab: string): StockMovement -> bool
  {
    m => HistoryShows(m, tab)
  }

  /** filteredMovements. */
  function FilteredMovements(ms: seq<StockMovement>, tab: string): seq<StockMovement>
  {
    Filter(ms, ShownIn(tab))
  }

  /** The 'all' tab shows every movement; any other tab exactly the movements
      of that type. */
  lemma FilteredMovementsSpec(ms: seq<StockMovement>, tab: string)
    ensures FilteredMovements(ms, "all") == ms
    ensures tab != "all" ==> forall m :: m in FilteredMovements(ms, tab) <==> m in ms && m.kind == tab
  {
    FilterAll(ms, ShownIn("all"));
    FilterMembers(ms, ShownIn(tab));
  }

  /** The counters above the history. */
  datatype MovementStats = MovementStats(
    totalMovements: nat, entriesCount: nat, exitsCount: nat, totalValueAdded: real)

  function IsEntry(m: StockMovement): bool
  {
    m.kind == "in"
  }

  function IsExit(m: StockMovement): bool
  {
    m.kind == "out"
  }

  /** `m.cost || 0`: NaN and 0 count as nothing. */
  function CostOrZero(cost: Num): real
  {
    if cost.Fin? then cost.val else 0.0
  }

  function EntryCost(m: StockMovement): real
  {
    CostOrZero(m.cost)
  }

  /** stats: the value added sums the costs of the entries only. */
  function StatsOf(ms: seq<StockMovement>): MovementStats
  {
    MovementStats(|ms|, Count(ms, IsEntry), Count(ms, IsExit), Sum(Filter(ms, IsEntry), EntryCost))
  }

  /** Entries and exits never outnumber the movements, and make them all up
      when every movement is one or the other. */
  lemma {:induction false} EntriesAndExits(ms: seq<StockMovement>)
    ensures StatsOf(ms).entriesCount + StatsOf(ms).exitsCount <= StatsOf(ms).totalMovements
    ensures (forall i :: 0 <= i < |ms| ==> ms[i].kind in {"in", "out"}) ==>
      StatsOf(ms).entriesCount + StatsOf(ms).exitsCount == StatsOf(ms).totalMovements
  {
    if ms != [] {
      EntriesAndExits(ms[1..]);
    }
  }

  /** The entry and exit counters count what the 'in' and 'out' tabs show. */
  lemma CountersMatchTabs(ms: seq<StockMovement>)
    ensures StatsOf(ms).entriesCount == |FilteredMovements(ms, "in")|
    ensures StatsOf(ms).exitsCount == |FilteredMovements(ms, "out")|
  {
    FilterCongruent(ms, IsEntry, ShownIn("in"));
    FilterCongruent(ms, IsExit, ShownIn("out"));
  }

  /** The value added is not negative while no entry carries a negative cost. */
  lemma ValueAddedNonNegative(ms: seq<StockMovement>)
    requires forall i :: 0 <= i < |ms| && ms[i].kind == "in" ==> EntryCost(ms[i]) >= 0.0
    ensures StatsOf(ms).totalValueAdded >= 0.0
  {
    var es := Filter(ms, IsEntry);
    FilterMembers(ms, IsEntry);
    assert forall i :: 0 <= i < |es| ==> es[i] in ms && es[i].kind == "in";
    SumNonneg(es, EntryCost);
  }

  /** The counters after one more movement m in front of ms. */
  function Plus(s: MovementStats, m: StockMovement): MovementStats
  {
    MovementStats(s.totalMovements + 1,
      s.entriesCount + (if m.kind == "in" then 1 else 0),
      s.exitsCount + (if m.kind == "out" then 1 else 0),
      s.totalValueAdded + (if m.kind == "in" then CostOrZero(m.cost) else 0.0))
  }

  /** A movement put in front counts once, as an entry or an exit by its
      type, and adds its cost only when it is an entry. */
  lemma StatsPrepend(m: StockMovement, ms: seq<StockMovement>)
    ensures StatsOf([m] + ms) == Plus(StatsOf(ms), m)
  {
    assert ([m] + ms)[1..] == ms;
    if m.kind == "in" {
      assert Filter([m] + ms, IsEntry) == [m] + Filter(ms, IsEntry);
      assert ([m] + Filter(ms, IsEntry))[1..] == Filter(ms, IsEntry);
    } else {
      assert Filter([m] + ms, IsEntry) == Filter(ms, IsEntry);
    }
  }

  /** An adjustment the store takes counts its movement as StatsPrepend
      says: one more movement, an entry's cost added to the value; one it
      refuses leaves the counters as they were. */
  lemma StatsAfterAdjust(l: Ledger, r: AdjustRequest, c: Clock, u: string)
    ensures !Accepted(l, r) ==> StatsOf(Adjust(l, r, c, u).movements) == StatsOf(l.movements)
    ensures Accepted(l, r) ==>
      var m := Adjust(l, r, c, u).movements[0];
      m.kind == r.kind && m.cost == r.cost &&
      StatsOf(Adjust(l, r, c, u).movements) == Plus(StatsOf(l.movements), m)
  {
    AdjustGuard(l, r, c, u);
    if Accepted(l, r) {
      var ms := Adjust(l, r, c, u).movements;
      AdjustMovementCost(l, r, c, u);
      AdjustMovement(l, r, c, u);
      assert ms == [ms[0]] + l.movements;
      StatsPrepend(ms[0], l.movements);
    }
  }

  /** The movement recorded carries the request's cost. */
  lemma AdjustMovementCost(l: Ledger, r: AdjustRequest, c: Clock, u: string)
    requires Accepted(l, r)
    ensures Adjust(l, r, c, u).movements[0].cost == r.cost
  {
  }

  // ----------------------------------------------------------- modal form

  /** The modal's inputs, as text. kind is 'in' or 'out'. */
  datatype AdjustmentForm = AdjustmentForm(
    kind: string, quantity: string, reason: string, unit: string, batch: string,
    cost: string, date: string, operator: string, plotId: string)

  /** openAdjustment: the chosen type, the product's own unit, today's date,
      the settings' user, everything else blank. */
  function OpenedForm(p: Product, kind: string, today: string, userName: string): AdjustmentForm
  {
    AdjustmentForm(kind, "", "", p.unit, "", "", today, userName, "")
  }

  /** The modal's inputs. */
  datatype AdjustmentInput = Kind | Quantity | Unit | Date | Operator | Batch | PlotChoice | Reason | Cost

  /** The form after one input: the quantity goes through maskNumber and the
      cost through maskValue; the others keep what was typed (the batch is
      not upper-cased here). */
  function Entered(f: AdjustmentForm, input: AdjustmentInput, typed: string): AdjustmentForm
  {
    match input
      case Kind => f.(kind := typed)
      case Quantity => f.(quantity := MaskNumber(Str(typed)))
      case Unit => f.(unit := typed)
      case Date => f.(date := typed)
      case Operator => f.(operator := typed)
      case Batch => f.(batch := typed)
      case PlotChoice => f.(plotId := typed)
      case Reason => f.(reason := typed)
      case Cost => f.(cost := MaskValue(Str(typed)))
  }

  /** The inputs the cost suggestion watches. */
  predicate Watched(input: AdjustmentInput)
  {
    input == Kind || input == Quantity || input == Unit
  }

  // ------------------------------------------------------ cost suggestion

  /** The amount the suggestion prices: the quantity in the product's unit
      times its unit price. */
  function SuggestedAmount(f: AdjustmentForm, p: Product): real
  {
    Normalized(p, Fin(ParseText(f.quantity)), f.unit) * p.price
  }

  /** The cost field after the suggestion effect, with fill turning the amount
      into text: blank without a product or quantity; an entry gets the
      suggested amount; an exit keeps what the field held. The isNaN test of
      the source always passes, since parseValue of text is never NaN. */
  function SuggestedCost(f: AdjustmentForm, selected: Option<Product>, fill: real -> string): string
  {
    if selected.Some? && f.quantity != "" then
      if f.kind == "in" then fill(SuggestedAmount(f, selected.value)) else f.cost
    else ""
  }

  /** The fill as written: toFixed(2), a decimal point and two digits. */
  function CostFillAsWritten(amount: real): string
  {
    ToFixed2(amount)
  }

  /** parseValue reads the point of the toFixed(2) text as a thousands dot,
      so the amount comes back in hundredths: a hundred times too large. */
  lemma CostFillInflates(amount: real)
    requires amount >= 0.0
    ensures ParseText(CostFillAsWritten(amount)) == Round(amount * 100.0) as real
  {
    ParseTextFixed2(Round(amount * 100.0));
  }

  /** A suggested cost of 1.50 is written "1.50" and sent as 150. */
  lemma CostFillCounterexample()
    ensures CostFillAsWritten(1.5) == "1.50"
    ensures ParseText(CostFillAsWritten(1.5)) == 150.0
  {
    assert Round(1.5 * 100.0) == 150 by {
      assert (150.0 + 0.5).Floor == 150;
    }
    assert CostFillAsWritten(1.5) == Fixed2(150);
    assert Fixed2(150) == "1.50" by {
      assert NatToString(1) == "1";
      assert Pad2(50) == "50";
    }
    ParseTextFixed2(150);
  }

  /** The fill the cost input expects: the toFixed(2) text put through the
      input's own mask, which shows it with a decimal comma. */
  function CostFill(amount: real): string
  {
    MaskValue(Str(ToFixed2(amount)))
  }

  /** The corrected fill reads back as the amount to the nearest cent. */
  lemma CostFillValue(amount: real)
    requires amount >= 0.0
    ensures ParseText(CostFill(amount)) == Round(amount * 100.0) as real / 100.0
  {
    var n := Round(amount * 100.0);
    MaskFixed2(n);
    CentsTextValue(n);
  }

  /** The corrected fill has the money shape, and an amount of whole cents
      comes back exactly. */
  lemma CostFillRoundTrip(amount: real)
    requires amount >= 0.0
    ensures MoneyText(CostFill(amount))
    ensures (amount * 100.0).Floor as real == amount * 100.0 ==> ParseText(CostFill(amount)) == amount
  {
    var n := Round(amount * 100.0);
    MaskFixed2(n);
    CentsTextShape(n);
    CostFillValue(amount);
    var k := (amount * 100.0).Floor;
    if k as real == amount * 100.0 {
      assert n == k by {
        assert (k as real + 0.5).Floor == k;
      }
    }
  }

  /** The rule of the suggestion, in both directions: it clears the field
      exactly when no product or no quantity is there, prices an entry by
      the fill, and leaves an exit's cost alone. */
  lemma SuggestedCostSpec(f: AdjustmentForm, selected: Option<Product>, fill: real -> string)
    ensures SuggestedCost(f, selected, fill) == "" <==>
      selected.None? || f.quantity == "" ||
      (f.kind == "in" && fill(SuggestedAmount(f, selected.value)) == "") ||
      (f.kind != "in" && f.cost == "")
    ensures selected.Some? && f.quantity != "" && f.kind == "in" ==>
      SuggestedCost(f, selected, fill) == fill(SuggestedAmount(f, selected.value))
    ensures selected.Some? && f.quantity != "" && f.kind != "in" ==> SuggestedCost(f, selected, fill) == f.cost
  {
  }

  // -------------------------------------------------------------- submit

  /** The reason sent: an 'out' on a known plot names the plot, followed by
      the typed reason whenever one was typed. */
  function FinalReason(f: AdjustmentForm, plots: seq<Plot>): string
  {
    if f.kind == "out" && f.plotId != "" && QuickAdjust.SelectedPlot(plots, f.plotId).Some? then
      "Aplicação: " + QuickAdjust.SelectedPlot(plots, f.plotId).value.name +
        (if f.reason != "" then " - " + f.reason else "")
    else f.reason
  }

  /** The reason rule in both directions. */
  lemma FinalReasonSpec(f: AdjustmentForm, plots: seq<Plot>)
    ensures !(f.kind == "out" && QuickAdjust.SelectedPlot(plots, f.plotId).Some?) ==> FinalReason(f, plots) == f.reason
    ensures f.kind == "out" && QuickAdjust.SelectedPlot(plots, f.plotId).Some? ==>
      FinalReason(f, plots) == "Aplicação: " + QuickAdjust.SelectedPlot(plots, f.plotId).value.name +
        (if f.reason == "" then "" else " - " + f.reason)
  {
    if QuickAdjust.SelectedPlot(plots, f.plotId).Some? {
      assert ParseInt(f.plotId).Some?;
      assert f.plotId != "";
    }
  }

  /** handleStockAdjustmentSubmit: nothing without a product or a quantity;
      otherwise the raw quantity text, the unit, batch and date as typed, the
      parsed cost, no price update and the operator as the user. */
  function Submission(f: AdjustmentForm, selected: Option<Product>, plots: seq<Plot>): Option<AdjustRequest>
  {
    if selected.None? || f.quantity == "" then None
    else Some(AdjustRequest(selected.value.id, f.kind, Str(f.quantity), FinalReason(f, plots), f.unit,
      f.batch, Fin(ParseText(f.cost)), false, f.date, f.operator, None))
  }

  /** The store receives what the form says: the page checks only that the
      quantity is not blank, and the store then takes it exactly when it
      reads as a positive number. */
  lemma SubmissionSpec(f: AdjustmentForm, selected: Option<Product>, plots: seq<Plot>)
    ensures Submission(f, selected, plots).None? <==> selected.None? || f.quantity == ""
    ensures Submission(f, selected, plots).Some? ==>
      var r := Submission(f, selected, plots).value;
      r.productId == selected.value.id && r.kind == f.kind && r.unit == f.unit &&
      r.cost == Fin(ParseText(f.cost)) && !r.updatePrice && r.customUser == f.operator &&
      r.appId.None? && r.reason == FinalReason(f, plots) &&
      (ValidQuantity(r).Some? <==> ParseText(f.quantity) > 0.0) &&
      (ValidQuantity(r).Some? ==> ValidQuantity(r).value == ParseText(f.quantity))
  {
    ParseTextIsParseValue(f.quantity);
  }

  /** A quantity of "0" passes the page's check, and the store refuses it. */
  lemma ZeroQuantityRefused(l: Ledger, f: AdjustmentForm, p: Product, plots: seq<Plot>)
    requires f.quantity == "0"
    ensures Submission(f, Some(p), plots).Some?
    ensures !Accepted(l, Submission(f, Some(p), plots).value)
  {
    ParseTextNat(0);
    SubmissionSpec(f, Some(p), plots);
  }

  /** A cost field holding the corrected fill of an amount (what the
      suggestion leaves there, SuggestedCostSpec) is sent as that amount to
      the nearest cent. */
  lemma SentCost(f: AdjustmentForm, p: Product, plots: seq<Plot>, amount: real)
    requires amount >= 0.0 && f.cost == CostFill(amount) && f.quantity != ""
    ensures Submission(f, Some(p), plots).Some?
    ensures Submission(f, Some(p), plots).value.cost == Fin(Round(amount * 100.0) as real / 100.0)
  {
    CostFillValue(amount);
  }

  /** The fill as written in the same field is sent as a hundred times the
      amount. */
  lemma SentCostAsWritten(f: AdjustmentForm, p: Product, plots: seq<Plot>, amount: real)
    requires amount >= 0.0 && f.cost == CostFillAsWritten(amount) && f.quantity != ""
    ensures Submission(f, Some(p), plots).Some?
    ensures Submission(f, Some(p), plots).value.cost == Fin(Round(amount * 100.0) as real)
  {
    CostFillInflates(amount);
  }

  // ------------------------------------------------------------- preview

  /** What getConversionDisplay shows: the quantity, its amount in the
      product's unit, the weight moved, the stock after the operation, its
      weight and whether the negative-stock warning is up. */
  datatype Conversion = Conversion(
    quantity: real, normalized: real, weightMoved: real, newStock: real, weightAfter: real, warning: bool)

  function ConversionDisplay(f: AdjustmentForm, selected: Option<Product>): Option<Conversion>
  {
    if selected.None? || f.quantity == "" then None
    else
      var p := selected.value;
      var qty := ParseText(f.quantity);
      var n := Normalized(p, Fin(qty), f.unit);
      var newStock := if f.kind == "in" then p.stock + n else p.stock - n;
      Some(Conversion(qty, n, n * Weight(p), newStock, newStock * Weight(p), newStock < 0.0))
  }

  /** For an exit of a positive quantity from a stored product, the store
      refuses the request exactly when the preview warns. */
  lemma PreviewAgreesWithStore(l: Ledger, f: AdjustmentForm, p: Product, plots: seq<Plot>)
    requires FindProduct(l.products, p.id) == Some(p)
    requires f.kind == "out" && f.quantity != "" && ParseText(f.quantity) > 0.0
    ensures ConversionDisplay(f, Some(p)).Some? && Submission(f, Some(p), plots).Some?
    ensures Accepted(l, Submission(f, Some(p), plots).value) <==> !ConversionDisplay(f, Some(p)).value.warning
  {
    SubmissionSpec(f, Some(p), plots);
  }

  /** An entry of a positive quantity on a stored product is always taken. */
  lemma EntriesAccepted(l: Ledger, f: AdjustmentForm, p: Product, plots: seq<Plot>)
    requires FindProduct(l.products, p.id) == Some(p)
    requires f.kind == "in" && f.quantity != "" && ParseText(f.quantity) > 0.0
    ensures Submission(f, Some(p), plots).Some? && Accepted(l, Submission(f, Some(p), plots).value)
  {
    SubmissionSpec(f, Some(p), plots);
  }

  // ---------------------------------------------------------------- page

  class InventoryPageView {
    const store: AppStore
    var searchTerm: string
    var stockStatusFilter: string
    var historyFilter: string
    var isAdjustmentModalOpen: bool
    var selectedProduct: Option<Product>
    var form: AdjustmentForm

    /** The page opens with every filter at 'all', the modal closed and the
        form at today's date and the settings' user. */
    constructor (store: AppStore, today: string)
      ensures this.store == store
      ensures searchTerm == "" && stockStatusFilter == "all" && historyFilter == "all"
      ensures !isAdjustmentModalOpen && selectedProduct.None?
      ensures form == AdjustmentForm("in", "", "", "", "", "", today, store.userName, "")
    {
      this.store := store;
      searchTerm, stockStatusFilter, historyFilter := "", "all", "all";
      isAdjustmentModalOpen, selectedProduct := false, None;
      form := AdjustmentForm("in", "", "", "", "", "", today, store.userName, "");
    }

    /** The list on screen. */
    function ShownProducts(): seq<Product>
      reads this, store
    {
      FilteredProducts(store.products, searchTerm, stockStatusFilter)
    }

    /** The history on screen. */
    function ShownMovements(): seq<StockMovement>
      reads this, store
    {
      FilteredMovements(store.stockMovements, historyFilter)
    }

    /** openAdjustment for an entry or an exit button; the suggestion then
        runs on a blank quantity and leaves the cost blank. */
    method OpenAdjustment(product: Product, kind: string, today: string)
      modifies this
      ensures selectedProduct == Some(product) && isAdjustmentModalOpen
      ensures form == OpenedForm(product, kind, today, store.userName)
      ensures SuggestedCost(form, selectedProduct, CostFillAsWritten) == form.cost
      ensures searchTerm == old(searchTerm) && stockStatusFilter == old(stockStatusFilter) &&
        historyFilter == old(historyFilter)
    {
      selectedProduct := Some(product);
      form := OpenedForm(product, kind, today, store.userName);
      isAdjustmentModalOpen := true;
    }

    /** An input of the modal. When a watched input changes, the cost
        suggestion runs on the new form, with the fill as written. */
    method Enter(input: AdjustmentInput, typed: string)
      modifies this
      ensures var f := Entered(old(form), input, typed);
        form == if Watched(input) && f != old(form) then f.(cost := SuggestedCost(f, selectedProduct, CostFillAsWritten)) else f
      ensures selectedProduct == old(selectedProduct) && isAdjustmentModalOpen == old(isAdjustmentModalOpen)
      ensures searchTerm == old(searchTerm) && stockStatusFilter == old(stockStatusFilter) &&
        historyFilter == old(historyFilter)
    {
      var f := Entered(form, input, typed);
      if Watched(input) && f != form {
        f := f.(cost := SuggestedCost(f, selectedProduct, CostFillAsWritten));
      }
      form := f;
    }

    /** closeModal. */
    method CloseModal()
      modifies this
      ensures !isAdjustmentModalOpen && selectedProduct.None? && form == old(form)
      ensures searchTerm == old(searchTerm) && stockStatusFilter == old(stockStatusFilter) &&
        historyFilter == old(historyFilter)
    {
      isAdjustmentModalOpen, selectedProduct := false, None;
    }

    /** handleStockAdjustmentSubmit: the store adjusts as Submission says and
        the modal closes; with no product or no quantity nothing happens. */
    method SubmitAdjustment(c: Clock)
      modifies this, store
      ensures var r := Submission(old(form), old(selectedProduct), old(store.plots));
        if r.None? then
          store.Contents() == old(store.Contents()) && isAdjustmentModalOpen == old(isAdjustmentModalOpen) &&
          selectedProduct == old(selectedProduct)
        else
          store.Contents() == WithLedger(old(store.Contents()), Adjust(old(store.State()), r.value, c, old(store.userName))) &&
          !isAdjustmentModalOpen && selectedProduct.None?
      ensures form == old(form)
      ensures searchTerm == old(searchTerm) && stockStatusFilter == old(stockStatusFilter) &&
        historyFilter == old(historyFilter)
    {
      var r := Submission(form, selectedProduct, store.plots);
      if r.Some? {
        store.HandleStockAdjustment(r.value, c);
        isAdjustmentModalOpen, selectedProduct := false, None;
      }
    }
  }
}
