// src/contexts/AppContext.tsx: the shared store of every list the pages
// edit, the stock adjustment that every stock change goes through, and the
// bounded activity log.

module AppContext {
  import opened Seqs
  import opened Text
  import opened Js
  import opened Records
  import Format
  import opened Units

  // ---------------------------------------------------------- activity log

  const MaxActivities := 20

  /** [a, ...log].slice(0, 20). */
  function LogActivity(log: seq<Activity>, a: Activity): (r: seq<Activity>)
  {
    var all := [a] + log;
    if |all| <= MaxActivities then all else all[..MaxActivities]
  }

  /** The new entry comes first, at most 20 entries are kept, and what is kept
      of the old log is its newest part in order. */
  lemma LogActivitySpec(log: seq<Activity>, a: Activity)
    ensures |LogActivity(log, a)| == if |log| < MaxActivities then |log| + 1 else MaxActivities
    ensures LogActivity(log, a)[0] == a
    ensures LogActivity(log, a)[1..] == log[..|LogActivity(log, a)| - 1]
  {
  }

  // ----------------------------------------------------- stock adjustment

  /** The parameters of handleStockAdjustment. A missing unit, date or
      customUser is "". */
  datatype AdjustRequest = AdjustRequest(
    productId: int, kind: string, quantity: Value, reason: string, unit: string,
    batch: string, cost: Num, updatePrice: bool, date: string, customUser: string,
    appId: Option<int>)

  /** The three lists the adjustment replaces. */
  datatype Ledger = Ledger(products: seq<Product>, movements: seq<StockMovement>, activities: seq<Activity>)

  /** products.find(p => p.id === id) */
  function FindProduct(ps: seq<Product>, id: int): (r: Option<Product>)
    ensures r.Some? ==> r.value in ps && r.value.id == id
    ensures r.None? ==> forall i :: 0 <= i < |ps| ==> ps[i].id != id
  {
    if ps == [] then None else if ps[0].id == id then Some(ps[0]) else FindProduct(ps[1..], id)
  }

  /** 'critical' at or below half the minimum, else 'low' at or below the
      minimum, else 'ok'. */
  function StatusFor(stock: real, minStock: real): (s: string)
    ensures s == "critical" <==> stock <= minStock / 2.0
    ensures s == "low" <==> minStock / 2.0 < stock <= minStock
    ensures s == "ok" <==> stock > minStock && stock > minStock / 2.0
  {
    if stock <= minStock / 2.0 then "critical" else if stock <= minStock then "low" else "ok"
  }

  /** The stock a movement of this kind would leave. Any kind other than 'in'
      subtracts. */
  function StockAfter(stock: real, kind: string, n: real): real
  {
    if kind == "in" then stock + n else stock - n
  }

  /** The parsed quantity of the request, when it is a positive number. */
  function ValidQuantity(r: AdjustRequest): Option<real>
  {
    var q := Format.ParseValue(r.quantity);
    if q.NaN? || q.val <= 0.0 then None else Some(q.val)
  }

  /** The adjustment goes through: the product exists, the quantity is a
      positive number and an 'out' does not take the stock below zero. */
  predicate Accepted(l: Ledger, r: AdjustRequest)
  {
    FindProduct(l.products, r.productId).Some? && ValidQuantity(r).Some? &&
    var p := FindProduct(l.products, r.productId).value;
    var n := Normalized(p, Fin(ValidQuantity(r).value), r.unit);
    !(r.kind == "out" && StockAfter(p.stock, r.kind, n) < 0.0)
  }

  /** The date recorded on a movement. */
  function MovementDate(date: string, c: Clock): string
  {
    if date == "" then c.iso else if Contains(date, "T") then date else date + "T" + c.time
  }

  /** Every product with this id gets the new stock, status and price. */
  function SetStock(ps: seq<Product>, id: int, stock: real, status: string, price: real): (r: seq<Product>)
    ensures |r| == |ps|
    ensures forall i :: 0 <= i < |ps| ==>
      r[i] == if ps[i].id == id then ps[i].(stock := stock, status := status, price := price) else ps[i]
  {
    if ps == [] then []
    else
      var p := if ps[0].id == id then ps[0].(stock := stock, status := status, price := price) else ps[0];
      [p] + SetStock(ps[1..], id, stock, status, price)
  }

  /** The price after an adjustment of n product units: cost per unit for a
      priced entry. */
  function NewPrice(p: Product, r: AdjustRequest, n: real): real
    requires n != 0.0
  {
    if r.kind == "in" && r.updatePrice && r.cost.Fin? && r.cost.val > 0.0 then r.cost.val / n
    else p.price
  }

  /** handleStockAdjustment. userName is settings.userName. */
  function Adjust(l: Ledger, r: AdjustRequest, c: Clock, userName: string): Ledger
  {
    if !Accepted(l, r) then l
    else
      var p := FindProduct(l.products, r.productId).value;
      var q := ValidQuantity(r).value;
      var n := Normalized(p, Fin(q), r.unit);
      NormalizedNonZero(p, q, r.unit);
      var stock := StockAfter(p.stock, r.kind, n);
      var shownUnit := if r.unit == "" then p.unit else r.unit;
      var m := StockMovement(c.now, r.productId, p.name, r.kind, q, shownUnit, n,
        MovementDate(r.date, c), r.reason, if r.customUser == "" then userName else r.customUser,
        r.batch, r.cost, r.appId);
      var a := Activity(c.now, if r.kind == "in" then "Entrada de estoque" else "Saída de estoque",
        p.name + " (" + NumberToString(q) + " " + shownUnit + ")", c.iso,
        if r.kind == "in" then "income" else "expense");
      Ledger(SetStock(l.products, p.id, stock, StatusFor(stock, p.minStock), NewPrice(p, r, n)),
        [m] + l.movements, LogActivity(l.activities, a))
  }

  /** A rejected adjustment changes nothing; an accepted one prepends exactly
      one movement, so the two cases are told apart by the movement count. */
  lemma AdjustGuard(l: Ledger, r: AdjustRequest, c: Clock, u: string)
    ensures !Accepted(l, r) ==> Adjust(l, r, c, u) == l
    ensures Accepted(l, r) ==> |Adjust(l, r, c, u).movements| == |l.movements| + 1
    ensures Accepted(l, r) ==> Adjust(l, r, c, u).movements[1..] == l.movements
  {
  }

  /** The rejection reasons one by one. */
  lemma AdjustRejections(l: Ledger, r: AdjustRequest)
    ensures FindProduct(l.products, r.productId).None? ==> !Accepted(l, r)
    ensures Format.ParseValue(r.quantity).NaN? ==> !Accepted(l, r)
    ensures Format.ParseValue(r.quantity).Fin? && Format.ParseValue(r.quantity).val <= 0.0 ==> !Accepted(l, r)
  {
  }

  /** The movement an accepted adjustment records: the product, the kind,
      the raw and the converted quantity, the unit shown, the date, reason,
      operator (the user's name when none is typed), batch, cost and
      application. */
  lemma AdjustMovement(l: Ledger, r: AdjustRequest, c: Clock, u: string)
    requires Accepted(l, r)
    ensures var m := Adjust(l, r, c, u).movements[0];
      var p := FindProduct(l.products, r.productId).value;
      m.productId == r.productId && m.kind == r.kind && m.appId == r.appId &&
      m.quantity == ValidQuantity(r).value &&
      m.realChange == Normalized(p, Fin(ValidQuantity(r).value), r.unit) &&
      m.quantityUnit == (if r.unit == "" then p.unit else r.unit)
    ensures var m := Adjust(l, r, c, u).movements[0];
      m.id == c.now && m.productName == FindProduct(l.products, r.productId).value.name &&
      m.date == MovementDate(r.date, c) && m.reason == r.reason &&
      m.user == (if r.customUser == "" then u else r.customUser) &&
      m.batch == r.batch && m.cost == r.cost
  {
  }

  /** Only the products with the requested id change, and they get the new
      stock and its status; their price is the subject of AdjustPrice. */
  lemma AdjustProducts(l: Ledger, r: AdjustRequest, c: Clock, u: string, i: nat)
    requires Accepted(l, r) && i < |l.products|
    ensures |Adjust(l, r, c, u).products| == |l.products|
    ensures l.products[i].id != r.productId ==> Adjust(l, r, c, u).products[i] == l.products[i]
    ensures l.products[i].id == r.productId ==>
      var p := FindProduct(l.products, r.productId).value;
      var s := StockAfter(p.stock, r.kind, Normalized(p, Fin(ValidQuantity(r).value), r.unit));
      var q := Adjust(l, r, c, u).products[i];
      q == l.products[i].(stock := s, status := StatusFor(s, p.minStock), price := q.price)
  {
  }

  /** The adjusted product's price is the price rule's one for the converted
      quantity, which is never zero. */
  lemma AdjustPrice(l: Ledger, r: AdjustRequest, c: Clock, u: string, i: nat)
    requires Accepted(l, r) && i < |l.products| && l.products[i].id == r.productId
    ensures var p := FindProduct(l.products, r.productId).value;
      var n := Normalized(p, Fin(ValidQuantity(r).value), r.unit);
      n != 0.0 && Adjust(l, r, c, u).products[i].price == NewPrice(p, r, n)
  {
    NormalizedNonZero(FindProduct(l.products, r.productId).value, ValidQuantity(r).value, r.unit);
  }

  /** The price becomes cost per converted unit only for a priced entry with a
      positive cost; otherwise it stays. */
  lemma NewPriceRule(p: Product, r: AdjustRequest, n: real)
    requires n != 0.0
    ensures r.kind == "in" && r.updatePrice && r.cost.Fin? && r.cost.val > 0.0 ==>
      NewPrice(p, r, n) * n == r.cost.val
    ensures !(r.kind == "in" && r.updatePrice && r.cost.Fin? && r.cost.val > 0.0) ==> NewPrice(p, r, n) == p.price
  {
    if r.kind == "in" && r.updatePrice && r.cost.Fin? && r.cost.val > 0.0 {
      DivMul(r.cost.val, n);
    }
  }

  lemma DivMul(a: real, b: real)
    requires b != 0.0
    ensures (a / b) * b == a
  {
  }

  /** An accepted 'out' never leaves negative stock. */
  lemma AdjustOutNonNegative(l: Ledger, r: AdjustRequest)
    requires Accepted(l, r) && r.kind == "out"
    ensures var p := FindProduct(l.products, r.productId).value;
      StockAfter(p.stock, r.kind, Normalized(p, Fin(ValidQuantity(r).value), r.unit)) >= 0.0
  {
  }

  // ---------------------------------------------------------------- store

  /** handleStockAdjustment called from a handler whose closure holds the
      lists of the render it belongs to, `seen`, while `cur` holds what the
      handler's earlier setter calls wrote: the checks and the new lists are
      computed from `seen`, and an accepted adjustment writes them over `cur`
      (setProducts, setStockMovements and addActivity are plain setters); a
      refused one writes nothing. */
  function AdjustAsRendered(cur: Ledger, seen: Ledger, r: AdjustRequest, c: Clock, u: string): Ledger
  {
    if Accepted(seen, r) then Adjust(seen, r, c, u) else cur
  }

  /** Called first in a handler, it is the adjustment itself; an accepted
      one discards whatever the handler wrote before it. */
  lemma AdjustAsRenderedFresh(cur: Ledger, l: Ledger, r: AdjustRequest, c: Clock, u: string)
    ensures AdjustAsRendered(l, l, r, c, u) == Adjust(l, r, c, u)
    ensures Accepted(l, r) ==> AdjustAsRendered(cur, l, r, c, u) == Adjust(l, r, c, u)
    ensures !Accepted(l, r) ==> AdjustAsRendered(cur, l, r, c, u) == cur
  {
    AdjustGuard(l, r, c, u);
  }

  /** Every list of the context at one moment, with the user name the
      handlers stamp on movements. */
  datatype Lists = Lists(
    tasks: seq<Task>, products: seq<Product>, movements: seq<StockMovement>,
    clients: seq<Client>, suppliers: seq<Supplier>, collaborators: seq<Collaborator>,
    transactions: seq<Transaction>, properties: seq<Property>, plots: seq<Plot>,
    applications: seq<FieldApplication>, activities: seq<Activity>, userName: string)

  function LedgerOf(s: Lists): Ledger
  {
    Ledger(s.products, s.movements, s.activities)
  }

  /** s with its ledger lists replaced by l's and every other list kept. */
  function WithLedger(s: Lists, l: Ledger): (r: Lists)
    ensures LedgerOf(r) == l
  {
    s.(products := l.products, movements := l.movements, activities := l.activities)
  }

  class AppStore {
    var tasks: seq<Task>
    var products: seq<Product>
    var stockMovements: seq<StockMovement>
    var clients: seq<Client>
    var suppliers: seq<Supplier>
    var collaborators: seq<Collaborator>
    var transactions: seq<Transaction>
    var properties: seq<Property>
    var plots: seq<Plot>
    var fieldApplications: seq<FieldApplication>
    var activities: seq<Activity>
    var userName: string

    /** Every list starts empty; the user name is the settings' one. */
    constructor (userName: string)
      ensures Contents() == Lists([], [], [], [], [], [], [], [], [], [], [], userName)
    {
      tasks, products, stockMovements, clients := [], [], [], [];
      suppliers, collaborators, transactions, properties := [], [], [], [];
      plots, fieldApplications, activities := [], [], [];
      this.userName := userName;
    }

    function Contents(): Lists
      reads this
    {
      Lists(tasks, products, stockMovements, clients, suppliers, collaborators, transactions,
        properties, plots, fieldApplications, activities, userName)
    }

    function State(): Ledger
      reads this
      ensures State() == LedgerOf(Contents())
    {
      Ledger(products, stockMovements, activities)
    }

    /** addActivity(action, target, type). */
    method AddActivity(action: string, target: string, kind: string, c: Clock)
      modifies this
      ensures Contents() == old(Contents()).(activities :=
        LogActivity(old(activities), Activity(c.now, action, target, c.iso, kind)))
    {
      activities := LogActivity(activities, Activity(c.now, action, target, c.iso, kind));
    }

    /** addActivity(action, target, type) called from a handler whose
        closure saw the log `seen`. */
    method AddActivityAsRendered(seen: seq<Activity>, action: string, target: string, kind: string, c: Clock)
      modifies this
      ensures Contents() == old(Contents()).(activities :=
        LogActivity(seen, Activity(c.now, action, target, c.iso, kind)))
    {
      activities := LogActivity(seen, Activity(c.now, action, target, c.iso, kind));
    }

    /** handleStockAdjustment(params) called from a handler whose closure saw
        the lists `seen`. */
    method HandleStockAdjustmentAsRendered(seen: Ledger, r: AdjustRequest, c: Clock)
      modifies this
      ensures Contents() == WithLedger(old(Contents()), AdjustAsRendered(old(State()), seen, r, c, userName))
    {
      var l := AdjustAsRendered(State(), seen, r, c, userName);
      products, stockMovements, activities := l.products, l.movements, l.activities;
    }

    /** handleStockAdjustment(params). */
    method HandleStockAdjustment(r: AdjustRequest, c: Clock)
      modifies this
      ensures Contents() == WithLedger(old(Contents()), Adjust(old(State()), r, c, userName))
    {
      var l := Adjust(State(), r, c, userName);
      products, stockMovements, activities := l.products, l.movements, l.activities;
    }
  }
}
