// src/pages/field/FieldApplicationsPage.tsx: the spray mix of a field
// application, its stock exits through the shared adjustment, and the
// deletion that puts back the stock its tagged movements took.

module FieldApplications {
  import opened Seqs
  import IdLists
  import opened Text
  import opened Js
  import opened Records
  import opened Units
  import opened AppContext

  // ------------------------------------------------- movements of an application

  /** m => m.appId === id */
  function OfApp(id: int): StockMovement -> bool
  {
    (m: StockMovement) => m.appId == Some(id)
  }

  /** m => m.appId !== id */
  function NotOfApp(id: int): StockMovement -> bool
  {
    (m: StockMovement) => m.appId != Some(id)
  }

  /** The stock change a movement recorded: an 'in' added its realChange, any
      other kind took it away. */
  function Delta(m: StockMovement): real
  {
    if m.kind == "in" then m.realChange else -m.realChange
  }

  /** What deleting the application adds back for a movement: the realChange
      of an 'out', minus the realChange of anything else. */
  function Undo(m: StockMovement): real
  {
    if m.kind == "out" then m.realChange else -m.realChange
  }

  /** The changes of the movements of product pid. */
  function DeltaOf(pid: int): StockMovement -> real
  {
    (m: StockMovement) => if m.productId == pid then Delta(m) else 0.0
  }

  function UndoOf(pid: int): StockMovement -> real
  {
    (m: StockMovement) => if m.productId == pid then Undo(m) else 0.0
  }

  /** Every movement is an 'in' or an 'out'. */
  predicate InOut(ms: seq<StockMovement>)
  {
    forall j :: 0 <= j < |ms| ==> ms[j].kind == "in" || ms[j].kind == "out"
  }

  /** For 'in' and 'out' movements the undo is exactly the opposite change. */
  lemma {:induction false} UndoCancels(ms: seq<StockMovement>, pid: int)
    requires InOut(ms)
    ensures Sum(ms, UndoOf(pid)) == -Sum(ms, DeltaOf(pid))
  {
    if ms != [] {
      assert InOut(ms[1..]) by {
        forall j | 0 <= j < |ms[1..]| ensures ms[1..][j].kind == "in" || ms[1..][j].kind == "out" {
          assert ms[1..][j] == ms[j + 1];
        }
      }
      UndoCancels(ms[1..], pid);
    }
  }

  // ------------------------------------------------------ deleteApplication

  /** products.findIndex(p => p.id === id) */
  function FirstIndex(ps: seq<Product>, id: int): (r: Option<nat>)
    ensures r.Some? ==> r.value < |ps| && ps[r.value].id == id
    ensures r.Some? ==> forall j :: 0 <= j < r.value ==> ps[j].id != id
    ensures r.None? ==> forall j :: 0 <= j < |ps| ==> ps[j].id != id
  {
    if ps == [] then None
    else if ps[0].id == id then Some(0)
    else
      var k := FirstIndex(ps[1..], id);
      if k.Some? then Some(k.value + 1) else None
  }

  /** One step of the forEach: the first product with the movement's id gets
      the undo added to its stock. */
  function ReverseOne(ps: seq<Product>, m: StockMovement): seq<Product>
  {
    var k := FirstIndex(ps, m.productId);
    if k.None? then ps
    else ps[k.value := ps[k.value].(stock := ps[k.value].stock + Undo(m))]
  }

  /** The forEach over the movements to delete, in their order. */
  function ReverseAll(ps: seq<Product>, ms: seq<StockMovement>): seq<Product>
    decreases |ms|
  {
    if ms == [] then ps else ReverseOne(ReverseAll(ps, ms[..|ms| - 1]), ms[|ms| - 1])
  }

  /** The ledger after deleteApplication: every movement of the application
      undone and removed; nothing happens when it has none. */
  function DeleteApp(l: Ledger, id: int): Ledger
  {
    var doomed := Filter(l.movements, OfApp(id));
    if |doomed| > 0 then
      Ledger(ReverseAll(l.products, doomed), Filter(l.movements, NotOfApp(id)), l.activities)
    else l
  }

  /** With unique ids a step changes only the stock of the matching product. */
  lemma ReverseOneShape(ps: seq<Product>, m: StockMovement, i: nat)
    requires UniqueIds(ps, (p: Product) => p.id) && i < |ps|
    ensures |ReverseOne(ps, m)| == |ps|
    ensures ReverseOne(ps, m)[i] == ps[i].(stock := ps[i].stock + UndoOf(ps[i].id)(m))
  {
  }

  /** Each product's stock grows by the undo of its own movements, and nothing
      else about any product changes. */
  lemma {:induction false} ReverseAllStock(ps: seq<Product>, ms: seq<StockMovement>)
    requires UniqueIds(ps, (p: Product) => p.id)
    ensures |ReverseAll(ps, ms)| == |ps|
    ensures forall i :: 0 <= i < |ps| ==>
      ReverseAll(ps, ms)[i] == ps[i].(stock := ps[i].stock + Sum(ms, UndoOf(ps[i].id)))
    decreases |ms|
  {
    if ms != [] {
      var init, last := ms[..|ms| - 1], ms[|ms| - 1];
      ReverseAllStock(ps, init);
      var qs := ReverseAll(ps, init);
      assert ReverseAll(ps, ms) == ReverseOne(qs, last);
      assert ms == init + [last];
      SameIdsUnique(ps, qs);
      forall i | 0 <= i < |ps|
        ensures ReverseAll(ps, ms)[i] == ps[i].(stock := ps[i].stock + Sum(ms, UndoOf(ps[i].id)))
      {
        ReverseOneShape(qs, last, i);
        SumLast(init, last, UndoOf(ps[i].id));
      }
    }
  }

  lemma SameIdsUnique(ps: seq<Product>, qs: seq<Product>)
    requires UniqueIds(ps, (p: Product) => p.id)
    requires |qs| == |ps| && forall i :: 0 <= i < |ps| ==> qs[i].id == ps[i].id
    ensures UniqueIds(qs, (p: Product) => p.id)
  {
    forall i, j | 0 <= i < j < |qs| ensures qs[i].id != qs[j].id {
      assert qs[i].id == ps[i].id && qs[j].id == ps[j].id;
    }
  }

  lemma SumLast(init: seq<StockMovement>, last: StockMovement, f: StockMovement -> real)
    ensures Sum(init + [last], f) == Sum(init, f) + f(last)
  {
    SumAppend(init, [last], f);
    assert Sum([last], f) == f(last);
  }

  // ---------------------------------------- adjustments tagged by an application

  /** The stock of product i net of what the application's movements changed. */
  function Net(l: Ledger, id: int, i: nat): real
    requires i < |l.products|
  {
    l.products[i].stock - Sum(Filter(l.movements, OfApp(id)), DeltaOf(l.products[i].id))
  }

  /** b differs from a at most in stock, status and price. */
  predicate Restocked(a: Product, b: Product)
  {
    b == a.(stock := b.stock, status := b.status, price := b.price)
  }

  /** l2 is l1 after adjustments tagged with id: the same products apart from
      stock, status and price, the same net stock, the same untagged
      movements, and tagged movements that stay 'in' or 'out'. */
  predicate Shadows(l1: Ledger, l2: Ledger, id: int)
  {
    |l2.products| == |l1.products| &&
    (forall i :: 0 <= i < |l1.products| ==> Restocked(l1.products[i], l2.products[i])) &&
    (forall i :: 0 <= i < |l1.products| ==> Net(l2, id, i) == Net(l1, id, i)) &&
    Filter(l2.movements, NotOfApp(id)) == Filter(l1.movements, NotOfApp(id)) &&
    (InOut(Filter(l1.movements, OfApp(id))) ==> InOut(Filter(l2.movements, OfApp(id))))
  }

  /** The adjustments, one after the other. */
  function ApplyAll(l: Ledger, rs: seq<AdjustRequest>, c: Clock, u: string): Ledger
    decreases |rs|
  {
    if rs == [] then l else Adjust(ApplyAll(l, rs[..|rs| - 1], c, u), rs[|rs| - 1], c, u)
  }

  /** The adjustments of one handler as the page runs them: every call reads
      the lists of the handler's render, `seen`, so each accepted adjustment
      overwrites what the previous one wrote, and a refused one writes
      nothing. */
  function ApplyAllAsRendered(cur: Ledger, seen: Ledger, rs: seq<AdjustRequest>, c: Clock, u: string): Ledger
    decreases |rs|
  {
    if rs == [] then cur
    else AdjustAsRendered(ApplyAllAsRendered(cur, seen, rs[..|rs| - 1], c, u), seen, rs[|rs| - 1], c, u)
  }

  /** A run of plain setter calls, each of which either writes its own
      value or writes nothing: what is left is the value of the last call
      that writes, or cur when none does. */
  function LastWrite<T, W>(cur: W, rs: seq<T>, writes: T -> bool, value: T -> W): W
    decreases |rs|
  {
    if rs == [] then cur
    else if writes(rs[|rs| - 1]) then value(rs[|rs| - 1])
    else LastWrite(cur, rs[..|rs| - 1], writes, value)
  }

  lemma {:induction false} LastWriteNone<T, W>(cur: W, rs: seq<T>, writes: T -> bool, value: T -> W)
    requires forall k :: 0 <= k < |rs| ==> !writes(rs[k])
    ensures LastWrite(cur, rs, writes, value) == cur
    decreases |rs|
  {
    if rs != [] {
      var init := rs[..|rs| - 1];
      assert forall k :: 0 <= k < |init| ==> init[k] == rs[k];
      LastWriteNone(cur, init, writes, value);
    }
  }

  lemma {:induction false} LastWriteWins<T, W>(cur: W, rs: seq<T>, writes: T -> bool, value: T -> W, k: nat)
    requires k < |rs| && writes(rs[k])
    requires forall j :: k < j < |rs| ==> !writes(rs[j])
    ensures LastWrite(cur, rs, writes, value) == value(rs[k])
    decreases |rs|
  {
    var n := |rs| - 1;
    if k < n {
      var init := rs[..n];
      assert forall j :: 0 <= j < n ==> init[j] == rs[j];
      LastWriteWins(cur, init, writes, value, k);
    }
  }

  function AcceptedBy(seen: Ledger): AdjustRequest -> bool
  {
    r => Accepted(seen, r)
  }

  function AdjustedBy(seen: Ledger, c: Clock, u: string): AdjustRequest -> Ledger
  {
    r => Adjust(seen, r, c, u)
  }

  /** The exits as rendered are a run of plain setter calls: an exit writes
      when the render's stock allows it, and writes its adjustment of the
      render's lists. */
  lemma {:induction false} ApplyAllAsRenderedIsLastWrite(cur: Ledger, seen: Ledger, rs: seq<AdjustRequest>, c: Clock, u: string)
    ensures ApplyAllAsRendered(cur, seen, rs, c, u) == LastWrite(cur, rs, AcceptedBy(seen), AdjustedBy(seen, c, u))
    decreases |rs|
  {
    if rs != [] {
      var n := |rs| - 1;
      ApplyAllAsRenderedIsLastWrite(cur, seen, rs[..n], c, u);
      assert AcceptedBy(seen)(rs[n]) == Accepted(seen, rs[n]);
      assert AdjustedBy(seen, c, u)(rs[n]) == Adjust(seen, rs[n], c, u);
    }
  }

  /** With no request accepted against the render, the lists are left as
      the handler had them. */
  lemma ApplyAllAsRenderedNone(cur: Ledger, seen: Ledger, rs: seq<AdjustRequest>, c: Clock, u: string)
    requires forall k :: 0 <= k < |rs| ==> !Accepted(seen, rs[k])
    ensures ApplyAllAsRendered(cur, seen, rs, c, u) == cur
  {
    ApplyAllAsRenderedIsLastWrite(cur, seen, rs, c, u);
    LastWriteNone(cur, rs, AcceptedBy(seen), AdjustedBy(seen, c, u));
  }

  /** The last write wins: when request k is the last one accepted against
      the render, the lists are exactly what it computes from the render
      alone, whatever the requests before it did. */
  lemma ApplyAllAsRenderedLastWins(cur: Ledger, seen: Ledger, rs: seq<AdjustRequest>, c: Clock, u: string, k: nat)
    requires k < |rs| && Accepted(seen, rs[k])
    requires forall j :: k < j < |rs| ==> !Accepted(seen, rs[j])
    ensures ApplyAllAsRendered(cur, seen, rs, c, u) == Adjust(seen, rs[k], c, u)
  {
    ApplyAllAsRenderedIsLastWrite(cur, seen, rs, c, u);
    LastWriteWins(cur, rs, AcceptedBy(seen), AdjustedBy(seen, c, u), k);
  }

  /** An adjustment request of this application. */
  predicate TaggedRequest(r: AdjustRequest, id: int)
  {
    r.appId == Some(id) && (r.kind == "in" || r.kind == "out")
  }

  lemma FindProductUnique(ps: seq<Product>, i: nat)
    requires UniqueIds(ps, (p: Product) => p.id) && i < |ps|
    ensures FindProduct(ps, ps[i].id) == Some(ps[i])
  {
    var f := FindProduct(ps, ps[i].id);
    assert f.Some?;
    var j :| 0 <= j < |ps| && ps[j] == f.value;
  }

  /** Prepending a tagged movement adds its change to the tagged sum. */
  lemma TaggedPrepend(m: StockMovement, ms: seq<StockMovement>, id: int, pid: int)
    requires m.appId == Some(id)
    ensures Filter([m] + ms, OfApp(id)) == [m] + Filter(ms, OfApp(id))
    ensures Filter([m] + ms, NotOfApp(id)) == Filter(ms, NotOfApp(id))
    ensures Sum(Filter([m] + ms, OfApp(id)), DeltaOf(pid)) == DeltaOf(pid)(m) + Sum(Filter(ms, OfApp(id)), DeltaOf(pid))
  {
    assert ([m] + ms)[1..] == ms;
    assert ([m] + Filter(ms, OfApp(id)))[1..] == Filter(ms, OfApp(id));
  }

  /** A tagged adjustment of a ledger with unique product ids keeps the net
      stock of every product. */
  lemma AdjustShadows(l: Ledger, r: AdjustRequest, c: Clock, u: string, id: int)
    requires UniqueIds(l.products, (p: Product) => p.id) && TaggedRequest(r, id)
    ensures Shadows(l, Adjust(l, r, c, u), id)
  {
    var l2 := Adjust(l, r, c, u);
    if Accepted(l, r) {
      AdjustGuard(l, r, c, u);
      AdjustMovement(l, r, c, u);
      var m := l2.movements[0];
      assert l2.movements == [m] + l.movements;
      forall i | 0 <= i < |l.products|
        ensures Restocked(l.products[i], l2.products[i]) && Net(l2, id, i) == Net(l, id, i)
      {
        AdjustShadowsAt(l, r, c, u, id, i);
      }
      TaggedPrepend(m, l.movements, id, 0);
      InOutPrepend(m, Filter(l.movements, OfApp(id)));
    }
  }

  lemma AdjustShadowsAt(l: Ledger, r: AdjustRequest, c: Clock, u: string, id: int, i: nat)
    requires UniqueIds(l.products, (p: Product) => p.id) && TaggedRequest(r, id)
    requires Accepted(l, r) && i < |l.products|
    ensures |Adjust(l, r, c, u).products| == |l.products|
    ensures Restocked(l.products[i], Adjust(l, r, c, u).products[i])
    ensures Net(Adjust(l, r, c, u), id, i) == Net(l, id, i)
  {
    var l2 := Adjust(l, r, c, u);
    AdjustGuard(l, r, c, u);
    AdjustMovement(l, r, c, u);
    var m := l2.movements[0];
    assert l2.movements == [m] + l.movements;
    TaggedPrepend(m, l.movements, id, l.products[i].id);
    AdjustProducts(l, r, c, u, i);
    if l.products[i].id == r.productId {
      FindProductUnique(l.products, i);
    }
  }

  lemma InOutPrepend(m: StockMovement, ms: seq<StockMovement>)
    requires m.kind == "in" || m.kind == "out"
    ensures InOut(ms) ==> InOut([m] + ms)
  {
  }

  lemma ShadowsTrans(l1: Ledger, l2: Ledger, l3: Ledger, id: int)
    requires Shadows(l1, l2, id) && Shadows(l2, l3, id)
    ensures Shadows(l1, l3, id)
  {
    forall i | 0 <= i < |l1.products| ensures Restocked(l1.products[i], l3.products[i]) {
      assert Restocked(l1.products[i], l2.products[i]) && Restocked(l2.products[i], l3.products[i]);
    }
    forall i | 0 <= i < |l1.products| ensures Net(l3, id, i) == Net(l1, id, i) {
      assert Net(l3, id, i) == Net(l2, id, i);
    }
  }

  lemma ShadowsSelf(l: Ledger, id: int)
    ensures Shadows(l, l, id)
  {
  }

  /** Restocked products keep their ids, so unique ids stay unique. */
  lemma ShadowsUnique(l1: Ledger, l2: Ledger, id: int)
    requires Shadows(l1, l2, id) && UniqueIds(l1.products, (p: Product) => p.id)
    ensures UniqueIds(l2.products, (p: Product) => p.id)
  {
    forall i, j | 0 <= i < j < |l2.products| ensures l2.products[i].id != l2.products[j].id {
      assert Restocked(l1.products[i], l2.products[i]) && Restocked(l1.products[j], l2.products[j]);
    }
  }

  /** Any run of tagged adjustments keeps the net stock of every product. */
  lemma {:induction false} ApplyAllShadows(l: Ledger, rs: seq<AdjustRequest>, c: Clock, u: string, id: int)
    requires UniqueIds(l.products, (p: Product) => p.id)
    requires forall k :: 0 <= k < |rs| ==> TaggedRequest(rs[k], id)
    ensures Shadows(l, ApplyAll(l, rs, c, u), id)
    decreases |rs|
  {
    if rs == [] {
      ShadowsSelf(l, id);
    } else {
      var init := rs[..|rs| - 1];
      ApplyAllShadows(l, init, c, u, id);
      var mid := ApplyAll(l, init, c, u);
      ShadowsUnique(l, mid, id);
      AdjustShadows(mid, rs[|rs| - 1], c, u, id);
      ShadowsTrans(l, mid, Adjust(mid, rs[|rs| - 1], c, u), id);
    }
  }

  /** Deleting the application leaves every product with its net stock,
      provided its movements are all 'in' or 'out'. */
  lemma DeleteAppNet(l: Ledger, id: int, i: nat)
    requires UniqueIds(l.products, (p: Product) => p.id) && InOut(Filter(l.movements, OfApp(id)))
    requires i < |l.products|
    ensures |DeleteApp(l, id).products| == |l.products|
    ensures DeleteApp(l, id).products[i] == l.products[i].(stock := Net(l, id, i))
  {
    var doomed := Filter(l.movements, OfApp(id));
    ReverseAllStock(l.products, doomed);
    UndoCancels(doomed, l.products[i].id);
    if |doomed| == 0 {
      assert doomed == [];
    }
  }

  /** Movements of other applications and untagged ones are all that is left. */
  lemma DeleteAppMovements(l: Ledger, id: int)
    ensures DeleteApp(l, id).movements == Filter(l.movements, NotOfApp(id))
    ensures DeleteApp(l, id).activities == l.activities
  {
    if |Filter(l.movements, OfApp(id))| == 0 {
      UntaggedIsAll(l.movements, id);
    }
  }

  /** Without movements of the application, removing them removes nothing. */
  lemma UntaggedIsAll(ms: seq<StockMovement>, id: int)
    requires Filter(ms, OfApp(id)) == []
    ensures Filter(ms, NotOfApp(id)) == ms
  {
    FilterMembers(ms, OfApp(id));
    forall i | 0 <= i < |ms| ensures NotOfApp(id)(ms[i]) {
      assert ms[i] in ms;
    }
    FilterAll(ms, NotOfApp(id));
  }

  /** Deleting an application undoes its adjustments: after any run of
      'in'/'out' adjustments tagged with a fresh application id, deleting
      that application gives every product back its stock and leaves exactly
      the movements there were before. Status and price are not recomputed. */
  lemma DeleteUndoesApplication(l: Ledger, rs: seq<AdjustRequest>, c: Clock, u: string, id: int)
    requires UniqueIds(l.products, (p: Product) => p.id)
    requires forall k :: 0 <= k < |rs| ==> TaggedRequest(rs[k], id)
    requires Filter(l.movements, OfApp(id)) == []
    ensures |DeleteApp(ApplyAll(l, rs, c, u), id).products| == |l.products|
    ensures forall i :: 0 <= i < |l.products| ==>
      var q := DeleteApp(ApplyAll(l, rs, c, u), id).products[i];
      q == l.products[i].(status := q.status, price := q.price)
    ensures DeleteApp(ApplyAll(l, rs, c, u), id).movements == l.movements
  {
    var l1 := ApplyAll(l, rs, c, u);
    ApplyAllShadows(l, rs, c, u, id);
    ShadowsUnique(l, l1, id);
    forall i | 0 <= i < |l.products|
      ensures |DeleteApp(l1, id).products| == |l.products|
      ensures var q := DeleteApp(l1, id).products[i]; q == l.products[i].(status := q.status, price := q.price)
    {
      RestoredAt(l, l1, id, i);
    }
    DeleteAppMovements(l1, id);
    UntaggedIsAll(l.movements, id);
  }

  lemma RestoredAt(l: Ledger, l1: Ledger, id: int, i: nat)
    requires Shadows(l, l1, id) && UniqueIds(l1.products, (p: Product) => p.id)
    requires Filter(l.movements, OfApp(id)) == [] && i < |l.products|
    ensures |DeleteApp(l1, id).products| == |l.products|
    ensures var q := DeleteApp(l1, id).products[i]; q == l.products[i].(status := q.status, price := q.price)
  {
    DeleteAppNet(l1, id, i);
    assert Restocked(l.products[i], l1.products[i]);
    assert Net(l1, id, i) == Net(l, id, i);
  }

  // ---------------------------------------------------------------- the mix

  /** currentProduct: the mix line being typed. */
  datatype MixInput = MixInput(productId: string, dose: string, unit: string)

  /** formData; the weather block is not part of this model. */
  datatype AppForm = AppForm(
    date: string, plotId: string, areaApplied: string, operator: string, equipment: string,
    observations: string, target: string, sprayVolume: string, status: string,
    appliedProducts: seq<AppliedProduct>)

  /** The form resetForm writes, dated today. */
  function EmptyForm(today: string): AppForm
  {
    AppForm(today, "", "", "", "", "", "", "", "completed", [])
  }

  /** JS multiplication and addition, where NaN absorbs. */
  function NumTimes(a: Num, b: Num): Num
  {
    if a.NaN? || b.NaN? then NaN else Fin(a.val * b.val)
  }

  function NumPlus(a: Num, b: Num): Num
  {
    if a.NaN? || b.NaN? then NaN else Fin(a.val + b.val)
  }

  /** parseFloat of a form field, NaN when it does not parse. */
  function ParseNum(s: string): Num
  {
    match ParseFloat(s)
      case None => NaN
      case Some(v) => Fin(v)
  }

  /** products.find(p => p.id === parseInt(productId)) */
  function ProductOf(ps: seq<Product>, productId: string): Option<Product>
  {
    match ParseInt(productId)
      case None => None
      case Some(k) => FindProduct(ps, k)
  }

  predicate InMix(mix: seq<AppliedProduct>, id: int)
  {
    exists j :: 0 <= j < |mix| && mix[j].productId == id
  }

  /** The mix line for product p: the dose in the product's unit, times the
      area, priced at the product's price. */
  function MixEntry(p: Product, area: Num, dose: Num, inputUnit: string): AppliedProduct
  {
    var nd := Normalized(p, dose, inputUnit);
    var total := NumTimes(area, Fin(nd));
    AppliedProduct(p.id, p.name, dose, inputUnit, nd, total, p.unit, NumTimes(total, Fin(p.price)))
  }

  /** handleAddProductToMix: the new mix, or None when the line is refused. */
  function AddToMix(ps: seq<Product>, form: AppForm, cur: MixInput): Option<seq<AppliedProduct>>
  {
    var p := ProductOf(ps, cur.productId);
    if p.None? || cur.dose == "" || form.areaApplied == "" then None
    else if InMix(form.appliedProducts, p.value.id) then None
    else
      var unit := if cur.unit == "" then p.value.unit else cur.unit;
      Some(form.appliedProducts + [MixEntry(p.value, ParseNum(form.areaApplied), ParseNum(cur.dose), unit)])
  }

  /** The line is refused exactly when the product, the dose or the area is
      missing, or the product is already in the mix. */
  lemma AddToMixGuard(ps: seq<Product>, form: AppForm, cur: MixInput)
    ensures AddToMix(ps, form, cur).None? <==>
      ProductOf(ps, cur.productId).None? || cur.dose == "" || form.areaApplied == "" ||
      InMix(form.appliedProducts, ProductOf(ps, cur.productId).value.id)
  {
  }

  /** An accepted line is appended after the old mix: total quantity is area
      times the converted dose, and cost is total quantity times price. */
  lemma AddToMixEntry(ps: seq<Product>, form: AppForm, cur: MixInput)
    requires AddToMix(ps, form, cur).Some?
    ensures var p := ProductOf(ps, cur.productId).value;
      var r := AddToMix(ps, form, cur).value;
      var unit := if cur.unit == "" then p.unit else cur.unit;
      var e := r[|r| - 1];
      |r| == |form.appliedProducts| + 1 && r[..|r| - 1] == form.appliedProducts &&
      e.productId == p.id && e.unit == p.unit && e.doseUnit == unit && e.dose == ParseNum(cur.dose) &&
      e.normalizedDose == Normalized(p, ParseNum(cur.dose), unit) &&
      e.totalQuantity == NumTimes(ParseNum(form.areaApplied), Fin(e.normalizedDose)) &&
      e.cost == NumTimes(e.totalQuantity, Fin(p.price))
  {
    var r := AddToMix(ps, form, cur).value;
    assert r[..|r| - 1] == form.appliedProducts;
  }

  /** No product appears twice in the mix. */
  predicate MixDistinct(mix: seq<AppliedProduct>)
  {
    forall i, j :: 0 <= i < j < |mix| ==> mix[i].productId != mix[j].productId
  }

  /** Adding a line keeps the mix free of repeated products. */
  lemma AddToMixDistinct(ps: seq<Product>, form: AppForm, cur: MixInput)
    requires MixDistinct(form.appliedProducts) && AddToMix(ps, form, cur).Some?
    ensures MixDistinct(AddToMix(ps, form, cur).value)
  {
    var p := ProductOf(ps, cur.productId).value;
    var r := AddToMix(ps, form, cur).value;
    var mix := form.appliedProducts;
    assert !InMix(mix, p.id);
    forall i, j | 0 <= i < j < |r| ensures r[i].productId != r[j].productId {
      if j == |mix| {
        assert r[i] == mix[i];
      } else {
        assert r[i] == mix[i] && r[j] == mix[j];
      }
    }
  }

  /** appliedProducts.filter((_, i) => i !== index) */
  function RemoveIndex(mix: seq<AppliedProduct>, index: int): (r: seq<AppliedProduct>)
  {
    if 0 <= index < |mix| then mix[..index] + mix[index + 1..] else mix
  }

  /** Exactly the line at the index goes: the lines before keep their place
      and the lines after move up by one; an index out of range removes
      nothing. */
  lemma RemoveIndexSpec(mix: seq<AppliedProduct>, index: int)
    ensures 0 <= index < |mix| ==> |RemoveIndex(mix, index)| == |mix| - 1
    ensures 0 <= index < |mix| ==> forall j :: 0 <= j < |mix| - 1 ==>
      RemoveIndex(mix, index)[j] == if j < index then mix[j] else mix[j + 1]
    ensures !(0 <= index < |mix|) ==> RemoveIndex(mix, index) == mix
  {
  }

  /** Removing a line keeps the mix free of repeated products. */
  lemma RemoveIndexDistinct(mix: seq<AppliedProduct>, index: int)
    requires MixDistinct(mix)
    ensures MixDistinct(RemoveIndex(mix, index))
  {
    RemoveIndexSpec(mix, index);
    if 0 <= index < |mix| {
      var r := RemoveIndex(mix, index);
      forall i, j | 0 <= i < j < |r| ensures r[i].productId != r[j].productId {
        var i', j' := if i < index then i else i + 1, if j < index then j else j + 1;
        assert r[i] == mix[i'] && r[j] == mix[j'];
      }
    }
  }

  /** totalApplicationCost: reduce((acc, p) => acc + p.cost, 0). */
  function TotalCost(mix: seq<AppliedProduct>): Num
  {
    if mix == [] then Fin(0.0) else NumPlus(mix[0].cost, TotalCost(mix[1..]))
  }

  predicate CostsFinite(mix: seq<AppliedProduct>)
  {
    forall j :: 0 <= j < |mix| ==> mix[j].cost.Fin?
  }

  function CostOf(e: AppliedProduct): real
  {
    if e.cost.Fin? then e.cost.val else 0.0
  }

  /** With every cost a number the total is their sum; a single NaN cost
      makes the total NaN. */
  lemma {:induction false} TotalCostSum(mix: seq<AppliedProduct>)
    ensures CostsFinite(mix) ==> TotalCost(mix) == Fin(Sum(mix, CostOf))
    ensures !CostsFinite(mix) ==> TotalCost(mix) == NaN
  {
    if mix != [] {
      TotalCostSum(mix[1..]);
      assert CostsFinite(mix) ==> CostsFinite(mix[1..]) by {
        if CostsFinite(mix) {
          forall j | 0 <= j < |mix[1..]| ensures mix[1..][j].cost.Fin? {
            assert mix[1..][j] == mix[j + 1];
          }
        }
      }
      assert !CostsFinite(mix) && mix[0].cost.Fin? ==> !CostsFinite(mix[1..]) by {
        if !CostsFinite(mix) && mix[0].cost.Fin? {
          var j :| 0 <= j < |mix| && !mix[j].cost.Fin?;
          assert mix[1..][j - 1] == mix[j];
        }
      }
    }
  }

  /** Adding a line adds its cost to the total. */
  lemma {:induction false} TotalCostAppend(mix: seq<AppliedProduct>, e: AppliedProduct)
    ensures TotalCost(mix + [e]) == NumPlus(TotalCost(mix), e.cost)
  {
    if mix == [] {
      assert mix + [e] == [e];
    } else {
      assert (mix + [e])[1..] == mix[1..] + [e];
      TotalCostAppend(mix[1..], e);
    }
  }

  // ----------------------------------------------------------------- submit

  /** plots.find(p => p.id === parseInt(formData.plotId)) */
  function SelectedPlot(plots: seq<Plot>, form: AppForm): Option<Plot>
  {
    match ParseInt(form.plotId)
      case None => None
      case Some(k) => FindPlot(plots, k)
  }

  function PlotId(p: Plot): int
  {
    p.id
  }

  /** plots.find(p => p.id === id) */
  function FindPlot(plots: seq<Plot>, id: int): Option<Plot>
  {
    IdLists.Find(plots, PlotId, id)
  }

  /** applicationData: the form with its id, the plot's name, the mix's cost
      and the parsed area. */
  function ApplicationData(form: AppForm, id: int, plot: Plot): FieldApplication
  {
    FieldApplication(id, form.date, form.plotId, plot.name, form.target, form.status,
      ParseNum(form.areaApplied), TotalCost(form.appliedProducts), form.sprayVolume,
      form.operator, form.equipment, form.appliedProducts, form.observations)
  }

  /** The stock exit of one mix line, tagged with the application id. */
  function OutRequest(ap: AppliedProduct, form: AppForm, plot: Plot, id: int): AdjustRequest
  {
    AdjustRequest(ap.productId, "out", Number(ap.totalQuantity), "Aplicação: " + plot.name, ap.unit,
      "", Fin(0.0), false, form.date, form.operator, Some(id))
  }

  /** One exit per mix line, in mix order. */
  function OutRequests(mix: seq<AppliedProduct>, form: AppForm, plot: Plot, id: int): (rs: seq<AdjustRequest>)
    ensures |rs| == |mix|
    ensures forall k :: 0 <= k < |mix| ==> rs[k] == OutRequest(mix[k], form, plot, id)
  {
    if mix == [] then [] else [OutRequest(mix[0], form, plot, id)] + OutRequests(mix[1..], form, plot, id)
  }

  /** Every exit of an application is an 'out' tagged with its id. */
  lemma OutRequestsTagged(mix: seq<AppliedProduct>, form: AppForm, plot: Plot, id: int)
    ensures forall k :: 0 <= k < |mix| ==> TaggedRequest(OutRequests(mix, form, plot, id)[k], id)
  {
  }

  /** The exits a save issues: one per line for a 'completed' application,
      none otherwise. */
  function Exits(form: AppForm, plot: Plot, id: int): seq<AdjustRequest>
  {
    if form.status == "completed" then OutRequests(form.appliedProducts, form, plot, id) else []
  }

  /** The lists handleSubmit replaces. */
  datatype Outcome = Outcome(ledger: Ledger, apps: seq<FieldApplication>)

  function OutcomeOf(s: Lists): Outcome
  {
    Outcome(LedgerOf(s), s.applications)
  }

  /** s with the lists of o in place and every other list kept. */
  function WithOutcome(s: Lists, o: Outcome): (r: Lists)
    ensures OutcomeOf(r) == o
  {
    WithLedger(s, o.ledger).(applications := o.apps)
  }

  function ApplicationId(a: FieldApplication): int
  {
    a.id
  }

  /** fieldApplications.find(a => a.id === id) */
  function FindApp(apps: seq<FieldApplication>, id: int): Option<FieldApplication>
  {
    IdLists.Find(apps, ApplicationId, id)
  }

  /** fieldApplications.map(a => a.id === id ? app : a) */
  function ReplaceApp(apps: seq<FieldApplication>, id: int, app: FieldApplication): (r: seq<FieldApplication>)
    ensures |r| == |apps|
    ensures forall i :: 0 <= i < |apps| ==> r[i] == if apps[i].id == id then app else apps[i]
  {
    if apps == [] then [] else [if apps[0].id == id then app else apps[0]] + ReplaceApp(apps[1..], id, app)
  }

  /** The fields whose change makes an edit redo the stock exits. */
  predicate StockFieldsChanged(o: FieldApplication, form: AppForm)
  {
    o.appliedProducts != form.appliedProducts || o.status != form.status ||
    o.date != form.date || o.operator != form.operator || o.plotId != form.plotId
  }

  /** Any compared field changed. */
  predicate AnyFieldChanged(o: FieldApplication, form: AppForm)
  {
    StockFieldsChanged(o, form) || o.observations != form.observations || o.target != form.target ||
    o.sprayVolume != form.sprayVolume || o.equipment != form.equipment
  }

  /** handleSubmit, after its guard (a selected plot and a non-empty mix). */
  function Save(o: Outcome, form: AppForm, plot: Plot, editingId: Option<int>, c: Clock, u: string): Outcome
  {
    var l := o.ledger;
    var target := IntToString(|form.appliedProducts|) + " produtos no " + plot.name;
    if Editing(editingId) then
      var id := editingId.value;
      var old_ := FindApp(o.apps, id);
      if old_.None? || !AnyFieldChanged(old_.value, form) then o
      else
        var l1 := if StockFieldsChanged(old_.value, form)
          then ApplyAll(DeleteApp(l, old_.value.id), Exits(form, plot, id), c, u) else l;
        Outcome(l1.(activities := LogActivity(l1.activities, Activity(c.now, "Editou aplicação", target, c.iso, "neutral"))),
          ReplaceApp(o.apps, id, ApplicationData(form, id, plot)))
    else
      var id := c.now;
      var l1 := ApplyAll(l, Exits(form, plot, id), c, u);
      Outcome(l1.(activities := LogActivity(l1.activities, Activity(c.now, "Registrou aplicação", target, c.iso, "neutral"))),
        [ApplicationData(form, id, plot)] + o.apps)
  }

  /** The new-application branch of Save, with the ledger after the exits
      named l1. */
  lemma SaveNewIs(o: Outcome, form: AppForm, plot: Plot, editingId: Option<int>, c: Clock, u: string, l1: Ledger)
    requires !Editing(editingId)
    requires l1 == ApplyAll(o.ledger, Exits(form, plot, c.now), c, u)
    ensures Save(o, form, plot, editingId, c, u) == Outcome(l1.(activities := LogActivity(l1.activities,
      Activity(c.now, "Registrou aplicação", IntToString(|form.appliedProducts|) + " produtos no " + plot.name, c.iso, "neutral"))),
      [ApplicationData(form, c.now, plot)] + o.apps)
  {
  }

  /** The edit branch of Save for a found, changed application, with the
      ledger after the reversal and the new exits named l1. */
  lemma SaveEditIs(o: Outcome, form: AppForm, plot: Plot, editingId: Option<int>, c: Clock, u: string,
                   found: FieldApplication, l1: Ledger)
    requires Editing(editingId) && FindApp(o.apps, editingId.value) == Some(found) && AnyFieldChanged(found, form)
    requires l1 == if StockFieldsChanged(found, form)
      then ApplyAll(DeleteApp(o.ledger, found.id), Exits(form, plot, editingId.value), c, u) else o.ledger
    ensures Save(o, form, plot, editingId, c, u) == Outcome(l1.(activities := LogActivity(l1.activities,
      Activity(c.now, "Editou aplicação", IntToString(|form.appliedProducts|) + " produtos no " + plot.name, c.iso, "neutral"))),
      ReplaceApp(o.apps, editingId.value, ApplicationData(form, editingId.value, plot)))
  {
  }

  /** A new application is listed first; a 'completed' one issues one tagged
      'out' per mix line, anything else issues none and leaves the stock. */
  lemma SaveNew(o: Outcome, form: AppForm, plot: Plot, editingId: Option<int>, c: Clock, u: string)
    requires !Editing(editingId)
    ensures Save(o, form, plot, editingId, c, u).apps == [ApplicationData(form, c.now, plot)] + o.apps
    ensures form.status != "completed" ==>
      Save(o, form, plot, editingId, c, u).ledger.products == o.ledger.products &&
      Save(o, form, plot, editingId, c, u).ledger.movements == o.ledger.movements
    ensures form.status == "completed" ==>
      Save(o, form, plot, editingId, c, u).ledger.products ==
        ApplyAll(o.ledger, OutRequests(form.appliedProducts, form, plot, c.now), c, u).products
  {
  }

  /** handleSubmit as the page runs it, after its guard: the reversal of an
      edit is written first, then every exit reads the products and
      movements of the render (ApplyAllAsRendered), and the page's own log
      entry is computed from the render's log, so it replaces the entries
      of the exits. */
  function SaveAsWritten(o: Outcome, form: AppForm, plot: Plot, editingId: Option<int>, c: Clock, u: string): Outcome
  {
    var l := o.ledger;
    var target := IntToString(|form.appliedProducts|) + " produtos no " + plot.name;
    if Editing(editingId) then
      var id := editingId.value;
      var old_ := FindApp(o.apps, id);
      if old_.None? || !AnyFieldChanged(old_.value, form) then o
      else
        var l1 := if StockFieldsChanged(old_.value, form)
          then ApplyAllAsRendered(DeleteApp(l, old_.value.id), l, Exits(form, plot, id), c, u) else l;
        Outcome(l1.(activities := LogActivity(l.activities, Activity(c.now, "Editou aplicação", target, c.iso, "neutral"))),
          ReplaceApp(o.apps, id, ApplicationData(form, id, plot)))
    else
      var id := c.now;
      var l1 := ApplyAllAsRendered(l, l, Exits(form, plot, id), c, u);
      Outcome(l1.(activities := LogActivity(l.activities, Activity(c.now, "Registrou aplicação", target, c.iso, "neutral"))),
        [ApplicationData(form, id, plot)] + o.apps)
  }

  /** The new-application branch as the page runs it, with the ledger after
      the exits named l1: the log holds only the page's entry over the
      render's log. */
  lemma SaveAsWrittenNewIs(o: Outcome, form: AppForm, plot: Plot, editingId: Option<int>, c: Clock, u: string, l1: Ledger)
    requires !Editing(editingId)
    requires l1 == ApplyAllAsRendered(o.ledger, o.ledger, Exits(form, plot, c.now), c, u)
    ensures SaveAsWritten(o, form, plot, editingId, c, u) == Outcome(l1.(activities := LogActivity(o.ledger.activities,
      Activity(c.now, "Registrou aplicação", IntToString(|form.appliedProducts|) + " produtos no " + plot.name, c.iso, "neutral"))),
      [ApplicationData(form, c.now, plot)] + o.apps)
  {
  }

  /** The edit branch as the page runs it, for a found, changed application,
      with the ledger after the reversal and the exits named l1. */
  lemma SaveAsWrittenEditIs(o: Outcome, form: AppForm, plot: Plot, editingId: Option<int>, c: Clock, u: string,
                            found: FieldApplication, l1: Ledger)
    requires Editing(editingId) && FindApp(o.apps, editingId.value) == Some(found) && AnyFieldChanged(found, form)
    requires l1 == if StockFieldsChanged(found, form)
      then ApplyAllAsRendered(DeleteApp(o.ledger, found.id), o.ledger, Exits(form, plot, editingId.value), c, u) else o.ledger
    ensures SaveAsWritten(o, form, plot, editingId, c, u) == Outcome(l1.(activities := LogActivity(o.ledger.activities,
      Activity(c.now, "Editou aplicação", IntToString(|form.appliedProducts|) + " produtos no " + plot.name, c.iso, "neutral"))),
      ReplaceApp(o.apps, editingId.value, ApplicationData(form, editingId.value, plot)))
  {
  }

  /** Setting the stock of one id leaves the lookup of any other id alone. */
  lemma {:induction false} FindProductOther(ps: seq<Product>, a: int, stock: real, status: string, price: real, b: int)
    requires a != b
    ensures FindProduct(SetStock(ps, a, stock, status, price), b) == FindProduct(ps, b)
  {
    if ps != [] {
      assert SetStock(ps, a, stock, status, price)[1..] == SetStock(ps[1..], a, stock, status, price);
      FindProductOther(ps[1..], a, stock, status, price, b);
    }
  }

  /** As the page runs it, a new 'completed' application of two lines on two
      different products, both of which the stock allows, keeps only the
      second line's exit: the first product keeps its stock and one movement
      is recorded, where the intended save records two. */
  lemma SaveNewTwoLines(o: Outcome, form: AppForm, plot: Plot, editingId: Option<int>, c: Clock, u: string)
    requires !Editing(editingId) && form.status == "completed" && |form.appliedProducts| == 2
    requires form.appliedProducts[0].productId != form.appliedProducts[1].productId
    requires Accepted(o.ledger, OutRequest(form.appliedProducts[0], form, plot, c.now))
    requires Accepted(o.ledger, OutRequest(form.appliedProducts[1], form, plot, c.now))
    ensures SaveAsWritten(o, form, plot, editingId, c, u).ledger.products ==
      Adjust(o.ledger, OutRequest(form.appliedProducts[1], form, plot, c.now), c, u).products
    ensures FindProduct(SaveAsWritten(o, form, plot, editingId, c, u).ledger.products, form.appliedProducts[0].productId) ==
      FindProduct(o.ledger.products, form.appliedProducts[0].productId)
    ensures |SaveAsWritten(o, form, plot, editingId, c, u).ledger.movements| == |o.ledger.movements| + 1
    ensures |Save(o, form, plot, editingId, c, u).ledger.movements| == |o.ledger.movements| + 2
  {
    var l := o.ledger;
    var rs := Exits(form, plot, c.now);
    var r0 := OutRequest(form.appliedProducts[0], form, plot, c.now);
    var r1 := OutRequest(form.appliedProducts[1], form, plot, c.now);
    assert rs == [r0, r1];
    SaveAsWrittenNewIs(o, form, plot, editingId, c, u, ApplyAllAsRendered(l, l, rs, c, u));
    SaveNewIs(o, form, plot, editingId, c, u, ApplyAll(l, rs, c, u));
    TwoExitsAsRendered(l, r0, r1, c, u);
    TwoExitsApplied(l, r0, r1, c, u);
    AdjustKeepsOther(l, r1, c, u, r0.productId);
    AdjustGuard(l, r1, c, u);
  }

  /** Two exits as rendered: only the second, when accepted, is written. */
  lemma TwoExitsAsRendered(l: Ledger, r0: AdjustRequest, r1: AdjustRequest, c: Clock, u: string)
    requires Accepted(l, r1)
    ensures ApplyAllAsRendered(l, l, [r0, r1], c, u) == Adjust(l, r1, c, u)
  {
    var rs := [r0, r1];
    assert rs[..1] == [r0] && rs[..1][..0] == [];
  }

  /** Two exits on different products that the stock allows, applied in
      turn: both are recorded. */
  lemma TwoExitsApplied(l: Ledger, r0: AdjustRequest, r1: AdjustRequest, c: Clock, u: string)
    requires Accepted(l, r0) && Accepted(l, r1) && r0.productId != r1.productId
    ensures |ApplyAll(l, [r0, r1], c, u).movements| == |l.movements| + 2
  {
    var l0 := Adjust(l, r0, c, u);
    assert |l0.movements| == |l.movements| + 1 by { AdjustGuard(l, r0, c, u); }
    assert Accepted(l0, r1) by { AcceptedAfterOther(l, r0, r1, c, u); }
    assert |Adjust(l0, r1, c, u).movements| == |l0.movements| + 1 by { AdjustGuard(l0, r1, c, u); }
    ApplyAllTwo(l, r0, r1, c, u);
  }

  lemma ApplyAllTwo(l: Ledger, r0: AdjustRequest, r1: AdjustRequest, c: Clock, u: string)
    ensures ApplyAll(l, [r0, r1], c, u) == Adjust(Adjust(l, r0, c, u), r1, c, u)
  {
    var rs := [r0, r1];
    assert rs[..1] == [r0] && [r0][..0] == [];
    assert ApplyAll(l, [r0], c, u) == Adjust(ApplyAll(l, [], c, u), r0, c, u);
    assert ApplyAll(l, rs, c, u) == Adjust(ApplyAll(l, [r0], c, u), r1, c, u);
  }

  /** An adjustment of one product does not change whether an adjustment of
      another is accepted. */
  lemma AcceptedAfterOther(l: Ledger, r0: AdjustRequest, r1: AdjustRequest, c: Clock, u: string)
    requires r0.productId != r1.productId
    ensures Accepted(Adjust(l, r0, c, u), r1) == Accepted(l, r1)
  {
    AdjustKeepsOther(l, r0, c, u, r1.productId);
  }

  /** An adjustment of one product leaves the lookup of any other id alone. */
  lemma AdjustKeepsOther(l: Ledger, r: AdjustRequest, c: Clock, u: string, b: int)
    requires r.productId != b
    ensures FindProduct(Adjust(l, r, c, u).products, b) == FindProduct(l.products, b)
  {
    if Accepted(l, r) {
      var p := FindProduct(l.products, r.productId).value;
      var n := Normalized(p, Fin(ValidQuantity(r).value), r.unit);
      NormalizedNonZero(p, ValidQuantity(r).value, r.unit);
      var st := StockAfter(p.stock, r.kind, n);
      FindProductOther(l.products, p.id, st, StatusFor(st, p.minStock), NewPrice(p, r, n), b);
    }
  }

  /** As the page runs it, a changed edit of an application whose last new
      exit the stock allows loses its reversal: the products and movements
      are that exit's over the render's lists, so the old exits stay
      applied and the old movements stay listed. */
  lemma SaveEditLosesReversal(o: Outcome, form: AppForm, plot: Plot, editingId: Option<int>, c: Clock, u: string,
                              found: FieldApplication)
    requires Editing(editingId) && FindApp(o.apps, editingId.value) == Some(found)
    requires StockFieldsChanged(found, form) && form.status == "completed" && form.appliedProducts != []
    requires Accepted(o.ledger, OutRequest(form.appliedProducts[|form.appliedProducts| - 1], form, plot, editingId.value))
    ensures SaveAsWritten(o, form, plot, editingId, c, u).ledger.products ==
      Adjust(o.ledger, OutRequest(form.appliedProducts[|form.appliedProducts| - 1], form, plot, editingId.value), c, u).products
    ensures SaveAsWritten(o, form, plot, editingId, c, u).ledger.movements[1..] == o.ledger.movements
  {
    var r := OutRequest(form.appliedProducts[|form.appliedProducts| - 1], form, plot, editingId.value);
    var rs := Exits(form, plot, editingId.value);
    assert rs[|rs| - 1] == r;
    var l1 := ApplyAllAsRendered(DeleteApp(o.ledger, found.id), o.ledger, rs, c, u);
    SaveAsWrittenEditIs(o, form, plot, editingId, c, u, found, l1);
    ApplyAllAsRenderedLastWins(DeleteApp(o.ledger, found.id), o.ledger, rs, c, u, |rs| - 1);
    AdjustGuard(o.ledger, r, c, u);
  }

  /** An edit of an application that is not listed, or that changes none of
      the compared fields, changes nothing. */
  lemma SaveUnchangedEdit(o: Outcome, form: AppForm, plot: Plot, editingId: Option<int>, c: Clock, u: string)
    requires Editing(editingId)
    requires FindApp(o.apps, editingId.value).None? || !AnyFieldChanged(FindApp(o.apps, editingId.value).value, form)
    ensures Save(o, form, plot, editingId, c, u) == o
  {
  }

  /** An edit of other fields only rewrites the application, never the
      stock. */
  lemma SaveEditKeepsStock(o: Outcome, form: AppForm, plot: Plot, editingId: Option<int>, c: Clock, u: string)
    requires Editing(editingId) && FindApp(o.apps, editingId.value).Some?
    requires !StockFieldsChanged(FindApp(o.apps, editingId.value).value, form)
    ensures Save(o, form, plot, editingId, c, u).ledger.products == o.ledger.products
    ensures Save(o, form, plot, editingId, c, u).ledger.movements == o.ledger.movements
  {
  }

  /** Saving a new 'completed' application and then deleting it gives every
      product back its stock and leaves exactly the old movements, when the
      new id tags no earlier movement. */
  lemma SaveThenDelete(o: Outcome, form: AppForm, plot: Plot, editingId: Option<int>, c: Clock, u: string)
    requires !Editing(editingId) && UniqueIds(o.ledger.products, (p: Product) => p.id)
    requires Filter(o.ledger.movements, OfApp(c.now)) == []
    ensures var l := DeleteApp(Save(o, form, plot, editingId, c, u).ledger, c.now);
      |l.products| == |o.ledger.products| && l.movements == o.ledger.movements &&
      forall i :: 0 <= i < |l.products| ==> l.products[i].stock == o.ledger.products[i].stock
  {
    var rs := Exits(form, plot, c.now);
    OutRequestsTagged(form.appliedProducts, form, plot, c.now);
    DeleteUndoesApplication(o.ledger, rs, c, u, c.now);
    var l1 := ApplyAll(o.ledger, rs, c, u);
    var l1a := Save(o, form, plot, editingId, c, u).ledger;
    assert l1a == l1.(activities := l1a.activities);
    DeleteAppMovements(l1, c.now);
    DeleteAppMovements(l1a, c.now);
  }

  // ---------------------------------------------------------- stats, filter

  /** x || 0 for a number. */
  function OrZeroNum(n: Num): real
  {
    if n.NaN? then 0.0 else n.val
  }

  function AreaOf(a: FieldApplication): real
  {
    OrZeroNum(a.areaApplied)
  }

  function CostOfApp(a: FieldApplication): real
  {
    OrZeroNum(a.totalCost)
  }

  /** stats.totalArea and stats.totalInvested. */
  function TotalArea(apps: seq<FieldApplication>): real
  {
    Sum(apps, AreaOf)
  }

  function TotalInvested(apps: seq<FieldApplication>): real
  {
    Sum(apps, CostOfApp)
  }

  /** A new application adds one to the count and its area and cost to the
      totals, a NaN area or cost counting as 0. */
  lemma SaveNewStats(o: Outcome, form: AppForm, plot: Plot, editingId: Option<int>, c: Clock, u: string)
    requires !Editing(editingId)
    ensures var apps := Save(o, form, plot, editingId, c, u).apps;
      |apps| == |o.apps| + 1 &&
      TotalArea(apps) == OrZeroNum(ParseNum(form.areaApplied)) + TotalArea(o.apps) &&
      TotalInvested(apps) == OrZeroNum(TotalCost(form.appliedProducts)) + TotalInvested(o.apps)
  {
    var apps := Save(o, form, plot, editingId, c, u).apps;
    assert apps[1..] == o.apps;
  }

  /** The page's filter fields: searchTerm, dateFilter and advancedFilters. */
  datatype AppFilters = AppFilters(
    search: string, start: string, end: string, status: string, plotId: string,
    productId: string, operator: string)

  /** The filters a fresh page starts with. */
  function NoFilters(): AppFilters
  {
    AppFilters("", "", "", "all", "all", "all", "all")
  }

  /** s.toLowerCase().includes(term.toLowerCase()) */
  predicate Includes(s: string, term: string)
  {
    Contains(Lower(s), Lower(term))
  }

  predicate MatchesSearch(a: FieldApplication, term: string)
  {
    Includes(a.plotName, term) || Includes(a.operator, term) ||
    (exists j :: 0 <= j < |a.appliedProducts| && Includes(a.appliedProducts[j].productName, term)) ||
    Includes(a.target, term)
  }

  /** An empty date bound imposes nothing; otherwise both dates must be valid
      (a comparison with Invalid Date is false) and in order. dateOf stands
      for new Date(s), None being Invalid Date. */
  predicate OnOrAfter(dateOf: string -> Option<int>, d: string, bound: string)
  {
    bound == "" || (dateOf(d).Some? && dateOf(bound).Some? && dateOf(d).value >= dateOf(bound).value)
  }

  predicate OnOrBefore(dateOf: string -> Option<int>, d: string, bound: string)
  {
    bound == "" || (dateOf(d).Some? && dateOf(bound).Some? && dateOf(d).value <= dateOf(bound).value)
  }

  predicate Matches(a: FieldApplication, f: AppFilters, dateOf: string -> Option<int>)
  {
    MatchesSearch(a, f.search) && OnOrAfter(dateOf, a.date, f.start) && OnOrBefore(dateOf, a.date, f.end) &&
    (f.status == "all" || a.status == f.status) &&
    (f.plotId == "all" || a.plotId == f.plotId) &&
    (f.operator == "all" || a.operator == f.operator) &&
    (f.productId == "all" ||
      exists j :: 0 <= j < |a.appliedProducts| && IntToString(a.appliedProducts[j].productId) == f.productId)
  }

  /** filteredApplications */
  function Filtered(apps: seq<FieldApplication>, f: AppFilters, dateOf: string -> Option<int>): seq<FieldApplication>
  {
    Filter(apps, (a: FieldApplication) => Matches(a, f, dateOf))
  }

  /** The list shown is a subsequence of the applications, holding exactly
      those that pass every filter. */
  lemma FilteredSpec(apps: seq<FieldApplication>, f: AppFilters, dateOf: string -> Option<int>)
    ensures SubseqOf(Filtered(apps, f, dateOf), apps)
    ensures forall a :: a in Filtered(apps, f, dateOf) <==> a in apps && Matches(a, f, dateOf)
  {
    FilterIsSubseq(apps, (a: FieldApplication) => Matches(a, f, dateOf));
    FilterMembers(apps, (a: FieldApplication) => Matches(a, f, dateOf));
  }

  /** With the filters a fresh page starts with, every application is shown. */
  lemma NoFiltersShowAll(apps: seq<FieldApplication>, dateOf: string -> Option<int>)
    ensures Filtered(apps, NoFilters(), dateOf) == apps
  {
    forall i | 0 <= i < |apps| ensures Matches(apps[i], NoFilters(), dateOf) {
      assert Lower("") == "";
      ContainsEmpty(Lower(apps[i].plotName));
    }
    FilterAll(apps, (a: FieldApplication) => Matches(a, NoFilters(), dateOf));
  }

  // ------------------------------------------------------------------ page

  /** a => a.id !== id */
  function NotApp(id: int): FieldApplication -> bool
  {
    (a: FieldApplication) => a.id != id
  }

  /** The loop of deleteApplication over its copy of the products: each
      movement's undo goes to the first product with its id. */
  method UndoAll(products: seq<Product>, doomed: seq<StockMovement>) returns (updated: seq<Product>)
    ensures updated == ReverseAll(products, doomed)
  {
    updated := products;
    for k := 0 to |doomed|
      invariant updated == ReverseAll(products, doomed[..k])
    {
      var mov := doomed[k];
      var idx := FirstIndex(updated, mov.productId);
      if idx.Some? {
        var p := updated[idx.value];
        updated := updated[idx.value := p.(stock := p.stock + Undo(mov))];
      }
      assert doomed[..k + 1][..k] == doomed[..k];
    }
    assert doomed[..|doomed|] == doomed;
  }

  class FieldApplicationsPage {
    const store: AppStore
    var form: AppForm
    var current: MixInput
    var editingId: Option<int>
    var isFormOpen: bool

    constructor (store: AppStore, today: string)
      ensures this.store == store && form == EmptyForm(today) && current == MixInput("", "", "")
      ensures editingId == None && !isFormOpen
    {
      this.store := store;
      form := EmptyForm(today);
      current := MixInput("", "", "");
      editingId := None;
      isFormOpen := false;
    }

    /** The effect that fills an empty area with the selected plot's area. */
    method PrefillArea()
      modifies this
      ensures var plot := SelectedPlot(store.plots, old(form));
        form == if plot.Some? && old(form).areaApplied == ""
          then old(form).(areaApplied := NumberToString(plot.value.area)) else old(form)
      ensures current == old(current) && editingId == old(editingId) && isFormOpen == old(isFormOpen)
    {
      var plot := SelectedPlot(store.plots, form);
      if plot.Some? && form.areaApplied == "" {
        form := form.(areaApplied := NumberToString(plot.value.area));
      }
    }

    /** handleAddProductToMix: an accepted line is appended and the line
        editor cleared; a refused one changes nothing. */
    method AddProductToMix()
      modifies this
      ensures var r := AddToMix(store.products, old(form), old(current));
        (r.None? ==> form == old(form) && current == old(current)) &&
        (r.Some? ==> form == old(form).(appliedProducts := r.value) && current == MixInput("", "", ""))
      ensures editingId == old(editingId) && isFormOpen == old(isFormOpen)
    {
      var r := AddToMix(store.products, form, current);
      if r.Some? {
        form := form.(appliedProducts := r.value);
        current := MixInput("", "", "");
      }
    }

    /** removeProductFromMix(index) */
    method RemoveProductFromMix(index: int)
      modifies this
      ensures form == old(form).(appliedProducts := RemoveIndex(old(form).appliedProducts, index))
      ensures current == old(current) && editingId == old(editingId) && isFormOpen == old(isFormOpen)
    {
      form := form.(appliedProducts := RemoveIndex(form.appliedProducts, index));
    }

    /** resetForm */
    method ResetForm(today: string)
      modifies this
      ensures form == EmptyForm(today) && current == MixInput("", "", "") && editingId == None
      ensures isFormOpen == old(isFormOpen)
    {
      form := EmptyForm(today);
      current := MixInput("", "", "");
      editingId := None;
    }

    /** The forEach of deleteApplication (and of an edit): the application's
        movements are undone on a copy of the products, then the copy and the
        remaining movements replace the lists. */
    method ReverseMovements(id: int)
      modifies store
      ensures store.Contents() == WithLedger(old(store.Contents()), DeleteApp(old(store.State()), id))
    {
      var doomed := Filter(store.stockMovements, OfApp(id));
      if |doomed| > 0 {
        var updated := UndoAll(store.products, doomed);
        store.products := updated;
        store.stockMovements := Filter(store.stockMovements, NotOfApp(id));
      }
    }

    /** The forEach of handleSubmit: one handleStockAdjustment per request,
        in order, each bound to the lists `seen` of the handler's render. */
    method IssueExits(rs: seq<AdjustRequest>, c: Clock, seen: Ledger)
      modifies store
      ensures store.Contents() ==
        WithLedger(old(store.Contents()), ApplyAllAsRendered(old(store.State()), seen, rs, c, store.userName))
    {
      ghost var start := store.Contents();
      for k := 0 to |rs|
        invariant store.Contents() ==
          WithLedger(start, ApplyAllAsRendered(LedgerOf(start), seen, rs[..k], c, start.userName))
      {
        store.HandleStockAdjustmentAsRendered(seen, rs[k], c);
        assert rs[..k + 1][..k] == rs[..k];
      }
      assert rs[..|rs|] == rs;
    }

    /** deleteApplication(app), confirm() being `confirmed`. */
    method DeleteApplication(app: FieldApplication, confirmed: bool, c: Clock)
      modifies store
      ensures !confirmed ==> store.Contents() == old(store.Contents())
      ensures confirmed ==> (store.Contents() ==
        WithLedger(old(store.Contents()), DeleteApp(old(store.State()), app.id)).(
          applications := Filter(old(store.fieldApplications), NotApp(app.id)),
          activities := LogActivity(old(store.activities),
            Activity(c.now, "Excluiu aplicação", "Aplicação no " + app.plotName + " removida", c.iso, "neutral"))))
    {
      if confirmed {
        ReverseMovements(app.id);
        store.fieldApplications := Filter(store.fieldApplications, NotApp(app.id));
        store.AddActivity("Excluiu aplicação", "Aplicação no " + app.plotName + " removida", "neutral", c);
      }
    }

    /** handleSubmit. today is the date resetForm writes. */
    method Submit(c: Clock, today: string)
      modifies this, store
      ensures var plot := SelectedPlot(old(store.plots), old(form));
        (plot.None? || old(form).appliedProducts == []) ==>
          store.Contents() == old(store.Contents()) &&
          form == old(form) && current == old(current) && editingId == old(editingId) && isFormOpen == old(isFormOpen)
      ensures var plot := SelectedPlot(old(store.plots), old(form));
        plot.Some? && old(form).appliedProducts != [] ==>
          store.Contents() == WithOutcome(old(store.Contents()),
            SaveAsWritten(OutcomeOf(old(store.Contents())), old(form), plot.value, old(editingId), c, old(store.userName))) &&
          form == EmptyForm(today) && current == MixInput("", "", "") && editingId == None && !isFormOpen
    {
      var plot := SelectedPlot(store.plots, form);
      if plot.None? || form.appliedProducts == [] {
        return;
      }
      if Editing(editingId) {
        SaveEdit(form, editingId, plot.value, c);
      } else {
        SaveNew(form, editingId, plot.value, c);
      }
      isFormOpen := false;
      ResetForm(today);
    }

    /** The stock part of an edit of application `found` with form f, the
        handler's render having the lists `seen`: when a stock field changed,
        the old movements are undone and the new exits issued. */
    method Restock(f: AppForm, id: int, found: FieldApplication, plot: Plot, c: Clock, seen: Ledger)
      modifies store
      ensures store.Contents() == WithLedger(old(store.Contents()),
        if StockFieldsChanged(found, f)
        then ApplyAllAsRendered(DeleteApp(old(store.State()), found.id), seen, Exits(f, plot, id), c, store.userName)
        else old(store.State()))
    {
      if StockFieldsChanged(found, f) {
        ReverseMovements(found.id);
        IssueExits(Exits(f, plot, id), c, seen);
      }
    }

    /** The edit branch of handleSubmit, for form f and editingApplicationId e. */
    method SaveEdit(f: AppForm, e: Option<int>, plot: Plot, c: Clock)
      requires Editing(e)
      modifies store
      ensures store.Contents() ==
        WithOutcome(old(store.Contents()), SaveAsWritten(OutcomeOf(old(store.Contents())), f, plot, e, c, store.userName))
    {
      var id := e.value;
      var app := ApplicationData(f, id, plot);
      var target := IntToString(|f.appliedProducts|) + " produtos no " + plot.name;
      var seen := store.State();
      ghost var o := OutcomeOf(store.Contents());
      var found := FindApp(store.fieldApplications, id);
      if found.Some? && AnyFieldChanged(found.value, f) {
        Restock(f, id, found.value, plot, c, seen);
        ghost var l1 := store.State();
        store.fieldApplications := ReplaceApp(store.fieldApplications, id, app);
        store.AddActivityAsRendered(seen.activities, "Editou aplicação", target, "neutral", c);
        SaveAsWrittenEditIs(o, f, plot, e, c, store.userName, found.value, l1);
      }
    }

    /** The branch of handleSubmit for a new application, whose id is the
        clock's Date.now(). */
    method SaveNew(f: AppForm, e: Option<int>, plot: Plot, c: Clock)
      requires !Editing(e)
      modifies store
      ensures store.Contents() ==
        WithOutcome(old(store.Contents()), SaveAsWritten(OutcomeOf(old(store.Contents())), f, plot, e, c, store.userName))
    {
      var app := ApplicationData(f, c.now, plot);
      var target := IntToString(|f.appliedProducts|) + " produtos no " + plot.name;
      var seen := store.State();
      ghost var o := OutcomeOf(store.Contents());
      IssueExits(Exits(f, plot, c.now), c, seen);
      ghost var l1 := store.State();
      store.fieldApplications := [app] + store.fieldApplications;
      store.AddActivityAsRendered(seen.activities, "Registrou aplicação", target, "neutral", c);
      SaveAsWrittenNewIs(o, f, plot, e, c, store.userName, l1);
    }
  }
}
