// The movement history drawer of a product
// (src/pages/products/components/ProductHistoryDrawer.tsx).

module ProductHistory {
  import opened Seqs
  import opened Records

  function OfProduct(id: int): StockMovement -> bool
  {
    (m: StockMovement) => m.productId == id
  }

  /** b before a when b is newer. timeOf stands for new Date(date).getTime(). */
  function Newer(timeOf: string -> int): (StockMovement, StockMovement) -> bool
  {
    (a: StockMovement, b: StockMovement) => timeOf(a.date) as real > timeOf(b.date) as real
  }

  /** productMovements: the product's movements, newest first. */
  function ProductMovements(ms: seq<StockMovement>, product: Product, timeOf: string -> int): seq<StockMovement>
  {
    SortBy(Filter(ms, OfProduct(product.id)), Newer(timeOf))
  }

  /** What the drawer renders: nothing when closed. */
  function Shown(isOpen: bool, ms: seq<StockMovement>, product: Product, timeOf: string -> int): Option<seq<StockMovement>>
  {
    if isOpen then Some(ProductMovements(ms, product, timeOf)) else None
  }

  lemma NewerIsStrictOrder(timeOf: string -> int)
    ensures StrictOrder(Newer(timeOf))
  {
  }

  /** The list holds exactly the product's movements, each as often as in
      the input, newest first. */
  lemma ProductMovementsSpec(ms: seq<StockMovement>, product: Product, timeOf: string -> int)
    ensures multiset(ProductMovements(ms, product, timeOf)) == multiset(Filter(ms, OfProduct(product.id)))
    ensures |ProductMovements(ms, product, timeOf)| == Count(ms, OfProduct(product.id))
    ensures forall m :: m in ProductMovements(ms, product, timeOf) <==> m in ms && m.productId == product.id
    ensures forall i, j :: 0 <= i < j < |ProductMovements(ms, product, timeOf)| ==>
      timeOf(ProductMovements(ms, product, timeOf)[i].date) >= timeOf(ProductMovements(ms, product, timeOf)[j].date)
  {
    var f := Filter(ms, OfProduct(product.id));
    var r := ProductMovements(ms, product, timeOf);
    NewerIsStrictOrder(timeOf);
    SortBySpec(f, Newer(timeOf));
    FilterMembers(ms, OfProduct(product.id));
    forall m ensures m in r <==> m in f {
      assert m in r <==> m in multiset(r);
      assert m in f <==> m in multiset(f);
    }
    forall i, j | 0 <= i < j < |r| ensures timeOf(r[i].date) >= timeOf(r[j].date) {
      assert !Newer(timeOf)(r[j], r[i]);
    }
  }

  /** The placeholder appears exactly when the open drawer lists nothing,
      which is when no movement belongs to the product. */
  lemma PlaceholderSpec(ms: seq<StockMovement>, product: Product, timeOf: string -> int)
    ensures Shown(false, ms, product, timeOf).None?
    ensures Shown(true, ms, product, timeOf) == Some([]) <==> forall i :: 0 <= i < |ms| ==> ms[i].productId != product.id
  {
    FilterEmpty(ms, OfProduct(product.id));
  }
}
