// audit_stock.cjs: the stock audit of a backup. Every product's stock and
// minimum are read leniently and the product lands in exactly one of four
// buckets (zero, critical, low, ok), whose sizes make up the summary. Reading
// the backup file and printing the report are not modelled; the products
// array is the input.

module AuditStock {
  import opened Seqs
  import opened Js
  import AppContext

  /** A product as it comes out of the backup's JSON: any field may be
      missing or of any type. */
  datatype RawProduct = RawProduct(name: Value, stock: Value, minStock: Value, unit: Value)

  /** The backup: payload?.products, None when the payload or its products
      are missing. */
  datatype Backup = Backup(products: Option<seq<RawProduct>>)

  /** What each bucket holds. */
  datatype Entry = Entry(name: string, stock: real, min: real, unit: string)

  datatype Bucket = Zero | Critical | Low | Ok

  datatype Audit = Audit(zero: seq<Entry>, critical: seq<Entry>, low: seq<Entry>, ok: seq<Entry>)

  /** data.payload?.products || [] */
  function ProductsOf(b: Backup): seq<RawProduct>
  {
    match b.products
      case None => []
      case Some(ps) => ps
  }

  /** `v || fallback` for a text field. */
  function TextOr(v: Value, fallback: string): (r: string)
    ensures !Truthy(v) ==> r == fallback
  {
    if Truthy(v) then ToStr(v) else fallback
  }

  /** parseFloat(v) || 0 */
  function NumberOr0(v: Value): real
  {
    OrZero(ParseFloatOf(v))
  }

  function EntryOf(p: RawProduct): Entry
  {
    Entry(TextOr(p.name, "Produto Sem Nome"), NumberOr0(p.stock), NumberOr0(p.minStock), TextOr(p.unit, "un"))
  }

  /** Zero first, then at or below half the minimum, then at or below the
      minimum, else ok. */
  function Classify(stock: real, min: real): Bucket
  {
    if stock == 0.0 then Zero
    else if stock <= min / 2.0 then Critical
    else if stock <= min then Low
    else Ok
  }

  function InBucket(b: Bucket): Entry -> bool
  {
    (e: Entry) => Classify(e.stock, e.min) == b
  }

  /** The buckets, each in the products' order. */
  function AuditOf(entries: seq<Entry>): Audit
  {
    Audit(Filter(entries, InBucket(Zero)), Filter(entries, InBucket(Critical)),
      Filter(entries, InBucket(Low)), Filter(entries, InBucket(Ok)))
  }

  /** One more product in its bucket. */
  function Push(a: Audit, e: Entry): Audit
  {
    match Classify(e.stock, e.min)
      case Zero => a.(zero := a.zero + [e])
      case Critical => a.(critical := a.critical + [e])
      case Low => a.(low := a.low + [e])
      case Ok => a.(ok := a.ok + [e])
  }

  lemma BucketStep(entries: seq<Entry>, e: Entry, b: Bucket)
    ensures Filter(entries + [e], InBucket(b)) ==
      Filter(entries, InBucket(b)) + (if Classify(e.stock, e.min) == b then [e] else [])
  {
    FilterAppend(entries, [e], InBucket(b));
    assert Filter([e], InBucket(b)) == if Classify(e.stock, e.min) == b then [e] else [];
  }

  lemma AuditStep(entries: seq<Entry>, e: Entry)
    ensures AuditOf(entries + [e]) == Push(AuditOf(entries), e)
  {
    BucketStep(entries, e, Zero);
    BucketStep(entries, e, Critical);
    BucketStep(entries, e, Low);
    BucketStep(entries, e, Ok);
  }

  /** The forEach that pushes each product into its bucket. */
  method RunAudit(products: seq<RawProduct>) returns (a: Audit)
    ensures a == AuditOf(Map(products, EntryOf))
    ensures |a.zero| + |a.critical| + |a.low| + |a.ok| == |products|
  {
    a := AuditEntries(Map(products, EntryOf));
    BucketsPartition(Map(products, EntryOf));
  }

  method AuditEntries(entries: seq<Entry>) returns (a: Audit)
    ensures a == AuditOf(entries)
  {
    a := Audit([], [], [], []);
    var i := 0;
    while i < |entries|
      invariant 0 <= i <= |entries|
      invariant a == AuditOf(entries[..i])
    {
      var e := entries[i];
      assert entries[..i + 1] == entries[..i] + [e];
      AuditStep(entries[..i], e);
      match Classify(e.stock, e.min) {
        case Zero => a := a.(zero := a.zero + [e]);
        case Critical => a := a.(critical := a.critical + [e]);
        case Low => a := a.(low := a.low + [e]);
        case Ok => a := a.(ok := a.ok + [e]);
      }
      i := i + 1;
    }
    assert entries[..i] == entries;
  }

  /** The summary lines: conforming, low, critical and zero counts. */
  function Summary(a: Audit): (nat, nat, nat, nat)
  {
    (|a.ok|, |a.low|, |a.critical|, |a.zero|)
  }

  /** Every product lands in exactly one bucket, so the four counts make up
      the number of products. */
  lemma {:induction false} BucketsPartition(entries: seq<Entry>)
    ensures var a := AuditOf(entries); |a.zero| + |a.critical| + |a.low| + |a.ok| == |entries|
  {
    if entries != [] {
      BucketsPartition(entries[1..]);
    }
  }

  /** Each bucket holds exactly the products whose stock and minimum classify
      into it. */
  lemma BucketMembers(entries: seq<Entry>, b: Bucket)
    ensures forall e :: e in Filter(entries, InBucket(b)) <==> e in entries && Classify(e.stock, e.min) == b
  {
    FilterMembers(entries, InBucket(b));
  }

  /** Apart from the zero bucket, which the store's status has not got, the
      buckets are the statuses the store gives a product after a stock
      movement. */
  lemma ClassifyAgreesWithStatus(stock: real, min: real)
    requires stock != 0.0
    ensures Classify(stock, min) == Critical <==> AppContext.StatusFor(stock, min) == "critical"
    ensures Classify(stock, min) == Low <==> AppContext.StatusFor(stock, min) == "low"
    ensures Classify(stock, min) == Ok <==> AppContext.StatusFor(stock, min) == "ok"
  {
  }

  /** Stock exactly zero is 'zero' whatever the minimum; an unreadable stock
      counts as zero, and an unreadable minimum as 0, so any positive stock
      is then 'ok'. */
  lemma LenientReading(p: RawProduct)
    ensures ParseFloatOf(p.stock).None? ==> Classify(EntryOf(p).stock, EntryOf(p).min) == Zero
    ensures ParseFloatOf(p.minStock).None? && EntryOf(p).stock > 0.0 ==> Classify(EntryOf(p).stock, EntryOf(p).min) == Ok
    ensures !Truthy(p.name) ==> EntryOf(p).name == "Produto Sem Nome"
    ensures !Truthy(p.unit) ==> EntryOf(p).unit == "un"
  {
  }

  /** A backup without products audits to four empty buckets. */
  lemma EmptyBackup(b: Backup)
    requires b.products.None?
    ensures AuditOf(Map(ProductsOf(b), EntryOf)) == Audit([], [], [], [])
  {
  }
}
