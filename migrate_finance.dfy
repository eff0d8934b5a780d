// migrate_finance.cjs: the one-off clean-up of a backup's transactions.
// Each record is mapped to the Transaction shape of the app: seven fields
// copied, the mistyped date '222226-01-22' corrected, and the two property
// fields renamed to camel case. Reading the backup and writing the JSON file
// are not modelled: the transactions array is the input.

module MigrateFinance {
  import opened Seqs
  import opened Js

  /** A JSON object as it comes out of JSON.parse. */
  type Record = map<string, Value>

  /** t.key: undefined for a key the object has not got. */
  function Get(t: Record, key: string): Value
  {
    if key in t then t[key] else Undefined
  }

  /** The keys copied as they are. */
  const CopiedKeys: seq<string> := ["id", "description", "category", "amount", "status", "type", "entity"]

  /** The keys of every cleaned record. */
  const CleanKeys: set<string> :=
    {"id", "description", "category", "amount", "date", "status", "type", "entity", "propertyId", "propertyName"}

  const BadDate: string := "222226-01-22"
  const FixedDate: string := "2026-01-22"

  /** The date, with the one known typo corrected. */
  function FixDate(date: Value): (r: Value)
    ensures date == Str(BadDate) ==> r == Str(FixedDate)
    ensures date != Str(BadDate) ==> r == date
  {
    if date == Str(BadDate) then Str(FixedDate) else date
  }

  /** The callback of transactions.map. */
  function Clean(t: Record): Record
  {
    map["id" := Get(t, "id"), "description" := Get(t, "description"), "category" := Get(t, "category"),
      "amount" := Get(t, "amount"), "date" := FixDate(Get(t, "date")), "status" := Get(t, "status"),
      "type" := Get(t, "type"), "entity" := Get(t, "entity"),
      "propertyId" := Get(t, "property_id"), "propertyName" := Get(t, "property_name")]
  }

  /** data.payload?.transactions || [], cleaned; None stands for a backup
      without transactions. */
  function Migrate(transactions: Option<seq<Record>>): seq<Record>
  {
    match transactions
      case None => []
      case Some(ts) => Map(ts, Clean)
  }

  /** A cleaned record has exactly the ten keys of the Transaction shape; no
      other input field is kept, and the seven plain fields are copied. */
  lemma CleanShape(t: Record)
    ensures Clean(t).Keys == CleanKeys
    ensures forall k :: 0 <= k < |CopiedKeys| ==> Clean(t)[CopiedKeys[k]] == Get(t, CopiedKeys[k])
    ensures "property_id" !in Clean(t) && "property_name" !in Clean(t)
  {
    CleanKeysExact(t);
    CleanCopies(t);
  }

  lemma CleanKeysExact(t: Record)
    ensures Clean(t).Keys == CleanKeys
  {
    var m := Clean(t);
    assert forall k :: k in m.Keys ==> k in CleanKeys;
    assert forall k :: k in CleanKeys ==> k in m.Keys;
  }

  lemma CleanCopies(t: Record)
    ensures forall k :: 0 <= k < |CopiedKeys| ==> Clean(t)[CopiedKeys[k]] == Get(t, CopiedKeys[k])
  {
    var m := Clean(t);
    assert m["id"] == Get(t, "id");
    assert m["description"] == Get(t, "description");
    assert m["category"] == Get(t, "category");
    assert m["amount"] == Get(t, "amount");
    assert m["status"] == Get(t, "status");
    assert m["type"] == Get(t, "type");
    assert m["entity"] == Get(t, "entity");
  }

  /** property_id and property_name move to propertyId and propertyName. */
  lemma CleanRenames(t: Record)
    ensures Clean(t)["propertyId"] == Get(t, "property_id")
    ensures Clean(t)["propertyName"] == Get(t, "property_name")
  {
  }

  /** Only the date '222226-01-22' is rewritten; every other date, a missing
      one included, is copied. */
  lemma CleanDate(t: Record)
    ensures Get(t, "date") == Str(BadDate) ==> Clean(t)["date"] == Str(FixedDate)
    ensures Get(t, "date") != Str(BadDate) ==> Clean(t)["date"] == Get(t, "date")
  {
  }

  /** Cleaning a cleaned record again leaves its date as the first run left
      it: running the migration twice does not undo the correction. */
  lemma CleanTwiceDate(t: Record)
    ensures Clean(Clean(t))["date"] == Clean(t)["date"]
  {
  }

  /** One record out per transaction in, in the same order; none when the
      backup has no transactions. */
  lemma MigrateSpec(transactions: Option<seq<Record>>)
    ensures transactions.None? ==> Migrate(transactions) == []
    ensures transactions.Some? ==> (|Migrate(transactions)| == |transactions.value| &&
      forall i :: 0 <= i < |transactions.value| ==> Migrate(transactions)[i] == Clean(transactions.value[i]))
  {
  }

  /** Migrating one transaction more in front puts its cleaned record in
      front of the others. */
  lemma MigratePrepend(t: Record, ts: seq<Record>)
    ensures Migrate(Some([t] + ts)) == [Clean(t)] + Migrate(Some(ts))
  {
    assert ([t] + ts)[1..] == ts;
  }
}
