// The bulk-entry grid of the products page
// (src/pages/products/components/BulkAuditForm.tsx): rows of text fields
// edited in place, the keyword table that fills category and unit from a
// product name, spreadsheet paste, duplicate detection and the products a
// submit hands to the page.

module BulkAuditForm {
  import opened Seqs
  import opened Text
  import opened Js
  import opened Format
  import opened Records

  /** One grid row; tempId is the Date.now() it was created with. */
  datatype Entry = Entry(
    tempId: int, name: string, category: string, unit: string, capacityUnit: string,
    unitWeight: string, stock: string, price: string, minStock: string, batch: string,
    expirationDate: string, location: string)

  /** What a keyword of the name fills in. */
  datatype Smart = Smart(category: string, unit: string, capacityUnit: string, unitWeight: string)

  /** The keyword table, in declaration order. */
  const SmartMap: seq<(string, Smart)> := [
    ("FERTILIZANTE", Smart("Fertilizantes", "kg", "kg", "1,00")),
    ("NPK", Smart("Fertilizantes", "kg", "kg", "1,00")),
    ("UREIA", Smart("Fertilizantes", "kg", "kg", "1,00")),
    ("SEMENTE", Smart("Sementes", "sc (saco)", "kg", "50,00")),
    ("MILHO", Smart("Sementes", "sc (saco)", "kg", "50,00")),
    ("SOJA", Smart("Sementes", "sc (saco)", "kg", "50,00")),
    ("GLIFOSATO", Smart("Defensivos", "L", "L", "1,00")),
    ("HERBICIDA", Smart("Defensivos", "L", "L", "1,00")),
    ("DIESEL", Smart("Combustível", "L", "L", "1,00")),
    ("ÓLEO", Smart("Combustível", "L", "L", "1,00")),
    ("PEÇA", Smart("Peças", "un", "un", "1,00")),
    ("FILTRO", Smart("Peças", "un", "un", "1,00"))]

  // ------------------------------------------------------ keyword detection

  /** The value of the first key of t contained in upper. */
  function Detect(upper: string, t: seq<(string, Smart)>): Option<Smart>
  {
    if t == [] then None
    else if Contains(upper, t[0].0) then Some(t[0].1)
    else Detect(upper, t[1..])
  }

  /** The key at i is the first of t that occurs in upper. */
  predicate FirstHit(upper: string, t: seq<(string, Smart)>, i: nat)
    requires i < |t|
  {
    Contains(upper, t[i].0) && forall j :: 0 <= j < i ==> !Contains(upper, t[j].0)
  }

  /** Detect finds a value exactly when some key occurs, and the value it
      finds belongs to a key that occurs with no earlier key occurring. */
  lemma {:induction false} DetectSpec(upper: string, t: seq<(string, Smart)>)
    ensures Detect(upper, t).None? <==> forall i :: 0 <= i < |t| ==> !Contains(upper, t[i].0)
    ensures Detect(upper, t).Some? ==>
      exists i :: 0 <= i < |t| && FirstHit(upper, t, i) && t[i].1 == Detect(upper, t).value
  {
    if t != [] && !Contains(upper, t[0].0) {
      DetectSpec(upper, t[1..]);
      assert forall i :: 1 <= i < |t| ==> t[i] == t[1..][i - 1];
      if Detect(upper, t).Some? {
        var i :| 0 <= i < |t[1..]| && FirstHit(upper, t[1..], i) && t[1..][i].1 == Detect(upper, t).value;
        assert forall j :: 1 <= j < i + 1 ==> t[j] == t[1..][j - 1];
        assert FirstHit(upper, t, i + 1) && t[i + 1].1 == Detect(upper, t).value;
      }
    } else if t != [] {
      assert FirstHit(upper, t, 0) && t[0].1 == Detect(upper, t).value;
    }
  }

  /** The keywords the name contains, read case-insensitively. */
  function SmartFields(name: string): Option<Smart>
  {
    Detect(Upper(name), SmartMap)
  }

  /** detectSmartFields: the loop over the table with its early return. */
  method DetectSmartFields(name: string) returns (smart: Option<Smart>)
    ensures smart == SmartFields(name)
  {
    var upper := Upper(name);
    var i := 0;
    while i < |SmartMap|
      invariant 0 <= i <= |SmartMap|
      invariant Detect(upper, SmartMap) == Detect(upper, SmartMap[i..])
    {
      assert SmartMap[i..][1..] == SmartMap[i + 1..];
      if Contains(upper, SmartMap[i].0) {
        return Some(SmartMap[i].1);
      }
      i := i + 1;
    }
    return None;
  }

  /** A name containing a key, after every earlier key was missed, gets that
      key's value. */
  lemma SmartFieldsAt(name: string, i: nat)
    requires i < |SmartMap| && Contains(Upper(name), SmartMap[i].0)
    requires forall j :: 0 <= j < i ==> !Contains(Upper(name), SmartMap[j].0)
    ensures SmartFields(name) == Some(SmartMap[i].1)
  {
    DetectFrom(Upper(name), SmartMap, i);
  }

  lemma {:induction false} DetectFrom(upper: string, t: seq<(string, Smart)>, i: nat)
    requires i < |t| && Contains(upper, t[i].0)
    requires forall j :: 0 <= j < i ==> !Contains(upper, t[j].0)
    ensures Detect(upper, t) == Some(t[i].1)
    decreases i
  {
    if i > 0 {
      assert t[1..][i - 1] == t[i];
      DetectFrom(upper, t[1..], i - 1);
    }
  }

  // ------------------------------------------------------------------- rows

  /** The row the grid starts with and falls back to. */
  function InitialEntry(tempId: int): Entry
  {
    Entry(tempId, "", "Fertilizantes", "kg", "kg", "1,00", "", "", "", "", "", "")
  }

  /** addRow's row: the global presets, a capacity unit of L for litres and kg
      otherwise. */
  function NewRow(tempId: int, globalCategory: string, globalUnit: string): Entry
  {
    Entry(tempId, "", globalCategory, globalUnit, if globalUnit == "L" then "L" else "kg",
      "1,00", "", "", "", "", "", "")
  }

  /** The columns of a row. */
  datatype Column = Name | Category | Unit | CapacityUnit | UnitWeight | Stock | Price | MinStock
    | Batch | ExpirationDate | Location

  function Read(e: Entry, c: Column): string
  {
    match c
      case Name => e.name
      case Category => e.category
      case Unit => e.unit
      case CapacityUnit => e.capacityUnit
      case UnitWeight => e.unitWeight
      case Stock => e.stock
      case Price => e.price
      case MinStock => e.minStock
      case Batch => e.batch
      case ExpirationDate => e.expirationDate
      case Location => e.location
  }

  function Write(e: Entry, c: Column, v: string): Entry
  {
    match c
      case Name => e.(name := v)
      case Category => e.(category := v)
      case Unit => e.(unit := v)
      case CapacityUnit => e.(capacityUnit := v)
      case UnitWeight => e.(unitWeight := v)
      case Stock => e.(stock := v)
      case Price => e.(price := v)
      case MinStock => e.(minStock := v)
      case Batch => e.(batch := v)
      case ExpirationDate => e.(expirationDate := v)
      case Location => e.(location := v)
  }

  /** The row after one cell edit: a name that hits the keyword table also
      overwrites category, unit, capacity unit and unit weight. */
  function Updated(e: Entry, c: Column, v: string): Entry
  {
    var w := Write(e, c, v);
    if c == Name && SmartFields(v).Some? then
      var s := SmartFields(v).value;
      w.(category := s.category, unit := s.unit, capacityUnit := s.capacityUnit, unitWeight := s.unitWeight)
    else w
  }

  /** The cell gets the value; a name edit with a keyword fills the four
      dependent columns; nothing else in the row moves. */
  lemma UpdatedSpec(e: Entry, c: Column, v: string, d: Column)
    ensures Read(Updated(e, c, v), c) == v
    ensures c == Name && SmartFields(v).Some? ==>
      var s := SmartFields(v).value;
      Updated(e, c, v) == e.(name := v, category := s.category, unit := s.unit,
        capacityUnit := s.capacityUnit, unitWeight := s.unitWeight)
    ensures !(c == Name && SmartFields(v).Some?) && d != c ==> Read(Updated(e, c, v), d) == Read(e, d)
    ensures Updated(e, c, v).tempId == e.tempId
  {
  }

  /** updateEntry: every row with the id is updated, the others are kept. */
  function UpdateEntry(rows: seq<Entry>, id: int, c: Column, v: string): (r: seq<Entry>)
  {
    Map(rows, (e: Entry) => if e.tempId == id then Updated(e, c, v) else e)
  }

  lemma UpdateEntrySpec(rows: seq<Entry>, id: int, c: Column, v: string, i: nat)
    requires i < |rows|
    ensures |UpdateEntry(rows, id, c, v)| == |rows|
    ensures rows[i].tempId != id ==> UpdateEntry(rows, id, c, v)[i] == rows[i]
    ensures rows[i].tempId == id ==> UpdateEntry(rows, id, c, v)[i] == Updated(rows[i], c, v)
  {
  }

  /** removeRow: a one-row grid is left alone; otherwise the rows with that id
      go and the others stay in order. */
  function RemoveRow(rows: seq<Entry>, id: int): seq<Entry>
  {
    if |rows| > 1 then Filter(rows, (e: Entry) => e.tempId != id) else rows
  }

  lemma RemoveRowSpec(rows: seq<Entry>, id: int)
    ensures |rows| <= 1 ==> RemoveRow(rows, id) == rows
    ensures |rows| > 1 ==> forall e :: e in RemoveRow(rows, id) <==> e in rows && e.tempId != id
    ensures SubseqOf(RemoveRow(rows, id), rows)
  {
    if |rows| > 1 {
      FilterMembers(rows, (e: Entry) => e.tempId != id);
      FilterIsSubseq(rows, (e: Entry) => e.tempId != id);
    } else {
      FilterAll(rows, (e: Entry) => true);
      FilterIsSubseq(rows, (e: Entry) => true);
    }
  }

  /** With distinct ids a removal takes away at most one row, so the grid
      never empties. */
  lemma RemoveRowKeepsARow(rows: seq<Entry>, id: int)
    requires |rows| >= 1 && UniqueIds(rows, (e: Entry) => e.tempId)
    ensures |RemoveRow(rows, id)| >= 1
  {
    if |rows| > 1 {
      var keep := (e: Entry) => e.tempId != id;
      FilterMembers(rows, keep);
      if rows[0].tempId != id {
        assert rows[0] in RemoveRow(rows, id);
      } else {
        assert rows[1].tempId != id;
        assert rows[1] in RemoveRow(rows, id);
      }
    }
  }

  /** applyGlobals: category and unit from the presets on every row. */
  function ApplyGlobals(rows: seq<Entry>, category: string, unit: string): seq<Entry>
  {
    Map(rows, (e: Entry) => e.(category := category, unit := unit))
  }

  lemma ApplyGlobalsSpec(rows: seq<Entry>, category: string, unit: string, i: nat)
    requires i < |rows|
    ensures |ApplyGlobals(rows, category, unit)| == |rows|
    ensures ApplyGlobals(rows, category, unit)[i].category == category
    ensures ApplyGlobals(rows, category, unit)[i].unit == unit
    ensures ApplyGlobals(rows, category, unit)[i].(category := rows[i].category, unit := rows[i].unit) == rows[i]
  {
  }

  predicate Named(e: Entry)
  {
    !IsBlank(e.name)
  }

  /** removeEmptyRows: the named rows, or one fresh row when there are none. */
  function RemoveEmptyRows(rows: seq<Entry>, tempId: int): seq<Entry>
  {
    var named := Filter(rows, Named);
    if |named| == 0 then [InitialEntry(tempId)] else named
  }

  lemma RemoveEmptyRowsSpec(rows: seq<Entry>, tempId: int)
    ensures |RemoveEmptyRows(rows, tempId)| >= 1
    ensures (exists i :: 0 <= i < |rows| && Named(rows[i])) ==> RemoveEmptyRows(rows, tempId) == Filter(rows, Named)
    ensures (forall i :: 0 <= i < |rows| ==> !Named(rows[i])) ==> RemoveEmptyRows(rows, tempId) == [InitialEntry(tempId)]
    ensures forall e :: e in Filter(rows, Named) <==> e in rows && Named(e)
  {
    FilterEmpty(rows, Named);
    FilterMembers(rows, Named);
  }

  // ------------------------------------------------------------------ paste

  /** One line of split(/\r?\n/): a trailing carriage return dropped. */
  function DropCR(l: string): string
  {
    if l != [] && l[|l| - 1] == '\r' then l[..|l| - 1] else l
  }

  predicate NonBlankLine(l: string)
  {
    !IsBlank(l)
  }

  function PasteLines(text: string): seq<string>
  {
    Filter(Map(Split(text, '\n'), DropCR), NonBlankLine)
  }

  /** cols[k] || '': a missing column reads as ''. */
  function Col(cols: seq<string>, k: nat): string
  {
    if k < |cols| then cols[k] else ""
  }

  /** a || b for two texts. */
  function Or(a: string, b: string): string
  {
    if a != "" then a else b
  }

  /** The row a pasted line becomes: the columns are name, category, unit,
      unit weight, stock, price, minimum, batch, expiration and location. */
  function PasteRow(line: string, tempId: int, globalCategory: string, globalUnit: string): Entry
  {
    var cols := Split(line, '\t');
    var smart := SmartFields(Col(cols, 0));
    Entry(tempId, Upper(Col(cols, 0)),
      Or(Col(cols, 1), if smart.Some? then smart.value.category else globalCategory),
      Or(Col(cols, 2), if smart.Some? then smart.value.unit else globalUnit),
      if smart.Some? then smart.value.capacityUnit else if Col(cols, 2) == "L" then "L" else "kg",
      Or(Col(cols, 3), if smart.Some? then smart.value.unitWeight else "1,00"),
      if Col(cols, 4) != "" then MaskNumber(Str(Col(cols, 4))) else "",
      if Col(cols, 5) != "" then MaskValue(Str(Col(cols, 5))) else "",
      if Col(cols, 6) != "" then MaskNumber(Str(Col(cols, 6))) else "",
      Upper(Col(cols, 7)), Col(cols, 8), Upper(Col(cols, 9)))
  }

  /** handlePaste: the grid is replaced by one row per non-blank line, with
      ids now, now + 1, ...; a paste without such a line changes nothing. */
  function Pasted(rows: seq<Entry>, text: string, now: int, globalCategory: string, globalUnit: string): seq<Entry>
  {
    var lines := PasteLines(text);
    if |lines| == 0 then rows else PasteRows(lines, now, globalCategory, globalUnit)
  }

  /** lines.map((line, index) => row with id now + index). */
  function PasteRows(lines: seq<string>, now: int, globalCategory: string, globalUnit: string): seq<Entry>
  {
    MapIndexed(lines, now, (line: string, id: int) => PasteRow(line, id, globalCategory, globalUnit))
  }

  lemma PasteRowsAt(lines: seq<string>, now: int, gc: string, gu: string, i: nat)
    requires i < |lines|
    ensures PasteRows(lines, now, gc, gu)[i] == PasteRow(lines[i], now + i, gc, gu)
  {
  }

  lemma PastedIsPasteRows(rows: seq<Entry>, text: string, now: int, gc: string, gu: string)
    requires |PasteLines(text)| > 0
    ensures Pasted(rows, text, now, gc, gu) == PasteRows(PasteLines(text), now, gc, gu)
  {
  }

  lemma PastedSpec(rows: seq<Entry>, text: string, now: int, gc: string, gu: string)
    ensures |PasteLines(text)| == 0 ==> Pasted(rows, text, now, gc, gu) == rows
    ensures |PasteLines(text)| > 0 ==> |Pasted(rows, text, now, gc, gu)| == |PasteLines(text)|
  {
  }

  /** Line i of the paste becomes row i, with id now + i. */
  lemma PastedRows(rows: seq<Entry>, text: string, now: int, gc: string, gu: string, i: nat)
    requires |PasteLines(text)| > 0 && i < |PasteLines(text)|
    ensures Pasted(rows, text, now, gc, gu)[i] == PasteRow(PasteLines(text)[i], now + i, gc, gu)
    ensures Pasted(rows, text, now, gc, gu)[i].tempId == now + i
  {
    PastedIsPasteRows(rows, text, now, gc, gu);
    PasteRowsAt(PasteLines(text), now, gc, gu, i);
  }

  /** The pasted lines are the non-blank lines of the text, in order. */
  lemma PasteLinesSpec(text: string)
    ensures forall l :: l in PasteLines(text) <==> l in Map(Split(text, '\n'), DropCR) && !IsBlank(l)
    ensures SubseqOf(PasteLines(text), Map(Split(text, '\n'), DropCR))
  {
    FilterMembers(Map(Split(text, '\n'), DropCR), NonBlankLine);
    FilterIsSubseq(Map(Split(text, '\n'), DropCR), NonBlankLine);
  }

  /** Category and unit fall back from the column to the keyword table to the
      global preset; the name is upper-cased. */
  lemma PasteRowFallbacks(line: string, tempId: int, gc: string, gu: string)
    ensures var cols := Split(line, '\t'); var r := PasteRow(line, tempId, gc, gu);
      r.name == Upper(Col(cols, 0)) &&
      (Col(cols, 1) != "" ==> r.category == Col(cols, 1)) &&
      (Col(cols, 1) == "" && SmartFields(Col(cols, 0)).Some? ==> r.category == SmartFields(Col(cols, 0)).value.category) &&
      (Col(cols, 1) == "" && SmartFields(Col(cols, 0)).None? ==> r.category == gc) &&
      (Col(cols, 2) != "" ==> r.unit == Col(cols, 2)) &&
      (Col(cols, 2) == "" && SmartFields(Col(cols, 0)).Some? ==> r.unit == SmartFields(Col(cols, 0)).value.unit) &&
      (Col(cols, 2) == "" && SmartFields(Col(cols, 0)).None? ==> r.unit == gu)
  {
  }

  // ----------------------------------------------------------------- submit

  /** One product handed to onSubmit. */
  datatype BulkProduct = BulkProduct(
    name: string, category: string, unit: string, capacityUnit: string, unitWeight: real,
    stock: real, price: real, minStock: real, batch: string, expirationDate: string,
    location: string, status: string)

  /** A row as a product: the weight defaults to 1, the minimum to 0, and the
      status is 'low' at or below the minimum. */
  function ToProduct(e: Entry): BulkProduct
  {
    var stock := ParseText(e.stock);
    var minStock := ParseText(e.minStock);
    BulkProduct(e.name, e.category, e.unit, e.capacityUnit, OrOne(Some(ParseText(e.unitWeight))),
      stock, ParseText(e.price), minStock, e.batch, e.expirationDate, e.location,
      if stock <= minStock then "low" else "ok")
  }

  function ValidProducts(rows: seq<Entry>): seq<BulkProduct>
  {
    Map(Filter(rows, Named), ToProduct)
  }

  /** A product's status is 'low' exactly at or below its minimum and 'ok'
      otherwise; its unit weight is never 0. */
  lemma ToProductSpec(e: Entry)
    ensures ToProduct(e).status == "low" <==> ParseText(e.stock) <= ParseText(e.minStock)
    ensures ToProduct(e).status == "ok" <==> ParseText(e.stock) > ParseText(e.minStock)
    ensures ToProduct(e).unitWeight != 0.0
    ensures e.unitWeight == "" ==> ToProduct(e).unitWeight == 1.0
    ensures e.minStock == "" ==> ToProduct(e).minStock == 0.0
  {
  }

  /** One product per named row, in row order, and none for a blank row. */
  lemma ValidProductsSpec(rows: seq<Entry>)
    ensures |ValidProducts(rows)| == Count(rows, Named)
    ensures forall k :: 0 <= k < |ValidProducts(rows)| ==> ValidProducts(rows)[k] == ToProduct(Filter(rows, Named)[k])
  {
  }

  /** The rows sent are the named rows, in grid order. */
  lemma NamedRowsSpec(rows: seq<Entry>)
    ensures forall e :: e in Filter(rows, Named) <==> e in rows && Named(e)
    ensures SubseqOf(Filter(rows, Named), rows)
  {
    FilterMembers(rows, Named);
    FilterIsSubseq(rows, Named);
  }

  /** The submit button is disabled while a row has a blank name or two names
      repeat. */
  predicate SubmitDisabled(rows: seq<Entry>)
  {
    (exists i :: 0 <= i < |rows| && IsBlank(rows[i].name)) || HasDuplicates(rows)
  }

  /** An enabled submit sends every row. */
  lemma EnabledSubmitSendsEveryRow(rows: seq<Entry>)
    requires !SubmitDisabled(rows)
    ensures Filter(rows, Named) == rows
    ensures |ValidProducts(rows)| == |rows|
  {
    FilterAll(rows, Named);
  }

  // ------------------------------------------------------------- duplicates

  /** The name as duplicates are compared: trimmed and upper-cased. */
  function NameKey(name: string): string
  {
    Upper(Trim(name))
  }

  predicate NonEmpty(n: string)
  {
    n != ""
  }

  /** namesArray: the non-empty name keys, in row order. */
  function NamesArray(rows: seq<Entry>): seq<string>
  {
    Filter(Map(rows, (e: Entry) => NameKey(e.name)), NonEmpty)
  }

  predicate HasDuplicates(rows: seq<Entry>)
  {
    |NamesArray(rows)| != |set n | n in NamesArray(rows)|
  }

  /** The set-size test is exactly "some name key appears twice". */
  lemma HasDuplicatesSpec(rows: seq<Entry>)
    ensures HasDuplicates(rows) <==> exists i, j :: 0 <= i < j < |NamesArray(rows)| && NamesArray(rows)[i] == NamesArray(rows)[j]
    ensures forall n :: n in NamesArray(rows) <==> n != "" && n in Map(rows, (e: Entry) => NameKey(e.name))
  {
    SetSizeDetectsDuplicates(NamesArray(rows));
    FilterMembers(Map(rows, (e: Entry) => NameKey(e.name)), NonEmpty);
  }

  /** Two rows whose names differ only in case and surrounding space are
      duplicates. */
  lemma CaseVariantsAreDuplicates(a: Entry, b: Entry)
    requires NameKey(a.name) == NameKey(b.name) != ""
    ensures HasDuplicates([a, b])
  {
    var names := NamesArray([a, b]);
    NamesOfTwo(a, b);
    assert names[0] == names[1];
    assert !NoDuplicates(names);
    SetSizeDetectsDuplicates(names);
  }

  lemma NamesOfTwo(a: Entry, b: Entry)
    requires NameKey(a.name) != "" && NameKey(b.name) != ""
    ensures NamesArray([a, b]) == [NameKey(a.name), NameKey(b.name)]
  {
    var m := Map([a, b], (e: Entry) => NameKey(e.name));
    FilterAll(m, NonEmpty);
  }

  /** checkNameExists: a non-blank name equal, after trim and upper-casing, to
      an existing product's name. */
  predicate NameExists(existing: seq<Product>, name: string)
  {
    !IsBlank(name) && exists i :: 0 <= i < |existing| && NameKey(existing[i].name) == NameKey(name)
  }

  lemma NameExistsSpec(existing: seq<Product>, name: string, k: nat)
    ensures IsBlank(name) ==> !NameExists(existing, name)
    ensures k < |existing| && !IsBlank(name) && NameKey(existing[k].name) == NameKey(name) ==> NameExists(existing, name)
    ensures existing == [] ==> !NameExists(existing, name)
  {
  }

  // -------------------------------------------------------------- total

  function RowValue(e: Entry): real
  {
    ParseText(e.stock) * ParseText(e.price)
  }

  /** The grid's total: stock times price over every row. */
  function TotalValue(rows: seq<Entry>): real
  {
    Sum(rows, RowValue)
  }

  /** A new empty row leaves the total as it was. */
  lemma NewRowAddsNothing(rows: seq<Entry>, tempId: int, gc: string, gu: string)
    ensures TotalValue(rows + [NewRow(tempId, gc, gu)]) == TotalValue(rows)
  {
    SumAppend(rows, [NewRow(tempId, gc, gu)], RowValue);
    assert RowValue(NewRow(tempId, gc, gu)) == 0.0;
  }

  // -------------------------------------------------------------- component

  /** The keys handleKeyDown reacts to. */
  datatype Key = CtrlD | Enter | OtherKey

  class BulkGridView {
    var entries: seq<Entry>
    var globalCategory: string
    var globalUnit: string
    var showAdvanced: bool

    constructor (now: int)
      ensures entries == [InitialEntry(now)]
      ensures globalCategory == "Fertilizantes" && globalUnit == "kg" && !showAdvanced
    {
      entries := [InitialEntry(now)];
      globalCategory, globalUnit, showAdvanced := "Fertilizantes", "kg", false;
    }

    method SetGlobals(category: string, unit: string)
      modifies this
      ensures globalCategory == category && globalUnit == unit
      ensures entries == old(entries) && showAdvanced == old(showAdvanced)
    {
      globalCategory, globalUnit := category, unit;
    }

    method AddRow(now: int)
      modifies this
      ensures entries == old(entries) + [NewRow(now, globalCategory, globalUnit)]
      ensures globalCategory == old(globalCategory) && globalUnit == old(globalUnit) && showAdvanced == old(showAdvanced)
    {
      entries := entries + [NewRow(now, globalCategory, globalUnit)];
    }

    method RemoveRowClick(id: int)
      modifies this
      ensures entries == RemoveRow(old(entries), id)
      ensures globalCategory == old(globalCategory) && globalUnit == old(globalUnit) && showAdvanced == old(showAdvanced)
    {
      if |entries| > 1 {
        entries := Filter(entries, (e: Entry) => e.tempId != id);
      }
    }

    /** clearGrid: after the confirmation, one fresh row. */
    method ClearGrid(confirmed: bool, now: int)
      modifies this
      ensures confirmed ==> entries == [InitialEntry(now)]
      ensures !confirmed ==> entries == old(entries)
      ensures globalCategory == old(globalCategory) && globalUnit == old(globalUnit) && showAdvanced == old(showAdvanced)
    {
      if confirmed {
        entries := [InitialEntry(now)];
      }
    }

    method Edit(id: int, c: Column, v: string)
      modifies this
      ensures entries == UpdateEntry(old(entries), id, c, v)
      ensures globalCategory == old(globalCategory) && globalUnit == old(globalUnit) && showAdvanced == old(showAdvanced)
    {
      entries := UpdateEntry(entries, id, c, v);
    }

    /** handleKeyDown: Ctrl+D copies the cell above into the row idx, Enter in
        the last row's location cell adds a row. */
    method KeyDown(key: Key, idx: nat, c: Column, now: int)
      requires idx < |entries|
      modifies this
      ensures key == CtrlD && idx > 0 ==>
        entries == UpdateEntry(old(entries), old(entries)[idx].tempId, c, Read(old(entries)[idx - 1], c))
      ensures key == Enter && idx == |old(entries)| - 1 && c == Location ==>
        entries == old(entries) + [NewRow(now, globalCategory, globalUnit)]
      ensures !(key == CtrlD && idx > 0) && !(key == Enter && idx == |old(entries)| - 1 && c == Location) ==>
        entries == old(entries)
      ensures globalCategory == old(globalCategory) && globalUnit == old(globalUnit) && showAdvanced == old(showAdvanced)
    {
      if key == CtrlD && idx > 0 {
        entries := UpdateEntry(entries, entries[idx].tempId, c, Read(entries[idx - 1], c));
      }
      if key == Enter && idx == |entries| - 1 && c == Location {
        entries := entries + [NewRow(now, globalCategory, globalUnit)];
      }
    }

    method ApplyGlobalsClick()
      modifies this
      ensures entries == ApplyGlobals(old(entries), globalCategory, globalUnit)
      ensures globalCategory == old(globalCategory) && globalUnit == old(globalUnit) && showAdvanced == old(showAdvanced)
    {
      entries := ApplyGlobals(entries, globalCategory, globalUnit);
    }

    method Paste(text: string, now: int)
      modifies this
      ensures entries == Pasted(old(entries), text, now, globalCategory, globalUnit)
      ensures globalCategory == old(globalCategory) && globalUnit == old(globalUnit) && showAdvanced == old(showAdvanced)
    {
      var lines := PasteLines(text);
      if |lines| > 0 {
        var rows := PasteRows(lines, now, globalCategory, globalUnit);
        PastedIsPasteRows(entries, text, now, globalCategory, globalUnit);
        entries := rows;
      }
    }

    method RemoveEmptyRowsClick(now: int)
      modifies this
      ensures entries == RemoveEmptyRows(old(entries), now)
      ensures globalCategory == old(globalCategory) && globalUnit == old(globalUnit) && showAdvanced == old(showAdvanced)
    {
      entries := RemoveEmptyRows(entries, now);
    }

    /** handleSubmit: onSubmit gets the named rows as products, and the form
        closes, only when there is at least one. */
    method Submit() returns (sent: Option<seq<BulkProduct>>)
      ensures ValidProducts(entries) != [] ==> sent == Some(ValidProducts(entries))
      ensures ValidProducts(entries) == [] ==> sent.None?
    {
      var products := ValidProducts(entries);
      if |products| > 0 {
        sent := Some(products);
      } else {
        sent := None;
      }
    }
  }
}
