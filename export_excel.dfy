// export_excel.cjs: the backup's products as a ';'-separated CSV for a
// pt-BR spreadsheet. Each product becomes one line of seven columns; the
// units are mapped to a logistics unit and an output unit, and numbers get
// a decimal comma. Reading the backup and writing the Latin-1 file are not
// modelled: the products array is the input and the CSV text the output,
// None when a product makes the script throw (nothing is written then).

module ExportExcel {
  import opened Seqs
  import opened Text
  import opened Js

  /** A product as it comes out of the backup's JSON. */
  datatype RawItem = RawItem(
    name: Value, category: Value, unit: Value, stock: Value, price: Value,
    unitWeight: Value, unitWeightSnake: Value)

  /** The seven column names, in order. */
  const ColumnNames: seq<string> :=
    ["Nome", "Divisao", "Unidade Logistica", "Unidade de Saida", "Saldo Atual", "Peso Unitario", "Valor Unitario (R$)"]

  /** The header line: the column names separated by ';'. */
  const Header: string := Join(ColumnNames, ";") + "\n"

  /** `v || ''` used as a string: a truthy value that is not a string has no
      replace or toLowerCase, and the script throws. */
  function TextOf(v: Value): (r: Option<string>)
    ensures !Truthy(v) ==> r == Some("")
    ensures r.Some? && Truthy(v) ==> v == Str(r.value)
  {
    if !Truthy(v) then Some("")
    else match v
      case Str(s) => Some(s)
      case _ => None
  }

  /** String(v || fallback).replace('.', ','): only the first '.' becomes a
      comma. */
  function NumberText(v: Value, fallback: Value): string
  {
    ReplaceFirstChar(ToStr(if Truthy(v) then v else fallback), '.', ',')
  }

  function StockText(p: RawItem): string
  {
    NumberText(p.stock, Number(Fin(0.0)))
  }

  function PriceText(p: RawItem): string
  {
    NumberText(p.price, Number(Fin(0.0)))
  }

  /** unitWeight || unit_weight || 1 */
  function WeightText(p: RawItem): string
  {
    NumberText(if Truthy(p.unitWeight) then p.unitWeight else p.unitWeightSnake, Number(Fin(1.0)))
  }

  /** The logistics unit and the output unit of a unit, compared lower-cased. */
  function Units(unit: string): (string, string)
  {
    var u := Lower(unit);
    if u == "sc" || Contains(u, "saco") then ("Saco", "kg")
    else if u == "l" || u == "litro" then ("Litro", "L")
    else if u == "kg" || u == "quilo" then ("Quilo", "kg")
    else (unit, unit)
  }

  /** The mapping looks only at the lower-cased unit: a unit it recognises
      maps as its lower-case form does. */
  lemma UnitsCaseInsensitive(unit: string)
    requires Units(unit).0 in ["Saco", "Litro", "Quilo"]
    ensures Units(unit) == Units(Lower(unit))
  {
    LowerIdempotent(unit);
    KnownUnitsLowered();
  }

  /** The three names the mapping outputs fall into its own first branches. */
  lemma KnownUnitsLowered()
    ensures Lower("Saco") == "saco" && Contains("saco", "saco")
    ensures Lower("Litro") == "litro" && Lower("Quilo") == "quilo"
  {
    assert "saco"[0..4] == "saco";
  }

  /** Every unit maps to sacks in kg, litres in L, kilos in kg, or itself
      twice. */
  lemma UnitsCases(unit: string)
    ensures Units(unit) in [("Saco", "kg"), ("Litro", "L"), ("Quilo", "kg"), (unit, unit)]
  {
  }

  /** 'SC' and 'Saco 50kg' are sacks; an unknown unit is kept twice. */
  lemma UnitsExamples()
    ensures Units("SC") == ("Saco", "kg")
    ensures Units("un") == ("un", "un")
  {
    assert Lower("SC") == "sc";
    assert Lower("un") == "un";
  }

  /** The seven columns of a product whose text fields are name, category
      and unit. */
  function RowColumns(name: string, category: string, unit: string, stock: string, weight: string, price: string): seq<string>
  {
    [ReplaceChar(name, ';', ','), ReplaceChar(category, ';', ','), Units(unit).0, Units(unit).1, stock, weight, price]
  }

  /** The seven columns of a product, None when the script would throw. */
  function Columns(p: RawItem): Option<seq<string>>
  {
    var name := TextOf(p.name);
    var category := TextOf(p.category);
    var unit := TextOf(p.unit);
    if name.Some? && category.Some? && unit.Some? then
      Some(RowColumns(name.value, category.value, unit.value, StockText(p), WeightText(p), PriceText(p)))
    else None
  }

  /** The line of a product, without its "\n" ("" when it has none). */
  function Line(p: RawItem): string
  {
    match Columns(p)
      case Some(cs) => Join(cs, ";")
      case None => ""
  }

  function Row(p: RawItem): Option<string>
  {
    if Columns(p).Some? then Some(Line(p) + "\n") else None
  }

  /** The rows of the products, in order, each made by row; None as soon as
      one product has none. */
  function Rows(ps: seq<RawItem>, row: RawItem -> Option<string>): Option<string>
  {
    if ps == [] then Some("")
    else
      var r := row(ps[0]);
      var b := Rows(ps[1..], row);
      if r.Some? && b.Some? then Some(r.value + b.value) else None
  }

  function Csv(ps: seq<RawItem>): Option<string>
  {
    match Rows(ps, Row)
      case Some(b) => Some(Header + b)
      case None => None
  }

  /** One more product at the end adds its row at the end. */
  lemma {:induction false} RowsAppend(ps: seq<RawItem>, p: RawItem, row: RawItem -> Option<string>)
    ensures Rows(ps + [p], row) ==
      if Rows(ps, row).Some? && row(p).Some? then Some(Rows(ps, row).value + row(p).value) else None
  {
    if ps == [] {
      assert [p][1..] == [];
      if row(p).Some? {
        assert row(p).value + "" == row(p).value;
        assert "" + row(p).value == row(p).value;
      }
    } else {
      assert (ps + [p])[0] == ps[0];
      assert (ps + [p])[1..] == ps[1..] + [p];
      RowsAppend(ps[1..], p, row);
      if row(ps[0]).Some? && Rows(ps[1..], row).Some? && row(p).Some? {
        assert row(ps[0]).value + (Rows(ps[1..], row).value + row(p).value) ==
          (row(ps[0]).value + Rows(ps[1..], row).value) + row(p).value;
      }
    }
  }

  /** The forEach that appends each product's row to csvContent, starting
      from the header; row is the row of one product, None when building it
      throws, which abandons the export. */
  method AppendRows(header: string, ps: seq<RawItem>, row: RawItem -> Option<string>) returns (csv: Option<string>)
    ensures csv == (if Rows(ps, row).Some? then Some(header + Rows(ps, row).value) else None)
  {
    var content := header;
    ghost var body := "";
    var i := 0;
    while i < |ps|
      invariant 0 <= i <= |ps|
      invariant Rows(ps[..i], row) == Some(body) && content == header + body
    {
      ExportStep(ps, i, body, row);
      var r := row(ps[i]);
      if r.None? {
        return None;
      }
      content := content + r.value;
      body := body + r.value;
      i := i + 1;
    }
    assert ps[..i] == ps;
    csv := Some(content);
  }

  /** The export of the products. */
  method Export(ps: seq<RawItem>) returns (csv: Option<string>)
    ensures csv == Csv(ps)
  {
    csv := AppendRows(Header, ps, Row);
  }

  /** One product more: its row is appended, or, when it throws, so does the
      whole export. */
  lemma ExportStep(ps: seq<RawItem>, i: nat, body: string, row: RawItem -> Option<string>)
    requires i < |ps| && Rows(ps[..i], row) == Some(body)
    ensures row(ps[i]).Some? ==> Rows(ps[..i + 1], row) == Some(body + row(ps[i]).value)
    ensures row(ps[i]).None? ==> Rows(ps, row).None?
  {
    assert ps[..i + 1] == ps[..i] + [ps[i]];
    RowsAppend(ps[..i], ps[i], row);
    if row(ps[i]).None? {
      RowsNone(ps, i + 1, row);
    }
  }

  /** The body of the forEach: the product's fields with their fallbacks,
      the two units reassigned by the unit's lower-cased form, and the
      sanitised row. */
  method ProductRow(p: RawItem) returns (row: Option<string>)
    ensures row == Row(p)
  {
    var name := TextOf(p.name);
    var category := TextOf(p.category);
    var unit := TextOf(p.unit);
    if name.None? || category.None? || unit.None? {
      return None;
    }
    var logistics := unit.value;
    var output := unit.value;
    var u := Lower(unit.value);
    if u == "sc" || Contains(u, "saco") {
      logistics, output := "Saco", "kg";
    } else if u == "l" || u == "litro" {
      logistics, output := "Litro", "L";
    } else if u == "kg" || u == "quilo" {
      logistics, output := "Quilo", "kg";
    }
    var cols := [ReplaceChar(name.value, ';', ','), ReplaceChar(category.value, ';', ','), logistics, output,
      StockText(p), WeightText(p), PriceText(p)];
    assert cols == RowColumns(name.value, category.value, unit.value, StockText(p), WeightText(p), PriceText(p));
    row := Some(Join(cols, ";") + "\n");
  }

  /** A product that throws aborts the whole export. */
  lemma {:induction false} RowsNone(ps: seq<RawItem>, n: nat, row: RawItem -> Option<string>)
    requires n <= |ps| && Rows(ps[..n], row).None?
    ensures Rows(ps, row).None?
    decreases |ps| - n
  {
    if n < |ps| {
      assert ps[..n + 1] == ps[..n] + [ps[n]];
      RowsAppend(ps[..n], ps[n], row);
      RowsNone(ps, n + 1, row);
    } else {
      assert ps[..n] == ps;
    }
  }

  /** Rows that are each one line and a line break split into those lines. */
  lemma {:induction false} RowsLines(ps: seq<RawItem>, row: RawItem -> Option<string>, line: RawItem -> string)
    requires forall i :: 0 <= i < |ps| ==> row(ps[i]) == Some(line(ps[i]) + "\n") && '\n' !in line(ps[i])
    ensures Rows(ps, row).Some?
    ensures Split(Rows(ps, row).value, '\n') == Map(ps, line) + [""]
  {
    if ps != [] {
      RowsLines(ps[1..], row, line);
      var rest := Rows(ps[1..], row).value;
      IndexOfAfter(line(ps[0]), rest, '\n');
      var s := line(ps[0]) + "\n" + rest;
      assert s[|line(ps[0])| + 1..] == rest;
      assert s[..|line(ps[0])|] == line(ps[0]);
      assert Map(ps, line) == [line(ps[0])] + Map(ps[1..], line);
    }
  }

  /** A product whose fields hold no line break gives a line without one. */
  predicate OneLine(p: RawItem)
  {
    Columns(p).Some? && '\n' !in Line(p)
  }

  /** With no line breaks inside the fields, the CSV is the header followed by
      exactly one line per product, in order. */
  lemma CsvLines(ps: seq<RawItem>)
    requires forall i :: 0 <= i < |ps| ==> OneLine(ps[i])
    ensures Csv(ps).Some?
    ensures Csv(ps).value[..|Header|] == Header
    ensures Split(Csv(ps).value[|Header|..], '\n') == Map(ps, Line) + [""]
  {
    RowsLines(ps, Row, Line);
    var out := Csv(ps).value;
    assert out == Header + Rows(ps, Row).value;
    assert out[|Header|..] == Rows(ps, Row).value;
  }

  /** The header line splits into the seven column names. */
  lemma HeaderColumns()
    ensures Split(Header[..|Header| - 1], ';') == ColumnNames
  {
    assert Header[..|Header| - 1] == Join(ColumnNames, ";");
    SplitJoin(ColumnNames, ';');
  }

  /** Name and category lose every ';' to ','; when the unit and the number
      texts hold no ';' either, a product's line splits back into exactly its
      seven columns. */
  lemma LineColumns(name: string, category: string, unit: string, stock: string, weight: string, price: string)
    requires ';' !in unit && ';' !in stock && ';' !in weight && ';' !in price
    ensures var cs := RowColumns(name, category, unit, stock, weight, price);
      ';' !in cs[0] && ';' !in cs[1] && Split(Join(cs, ";"), ';') == cs
  {
    var cs := RowColumns(name, category, unit, stock, weight, price);
    UnitsCases(unit);
    assert ';' !in ReplaceChar(name, ';', ',') by {
      forall j | 0 <= j < |name| ensures ReplaceChar(name, ';', ',')[j] != ';' { }
    }
    assert ';' !in ReplaceChar(category, ';', ',') by {
      forall j | 0 <= j < |category| ensures ReplaceChar(category, ';', ',')[j] != ';' { }
    }
    SplitJoin(cs, ';');
  }

  /** A missing stock or price reads "0", a missing weight falls back to
      unit_weight and then "1", and a number's first '.' becomes ','. */
  lemma NumberTexts(p: RawItem, n: nat)
    ensures !Truthy(p.stock) ==> StockText(p) == "0"
    ensures !Truthy(p.price) ==> PriceText(p) == "0"
    ensures !Truthy(p.unitWeight) && !Truthy(p.unitWeightSnake) ==> WeightText(p) == "1"
    ensures !Truthy(p.unitWeight) && Truthy(p.unitWeightSnake) ==> WeightText(p) == NumberText(p.unitWeightSnake, Number(Fin(1.0)))
    ensures p.stock == Number(Fin(n as real)) && n != 0 ==> StockText(p) == NatToString(n)
  {
    NumberToStringNat(0);
    NumberToStringNat(1);
    NumberToStringNat(n);
    assert NatToString(0) == "0" && NatToString(1) == "1";
    assert IndexOf("0", '.').None? && IndexOf("1", '.').None?;
    if p.stock == Number(Fin(n as real)) && n != 0 {
      NoDotInDigits(NatToString(n));
    }
  }

  lemma NoDotInDigits(s: string)
    requires AllDigits(s)
    ensures ReplaceFirstChar(s, '.', ',') == s
  {
    assert '.' !in s;
  }

  /** A stock of 1.5 is written "1,5". */
  lemma DecimalCommaExample()
    ensures ReplaceFirstChar("1.5", '.', ',') == "1,5"
  {
    assert IndexOf("1.5", '.') == Some(1);
  }
}
