// UNIT_CONFIG and calculateNormalizedQuantity of src/contexts/AppContext.tsx:
// the table of unit factors and the conversion of a quantity typed in one
// unit into the product's own unit.

module Units {
  import opened Seqs
  import opened Text
  import opened Js
  import opened Records

  // ------------------------------------------------------------ UNIT_CONFIG

  /** A unit's factor to the standard unit of its kind, or 'weight': the
      product's own unit weight. */
  datatype Factor = ByWeight | Fixed(f: PosReal)

  type PosReal = r: real | r > 0.0 witness 1.0

  datatype UnitEntry = UnitEntry(factor: Factor, kind: string)

  const UnitConfig: seq<(string, UnitEntry)> := [
    ("kg", UnitEntry(Fixed(1.0), "weight")),
    ("g", UnitEntry(Fixed(0.001), "weight")),
    ("mg", UnitEntry(Fixed(0.000001), "weight")),
    ("ton", UnitEntry(Fixed(1000.0), "weight")),
    ("@ (arroba)", UnitEntry(Fixed(15.0), "weight")),
    ("L", UnitEntry(Fixed(1.0), "volume")),
    ("ml", UnitEntry(Fixed(0.001), "volume")),
    ("galão", UnitEntry(ByWeight, "volume")),
    ("tambor", UnitEntry(ByWeight, "volume")),
    ("bombona", UnitEntry(ByWeight, "volume")),
    ("balde", UnitEntry(ByWeight, "volume")),
    ("frasco", UnitEntry(ByWeight, "volume")),
    ("ampola", UnitEntry(Fixed(0.01), "volume")),
    ("bisnaga", UnitEntry(Fixed(0.1), "volume")),
    ("un", UnitEntry(Fixed(1.0), "unit")),
    ("sc (saco)", UnitEntry(ByWeight, "unit")),
    ("sc", UnitEntry(ByWeight, "unit")),
    ("bag (big bag)", UnitEntry(ByWeight, "unit")),
    ("pacote", UnitEntry(ByWeight, "unit")),
    ("caixa", UnitEntry(ByWeight, "unit")),
    ("fardo", UnitEntry(ByWeight, "unit")),
    ("palete", UnitEntry(ByWeight, "unit")),
    ("kit", UnitEntry(Fixed(1.0), "unit")),
    ("par", UnitEntry(Fixed(1.0), "unit")),
    ("dúzia", UnitEntry(Fixed(12.0), "unit")),
    ("milheiro", UnitEntry(Fixed(1000.0), "unit")),
    ("metro", UnitEntry(Fixed(1.0), "dimension")),
    ("cm", UnitEntry(Fixed(0.01), "dimension")),
    ("mm", UnitEntry(Fixed(0.001), "dimension")),
    ("m²", UnitEntry(Fixed(1.0), "dimension")),
    ("m³", UnitEntry(Fixed(1.0), "dimension")),
    ("rolo", UnitEntry(Fixed(1.0), "dimension")),
    ("bobina", UnitEntry(Fixed(1.0), "dimension")),
    ("barra", UnitEntry(Fixed(1.0), "dimension")),
    ("tubo", UnitEntry(Fixed(1.0), "dimension")),
    ("folha", UnitEntry(Fixed(1.0), "dimension")),
    ("dose", UnitEntry(Fixed(1.0), "special")),
    ("ha (hectare)", UnitEntry(Fixed(1.0), "special")),
    ("alqueire", UnitEntry(Fixed(2.42), "special"))
  ]

  /** The entry of key u in a table of (key, entry) pairs. */
  function Entry(t: seq<(string, UnitEntry)>, u: string): Option<UnitEntry>
  {
    if t == [] then None else if t[0].0 == u then Some(t[0].1) else Entry(t[1..], u)
  }

  /** UNIT_CONFIG[u] || UNIT_CONFIG[u.toLowerCase()] || UNIT_CONFIG[u.toUpperCase()]. */
  function LookupUnit(u: string): Option<UnitEntry>
  {
    var e := Entry(UnitConfig, u);
    if e.Some? then e
    else
      var l := Entry(UnitConfig, Lower(u));
      if l.Some? then l else Entry(UnitConfig, Upper(u))
  }

  /** parseFloat(product.unitWeight) || 1: a zero weight counts as 1. */
  function Weight(p: Product): (w: real)
    ensures w != 0.0
    ensures p.unitWeight != 0.0 ==> w == p.unitWeight
  {
    OrOne(Some(p.unitWeight))
  }

  /** getVal: the factor of unit u for a product whose unit is baseUnit. */
  function UnitValue(u: string, baseUnit: string, weight: real): (r: real)
    requires weight != 0.0
    ensures r != 0.0
  {
    if u == "" then 1.0
    else
      var nu := Trim(u);
      match LookupUnit(nu)
        case None => if nu == baseUnit then weight else 1.0
        case Some(e) => (match e.factor case ByWeight => weight case Fixed(f) => f)
  }

  /** calculateNormalizedQuantity: qtyInput given in inputUnit, expressed in
      the product's own unit. */
  function Normalized(p: Product, qty: Num, inputUnit: string): real
  {
    if qty.NaN? then 0.0
    else
      var unit := if inputUnit == "" then p.unit else inputUnit;
      if unit == p.unit then qty.val
      else
        var w := Weight(p);
        Convert(qty.val, UnitValue(unit, p.unit, w), UnitValue(p.unit, p.unit, w))
  }

  /** qty * num / den: the quantity in standard units, then in the base unit. */
  function Convert(q: real, num: real, den: real): real
    requires den != 0.0
  {
    q * num / den
  }

  lemma ConvertNonZero(q: real, num: real, den: real)
    requires q != 0.0 && num != 0.0 && den != 0.0
    ensures Convert(q, num, den) != 0.0
  {
    assert q * num != 0.0;
  }

  /** A non-zero quantity never converts to zero, since no factor is zero. */
  lemma NormalizedNonZero(p: Product, q: real, u: string)
    requires q != 0.0
    ensures Normalized(p, Fin(q), u) != 0.0
  {
    if (if u == "" then p.unit else u) != p.unit {
      ConvertNonZero(q, UnitValue(u, p.unit, Weight(p)), UnitValue(p.unit, p.unit, Weight(p)));
    }
  }

  lemma ConvertAdditive(a: real, b: real, num: real, den: real)
    requires den != 0.0
    ensures Convert(a + b, num, den) == Convert(a, num, den) + Convert(b, num, den)
  {
    assert (a + b) * num == a * num + b * num;
  }

  lemma ConvertProportional(q: real, num: real, den: real)
    requires den != 0.0
    ensures Convert(q, num, den) == q * Convert(1.0, num, den)
  {
    assert q * num / den == q * (num / den);
  }

  /** The quantity passes through when no unit is given or when it is the
      product's own unit; NaN gives 0. */
  lemma NormalizedSameUnit(p: Product, q: real, inputUnit: string)
    requires inputUnit == "" || inputUnit == p.unit
    ensures Normalized(p, Fin(q), inputUnit) == q
    ensures Normalized(p, NaN, inputUnit) == 0.0
  {
  }

  /** A different unit converts through the two factors: qty times the input
      unit's factor over the base unit's factor. */
  lemma NormalizedIsConvert(p: Product, q: real, u: string)
    requires (if u == "" then p.unit else u) != p.unit
    ensures Normalized(p, Fin(q), u) == Convert(q, UnitValue(u, p.unit, Weight(p)), UnitValue(p.unit, p.unit, Weight(p)))
  {
  }

  /** For a fixed product and unit the conversion is additive. */
  lemma NormalizedAdditive(p: Product, a: real, b: real, u: string)
    ensures Normalized(p, Fin(a + b), u) == Normalized(p, Fin(a), u) + Normalized(p, Fin(b), u)
  {
    if (if u == "" then p.unit else u) != p.unit {
      NormalizedIsConvert(p, a + b, u);
      NormalizedIsConvert(p, a, u);
      NormalizedIsConvert(p, b, u);
      ConvertAdditive(a, b, UnitValue(u, p.unit, Weight(p)), UnitValue(p.unit, p.unit, Weight(p)));
    }
  }

  /** A unit the table does not know is worth the unit weight when it is the
      product's own unit and 1 otherwise; a 'weight' entry is worth the unit
      weight. */
  lemma UnitValueFallbacks(u: string, baseUnit: string, w: real)
    requires w != 0.0 && u != ""
    ensures LookupUnit(Trim(u)).None? && Trim(u) == baseUnit ==> UnitValue(u, baseUnit, w) == w
    ensures LookupUnit(Trim(u)).None? && Trim(u) != baseUnit ==> UnitValue(u, baseUnit, w) == 1.0
    ensures LookupUnit(Trim(u)).Some? && LookupUnit(Trim(u)).value.factor.ByWeight? ==> UnitValue(u, baseUnit, w) == w
  {
  }

  lemma LookupGrams()
    ensures LookupUnit("g") == Some(UnitEntry(Fixed(0.001), "weight"))
  {
    assert UnitConfig[1] == ("g", UnitEntry(Fixed(0.001), "weight"));
    assert Entry(UnitConfig[1..], "g") == Some(UnitEntry(Fixed(0.001), "weight"));
  }

  lemma LookupKilos()
    ensures LookupUnit("kg") == Some(UnitEntry(Fixed(1.0), "weight"))
  {
    assert UnitConfig[0] == ("kg", UnitEntry(Fixed(1.0), "weight"));
  }

  lemma UnitValueKnown(u: string, baseUnit: string, w: real, e: UnitEntry)
    requires w != 0.0 && u != "" && Trim(u) == u && LookupUnit(u) == Some(e) && e.factor.Fixed?
    ensures UnitValue(u, baseUnit, w) == e.factor.f
  {
  }

}
