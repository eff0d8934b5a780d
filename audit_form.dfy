// The single-product form of the products page
// (src/pages/products/components/AuditForm.tsx): the unit-weight suggestion a
// unit choice makes, the masks each input goes through, the three zones the
// primary button steps through and the quick-save button.

module AuditForm {
  import opened Seqs
  import opened Text
  import opened Js
  import opened Format

  /** The form as the inputs hold it: every field is text. */
  datatype ProductForm = ProductForm(
    name: string, category: string, stock: string, unit: string, unitWeight: string,
    minStock: string, price: string, location: string, batch: string, expirationDate: string)

  /** The blank form: category Fertilizantes, unit kg. */
  function EmptyProductForm(): ProductForm
  {
    ProductForm("", "Fertilizantes", "", "kg", "", "", "", "", "", "")
  }

  // -------------------------------------------------------- unit suggestion

  /** The units weighed as one base unit each. */
  const UnitaryUnits: seq<string> := ["kg", "L", "un", "dose", "m", "m²", "m³"]

  /** Every unit the suggestion knows; any other keeps the typed weight. */
  const SuggestedUnits: seq<string> := UnitaryUnits +
    ["ton", "sc (saco)", "sc", "bag (big bag)", "bombona", "balde", "@ (arroba)", "ml", "g"]

  /** The unit weight proposed for a newly chosen unit, the first matching
      rule winning; previous is the weight typed so far. */
  function SuggestedWeight(unit: string, previous: string): string
  {
    if unit in UnitaryUnits then "1,00"
    else if unit == "ton" then "1000,00"
    else if unit == "sc (saco)" || unit == "sc" then "50,00"
    else if unit == "bag (big bag)" then "1000,00"
    else if unit == "bombona" || unit == "balde" then "20,00"
    else if unit == "@ (arroba)" then "15,00"
    else if unit == "ml" then "0,001"
    else if unit == "g" then "0,001"
    else previous
  }

  /** The suggestion table, unit by unit. */
  lemma SuggestedWeightTable(previous: string)
    ensures forall u :: u in UnitaryUnits ==> SuggestedWeight(u, previous) == "1,00"
    ensures SuggestedWeight("ton", previous) == "1000,00"
    ensures SuggestedWeight("bag (big bag)", previous) == "1000,00"
    ensures SuggestedWeight("sc (saco)", previous) == "50,00" && SuggestedWeight("sc", previous) == "50,00"
    ensures SuggestedWeight("bombona", previous) == "20,00" && SuggestedWeight("balde", previous) == "20,00"
    ensures SuggestedWeight("@ (arroba)", previous) == "15,00"
    ensures SuggestedWeight("ml", previous) == "0,001" && SuggestedWeight("g", previous) == "0,001"
  {
  }

  /** A known unit fixes the weight whatever was typed before; any other unit
      keeps what was typed. */
  lemma SuggestedWeightKnown(unit: string, a: string, b: string)
    ensures unit in SuggestedUnits ==> SuggestedWeight(unit, a) == SuggestedWeight(unit, b)
    ensures unit !in SuggestedUnits ==> SuggestedWeight(unit, a) == a
  {
  }

  /** The unit select's onChange. */
  function WithUnit(f: ProductForm, unit: string): ProductForm
  {
    f.(unit := unit, unitWeight := SuggestedWeight(unit, f.unitWeight))
  }

  // ------------------------------------------------------------ field edits

  /** The free inputs of the form (the unit has its own handler). */
  datatype Field = Name | Category | UnitWeight | Stock | MinStock | Batch | ExpirationDate | Location | Price

  function Read(f: ProductForm, field: Field): string
  {
    match field
      case Name => f.name
      case Category => f.category
      case UnitWeight => f.unitWeight
      case Stock => f.stock
      case MinStock => f.minStock
      case Batch => f.batch
      case ExpirationDate => f.expirationDate
      case Location => f.location
      case Price => f.price
  }

  /** The text an input stores for what was typed into it. */
  function Masked(field: Field, typed: string): string
  {
    match field
      case UnitWeight => MaskNumber(Str(typed))
      case Stock => MaskNumber(Str(typed))
      case MinStock => MaskNumber(Str(typed))
      case Price => MaskValue(Str(typed))
      case Batch => Upper(typed)
      case _ => typed
  }

  function Edit(f: ProductForm, field: Field, typed: string): ProductForm
  {
    var t := Masked(field, typed);
    match field
      case Name => f.(name := t)
      case Category => f.(category := t)
      case UnitWeight => f.(unitWeight := t)
      case Stock => f.(stock := t)
      case MinStock => f.(minStock := t)
      case Batch => f.(batch := t)
      case ExpirationDate => f.(expirationDate := t)
      case Location => f.(location := t)
      case Price => f.(price := t)
  }

  /** An edit writes its own field and no other, and leaves the unit alone. */
  lemma EditTouchesOneField(f: ProductForm, field: Field, typed: string, other: Field)
    ensures Read(Edit(f, field, typed), field) == Masked(field, typed)
    ensures other != field ==> Read(Edit(f, field, typed), other) == Read(f, other)
    ensures Edit(f, field, typed).unit == f.unit
  {
  }

  /** Quantity inputs hold digits and at most one comma; the price holds ''
      or a money text; the batch is upper case. */
  lemma MaskedShapes(typed: string)
    ensures forall q :: q in {UnitWeight, Stock, MinStock} ==>
      DigitsAndCommas(Masked(q, typed)) && AtMostOneComma(Masked(q, typed))
    ensures Masked(Price, typed) == "" || MoneyText(Masked(Price, typed))
    ensures Upper(Masked(Batch, typed)) == Masked(Batch, typed)
  {
    assert forall q :: q in {UnitWeight, Stock, MinStock} ==>
      DigitsAndCommas(Masked(q, typed)) && AtMostOneComma(Masked(q, typed)) by {
      MaskNumberSpec(Str(typed));
    }
    assert Masked(Price, typed) == "" || MoneyText(Masked(Price, typed)) by {
      MaskValueShape(Str(typed));
    }
    UpperIdempotent(typed);
  }

  /** Retyping what a quantity input shows leaves it as it is. */
  lemma MaskedStable(field: Field, typed: string)
    requires field in {UnitWeight, Stock, MinStock, Batch}
    ensures Masked(field, Masked(field, typed)) == Masked(field, typed)
  {
    if field == Batch {
      UpperIdempotent(typed);
    } else {
      MaskNumberIdempotent(Str(typed));
    }
  }

  // ------------------------------------------------------------------ zones

  /** What the primary button does in a zone. */
  datatype Step = GoTo(zone: int) | Submit

  function PrimaryStep(zone: int): Step
  {
    if zone < 3 then GoTo(zone + 1) else Submit
  }

  /** From zones 1 and 2 the button moves one zone on; it submits only from
      zone 3, so the zone never leaves 1..3. */
  lemma PrimaryStepSpec(zone: int)
    requires 1 <= zone <= 3
    ensures PrimaryStep(zone).Submit? <==> zone == 3
    ensures PrimaryStep(zone).GoTo? ==> PrimaryStep(zone).zone == zone + 1 && 2 <= PrimaryStep(zone).zone <= 3
  {
  }

  /** A fresh form submits on the third press. */
  lemma ThirdPressSubmits()
    ensures PrimaryStep(1) == GoTo(2) && PrimaryStep(2) == GoTo(3) && PrimaryStep(3) == Submit
  {
  }

  // ------------------------------------------------------------- quick save

  /** handleQuickSave: nothing without a name; otherwise onSaveAndContinue
      is called, which throws when the page did not pass one. */
  datatype QuickSaveOutcome = Skipped | SavedAndContinued | Threw

  function QuickSave(name: string, callbackPassed: bool): QuickSaveOutcome
  {
    if name == "" then Skipped
    else if callbackPassed then SavedAndContinued
    else Threw
  }

  /** The save runs exactly when a name was typed and the callback exists. */
  lemma QuickSaveSpec(name: string, callbackPassed: bool)
    ensures QuickSave(name, callbackPassed).Skipped? <==> name == ""
    ensures QuickSave(name, callbackPassed).SavedAndContinued? <==> name != "" && callbackPassed
  {
  }

  // -------------------------------------------------------------- component

  /** The form state: the form and zone live in the products page and are
      handed down; the success notice is the component's own. */
  class AuditFormView {
    var productForm: ProductForm
    var activeFormZone: int
    var showSuccessNotice: bool

    predicate Valid()
      reads this
    {
      1 <= activeFormZone <= 3
    }

    constructor ()
      ensures productForm == EmptyProductForm() && activeFormZone == 1 && !showSuccessNotice
      ensures Valid()
    {
      productForm, activeFormZone, showSuccessNotice := EmptyProductForm(), 1, false;
    }

    method ChooseUnit(unit: string)
      modifies this
      ensures productForm == WithUnit(old(productForm), unit)
      ensures activeFormZone == old(activeFormZone) && showSuccessNotice == old(showSuccessNotice)
    {
      var weight := SuggestedWeight(unit, productForm.unitWeight);
      productForm := productForm.(unit := unit, unitWeight := weight);
    }

    method Type(field: Field, typed: string)
      modifies this
      ensures productForm == Edit(old(productForm), field, typed)
      ensures activeFormZone == old(activeFormZone) && showSuccessNotice == old(showSuccessNotice)
    {
      productForm := Edit(productForm, field, typed);
    }

    /** A sidebar button; the sidebar offers zones 1, 2 and 3. */
    method SelectZone(zone: int)
      requires 1 <= zone <= 3
      modifies this
      ensures activeFormZone == zone && Valid()
      ensures productForm == old(productForm) && showSuccessNotice == old(showSuccessNotice)
    {
      activeFormZone := zone;
    }

    /** The primary button: the next zone, or a submit from the last one. */
    method PrimaryClick() returns (submit: bool)
      requires Valid()
      modifies this
      ensures Valid()
      ensures submit <==> old(activeFormZone) == 3
      ensures !submit ==> activeFormZone == old(activeFormZone) + 1
      ensures submit ==> activeFormZone == old(activeFormZone)
      ensures productForm == old(productForm) && showSuccessNotice == old(showSuccessNotice)
    {
      if activeFormZone < 3 {
        activeFormZone := activeFormZone + 1;
        submit := false;
      } else {
        submit := true;
      }
    }

    /** The quick-save button; the notice goes up only after a save. */
    method QuickSaveClick(callbackPassed: bool) returns (outcome: QuickSaveOutcome)
      modifies this
      ensures outcome == QuickSave(old(productForm).name, callbackPassed)
      ensures showSuccessNotice == (outcome.SavedAndContinued? || old(showSuccessNotice))
      ensures productForm == old(productForm) && activeFormZone == old(activeFormZone)
    {
      if productForm.name == "" {
        outcome := Skipped;
      } else if !callbackPassed {
        outcome := Threw;
      } else {
        outcome := SavedAndContinued;
        showSuccessNotice := true;
      }
    }

    /** The two-second timer set by a quick save. */
    method NoticeTimeout()
      modifies this
      ensures !showSuccessNotice
      ensures productForm == old(productForm) && activeFormZone == old(activeFormZone)
    {
      showSuccessNotice := false;
    }
  }
}
