// The quick stock adjustment popover of a product card
// (src/pages/products/components/QuickAdjustPopover.tsx): the payload its
// submit hands to the page and the stock preview it shows while typing.

module QuickAdjust {
  import opened Seqs
  import opened Text
  import opened Js
  import opened Format
  import opened Records
  import opened Units
  import FieldApplications
  import opened AppContext

  /** The reason preselected in the popover. */
  const DefaultReason := "Ajuste de Auditoria"

  /** The popover's inputs, as text. kind is 'in' or 'out'. */
  datatype AdjustForm = AdjustForm(
    quantity: string, kind: string, reason: string, operator: string,
    plotId: string, cost: string, batch: string, date: string)

  /** The inputs when the popover opens; userName is settings.userName ('' when
      unset) and today the date part of the clock. */
  function OpenedForm(userName: string, today: string): AdjustForm
  {
    AdjustForm("", "in", DefaultReason, userName, "", "", "", today)
  }

  /** The argument of onAdjust. An absent optional field is None. plotId is
      parseInt of the selector's text, so it can be NaN. */
  datatype Payload = Payload(
    productId: int, kind: string, quantity: real, reason: string, operator: string,
    plotId: Option<Num>, cost: Option<real>, batch: Option<string>, date: string)

  /** parseInt(plotId) as a number. */
  function PlotNumber(s: string): Num
  {
    match ParseInt(s)
      case Some(i) => Fin(i as real)
      case None => NaN
  }

  /** plots.find(p => p.id === parseInt(plotId)). */
  function SelectedPlot(plots: seq<Plot>, plotId: string): Option<Plot>
  {
    match ParseInt(plotId)
      case Some(i) => FieldApplications.FindPlot(plots, i)
      case None => None
  }

  /** The reason sent: an 'out' on a known plot names the plot, followed by
      the chosen reason unless it is the default one. */
  function FinalReason(f: AdjustForm, plots: seq<Plot>): string
  {
    if f.kind == "out" && f.plotId != "" && SelectedPlot(plots, f.plotId).Some? then
      var plot := SelectedPlot(plots, f.plotId).value;
      "Aplicação: " + plot.name + (if f.reason != DefaultReason then " - " + f.reason else "")
    else f.reason
  }

  /** handleSubmit: None when nothing is sent (and the popover stays open). */
  function Submission(f: AdjustForm, productId: int, plots: seq<Plot>): Option<Payload>
  {
    var qty := ParseText(f.quantity);
    if qty <= 0.0 then None
    else Some(Payload(productId, f.kind, qty, FinalReason(f, plots), f.operator,
      if f.plotId == "" then None else Some(PlotNumber(f.plotId)),
      if f.kind == "in" then Some(ParseText(f.cost)) else None,
      if f.batch == "" then None else Some(f.batch),
      f.date))
  }

  /** Nothing is sent unless the parsed quantity is positive. */
  lemma SubmissionGuard(f: AdjustForm, productId: int, plots: seq<Plot>)
    ensures Submission(f, productId, plots).None? <==> ParseText(f.quantity) <= 0.0
    ensures f.quantity == "" ==> Submission(f, productId, plots).None?
  {
  }

  /** The fields of a sent payload: the parsed quantity; the cost only for an
      entry; the plot only when one was chosen; the batch only when typed. */
  lemma SubmissionFields(f: AdjustForm, productId: int, plots: seq<Plot>)
    requires Submission(f, productId, plots).Some?
    ensures var pl := Submission(f, productId, plots).value;
      pl.productId == productId && pl.kind == f.kind && pl.quantity == ParseText(f.quantity) > 0.0 &&
      pl.operator == f.operator && pl.date == f.date &&
      (pl.cost.Some? <==> f.kind == "in") &&
      (pl.cost.Some? ==> pl.cost.value == ParseText(f.cost)) &&
      (pl.plotId.None? <==> f.plotId == "") &&
      (pl.batch.None? <==> f.batch == "") &&
      (pl.batch.Some? ==> pl.batch.value == f.batch)
  {
  }

  /** The reason rule in both directions: the plot prefix appears exactly for
      an 'out' on a plot that exists, and the chosen reason is appended only
      when it is not the default one. */
  lemma FinalReasonSpec(f: AdjustForm, plots: seq<Plot>)
    ensures !(f.kind == "out" && SelectedPlot(plots, f.plotId).Some?) ==> FinalReason(f, plots) == f.reason
    ensures f.kind == "out" && SelectedPlot(plots, f.plotId).Some? && f.reason == DefaultReason ==>
      FinalReason(f, plots) == "Aplicação: " + SelectedPlot(plots, f.plotId).value.name
    ensures f.kind == "out" && SelectedPlot(plots, f.plotId).Some? && f.reason != DefaultReason ==>
      FinalReason(f, plots) == "Aplicação: " + SelectedPlot(plots, f.plotId).value.name + " - " + f.reason
  {
    if SelectedPlot(plots, f.plotId).Some? {
      assert ParseInt(f.plotId).Some?;
      assert f.plotId != "";
    }
  }

  /** A plot chosen from the selector (whose option values are the plot ids)
      is the one found, and its id is the one sent. */
  lemma SelectedPlotRoundTrip(plots: seq<Plot>, k: nat)
    requires k < |plots| && UniqueIds(plots, (p: Plot) => p.id)
    ensures SelectedPlot(plots, IntToString(plots[k].id)) == Some(plots[k])
    ensures PlotNumber(IntToString(plots[k].id)) == Fin(plots[k].id as real)
  {
    ParseIntToString(plots[k].id);
    var r := FieldApplications.FindPlot(plots, plots[k].id);
    assert r.Some?;
    var j :| 0 <= j < |plots| && plots[j] == r.value;
    assert j == k;
  }

  // ---------------------------------------------------------------- preview

  /** What the preview shows: the operation's weight, the stock after it, that
      stock's weight and whether the negative-stock warning is up. */
  datatype Preview = Preview(operationWeight: real, newStock: real, weightAfter: real, warning: bool)

  /** getConversionDisplay: nothing while the quantity reads as 0. */
  function StockPreview(f: AdjustForm, p: Product): Option<Preview>
  {
    var qty := ParseText(f.quantity);
    if qty == 0.0 then None
    else
      var newStock := if f.kind == "in" then p.stock + qty else p.stock - qty;
      Some(Preview(qty * Weight(p), newStock, newStock * Weight(p), newStock < 0.0))
  }

  /** The preview's stock is the one the store's adjustment rule computes for
      the quantity in the product's own unit, and the warning is up exactly
      when it is below zero. */
  lemma StockPreviewSpec(f: AdjustForm, p: Product)
    ensures StockPreview(f, p).None? <==> ParseText(f.quantity) == 0.0
    ensures StockPreview(f, p).Some? ==>
      StockPreview(f, p).value.newStock == StockAfter(p.stock, f.kind, ParseText(f.quantity))
    ensures StockPreview(f, p).Some? ==>
      (StockPreview(f, p).value.warning <==> StockPreview(f, p).value.newStock < 0.0)
  {
  }

  /** An entry never warns on a product whose stock is not negative. */
  lemma EntryNeverWarns(f: AdjustForm, p: Product)
    requires f.kind == "in" && p.stock >= 0.0 && ParseText(f.quantity) >= 0.0
    ensures StockPreview(f, p).Some? ==> !StockPreview(f, p).value.warning
  {
  }

  // ------------------------------------------------------------ component

  /** The popover's inputs. */
  datatype AdjustInput = Quantity | Kind | Reason | Operator | PlotChoice | Cost | Batch | Date

  /** The form after one input: the quantity goes through maskNumber, the cost
      through maskValue and the batch is upper-cased. */
  function Entered(f: AdjustForm, input: AdjustInput, typed: string): AdjustForm
  {
    match input
      case Quantity => f.(quantity := MaskNumber(Str(typed)))
      case Kind => f.(kind := typed)
      case Reason => f.(reason := typed)
      case Operator => f.(operator := typed)
      case PlotChoice => f.(plotId := typed)
      case Cost => f.(cost := MaskValue(Str(typed)))
      case Batch => f.(batch := Upper(typed))
      case Date => f.(date := typed)
  }

  /** The quantity and the cost hold only mask shapes, the batch upper case. */
  lemma EnteredShapes(f: AdjustForm, typed: string)
    ensures DigitsAndCommas(Entered(f, Quantity, typed).quantity) && AtMostOneComma(Entered(f, Quantity, typed).quantity)
    ensures Entered(f, Cost, typed).cost == "" || MoneyText(Entered(f, Cost, typed).cost)
    ensures Upper(Entered(f, Batch, typed).batch) == Entered(f, Batch, typed).batch
  {
    MaskNumberSpec(Str(typed));
    MaskValueShape(Str(typed));
    UpperIdempotent(typed);
  }

  class QuickAdjustView {
    var quantity: string
    var kind: string
    var reason: string
    var operator: string
    var plotId: string
    var cost: string
    var batch: string
    var date: string

    function Form(): AdjustForm
      reads this
    {
      AdjustForm(quantity, kind, reason, operator, plotId, cost, batch, date)
    }

    constructor (userName: string, today: string)
      ensures Form() == OpenedForm(userName, today)
    {
      quantity, kind, reason, operator := "", "in", DefaultReason, userName;
      plotId, cost, batch, date := "", "", "", today;
    }

    method Enter(input: AdjustInput, typed: string)
      modifies this
      ensures Form() == Entered(old(Form()), input, typed)
    {
      match input
      case Quantity => quantity := MaskNumber(Str(typed));
      case Kind => kind := typed;
      case Reason => reason := typed;
      case Operator => operator := typed;
      case PlotChoice => plotId := typed;
      case Cost => cost := MaskValue(Str(typed));
      case Batch => batch := Upper(typed);
      case Date => date := typed;
    }

    /** handleSubmit: the finalReason is assembled step by step, as the
        component does; onAdjust gets the payload and onClose follows. */
    method Submit(productId: int, plots: seq<Plot>) returns (payload: Option<Payload>, closed: bool)
      ensures payload == Submission(Form(), productId, plots)
      ensures closed <==> payload.Some?
    {
      var qty := ParseText(quantity);
      if qty > 0.0 {
        var finalReason := reason;
        if kind == "out" && plotId != "" {
          var plot := SelectedPlot(plots, plotId);
          if plot.Some? {
            finalReason := "Aplicação: " + plot.value.name + (if reason != DefaultReason then " - " + reason else "");
          }
        }
        payload := Some(Payload(productId, kind, qty, finalReason, operator,
          if plotId == "" then None else Some(PlotNumber(plotId)),
          if kind == "in" then Some(ParseText(cost)) else None,
          if batch == "" then None else Some(batch),
          date));
        closed := true;
      } else {
        payload, closed := None, false;
      }
    }
  }
}
