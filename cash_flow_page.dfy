// The cash-flow page (src/pages/finance/CashFlowPage.tsx): one entry per day
// of the selected month with that day's income, expense and the running
// balance, the month's totals, the balance chart and the movements table.

module CashFlowPage {
  import opened Seqs
  import opened Text
  import opened Records
  import opened AppContext
  import FinancePage

  // ------------------------------------------------------------- calendar

  /** new Date(y, m, d) reads a year from 0 to 99 as 1900 + y. */
  function CalendarYear(y: int): int
  {
    if 0 <= y <= 99 then 1900 + y else y
  }

  /** The proleptic Gregorian leap-year rule Date follows. */
  predicate LeapYear(y: int)
  {
    y % 4 == 0 && (y % 100 != 0 || y % 400 == 0)
  }

  /** new Date(year, month + 1, 0).getDate(): the last day of the month,
      month counted from 0. */
  function DaysInMonth(year: int, month: int): (n: nat)
    requires 0 <= month < 12
    ensures 28 <= n <= 31
  {
    if month == 1 then (if LeapYear(CalendarYear(year)) then 29 else 28)
    else if month == 3 || month == 5 || month == 8 || month == 10 then 30
    else 31
  }

  /** The days of the months before `month`. */
  function DaysBefore(year: int, month: int): nat
    requires 0 <= month <= 12
  {
    if month == 0 then 0 else DaysBefore(year, month - 1) + DaysInMonth(year, month - 1)
  }

  /** The twelve months make up a year of 365 days, 366 in a leap year. */
  lemma YearLength(year: int)
    ensures DaysBefore(year, 12) == if LeapYear(CalendarYear(year)) then 366 else 365
  {
    assert DaysBefore(year, 1) == 31;
    assert DaysBefore(year, 2) == 31 + DaysInMonth(year, 1);
    assert DaysBefore(year, 3) == DaysBefore(year, 2) + 31;
    assert DaysBefore(year, 4) == DaysBefore(year, 3) + 30;
    assert DaysBefore(year, 5) == DaysBefore(year, 4) + 31;
    assert DaysBefore(year, 6) == DaysBefore(year, 5) + 30;
    assert DaysBefore(year, 7) == DaysBefore(year, 6) + 31;
    assert DaysBefore(year, 8) == DaysBefore(year, 7) + 31;
    assert DaysBefore(year, 9) == DaysBefore(year, 8) + 30;
    assert DaysBefore(year, 10) == DaysBefore(year, 9) + 31;
    assert DaysBefore(year, 11) == DaysBefore(year, 10) + 30;
    assert DaysBefore(year, 12) == DaysBefore(year, 11) + 31;
  }

  lemma DaysInMonthExamples()
    ensures DaysInMonth(2024, 1) == 29 && DaysInMonth(2025, 1) == 28
    ensures DaysInMonth(2000, 1) == 29 && DaysInMonth(1900, 1) == 28
    ensures DaysInMonth(0, 1) == 28 && DaysInMonth(4, 1) == 29 && DaysInMonth(100, 1) == 28
    ensures DaysInMonth(2025, 3) == 30 && DaysInMonth(2025, 11) == 31
  {
  }

  /** `${year}-${pad(month + 1)}-${pad(day)}`, the date the transactions of the
      day carry. */
  function DateKey(year: int, month: int, day: int): string
    requires 0 <= month < 12 && 1 <= day <= 31
  {
    IntToString(year) + "-" + Pad2(month + 1) + "-" + Pad2(day)
  }

  /** Within a month the days have distinct keys. */
  lemma DateKeyInjective(year: int, month: int, d1: int, d2: int)
    requires 0 <= month < 12 && 1 <= d1 <= 31 && 1 <= d2 <= 31
    requires DateKey(year, month, d1) == DateKey(year, month, d2)
    ensures d1 == d2
  {
    var prefix := IntToString(year) + "-" + Pad2(month + 1) + "-";
    assert DateKey(year, month, d1)[|prefix|..] == Pad2(d1);
    assert DateKey(year, month, d2)[|prefix|..] == Pad2(d2);
  }

  // ----------------------------------------------------------- daily flow

  function OnDate(key: string): Transaction -> bool
  {
    (t: Transaction) => t.date == key
  }

  datatype DayFlow = DayFlow(
    day: int, date: string, income: real, expense: real, balance: real, transactions: seq<Transaction>)

  function Net(d: DayFlow): real
  {
    d.income - d.expense
  }

  /** The entry of one day, given the balance carried into it. */
  function Day(ts: seq<Transaction>, year: int, month: int, day: int, carried: real): DayFlow
    requires 0 <= month < 12 && 1 <= day <= 31
  {
    var key := DateKey(year, month, day);
    var on := Filter(ts, OnDate(key));
    var s := FinancePage.SummaryOf(on);
    DayFlow(day, key, s.income, s.expense, carried + s.income - s.expense, on)
  }

  /** Every balance is the sum of the nets up to and including its day, so the
      month opens at zero. */
  predicate RunningBalances(days: seq<DayFlow>)
  {
    forall i :: 0 <= i < |days| ==> days[i].balance == Sum(days[..i + 1], Net)
  }

  /** The balance carried into position k: zero on the first day. */
  function Carried(days: seq<DayFlow>, k: nat): real
    requires k <= |days|
  {
    if k == 0 then 0.0 else days[k - 1].balance
  }

  /** The first |days| days of the month, day k + 1 at position k, each with
      the transactions dated that day, their income and expense, and the
      balance carried from the day before. */
  predicate FlowPrefix(days: seq<DayFlow>, ts: seq<Transaction>, year: int, month: int)
    requires 0 <= month < 12
  {
    |days| <= DaysInMonth(year, month) &&
    forall k :: 0 <= k < |days| ==> days[k] == Day(ts, year, month, k + 1, Carried(days, k))
  }

  /** getDailyCashFlow's result: every day of the month. */
  predicate IsDailyFlow(days: seq<DayFlow>, ts: seq<Transaction>, year: int, month: int)
    requires 0 <= month < 12
  {
    |days| == DaysInMonth(year, month) && FlowPrefix(days, ts, year, month)
  }

  lemma CarriedPrefix(days: seq<DayFlow>, d: DayFlow, k: nat)
    requires k <= |days|
    ensures Carried(days + [d], k) == Carried(days, k)
  {
    if k > 0 {
      assert (days + [d])[k - 1] == days[k - 1];
    }
  }

  lemma FlowPrefixExtend(days: seq<DayFlow>, ts: seq<Transaction>, year: int, month: int)
    requires 0 <= month < 12 && FlowPrefix(days, ts, year, month) && |days| < DaysInMonth(year, month)
    ensures FlowPrefix(days + [Day(ts, year, month, |days| + 1, Carried(days, |days|))], ts, year, month)
  {
    var d := Day(ts, year, month, |days| + 1, Carried(days, |days|));
    var e := days + [d];
    forall k | 0 <= k < |e| ensures e[k] == Day(ts, year, month, k + 1, Carried(e, k)) {
      CarriedPrefix(days, d, k);
      if k < |days| {
        assert e[k] == days[k];
      } else {
        assert e[k] == d;
      }
    }
  }

  lemma RunningExtend(days: seq<DayFlow>, d: DayFlow)
    requires RunningBalances(days)
    requires d.balance == Sum(days, Net) + Net(d)
    ensures RunningBalances(days + [d]) && Sum(days + [d], Net) == d.balance
  {
    var e := days + [d];
    SumAppend(days, [d], Net);
    assert Sum([d], Net) == Net(d);
    forall k | 0 <= k < |e| ensures e[k].balance == Sum(e[..k + 1], Net) {
      if k < |days| {
        assert e[..k + 1] == days[..k + 1];
      } else {
        assert e[..k + 1] == e;
      }
    }
  }

  method DailyCashFlow(ts: seq<Transaction>, year: int, month: int) returns (days: seq<DayFlow>)
    requires 0 <= month < 12
    ensures IsDailyFlow(days, ts, year, month)
    ensures RunningBalances(days)
  {
    var n := DaysInMonth(year, month);
    days := [];
    var running := 0.0;
    var i := 1;
    while i <= n
      invariant 1 <= i <= n + 1 && |days| == i - 1
      invariant running == Sum(days, Net) && running == Carried(days, |days|)
      invariant FlowPrefix(days, ts, year, month)
      invariant RunningBalances(days)
    {
      var d := Day(ts, year, month, i, running);
      FlowPrefixExtend(days, ts, year, month);
      RunningExtend(days, d);
      days := days + [d];
      running := d.balance;
      i := i + 1;
    }
  }

  lemma DayDate(days: seq<DayFlow>, ts: seq<Transaction>, year: int, month: int, i: nat)
    requires 0 <= month < 12 && FlowPrefix(days, ts, year, month) && i < |days|
    ensures days[i].date == DateKey(year, month, i + 1)
  {
    assert days[i] == Day(ts, year, month, i + 1, Carried(days, i));
  }

  /** The fields of the day at position i. */
  lemma DayFields(days: seq<DayFlow>, ts: seq<Transaction>, year: int, month: int, i: nat)
    requires 0 <= month < 12 && FlowPrefix(days, ts, year, month) && i < |days|
    ensures days[i].date == DateKey(year, month, i + 1)
    ensures days[i].transactions == Filter(ts, OnDate(days[i].date))
    ensures days[i].income == FinancePage.SummaryOf(days[i].transactions).income
    ensures days[i].expense == FinancePage.SummaryOf(days[i].transactions).expense
  {
    assert days[i] == Day(ts, year, month, i + 1, Carried(days, i));
  }

  /** A transaction is listed on day i exactly when it carries that day's
      date. */
  lemma DayMembers(days: seq<DayFlow>, ts: seq<Transaction>, year: int, month: int)
    requires 0 <= month < 12 && IsDailyFlow(days, ts, year, month)
    ensures forall i, t :: 0 <= i < |days| ==>
      (t in days[i].transactions <==> t in ts && t.date == DateKey(year, month, i + 1))
  {
    forall i | 0 <= i < |days|
      ensures forall t :: t in days[i].transactions <==> t in ts && t.date == DateKey(year, month, i + 1)
    {
      DayFields(days, ts, year, month, i);
      FilterMembers(ts, OnDate(DateKey(year, month, i + 1)));
    }
  }

  lemma DatesDistinct(days: seq<DayFlow>, year: int, month: int)
    requires 0 <= month < 12 && |days| <= 31
    requires forall i :: 0 <= i < |days| ==> days[i].date == DateKey(year, month, i + 1)
    ensures forall i, j :: 0 <= i < |days| && 0 <= j < |days| && days[i].date == days[j].date ==> i == j
  {
    forall i, j | 0 <= i < |days| && 0 <= j < |days| && days[i].date == days[j].date
      ensures i == j
    {
      DateKeyInjective(year, month, i + 1, j + 1);
    }
  }

  /** The days' dates are distinct, so no transaction is counted on two days. */
  lemma DaysDistinct(days: seq<DayFlow>, ts: seq<Transaction>, year: int, month: int)
    requires 0 <= month < 12 && IsDailyFlow(days, ts, year, month)
    ensures forall i, j :: 0 <= i < |days| && 0 <= j < |days| && days[i].date == days[j].date ==> i == j
  {
    forall i | 0 <= i < |days| ensures days[i].date == DateKey(year, month, i + 1) {
      DayDate(days, ts, year, month, i);
    }
    DatesDistinct(days, year, month);
  }

  // --------------------------------------------------------------- totals

  function Income(d: DayFlow): real
  {
    d.income
  }

  function Expense(d: DayFlow): real
  {
    d.expense
  }

  /** totalMonthIncome */
  function TotalIncome(days: seq<DayFlow>): real
  {
    Sum(days, Income)
  }

  /** totalMonthExpense */
  function TotalExpense(days: seq<DayFlow>): real
  {
    Sum(days, Expense)
  }

  /** dailyFlow[dailyFlow.length - 1]?.balance || 0 */
  function ClosingBalance(days: seq<DayFlow>): real
  {
    if days == [] then 0.0 else days[|days| - 1].balance
  }

  lemma {:induction false} NetSum(days: seq<DayFlow>)
    ensures Sum(days, Net) == TotalIncome(days) - TotalExpense(days)
  {
    if days != [] {
      NetSum(days[1..]);
    }
  }

  /** The closing balance is the month's income minus its expense. */
  lemma ClosingIsNet(days: seq<DayFlow>)
    requires RunningBalances(days)
    ensures ClosingBalance(days) == TotalIncome(days) - TotalExpense(days)
  {
    NetSum(days);
    if days != [] {
      assert days[..|days|] == days;
    }
  }

  /** The month opens at zero and every day moves the balance by its own
      income minus expense. */
  lemma BalanceStep(days: seq<DayFlow>, i: nat)
    requires RunningBalances(days) && i < |days|
    ensures days[i].balance == (if i == 0 then 0.0 else days[i - 1].balance) + days[i].income - days[i].expense
  {
    SumAppend(days[..i], [days[i]], Net);
    assert days[..i] + [days[i]] == days[..i + 1];
    if i == 0 {
      assert days[..0] == [];
    } else {
      assert days[..i] == days[..i - 1 + 1];
    }
  }

  // ---------------------------------------------------------------- chart

  datatype Bar = Bar(dayLabel: string, value: real, kind: string)

  function BarOf(d: DayFlow): Bar
  {
    Bar(IntToString(d.day), d.balance, if d.balance >= 0.0 then "income" else "expense")
  }

  /** chartData */
  function Chart(days: seq<DayFlow>): seq<Bar>
  {
    Map(days, BarOf)
  }

  function Abs(x: real): (r: real)
    ensures r >= 0.0 && (r == x || r == -x)
  {
    if x < 0.0 then -x else x
  }

  /** Math.max(...chartData.map(c => Math.abs(c.value))) over a chart with at
      least one bar. */
  function MaxAbs(bars: seq<Bar>): (m: real)
    requires bars != []
    ensures forall i :: 0 <= i < |bars| ==> Abs(bars[i].value) <= m
    ensures exists i :: 0 <= i < |bars| && Abs(bars[i].value) == m
  {
    if |bars| == 1 then Abs(bars[0].value)
    else
      var rest := MaxAbs(bars[1..]);
      assert forall i :: 1 <= i < |bars| ==> bars[i] == bars[1..][i - 1];
      if Abs(bars[0].value) >= rest then Abs(bars[0].value) else rest
  }

  /** The scale: the largest magnitude, or 1 when every balance is zero. */
  function Scale(bars: seq<Bar>): real
    requires bars != []
  {
    var m := MaxAbs(bars);
    if m == 0.0 then 1.0 else m
  }

  /** Math.min(Math.abs(d.value) / maxVal * 100, 100) */
  function Height(b: Bar, scale: real): real
    requires scale > 0.0
  {
    var h := Abs(b.value) / scale * 100.0;
    if h < 100.0 then h else 100.0
  }

  /** A bar's height is a percentage, full for the largest magnitude. */
  lemma HeightBounds(b: Bar, scale: real)
    requires scale > 0.0 && Abs(b.value) <= scale
    ensures 0.0 <= Height(b, scale) <= 100.0
    ensures Abs(b.value) == scale ==> Height(b, scale) == 100.0
  {
    var q := Abs(b.value) / scale;
    assert q * scale == Abs(b.value);
    assert q >= 0.0;
    FinancePage.RatioBounds(Abs(b.value), scale);
  }

  /** Day i's bar is labelled with its day, takes its balance and is green
      exactly when the balance is not negative. */
  lemma ChartBar(days: seq<DayFlow>, i: nat)
    requires i < |days| && days[i].day >= 0
    ensures |Chart(days)| == |days|
    ensures var b := Chart(days)[i];
      DigitsValue(b.dayLabel) == days[i].day && b.value == days[i].balance &&
      (b.kind == "income" <==> days[i].balance >= 0.0)
  {
    NatToStringValue(days[i].day);
  }

  /** Every bar's height is a percentage, and a bar of the largest non-zero
      magnitude of the month is full. */
  lemma ChartHeights(bars: seq<Bar>, i: nat)
    requires i < |bars|
    ensures 0.0 <= Height(bars[i], Scale(bars)) <= 100.0
    ensures Abs(bars[i].value) == MaxAbs(bars) && bars[i].value != 0.0 ==> Height(bars[i], Scale(bars)) == 100.0
  {
    HeightBounds(bars[i], Scale(bars));
  }

  // ---------------------------------------------------------------- table

  predicate HasMovements(d: DayFlow)
  {
    |d.transactions| > 0
  }

  /** dailyFlow.filter(d => d.transactions.length > 0) */
  function TableDays(days: seq<DayFlow>): seq<DayFlow>
  {
    Filter(days, HasMovements)
  }

  /** The table lists the days with movements in order; the "no movements"
      row shows exactly when it lists none; and the days left out contribute
      nothing to the month's income or expense. */
  lemma TableSpec(days: seq<DayFlow>, ts: seq<Transaction>, year: int, month: int)
    requires 0 <= month < 12 && IsDailyFlow(days, ts, year, month)
    ensures SubseqOf(TableDays(days), days)
    ensures TableDays(days) == [] <==> forall i :: 0 <= i < |days| ==> |days[i].transactions| == 0
    ensures TotalIncome(TableDays(days)) == TotalIncome(days)
    ensures TotalExpense(TableDays(days)) == TotalExpense(days)
  {
    FilterIsSubseq(days, HasMovements);
    FilterEmpty(days, HasMovements);
    forall i | 0 <= i < |days| && !HasMovements(days[i])
      ensures Income(days[i]) == 0.0 && Expense(days[i]) == 0.0
    {
      DayFields(days, ts, year, month, i);
      assert days[i].transactions == [];
      assert Filter(days[i].transactions, FinancePage.OfKind("income")) == [];
      assert Filter(days[i].transactions, FinancePage.OfKind("expense")) == [];
    }
    SumOverFilter(days, HasMovements, Income);
    SumOverFilter(days, HasMovements, Expense);
  }

  // ------------------------------------------------------------ component

  class CashFlowView {
    const store: AppStore
    var selectedMonth: int
    var selectedYear: int

    predicate Valid()
      reads this
    {
      0 <= selectedMonth < 12
    }

    /** The month and year of the app's current date. */
    constructor (store: AppStore, currentMonth: int, currentYear: int)
      requires 0 <= currentMonth < 12
      ensures this.store == store && Valid()
      ensures selectedMonth == currentMonth && selectedYear == currentYear
    {
      this.store := store;
      selectedMonth, selectedYear := currentMonth, currentYear;
    }

    /** The month select offers the twelve months. */
    method SelectMonth(m: int)
      requires 0 <= m < 12
      modifies this
      ensures Valid() && selectedMonth == m && selectedYear == old(selectedYear)
    {
      selectedMonth := m;
    }

    method SelectYear(y: int)
      requires Valid()
      modifies this
      ensures Valid() && selectedYear == y && selectedMonth == old(selectedMonth)
    {
      selectedYear := y;
    }

    /** dailyFlow over the store's transactions. */
    method Flow() returns (days: seq<DayFlow>)
      requires Valid()
      ensures IsDailyFlow(days, store.transactions, selectedYear, selectedMonth)
      ensures RunningBalances(days)
    {
      days := DailyCashFlow(store.transactions, selectedYear, selectedMonth);
    }
  }
}
