// The monthly financial report (src/pages/reports/FinancialReportPage.tsx):
// the transactions of the chosen month newest first, the income, expense,
// balance and margin cards, the expense composition by category, and the
// previous/next month buttons.
//
// new Date(t.date) is a parameter: monthOf gives the local month (0 to 11)
// and full year of a date string, None for an invalid date; timeOf gives
// getTime() of a valid one.

module FinancialReportPage {
  import opened Seqs
  import opened Records
  import opened AppContext
  import Grouping
  import FinancePage

  datatype MonthYear = MonthYear(month: int, year: int)

  // ----------------------------------------------------------- the report

  predicate InMonth(t: Transaction, month: int, year: int, monthOf: string -> Option<MonthYear>)
  {
    monthOf(t.date) == Some(MonthYear(month, year))
  }

  function InMonthBy(month: int, year: int, monthOf: string -> Option<MonthYear>): Transaction -> bool
  {
    (t: Transaction) => InMonth(t, month, year, monthOf)
  }

  /** b's time minus a's as the comparator: the later date goes first. */
  function Newest(timeOf: string -> int): (Transaction, Transaction) -> bool
  {
    (a: Transaction, b: Transaction) => timeOf(a.date) > timeOf(b.date)
  }

  /** reportTransactions */
  function Report(ts: seq<Transaction>, month: int, year: int, monthOf: string -> Option<MonthYear>,
                  timeOf: string -> int): seq<Transaction>
  {
    SortBy(Filter(ts, InMonthBy(month, year, monthOf)), Newest(timeOf))
  }

  lemma NewestIsStrictOrder(timeOf: string -> int)
    ensures StrictOrder(Newest(timeOf))
  {
  }

  /** The report holds each transaction dated in the month as often as it is
      stored and nothing else, newest first; transactions of one date keep
      their stored order. */
  lemma ReportSpec(ts: seq<Transaction>, month: int, year: int, monthOf: string -> Option<MonthYear>,
                   timeOf: string -> int)
    ensures multiset(Report(ts, month, year, monthOf, timeOf)) == multiset(Filter(ts, InMonthBy(month, year, monthOf)))
    ensures forall t :: t in Report(ts, month, year, monthOf, timeOf) <==> t in ts && InMonth(t, month, year, monthOf)
    ensures var r := Report(ts, month, year, monthOf, timeOf);
      forall i, j :: 0 <= i < j < |r| ==> timeOf(r[i].date) >= timeOf(r[j].date)
  {
    var m := Filter(ts, InMonthBy(month, year, monthOf));
    var r := Report(ts, month, year, monthOf, timeOf);
    NewestIsStrictOrder(timeOf);
    SortBySpec(m, Newest(timeOf));
    FilterMembers(ts, InMonthBy(month, year, monthOf));
    forall t ensures t in r <==> t in m {
      assert t in r <==> t in multiset(r);
      assert t in m <==> t in multiset(m);
    }
    forall i, j | 0 <= i < j < |r| ensures timeOf(r[i].date) >= timeOf(r[j].date) {
      assert !Newest(timeOf)(r[j], r[i]);
    }
  }

  // ------------------------------------------------------------ the cards

  /** Sorting does not change a card. */
  lemma SummarySorted(s: seq<Transaction>, before: (Transaction, Transaction) -> bool)
    ensures FinancePage.SummaryOf(SortBy(s, before)) == FinancePage.SummaryOf(s)
  {
    SumSortBy(s, before, FinancePage.Signed);
    FinancePage.BalanceIsSignedSum(s);
    FinancePage.BalanceIsSignedSum(SortBy(s, before));
    SumOfSortedFilter(s, before, FinancePage.OfKind("income"));
    SumOfSortedFilter(s, before, FinancePage.OfKind("expense"));
    SumOfSortedFilter(s, before, FinancePage.OfStatus("pending"));
  }

  lemma {:induction false} SumOfSortedFilter(s: seq<Transaction>, before: (Transaction, Transaction) -> bool,
                                             p: Transaction -> bool)
    ensures Sum(Filter(SortBy(s, before), p), FinancePage.Amount) == Sum(Filter(s, p), FinancePage.Amount)
  {
    SumFilterIsMasked(SortBy(s, before), p);
    SumFilterIsMasked(s, p);
    SumSortBy(s, before, Masked(p));
  }

  /** The amount where p holds, nothing elsewhere. */
  function Masked(p: Transaction -> bool): Transaction -> real
  {
    (t: Transaction) => if p(t) then t.amount else 0.0
  }

  lemma {:induction false} SumFilterIsMasked(s: seq<Transaction>, p: Transaction -> bool)
    ensures Sum(Filter(s, p), FinancePage.Amount) == Sum(s, Masked(p))
  {
    if s != [] {
      SumFilterIsMasked(s[1..], p);
      assert s == [s[0]] + s[1..];
      FinancePage.SumFilterCons(s[0], s[1..], p);
    }
  }

  /** totalIncome, totalExpense and balance: the month's cards, the same
      whatever the order of the report. */
  function Cards(ts: seq<Transaction>, month: int, year: int, monthOf: string -> Option<MonthYear>,
                 timeOf: string -> int): FinancePage.Summary
  {
    FinancePage.SummaryOf(Report(ts, month, year, monthOf, timeOf))
  }

  /** The cards count exactly the month's transactions: income and expense are
      the sums of the month's incomes and expenses, and the balance their
      difference. */
  lemma CardsSpec(ts: seq<Transaction>, month: int, year: int, monthOf: string -> Option<MonthYear>,
                  timeOf: string -> int)
    ensures var m := Filter(ts, InMonthBy(month, year, monthOf));
      Cards(ts, month, year, monthOf, timeOf) == FinancePage.SummaryOf(m)
    ensures var c := Cards(ts, month, year, monthOf, timeOf); c.balance == c.income - c.expense
  {
    SummarySorted(Filter(ts, InMonthBy(month, year, monthOf)), Newest(timeOf));
  }

  /** The margin card: balance / totalIncome * 100 with income, 0 without (the
      one decimal shown is presentation). */
  function Margin(s: FinancePage.Summary): real
  {
    if s.income > 0.0 then s.balance / s.income * 100.0 else 0.0
  }

  /** With non-negative amounts the margin is at most 100%, exactly 100% when
      nothing was spent, negative when the month had income but lost money,
      and 0 without income. */
  lemma MarginBounds(ts: seq<Transaction>)
    requires forall i :: 0 <= i < |ts| ==> ts[i].amount >= 0.0
    ensures Margin(FinancePage.SummaryOf(ts)) <= 100.0
    ensures FinancePage.SummaryOf(ts).income > 0.0 && FinancePage.SummaryOf(ts).expense == 0.0 ==>
      Margin(FinancePage.SummaryOf(ts)) == 100.0
    ensures FinancePage.SummaryOf(ts).income > 0.0 && FinancePage.SummaryOf(ts).balance < 0.0 ==>
      Margin(FinancePage.SummaryOf(ts)) < 0.0
    ensures FinancePage.SummaryOf(ts).income == 0.0 ==> Margin(FinancePage.SummaryOf(ts)) == 0.0
  {
    var s := FinancePage.SummaryOf(ts);
    FinancePage.CardsBounds(ts);
    if s.income > 0.0 {
      FinancePage.RatioBounds(s.balance, s.income);
    }
  }

  // ----------------------------------------------------- expense by category

  function Value(e: (string, real)): real
  {
    e.1
  }

  /** b[1] - a[1] as the comparator: the larger sum goes first. */
  function LargestFirst(): ((string, real), (string, real)) -> bool
  {
    (a: (string, real), b: (string, real)) => a.1 > b.1
  }

  /** sortedExpenses: Object.entries(expensesByCategory) by sum, largest first. */
  function SortedExpenses(report: seq<Transaction>): seq<(string, real)>
  {
    SortBy(FinancePage.ExpenseByCategory(report), LargestFirst())
  }

  lemma {:induction false} TotalIsSum(acc: seq<(string, real)>)
    ensures Grouping.Total(acc) == Sum(acc, Value)
  {
    if acc != [] {
      TotalIsSum(acc[1..]);
    }
  }

  /** The composition lists the per-category sums (each category once, each
      the sum of its expenses) in descending order of sum, and the sums add up
      to the expense card. */
  lemma SortedExpensesSpec(report: seq<Transaction>)
    ensures multiset(SortedExpenses(report)) == multiset(FinancePage.ExpenseByCategory(report))
    ensures forall i, j :: 0 <= i < j < |SortedExpenses(report)| ==>
      SortedExpenses(report)[i].1 >= SortedExpenses(report)[j].1
    ensures Sum(SortedExpenses(report), Value) == FinancePage.SummaryOf(report).expense
  {
    var acc := FinancePage.ExpenseByCategory(report);
    var r := SortedExpenses(report);
    assert StrictOrder(LargestFirst());
    SortBySpec(acc, LargestFirst());
    forall i, j | 0 <= i < j < |r| ensures r[i].1 >= r[j].1 {
      assert !LargestFirst()(r[j], r[i]);
    }
    FinancePage.ExpenseByCategorySpec(report);
    TotalIsSum(acc);
    SumSortBy(acc, LargestFirst(), Value);
  }

  /** "Nenhuma despesa registrada." shows exactly when the month has no
      expense. */
  lemma NoExpensesMessage(report: seq<Transaction>)
    ensures SortedExpenses(report) == [] <==> forall i :: 0 <= i < |report| ==> report[i].kind != "expense"
  {
    var acc := FinancePage.ExpenseByCategory(report);
    FinancePage.ExpenseByCategorySpec(report);
    assert |SortedExpenses(report)| == |acc| by {
      assert |multiset(SortBy(acc, LargestFirst()))| == |multiset(acc)|;
    }
    if exists i :: 0 <= i < |report| && report[i].kind == "expense" {
      var i :| 0 <= i < |report| && report[i].kind == "expense";
      assert FinancePage.ExpenseIn(report, report[i].category);
      assert report[i].category in Grouping.Keys(acc);
    } else if acc != [] {
      assert Grouping.Keys(acc)[0] in Grouping.Keys(acc);
      assert FinancePage.ExpenseIn(report, acc[0].0);
    }
  }

  // ---------------------------------------------------------- changeMonth

  /** changeMonth(delta): past December to January of the next year, before
      January to December of the previous year. */
  function Shifted(m: MonthYear, delta: int): MonthYear
  {
    var month := m.month + delta;
    if month > 11 then MonthYear(0, m.year + 1)
    else if month < 0 then MonthYear(11, m.year - 1)
    else MonthYear(month, m.year)
  }

  /** The month index counted from year zero. */
  function Index(m: MonthYear): int
  {
    12 * m.year + m.month
  }

  /** The arrows move one calendar month and keep the month in 0..11. */
  lemma ShiftedSpec(m: MonthYear, delta: int)
    requires 0 <= m.month < 12 && (delta == 1 || delta == -1)
    ensures 0 <= Shifted(m, delta).month < 12
    ensures Index(Shifted(m, delta)) == Index(m) + delta
  {
  }

  /** December + 1 is January of the next year; January - 1 is December of the
      previous year. */
  lemma ShiftedWraps(year: int)
    ensures Shifted(MonthYear(11, year), 1) == MonthYear(0, year + 1)
    ensures Shifted(MonthYear(0, year), -1) == MonthYear(11, year - 1)
  {
  }

  /** Next then previous, or previous then next, is back where it started. */
  lemma ShiftedRoundTrip(m: MonthYear)
    requires 0 <= m.month < 12
    ensures Shifted(Shifted(m, 1), -1) == m
    ensures Shifted(Shifted(m, -1), 1) == m
  {
    ShiftedSpec(m, 1);
    ShiftedSpec(m, -1);
    ShiftedSpec(Shifted(m, 1), -1);
    ShiftedSpec(Shifted(m, -1), 1);
  }

  // ------------------------------------------------------------ component

  class FinancialReportView {
    const store: AppStore
    var reportMonth: int
    var reportYear: int

    function Selected(): MonthYear
      reads this
    {
      MonthYear(reportMonth, reportYear)
    }

    /** The month and year of the app's current date. */
    constructor (store: AppStore, current: MonthYear)
      ensures this.store == store && Selected() == current
    {
      this.store := store;
      reportMonth, reportYear := current.month, current.year;
    }

    /** changeMonth */
    method ChangeMonth(delta: int)
      modifies this
      ensures Selected() == Shifted(old(Selected()), delta)
    {
      var newMonth := reportMonth + delta;
      var newYear := reportYear;
      if newMonth > 11 {
        newMonth := 0;
        newYear := newYear + 1;
      } else if newMonth < 0 {
        newMonth := 11;
        newYear := newYear - 1;
      }
      reportMonth := newMonth;
      reportYear := newYear;
    }

    /** reportTransactions over the store's list. */
    function ReportTransactions(monthOf: string -> Option<MonthYear>, timeOf: string -> int): seq<Transaction>
      reads this, store
    {
      Report(store.transactions, reportMonth, reportYear, monthOf, timeOf)
    }
  }
}
