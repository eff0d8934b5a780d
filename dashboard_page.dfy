// The dashboard (src/pages/dashboard/DashboardPage.tsx): the balance and its
// three bars, the pending-task counters, the relative time of each recent
// activity and the short lists it previews. Everything on it is derived from
// the stored lists; it writes nothing back.

module DashboardPage {
  import opened Seqs
  import opened Records
  import FinancePage

  // --------------------------------------------------------------- totals

  /** The three bars of the chart: income, expense and the balance, drawn as
      zero when it is negative. */
  datatype ChartBar = ChartBar(name: string, value: real, kind: string)

  function Max0(x: real): real
  {
    if x < 0.0 then 0.0 else x
  }

  /** chartData */
  function ChartData(ts: seq<Transaction>): seq<ChartBar>
  {
    var s := FinancePage.SummaryOf(ts);
    [ChartBar("Receita", s.income, "income"),
     ChartBar("Despesa", s.expense, "expense"),
     ChartBar("Saldo", Max0(s.balance), "income")]
  }

  /** The bars are income, expense and the balance, the balance being income
      minus expense; the 'Saldo' bar is never negative, shows the balance
      when it is not negative and is empty exactly when expense reaches
      income. */
  lemma ChartDataSpec(ts: seq<Transaction>)
    ensures var c := ChartData(ts); var s := FinancePage.SummaryOf(ts);
      |c| == 3 && c[0].value == s.income && c[1].value == s.expense &&
      s.balance == s.income - s.expense &&
      c[2].value >= 0.0 && c[2].value >= s.balance &&
      (s.balance >= 0.0 ==> c[2].value == s.balance) &&
      (c[2].value == 0.0 <==> s.expense >= s.income)
  {
  }

  /** With non-negative amounts no bar is negative. */
  lemma ChartDataNonnegative(ts: seq<Transaction>, i: nat)
    requires forall k :: 0 <= k < |ts| ==> ts[k].amount >= 0.0
    requires i < 3
    ensures ChartData(ts)[i].value >= 0.0
  {
    FinancePage.CardsBounds(ts);
  }

  // ---------------------------------------------------------------- tasks

  predicate Pending(t: Task)
  {
    !t.done
  }

  predicate UrgentPending(t: Task)
  {
    t.priority == "high" && !t.done
  }

  function PendingCount(tasks: seq<Task>): nat
  {
    Count(tasks, Pending)
  }

  function HighPriorityCount(tasks: seq<Task>): nat
  {
    Count(tasks, UrgentPending)
  }

  /** The width of the high-priority bar, as a percentage. */
  function UrgentWidth(tasks: seq<Task>): real
  {
    var p := PendingCount(tasks);
    if p > 0 then HighPriorityCount(tasks) as real / p as real * 100.0 else 0.0
  }

  /** High-priority pending tasks are among the pending ones, so the bar is a
      percentage: empty when nothing is pending, full when every pending
      task is high priority. */
  lemma UrgentWidthBounds(tasks: seq<Task>)
    ensures HighPriorityCount(tasks) <= PendingCount(tasks)
    ensures 0.0 <= UrgentWidth(tasks) <= 100.0
    ensures PendingCount(tasks) == 0 ==> UrgentWidth(tasks) == 0.0
    ensures PendingCount(tasks) > 0 && HighPriorityCount(tasks) == PendingCount(tasks) ==> UrgentWidth(tasks) == 100.0
  {
    CountImplies(tasks, UrgentPending, Pending);
    var p := PendingCount(tasks);
    if p > 0 {
      FinancePage.RatioBounds(HighPriorityCount(tasks) as real, p as real);
    }
  }

  // ------------------------------------------------------------ formatTime

  /** What formatTime shows: 'agora mesmo', 'há N min', 'há Nh', or the date
      in the pt-BR locale (None for a string that is not a date, which shows
      'Invalid Date'). */
  datatype TimeLabel = JustNow | MinutesAgo(minutes: int) | HoursAgo(hours: int) | OnDate(time: Option<int>)

  /** formatTime: parse stands for new Date(...).getTime() in milliseconds
      (None for an invalid date, whose differences are NaN and fail every
      comparison), now for the clock. The divisions floor, as Math.floor does
      for a positive divisor. */
  function FormatTime(dateString: string, parse: string -> Option<int>, now: int): TimeLabel
  {
    match parse(dateString)
      case None => OnDate(None)
      case Some(t) =>
        var seconds := (now - t) / 1000;
        if seconds < 60 then JustNow
        else
          var minutes := seconds / 60;
          if minutes < 60 then MinutesAgo(minutes)
          else
            var hours := minutes / 60;
            if hours < 24 then HoursAgo(hours) else OnDate(Some(t))
  }

  /** Under a minute ago (or in the future) reads 'agora mesmo'; then whole
      minutes under an hour, whole hours under a day, and the date from a day
      on. */
  lemma FormatTimeSpec(dateString: string, parse: string -> Option<int>, now: int)
    ensures parse(dateString).None? ==> FormatTime(dateString, parse, now) == OnDate(None)
    ensures parse(dateString).Some? ==> var d := now - parse(dateString).value;
      match FormatTime(dateString, parse, now)
        case JustNow => d < 60000
        case MinutesAgo(m) => 60000 <= d < 3600000 && 1 <= m < 60 && m * 60000 <= d < (m + 1) * 60000
        case HoursAgo(h) => 3600000 <= d < 86400000 && 1 <= h < 24 && h * 3600000 <= d < (h + 1) * 3600000
        case OnDate(o) => d >= 86400000 && o == parse(dateString)
  {
  }

  // ------------------------------------------------------------- previews

  function Take<T>(s: seq<T>, n: nat): seq<T>
  {
    if |s| <= n then s else s[..n]
  }

  predicate IsActive(s: Supplier)
  {
    s.status == "active"
  }

  /** products.slice(0, 3) */
  function ProductPreview(ps: seq<Product>): seq<Product>
  {
    Take(ps, 3)
  }

  /** suppliers.filter(active).slice(0, 2) */
  function SupplierPreview(ss: seq<Supplier>): seq<Supplier>
  {
    Take(Filter(ss, IsActive), 2)
  }

  /** activities.slice(0, 5) */
  function ActivityPreview(acts: seq<Activity>): seq<Activity>
  {
    Take(acts, 5)
  }

  /** The previews are the first three products, the first two active
      suppliers and the first five activities, or all of them when there are
      fewer. */
  lemma PreviewsSpec(ps: seq<Product>, ss: seq<Supplier>, acts: seq<Activity>)
    ensures |ProductPreview(ps)| == if |ps| < 3 then |ps| else 3
    ensures ProductPreview(ps) == ps[..|ProductPreview(ps)|]
    ensures |ActivityPreview(acts)| == if |acts| < 5 then |acts| else 5
    ensures ActivityPreview(acts) == acts[..|ActivityPreview(acts)|]
    ensures |SupplierPreview(ss)| <= 2 && SubseqOf(SupplierPreview(ss), ss)
    ensures forall s :: s in SupplierPreview(ss) ==> s.status == "active"
    ensures Count(ss, IsActive) <= 2 ==> SupplierPreview(ss) == Filter(ss, IsActive)
  {
    var act := Filter(ss, IsActive);
    FilterIsSubseq(ss, IsActive);
    FilterMembers(ss, IsActive);
    if |act| > 2 {
      assert SupplierPreview(ss) == act[..2];
      SubseqPrefix(act, ss, 2);
    }
  }
}
