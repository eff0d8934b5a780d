// The finance page (src/pages/finance/FinancePage.tsx): the category menus,
// the filtered and sorted transaction list, the summary cards and the
// expenses-by-category chart, and the handlers that create, edit and delete
// a transaction.

module FinancePage {
  import opened Seqs
  import IdLists
  import opened Text
  import opened Js
  import opened Format
  import opened Records
  import opened AppContext
  import Grouping
  import FieldApplications

  /** The fixed categories of a farm's books, offered whether used or not. */
  const AgriculturalCategories: seq<string> := [
    "Vendas de Grãos", "Vendas de Animais", "Serviços Prestados", "Venda de Insumos",
    "Insumos Agrícolas", "Sementes", "Fertilizantes", "Defensivos", "Corretivos",
    "Combustível", "Lubrificantes", "Manutenção", "Peças", "Pneus",
    "Folha de Pagamento", "Encargos Sociais", "Pró-labore", "Alimentação",
    "Energia Elétrica", "Internet/Telefone", "Água",
    "Impostos e Taxas", "Arrendamento", "Fretes", "Armazenagem",
    "Seguros", "Juros e Tarifas", "Empréstimos", "Outros"]

  /** The filter value that stands for every category. */
  const AllCategories := "Todas"

  function CategoryOf(t: Transaction): string
  {
    t.category
  }

  function DescriptionOf(t: Transaction): string
  {
    t.description
  }

  function Amount(t: Transaction): real
  {
    t.amount
  }

  // ------------------------------------------------------------ categories

  /** ['Todas', ...new Set([...the fixed ones, ...the ones in use])].sort(). */
  function Categories(ts: seq<Transaction>): seq<string>
  {
    SortBy(MenuValues(ts), CodeUnitOrder())
  }

  predicate NotAll(c: string)
  {
    c != AllCategories
  }

  /** The values the menu is sorted from. */
  function MenuValues(ts: seq<Transaction>): seq<string>
  {
    [AllCategories] + Distinct(AgriculturalCategories + Map(ts, CategoryOf))
  }

  /** categoriesForForm: the menu without 'Todas'. */
  function FormCategories(ts: seq<Transaction>): seq<string>
  {
    Filter(Categories(ts), NotAll)
  }

  /** Some transaction is filed under c. */
  predicate InUse(ts: seq<Transaction>, c: string)
  {
    exists i :: 0 <= i < |ts| && ts[i].category == c
  }

  lemma AllCategoriesNotFixed()
    ensures AllCategories !in AgriculturalCategories
  {
  }

  /** Map(ts, CategoryOf) holds exactly the categories in use. */
  lemma CategoriesInUse(ts: seq<Transaction>)
    ensures forall c :: c in Map(ts, CategoryOf) <==> InUse(ts, c)
  {
    forall c ensures c in Map(ts, CategoryOf) <==> InUse(ts, c) {
      if InUse(ts, c) {
        var i :| 0 <= i < |ts| && ts[i].category == c;
        assert Map(ts, CategoryOf)[i] == c;
      }
    }
  }

  lemma MenuValuesSpec(ts: seq<Transaction>)
    ensures forall c :: c in MenuValues(ts) <==>
      c == AllCategories || c in AgriculturalCategories || InUse(ts, c)
    ensures !InUse(ts, AllCategories) ==> NoDuplicates(MenuValues(ts))
  {
    var all := AgriculturalCategories + Map(ts, CategoryOf);
    var d := Distinct(all);
    DistinctSpec(all);
    CategoriesInUse(ts);
    if !InUse(ts, AllCategories) {
      AllCategoriesNotFixed();
      assert AllCategories !in d;
      var u := MenuValues(ts);
      forall i, j | 0 <= i < j < |u| ensures u[i] != u[j] {
        if i == 0 {
          assert u[j] == d[j - 1];
        } else {
          assert u[i] == d[i - 1] && u[j] == d[j - 1];
        }
      }
    }
  }

  /** The menu is in code-unit order and holds 'Todas', every fixed category and
      every category in use, and nothing else; no entry repeats unless a
      transaction is itself filed under 'Todas'. */
  lemma CategoriesSpec(ts: seq<Transaction>)
    ensures SortedBy(Categories(ts), CodeUnitOrder())
    ensures forall c :: c in Categories(ts) <==>
      c == AllCategories || c in AgriculturalCategories || InUse(ts, c)
    ensures !InUse(ts, AllCategories) ==> NoDuplicates(Categories(ts))
  {
    var u := MenuValues(ts);
    CodeUnitOrderIsStrictOrder();
    SortBySpec(u, CodeUnitOrder());
    MenuValuesSpec(ts);
    forall c ensures c in Categories(ts) <==> c in u {
      assert c in Categories(ts) <==> c in multiset(Categories(ts));
      assert c in u <==> c in multiset(u);
    }
    if !InUse(ts, AllCategories) {
      PermutationNoDuplicates(Categories(ts), u);
    }
  }

  /** The form's menu is the page's menu without 'Todas', still sorted, and it
      offers the form's default category 'Outros'. */
  lemma FormCategoriesSpec(ts: seq<Transaction>)
    ensures forall c :: c in FormCategories(ts) <==> c in Categories(ts) && c != AllCategories
    ensures SortedBy(FormCategories(ts), CodeUnitOrder())
    ensures "Outros" in FormCategories(ts)
  {
    CategoriesSpec(ts);
    FilterMembers(Categories(ts), NotAll);
    FilterSorted(Categories(ts), NotAll, CodeUnitOrder());
    assert "Outros" == AgriculturalCategories[28];
  }

  // ------------------------------------------------------------- the list

  /** The list's controls. sortBy is one of date-desc, date-asc, amount-desc,
      amount-asc and name-asc; any other value leaves the stored order. */
  datatype Filters = Filters(
    search: string, kind: string, category: string, status: string,
    start: string, end: string, sortBy: string)

  /** The controls on opening the page, and after resetFilters. */
  function DefaultFilters(): Filters
  {
    Filters("", "all", AllCategories, "all", "", "", "date-desc")
  }

  /** The search term, case-folded, in the description or in the entity. */
  predicate MatchesSearch(t: Transaction, term: string)
  {
    Contains(Lower(t.description), Lower(term)) || Contains(Lower(t.entity), Lower(term))
  }

  /** Every control at once; the date bounds are inclusive, and a transaction
      whose date does not parse fails every bound. dateOf stands for new Date. */
  predicate Matches(t: Transaction, f: Filters, dateOf: string -> Option<int>)
  {
    MatchesSearch(t, f.search) &&
    (f.kind == "all" || t.kind == f.kind) &&
    (f.category == AllCategories || t.category == f.category) &&
    (f.status == "all" || t.status == f.status) &&
    FieldApplications.OnOrAfter(dateOf, t.date, f.start) &&
    FieldApplications.OnOrBefore(dateOf, t.date, f.end)
  }

  function MatchesBy(f: Filters, dateOf: string -> Option<int>): Transaction -> bool
  {
    (t: Transaction) => Matches(t, f, dateOf)
  }

  /** The sort comparator, as "a goes first". timeOf stands for
      new Date(date).getTime(); the names compare code unit by code unit. */
  function Before(sortBy: string, timeOf: string -> int): (Transaction, Transaction) -> bool
  {
    if sortBy == "date-desc" then (a: Transaction, b: Transaction) => timeOf(a.date) > timeOf(b.date)
    else if sortBy == "date-asc" then (a: Transaction, b: Transaction) => timeOf(a.date) < timeOf(b.date)
    else if sortBy == "amount-desc" then (a: Transaction, b: Transaction) => a.amount > b.amount
    else if sortBy == "amount-asc" then (a: Transaction, b: Transaction) => a.amount < b.amount
    else if sortBy == "name-asc" then (a: Transaction, b: Transaction) => CodeUnitLess(a.description, b.description)
    else (a: Transaction, b: Transaction) => false
  }

  /** filteredTransactions: the matching transactions in the chosen order. */
  function Shown(ts: seq<Transaction>, f: Filters, dateOf: string -> Option<int>, timeOf: string -> int): seq<Transaction>
  {
    SortBy(Filter(ts, MatchesBy(f, dateOf)), Before(f.sortBy, timeOf))
  }

  lemma BeforeIsStrictOrder(sortBy: string, timeOf: string -> int)
    ensures StrictOrder(Before(sortBy, timeOf))
  {
    if sortBy !in ["date-desc", "date-asc", "amount-desc", "amount-asc"] && sortBy == "name-asc" {
      TextKeyIsStrictOrder(DescriptionOf, Before(sortBy, timeOf));
    }
  }

  /** The list holds each matching transaction as often as it is stored, and
      nothing else, sorted by the comparator. */
  lemma ShownSpec(ts: seq<Transaction>, f: Filters, dateOf: string -> Option<int>, timeOf: string -> int)
    ensures multiset(Shown(ts, f, dateOf, timeOf)) == multiset(Filter(ts, MatchesBy(f, dateOf)))
    ensures forall t :: t in Shown(ts, f, dateOf, timeOf) <==> t in ts && Matches(t, f, dateOf)
    ensures SortedBy(Shown(ts, f, dateOf, timeOf), Before(f.sortBy, timeOf))
  {
    var m := Filter(ts, MatchesBy(f, dateOf));
    var r := Shown(ts, f, dateOf, timeOf);
    BeforeIsStrictOrder(f.sortBy, timeOf);
    SortBySpec(m, Before(f.sortBy, timeOf));
    FilterMembers(ts, MatchesBy(f, dateOf));
    forall t ensures t in r <==> t in m {
      assert t in r <==> t in multiset(r);
      assert t in m <==> t in multiset(m);
    }
  }

  /** What each order means for neighbours in the list, and that an unknown
      order keeps the stored one. */
  lemma ShownOrder(ts: seq<Transaction>, f: Filters, dateOf: string -> Option<int>, timeOf: string -> int)
    ensures var r := Shown(ts, f, dateOf, timeOf);
      f.sortBy == "date-desc" ==> forall i, j :: 0 <= i < j < |r| ==> timeOf(r[i].date) >= timeOf(r[j].date)
    ensures var r := Shown(ts, f, dateOf, timeOf);
      f.sortBy == "date-asc" ==> forall i, j :: 0 <= i < j < |r| ==> timeOf(r[i].date) <= timeOf(r[j].date)
    ensures var r := Shown(ts, f, dateOf, timeOf);
      f.sortBy == "amount-desc" ==> forall i, j :: 0 <= i < j < |r| ==> r[i].amount >= r[j].amount
    ensures var r := Shown(ts, f, dateOf, timeOf);
      f.sortBy == "amount-asc" ==> forall i, j :: 0 <= i < j < |r| ==> r[i].amount <= r[j].amount
    ensures var r := Shown(ts, f, dateOf, timeOf);
      f.sortBy == "name-asc" ==> forall i, j :: 0 <= i < j < |r| ==> !CodeUnitLess(r[j].description, r[i].description)
    ensures f.sortBy !in ["date-desc", "date-asc", "amount-desc", "amount-asc", "name-asc"] ==>
      Shown(ts, f, dateOf, timeOf) == Filter(ts, MatchesBy(f, dateOf))
  {
    var m := Filter(ts, MatchesBy(f, dateOf));
    var before := Before(f.sortBy, timeOf);
    BeforeIsStrictOrder(f.sortBy, timeOf);
    SortBySpec(m, before);
    var r := Shown(ts, f, dateOf, timeOf);
    forall i, j | 0 <= i < j < |r| ensures !before(r[j], r[i]) {
    }
    if f.sortBy !in ["date-desc", "date-asc", "amount-desc", "amount-asc", "name-asc"] {
      SortByUnordered(m, before);
    }
  }

  /** With the default controls every transaction matches. */
  lemma DefaultFiltersMatchAll(ts: seq<Transaction>, dateOf: string -> Option<int>)
    ensures Filter(ts, MatchesBy(DefaultFilters(), dateOf)) == ts
  {
    forall i | 0 <= i < |ts| ensures Matches(ts[i], DefaultFilters(), dateOf) {
      ContainsEmpty(Lower(ts[i].description));
    }
    FilterAll(ts, MatchesBy(DefaultFilters(), dateOf));
  }

  // ------------------------------------------------------------ the cards

  datatype Summary = Summary(income: real, expense: real, balance: real, pending: real)

  function OfKind(k: string): Transaction -> bool
  {
    (t: Transaction) => t.kind == k
  }

  function OfStatus(s: string): Transaction -> bool
  {
    (t: Transaction) => t.status == s
  }

  /** totalIncome, totalExpense, balance and pendingAmount of a list. */
  function SummaryOf(ts: seq<Transaction>): Summary
  {
    var income := Sum(Filter(ts, OfKind("income")), Amount);
    var expense := Sum(Filter(ts, OfKind("expense")), Amount);
    Summary(income, expense, income - expense, Sum(Filter(ts, OfStatus("pending")), Amount))
  }

  /** The cards with one more transaction counted. */
  function Including(s: Summary, t: Transaction): Summary
  {
    var income := s.income + (if t.kind == "income" then t.amount else 0.0);
    var expense := s.expense + (if t.kind == "expense" then t.amount else 0.0);
    Summary(income, expense, income - expense, s.pending + (if t.status == "pending" then t.amount else 0.0))
  }

  /** The contribution of a transaction to the balance: income adds, expense
      subtracts, any other type counts for nothing. */
  function Signed(t: Transaction): real
  {
    if t.kind == "income" then t.amount else if t.kind == "expense" then -t.amount else 0.0
  }

  lemma SumFilterCons(t: Transaction, ts: seq<Transaction>, p: Transaction -> bool)
    ensures Sum(Filter([t] + ts, p), Amount) == (if p(t) then t.amount else 0.0) + Sum(Filter(ts, p), Amount)
  {
    assert ([t] + ts)[1..] == ts;
    var rest := Filter(ts, p);
    if p(t) {
      assert Filter([t] + ts, p) == [t] + rest;
      assert ([t] + rest)[1..] == rest;
      assert Sum([t] + rest, Amount) == t.amount + Sum(rest, Amount);
    } else {
      assert Filter([t] + ts, p) == [] + rest == rest;
    }
  }

  /** A transaction in front of the list changes each card by its own amount. */
  lemma SummaryPrepend(t: Transaction, ts: seq<Transaction>)
    ensures SummaryOf([t] + ts) == Including(SummaryOf(ts), t)
  {
    SumFilterCons(t, ts, OfKind("income"));
    SumFilterCons(t, ts, OfKind("expense"));
    SumFilterCons(t, ts, OfStatus("pending"));
  }

  /** The balance is the signed sum of the list. */
  lemma {:induction false} BalanceIsSignedSum(ts: seq<Transaction>)
    ensures SummaryOf(ts).balance == Sum(ts, Signed)
  {
    if ts != [] {
      var t, rest := ts[0], ts[1..];
      BalanceIsSignedSum(rest);
      assert SummaryOf(ts) == Including(SummaryOf(rest), t) by {
        assert ts == [t] + rest;
        SummaryPrepend(t, rest);
      }
      assert Sum(ts, Signed) == Signed(t) + Sum(rest, Signed);
    }
  }

  /** With non-negative amounts, income, expense and pending are non-negative
      and pending is at most the list's total. */
  lemma {:induction false} CardsBounds(ts: seq<Transaction>)
    requires forall i :: 0 <= i < |ts| ==> ts[i].amount >= 0.0
    ensures 0.0 <= SummaryOf(ts).income && 0.0 <= SummaryOf(ts).expense
    ensures 0.0 <= SummaryOf(ts).pending <= Sum(ts, Amount)
  {
    if ts != [] {
      CardsBounds(ts[1..]);
      assert ts == [ts[0]] + ts[1..];
      SummaryPrepend(ts[0], ts[1..]);
    }
  }

  /** When every transaction is an income or an expense, the two cards make up
      the list's total. */
  lemma {:induction false} IncomeAndExpenseMakeTotal(ts: seq<Transaction>)
    requires forall i :: 0 <= i < |ts| ==> ts[i].kind == "income" || ts[i].kind == "expense"
    ensures SummaryOf(ts).income + SummaryOf(ts).expense == Sum(ts, Amount)
  {
    if ts != [] {
      IncomeAndExpenseMakeTotal(ts[1..]);
      assert ts == [ts[0]] + ts[1..];
      SummaryPrepend(ts[0], ts[1..]);
    }
  }

  /** expenseByCategory, over the list as shown. */
  function ExpenseByCategory(shown: seq<Transaction>): seq<(string, real)>
  {
    Grouping.GroupSum(Filter(shown, OfKind("expense")), CategoryOf, Amount)
  }

  /** Some shown transaction is an expense filed under c. */
  predicate ExpenseIn(shown: seq<Transaction>, c: string)
  {
    exists i :: 0 <= i < |shown| && shown[i].kind == "expense" && shown[i].category == c
  }

  lemma ExpenseOccurs(shown: seq<Transaction>, c: string)
    requires Grouping.Occurs(Filter(shown, OfKind("expense")), CategoryOf, c)
    ensures ExpenseIn(shown, c)
  {
    var e := Filter(shown, OfKind("expense"));
    var k :| 0 <= k < |e| && CategoryOf(e[k]) == c;
    FilterMembers(shown, OfKind("expense"));
    assert e[k] in e;
    var i :| 0 <= i < |shown| && shown[i] == e[k];
  }

  lemma OccursAsExpense(shown: seq<Transaction>, c: string)
    requires ExpenseIn(shown, c)
    ensures Grouping.Occurs(Filter(shown, OfKind("expense")), CategoryOf, c)
  {
    var e := Filter(shown, OfKind("expense"));
    var i :| 0 <= i < |shown| && shown[i].kind == "expense" && shown[i].category == c;
    FilterMembers(shown, OfKind("expense"));
    assert shown[i] in e;
    var k :| 0 <= k < |e| && e[k] == shown[i];
    assert CategoryOf(e[k]) == c;
  }

  /** The chart has one bar per category of a shown expense, each the sum of
      those expenses, and the bars add up to the expense card. */
  lemma ExpenseByCategorySpec(shown: seq<Transaction>)
    ensures Grouping.Total(ExpenseByCategory(shown)) == SummaryOf(shown).expense
    ensures forall c :: (Grouping.Lookup(ExpenseByCategory(shown), c) ==
      Sum(Filter(Filter(shown, OfKind("expense")), Grouping.HasKey(CategoryOf, c)), Amount))
    ensures NoDuplicates(Grouping.Keys(ExpenseByCategory(shown)))
    ensures forall c :: c in Grouping.Keys(ExpenseByCategory(shown)) <==> ExpenseIn(shown, c)
  {
    var e := Filter(shown, OfKind("expense"));
    Grouping.GroupSumSpec(e, CategoryOf, Amount);
    forall c ensures c in Grouping.Keys(ExpenseByCategory(shown)) <==> ExpenseIn(shown, c) {
      if ExpenseIn(shown, c) {
        OccursAsExpense(shown, c);
      }
      if Grouping.Occurs(e, CategoryOf, c) {
        ExpenseOccurs(shown, c);
      }
    }
  }

  /** The margin card: the balance as a rounded percentage of the income, 0
      without income. */
  function Margin(s: Summary): int
  {
    if s.income > 0.0 then Round(s.balance / s.income * 100.0) else 0
  }

  /** With non-negative amounts the margin is at most 100, it is 100 when
      nothing was spent, and it is not positive when the balance is negative. */
  lemma MarginBounds(ts: seq<Transaction>)
    requires forall i :: 0 <= i < |ts| ==> ts[i].amount >= 0.0
    ensures Margin(SummaryOf(ts)) <= 100
    ensures SummaryOf(ts).income > 0.0 && SummaryOf(ts).expense == 0.0 ==> Margin(SummaryOf(ts)) == 100
    ensures SummaryOf(ts).balance < 0.0 ==> Margin(SummaryOf(ts)) <= 0
  {
    var s := SummaryOf(ts);
    CardsBounds(ts);
    if s.income > 0.0 {
      RatioBounds(s.balance, s.income);
      if s.expense == 0.0 {
        assert Round(100.0) == 100 by {
          assert (100.0 + 0.5).Floor == 100;
        }
      }
    }
  }

  lemma RatioBounds(b: real, i: real)
    requires i > 0.0 && b <= i
    ensures b / i * 100.0 <= 100.0
    ensures b == i ==> b / i * 100.0 == 100.0
    ensures b < 0.0 ==> b / i * 100.0 < 0.0
  {
    var q := b / i;
    assert q * i == b;
  }

  // ------------------------------------------------------------ the form

  /** The form. amount is the masked text while typing, and the stored number
      after the edit button copies a transaction into the form. */
  datatype TxForm = TxForm(
    description: string, category: string, amount: Value, date: string,
    status: string, kind: string, entity: string)

  /** The form of the new-transaction button and after a save. */
  function BlankForm(): TxForm
  {
    TxForm("", "Outros", Str(""), "", "pending", "expense", "")
  }

  /** setTransactionForm(t) of the edit button. */
  function FormOf(t: Transaction): TxForm
  {
    TxForm(t.description, t.category, Number(Fin(t.amount)), t.date, t.status, t.kind, t.entity)
  }

  /** The form's inputs. The category select turns its 'custom' option into an
      empty category; the custom text box sets the category as typed. */
  datatype FormInput = Description | CategorySelect | CategoryText | AmountText | Date | Status | Kind | Entity

  function Entered(f: TxForm, input: FormInput, typed: string): TxForm
  {
    match input
      case Description => f.(description := typed)
      case CategorySelect => f.(category := if typed == "custom" then "" else typed)
      case CategoryText => f.(category := typed)
      case AmountText => f.(amount := Str(MaskValue(Str(typed))))
      case Date => f.(date := typed)
      case Status => f.(status := typed)
      case Kind => f.(kind := typed)
      case Entity => f.(entity := typed)
  }

  /** A typed amount is held masked and reads back as its digits in cents. */
  lemma EnteredAmount(f: TxForm, typed: string)
    ensures var m := MaskValue(Str(typed));
      Entered(f, AmountText, typed) == f.(amount := Str(m)) &&
      (m == "" || MoneyText(m)) &&
      ParseValue(Str(m)) == Fin(DigitsValue(DigitsOf(Str(typed))) as real / 100.0)
  {
    MaskedAmount(Str(typed));
  }

  /** What the amount input holds after a keystroke. */
  lemma MaskedAmount(v: Value)
    ensures var m := MaskValue(v);
      (m == "" || MoneyText(m)) && ParseValue(Str(m)) == Fin(DigitsValue(DigitsOf(v)) as real / 100.0)
  {
    MaskValueShape(v);
    MaskValueRoundTrip(v);
    ParseTextIsParseValue(MaskValue(v));
  }

  /** The transaction a form describes. */
  function Record(f: TxForm, id: int, amount: real): Transaction
  {
    Transaction(id, f.description, f.category, amount, f.date, f.status, f.kind, f.entity)
  }

  /** The submit guard: parseValue gives a number above 0. */
  predicate AcceptedAmount(f: TxForm)
  {
    ParseValue(f.amount).Fin? && ParseValue(f.amount).val > 0.0
  }

  /** The list after a save: the edited id replaced by the form (keeping its
      id), or the new transaction in front. */
  function Saved(ts: seq<Transaction>, f: TxForm, editing: Option<int>, amount: real, now: int): seq<Transaction>
  {
    if Editing(editing) then Map(ts, (t: Transaction) => if t.id == editing.value then Record(f, t.id, amount) else t)
    else [Record(f, now, amount)] + ts
  }

  function SubmitActivity(f: TxForm, editing: Option<int>, c: Clock): Activity
  {
    Activity(c.now,
      if Editing(editing) then "Transação atualizada"
      else if f.kind == "income" then "Receita registrada" else "Despesa registrada",
      f.description, c.iso, f.kind)
  }

  /** handleTransactionSubmit: None when the guard returns early. */
  function Submit(l: Lists, f: TxForm, editing: Option<int>, c: Clock): Option<Lists>
  {
    if !AcceptedAmount(f) then None
    else Some(l.(transactions := Saved(l.transactions, f, editing, ParseValue(f.amount).val, c.now),
      activities := LogActivity(l.activities, SubmitActivity(f, editing, c))))
  }

  /** Nothing is saved for an amount that is NaN, zero or negative; the blank
      form is refused, and a typed amount is accepted exactly when its digits
      are not all zero. */
  lemma SubmitGuard(l: Lists, f: TxForm, editing: Option<int>, c: Clock)
    ensures Submit(l, f, editing, c).None? <==> ParseValue(f.amount).NaN? || ParseValue(f.amount).val <= 0.0
    ensures Submit(l, BlankForm(), editing, c).None?
    ensures f.amount.Str? && f.amount.s == MaskValue(Str(f.amount.s)) ==>
      (Submit(l, f, editing, c).Some? <==> DigitsValue(DigitsOf(f.amount)) > 0)
  {
    assert Submit(l, BlankForm(), editing, c).None?;
    if f.amount.Str? && f.amount.s == MaskValue(Str(f.amount.s)) {
      assert ParseValue(f.amount) == Fin(DigitsValue(DigitsOf(f.amount)) as real / 100.0) by {
        MaskValueRoundTrip(f.amount);
        ParseTextIsParseValue(f.amount.s);
      }
    }
  }

  /** A new transaction goes in front with the clock's id and the parsed
      amount, the rest of the list is kept, the cards change by its amount,
      and the log names the income or expense; nothing else changes. */
  lemma SubmitCreates(l: Lists, f: TxForm, editing: Option<int>, c: Clock)
    requires !Editing(editing) && AcceptedAmount(f)
    ensures var r := Submit(l, f, editing, c).value;
      var t := Record(f, c.now, ParseValue(f.amount).val);
      r.transactions == [t] + l.transactions &&
      SummaryOf(r.transactions) == Including(SummaryOf(l.transactions), t) &&
      r.activities == LogActivity(l.activities, Activity(c.now,
        if f.kind == "income" then "Receita registrada" else "Despesa registrada", f.description, c.iso, f.kind)) &&
      r == l.(transactions := r.transactions, activities := r.activities)
  {
    SummaryPrepend(Record(f, c.now, ParseValue(f.amount).val), l.transactions);
  }

  /** An edit keeps the list's length and ids, replaces exactly the
      transactions with the edited id by the form and leaves every other one
      as it was; an id no transaction has changes no transaction. */
  lemma SubmitEdits(l: Lists, f: TxForm, editing: Option<int>, c: Clock)
    requires Editing(editing) && AcceptedAmount(f)
    ensures var r := Submit(l, f, editing, c).value.transactions;
      |r| == |l.transactions| &&
      (forall i :: 0 <= i < |r| ==> r[i].id == l.transactions[i].id) &&
      (forall i :: 0 <= i < |r| && l.transactions[i].id != editing.value ==> r[i] == l.transactions[i]) &&
      (forall i :: 0 <= i < |r| && l.transactions[i].id == editing.value ==>
        r[i] == Record(f, editing.value, ParseValue(f.amount).val))
    ensures (forall i :: 0 <= i < |l.transactions| ==> l.transactions[i].id != editing.value) ==>
      Submit(l, f, editing, c).value.transactions == l.transactions
    ensures Submit(l, f, editing, c).value.activities ==
      LogActivity(l.activities, Activity(c.now, "Transação atualizada", f.description, c.iso, f.kind))
  {
  }

  /** Saving the form of a stored transaction without touching it gives the
      list back unchanged: the amount travels as a number and is read back
      as it is. */
  lemma EditRoundTrip(l: Lists, t: Transaction, c: Clock)
    requires t in l.transactions && UniqueIds(l.transactions, (x: Transaction) => x.id)
    requires t.amount > 0.0 && t.id != 0
    ensures Submit(l, FormOf(t), Some(t.id), c).Some?
    ensures Submit(l, FormOf(t), Some(t.id), c).value.transactions == l.transactions
  {
    var ts := l.transactions;
    assert ParseValue(FormOf(t).amount) == Fin(t.amount);
    var r := Saved(ts, FormOf(t), Some(t.id), t.amount, c.now);
    assert Record(FormOf(t), t.id, t.amount) == t;
    var k :| 0 <= k < |ts| && ts[k] == t;
    forall i | 0 <= i < |ts| ensures r[i] == ts[i] {
    }
  }

  // ----------------------------------------------------------- delete

  function TransactionId(t: Transaction): int
  {
    t.id
  }

  /** transactions.find(t => t.id === id) */
  function FindTransaction(ts: seq<Transaction>, id: int): Option<Transaction>
  {
    IdLists.Find(ts, TransactionId, id)
  }

  function WithoutId(id: int): Transaction -> bool
  {
    (t: Transaction) => t.id != id
  }

  /** deleteTransaction: only a stored id, and only once confirmed. */
  function Delete(l: Lists, id: int, confirmed: bool, c: Clock): Lists
  {
    var found := FindTransaction(l.transactions, id);
    if found.Some? && confirmed then
      l.(transactions := Filter(l.transactions, WithoutId(id)),
        activities := LogActivity(l.activities, Activity(c.now, "Transação excluída", found.value.description, c.iso, "neutral")))
    else l
  }

  /** A confirmed delete of a stored id removes every transaction with that id
      and keeps the others in order; otherwise nothing changes. */
  lemma DeleteSpec(l: Lists, id: int, confirmed: bool, c: Clock)
    ensures !confirmed || (forall i :: 0 <= i < |l.transactions| ==> l.transactions[i].id != id) ==>
      Delete(l, id, confirmed, c) == l
    ensures var r := Delete(l, id, confirmed, c).transactions;
      SubseqOf(r, l.transactions) &&
      (confirmed ==> forall t :: t in r <==> t in l.transactions && t.id != id)
  {
    FilterIsSubseq(l.transactions, WithoutId(id));
    FilterMembers(l.transactions, WithoutId(id));
    if !(confirmed && FindTransaction(l.transactions, id).Some?) {
      SubseqRefl(l.transactions);
    }
  }

  /** Deleting a transaction just created, under a fresh id, restores the list. */
  lemma DeleteUndoesCreate(l: Lists, f: TxForm, editing: Option<int>, c: Clock)
    requires !Editing(editing) && AcceptedAmount(f)
    requires forall i :: 0 <= i < |l.transactions| ==> l.transactions[i].id != c.now
    ensures Delete(Submit(l, f, editing, c).value, c.now, true, c).transactions == l.transactions
  {
    var t := Record(f, c.now, ParseValue(f.amount).val);
    var ts := l.transactions;
    assert ([t] + ts)[1..] == ts;
    assert Filter([t] + ts, WithoutId(c.now)) == Filter(ts, WithoutId(c.now));
    FilterAll(ts, WithoutId(c.now));
  }

  // ------------------------------------------------------------ component

  /** The page's own state. */
  datatype PageState = PageState(
    filters: Filters, isAdvancedFilterOpen: bool, isFormOpen: bool,
    editingId: Option<int>, form: TxForm)

  class FinancePageView {
    const store: AppStore
    var filters: Filters
    var isAdvancedFilterOpen: bool
    var isFormOpen: bool
    var editingId: Option<int>
    var form: TxForm

    function Page(): PageState
      reads this
    {
      PageState(filters, isAdvancedFilterOpen, isFormOpen, editingId, form)
    }

    constructor (store: AppStore)
      ensures this.store == store
      ensures Page() == PageState(DefaultFilters(), false, false, None, BlankForm())
    {
      this.store := store;
      filters, isAdvancedFilterOpen, isFormOpen := DefaultFilters(), false, false;
      editingId, form := None, BlankForm();
    }

    /** filteredTransactions, over the store's list. */
    function ShownTransactions(dateOf: string -> Option<int>, timeOf: string -> int): seq<Transaction>
      reads this, store
    {
      Shown(store.transactions, filters, dateOf, timeOf)
    }

    /** The cards and the chart, over the list as shown. */
    function Cards(dateOf: string -> Option<int>, timeOf: string -> int): Summary
      reads this, store
    {
      SummaryOf(ShownTransactions(dateOf, timeOf))
    }

    /** resetFilters: the controls go back to their opening values. */
    method ResetFilters()
      modifies this
      ensures Page() == old(Page()).(filters := DefaultFilters())
    {
      filters := DefaultFilters();
    }

    /** "Nova Transação": the blank form. */
    method OpenNew()
      modifies this
      ensures Page() == old(Page()).(isFormOpen := true, editingId := None, form := BlankForm())
    {
      isFormOpen, editingId, form := true, None, BlankForm();
    }

    /** The edit button of a row: the form holds the transaction itself. */
    method OpenEdit(t: Transaction)
      modifies this
      ensures Page() == old(Page()).(isFormOpen := true, editingId := Some(t.id), form := FormOf(t))
    {
      editingId, form, isFormOpen := Some(t.id), FormOf(t), true;
    }

    method Enter(input: FormInput, typed: string)
      modifies this
      ensures Page() == old(Page()).(form := Entered(old(form), input, typed))
    {
      form := Entered(form, input, typed);
    }

    /** handleTransactionSubmit: a refused amount changes nothing; otherwise
        the list and the log are updated and the form is closed and reset. */
    method SubmitForm(c: Clock)
      modifies this, store
      ensures var r := Submit(old(store.Contents()), old(form), old(editingId), c);
        r.None? ==> store.Contents() == old(store.Contents()) && Page() == old(Page())
      ensures var r := Submit(old(store.Contents()), old(form), old(editingId), c);
        r.Some? ==>
          store.Contents() == r.value &&
          Page() == old(Page()).(isFormOpen := false, editingId := None, form := BlankForm())
    {
      var amountVal := ParseValue(form.amount);
      if amountVal.NaN? || amountVal.val <= 0.0 {
        return;
      }
      store.transactions := Saved(store.transactions, form, editingId, amountVal.val, c.now);
      store.AddActivity(SubmitActivity(form, editingId, c).action, form.description, form.kind, c);
      isFormOpen, editingId, form := false, None, BlankForm();
    }

    /** deleteTransaction. */
    method DeleteTransaction(id: int, confirmed: bool, c: Clock)
      modifies store
      ensures store.Contents() == Delete(old(store.Contents()), id, confirmed, c)
    {
      var found := FindTransaction(store.transactions, id);
      if found.Some? && confirmed {
        store.transactions := Filter(store.transactions, WithoutId(id));
        store.AddActivity("Transação excluída", found.value.description, "neutral", c);
      }
    }
  }
}
