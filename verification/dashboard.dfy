/**
 * The dashboard (ViewModels/DashboardViewModel.cs): net worth, the last
 * thirty days' income, expense and savings rate, the ten newest
 * transactions and the five largest expense categories of the month.
 */
module Dashboard {
  import opened Seqs
  import opened Decimal
  import opened NexusModels
  import opened DataStore

  /** One row of the recent list; the date stays in ticks, its formatting is not modelled. */
  datatype TransactionItem = TransactionItem(
    date: int,
    description: string,
    category: string,
    project: string,
    amount: real,
    amountColor: string)

  /** One bar of the top-expenses chart; its hash-based colour is not modelled. */
  datatype CategoryExpense = CategoryExpense(name: string, amount: real)

  function AccountBalance(a: Account): real { a.balance }
  function CurrentValue(i: Investment): real { i.currentValue }
  function TxAmount(t: Transaction): real { t.amount }
  function TxCategory(t: Transaction): string { t.category }
  predicate IsIncome(t: Transaction) { t.isIncome }
  predicate IsExpense(t: Transaction) { !t.isIncome }

  /** `NetWorth`: account balances plus the current value of the investments. */
  function NetWorth(accounts: seq<Account>, investments: seq<Investment>): real
  {
    Sum(accounts, AccountBalance) + Sum(investments, CurrentValue)
  }

  /** A new account raises the net worth by exactly its balance. */
  lemma NetWorthWithAccount(accounts: seq<Account>, investments: seq<Investment>, a: Account)
    ensures NetWorth(accounts + [a], investments) == NetWorth(accounts, investments) + a.balance
  {
    SumAppend(accounts, [a], AccountBalance);
    assert [a][..0] == [];
  }

  /** The start of the thirty-day window: `DateTime.Now.AddDays(-30)`. */
  function WindowStart(now: int): int
  {
    now - 30 * TicksPerDay
  }

  function InWindow(now: int): Transaction -> bool
  {
    (t: Transaction) => t.date >= WindowStart(now)
  }

  /** The transactions of the last thirty days, in store order. */
  function Recent(ts: seq<Transaction>, now: int): (r: seq<Transaction>)
    ensures forall i :: 0 <= i < |r| ==> r[i] in ts && r[i].date >= now - 30 * TicksPerDay
    ensures forall i :: 0 <= i < |ts| && ts[i].date >= now - 30 * TicksPerDay ==> ts[i] in r
  {
    Filter(ts, InWindow(now))
  }

  function MonthlyIncome(ts: seq<Transaction>, now: int): real
  {
    Sum(Filter(Recent(ts, now), IsIncome), TxAmount)
  }

  function MonthlyExpense(ts: seq<Transaction>, now: int): real
  {
    Sum(Filter(Recent(ts, now), IsExpense), TxAmount)
  }

  /** Income and expense together account for every transaction of the window. */
  lemma MonthlySplit(ts: seq<Transaction>, now: int)
    ensures MonthlyIncome(ts, now) + MonthlyExpense(ts, now) == Sum(Recent(ts, now), TxAmount)
  {
    SumSplit(Recent(ts, now), IsIncome, IsExpense, TxAmount);
  }

  /** A transaction inside the window adds its amount to its own side and nothing to the other. */
  lemma MonthlyWithTransaction(ts: seq<Transaction>, now: int, t: Transaction)
    requires t.date >= now - 30 * TicksPerDay
    ensures MonthlyIncome(ts + [t], now) == MonthlyIncome(ts, now) + (if t.isIncome then t.amount else 0.0)
    ensures MonthlyExpense(ts + [t], now) == MonthlyExpense(ts, now) + (if t.isIncome then 0.0 else t.amount)
  {
    FilterAppend(ts, [t], InWindow(now));
    assert Filter([t], InWindow(now)) == [t];
    var r := Recent(ts, now);
    FilterAppend(r, [t], IsIncome);
    FilterAppend(r, [t], IsExpense);
    SumAppend(Filter(r, IsIncome), Filter([t], IsIncome), TxAmount);
    SumAppend(Filter(r, IsExpense), Filter([t], IsExpense), TxAmount);
    assert [t][..0] == [];
  }

  /** `SavingsRate`: the share of income kept, in percent to one decimal; nothing without income. */
  function SavingsRate(income: real, expense: real): (r: real)
    ensures income <= 0.0 ==> r == 0.0
    ensures income > 0.0 ==> -0.05 <= r - (income - expense) / income * 100.0 <= 0.05
  {
    if income > 0.0 then Round((income - expense) / income * 100.0, 1) else 0.0
  }

  /** The savings rate is the profit margin of a project earning the income at the expense's cost. */
  lemma SavingsRateIsMargin(income: real, expense: real)
    ensures SavingsRate(income, expense) == ProfitMargin(Project("", income, expense, "", 0))
  {
  }

  /** Spending within one's income keeps the rate between 0 and 100, reaching 100 with no spending. */
  lemma SavingsRateBounds(income: real, expense: real)
    requires income > 0.0 && 0.0 <= expense <= income
    ensures 0.0 <= SavingsRate(income, expense) <= 100.0
    ensures expense == 0.0 ==> SavingsRate(income, expense) == 100.0
    ensures expense == income ==> SavingsRate(income, expense) == 0.0
  {
    SavingsRateIsMargin(income, expense);
    ProfitMarginBounds(Project("", income, expense, "", 0));
  }

  // ---------------------------------------------------------------- recent transactions

  predicate NewestFirst(a: Transaction, b: Transaction) { a.date >= b.date }

  lemma NewestFirstOrder()
    ensures TotalPreorder(NewestFirst)
  {
  }

  /** `OrderByDescending(t => t.Date).Take(10)`. */
  function NewestTransactions(ts: seq<Transaction>): (r: seq<Transaction>)
    ensures |r| == Min(10, |ts|)
    ensures forall i, j :: 0 <= i < j < |r| ==> r[i].date >= r[j].date
    ensures multiset(r) <= multiset(ts)
  {
    NewestFirstOrder();
    var sorted := Sort(ts, NewestFirst);
    assert sorted == Take(sorted, 10) + sorted[|Take(sorted, 10)|..];
    Take(sorted, 10)
  }

  /** No transaction left off the recent list is newer than one on it. */
  lemma NewestAreNewest(ts: seq<Transaction>, x: Transaction, i: nat)
    requires x in multiset(ts) - multiset(NewestTransactions(ts))
    requires i < |NewestTransactions(ts)|
    ensures x.date <= NewestTransactions(ts)[i].date
  {
    NewestFirstOrder();
    var sorted := Sort(ts, NewestFirst);
    var n := |NewestTransactions(ts)|;
    assert NewestTransactions(ts) == sorted[..n];
    OutsidePrefix(sorted, n, x);
    var k :| n <= k < |sorted| && sorted[k] == x;
    assert NewestFirst(sorted[i], sorted[k]);
  }

  /** A row of the recent list: income shown as is in green, expense negated in red. */
  function ItemOf(t: Transaction): (r: TransactionItem)
    ensures r.date == t.date && r.description == t.description
    ensures r.category == t.category && r.project == t.project
    ensures r.amount == t.amount || r.amount == -t.amount
    ensures t.amount > 0.0 ==> (r.amount > 0.0 <==> t.isIncome)
    ensures r.amountColor == "#00C853" <==> t.isIncome
  {
    TransactionItem(t.date, t.description, t.category, t.project,
      if t.isIncome then t.amount else -t.amount,
      if t.isIncome then "#00C853" else "#D50000")
  }

  /** `RecentTransactions`: at most ten rows, the newest transactions first. */
  function RecentItems(ts: seq<Transaction>): (r: seq<TransactionItem>)
    ensures |r| == Min(10, |ts|)
    ensures forall i :: 0 <= i < |r| ==> r[i] == ItemOf(NewestTransactions(ts)[i])
    ensures forall i, j :: 0 <= i < j < |r| ==> r[i].date >= r[j].date
  {
    var shown := NewestTransactions(ts);
    seq(|shown|, k requires 0 <= k < |shown| => ItemOf(shown[k]))
  }

  // ---------------------------------------------------------------- top expenses

  /** The expenses of the last thirty days. */
  function RecentExpenses(ts: seq<Transaction>, now: int): seq<Transaction>
  {
    Filter(Recent(ts, now), IsExpense)
  }

  predicate LargerFirst(a: Group<string>, b: Group<string>) { a.total >= b.total }

  lemma LargerFirstOrder()
    ensures TotalPreorder(LargerFirst)
  {
  }

  /** The category totals, largest first. */
  function RankedCategories(ts: seq<Transaction>, now: int): (r: seq<Group<string>>)
    ensures multiset(r) == multiset(GroupSums(RecentExpenses(ts, now), TxCategory, TxAmount))
    ensures SortedBy(r, LargerFirst)
  {
    LargerFirstOrder();
    Sort(GroupSums(RecentExpenses(ts, now), TxCategory, TxAmount), LargerFirst)
  }

  /** `TopExpenses`: at most five categories with their month's expense totals, largest first. */
  function TopExpenses(ts: seq<Transaction>, now: int): (r: seq<CategoryExpense>)
    ensures |r| <= 5
    ensures forall i, j :: 0 <= i < j < |r| ==> r[i].amount >= r[j].amount
  {
    var top := Take(RankedCategories(ts, now), 5);
    seq(|top|, k requires 0 <= k < |top| => CategoryExpense(top[k].key, top[k].total))
  }

  /** The bars are the first ranked categories. */
  lemma TopIsRanked(ts: seq<Transaction>, now: int)
    ensures var r := TopExpenses(ts, now); var ranked := RankedCategories(ts, now);
      |r| == (if |ranked| < 5 then |ranked| else 5)
      && forall k :: 0 <= k < |r| ==> r[k].name == ranked[k].key && r[k].amount == ranked[k].total
  {
  }

  /** Each bar carries the month's expense total of a category that occurs among the month's expenses. */
  lemma TopExpenseTotals(ts: seq<Transaction>, now: int, i: nat)
    requires i < |TopExpenses(ts, now)|
    ensures var e := RecentExpenses(ts, now); var r := TopExpenses(ts, now);
      r[i].amount == SumByKey(e, TxCategory, r[i].name, TxAmount) && KeyOccurs(e, TxCategory, r[i].name)
  {
    var e := RecentExpenses(ts, now);
    var g := GroupSums(e, TxCategory, TxAmount);
    var ranked := RankedCategories(ts, now);
    TopIsRanked(ts, now);
    assert ranked[i] in multiset(g);
    var a :| 0 <= a < |g| && g[a] == ranked[i];
    GroupAt(e, TxCategory, TxAmount, a);
  }

  /** No category has two bars. */
  lemma TopExpenseNamesDistinct(ts: seq<Transaction>, now: int, i: nat, j: nat)
    requires i < j < |TopExpenses(ts, now)|
    ensures TopExpenses(ts, now)[i].name != TopExpenses(ts, now)[j].name
  {
    var g := GroupSums(RecentExpenses(ts, now), TxCategory, TxAmount);
    var ranked := RankedCategories(ts, now);
    TopIsRanked(ts, now);
    DistinctPermutation(g, ranked);
    assert ranked[i].key != ranked[j].key;
  }

  /** A category of the month's expenses left off the chart totals no more than any bar shown. */
  lemma TopExpensesAreLargest(ts: seq<Transaction>, now: int, c: string, i: nat)
    requires KeyOccurs(RecentExpenses(ts, now), TxCategory, c)
    requires forall k :: 0 <= k < |TopExpenses(ts, now)| ==> TopExpenses(ts, now)[k].name != c
    requires i < |TopExpenses(ts, now)|
    ensures SumByKey(RecentExpenses(ts, now), TxCategory, c, TxAmount) <= TopExpenses(ts, now)[i].amount
  {
    var e := RecentExpenses(ts, now);
    var x := Group(c, SumByKey(e, TxCategory, c, TxAmount));
    GroupOf(e, TxCategory, TxAmount, c);
    var ranked := RankedCategories(ts, now);
    var r := TopExpenses(ts, now);
    TopIsRanked(ts, now);
    assert x in multiset(ranked);
    var k :| 0 <= k < |ranked| && ranked[k] == x;
    assert k >= |r|;
    assert LargerFirst(ranked[i], ranked[k]);
  }

  // ---------------------------------------------------------------- the screen

  class DashboardView {
    var netWorth: real
    var monthlyIncome: real
    var monthlyExpense: real
    var savingsRate: real
    var recentTransactions: seq<TransactionItem>
    var topExpenses: seq<CategoryExpense>

    /** The screen loads its figures as soon as it is made. */
    constructor (service: DataService, now: int)
      ensures netWorth == NetWorth(service.data.accounts, service.data.investments)
      ensures monthlyIncome == MonthlyIncome(service.data.transactions, now)
      ensures monthlyExpense == MonthlyExpense(service.data.transactions, now)
      ensures savingsRate == SavingsRate(monthlyIncome, monthlyExpense)
      ensures recentTransactions == RecentItems(service.data.transactions)
      ensures topExpenses == TopExpenses(service.data.transactions, now)
    {
      new;
      Load(service, now);
    }

    /** `LoadDashboardData`: every figure recomputed from the store at time `now`. */
    method Load(service: DataService, now: int)
      modifies this
      ensures netWorth == NetWorth(service.data.accounts, service.data.investments)
      ensures monthlyIncome == MonthlyIncome(service.data.transactions, now)
      ensures monthlyExpense == MonthlyExpense(service.data.transactions, now)
      ensures savingsRate == SavingsRate(monthlyIncome, monthlyExpense)
      ensures recentTransactions == RecentItems(service.data.transactions)
      ensures topExpenses == TopExpenses(service.data.transactions, now)
    {
      var d := service.data;
      netWorth := NetWorth(d.accounts, d.investments);
      monthlyIncome := MonthlyIncome(d.transactions, now);
      monthlyExpense := MonthlyExpense(d.transactions, now);
      savingsRate := SavingsRate(monthlyIncome, monthlyExpense);
      recentTransactions := RecentItems(d.transactions);
      topExpenses := TopExpenses(d.transactions, now);
    }
  }
}
