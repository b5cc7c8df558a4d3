/**
 * The liquidity screen (ViewModels/LiquidityViewModel.cs): cash on hand,
 * the open payables and expected receivables in date order, and the
 * projected balance they leave.
 */
module Liquidity {
  import opened Seqs
  import opened Decimal
  import opened Text
  import opened NexusModels
  import opened DataStore

  function AccountBalance(a: Account): real { a.balance }
  function PayableAmount(p: Payable): real { p.amount }
  function ReceivableAmount(r: Receivable): real { r.amount }

  predicate IsUnpaid(p: Payable) { !p.isPaid }
  predicate IsPending(r: Receivable) { !r.isReceived }

  predicate DueFirst(a: Payable, b: Payable) { a.dueDate <= b.dueDate }
  predicate ExpectedFirst(a: Receivable, b: Receivable) { a.expectedDate <= b.expectedDate }

  lemma DateOrders()
    ensures TotalPreorder(DueFirst) && TotalPreorder(ExpectedFirst)
  {
  }

  /** The payables listed: exactly the unpaid ones, soonest due first. */
  function OpenPayables(ps: seq<Payable>): (r: seq<Payable>)
    ensures multiset(r) == multiset(Filter(ps, IsUnpaid))
    ensures SortedBy(r, DueFirst)
  {
    DateOrders();
    Sort(Filter(ps, IsUnpaid), DueFirst)
  }

  /** The receivables listed: exactly those not yet received, soonest expected first. */
  function OpenReceivables(rs: seq<Receivable>): (r: seq<Receivable>)
    ensures multiset(r) == multiset(Filter(rs, IsPending))
    ensures SortedBy(r, ExpectedFirst)
  {
    DateOrders();
    Sort(Filter(rs, IsPending), ExpectedFirst)
  }

  /** `TotalPayables`: what the unpaid payables add up to, whatever order they are listed in. */
  function TotalOpenPayables(ps: seq<Payable>): (t: real)
    ensures t == Sum(Filter(ps, IsUnpaid), PayableAmount)
  {
    SumPermutation(OpenPayables(ps), Filter(ps, IsUnpaid), PayableAmount);
    Sum(OpenPayables(ps), PayableAmount)
  }

  /** `TotalReceivables`: the weighted amounts of the pending receivables, whatever their order. */
  function TotalOpenReceivables(rs: seq<Receivable>): (t: real)
    ensures t == Sum(Filter(rs, IsPending), WeightedAmount)
  {
    SumPermutation(OpenReceivables(rs), Filter(rs, IsPending), WeightedAmount);
    Sum(OpenReceivables(rs), WeightedAmount)
  }

  function IsOverdue(now: int): Payable -> bool
  {
    (p: Payable) => !p.isPaid && UrgencyLevel(p, now) == "Overdue"
  }

  function IsPressing(now: int): Payable -> bool
  {
    (p: Payable) => !p.isPaid && (UrgencyLevel(p, now) == "Critical" || UrgencyLevel(p, now) == "High")
  }

  /** Overdue and pressing payables are counted apart, and together are no more than the payables listed. */
  lemma PayableCounts(ps: seq<Payable>, now: int)
    ensures Count(ps, IsOverdue(now)) + Count(ps, IsPressing(now)) <= |OpenPayables(ps)|
  {
    CountDisjoint(ps, IsOverdue(now), IsPressing(now), IsUnpaid);
    assert |OpenPayables(ps)| == |multiset(Filter(ps, IsUnpaid))|;
  }

  /** An unpaid payable is counted overdue exactly when it is a full day or more past due. */
  lemma OverdueMeansDayPast(p: Payable, now: int)
    ensures IsOverdue(now)(p) <==> !p.isPaid && p.dueDate - now <= -TicksPerDay
  {
    DaysNegative(now, p.dueDate);
  }

  /** `ProjectedBalanceColor`: red for a shortfall, green otherwise. */
  function BalanceColor(balance: real): (c: string)
    ensures c == "#FF5252" <==> balance < 0.0
    ensures c == "#00C853" <==> balance >= 0.0
  {
    if balance < 0.0 then "#FF5252" else "#00C853"
  }

  /**
   * With no negative amounts the projection lies between cash less the open
   * payables and cash plus everything still expected less the open payables.
   */
  lemma ProjectionBounds(accounts: seq<Account>, ps: seq<Payable>, rs: seq<Receivable>)
    requires forall i :: 0 <= i < |rs| ==> rs[i].amount >= 0.0
    ensures var cash := Sum(accounts, AccountBalance);
      var projected := cash + TotalOpenReceivables(rs) - TotalOpenPayables(ps);
      cash - TotalOpenPayables(ps) <= projected
        <= cash + Sum(Filter(rs, IsPending), ReceivableAmount) - TotalOpenPayables(ps)
  {
    var pending := Filter(rs, IsPending);
    forall i | 0 <= i < |pending| ensures 0.0 <= WeightedAmount(pending[i]) <= ReceivableAmount(pending[i]) {
      assert pending[i] in rs;
    }
    SumNonNegative(pending, WeightedAmount);
    SumLessEqual(pending, WeightedAmount, pending, ReceivableAmount);
  }

  // ---------------------------------------------------------------- rows

  /** `PayableViewModel.DaysUntilDue`: whole days until due, truncated toward zero. */
  function DaysUntilDue(p: Payable, now: int): int
  {
    DaysBetween(now, p.dueDate)
  }

  /** `DaysUntilDueText`: "<n>d overdue" for a negative day count, "<n>d left" otherwise. */
  function DaysUntilDueText(p: Payable, now: int): string
  {
    var d := DaysUntilDue(p, now);
    if d < 0 then NatToText(Abs(d)) + "d overdue" else NatToText(Abs(d)) + "d left"
  }

  /**
   * The text starts with the number of days as digits, read back exactly, and
   * says "overdue" for an unpaid payable exactly when its urgency is "Overdue".
   */
  lemma DaysTextReadsBack(p: Payable, now: int)
    ensures var t := DaysUntilDueText(p, now);
      var n := |NatToText(Abs(DaysUntilDue(p, now)))|;
      n <= |t| && (forall i :: 0 <= i < n ==> '0' <= t[i] <= '9')
      && ParseNat(t[..n]) == Abs(DaysUntilDue(p, now))
      && (t[n..] == "d overdue" <==> DaysUntilDue(p, now) < 0)
      && (!p.isPaid ==> (t[n..] == "d overdue" <==> UrgencyLevel(p, now) == "Overdue"))
  {
    var d := DaysUntilDue(p, now);
    var digits := NatToText(Abs(d));
    var t := DaysUntilDueText(p, now);
    assert t[..|digits|] == digits;
    NatTextRoundTrip(Abs(d));
  }

  /** `ReceivableViewModel.GetConfidencePercent`. */
  function ConfidencePercent(level: ProbabilityLevel): (c: nat)
    ensures 0 < c <= 100
  {
    match level
    case Confirmed => 100
    case Likely => 75
    case Uncertain => 40
  }

  /** The confidence shown is the weight the receivable is counted with, as a percentage. */
  lemma ConfidenceIsWeight(level: ProbabilityLevel)
    ensures ConfidencePercent(level) as real == Weight(level) * 100.0
  {
  }

  // ---------------------------------------------------------------- the screen

  class LiquidityView {
    var currentCash: real
    var payables: seq<Payable>
    var totalPayables: real
    var overduePayablesCount: nat
    var criticalPayablesCount: nat
    var receivables: seq<Receivable>
    var totalReceivables: real
    var projectedBalance: real
    var projectedBalanceColor: string

    /** The screen loads its figures as soon as it is made. */
    constructor (service: DataService, now: int)
      ensures currentCash == Sum(service.data.accounts, AccountBalance)
      ensures payables == OpenPayables(service.data.payables)
      ensures totalPayables == TotalOpenPayables(service.data.payables)
      ensures overduePayablesCount == Count(service.data.payables, IsOverdue(now))
      ensures criticalPayablesCount == Count(service.data.payables, IsPressing(now))
      ensures receivables == OpenReceivables(service.data.receivables)
      ensures totalReceivables == TotalOpenReceivables(service.data.receivables)
      ensures projectedBalance == currentCash + totalReceivables - totalPayables
      ensures projectedBalanceColor == BalanceColor(projectedBalance)
    {
      projectedBalanceColor := "#E0E0E0";
      new;
      Load(service, now);
    }

    /** `LoadLiquidityData`: every figure recomputed from the store at time `now`. */
    method Load(service: DataService, now: int)
      modifies this
      ensures currentCash == Sum(service.data.accounts, AccountBalance)
      ensures payables == OpenPayables(service.data.payables)
      ensures totalPayables == TotalOpenPayables(service.data.payables)
      ensures overduePayablesCount == Count(service.data.payables, IsOverdue(now))
      ensures criticalPayablesCount == Count(service.data.payables, IsPressing(now))
      ensures receivables == OpenReceivables(service.data.receivables)
      ensures totalReceivables == TotalOpenReceivables(service.data.receivables)
      ensures projectedBalance == currentCash + totalReceivables - totalPayables
      ensures projectedBalanceColor == BalanceColor(projectedBalance)
    {
      var d := service.data;
      var cash := Sum(d.accounts, AccountBalance);
      var open := OpenPayables(d.payables);
      var owed := Sum(open, PayableAmount);
      var overdue := Count(d.payables, IsOverdue(now));
      var pressing := Count(d.payables, IsPressing(now));
      var expected := OpenReceivables(d.receivables);
      var incoming := Sum(expected, WeightedAmount);
      var projected := cash + incoming - owed;
      Show(cash, open, owed, overdue, pressing, expected, incoming, projected, BalanceColor(projected));
    }

    /** Sets the screen's bound properties to the figures given. */
    method Show(cash: real, open: seq<Payable>, owed: real, overdue: nat, pressing: nat,
                expected: seq<Receivable>, incoming: real, projected: real, color: string)
      modifies this
      ensures currentCash == cash && payables == open && totalPayables == owed
      ensures overduePayablesCount == overdue && criticalPayablesCount == pressing
      ensures receivables == expected && totalReceivables == incoming
      ensures projectedBalance == projected && projectedBalanceColor == color
    {
      currentCash, payables, totalPayables := cash, open, owed;
      overduePayablesCount, criticalPayablesCount := overdue, pressing;
      receivables, totalReceivables := expected, incoming;
      projectedBalance, projectedBalanceColor := projected, color;
    }
  }
}
