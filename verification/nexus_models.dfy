/**
 * The NexusFinance records and their computed properties: payables and
 * receivables (Models/LiquidityModels.cs), team members (Models/TeamMember.cs),
 * investments (Models/Investment.cs) and projects (Models/Project.cs), with the
 * plain transaction, account and category records. Money is `decimal`, here
 * `real`; times are ticks, and the clock is the argument `now`.
 */
module NexusModels {
  import opened Wrappers
  import opened Decimal

  datatype Transaction = Transaction(
    description: string,
    amount: real,
    date: int,
    category: string,
    project: string,
    isIncome: bool)

  datatype Account = Account(name: string, institution: string, balance: real, kind: string, createdAt: int)

  datatype Category = Category(name: string, kind: string, icon: string)

  datatype Investment = Investment(name: string, kind: string, amount: real, currentValue: real, purchaseDate: int)

  datatype Project = Project(name: string, revenue: real, cost: real, description: string, createdAt: int)

  // ---------------------------------------------------------------- payables

  datatype Payable = Payable(
    id: string,
    title: string,
    amount: real,
    creditorName: string,
    dueDate: int,
    isPaid: bool,
    createdAt: int)

  /** One day in ticks. */
  const TicksPerDay := 864_000_000_000

  /** `(later - earlier).Days`: the whole days of a tick difference, truncated toward zero. */
  function DaysBetween(earlier: int, later: int): int
  {
    TruncDiv(later - earlier, TicksPerDay)
  }

  /** A difference is a negative number of days only once it reaches a full day. */
  lemma DaysNegative(earlier: int, later: int)
    ensures DaysBetween(earlier, later) < 0 <==> later - earlier <= -TicksPerDay
  {
    var q := DaysBetween(earlier, later);
    TruncDivBounds(later - earlier, TicksPerDay);
    if later - earlier >= 0 {
      assert q * TicksPerDay >= 0;
    }
  }

  /** At most `k` whole days means less than `k + 1` days of ticks. */
  lemma DaysAtMost(earlier: int, later: int, k: nat)
    ensures DaysBetween(earlier, later) <= k <==> later - earlier < (k + 1) * TicksPerDay
  {
    var q := DaysBetween(earlier, later);
    var delta := later - earlier;
    TruncDivBounds(delta, TicksPerDay);
    if delta >= 0 {
      if q <= k {
        assert q * TicksPerDay <= k * TicksPerDay;
      } else {
        assert q * TicksPerDay >= (k + 1) * TicksPerDay;
      }
    } else {
      assert q * TicksPerDay <= 0;
    }
  }

  /** The bucket of an unpaid payable due in `days` whole days. */
  function UrgencyForDays(days: int): string
  {
    if days < 0 then "Overdue"
    else if days <= 3 then "Critical"
    else if days <= 7 then "High"
    else if days <= 14 then "Medium"
    else "Low"
  }

  /** `Payable.UrgencyLevel` at time `now`. */
  function UrgencyLevel(p: Payable, now: int): (u: string)
    ensures p.isPaid ==> u == "Paid"
    ensures u in ["Paid", "Overdue", "Critical", "High", "Medium", "Low"]
  {
    if p.isPaid then "Paid" else UrgencyForDays(DaysBetween(now, p.dueDate))
  }

  /**
   * The buckets of an unpaid payable by the time left until it is due: it is
   * overdue only from a full day past due on, critical up to four days
   * before, high up to eight, medium up to fifteen, low beyond.
   */
  lemma UrgencyByTime(p: Payable, now: int)
    requires !p.isPaid
    ensures var u, left := UrgencyLevel(p, now), p.dueDate - now;
      && (u == "Overdue" <==> left <= -TicksPerDay)
      && (u == "Critical" <==> -TicksPerDay < left < 4 * TicksPerDay)
      && (u == "High" <==> 4 * TicksPerDay <= left < 8 * TicksPerDay)
      && (u == "Medium" <==> 8 * TicksPerDay <= left < 15 * TicksPerDay)
      && (u == "Low" <==> 15 * TicksPerDay <= left)
  {
    DaysNegative(now, p.dueDate);
    DaysAtMost(now, p.dueDate, 3);
    DaysAtMost(now, p.dueDate, 7);
    DaysAtMost(now, p.dueDate, 14);
  }

  /** How pressing a bucket is: paid 0, then low 1 up to overdue 5. */
  function UrgencyRank(u: string): nat
  {
    if u == "Overdue" then 5
    else if u == "Critical" then 4
    else if u == "High" then 3
    else if u == "Medium" then 2
    else if u == "Low" then 1
    else 0
  }

  /** Of two unpaid payables, the one due earlier is at least as urgent. */
  lemma UrgencyMonotone(p: Payable, q: Payable, now: int)
    requires !p.isPaid && !q.isPaid
    requires p.dueDate <= q.dueDate
    ensures UrgencyRank(UrgencyLevel(p, now)) >= UrgencyRank(UrgencyLevel(q, now))
  {
    UrgencyByTime(p, now);
    UrgencyByTime(q, now);
  }

  /** A payable only becomes more urgent as time passes. */
  lemma UrgencyGrowsWithTime(p: Payable, now: int, later: int)
    requires !p.isPaid
    requires now <= later
    ensures UrgencyRank(UrgencyLevel(p, now)) <= UrgencyRank(UrgencyLevel(p, later))
  {
    UrgencyByTime(p, now);
    UrgencyByTime(p, later);
  }

  /** `Payable.UrgencyColor`: one colour per bucket, grey for anything else. */
  function UrgencyColor(p: Payable, now: int): (c: string)
    ensures c != "#808080"
    ensures p.isPaid ==> c == "#00C853"
  {
    match UrgencyLevel(p, now)
    case "Overdue" => "#D50000"
    case "Critical" => "#FF5252"
    case "High" => "#909090"
    case "Medium" => "#606060"
    case "Low" => "#404040"
    case "Paid" => "#00C853"
    case _ => "#808080"
  }

  /** The colour tells the buckets apart: equal colours mean equal urgency. */
  lemma UrgencyColorDistinct(p: Payable, q: Payable, now: int, now': int)
    ensures UrgencyColor(p, now) == UrgencyColor(q, now') <==> UrgencyLevel(p, now) == UrgencyLevel(q, now')
  {
  }

  // ---------------------------------------------------------------- receivables

  datatype ProbabilityLevel = Confirmed | Likely | Uncertain

  datatype Receivable = Receivable(
    id: string,
    title: string,
    amount: real,
    debtorName: string,
    projectId: Option<string>,
    expectedDate: int,
    probability: ProbabilityLevel,
    isReceived: bool,
    createdAt: int)

  /** A new receivable: likely, not yet received. */
  function NewReceivable(id: string, now: int): (r: Receivable)
    ensures r.id == id && r.createdAt == now
    ensures r.probability == Likely && !r.isReceived
    ensures r.amount == 0.0 && r.projectId == None
  {
    Receivable(id, "", 0.0, "", None, 0, Likely, false, now)
  }

  /** The share of an expected payment that is counted on. */
  function Weight(p: ProbabilityLevel): (w: real)
    ensures 0.0 < w <= 1.0
  {
    match p
    case Confirmed => 1.0
    case Likely => 0.75
    case Uncertain => 0.4
  }

  /** `Receivable.WeightedAmount`: all of it once received, else the weighted share. */
  function WeightedAmount(r: Receivable): (w: real)
    ensures r.isReceived || r.probability == Confirmed ==> w == r.amount
    ensures r.amount >= 0.0 ==> 0.0 <= w <= r.amount
    ensures r.amount > 0.0 && !r.isReceived && r.probability != Confirmed ==> w < r.amount
  {
    if r.isReceived then r.amount else r.amount * Weight(r.probability)
  }

  /** A more certain receivable is weighted at least as high. */
  lemma WeightOrder(r: Receivable)
    requires r.amount >= 0.0 && !r.isReceived
    ensures WeightedAmount(r.(probability := Uncertain)) <= WeightedAmount(r.(probability := Likely))
    ensures WeightedAmount(r.(probability := Likely)) <= WeightedAmount(r.(probability := Confirmed))
  {
  }

  /** `Probability.ToString()`. */
  function ProbabilityName(p: ProbabilityLevel): string
  {
    match p
    case Confirmed => "Confirmed"
    case Likely => "Likely"
    case Uncertain => "Uncertain"
  }

  /** `Receivable.ProbabilityText`. */
  function ProbabilityText(r: Receivable): (t: string)
    ensures r.isReceived ==> t == "Received"
  {
    if r.isReceived then "Received" else ProbabilityName(r.probability)
  }

  /** The text names the state exactly: received, or not yet and with which probability. */
  lemma ProbabilityTextDistinct(r: Receivable, s: Receivable)
    ensures ProbabilityText(r) == "Received" <==> r.isReceived
    ensures !r.isReceived && !s.isReceived ==>
      (ProbabilityText(r) == ProbabilityText(s) <==> r.probability == s.probability)
  {
  }

  /** `Receivable.ProbabilityColor`. */
  function ProbabilityColor(r: Receivable): (c: string)
    ensures r.isReceived ==> c == "#00C853"
    ensures !r.isReceived ==> c != "#00C853"
  {
    if r.isReceived then "#00C853"
    else
      match r.probability
      case Confirmed => "#C0C0C0"
      case Likely => "#808080"
      case Uncertain => "#505050"
  }

  // ---------------------------------------------------------------- team members

  datatype PaymentFrequency = Monthly | Hourly | OneTime

  datatype TeamMember = TeamMember(
    id: string,
    name: string,
    role: string,
    salary: real,
    frequency: PaymentFrequency,
    isActive: bool,
    projectId: string,
    joinedDate: int)

  /** A new team member: paid monthly and active. */
  function NewTeamMember(id: string, now: int): (m: TeamMember)
    ensures m.id == id && m.joinedDate == now
    ensures m.frequency == Monthly && m.isActive && m.salary == 0.0
  {
    TeamMember(id, "", "", 0.0, Monthly, true, "", now)
  }

  /** The hours a month an hourly rate is paid for. */
  const HoursPerMonth := 160.0

  /** `TeamMember.MonthlyCost`: the salary, 160 hours of an hourly rate, nothing for a one-time fee. */
  function MonthlyCost(m: TeamMember): (c: real)
    ensures m.frequency == OneTime ==> c == 0.0
    ensures m.salary >= 0.0 ==> c >= 0.0
    ensures m.salary >= 0.0 && m.frequency != OneTime ==> c >= m.salary
  {
    match m.frequency
    case Monthly => m.salary
    case Hourly => m.salary * HoursPerMonth
    case OneTime => 0.0
  }

  /** A raise never lowers the monthly cost. */
  lemma MonthlyCostMonotone(m: TeamMember, salary: real)
    requires m.salary <= salary
    ensures MonthlyCost(m) <= MonthlyCost(m.(salary := salary))
  {
  }

  /** `TeamMember.StatusDisplay`. */
  function StatusDisplay(m: TeamMember): string
  {
    if m.isActive then "Active" else "Inactive"
  }

  /** `TeamMember.StatusColor`. */
  function StatusColor(m: TeamMember): string
  {
    if m.isActive then "#00C853" else "#606060"
  }

  /** Text and colour both show just the active flag, and agree with each other. */
  lemma StatusAgrees(m: TeamMember)
    ensures StatusDisplay(m) == "Active" <==> m.isActive
    ensures StatusColor(m) == "#00C853" <==> m.isActive
    ensures StatusDisplay(m) == "Active" <==> StatusColor(m) == "#00C853"
  {
  }

  // ---------------------------------------------------------------- investments and projects

  /** `Investment.Return`: the gain (or loss) on what was put in. */
  function Return(i: Investment): real
  {
    i.currentValue - i.amount
  }

  /** `Investment.ReturnPercent`: the return in percent, to two decimals; 0 without a positive stake. */
  function ReturnPercent(i: Investment): (r: real)
    ensures i.amount <= 0.0 ==> r == 0.0
    ensures i.amount > 0.0 ==> -0.005 <= r - Return(i) / i.amount * 100.0 <= 0.005
  {
    if i.amount > 0.0 then Round(Return(i) / i.amount * 100.0, 2) else 0.0
  }

  /** The percentage has the sign of the return. */
  lemma ReturnPercentSign(i: Investment)
    requires i.amount > 0.0
    ensures i.currentValue >= i.amount ==> ReturnPercent(i) >= 0.0
    ensures i.currentValue <= i.amount ==> ReturnPercent(i) <= 0.0
  {
    var x := Return(i) / i.amount * 100.0;
    RoundInteger(0, 2);
    if i.currentValue >= i.amount {
      RoundMonotone(0.0, x, 2);
    }
    if i.currentValue <= i.amount {
      assert Return(i) <= 0.0;
      assert Return(i) / i.amount <= 0.0;
      RoundMonotone(x, 0.0, 2);
    }
  }

  /** `Project.Profit`. */
  function Profit(p: Project): real
  {
    p.revenue - p.cost
  }

  /** `Project.ProfitMargin`: profit over revenue in percent, to one decimal; 0 without revenue. */
  function ProfitMargin(p: Project): (m: real)
    ensures p.revenue <= 0.0 ==> m == 0.0
    ensures p.revenue > 0.0 ==> -0.05 <= m - Profit(p) / p.revenue * 100.0 <= 0.05
  {
    if p.revenue > 0.0 then Round(Profit(p) / p.revenue * 100.0, 1) else 0.0
  }

  /** A project whose cost is within its revenue has a margin between 0 and 100 percent. */
  lemma ProfitMarginBounds(p: Project)
    requires p.revenue > 0.0 && 0.0 <= p.cost <= p.revenue
    ensures 0.0 <= ProfitMargin(p) <= 100.0
    ensures p.cost == 0.0 ==> ProfitMargin(p) == 100.0
    ensures p.cost == p.revenue ==> ProfitMargin(p) == 0.0
  {
    PercentBounds(Profit(p), p.revenue);
    RoundPercent(Profit(p) / p.revenue * 100.0, 1);
  }

  /** A part of a positive whole is between 0 and 100 percent of it. */
  lemma PercentBounds(part: real, whole: real)
    requires whole > 0.0 && 0.0 <= part <= whole
    ensures 0.0 <= part / whole * 100.0 <= 100.0
    ensures part == whole ==> part / whole * 100.0 == 100.0
    ensures part == 0.0 ==> part / whole * 100.0 == 0.0
  {
    DivideMonotone(part, whole, whole);
    DivideMonotone(0.0, part, whole);
  }

  /** Rounding keeps a percentage within 0..100 and leaves both ends where they are. */
  lemma RoundPercent(x: real, digits: nat)
    requires 0.0 <= x <= 100.0
    ensures 0.0 <= Round(x, digits) <= 100.0
    ensures x == 100.0 ==> Round(x, digits) == 100.0
    ensures x == 0.0 ==> Round(x, digits) == 0.0
  {
    RoundInteger(0, digits);
    RoundInteger(100, digits);
    RoundMonotone(0.0, x, digits);
    RoundMonotone(x, 100.0, digits);
  }
}
