/**
 * The console tracker's freelance projects (ConsoleApp/Models/Project.cs):
 * milestones that pay on completion, expenses, and the derived profit and
 * completion figures.
 */
module ConsoleProjects {
  import opened Wrappers
  import opened Seqs

  datatype ProjectStatus = Planned | InProgress | OnHold | Completed | Cancelled

  datatype Milestone = Milestone(
    name: string,
    description: string,
    paymentAmount: real,
    dueDate: Option<int>,
    isCompleted: bool,
    completedDate: Option<int>,
    xp: int)

  datatype ProjectExpense = ProjectExpense(description: string, amount: real, date: int, category: string, notes: string)

  datatype Project = Project(
    name: string,
    description: string,
    status: ProjectStatus,
    budget: real,
    receivedAmount: real,
    expectedIncome: real,
    startDate: int,
    endDate: Option<int>,
    deadline: Option<int>,
    client: string,
    currency: string,
    priority: int,
    milestones: seq<Milestone>,
    expenses: seq<ProjectExpense>,
    notes: string)

  /** A project created at `now`: planned, nothing received, in roubles, priority 3, no milestones or expenses. */
  function NewProject(name: string, now: int): (p: Project)
    ensures p.name == name && p.startDate == now
    ensures p.status == Planned && p.receivedAmount == 0.0 && p.currency == "RUB" && p.priority == 3
    ensures p.milestones == [] && p.expenses == []
  {
    Project(name, "", Planned, 0.0, 0.0, 0.0, now, None, None, "", "RUB", 3, [], [], "")
  }

  /** A milestone as `new ProjectMilestone`: not completed and worth 50 XP. */
  function NewMilestone(name: string, paymentAmount: real): (m: Milestone)
    ensures m.name == name && m.paymentAmount == paymentAmount
    ensures !m.isCompleted && m.completedDate == None && m.xp == 50
  {
    Milestone(name, "", paymentAmount, None, false, None, 50)
  }

  function ExpenseAmount(e: ProjectExpense): real
  {
    e.amount
  }

  /** `TotalExpenses`: the sum of the expense amounts. */
  function TotalExpenses(p: Project): real
  {
    Sum(p.expenses, ExpenseAmount)
  }

  /** `Profit`: what was received less what was spent. */
  function Profit(p: Project): real
  {
    p.receivedAmount - TotalExpenses(p)
  }

  /** `CompletionPercentage`: the share of the budget received, in percent; 0 without a positive budget. */
  function CompletionPercentage(p: Project): real
  {
    if p.budget > 0.0 then p.receivedAmount / p.budget * 100.0 else 0.0
  }

  /** Recording one more expense adds its amount to the total and takes it off the profit. */
  lemma ExpenseLowersProfit(p: Project, e: ProjectExpense)
    ensures TotalExpenses(p.(expenses := p.expenses + [e])) == TotalExpenses(p) + e.amount
    ensures Profit(p.(expenses := p.expenses + [e])) == Profit(p) - e.amount
  {
    SumAppend(p.expenses, [e], ExpenseAmount);
  }

  /** Expenses that are not negative never make the total negative, so profit is at most what was received. */
  lemma ProfitAtMostReceived(p: Project)
    requires forall i :: 0 <= i < |p.expenses| ==> p.expenses[i].amount >= 0.0
    ensures TotalExpenses(p) >= 0.0
    ensures Profit(p) <= p.receivedAmount
  {
    SumNonNegative(p.expenses, ExpenseAmount);
  }

  /** A payment within a positive budget shows between 0 and 100 percent, and exactly 100 when it is all paid. */
  lemma CompletionBounds(p: Project)
    requires p.budget > 0.0 && 0.0 <= p.receivedAmount <= p.budget
    ensures 0.0 <= CompletionPercentage(p) <= 100.0
    ensures p.receivedAmount == p.budget ==> CompletionPercentage(p) == 100.0
  {
    var q := p.receivedAmount / p.budget;
    assert q * p.budget == p.receivedAmount;
    assert q <= 1.0;
  }

  /** Without a positive budget the completion is 0, whatever was received. */
  lemma CompletionWithoutBudget(p: Project)
    requires p.budget <= 0.0
    ensures CompletionPercentage(p) == 0.0
  {
  }
}
