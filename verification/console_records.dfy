/**
 * The console tracker's plain records: transactions, budgets, the daily
 * journal (entries, habit checks, tasks) and achievements. Times are ticks;
 * a journal entry's date is a day number, the `Date.Date` it is filed under.
 */
module ConsoleRecords {
  import opened Wrappers

  datatype TransactionType = Income | Expense

  datatype Transaction = Transaction(
    description: string,
    amount: real,
    kind: TransactionType,
    category: string,
    date: int,
    notes: string,
    currency: string)

  datatype Budget = Budget(category: string, amount: real, startDate: int, endDate: int, currency: string)

  datatype HabitCheck = HabitCheck(habitName: string, isCompleted: bool)

  datatype TaskItem = TaskItem(description: string, isCompleted: bool, priority: int, xp: int, xpClaimed: bool)

  datatype DailyEntry = DailyEntry(day: int, notes: string, mood: int, habits: seq<HabitCheck>, tasks: seq<TaskItem>)

  /** `new DailyEntry { Date = today }`: no notes, mood 5, no habits, no tasks. */
  function NewEntry(day: int): (e: DailyEntry)
    ensures e.day == day && e.notes == "" && e.mood == 5 && e.habits == [] && e.tasks == []
  {
    DailyEntry(day, "", 5, [], [])
  }

  datatype AchievementType = Level | TasksCompleted | HabitsStreak | TransactionsCount | BudgetSaved | DaysActive

  datatype Achievement = Achievement(
    title: string,
    isUnlocked: bool,
    unlockedDate: Option<int>,
    kind: AchievementType,
    targetValue: int,
    currentValue: int)
}
