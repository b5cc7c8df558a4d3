/**
 * The state rules of the console tracker's menus (ConsoleApp/Menus/MainMenu.cs):
 * the daily journal, experience awards, achievements, budgets and projects.
 * Console input becomes parameters; a `ReadInt(lo, hi)` choice becomes an index
 * argument with the range the prompt enforces as a precondition.
 */
module MainMenu {
  import opened Wrappers
  import opened Seqs
  import opened Decimal
  import opened Leveling
  import opened ConsoleRecords
  import opened ConsoleProjects
  import opened Currencies

  // ---------------------------------------------------------------- balance

  function Amount(t: Transaction): real
  {
    t.amount
  }

  function IsIncome(t: Transaction): bool
  {
    t.kind == Income
  }

  function IsExpense(t: Transaction): bool
  {
    t.kind == Expense
  }

  /** The main screen's balance: income minus expenses, over all transactions. */
  function Balance(ts: seq<Transaction>): real
  {
    Sum(Filter(ts, IsIncome), Amount) - Sum(Filter(ts, IsExpense), Amount)
  }

  /** A new income raises the balance by its amount; a new expense lowers it by its amount. */
  lemma BalanceAppend(ts: seq<Transaction>, t: Transaction)
    ensures Balance(ts + [t]) == Balance(ts) + (if t.kind == Income then t.amount else -t.amount)
  {
    FilterAppend(ts, [t], IsIncome);
    FilterAppend(ts, [t], IsExpense);
    SumAppend(Filter(ts, IsIncome), Filter([t], IsIncome), Amount);
    SumAppend(Filter(ts, IsExpense), Filter([t], IsExpense), Amount);
  }

  // ---------------------------------------------------------------- daily journal

  /** `entries.FirstOrDefault(e => e.Date.Date == today)`, as a position. */
  function TodayIndex(entries: seq<DailyEntry>, today: int): (r: Option<nat>)
    ensures r.Some? ==> r.value < |entries| && entries[r.value].day == today
    ensures r.None? <==> forall i :: 0 <= i < |entries| ==> entries[i].day != today
  {
    FindIndex(entries, (e: DailyEntry) => e.day == today)
  }

  /** No two journal entries share a day. */
  ghost predicate UniqueDays(entries: seq<DailyEntry>)
  {
    forall i, j :: 0 <= i < j < |entries| ==> entries[i].day != entries[j].day
  }

  /** Every completed task has had its XP paid out. */
  ghost predicate TasksClaimed(entries: seq<DailyEntry>)
  {
    forall i, k :: 0 <= i < |entries| && 0 <= k < |entries[i].tasks| ==>
      entries[i].tasks[k].isCompleted ==> entries[i].tasks[k].xpClaimed
  }

  /** The task created by `AddTaskAsync`: open, unpaid, worth `GetXPForTask(priority)`. */
  function NewTask(description: string, priority: int): (t: TaskItem)
    ensures t.description == description && t.priority == priority
    ensures !t.isCompleted && !t.xpClaimed
    ensures t.xp == XPForTask(priority)
  {
    TaskItem(description, false, priority, XPForTask(priority), false)
  }

  /** One toggle of a task: the task afterwards and the XP it pays. */
  datatype TaskToggle = TaskToggle(task: TaskItem, paid: int)

  /**
   * Toggling a task flips its completion; turning it complete pays its XP
   * only if it was never paid, and marks it paid.
   */
  function ToggleTaskItem(t: TaskItem): (r: TaskToggle)
    ensures r.task.isCompleted == !t.isCompleted
    ensures r.task == t.(isCompleted := r.task.isCompleted, xpClaimed := r.task.xpClaimed)
    ensures r.paid != 0 ==> !t.xpClaimed && r.task.xpClaimed && r.paid == t.xp
    ensures r.task.isCompleted && !t.xpClaimed ==> r.paid == t.xp && r.task.xpClaimed
    ensures t.xpClaimed ==> r.paid == 0 && r.task.xpClaimed
  {
    var flipped := t.(isCompleted := !t.isCompleted);
    if flipped.isCompleted && !flipped.xpClaimed then TaskToggle(flipped.(xpClaimed := true), t.xp)
    else TaskToggle(flipped, 0)
  }

  /** The XP that `n` successive toggles of `t` pay in total. */
  function TaskPayout(t: TaskItem, n: nat): int
    decreases n
  {
    if n == 0 then 0
    else
      var r := ToggleTaskItem(t);
      r.paid + TaskPayout(r.task, n - 1)
  }

  /**
   * However often a task is toggled, it pays its XP at most once: exactly once
   * if it was unpaid and is toggled into the completed state at least once.
   */
  lemma {:induction false} TaskPaysAtMostOnce(t: TaskItem, n: nat)
    ensures TaskPayout(t, n) ==
      if t.xpClaimed || n < (if t.isCompleted then 2 else 1) then 0 else t.xp
    decreases n
  {
    if n > 0 {
      var r := ToggleTaskItem(t);
      TaskPaysAtMostOnce(r.task, n - 1);
    }
  }

  /** Whether some check in `hs` is for the habit `name`. */
  predicate HasHabit(hs: seq<HabitCheck>, name: string)
  {
    exists k :: 0 <= k < |hs| && hs[k].habitName == name
  }

  /** The checks of an entry after `AddHabit`: one more, open, unless the habit already has one. */
  function WithHabit(hs: seq<HabitCheck>, name: string): (r: seq<HabitCheck>)
    ensures HasHabit(r, name)
    ensures HasHabit(hs, name) ==> r == hs
    ensures !HasHabit(hs, name) ==> r == hs + [HabitCheck(name, false)]
  {
    if HasHabit(hs, name) then hs
    else
      assert (hs + [HabitCheck(name, false)])[|hs|].habitName == name;
      hs + [HabitCheck(name, false)]
  }

  /** One toggle of a habit: the habit afterwards and the XP it pays. */
  datatype HabitToggle = HabitToggle(habit: HabitCheck, paid: int)

  /** Toggling a habit flips it and pays `GetXPForHabit` whenever it turns complete. */
  function ToggleHabitItem(h: HabitCheck): (r: HabitToggle)
    ensures r.habit == h.(isCompleted := !h.isCompleted)
    ensures r.paid == if h.isCompleted then 0 else XPForHabit
  {
    HabitToggle(h.(isCompleted := !h.isCompleted), if !h.isCompleted then XPForHabit else 0)
  }

  /** The XP that `n` successive toggles of `h` pay in total. */
  function HabitPayout(h: HabitCheck, n: nat): int
    decreases n
  {
    if n == 0 then 0
    else
      var r := ToggleHabitItem(h);
      r.paid + HabitPayout(r.habit, n - 1)
  }

  /** A habit pays 15 XP on every false-to-true toggle, however often it is toggled. */
  lemma {:induction false} HabitPaysEveryCompletion(h: HabitCheck, n: nat)
    ensures HabitPayout(h, n) == XPForHabit * (if h.isCompleted then n / 2 else (n + 1) / 2)
    decreases n
  {
    if n > 0 {
      HabitPaysEveryCompletion(ToggleHabitItem(h).habit, n - 1);
    }
  }

  // ---------------------------------------------------------------- achievements

  function CompletedTasks(entries: seq<DailyEntry>): (n: nat)
  {
    if |entries| == 0 then 0
    else CompletedTasks(entries[..|entries| - 1]) + Count(entries[|entries| - 1].tasks, (t: TaskItem) => t.isCompleted)
  }

  /** The distinct days that have a journal entry. */
  function Days(entries: seq<DailyEntry>): set<int>
  {
    set i | 0 <= i < |entries| :: entries[i].day
  }

  /** With one entry per day, the active-day count is the number of entries. */
  lemma {:induction false} UniqueDaysCount(entries: seq<DailyEntry>)
    requires UniqueDays(entries)
    ensures |Days(entries)| == |entries|
  {
    if |entries| > 0 {
      var e' := entries[..|entries| - 1];
      var x := entries[|entries| - 1];
      assert Days(entries) == Days(e') + {x.day};
      assert x.day !in Days(e');
      UniqueDaysCount(e');
    }
  }

  /** The value the statistics screen measures an achievement of each kind by. */
  function AchievementValue(kind: AchievementType, level: int, entries: seq<DailyEntry>,
                            transactions: seq<Transaction>): int
  {
    match kind
    case Level => level
    case TasksCompleted => CompletedTasks(entries)
    case TransactionsCount => |transactions|
    case DaysActive => |Days(entries)|
    case HabitsStreak => 0
    case BudgetSaved => 0
  }

  /**
   * The refresh of one achievement: an unlocked one stays as it is; a locked
   * one takes the measured value and unlocks, stamped `now`, once it reaches
   * its target.
   */
  function Refreshed(a: Achievement, value: int, now: int): (r: Achievement)
    ensures a.isUnlocked ==> r == a
    ensures !a.isUnlocked ==> r.currentValue == value
    ensures r.isUnlocked <==> a.isUnlocked || value >= a.targetValue
    ensures !a.isUnlocked && value >= a.targetValue ==> r.unlockedDate == Some(now)
    ensures !a.isUnlocked && value < a.targetValue ==> r == a.(currentValue := value)
    ensures r.title == a.title && r.kind == a.kind && r.targetValue == a.targetValue
  {
    if a.isUnlocked then a
    else if value >= a.targetValue then a.(currentValue := value, isUnlocked := true, unlockedDate := Some(now))
    else a.(currentValue := value)
  }

  /** Refreshing again with the same measurements changes nothing, whatever the clock says. */
  lemma RefreshIdempotent(a: Achievement, value: int, now: int, later: int)
    ensures Refreshed(Refreshed(a, value, now), value, later) == Refreshed(a, value, now)
  {
  }

  // ---------------------------------------------------------------- projects

  /** The projects the milestone and payment menus offer: planned or in progress. */
  function IsActive(p: Project): bool
  {
    p.status == InProgress || p.status == Planned
  }

  function IsOpen(m: Milestone): bool
  {
    !m.isCompleted
  }

  /**
   * A payment's XP: one per full 100 received, truncated toward zero, at most
   * 500. The `(int)` cast of the quotient throws `OverflowException`, here
   * `None`, when the truncated quotient does not fit a 32-bit `int`.
   */
  function PaymentXP(amount: real): (xp: Option<int>)
    ensures xp.None? <==> !(Int32Min <= Truncate(amount / 100.0) <= Int32Max)
    ensures xp.Some? ==> xp.value <= 500
    ensures xp.Some? && amount >= 0.0 ==>
      0 <= xp.value && (xp.value == 500 || xp.value as real * 100.0 <= amount < (xp.value + 1) as real * 100.0)
    ensures xp.Some? && amount < 0.0 ==>
      xp.value <= 0 && (xp.value - 1) as real * 100.0 < amount <= xp.value as real * 100.0
    ensures 50000.0 <= amount < 214748364800.0 ==> xp == Some(500)
    ensures amount >= 214748364800.0 ==> xp.None?
  {
    var q := Truncate(amount / 100.0);
    if Int32Min <= q <= Int32Max then Some(Min(q, 500)) else None
  }

  /** The project after a payment of `amount` is received. */
  function WithPayment(p: Project, amount: real): Project
  {
    p.(receivedAmount := p.receivedAmount + amount)
  }

  /** The income transaction that a project payment books. */
  function PaymentTransaction(p: Project, amount: real, description: string, now: int): (t: Transaction)
    ensures t.kind == Income && t.amount == amount && t.category == "Проекты" && t.currency == p.currency
    ensures t.description == "[" + p.name + "] " + (if description == "" then "Оплата по проекту " + p.name else description)
  {
    var d := if description == "" then "Оплата по проекту " + p.name else description;
    Transaction("[" + p.name + "] " + d, amount, Income, "Проекты", now, "", p.currency)
  }

  /** Booking a project payment raises the balance by the amount paid. */
  lemma PaymentRaisesBalance(ts: seq<Transaction>, p: Project, amount: real, description: string, now: int)
    ensures Balance(ts + [PaymentTransaction(p, amount, description, now)]) == Balance(ts) + amount
  {
    BalanceAppend(ts, PaymentTransaction(p, amount, description, now));
  }

  // ---------------------------------------------------------------- the menu state

  /** The data the menus load and save, with the level system they award XP to. */
  class Tracker {
    var entries: seq<DailyEntry>
    var habits: seq<string>
    var transactions: seq<Transaction>
    var budgets: seq<Budget>
    var projects: seq<Project>
    var achievements: seq<Achievement>
    const levels: LevelSystem

    /** Nothing stored yet: the defaults the data files fall back to. */
    constructor ()
      ensures entries == [] && habits == [] && transactions == [] && budgets == [] && projects == []
      ensures achievements == []
      ensures fresh(levels) && levels.Valid() && levels.level == 1 && levels.totalXP == 0
    {
      entries, habits, transactions, budgets, projects, achievements := [], [], [], [], [], [];
      levels := new LevelSystem();
    }

    /**
     * `AddXPAsync`: adds `xp` to the total and recomputes level and progress from it;
     * `leveledUp` is when the level-up banner shows.
     */
    method AddXP(xp: int) returns (leveledUp: bool)
      modifies levels
      ensures levels.totalXP == old(levels.totalXP) + xp
      ensures levels.level == LevelOf(levels.totalXP)
      ensures levels.currentLevelXP == levels.totalXP - Cum(levels.level - 1)
      ensures levels.xpToNextLevel == XPForLevel(levels.level)
      ensures levels.lastLevelUp == old(levels.lastLevelUp)
      ensures leveledUp <==> levels.level > old(levels.level)
    {
      var oldLevel := levels.level;
      var total := levels.totalXP + xp;
      var newLevel := CalculateLevel(total);
      var progress := GetLevelProgress(total, newLevel);
      levels.totalXP, levels.level := total, newLevel;
      levels.currentLevelXP, levels.xpToNextLevel := progress.currentLevelXP, progress.xpToNextLevel;
      leveledUp := newLevel > oldLevel;
    }

    /** Finds today's entry, appending a new one when there is none; `i` is its position. */
    method TodayEntry(today: int) returns (i: nat)
      modifies this
      ensures i < |entries| && entries[i].day == today
      ensures forall j :: 0 <= j < i ==> entries[j].day != today
      ensures old(TodayIndex(entries, today)).Some? ==> entries == old(entries) && i == old(TodayIndex(entries, today)).value
      ensures old(TodayIndex(entries, today)).None? ==> entries == old(entries) + [NewEntry(today)] && i == |old(entries)|
      ensures UniqueDays(old(entries)) ==> UniqueDays(entries)
      ensures TasksClaimed(old(entries)) ==> TasksClaimed(entries)
      ensures habits == old(habits) && transactions == old(transactions) && budgets == old(budgets)
      ensures projects == old(projects) && achievements == old(achievements)
    {
      match TodayIndex(entries, today)
      case Some(k) =>
        i := k;
      case None =>
        i := |entries|;
        entries := entries + [NewEntry(today)];
    }

    /** `CreateOrUpdateTodayEntryAsync`: today's entry exists afterwards and takes `notes` unless they are empty. */
    method CreateOrUpdateTodayEntry(today: int, notes: string)
      modifies this
      ensures var i := TodayIndex(entries, today);
        i.Some? && entries[i.value].notes == (if notes == "" then old(TodayEntryNotes(entries, today)) else notes)
      ensures var e, i := WithToday(old(entries), today), TodayPos(old(entries), today);
        entries == if notes == "" then e else e[i := e[i].(notes := notes)]
      ensures UniqueDays(old(entries)) ==> UniqueDays(entries)
      ensures TasksClaimed(old(entries)) ==> TasksClaimed(entries)
      ensures habits == old(habits) && transactions == old(transactions) && budgets == old(budgets)
      ensures projects == old(projects) && achievements == old(achievements)
    {
      var i := TodayEntry(today);
      if notes != "" {
        entries := entries[i := entries[i].(notes := notes)];
      }
      TodayIndexAfterUpdate(entries, i, today);
    }

    /** `AddTaskAsync`: appends exactly one new task to today's entry. */
    method AddTask(today: int, description: string, priority: int)
      requires 1 <= priority <= 5
      modifies this
      ensures var i := TodayIndex(entries, today);
        i.Some? && entries[i.value].tasks == old(TodayTasks(entries, today)) + [NewTask(description, priority)]
      ensures var e, i := WithToday(old(entries), today), TodayPos(old(entries), today);
        entries == e[i := e[i].(tasks := e[i].tasks + [NewTask(description, priority)])]
      ensures UniqueDays(old(entries)) ==> UniqueDays(entries)
      ensures TasksClaimed(old(entries)) ==> TasksClaimed(entries)
      ensures habits == old(habits) && transactions == old(transactions) && budgets == old(budgets)
      ensures projects == old(projects) && achievements == old(achievements)
    {
      var i := TodayEntry(today);
      var entry := entries[i];
      entries := entries[i := entry.(tasks := entry.tasks + [NewTask(description, priority)])];
      TodayIndexAfterUpdate(entries, i, today);
    }

    /**
     * `ToggleTaskAsync`: with no entry today or no tasks in it, nothing happens; otherwise
     * task `index` is toggled and the XP it pays, if any, is awarded.
     */
    method ToggleTask(today: int, index: nat) returns (paid: int)
      requires |TodayTasks(entries, today)| > 0 ==> index < |TodayTasks(entries, today)|
      modifies this, levels
      ensures |old(TodayTasks(entries, today))| == 0 ==>
        paid == 0 && entries == old(entries) && unchanged(levels)
      ensures |old(TodayTasks(entries, today))| > 0 ==>
        var i := old(TodayIndex(entries, today)).value;
        var t := old(entries[i].tasks[index]);
        var r := ToggleTaskItem(t);
        |entries| == |old(entries)|
        && (forall j :: 0 <= j < |entries| && j != i ==> entries[j] == old(entries[j]))
        && entries[i] == old(entries[i]).(tasks := old(entries[i].tasks)[index := r.task])
        && paid == r.paid
        && (!t.isCompleted && !t.xpClaimed ==>
              levels.totalXP == old(levels.totalXP) + paid && levels.Valid()
              && levels.lastLevelUp == old(levels.lastLevelUp))
        && (t.isCompleted || t.xpClaimed ==> unchanged(levels))
      ensures UniqueDays(old(entries)) ==> UniqueDays(entries)
      ensures TasksClaimed(old(entries)) ==> TasksClaimed(entries)
      ensures habits == old(habits) && transactions == old(transactions) && budgets == old(budgets)
      ensures projects == old(projects) && achievements == old(achievements)
    {
      paid := 0;
      match TodayIndex(entries, today)
      case None =>
      case Some(i) =>
        if |entries[i].tasks| == 0 {
          return;
        }
        var entry := entries[i];
        var task := entry.tasks[index];
        task := task.(isCompleted := !task.isCompleted);
        if task.isCompleted && !task.xpClaimed {
          var _ := AddXP(task.xp);
          paid := task.xp;
          task := task.(xpClaimed := true);
        }
        var updated := entry.(tasks := entry.tasks[index := task]);
        ToggleKeepsClaims(entry, index);
        UpdateKeepsInvariants(entries, i, updated);
        entries := entries[i := updated];
    }

    /**
     * `AddHabit`: the name joins the habit list if absent, and today's entry
     * (created if need be) gets an open check for it if it has none of that name.
     */
    method AddHabit(today: int, habitName: string)
      modifies this
      ensures habits == if habitName in old(habits) then old(habits) else old(habits) + [habitName]
      ensures var i := TodayIndex(entries, today);
        i.Some? && entries[i.value].habits == WithHabit(old(TodayHabits(entries, today)), habitName)
      ensures var e, i := WithToday(old(entries), today), TodayPos(old(entries), today);
        entries == e[i := e[i].(habits := WithHabit(e[i].habits, habitName))]
      ensures UniqueDays(old(entries)) ==> UniqueDays(entries)
      ensures TasksClaimed(old(entries)) ==> TasksClaimed(entries)
      ensures transactions == old(transactions) && budgets == old(budgets)
      ensures projects == old(projects) && achievements == old(achievements)
    {
      ghost var before := TodayHabits(entries, today);
      if habitName !in habits {
        habits := habits + [habitName];
      }
      var i := TodayEntry(today);
      var entry := entries[i];
      assert entry.habits == before;
      var updated := entry;
      if FindIndex(entry.habits, (h: HabitCheck) => h.habitName == habitName).None? {
        updated := entry.(habits := entry.habits + [HabitCheck(habitName, false)]);
      }
      assert updated.habits == WithHabit(before, habitName);
      UpdateKeepsInvariants(entries, i, updated);
      entries := entries[i := updated];
      TodayIndexAfterUpdate(entries, i, today);
    }

    /**
     * `ToggleHabitAsync`: with no entry today or no habits in it, nothing happens;
     * otherwise habit `index` is toggled and 15 XP is awarded if it turned complete.
     */
    method ToggleHabit(today: int, index: nat) returns (paid: int)
      requires |TodayHabits(entries, today)| > 0 ==> index < |TodayHabits(entries, today)|
      modifies this, levels
      ensures |old(TodayHabits(entries, today))| == 0 ==>
        paid == 0 && entries == old(entries) && unchanged(levels)
      ensures |old(TodayHabits(entries, today))| > 0 ==>
        var i := old(TodayIndex(entries, today)).value;
        var h := old(entries[i].habits[index]);
        var r := ToggleHabitItem(h);
        |entries| == |old(entries)|
        && (forall j :: 0 <= j < |entries| && j != i ==> entries[j] == old(entries[j]))
        && entries[i] == old(entries[i]).(habits := old(entries[i].habits)[index := r.habit])
        && paid == r.paid
        && (!h.isCompleted ==>
              levels.totalXP == old(levels.totalXP) + paid && levels.Valid()
              && levels.lastLevelUp == old(levels.lastLevelUp))
        && (h.isCompleted ==> unchanged(levels))
      ensures UniqueDays(old(entries)) ==> UniqueDays(entries)
      ensures TasksClaimed(old(entries)) ==> TasksClaimed(entries)
      ensures habits == old(habits) && transactions == old(transactions) && budgets == old(budgets)
      ensures projects == old(projects) && achievements == old(achievements)
    {
      paid := 0;
      match TodayIndex(entries, today)
      case None =>
      case Some(i) =>
        if |entries[i].habits| == 0 {
          return;
        }
        var habit := entries[i].habits[index];
        var wasCompleted := habit.isCompleted;
        habit := habit.(isCompleted := !habit.isCompleted);
        if habit.isCompleted && !wasCompleted {
          var _ := AddXP(XPForHabit);
          paid := XPForHabit;
        }
        entries := entries[i := entries[i].(habits := entries[i].habits[index := habit])];
    }

    /** `SetMood`: today's entry, created if need be, takes the mood. */
    method SetMood(today: int, mood: int)
      requires 1 <= mood <= 10
      modifies this
      ensures var i := TodayIndex(entries, today);
        i.Some? && entries[i.value].mood == mood
      ensures var e, i := WithToday(old(entries), today), TodayPos(old(entries), today);
        entries == e[i := e[i].(mood := mood)]
      ensures UniqueDays(old(entries)) ==> UniqueDays(entries)
      ensures TasksClaimed(old(entries)) ==> TasksClaimed(entries)
      ensures habits == old(habits) && transactions == old(transactions) && budgets == old(budgets)
      ensures projects == old(projects) && achievements == old(achievements)
    {
      var i := TodayEntry(today);
      entries := entries[i := entries[i].(mood := mood)];
      TodayIndexAfterUpdate(entries, i, today);
    }

    /**
     * The achievement refresh of `Statistics`: every locked achievement takes
     * its measured value and unlocks at `now` once it reaches its target.
     */
    method RefreshAchievements(now: int)
      modifies this
      ensures |achievements| == |old(achievements)|
      ensures forall k :: 0 <= k < |achievements| ==>
        achievements[k] == Refreshed(old(achievements[k]),
          AchievementValue(old(achievements[k]).kind, levels.level, entries, transactions), now)
      ensures entries == old(entries) && habits == old(habits) && transactions == old(transactions)
      ensures budgets == old(budgets) && projects == old(projects)
    {
      var k := 0;
      while k < |achievements|
        invariant 0 <= k <= |achievements| == |old(achievements)|
        invariant forall j :: 0 <= j < k ==>
          achievements[j] == Refreshed(old(achievements[j]),
            AchievementValue(old(achievements[j]).kind, levels.level, entries, transactions), now)
        invariant forall j :: k <= j < |achievements| ==> achievements[j] == old(achievements[j])
        invariant entries == old(entries) && habits == old(habits) && transactions == old(transactions)
        invariant budgets == old(budgets) && projects == old(projects)
      {
        var a := achievements[k];
        if !a.isUnlocked {
          var value := AchievementValue(a.kind, levels.level, entries, transactions);
          a := a.(currentValue := value);
          if value >= a.targetValue {
            a := a.(isUnlocked := true, unlockedDate := Some(now));
          }
          achievements := achievements[k := a];
        }
        k := k + 1;
      }
    }

    /**
     * `AddBudget`: a budget for `category` in currency `currencyIndex` of the
     * list (1-RUB, 2-USD, 3-EUR on screen), running from `now` to `monthLater`.
     */
    method AddBudget(category: string, amount: real, currencyIndex: nat, now: int, monthLater: int)
      requires currencyIndex < 3
      modifies this
      ensures budgets == old(budgets) + [Budget(category, amount, now, monthLater, ["RUB", "USD", "EUR"][currencyIndex])]
      ensures entries == old(entries) && habits == old(habits) && transactions == old(transactions)
      ensures projects == old(projects) && achievements == old(achievements)
    {
      var currency := AvailableCurrencies()[currencyIndex].code;
      budgets := budgets + [Budget(category, amount, now, monthLater, currency)];
    }

    /** `DeleteBudget`: removes budget `index`; with none there is nothing to remove. */
    method DeleteBudget(index: nat)
      requires |budgets| > 0 ==> index < |budgets|
      modifies this
      ensures |old(budgets)| == 0 ==> budgets == []
      ensures |old(budgets)| > 0 ==> budgets == RemoveAt(old(budgets), index)
      ensures entries == old(entries) && habits == old(habits) && transactions == old(transactions)
      ensures projects == old(projects) && achievements == old(achievements)
    {
      if |budgets| == 0 {
        return;
      }
      budgets := budgets[..index] + budgets[index + 1..];
    }

    /** `AddMilestone`: project `index` gets a milestone worth 50 + 10 * priority XP; with no projects, nothing. */
    method AddMilestone(index: nat, name: string, description: string, amount: real, dueDate: Option<int>)
      requires |projects| > 0 ==> index < |projects|
      modifies this
      ensures |old(projects)| == 0 ==> projects == []
      ensures |old(projects)| > 0 ==>
        var p := old(projects[index]);
        projects == old(projects)[index := p.(milestones := p.milestones
          + [Milestone(name, description, amount, dueDate, false, None, 50 + p.priority * 10)])]
      ensures entries == old(entries) && habits == old(habits) && transactions == old(transactions)
      ensures budgets == old(budgets) && achievements == old(achievements)
    {
      if |projects| == 0 {
        return;
      }
      var p := projects[index];
      var m := Milestone(name, description, amount, dueDate, false, None, 50 + p.priority * 10);
      projects := projects[index := p.(milestones := p.milestones + [m])];
    }

    /**
     * `CompleteMilestoneAsync`: among the active projects, project `projectIndex`
     * has its open milestone `milestoneIndex` completed at `now`; its payment is
     * added to the received amount and its XP is awarded. Without an active
     * project or an open milestone, nothing happens.
     */
    method CompleteMilestone(projectIndex: nat, milestoneIndex: nat, now: int) returns (paid: int)
      requires var act := Positions(projects, IsActive);
        |act| > 0 ==> (projectIndex < |act|
          && (var ms := Positions(projects[act[projectIndex]].milestones, IsOpen);
              |ms| > 0 ==> milestoneIndex < |ms|))
      modifies this, levels
      ensures var act := old(Positions(projects, IsActive));
        |act| == 0 || |old(Positions(projects[act[projectIndex]].milestones, IsOpen))| == 0 ==>
          projects == old(projects) && paid == 0 && unchanged(levels)
      ensures var act := old(Positions(projects, IsActive));
        |act| > 0 ==>
        var pi := act[projectIndex];
        var p := old(projects[pi]);
        var ms := Positions(p.milestones, IsOpen);
        |ms| > 0 ==>
        var m := p.milestones[ms[milestoneIndex]];
        projects == old(projects)[pi := p.(
          milestones := p.milestones[ms[milestoneIndex] := m.(isCompleted := true, completedDate := Some(now))],
          receivedAmount := p.receivedAmount + m.paymentAmount)]
        && paid == m.xp
        && levels.totalXP == old(levels.totalXP) + m.xp && levels.Valid()
        && levels.lastLevelUp == old(levels.lastLevelUp)
      ensures entries == old(entries) && habits == old(habits) && transactions == old(transactions)
      ensures budgets == old(budgets) && achievements == old(achievements)
    {
      paid := 0;
      var act := Positions(projects, IsActive);
      if |act| == 0 {
        return;
      }
      var pi := act[projectIndex];
      var p := projects[pi];
      var ms := Positions(p.milestones, IsOpen);
      if |ms| == 0 {
        return;
      }
      var mi := ms[milestoneIndex];
      var m := p.milestones[mi];
      var done := m.(isCompleted := true, completedDate := Some(now));
      projects := projects[pi := p.(milestones := p.milestones[mi := done],
                                    receivedAmount := p.receivedAmount + m.paymentAmount)];
      var _ := AddXP(m.xp);
      paid := m.xp;
    }

    /**
     * `AddProjectExpense`: project `index` records the expense, and the same
     * amount is booked as an expense transaction in the project's currency.
     */
    method AddProjectExpense(index: nat, description: string, amount: real, category: string, now: int)
      requires |projects| > 0 ==> index < |projects|
      modifies this
      ensures |old(projects)| == 0 ==> projects == [] && transactions == old(transactions)
      ensures |old(projects)| > 0 ==>
        var p := old(projects[index]);
        projects == old(projects)[index := p.(expenses := p.expenses + [ProjectExpense(description, amount, now, category, "")])]
        && transactions == old(transactions)
          + [Transaction("[" + p.name + "] " + description, amount, Expense, category, now, "", p.currency)]
      ensures entries == old(entries) && habits == old(habits)
      ensures budgets == old(budgets) && achievements == old(achievements)
    {
      if |projects| == 0 {
        return;
      }
      var p := projects[index];
      projects := projects[index := p.(expenses := p.expenses + [ProjectExpense(description, amount, now, category, "")])];
      transactions := transactions
        + [Transaction("[" + p.name + "] " + description, amount, Expense, category, now, "", p.currency)];
    }

    /**
     * `ReceiveProjectPaymentAsync`: among the active projects, project
     * `projectIndex` receives `amount`; an income transaction is booked and
     * the payment's XP (one per 100, at most 500) is awarded. When the XP cast
     * overflows, the exception leaves the menu before anything is saved, so the
     * stored data stay as they were.
     */
    method ReceiveProjectPayment(projectIndex: nat, amount: real, description: string, now: int)
      returns (outcome: Outcome, xp: int)
      requires var act := Positions(projects, IsActive); |act| > 0 ==> projectIndex < |act|
      modifies this, levels
      ensures old(Pick(projects, IsActive, projectIndex)).None? ==>
        outcome == Done && projects == old(projects) && transactions == old(transactions) && xp == 0
        && unchanged(levels)
      ensures old(Pick(projects, IsActive, projectIndex)).Some? && PaymentXP(amount).None? ==>
        outcome == Throws(Overflow(Int32OverflowMessage))
        && projects == old(projects) && transactions == old(transactions) && xp == 0
        && unchanged(levels)
      ensures var k := old(Pick(projects, IsActive, projectIndex));
        k.Some? && PaymentXP(amount).Some? ==>
        var p := old(projects[k.value]);
        outcome == Done
        && projects == old(projects)[k.value := WithPayment(p, amount)]
        && transactions == old(transactions) + [PaymentTransaction(p, amount, description, now)]
        && xp == PaymentXP(amount).value
        && levels.totalXP == old(levels.totalXP) + xp && levels.Valid()
        && levels.lastLevelUp == old(levels.lastLevelUp)
      ensures entries == old(entries) && habits == old(habits)
      ensures budgets == old(budgets) && achievements == old(achievements)
    {
      outcome, xp := Done, 0;
      var k := Pick(projects, IsActive, projectIndex);
      if k.None? {
        return;
      }
      var award := PaymentXP(amount);
      if award.None? {
        return Throws(Overflow(Int32OverflowMessage)), 0;
      }
      var p := projects[k.value];
      var t := PaymentTransaction(p, amount, description, now);
      projects := projects[k.value := WithPayment(p, amount)];
      transactions := transactions + [t];
      xp := award.value;
      var _ := AddXP(xp);
    }

    /** `DeleteProject`: removes project `index`; with none there is nothing to remove. */
    method DeleteProject(index: nat)
      requires |projects| > 0 ==> index < |projects|
      modifies this
      ensures |old(projects)| == 0 ==> projects == []
      ensures |old(projects)| > 0 ==> projects == RemoveAt(old(projects), index)
      ensures entries == old(entries) && habits == old(habits) && transactions == old(transactions)
      ensures budgets == old(budgets) && achievements == old(achievements)
    {
      if |projects| == 0 {
        return;
      }
      projects := projects[..index] + projects[index + 1..];
    }
  }

  /** The notes today's entry has, `""` for one not yet created. */
  function TodayEntryNotes(entries: seq<DailyEntry>, today: int): string
  {
    match TodayIndex(entries, today)
    case Some(i) => entries[i].notes
    case None => ""
  }

  /** Where today's entry is, or will be once it is appended. */
  function TodayPos(entries: seq<DailyEntry>, today: int): nat
  {
    match TodayIndex(entries, today)
    case Some(i) => i
    case None => |entries|
  }

  /** The journal once today's entry exists: a new entry appended when there is none. */
  function WithToday(entries: seq<DailyEntry>, today: int): (r: seq<DailyEntry>)
    ensures TodayPos(entries, today) < |r| && r[TodayPos(entries, today)].day == today
    ensures |r| == |entries| + (if TodayIndex(entries, today).None? then 1 else 0)
    ensures r[..|entries|] == entries
  {
    if TodayIndex(entries, today).None? then entries + [NewEntry(today)] else entries
  }

  /** Today's tasks, none for a day not yet created. */
  function TodayTasks(entries: seq<DailyEntry>, today: int): seq<TaskItem>
  {
    match TodayIndex(entries, today)
    case Some(i) => entries[i].tasks
    case None => []
  }

  /** Today's habit checks, none for a day not yet created. */
  function TodayHabits(entries: seq<DailyEntry>, today: int): seq<HabitCheck>
  {
    match TodayIndex(entries, today)
    case Some(i) => entries[i].habits
    case None => []
  }

  /** Replacing an entry by one of the same day, whose completed tasks are all paid, keeps both journal invariants. */
  lemma UpdateKeepsInvariants(es: seq<DailyEntry>, i: nat, e: DailyEntry)
    requires i < |es| && e.day == es[i].day
    ensures UniqueDays(es) ==> UniqueDays(es[i := e])
    ensures TasksClaimed(es) && (forall k :: 0 <= k < |e.tasks| ==> e.tasks[k].isCompleted ==> e.tasks[k].xpClaimed)
      ==> TasksClaimed(es[i := e])
  {
  }

  /** Toggling one task of an entry whose completed tasks were all paid leaves them all paid. */
  lemma ToggleKeepsClaims(e: DailyEntry, index: nat)
    requires index < |e.tasks|
    ensures var ts := e.tasks[index := ToggleTaskItem(e.tasks[index]).task];
      (forall k :: 0 <= k < |e.tasks| ==> e.tasks[k].isCompleted ==> e.tasks[k].xpClaimed)
      ==> forall k :: 0 <= k < |ts| ==> ts[k].isCompleted ==> ts[k].xpClaimed
  {
  }

  /** After an in-place update of the entry at `i`, which keeps its day, `TodayIndex` still finds it there. */
  lemma TodayIndexAfterUpdate(entries: seq<DailyEntry>, i: nat, today: int)
    requires i < |entries| && entries[i].day == today
    requires forall j :: 0 <= j < i ==> entries[j].day != today
    ensures TodayIndex(entries, today) == Some(i)
  {
  }
}
