# Financial planner — a Dafny model of its core

The repository holds two personal-finance programs. This project models the
state rules and computations of both:

- **The console tracker** (`ConsoleApp/`). It has:
  - an XP and level system driven by a daily journal of tasks, habits and mood;
  - achievements that unlock when a measured value reaches a target;
  - budgets;
  - freelance projects with milestones, expenses and payments;
  - exchange rates, cached for an hour with a fixed fallback table.
- **The NexusFinance desktop app**. It has:
  - a repository of eight tables: projects, transactions, accounts, investments, categories, payables, receivables and team members;
  - the computed properties of those records: urgency of a payable, weighted amount of a receivable, monthly cost of a team member, return of an investment, margin of a project;
  - the screens that read the repository: liquidity, dashboard, wallet, project analytics and transaction entry;
  - the generator that lays out the cash-flow (Sankey) diagram.

## Conventions

- **Modules.** There is one module per core source file:
  - `Leveling`, `ConsoleProjects`, `Currencies` and `MainMenu` for the console tracker;
  - `DataStore`, `NexusModels`, `Liquidity`, `Dashboard`, `Wallet`, `ProjectAnalytics`, `TransactionInput` and `Sankey` for the desktop app;
  - `ConsoleRecords` holds the console's plain records;
  - `Decimal`, `Text`, `Seqs` and `Wrappers` hold shared arithmetic, text and sequence helpers.
- **Pure computations** are functions with lemmas about them.
- **Objects whose fields the source updates** are classes:
  - the console's `LevelSystem`, its menu state `Tracker` and `CurrencyService`;
  - the repository `DataService` and the five screens (view models).
  - Their methods are proved against the specification functions.
- **Values.** `decimal` is modelled as `real`. Dates are ticks: one day is 864 000 000 000 ticks, and a journal entry is filed under a day number. The clock, the console input and the HTTP fetch are parameters.

## Model

| member | source | states |
|---|---|---|
| Leveling.ISqrt | ConsoleApp/Models/LevelSystem.cs:18 | the result is the integer square root: its square is at most n and the next square is above n |
| Leveling.XPForFirstLevel | ConsoleApp/Models/LevelSystem.cs:16-19 | completing level 1 costs 100 XP, the XPToNextLevel a new player starts with |
| Leveling.XPForLevelGrows | ConsoleApp/Models/LevelSystem.cs:16-19 | from level 1 on, a level costs at least 100 XP and each level costs strictly more than the one before |
| Leveling.CumStep | ConsoleApp/Models/LevelSystem.cs:26-29 | each level adds at least 100 XP to the cumulative cost of the levels below it |
| Leveling.CumMonotone | ConsoleApp/Models/LevelSystem.cs:26-29 | the cumulative cost never decreases |
| Leveling.Find | ConsoleApp/Models/LevelSystem.cs:26-32 | the search returns the first level from l on whose cumulative cost exceeds the XP, stopping at level 1000 |
| Leveling.LevelOf | ConsoleApp/Models/LevelSystem.cs:23-34 | the level of a total is between 1 and 1000; below 1000 the total is under its cumulative cost and, when non-negative, at least the cost of the levels below |
| Leveling.LevelOfUnique | ConsoleApp/Models/LevelSystem.cs:26-34 | conversely, any level whose bracket holds the XP is the level reported |
| Leveling.LevelOfMonotone | ConsoleApp/Models/LevelSystem.cs:26-34 | more experience never lowers the level |
| Leveling.LevelOfBelowFirst | ConsoleApp/Models/LevelSystem.cs:23-34 | any total below 100 XP, negative ones included, is level 1 |
| Leveling.CalculateLevel | ConsoleApp/Models/LevelSystem.cs:21-35 | the counting loop with its break at level 1000 returns exactly the level of the total |
| Leveling.GetLevelProgress | ConsoleApp/Models/LevelSystem.cs:37-49 | the progress is the XP beyond what the lower levels cost, and the XP to go is the cost of the current level |
| Leveling.ProgressWithinLevel | ConsoleApp/Models/LevelSystem.cs:39-48 | below the cap, the progress of a non-negative total at its own level lies in 0 up to, but not including, that level's cost |
| Leveling.XPForTaskOrder | ConsoleApp/Models/LevelSystem.cs:51-54 | a task of higher priority is worth strictly more; priorities 1 to 5 give 30 to 110 XP |
| Leveling.LevelSystem.constructor | ConsoleApp/Models/LevelSystem.cs:7-11 | a new player is at level 1 with no XP and 100 XP to go, and the fields agree with the level derived from the total |
| ConsoleProjects.NewProject | ConsoleApp/Models/Project.cs:12-24 | a new project is planned, in roubles, at priority 3, with nothing received and no milestones or expenses |
| ConsoleProjects.NewMilestone | ConsoleApp/Models/Project.cs:35-39 | a new milestone is open, has no completion date and is worth 50 XP |
| ConsoleProjects.ExpenseLowersProfit | ConsoleApp/Models/Project.cs:25-26 | recording an expense adds its amount to the total expenses and takes the same amount off the profit |
| ConsoleProjects.ProfitAtMostReceived | ConsoleApp/Models/Project.cs:25-26 | with no negative expense, total expenses are not negative and profit is at most what was received |
| ConsoleProjects.CompletionBounds | ConsoleApp/Models/Project.cs:27 | a payment within a positive budget shows 0 to 100 percent, and exactly 100 when the budget is all paid |
| ConsoleProjects.CompletionWithoutBudget | ConsoleApp/Models/Project.cs:27 | without a positive budget, completion is 0 whatever was received |
| ConsoleRecords.NewEntry | ConsoleApp/Models/DailyEntry.cs:9-13 | a new journal entry has no notes, mood 5, and no habits or tasks |
| Currencies.AvailableCurrencies | ConsoleApp/Services/CurrencyService.cs:16-28 | seven currencies, RUB, USD and EUR first, no code listed twice |
| Currencies.Fallback | ConsoleApp/Services/CurrencyService.cs:56-71 | the table rate, else the reciprocal of the reverse table rate, else 1; always positive |
| Currencies.TableKeyParts | ConsoleApp/Services/CurrencyService.cs:58-62 | every table entry converts some other currency into roubles |
| Currencies.FallbackReciprocal | ConsoleApp/Services/CurrencyService.cs:64-70 | the fallback rates of a pair and its reverse multiply to 1 |
| Currencies.FallbackDollar | ConsoleApp/Services/CurrencyService.cs:58-70 | dollars to roubles is 90, and roubles to dollars is 1/90 |
| Currencies.Lookup | ConsoleApp/Services/CurrencyService.cs:30-54 | same currency gives 1 and changes nothing; a fresh cached rate is served; otherwise at most the asked pair is stored and the timestamp moves to now |
| Currencies.FetchedRateIsCached | ConsoleApp/Services/CurrencyService.cs:34-48 | after a successful fetch the same pair is served from the cache for an hour, whatever the network does |
| Currencies.RefreshRevivesOtherPairs | ConsoleApp/Services/CurrencyService.cs:34-47 | the single global timestamp means a fetch of one pair makes every other cached pair fresh again |
| Currencies.FailedFetchFallsBack | ConsoleApp/Services/CurrencyService.cs:38-53 | with no usable fetch and no fresh cached rate, the fallback is returned and nothing is stored |
| Currencies.CurrencyService.constructor | ConsoleApp/Services/CurrencyService.cs:13-14 | the cache starts empty with the minimum timestamp |
| Currencies.CurrencyService.GetRate | ConsoleApp/Services/CurrencyService.cs:30-54 | the rate returned and the new cache and timestamp are those of Lookup on the old state |
| MainMenu.BalanceAppend | ConsoleApp/Menus/MainMenu.cs:32-34 | a new income raises the balance by its amount; a new expense lowers it by its amount |
| MainMenu.TodayIndex | ConsoleApp/Menus/MainMenu.cs:242 | today's entry is found exactly when some entry has today's day, at a position holding that day |
| MainMenu.NewTask | ConsoleApp/Menus/MainMenu.cs:271-276 | a new task is open and unpaid and carries the XP of its priority |
| MainMenu.ToggleTaskItem | ConsoleApp/Menus/MainMenu.cs:301-308 | a toggle flips completion; it pays the task's XP only when the task turns complete unpaid, and then marks it paid |
| MainMenu.TaskPaysAtMostOnce | ConsoleApp/Menus/MainMenu.cs:302-308 | however often a task is toggled it pays its XP at most once, and exactly once if it was unpaid and is toggled at least once |
| MainMenu.WithHabit | ConsoleApp/Menus/MainMenu.cs:332-335 | afterwards the entry has a check for the habit; an existing one is kept, and otherwise one open check is appended |
| MainMenu.ToggleHabitItem | ConsoleApp/Menus/MainMenu.cs:359-367 | a toggle flips the habit and pays 15 XP exactly when it turns complete |
| MainMenu.HabitPaysEveryCompletion | ConsoleApp/Menus/MainMenu.cs:360-367 | n toggles pay 15 XP for every false-to-true transition among them, so repeated toggling pays again |
| MainMenu.UniqueDaysCount | ConsoleApp/Menus/MainMenu.cs:586-587 | with one entry per day, the days-active count equals the number of entries |
| MainMenu.Refreshed | ConsoleApp/Menus/MainMenu.cs:572-596 | an unlocked achievement is left alone; a locked one takes the measured value and unlocks, stamped now, exactly when the value reaches its target; a locked one that stays locked changes only its value, keeping its unlock date |
| MainMenu.RefreshIdempotent | ConsoleApp/Menus/MainMenu.cs:572-596 | refreshing again with the same measurements changes nothing, whatever the clock says |
| MainMenu.PaymentXP | ConsoleApp/Menus/MainMenu.cs:1152-1153 | one XP per full 100 received, truncated, at most 500, and exactly 500 from 50 000 on; none, the cast's overflow, exactly when the truncated quotient leaves the 32-bit range, so from 214 748 364 800 on; a negative payment truncates toward zero, so it costs XP (−150 gives −1) |
| MainMenu.PaymentTransaction | ConsoleApp/Menus/MainMenu.cs:1133-1149 | a payment books an income transaction of the amount, in the project's currency, under "Проекты", described with the project's name |
| MainMenu.PaymentRaisesBalance | ConsoleApp/Menus/MainMenu.cs:1141-1149 | booking a project payment raises the balance by exactly the amount |
| MainMenu.Tracker.constructor | ConsoleApp/Models/LevelSystem.cs:7-11 | nothing is stored, and the level system is a valid new player |
| MainMenu.Tracker.AddXP | ConsoleApp/Menus/MainMenu.cs:388-401 | the total grows by the XP; level, progress and cost are recomputed from it; the banner shows exactly when the level rose |
| MainMenu.Tracker.TodayEntry | ConsoleApp/Menus/MainMenu.cs:242-247 | returns the first entry with today's day, appending a new entry only when there is none; keeps both journal invariants |
| MainMenu.Tracker.CreateOrUpdateTodayEntry | ConsoleApp/Menus/MainMenu.cs:240-256 | the journal afterwards is the old one, with a fresh entry for today appended when there was none, and with today's entry taking the notes unless they are empty; nothing else changes |
| MainMenu.Tracker.AddTask | ConsoleApp/Menus/MainMenu.cs:259-280 | the journal afterwards is the old one, with a fresh entry for today appended when there was none, and with exactly one new open task added to today's entry; nothing else changes |
| MainMenu.Tracker.ToggleTask | ConsoleApp/Menus/MainMenu.cs:283-312 | with no tasks today nothing happens; otherwise only the chosen task is toggled; when it turns complete unpaid, the total grows by the XP paid, the level, the progress and the XP still needed are recomputed from it, and the last level-up time is kept; otherwise the level state is untouched |
| MainMenu.Tracker.AddHabit | ConsoleApp/Menus/MainMenu.cs:314-339 | the habit joins the list if absent; the journal afterwards is the old one, with a fresh entry for today appended when there was none, and with today's entry given an open check for the habit if it has none; nothing else changes |
| MainMenu.Tracker.ToggleHabit | ConsoleApp/Menus/MainMenu.cs:341-371 | with no habits today nothing happens; otherwise only the chosen check is toggled; when it turns complete, 15 XP is paid and the total grows by the XP paid, the level, the progress and the XP still needed are recomputed from it, and the last level-up time is kept; otherwise the level state is untouched |
| MainMenu.Tracker.SetMood | ConsoleApp/Menus/MainMenu.cs:373-386 | the journal afterwards is the old one, with a fresh entry for today appended when there was none, and with today's entry taking the mood; nothing else changes |
| MainMenu.Tracker.RefreshAchievements | ConsoleApp/Menus/MainMenu.cs:571-597 | every achievement becomes its refreshed version under the value measured for its kind |
| MainMenu.Tracker.AddBudget | ConsoleApp/Menus/MainMenu.cs:482-509 | one budget for the chosen currency, running from now to a month later, is appended |
| MainMenu.Tracker.DeleteBudget | ConsoleApp/Menus/MainMenu.cs:511-528 | the chosen budget is removed, the others keep their order; with no budgets nothing happens |
| MainMenu.Tracker.AddMilestone | ConsoleApp/Menus/MainMenu.cs:983-1021 | the chosen project gains one open milestone worth 50 + 10 × priority XP |
| MainMenu.Tracker.CompleteMilestone | ConsoleApp/Menus/MainMenu.cs:1023-1064 | the chosen open milestone of the chosen active project is completed at now and its payment added to the received amount; the milestone's XP is paid and the total grows by the XP paid, the level, the progress and the XP still needed are recomputed from it, and the last level-up time is kept; without such a milestone nothing changes, the level state included |
| MainMenu.Tracker.AddProjectExpense | ConsoleApp/Menus/MainMenu.cs:1066-1111 | the chosen project records the expense, and the same amount is booked as an expense transaction |
| MainMenu.Tracker.ReceiveProjectPayment | ConsoleApp/Menus/MainMenu.cs:1113-1158 | without an active project nothing changes; when the XP cast overflows, an overflow error is raised and nothing is stored; otherwise the chosen project receives the amount, the payment transaction is booked, and the total grows by the XP paid, the level, the progress and the XP still needed are recomputed from it, and the last level-up time is kept |
| MainMenu.Tracker.DeleteProject | ConsoleApp/Menus/MainMenu.cs:1160-1177 | the chosen project is removed, the others keep their order |
| MainMenu.UpdateKeepsInvariants | ConsoleApp/Menus/MainMenu.cs:242-247 | replacing an entry by one of the same day whose completed tasks are paid keeps one entry per day and every completed task paid |
| MainMenu.ToggleKeepsClaims | ConsoleApp/Menus/MainMenu.cs:302-308 | toggling one task keeps every completed task of the entry paid |
| MainMenu.TodayIndexAfterUpdate | ConsoleApp/Menus/MainMenu.cs:285 | after an in-place update that keeps an entry's day, today's lookup still finds it there |
| DataStore.KeyIndex | Services/DataService.cs:67 | the first row with the key, or none exactly when no row has it |
| DataStore.Without | Services/DataService.cs:83 | no row with the key is left, every other row is kept, no row is added or duplicated, and the length drops by the rows removed |
| DataStore.WithoutAppend | Services/DataService.cs:83 | filtering a table is filtering its two halves and joining the results, so the kept rows stay in order |
| DataStore.WithoutUnits | Services/DataService.cs:83 | the empty table keeps nothing, and a single row is kept exactly when its key differs |
| DataStore.AddNamed | Services/DataService.cs:41-56 | a blank name is an argument error and a taken name an invalid operation, with the table unchanged; otherwise the item is appended |
| DataStore.AddNonNegative | Services/DataService.cs:100-112 | a negative amount is an argument error with the table unchanged; otherwise the item is appended |
| DataStore.UpdateFirst | Services/DataService.cs:58-74 | blank key is an argument error and a missing key an invalid operation; otherwise only the first matching row changes |
| DataStore.RemoveKey | Services/DataService.cs:76-89 | a blank key is an argument error; otherwise every row with the key goes and the others stay, in order and as often as they occur, as `Without` |
| DataStore.RemoveFirst | Services/DataService.cs:114-123 | the first equal row goes when there is one; otherwise the table is unchanged |
| DataStore.AddNamedKeepsUnique | Services/DataService.cs:45-53 | a named add keeps names unique |
| DataStore.RemoveKeyKeepsUnique | Services/DataService.cs:83 | removal keeps names unique |
| DataStore.AddThenRemove | Services/DataService.cs:41-89 | deleting the name a successful add appended restores the table |
| DataStore.RemoveKeyIdempotent | Services/DataService.cs:83 | removing by a key twice removes nothing more |
| DataStore.UpdateFirstKeepsKeys | Services/DataService.cs:319-324 | an update that keeps the key keeps every key of the table |
| DataStore.UpdateFirstTwice | Services/DataService.cs:515-519 | an update that is its own inverse, applied twice, restores the table |
| DataStore.KeyIndexFirst | Services/DataService.cs:67 | the lookup reports the first row with the key |
| DataStore.MemberOrder | Services/DataService.cs:449-453 | active-first, then by name, is a total preorder |
| DataStore.MembersOfProject | Services/DataService.cs:442-455 | a blank id is an argument error; otherwise exactly the project's members, active first and by name |
| DataStore.MembersActiveFirst | Services/DataService.cs:449-453 | every listed member belongs to the project, and no inactive member comes before an active one |
| DataStore.ProjectPayroll | Services/DataService.cs:524-535 | a blank id is an argument error; otherwise the sum of the monthly costs of the project's active members |
| DataStore.PayrollNonNegative | Services/DataService.cs:531-533 | with no negative salary the payroll is not negative |
| DataStore.PayrollAppend | Services/DataService.cs:531-533 | a new member adds its monthly cost to its own project's payroll exactly when active, and nothing to other projects |
| DataStore.PayrollOfActiveMembers | Services/DataService.cs:531-533 | the payroll is the cost of the active members in the project's member list |
| DataStore.DefaultCategories | Services/DataService.cs:627-635 | six categories with distinct names, two income then four expense |
| DataStore.EmptyData | Services/DataService.cs:639-660 | no rows except the default categories |
| DataStore.DefaultData | Services/DataService.cs:602-637 | three projects, two transactions, two accounts, two investments, the default categories, the other tables empty, names unique |
| DataStore.BuiltInStoresUnique | Services/DataService.cs:602-660 | both built-in stores hold no name twice in any table whose add checks names |
| DataStore.Toggled | Services/DataService.cs:515 | only the active flag changes, and it flips |
| DataStore.ToggleTwice | Services/DataService.cs:508-522 | toggling a member's status twice restores the member table |
| DataStore.UpdateKeepsIds | Services/DataService.cs:319-324 | an update by id stores the record under that id, and every row keeps its id |
| DataStore.DataService.constructor | Services/DataService.cs:26-30 | the store is the loaded file's contents, or the sample store when none could be read |
| DataStore.DataService.AddProject | Services/DataService.cs:41-56 | outcome and projects as AddNamed; other tables untouched; unique names kept |
| DataStore.DataService.UpdateProject | Services/DataService.cs:58-74 | outcome and projects as UpdateFirst by the old name; other tables untouched |
| DataStore.DataService.DeleteProject | Services/DataService.cs:76-89 | outcome and projects as RemoveKey; other tables untouched; unique names kept |
| DataStore.DataService.AddTransaction | Services/DataService.cs:100-112 | outcome and transactions as AddNonNegative; other tables untouched |
| DataStore.DataService.DeleteTransaction | Services/DataService.cs:114-123 | the first equal transaction is removed; other tables untouched |
| DataStore.DataService.AddAccount | Services/DataService.cs:134-149 | outcome and accounts as AddNamed; other tables untouched; unique names kept |
| DataStore.DataService.UpdateAccount | Services/DataService.cs:151-167 | outcome and accounts as UpdateFirst by the old name; other tables untouched |
| DataStore.DataService.DeleteAccount | Services/DataService.cs:169-182 | outcome and accounts as RemoveKey; other tables untouched; unique names kept |
| DataStore.DataService.AddInvestment | Services/DataService.cs:193-211 | a valid name with a negative amount is an argument error; otherwise as AddNamed; unique names kept |
| DataStore.DataService.UpdateInvestment | Services/DataService.cs:213-229 | outcome and investments as UpdateFirst by the old name; other tables untouched |
| DataStore.DataService.DeleteInvestment | Services/DataService.cs:231-244 | outcome and investments as RemoveKey; other tables untouched; unique names kept |
| DataStore.DataService.AddCategory | Services/DataService.cs:255-270 | outcome and categories as AddNamed; other tables untouched; unique names kept |
| DataStore.DataService.DeleteCategory | Services/DataService.cs:272-285 | outcome and categories as RemoveKey; other tables untouched; unique names kept |
| DataStore.DataService.AddPayable | Services/DataService.cs:296-308 | outcome and payables as AddNonNegative; other tables untouched |
| DataStore.DataService.UpdatePayable | Services/DataService.cs:310-327 | outcome and payables as UpdateFirst by id, storing the record under the id looked up |
| DataStore.DataService.DeletePayable | Services/DataService.cs:329-342 | outcome and payables as RemoveKey by id; other tables untouched |
| DataStore.DataService.MarkPayableAsPaid | Services/DataService.cs:344-358 | the first payable with the id is marked paid; a blank or missing id is an error |
| DataStore.DataService.AddReceivable | Services/DataService.cs:369-381 | outcome and receivables as AddNonNegative; other tables untouched |
| DataStore.DataService.UpdateReceivable | Services/DataService.cs:383-400 | outcome and receivables as UpdateFirst by id, storing the record under the id looked up |
| DataStore.DataService.DeleteReceivable | Services/DataService.cs:402-415 | outcome and receivables as RemoveKey by id; other tables untouched |
| DataStore.DataService.MarkReceivableAsReceived | Services/DataService.cs:417-431 | the first receivable with the id is marked received; a blank or missing id is an error |
| DataStore.DataService.AddTeamMember | Services/DataService.cs:457-472 | a blank name is an argument error; otherwise as AddNonNegative on the salary |
| DataStore.DataService.UpdateTeamMember | Services/DataService.cs:474-491 | outcome and members as UpdateFirst by id, storing the record under the id looked up |
| DataStore.DataService.DeleteTeamMember | Services/DataService.cs:493-506 | outcome and members as RemoveKey by id; other tables untouched |
| DataStore.DataService.ToggleTeamMemberStatus | Services/DataService.cs:508-522 | the first member with the id has its active flag flipped; a blank or missing id is an error |
| DataStore.DataService.ClearAllData | Services/DataService.cs:537-546 | the store becomes the empty store with its default categories |
| NexusModels.DaysNegative | Models/LiquidityModels.cs:25-27 | the whole-day difference is negative exactly from a full day past on |
| NexusModels.DaysAtMost | Models/LiquidityModels.cs:25-31 | at most k whole days means less than k + 1 days of ticks |
| NexusModels.UrgencyLevel | Models/LiquidityModels.cs:19-33 | a paid payable is "Paid"; every payable falls in one of the six buckets |
| NexusModels.UrgencyByTime | Models/LiquidityModels.cs:23-31 | an unpaid payable is overdue from a full day past due, critical up to 4 days before, high up to 8, medium up to 15, low beyond |
| NexusModels.UrgencyMonotone | Models/LiquidityModels.cs:25-31 | of two unpaid payables, the one due earlier is at least as urgent |
| NexusModels.UrgencyGrowsWithTime | Models/LiquidityModels.cs:25-31 | an unpaid payable only becomes more urgent as time passes |
| NexusModels.UrgencyColor | Models/LiquidityModels.cs:38-53 | never the grey default, and green for a paid payable |
| NexusModels.UrgencyColorDistinct | Models/LiquidityModels.cs:42-51 | two payables share a colour exactly when they share an urgency |
| NexusModels.NewReceivable | Models/LiquidityModels.cs:61-69 | a new receivable is likely, not yet received, of amount 0 and with no project |
| NexusModels.Weight | Models/LiquidityModels.cs:80-86 | a weight is a share above 0 and at most 1 |
| NexusModels.WeightedAmount | Models/LiquidityModels.cs:74-88 | received or confirmed counts in full; otherwise a non-negative amount counts for less, never below 0 |
| NexusModels.WeightOrder | Models/LiquidityModels.cs:80-86 | a more certain receivable is weighted at least as high |
| NexusModels.ProbabilityText | Models/LiquidityModels.cs:112-119 | a received receivable reads "Received" |
| NexusModels.ProbabilityTextDistinct | Models/LiquidityModels.cs:112-119 | the text says "Received" exactly when received, and tells the pending probabilities apart |
| NexusModels.ProbabilityColor | Models/LiquidityModels.cs:93-107 | green exactly when received |
| NexusModels.NewTeamMember | Models/TeamMember.cs:8-15 | a new member is active, paid monthly, with salary 0 |
| NexusModels.MonthlyCost | Models/TeamMember.cs:20-32 | a one-time fee costs nothing a month; with a non-negative salary the cost is not negative and, for monthly or hourly pay, at least the salary |
| NexusModels.MonthlyCostMonotone | Models/TeamMember.cs:20-32 | a raise never lowers the monthly cost |
| NexusModels.StatusAgrees | Models/TeamMember.cs:37-42 | the status text and colour both show exactly the active flag, and agree with each other |
| NexusModels.ReturnPercent | Models/Investment.cs:12 | 0 without a positive stake; otherwise within 0.005 of the return over the stake, in percent |
| NexusModels.ReturnPercentSign | Models/Investment.cs:11-12 | the percentage has the sign of the gain |
| NexusModels.ProfitMargin | Models/Project.cs:12 | 0 without revenue; otherwise within 0.05 of profit over revenue, in percent |
| NexusModels.ProfitMarginBounds | Models/Project.cs:11-12 | a cost within revenue gives a margin of 0 to 100, with 100 at zero cost and 0 at full cost |
| Decimal.RoundToEven | Models/Investment.cs:12 | the result is within one half, and a tie goes to the even neighbour |
| Decimal.Round | Models/Investment.cs:12 | the rounded value is within half a unit of the last decimal kept |
| Decimal.RoundMonotone | Models/Project.cs:12 | rounding never reverses the order of two values |
| Decimal.TruncDivBounds | Models/LiquidityModels.cs:25 | the truncated quotient lies within one divisor of the dividend, on the side of zero |
| Decimal.Truncate | ConsoleApp/Menus/MainMenu.cs:1152 | the cast truncates toward zero: within one of the value, on the side of zero |
| Decimal.Min | ConsoleApp/Menus/MainMenu.cs:1153 | the result is one of the two arguments and is at most both |
| Decimal.Abs | ViewModels/LiquidityViewModel.cs:242 | a natural number equal to the argument or its negation |
| Text.NatToText | ViewModels/LiquidityViewModel.cs:242 | non-empty decimal digits with no leading zero |
| Text.NatTextRoundTrip | ViewModels/LiquidityViewModel.cs:242 | printing a number and reading it back gives the number |
| Liquidity.OpenPayables | ViewModels/LiquidityViewModel.cs:55-60 | exactly the unpaid payables, as a permutation, soonest due first |
| Liquidity.OpenReceivables | ViewModels/LiquidityViewModel.cs:68-73 | exactly the receivables not yet received, as a permutation, soonest expected first |
| Liquidity.TotalOpenPayables | ViewModels/LiquidityViewModel.cs:62 | the total is the sum of the unpaid amounts, whatever order they are listed in |
| Liquidity.TotalOpenReceivables | ViewModels/LiquidityViewModel.cs:75 | the total is the sum of the pending weighted amounts, whatever their order |
| Liquidity.PayableCounts | ViewModels/LiquidityViewModel.cs:63-64 | overdue and pressing payables are counted apart and together are no more than those listed |
| Liquidity.OverdueMeansDayPast | ViewModels/LiquidityViewModel.cs:63 | a payable counts as overdue exactly when it is unpaid and a full day or more past due |
| Liquidity.BalanceColor | ViewModels/LiquidityViewModel.cs:79 | red exactly for a shortfall, green exactly otherwise |
| Liquidity.ProjectionBounds | ViewModels/LiquidityViewModel.cs:78 | with no negative receivable, the projection lies between cash less payables and cash plus all pending amounts less payables |
| Liquidity.DaysTextReadsBack | ViewModels/LiquidityViewModel.cs:241-242 | the text starts with the day count's digits, which read back exactly; it says overdue exactly for a negative count, which for an unpaid payable is exactly the "Overdue" bucket |
| Liquidity.ConfidencePercent | ViewModels/LiquidityViewModel.cs:268-277 | a percentage above 0 and at most 100 |
| Liquidity.ConfidenceIsWeight | ViewModels/LiquidityViewModel.cs:270-276 | the confidence shown is the receivable's weight, in percent |
| Liquidity.LiquidityView.constructor | ViewModels/LiquidityViewModel.cs:41-45 | the screen is loaded as soon as it is made: cash, open payables and their total, the overdue and the pressing counts, expected receivables and their weighted total, and the projected balance with its colour |
| Liquidity.LiquidityView.Load | ViewModels/LiquidityViewModel.cs:47-80 | every figure is recomputed from the store: cash, open lists and totals, counts, projection and its colour |
| Dashboard.NetWorthWithAccount | ViewModels/DashboardViewModel.cs:53-55 | a new account raises the net worth by exactly its balance |
| Dashboard.Recent | ViewModels/DashboardViewModel.cs:58-59 | exactly the transactions of the last thirty days |
| Dashboard.MonthlySplit | ViewModels/DashboardViewModel.cs:61-62 | income and expense together account for every transaction of the window |
| Dashboard.MonthlyWithTransaction | ViewModels/DashboardViewModel.cs:58-62 | a transaction in the window adds its amount to its own side and nothing to the other |
| Dashboard.SavingsRate | ViewModels/DashboardViewModel.cs:65-67 | 0 without income; otherwise within 0.05 of the share of income kept, in percent |
| Dashboard.SavingsRateIsMargin | ViewModels/DashboardViewModel.cs:65-67 | the savings rate is the profit margin of a project earning the income at the expense's cost |
| Dashboard.SavingsRateBounds | ViewModels/DashboardViewModel.cs:65-67 | spending within income keeps the rate between 0 and 100, with 100 at no spending and 0 at full spending |
| Dashboard.NewestTransactions | ViewModels/DashboardViewModel.cs:71-73 | at most ten transactions from the store, newest first |
| Dashboard.NewestAreNewest | ViewModels/DashboardViewModel.cs:71-73 | no transaction left off the list is newer than one on it |
| Dashboard.ItemOf | ViewModels/DashboardViewModel.cs:74-81 | a row keeps its transaction's fields; income shows positive in green, expense negated |
| Dashboard.RecentItems | ViewModels/DashboardViewModel.cs:70-82 | one row per newest transaction, at most ten, newest first |
| Dashboard.RankedCategories | ViewModels/DashboardViewModel.cs:85-93 | the month's expense totals per category, as a permutation, largest first |
| Dashboard.TopExpenses | ViewModels/DashboardViewModel.cs:85-94 | at most five bars, largest first |
| Dashboard.TopIsRanked | ViewModels/DashboardViewModel.cs:93-94 | the bars are the first ranked categories, exactly five of them or all when there are fewer |
| Dashboard.TopExpenseTotals | ViewModels/DashboardViewModel.cs:85-92 | each bar is a category among the month's expenses, carrying that category's total |
| Dashboard.TopExpenseNamesDistinct | ViewModels/DashboardViewModel.cs:87 | no category has two bars |
| Dashboard.TopExpensesAreLargest | ViewModels/DashboardViewModel.cs:93-94 | a category left off the chart totals no more than any bar shown |
| Dashboard.DashboardView.Load | ViewModels/DashboardViewModel.cs:46-97 | every figure is recomputed from the store at now |
| Dashboard.DashboardView.constructor | ViewModels/DashboardViewModel.cs:33-37 | the screen computes all of its figures from the store as soon as it is made |
| Wallet.AccountColor | ViewModels/WalletViewModel.cs:182-191 | grey exactly for an unknown account type |
| Wallet.AccountColorsDistinct | ViewModels/WalletViewModel.cs:184-190 | distinct known types get distinct shades |
| Wallet.AccountRow | ViewModels/WalletViewModel.cs:157-162 | a row shows the account's name, balance and institution, and its type's colour |
| Wallet.InvestmentRow | ViewModels/WalletViewModel.cs:169-175 | a row shows the investment's figures and return; green exactly for a non-negative return, red exactly otherwise |
| Wallet.GainShowsGreen | ViewModels/WalletViewModel.cs:174 | an investment worth at least its stake, or with no stake, shows green |
| Wallet.AccountRows | ViewModels/WalletViewModel.cs:156-163 | one row per account, in store order |
| Wallet.InvestmentRows | ViewModels/WalletViewModel.cs:168-176 | one row per investment, in store order |
| Wallet.TotalReturn | ViewModels/WalletViewModel.cs:178-179 | total value less total invested is the sum of the single returns |
| Wallet.WalletView.Load | ViewModels/WalletViewModel.cs:150-180 | rows and totals are recomputed from the store |
| Wallet.WalletView.constructor | ViewModels/WalletViewModel.cs:28-32 | the screen computes its rows and totals from the store as soon as it is made |
| ProjectAnalytics.ProjectNames | ViewModels/ProjectAnalyticsViewModel.cs:116 | the project names, in store order |
| ProjectAnalytics.Summaries | ViewModels/ProjectAnalyticsViewModel.cs:119-127 | one summary per project, in store order, with its revenue, cost and profit |
| ProjectAnalytics.Reselect | ViewModels/ProjectAnalyticsViewModel.cs:130-133 | the selection is kept while still listed; else the first name; else none |
| ProjectAnalytics.ReselectListed | ViewModels/ProjectAnalyticsViewModel.cs:130-133 | after a reload the selection is a listed name, none only when nothing is listed, and reselecting again changes nothing |
| ProjectAnalytics.SummaryIndex | ViewModels/ProjectAnalyticsViewModel.cs:140 | the first summary with the name, or none exactly when no summary has it |
| ProjectAnalytics.SelectedStats | ViewModels/ProjectAnalyticsViewModel.cs:138-157 | all zeros without a selection |
| ProjectAnalytics.StatsOfProject | ViewModels/ProjectAnalyticsViewModel.cs:138-157 | the figures shown are those of the first project with the name, its margin the project's own; all zero when no project has the name |
| ProjectAnalytics.StatsMarginBounds | ViewModels/ProjectAnalyticsViewModel.cs:146-148 | a project within budget shows a margin of 0 to 100 |
| ProjectAnalytics.Team | ViewModels/ProjectAnalyticsViewModel.cs:167-182 | nothing for a blank selection; otherwise the project's member list and its payroll |
| ProjectAnalytics.PayrollOfTeamShown | ViewModels/ProjectAnalyticsViewModel.cs:176-181 | the payroll shown is the cost of the active members on the team shown |
| ProjectAnalytics.ProjectAnalyticsView.constructor | ViewModels/ProjectAnalyticsViewModel.cs:42-46 | the screen loads its project names and summaries as soon as it is made, selects the first project if any, computes its figures, and starts with an empty team and a zero payroll |
| ProjectAnalytics.ProjectAnalyticsView.UpdateSelectedProjectStats | ViewModels/ProjectAnalyticsViewModel.cs:138-157 | the figures become those of the selection, and nothing else changes |
| ProjectAnalytics.ProjectAnalyticsView.LoadProjectData | ViewModels/ProjectAnalyticsViewModel.cs:111-136 | list and summaries come from the store, the selection is kept or reset, and the figures are updated |
| ProjectAnalytics.ProjectAnalyticsView.LoadTeamMembers | ViewModels/ProjectAnalyticsViewModel.cs:167-182 | team and payroll become those of the selection, and nothing else changes |
| ProjectAnalytics.ProjectAnalyticsView.SelectProject | ViewModels/ProjectAnalyticsViewModel.cs:48-54 | the project is selected, and the figures and team are those of it |
| ProjectAnalytics.ProjectAnalyticsView.AddTeamMember | ViewModels/ProjectAnalyticsViewModel.cs:184-202 | refused, with the store unchanged, without a selected project; otherwise the store decides as its own AddTeamMember does for the member filed under the selected project: a blank name or a negative salary is an argument error that changes nothing, the screen included, and any other member is appended and the team reloaded |
| TransactionInput.CategoryChoices | ViewModels/TransactionInputViewModel.cs:131-144 | no more names than categories |
| TransactionInput.ChoicesMatchKind | ViewModels/TransactionInputViewModel.cs:133-138 | every name offered belongs to a category of the mode's type, and every such category is offered |
| TransactionInput.DefaultIncomeChoices | ViewModels/TransactionInputViewModel.cs:133-138 | with the default categories, income mode offers "Income" and "Salary" |
| TransactionInput.DefaultExpenseChoices | ViewModels/TransactionInputViewModel.cs:133-138 | with the default categories, expense mode offers the four expense categories in store order |
| TransactionInput.Validate | ViewModels/TransactionInputViewModel.cs:64-83 | the form passes exactly with a description, a positive amount and a category; otherwise the first failing check's message, each of the three named |
| TransactionInput.FormTransaction | ViewModels/TransactionInputViewModel.cs:85-93 | the transaction carries the form's fields, the project defaulting to "Personal" |
| TransactionInput.ProjectNames | ViewModels/TransactionInputViewModel.cs:121 | the project names, in store order |
| TransactionInput.TransactionInputView.constructor | ViewModels/TransactionInputViewModel.cs:41-45 | a blank form in expense mode, dated now, with projects and categories loaded |
| TransactionInput.TransactionInputView.LoadCategories | ViewModels/TransactionInputViewModel.cs:131-144 | the mode's categories are offered and the first is selected when there is one |
| TransactionInput.TransactionInputView.LoadData | ViewModels/TransactionInputViewModel.cs:118-129 | projects and then categories are loaded, the first of each selected when present |
| TransactionInput.TransactionInputView.SetIncome | ViewModels/TransactionInputViewModel.cs:48-52 | switches to income mode and offers its categories, the first selected; the other fields, the date included, are kept |
| TransactionInput.TransactionInputView.SetExpense | ViewModels/TransactionInputViewModel.cs:55-59 | switches to expense mode and offers its categories, the first selected; the other fields, the date included, are kept |
| TransactionInput.TransactionInputView.AddTransaction | ViewModels/TransactionInputViewModel.cs:62-116 | a failed check stores nothing and keeps the whole form, the date included; a valid form appends its transaction, clears the fields, redates itself to now and reloads its categories with the first selected |
| Sankey.SourceLabel | Services/SankeyService.cs:27 | never blank; "Other Income" exactly for a blank category |
| Sankey.CategoryLabel | Services/SankeyService.cs:34 | never blank; "Other Expense" exactly for a blank category |
| Sankey.IncomeFlows | Services/SankeyService.cs:25-30 | income summed per source, as a permutation of the groups, largest first |
| Sankey.ExpenseFlows | Services/SankeyService.cs:32-37 | expenses summed per category, as a permutation of the groups, largest first |
| Sankey.FlowTotals | Services/SankeyService.cs:38-41 | the sides lose nothing: their totals are the sums of all income and of all expenses |
| Sankey.FlowsDistinct | Services/SankeyService.cs:27-28 | no source or category appears twice on its side |
| Sankey.IncomeFlowAt | Services/SankeyService.cs:25-30 | each income flow is a source that occurs, with that source's total |
| Sankey.ExpenseFlowAt | Services/SankeyService.cs:32-37 | each expense flow is a category that occurs, with that category's total |
| Sankey.FlowsCover | Services/SankeyService.cs:25-37 | every transaction's group has a flow on its side |
| Sankey.Larger | Services/SankeyService.cs:42 | the result is one of the two arguments and is at least both |
| Sankey.Heights | Services/SankeyService.cs:54 | one height per flow |
| Sankey.Place | Services/SankeyService.cs:51-64 | one node per flow in order, in the column, with the given height, stacked from the top with a gap after each |
| Sankey.AllocationNode | Services/SankeyService.cs:67-74 | the "Cash Flow" node in column 1 carries the total flow, sits at the top and is 0.8 canvas high |
| Sankey.AllocationAsWritten | Services/SankeyService.cs:72-73 | the source's formulas for the node's top and height reduce to 0 and 0.8 canvas |
| Sankey.InLinks | Services/SankeyService.cs:93-107 | one link per input node into the hub |
| Sankey.OutLinks | Services/SankeyService.cs:109-123 | one link per output node out of the hub |
| Sankey.EmptyWithoutFlow | Services/SankeyService.cs:39-48 | the diagram is empty, links included, exactly when the larger side's total is zero |
| Sankey.PickInputs | Services/SankeyService.cs:95 | picking column 0 out of the node list gives the input column |
| Sankey.PickOutputs | Services/SankeyService.cs:111 | picking column 2 out of the node list gives the output column |
| Sankey.ArrangeColumns | Services/SankeyService.cs:93-123 | links are drawn for exactly the two side columns |
| Sankey.ArrangeNodes | Services/SankeyService.cs:50-91 | the nodes are the input flows in column 0, the hub, then the output flows in column 2 |
| Sankey.ArrangeLinks | Services/SankeyService.cs:93-123 | one link per node besides the hub, each carrying its node's whole amount and height |
| Sankey.ArrangeStacked | Services/SankeyService.cs:50-123 | each side column is stacked from the top, and each side's links meet the hub one below the other |
| Sankey.PlaceStacked | Services/SankeyService.cs:51-64 | a placed column is stacked from the top with a gap after each node |
| Sankey.InLinksStacked | Services/SankeyService.cs:94-107 | input links enter the hub one below the other, from its top |
| Sankey.OutLinksStacked | Services/SankeyService.cs:110-123 | output links leave the hub one below the other, from its top |
| Sankey.LayoutHeights | Services/SankeyService.cs:49-91 | each node's height is its share of the column's span; the hub carries the larger total at the top |
| Sankey.ColumnFillsCanvas | Services/SankeyService.cs:51-64 | the column of the larger side fills the canvas, its last node ending one gap above the bottom |
| Sankey.StackColumn | Services/SankeyService.cs:51-64 | the loop builds exactly the placed column with the proportional heights |
| Sankey.LinkInputs | Services/SankeyService.cs:93-107 | the loop builds exactly the input links |
| Sankey.LinkOutputs | Services/SankeyService.cs:109-123 | the loop builds exactly the output links |
| Sankey.Generate | Services/SankeyService.cs:17-126 | the generated diagram is the specified layout of the transactions |
| Sankey.ColumnsApart | Services/SankeyService.cs:131-142 | the first column starts 50 in, and neighbouring columns leave a 210-wide gap |

## Left out

- Console and window I/O are parameters or left out. This covers prompts, menus, rendering, `Task.Delay` pauses, message boxes, dialogs and the text of success messages.
- The success message of a project payment prints the uncapped XP. Only the awarded, capped XP is modelled.
- JSON persistence and file loading and saving are left out. `DataService`'s constructor takes the file's contents, or none when it could not be read.
- The repository's lock and its `DataCleared` event are left out. The model is single-threaded and has no event subscribers.
- The HTTP fetch of exchange rates is a parameter: the `rates` dictionary of the response, or none on failure.
- The system clock is a parameter (`now`, `today`, `later`).
- Hash-based colours of project cards and chart bars are not modelled. They depend on `string.GetHashCode`, which varies between runs.
- Date and number formatting is not modelled, and neither is the `LastUpdated` text. Only the day count's digits are modelled.
- String ordering for sorting team members by name is modelled as ordinal. The culture-aware comparison is left out.
- Reference identity and aliasing are not modelled. Records inside tables and lists are values, updated by position.
- Floating point is not modelled:
  - `Math.Pow(level, 1.5)` is the exact floor `ISqrt(10000 · level³)`;
  - the diagram's `double` geometry is exact `real`.
- `decimal`'s 28-digit precision is not modelled. For example, 1/90 is exact here.
- The default branches of `switch` expressions over enums cannot be reached for a well-formed enum value and are left out.
- Error messages are the text passed to each exception. `ArgumentException` also gets a parameter name, which .NET appends to its `Message` as ` (Parameter '…')`; that suffix is not modelled.
- Updates do not check name uniqueness, and `UpdateTeamMember` does not check the salary. This matches the source.
- Some console menus are left out because they only read and print:
  - export to CSV;
  - the analytics screen;
  - recurring transactions;
  - the currency converter;
  - the menus that add, delete or search transactions.
- Three console project menus are not modelled:
  - `AddProject` appends a new project in the Planned status and saves the list (ConsoleApp/Menus/MainMenu.cs:824-858);
  - `ManageProject` sets the chosen project's priority or notes in place and saves the list (ConsoleApp/Menus/MainMenu.cs:860-906);
  - `ChangeProjectStatus` sets the status, and the end date when the project is completed, but then saves a freshly reloaded list, so the change is not kept (ConsoleApp/Menus/MainMenu.cs:908-935).
- The diagram generator's unused `accounts` parameter is dropped.
- The canvas height is a parameter. Its default of 600 is not fixed.
- Sort stability is not proved. The sorted lists are proved to be permutations in the required order, not to keep the input order between equal keys.
- Leveling.XPForLevel: levels are natural numbers. The source's behaviour for zero or negative levels in `Math.Pow` is not modelled.
- MainMenu.Tracker.AddXP: the contract gives the new state. The facts that the progress stays inside the level and that levels never drop are proved separately, in `Leveling.ProgressWithinLevel` and `Leveling.LevelOfMonotone`.
- MainMenu.Tracker.ReceiveProjectPayment: the contract gives the new projects, transactions and level state. The balance effect is proved separately, in `MainMenu.PaymentRaisesBalance`. On the cast's overflow the exception is caught by the console's main loop (ConsoleApp/UI/ConsoleApplication.cs:30-46); the model returns it as an outcome, and the error message shown there is not modelled.
- TransactionInput.CategoryChoices: the contract states only the length bound. What the names offered mean is proved in `TransactionInput.ChoicesMatchKind`.
