/**
 * NexusFinance's repository (Services/DataService.cs): eight list-backed
 * tables, adds that reject blank and duplicate names or negative amounts,
 * updates and deletes by name or id, flags set in place, and the two
 * team-member queries. The lock and the JSON file are left out; a loaded
 * file is the constructor's argument.
 */
module DataStore {
  import opened Wrappers
  import opened Seqs
  import opened Text
  import opened NexusModels

  datatype AppData = AppData(
    projects: seq<Project>,
    transactions: seq<Transaction>,
    accounts: seq<Account>,
    investments: seq<Investment>,
    categories: seq<Category>,
    payables: seq<Payable>,
    receivables: seq<Receivable>,
    teamMembers: seq<TeamMember>)

  /** A table after an operation, with the operation's outcome. */
  datatype Change<T> = Change(outcome: Outcome, table: seq<T>)

  /** No two rows share a key. */
  ghost predicate UniqueBy<T>(s: seq<T>, key: T -> string)
  {
    forall i, j :: 0 <= i < j < |s| ==> key(s[i]) != key(s[j])
  }

  /** Some row has key `k`. */
  predicate HasKey<T>(s: seq<T>, key: T -> string, k: string)
  {
    exists i :: 0 <= i < |s| && key(s[i]) == k
  }

  /** `FindIndex(x => key(x) == k)`: the first row with key `k`. */
  function KeyIndex<T>(table: seq<T>, key: T -> string, k: string): (r: Option<nat>)
    ensures r.Some? ==> r.value < |table| && key(table[r.value]) == k
    ensures r.Some? ==> forall j :: 0 <= j < r.value ==> key(table[j]) != k
    ensures r.None? <==> !HasKey(table, key, k)
  {
    FindIndex(table, (x: T) => key(x) == k)
  }

  /** `Where(x => key(x) != k)`: the rows with another key, in order. */
  function Without<T>(table: seq<T>, key: T -> string, k: string): (r: seq<T>)
    ensures !HasKey(r, key, k)
    ensures forall i :: 0 <= i < |table| && key(table[i]) != k ==> table[i] in r
    ensures forall x :: x in r ==> x in table
    ensures multiset(r) <= multiset(table)
    ensures |r| == |table| - Count(table, (x: T) => key(x) == k)
  {
    FilterComplement(table, (x: T) => key(x) == k, (x: T) => key(x) != k);
    FilterSubMultiset(table, (x: T) => key(x) != k);
    Filter(table, (x: T) => key(x) != k)
  }

  /**
   * Together with `WithoutUnits`, this pins `Without` down completely: the
   * kept rows are the table's own rows with key other than `k`, each as often
   * as it occurs, in the table's order.
   */
  lemma {:induction false} WithoutAppend<T>(a: seq<T>, b: seq<T>, key: T -> string, k: string)
    ensures Without(a + b, key, k) == Without(a, key, k) + Without(b, key, k)
  {
    FilterAppend(a, b, (x: T) => key(x) != k);
  }

  /** The empty table keeps nothing, and a single row is kept exactly when its key is not `k`. */
  lemma WithoutUnits<T>(x: T, key: T -> string, k: string)
    ensures Without([], key, k) == []
    ensures Without([x], key, k) == if key(x) == k then [] else [x]
  {
    assert [x][..0] == [];
  }

  /** `Where` keeps each row no more often than the table has it. */
  lemma {:induction false} FilterSubMultiset<T>(s: seq<T>, p: T -> bool)
    ensures multiset(Filter(s, p)) <= multiset(s)
  {
    if |s| > 0 {
      var s' := s[..|s| - 1];
      FilterSubMultiset(s', p);
      assert s == s' + [s[|s| - 1]];
    }
  }

  // ---------------------------------------------------------------- the table operations

  /**
   * `Add` with the name checks of `AddProject`, `AddAccount`, `AddInvestment`
   * and `AddCategory`: a blank name is an argument error, a name already in
   * the table an invalid operation; otherwise the item is appended.
   */
  function AddNamed<T>(table: seq<T>, item: T, name: T -> string, entity: string): (c: Change<T>)
    ensures IsBlank(name(item)) ==> c == Change(Throws(ArgumentError(entity + " name cannot be empty")), table)
    ensures !IsBlank(name(item)) && HasKey(table, name, name(item))
      ==> c == Change(Throws(InvalidOperation(entity + " '" + name(item) + "' already exists")), table)
    ensures c.outcome == Done <==> !IsBlank(name(item)) && !HasKey(table, name, name(item))
    ensures c.outcome == Done ==> c.table == table + [item]
  {
    if IsBlank(name(item)) then Change(Throws(ArgumentError(entity + " name cannot be empty")), table)
    else if KeyIndex(table, name, name(item)).Some? then
      Change(Throws(InvalidOperation(entity + " '" + name(item) + "' already exists")), table)
    else Change(Done, table + [item])
  }

  /** `Add` behind an amount check: a negative amount is an argument error. */
  function AddNonNegative<T>(table: seq<T>, item: T, amount: real, message: string): (c: Change<T>)
    ensures amount < 0.0 ==> c == Change(Throws(ArgumentError(message)), table)
    ensures amount >= 0.0 ==> c == Change(Done, table + [item])
  {
    if amount < 0.0 then Change(Throws(ArgumentError(message)), table) else Change(Done, table + [item])
  }

  /**
   * Update of the first row with key `k` by `f`, as `Update*`, `Mark*` and
   * `ToggleTeamMemberStatus` do: a blank key is an argument error, a key no
   * row has an invalid operation.
   */
  function UpdateFirst<T>(table: seq<T>, key: T -> string, k: string, f: T -> T,
                          blankMessage: string, missingMessage: string): (c: Change<T>)
    ensures IsBlank(k) ==> c == Change(Throws(ArgumentError(blankMessage)), table)
    ensures !IsBlank(k) && !HasKey(table, key, k) ==> c == Change(Throws(InvalidOperation(missingMessage)), table)
    ensures c.outcome == Done <==> !IsBlank(k) && HasKey(table, key, k)
    ensures c.outcome == Done ==> (|c.table| == |table|
      && exists i :: (0 <= i < |table| && key(table[i]) == k
        && (forall j :: 0 <= j < i ==> key(table[j]) != k)
        && c.table == table[i := f(table[i])]))
  {
    if IsBlank(k) then Change(Throws(ArgumentError(blankMessage)), table)
    else match KeyIndex(table, key, k)
      case None => Change(Throws(InvalidOperation(missingMessage)), table)
      case Some(i) => Change(Done, table[i := f(table[i])])
  }

  /** `RemoveAll` by key behind a blank-key check: every row with key `k` goes, the others stay in order. */
  function RemoveKey<T>(table: seq<T>, key: T -> string, k: string, blankMessage: string): (c: Change<T>)
    ensures IsBlank(k) ==> c == Change(Throws(ArgumentError(blankMessage)), table)
    ensures !IsBlank(k) ==> c.outcome == Done
    ensures c.outcome == Done ==> !HasKey(c.table, key, k)
    ensures c.outcome == Done ==> forall i :: 0 <= i < |table| && key(table[i]) != k ==> table[i] in c.table
    ensures c.outcome == Done ==> |c.table| == |table| - Count(table, (x: T) => key(x) == k)
    ensures c.outcome == Done ==> c.table == Without(table, key, k)
  {
    if IsBlank(k) then Change(Throws(ArgumentError(blankMessage)), table)
    else
      Change(Done, Without(table, key, k))
  }

  /** Rows that satisfy exactly one of two complementary tests split the table's length. */
  lemma {:induction false} FilterComplement<T>(s: seq<T>, p: T -> bool, q: T -> bool)
    requires forall x :: q(x) == !p(x)
    ensures |Filter(s, q)| == |s| - Count(s, p)
  {
    if |s| > 0 {
      FilterComplement(s[..|s| - 1], p, q);
    }
  }

  /** `List.Remove(item)`: the first row equal to `item` goes, if there is one. */
  function RemoveFirst<T(==)>(table: seq<T>, item: T): (r: seq<T>)
    ensures item !in table ==> r == table
    ensures item in table ==> |r| == |table| - 1 && multiset(r) + multiset{item} == multiset(table)
  {
    match FindIndex(table, (x: T) => x == item)
    case None => table
    case Some(i) => RemoveAt(table, i)
  }

  // ---------------------------------------------------------------- properties of the table operations

  /** A successful named add keeps the names unique. */
  lemma AddNamedKeepsUnique<T>(table: seq<T>, item: T, name: T -> string, entity: string)
    requires UniqueBy(table, name)
    ensures UniqueBy(AddNamed(table, item, name, entity).table, name)
  {
    var c := AddNamed(table, item, name, entity);
    if c.outcome == Done {
      var t := table + [item];
      forall i, j | 0 <= i < j < |t| ensures name(t[i]) != name(t[j]) {
        if j == |table| {
          assert t[i] == table[i];
        }
      }
    }
  }

  /** Removing by key keeps a unique table unique. */
  lemma RemoveKeyKeepsUnique<T>(table: seq<T>, key: T -> string, k: string, blankMessage: string)
    requires UniqueBy(table, key)
    ensures UniqueBy(RemoveKey(table, key, k, blankMessage).table, key)
  {
    if !IsBlank(k) {
      FilterKeepsUnique(table, key, (x: T) => key(x) != k);
    }
  }

  lemma {:induction false} FilterKeepsUnique<T>(s: seq<T>, key: T -> string, p: T -> bool)
    requires UniqueBy(s, key)
    ensures UniqueBy(Filter(s, p), key)
  {
    if |s| > 0 {
      var s', x := s[..|s| - 1], s[|s| - 1];
      assert UniqueBy(s', key);
      FilterKeepsUnique(s', key, p);
      var f' := Filter(s', p);
      var f := Filter(s, p);
      assert f == f' + (if p(x) then [x] else []);
      forall i, j | 0 <= i < j < |f| ensures key(f[i]) != key(f[j]) {
        if j == |f'| {
          assert f[i] == f'[i] && f'[i] in s';
          var m :| 0 <= m < |s'| && s'[m] == f'[i];
          assert s[m] == s'[m];
        }
      }
    }
  }

  /** Deleting what a successful add appended gives back the table before the add. */
  lemma AddThenRemove<T>(table: seq<T>, item: T, name: T -> string, entity: string, blankMessage: string)
    requires AddNamed(table, item, name, entity).outcome == Done
    ensures RemoveKey(AddNamed(table, item, name, entity).table, name, name(item), blankMessage) == Change(Done, table)
  {
    var p := (x: T) => name(x) != name(item);
    FilterAppend(table, [item], p);
    FilterKeepsAll(table, p);
    assert Filter([item], p) == [];
    assert Without(table + [item], name, name(item)) == table;
  }

  /** Removing by a key twice removes nothing more. */
  lemma RemoveKeyIdempotent<T>(table: seq<T>, key: T -> string, k: string, blankMessage: string)
    requires !IsBlank(k)
    ensures var once := RemoveKey(table, key, k, blankMessage).table;
      RemoveKey(once, key, k, blankMessage) == Change(Done, once)
  {
    var once := RemoveKey(table, key, k, blankMessage).table;
    FilterKeepsAll(once, (x: T) => key(x) != k);
  }

  /** An update whose `f` keeps the key keeps every key of the table, so a unique table stays unique. */
  lemma UpdateFirstKeepsKeys<T>(table: seq<T>, key: T -> string, k: string, f: T -> T, b: string, m: string)
    requires forall x :: key(x) == k ==> key(f(x)) == k
    ensures var c := UpdateFirst(table, key, k, f, b, m);
      |c.table| == |table| && forall i :: 0 <= i < |table| ==> key(c.table[i]) == key(table[i])
  {
  }

  /** Applying an update that is its own inverse twice restores the table. */
  lemma UpdateFirstTwice<T>(table: seq<T>, key: T -> string, k: string, f: T -> T, b: string, m: string)
    requires forall x :: key(f(x)) == key(x) && f(f(x)) == x
    requires !IsBlank(k) && HasKey(table, key, k)
    ensures var once := UpdateFirst(table, key, k, f, b, m).table;
      UpdateFirst(once, key, k, f, b, m) == Change(Done, table)
  {
    var i := KeyIndex(table, key, k).value;
    var once := table[i := f(table[i])];
    assert forall j :: 0 <= j < |table| ==> key(once[j]) == key(table[j]);
    KeyIndexFirst(once, key, k, i);
    assert once[i := f(once[i])] == table;
  }

  /** `KeyIndex` reports the first row with the key. */
  lemma KeyIndexFirst<T>(s: seq<T>, key: T -> string, k: string, i: nat)
    requires i < |s| && key(s[i]) == k
    requires forall j :: 0 <= j < i ==> key(s[j]) != k
    ensures KeyIndex(s, key, k) == Some(i)
  {
    var r := KeyIndex(s, key, k);
    assert r.Some?;
  }

  // ---------------------------------------------------------------- team-member queries

  /** The order `OrderByDescending(IsActive).ThenBy(Name)` compares by. */
  predicate MemberLe(a: TeamMember, b: TeamMember)
  {
    (a.isActive && !b.isActive) || (a.isActive == b.isActive && OrdinalLe(a.name, b.name))
  }

  lemma MemberOrder()
    ensures TotalPreorder(MemberLe)
  {
    forall a: TeamMember, b: TeamMember ensures MemberLe(a, b) || MemberLe(b, a) {
      OrdinalTotal(a.name, b.name);
    }
    forall a: TeamMember, b: TeamMember, c: TeamMember | MemberLe(a, b) && MemberLe(b, c)
      ensures MemberLe(a, c)
    {
      if a.isActive == b.isActive == c.isActive {
        OrdinalTransitive(a.name, b.name, c.name);
      }
    }
  }

  /**
   * `GetTeamMembersByProject`: the project's members, active ones first and by
   * name within each group; a blank project id is an argument error.
   */
  function MembersOfProject(members: seq<TeamMember>, projectId: string): (r: Result<seq<TeamMember>>)
    ensures IsBlank(projectId) <==> r.Fail?
    ensures r.Fail? ==> r.error == ArgumentError("Project ID cannot be empty")
    ensures r.Ok? ==> multiset(r.value) == multiset(Filter(members, (m: TeamMember) => m.projectId == projectId))
    ensures r.Ok? ==> SortedBy(r.value, MemberLe)
  {
    if IsBlank(projectId) then Fail(ArgumentError("Project ID cannot be empty"))
    else
      MemberOrder();
      Ok(Sort(Filter(members, (m: TeamMember) => m.projectId == projectId), MemberLe))
  }

  /** In the member list every active member comes before every inactive one, and only the project's members appear. */
  lemma MembersActiveFirst(members: seq<TeamMember>, projectId: string, i: nat, j: nat)
    requires !IsBlank(projectId)
    requires var r := MembersOfProject(members, projectId).value; i < j < |r|
    ensures var r := MembersOfProject(members, projectId).value;
      (r[j].isActive ==> r[i].isActive) && r[i].projectId == projectId && r[i] in members
  {
    var r := MembersOfProject(members, projectId).value;
    var f := Filter(members, (m: TeamMember) => m.projectId == projectId);
    assert r[i] in multiset(r);
    assert r[i] in multiset(f);
    assert MemberLe(r[i], r[j]);
  }

  function IsPaidMemberOf(projectId: string): TeamMember -> bool
  {
    (m: TeamMember) => m.projectId == projectId && m.isActive
  }

  /** `CalculateProjectPayroll`: the monthly cost of the project's active members; blank id is an argument error. */
  function ProjectPayroll(members: seq<TeamMember>, projectId: string): (r: Result<real>)
    ensures IsBlank(projectId) <==> r.Fail?
    ensures r.Ok? ==> r.value == Sum(Filter(members, IsPaidMemberOf(projectId)), MonthlyCost)
  {
    if IsBlank(projectId) then Fail(ArgumentError("Project ID cannot be empty"))
    else Ok(Sum(Filter(members, IsPaidMemberOf(projectId)), MonthlyCost))
  }

  /** With no negative salary the payroll is never negative. */
  lemma PayrollNonNegative(members: seq<TeamMember>, projectId: string)
    requires !IsBlank(projectId)
    requires forall i :: 0 <= i < |members| ==> members[i].salary >= 0.0
    ensures ProjectPayroll(members, projectId).value >= 0.0
  {
    var paid := Filter(members, IsPaidMemberOf(projectId));
    forall i | 0 <= i < |paid| ensures MonthlyCost(paid[i]) >= 0.0 {
      assert paid[i] in members;
    }
    SumNonNegative(paid, MonthlyCost);
  }

  /** A new member adds its monthly cost to its own project's payroll exactly when active, and nothing to others. */
  lemma PayrollAppend(members: seq<TeamMember>, m: TeamMember, projectId: string)
    requires !IsBlank(projectId)
    ensures ProjectPayroll(members + [m], projectId).value
      == ProjectPayroll(members, projectId).value
        + (if m.projectId == projectId && m.isActive then MonthlyCost(m) else 0.0)
  {
    var p := IsPaidMemberOf(projectId);
    FilterAppend(members, [m], p);
    SumAppend(Filter(members, p), Filter([m], p), MonthlyCost);
  }

  /** The payroll is the cost of the active members in the member list of the project. */
  lemma PayrollOfActiveMembers(members: seq<TeamMember>, projectId: string)
    requires !IsBlank(projectId)
    ensures ProjectPayroll(members, projectId).value
      == Sum(Filter(Filter(members, (x: TeamMember) => x.projectId == projectId), (x: TeamMember) => x.isActive), MonthlyCost)
  {
    FilterFilter(members, (x: TeamMember) => x.projectId == projectId, (x: TeamMember) => x.isActive, IsPaidMemberOf(projectId));
  }

  lemma {:induction false} FilterFilter<T>(s: seq<T>, p: T -> bool, q: T -> bool, pq: T -> bool)
    requires forall x :: pq(x) == (p(x) && q(x))
    ensures Filter(Filter(s, p), q) == Filter(s, pq)
  {
    if |s| > 0 {
      var s', x := s[..|s| - 1], s[|s| - 1];
      FilterFilter(s', p, q, pq);
      FilterAppend(Filter(s', p), if p(x) then [x] else [], q);
      assert Filter(s, p) == Filter(s', p) + (if p(x) then [x] else []);
    }
  }

  // ---------------------------------------------------------------- the store's contents

  /**
   * The six categories every fresh store starts with. The icons are the
   * stored literals character for character: emoji whose UTF-8 bytes were
   * decoded as Mac Roman, so each is a run of letters and symbols.
   */
  function DefaultCategories(): (cs: seq<Category>)
    ensures |cs| == 6
    ensures forall i :: 0 <= i < 2 ==> cs[i].kind == "Income"
    ensures forall i :: 2 <= i < 6 ==> cs[i].kind == "Expense"
    ensures UniqueBy(cs, (c: Category) => c.name)
  {
    [ Category("Income", "Income", "\U{F8FF}\U{FC}\U{ED}\U{221E}"),
      Category("Salary", "Income", "\U{F8FF}\U{FC}\U{ED}\U{B5}"),
      Category("Infrastructure", "Expense", "\U{201A}\U{F2}\U{C5}\U{D4}\U{220F}\U{E8}"),
      Category("Food", "Expense", "\U{F8FF}\U{FC}\U{E7}\U{EF}"),
      Category("Rent", "Expense", "\U{F8FF}\U{FC}\U{E8}\U{2020}"),
      Category("Transport", "Expense", "\U{F8FF}\U{FC}\U{F6}\U{F3}") ]
  }

  /** `CreateEmptyData`: no rows at all except the default categories. */
  function EmptyData(): (d: AppData)
    ensures d.projects == [] && d.transactions == [] && d.accounts == [] && d.investments == []
    ensures d.payables == [] && d.receivables == [] && d.teamMembers == []
    ensures d.categories == DefaultCategories()
  {
    AppData([], [], [], [], DefaultCategories(), [], [], [])
  }

  /** `CreateDefaultData`: the sample store shown when no data file can be read. */
  function DefaultData(now: int): (d: AppData)
    ensures |d.projects| == 3 && |d.transactions| == 2 && |d.accounts| == 2 && |d.investments| == 2
    ensures d.categories == DefaultCategories()
    ensures d.payables == [] && d.receivables == [] && d.teamMembers == []
    ensures UniqueBy(d.projects, (p: Project) => p.name) && UniqueBy(d.accounts, (a: Account) => a.name)
    ensures UniqueBy(d.investments, (i: Investment) => i.name)
  {
    AppData(
      [ Project("NexusAI", 250000.0, 135000.0, "AI Platform Project", now),
        Project("FinSync", 180000.0, 95000.0, "Financial Sync Service", now),
        Project("Personal", 0.0, 65000.0, "Personal Expenses", now) ],
      [ Transaction("Salary - NexusAI", 125000.0, now, "Income", "NexusAI", true),
        Transaction("AWS Cloud Services", 12500.0, now - TicksPerDay, "Infrastructure", "NexusAI", false) ],
      [ Account("Checking Account", "Sberbank", 450000.0, "Checking", now),
        Account("Savings", "Tinkoff", 1200000.0, "Savings", now) ],
      [ Investment("Bitcoin", "Crypto", 500000.0, 800000.0, now),
        Investment("TSLA Stock", "Stock", 300000.0, 350000.0, now) ],
      DefaultCategories(), [], [], [])
  }

  function ProjectName(p: Project): string { p.name }
  function AccountName(a: Account): string { a.name }
  function InvestmentName(i: Investment): string { i.name }
  function CategoryName(c: Category): string { c.name }
  function PayableId(p: Payable): string { p.id }
  function ReceivableId(r: Receivable): string { r.id }
  function MemberId(m: TeamMember): string { m.id }

  /** The tables whose adds check names hold no name twice. */
  ghost predicate NamesUnique(d: AppData)
  {
    && UniqueBy(d.projects, ProjectName)
    && UniqueBy(d.accounts, AccountName)
    && UniqueBy(d.investments, InvestmentName)
    && UniqueBy(d.categories, CategoryName)
  }

  /** Both built-in stores have unique names. */
  lemma BuiltInStoresUnique(now: int)
    ensures NamesUnique(EmptyData()) && NamesUnique(DefaultData(now))
  {
    var cs := DefaultCategories();
    assert UniqueBy(cs, CategoryName) by {
      assert forall i :: 0 <= i < |cs| ==> CategoryName(cs[i]) == cs[i].name;
    }
    var d := DefaultData(now);
    assert forall i :: 0 <= i < |d.projects| ==> ProjectName(d.projects[i]) == d.projects[i].name;
    assert forall i :: 0 <= i < |d.accounts| ==> AccountName(d.accounts[i]) == d.accounts[i].name;
    assert forall i :: 0 <= i < |d.investments| ==> InvestmentName(d.investments[i]) == d.investments[i].name;
  }

  function WithId(p: Payable, id: string): Payable { p.(id := id) }

  // ---------------------------------------------------------------- the service

  /** `DataService`: the store `_data` that every operation changes in place. */
  class DataService {
    var data: AppData

    /** `LoadData`: the file's contents when it could be read, else the sample store. */
    constructor (loaded: Option<AppData>, now: int)
      ensures data == if loaded.Some? then loaded.value else DefaultData(now)
    {
      data := if loaded.Some? then loaded.value else DefaultData(now);
    }

    method AddProject(project: Project) returns (outcome: Outcome)
      modifies this
      ensures Change(outcome, data.projects) == AddNamed(old(data.projects), project, ProjectName, "Project")
      ensures data == old(data).(projects := data.projects)
      ensures NamesUnique(old(data)) ==> NamesUnique(data)
    {
      if IsBlank(project.name) {
        return Throws(ArgumentError("Project" + " name cannot be empty"));
      }
      if KeyIndex(data.projects, ProjectName, project.name).Some? {
        return Throws(InvalidOperation("Project" + " '" + project.name + "' already exists"));
      }
      if NamesUnique(data) {
        AddNamedKeepsUnique(data.projects, project, ProjectName, "Project");
      }
      data := data.(projects := data.projects + [project]);
      outcome := Done;
    }

    method UpdateProject(oldName: string, updated: Project) returns (outcome: Outcome)
      modifies this
      ensures Change(outcome, data.projects)
        == UpdateFirst(old(data.projects), ProjectName, oldName, (_: Project) => updated,
                       "Old project name cannot be empty", "Project '" + oldName + "' not found")
      ensures data == old(data).(projects := data.projects)
    {
      if IsBlank(oldName) {
        return Throws(ArgumentError("Old project name cannot be empty"));
      }
      var index := KeyIndex(data.projects, ProjectName, oldName);
      if index.None? {
        return Throws(InvalidOperation("Project '" + oldName + "' not found"));
      }
      data := data.(projects := data.projects[index.value := updated]);
      outcome := Done;
    }

    method DeleteProject(name: string) returns (outcome: Outcome)
      modifies this
      ensures Change(outcome, data.projects) == RemoveKey(old(data.projects), ProjectName, name, "Project name cannot be empty")
      ensures data == old(data).(projects := data.projects)
      ensures NamesUnique(old(data)) ==> NamesUnique(data)
    {
      if IsBlank(name) {
        return Throws(ArgumentError("Project name cannot be empty"));
      }
      if NamesUnique(data) {
        RemoveKeyKeepsUnique(data.projects, ProjectName, name, "Project name cannot be empty");
      }
      data := data.(projects := Without(data.projects, ProjectName, name));
      outcome := Done;
    }

    method AddTransaction(t: Transaction) returns (outcome: Outcome)
      modifies this
      ensures Change(outcome, data.transactions)
        == AddNonNegative(old(data.transactions), t, t.amount, "Transaction amount cannot be negative")
      ensures data == old(data).(transactions := data.transactions)
    {
      if t.amount < 0.0 {
        return Throws(ArgumentError("Transaction amount cannot be negative"));
      }
      data := data.(transactions := data.transactions + [t]);
      outcome := Done;
    }

    method DeleteTransaction(t: Transaction)
      modifies this
      ensures data == old(data).(transactions := RemoveFirst(old(data.transactions), t))
    {
      data := data.(transactions := RemoveFirst(data.transactions, t));
    }

    method AddAccount(account: Account) returns (outcome: Outcome)
      modifies this
      ensures Change(outcome, data.accounts) == AddNamed(old(data.accounts), account, AccountName, "Account")
      ensures data == old(data).(accounts := data.accounts)
      ensures NamesUnique(old(data)) ==> NamesUnique(data)
    {
      if IsBlank(account.name) {
        return Throws(ArgumentError("Account" + " name cannot be empty"));
      }
      if KeyIndex(data.accounts, AccountName, account.name).Some? {
        return Throws(InvalidOperation("Account" + " '" + account.name + "' already exists"));
      }
      if NamesUnique(data) {
        AddNamedKeepsUnique(data.accounts, account, AccountName, "Account");
      }
      data := data.(accounts := data.accounts + [account]);
      outcome := Done;
    }

    method UpdateAccount(oldName: string, updated: Account) returns (outcome: Outcome)
      modifies this
      ensures Change(outcome, data.accounts)
        == UpdateFirst(old(data.accounts), AccountName, oldName, (_: Account) => updated,
                       "Old account name cannot be empty", "Account '" + oldName + "' not found")
      ensures data == old(data).(accounts := data.accounts)
    {
      if IsBlank(oldName) {
        return Throws(ArgumentError("Old account name cannot be empty"));
      }
      var index := KeyIndex(data.accounts, AccountName, oldName);
      if index.None? {
        return Throws(InvalidOperation("Account '" + oldName + "' not found"));
      }
      data := data.(accounts := data.accounts[index.value := updated]);
      outcome := Done;
    }

    method DeleteAccount(name: string) returns (outcome: Outcome)
      modifies this
      ensures Change(outcome, data.accounts) == RemoveKey(old(data.accounts), AccountName, name, "Account name cannot be empty")
      ensures data == old(data).(accounts := data.accounts)
      ensures NamesUnique(old(data)) ==> NamesUnique(data)
    {
      if IsBlank(name) {
        return Throws(ArgumentError("Account name cannot be empty"));
      }
      if NamesUnique(data) {
        RemoveKeyKeepsUnique(data.accounts, AccountName, name, "Account name cannot be empty");
      }
      data := data.(accounts := Without(data.accounts, AccountName, name));
      outcome := Done;
    }

    method AddInvestment(investment: Investment) returns (outcome: Outcome)
      modifies this
      ensures !IsBlank(investment.name) && investment.amount < 0.0 ==>
        outcome == Throws(ArgumentError("Investment amount cannot be negative")) && data == old(data)
      ensures IsBlank(investment.name) || investment.amount >= 0.0 ==>
        Change(outcome, data.investments) == AddNamed(old(data.investments), investment, InvestmentName, "Investment")
      ensures data == old(data).(investments := data.investments)
      ensures NamesUnique(old(data)) ==> NamesUnique(data)
    {
      if IsBlank(investment.name) {
        return Throws(ArgumentError("Investment" + " name cannot be empty"));
      }
      if investment.amount < 0.0 {
        return Throws(ArgumentError("Investment amount cannot be negative"));
      }
      if KeyIndex(data.investments, InvestmentName, investment.name).Some? {
        return Throws(InvalidOperation("Investment" + " '" + investment.name + "' already exists"));
      }
      if NamesUnique(data) {
        AddNamedKeepsUnique(data.investments, investment, InvestmentName, "Investment");
      }
      data := data.(investments := data.investments + [investment]);
      outcome := Done;
    }

    method UpdateInvestment(oldName: string, updated: Investment) returns (outcome: Outcome)
      modifies this
      ensures Change(outcome, data.investments)
        == UpdateFirst(old(data.investments), InvestmentName, oldName, (_: Investment) => updated,
                       "Old investment name cannot be empty", "Investment '" + oldName + "' not found")
      ensures data == old(data).(investments := data.investments)
    {
      if IsBlank(oldName) {
        return Throws(ArgumentError("Old investment name cannot be empty"));
      }
      var index := KeyIndex(data.investments, InvestmentName, oldName);
      if index.None? {
        return Throws(InvalidOperation("Investment '" + oldName + "' not found"));
      }
      data := data.(investments := data.investments[index.value := updated]);
      outcome := Done;
    }

    method DeleteInvestment(name: string) returns (outcome: Outcome)
      modifies this
      ensures Change(outcome, data.investments)
        == RemoveKey(old(data.investments), InvestmentName, name, "Investment name cannot be empty")
      ensures data == old(data).(investments := data.investments)
      ensures NamesUnique(old(data)) ==> NamesUnique(data)
    {
      if IsBlank(name) {
        return Throws(ArgumentError("Investment name cannot be empty"));
      }
      if NamesUnique(data) {
        RemoveKeyKeepsUnique(data.investments, InvestmentName, name, "Investment name cannot be empty");
      }
      data := data.(investments := Without(data.investments, InvestmentName, name));
      outcome := Done;
    }

    method AddCategory(category: Category) returns (outcome: Outcome)
      modifies this
      ensures Change(outcome, data.categories) == AddNamed(old(data.categories), category, CategoryName, "Category")
      ensures data == old(data).(categories := data.categories)
      ensures NamesUnique(old(data)) ==> NamesUnique(data)
    {
      if IsBlank(category.name) {
        return Throws(ArgumentError("Category" + " name cannot be empty"));
      }
      if KeyIndex(data.categories, CategoryName, category.name).Some? {
        return Throws(InvalidOperation("Category" + " '" + category.name + "' already exists"));
      }
      if NamesUnique(data) {
        AddNamedKeepsUnique(data.categories, category, CategoryName, "Category");
      }
      data := data.(categories := data.categories + [category]);
      outcome := Done;
    }

    method DeleteCategory(name: string) returns (outcome: Outcome)
      modifies this
      ensures Change(outcome, data.categories)
        == RemoveKey(old(data.categories), CategoryName, name, "Category name cannot be empty")
      ensures data == old(data).(categories := data.categories)
      ensures NamesUnique(old(data)) ==> NamesUnique(data)
    {
      if IsBlank(name) {
        return Throws(ArgumentError("Category name cannot be empty"));
      }
      if NamesUnique(data) {
        RemoveKeyKeepsUnique(data.categories, CategoryName, name, "Category name cannot be empty");
      }
      data := data.(categories := Without(data.categories, CategoryName, name));
      outcome := Done;
    }

    method AddPayable(payable: Payable) returns (outcome: Outcome)
      modifies this
      ensures Change(outcome, data.payables)
        == AddNonNegative(old(data.payables), payable, payable.amount, "Payable amount cannot be negative")
      ensures data == old(data).(payables := data.payables)
    {
      if payable.amount < 0.0 {
        return Throws(ArgumentError("Payable amount cannot be negative"));
      }
      data := data.(payables := data.payables + [payable]);
      outcome := Done;
    }

    /** `UpdatePayable`: the stored record takes the id it was looked up by. */
    method UpdatePayable(id: string, updated: Payable) returns (outcome: Outcome)
      modifies this
      ensures Change(outcome, data.payables)
        == UpdateFirst(old(data.payables), PayableId, id, (_: Payable) => WithId(updated, id),
                       "Payable ID cannot be empty", "Payable with ID '" + id + "' not found")
      ensures data == old(data).(payables := data.payables)
    {
      if IsBlank(id) {
        return Throws(ArgumentError("Payable ID cannot be empty"));
      }
      var index := KeyIndex(data.payables, PayableId, id);
      if index.None? {
        return Throws(InvalidOperation("Payable with ID '" + id + "' not found"));
      }
      data := data.(payables := data.payables[index.value := WithId(updated, id)]);
      outcome := Done;
    }

    method DeletePayable(id: string) returns (outcome: Outcome)
      modifies this
      ensures Change(outcome, data.payables) == RemoveKey(old(data.payables), PayableId, id, "Payable ID cannot be empty")
      ensures data == old(data).(payables := data.payables)
    {
      if IsBlank(id) {
        return Throws(ArgumentError("Payable ID cannot be empty"));
      }
      data := data.(payables := Without(data.payables, PayableId, id));
      outcome := Done;
    }

    method MarkPayableAsPaid(id: string) returns (outcome: Outcome)
      modifies this
      ensures Change(outcome, data.payables)
        == UpdateFirst(old(data.payables), PayableId, id, (p: Payable) => p.(isPaid := true),
                       "Payable ID cannot be empty", "Payable with ID '" + id + "' not found")
      ensures data == old(data).(payables := data.payables)
    {
      if IsBlank(id) {
        return Throws(ArgumentError("Payable ID cannot be empty"));
      }
      var index := KeyIndex(data.payables, PayableId, id);
      if index.None? {
        return Throws(InvalidOperation("Payable with ID '" + id + "' not found"));
      }
      var p := data.payables[index.value];
      data := data.(payables := data.payables[index.value := p.(isPaid := true)]);
      outcome := Done;
    }

    method AddReceivable(receivable: Receivable) returns (outcome: Outcome)
      modifies this
      ensures Change(outcome, data.receivables)
        == AddNonNegative(old(data.receivables), receivable, receivable.amount, "Receivable amount cannot be negative")
      ensures data == old(data).(receivables := data.receivables)
    {
      if receivable.amount < 0.0 {
        return Throws(ArgumentError("Receivable amount cannot be negative"));
      }
      data := data.(receivables := data.receivables + [receivable]);
      outcome := Done;
    }

    /** `UpdateReceivable`: the stored record takes the id it was looked up by. */
    method UpdateReceivable(id: string, updated: Receivable) returns (outcome: Outcome)
      modifies this
      ensures Change(outcome, data.receivables)
        == UpdateFirst(old(data.receivables), ReceivableId, id, (_: Receivable) => updated.(id := id),
                       "Receivable ID cannot be empty", "Receivable with ID '" + id + "' not found")
      ensures data == old(data).(receivables := data.receivables)
    {
      if IsBlank(id) {
        return Throws(ArgumentError("Receivable ID cannot be empty"));
      }
      var index := KeyIndex(data.receivables, ReceivableId, id);
      if index.None? {
        return Throws(InvalidOperation("Receivable with ID '" + id + "' not found"));
      }
      data := data.(receivables := data.receivables[index.value := updated.(id := id)]);
      outcome := Done;
    }

    method DeleteReceivable(id: string) returns (outcome: Outcome)
      modifies this
      ensures Change(outcome, data.receivables)
        == RemoveKey(old(data.receivables), ReceivableId, id, "Receivable ID cannot be empty")
      ensures data == old(data).(receivables := data.receivables)
    {
      if IsBlank(id) {
        return Throws(ArgumentError("Receivable ID cannot be empty"));
      }
      data := data.(receivables := Without(data.receivables, ReceivableId, id));
      outcome := Done;
    }

    method MarkReceivableAsReceived(id: string) returns (outcome: Outcome)
      modifies this
      ensures Change(outcome, data.receivables)
        == UpdateFirst(old(data.receivables), ReceivableId, id, (r: Receivable) => r.(isReceived := true),
                       "Receivable ID cannot be empty", "Receivable with ID '" + id + "' not found")
      ensures data == old(data).(receivables := data.receivables)
    {
      if IsBlank(id) {
        return Throws(ArgumentError("Receivable ID cannot be empty"));
      }
      var index := KeyIndex(data.receivables, ReceivableId, id);
      if index.None? {
        return Throws(InvalidOperation("Receivable with ID '" + id + "' not found"));
      }
      var r := data.receivables[index.value];
      data := data.(receivables := data.receivables[index.value := r.(isReceived := true)]);
      outcome := Done;
    }

    method AddTeamMember(member: TeamMember) returns (outcome: Outcome)
      modifies this
      ensures IsBlank(member.name) ==>
        outcome == Throws(ArgumentError("Team member name cannot be empty")) && data == old(data)
      ensures !IsBlank(member.name) ==>
        Change(outcome, data.teamMembers)
          == AddNonNegative(old(data.teamMembers), member, member.salary, "Salary cannot be negative")
      ensures data == old(data).(teamMembers := data.teamMembers)
    {
      if IsBlank(member.name) {
        return Throws(ArgumentError("Team member name cannot be empty"));
      }
      if member.salary < 0.0 {
        return Throws(ArgumentError("Salary cannot be negative"));
      }
      data := data.(teamMembers := data.teamMembers + [member]);
      outcome := Done;
    }

    /** `UpdateTeamMember`: the stored record takes the id it was looked up by; its salary is not checked. */
    method UpdateTeamMember(id: string, updated: TeamMember) returns (outcome: Outcome)
      modifies this
      ensures Change(outcome, data.teamMembers)
        == UpdateFirst(old(data.teamMembers), MemberId, id, (_: TeamMember) => updated.(id := id),
                       "Team member ID cannot be empty", "Team member with ID '" + id + "' not found")
      ensures data == old(data).(teamMembers := data.teamMembers)
    {
      if IsBlank(id) {
        return Throws(ArgumentError("Team member ID cannot be empty"));
      }
      var index := KeyIndex(data.teamMembers, MemberId, id);
      if index.None? {
        return Throws(InvalidOperation("Team member with ID '" + id + "' not found"));
      }
      data := data.(teamMembers := data.teamMembers[index.value := updated.(id := id)]);
      outcome := Done;
    }

    method DeleteTeamMember(id: string) returns (outcome: Outcome)
      modifies this
      ensures Change(outcome, data.teamMembers)
        == RemoveKey(old(data.teamMembers), MemberId, id, "Team member ID cannot be empty")
      ensures data == old(data).(teamMembers := data.teamMembers)
    {
      if IsBlank(id) {
        return Throws(ArgumentError("Team member ID cannot be empty"));
      }
      data := data.(teamMembers := Without(data.teamMembers, MemberId, id));
      outcome := Done;
    }

    method ToggleTeamMemberStatus(id: string) returns (outcome: Outcome)
      modifies this
      ensures Change(outcome, data.teamMembers)
        == UpdateFirst(old(data.teamMembers), MemberId, id, Toggled,
                       "Team member ID cannot be empty", "Team member with ID '" + id + "' not found")
      ensures data == old(data).(teamMembers := data.teamMembers)
    {
      if IsBlank(id) {
        return Throws(ArgumentError("Team member ID cannot be empty"));
      }
      var index := KeyIndex(data.teamMembers, MemberId, id);
      if index.None? {
        return Throws(InvalidOperation("Team member with ID '" + id + "' not found"));
      }
      data := data.(teamMembers := data.teamMembers[index.value := Toggled(data.teamMembers[index.value])]);
      outcome := Done;
    }

    /** `ClearAllData`: the empty store with its default categories. */
    method ClearAllData()
      modifies this
      ensures data == EmptyData()
    {
      data := EmptyData();
    }
  }

  /** A member with the active flag flipped. */
  function Toggled(m: TeamMember): (r: TeamMember)
    ensures r.isActive == !m.isActive && r == m.(isActive := r.isActive)
  {
    m.(isActive := !m.isActive)
  }

  /** Toggling a member's status twice leaves the member table as it was. */
  lemma ToggleTwice(members: seq<TeamMember>, id: string, b: string, m: string)
    requires !IsBlank(id) && HasKey(members, MemberId, id)
    ensures var once := UpdateFirst(members, MemberId, id, Toggled, b, m).table;
      UpdateFirst(once, MemberId, id, Toggled, b, m) == Change(Done, members)
  {
    UpdateFirstTwice(members, MemberId, id, Toggled, b, m);
  }

  /** An update by id stores a record with that id, and every row keeps its id. */
  lemma UpdateKeepsIds(payables: seq<Payable>, id: string, updated: Payable, b: string, m: string)
    ensures var c := UpdateFirst(payables, PayableId, id, (_: Payable) => WithId(updated, id), b, m);
      |c.table| == |payables| && forall i :: 0 <= i < |payables| ==> c.table[i].id == payables[i].id
  {
    UpdateFirstKeepsKeys(payables, PayableId, id, (_: Payable) => WithId(updated, id), b, m);
  }
}
