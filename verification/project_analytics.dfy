/**
 * The project-analytics screen (ViewModels/ProjectAnalyticsViewModel.cs):
 * the project list and summaries, the selected project's figures, its team
 * and its payroll.
 */
module ProjectAnalytics {
  import opened Wrappers
  import opened Seqs
  import opened Decimal
  import opened Text
  import opened NexusModels
  import opened DataStore

  /** One project card; its hash-based colour is not modelled. */
  datatype ProjectSummary = ProjectSummary(name: string, revenue: real, cost: real, profit: real)

  /** The four figures shown for the selected project. */
  datatype Stats = Stats(totalRevenue: real, totalCost: real, netProfit: real, profitMargin: real)

  /** `Projects`: the project names in store order. */
  function ProjectNames(projects: seq<Project>): (r: seq<string>)
    ensures |r| == |projects|
    ensures forall k :: 0 <= k < |r| ==> r[k] == projects[k].name
  {
    seq(|projects|, k requires 0 <= k < |projects| => projects[k].name)
  }

  /** `ProjectSummaries`: one summary per project in store order. */
  function Summaries(projects: seq<Project>): (r: seq<ProjectSummary>)
    ensures |r| == |projects|
    ensures forall k :: 0 <= k < |r| ==>
      r[k] == ProjectSummary(projects[k].name, projects[k].revenue, projects[k].cost, Profit(projects[k]))
  {
    seq(|projects|, k requires 0 <= k < |projects| =>
      ProjectSummary(projects[k].name, projects[k].revenue, projects[k].cost, Profit(projects[k])))
  }

  /** The selection after a reload: kept while still listed, else the first name, else none. */
  function Reselect(current: Option<string>, names: seq<string>): (r: Option<string>)
    ensures current.Some? && current.value in names ==> r == current
    ensures !(current.Some? && current.value in names) ==> r == (if |names| > 0 then Some(names[0]) else None)
  {
    if current.None? || current.value !in names then
      (if |names| > 0 then Some(names[0]) else None)
    else current
  }

  /** After a reload the selection is a listed name, and none only when nothing is listed. */
  lemma ReselectListed(current: Option<string>, names: seq<string>)
    ensures Reselect(current, names).Some? <==> |names| > 0
    ensures Reselect(current, names).Some? ==> Reselect(current, names).value in names
    ensures Reselect(Reselect(current, names), names) == Reselect(current, names)
  {
  }

  /** `FirstOrDefault(p => p.Name == name)` on the summaries. */
  function SummaryIndex(summaries: seq<ProjectSummary>, name: string): (r: Option<nat>)
    ensures r.Some? ==> r.value < |summaries| && summaries[r.value].name == name
    ensures r.Some? ==> forall j :: 0 <= j < r.value ==> summaries[j].name != name
    ensures r.None? <==> forall j :: 0 <= j < |summaries| ==> summaries[j].name != name
  {
    FindIndex(summaries, (p: ProjectSummary) => p.name == name)
  }

  /** The margin shown: profit over revenue in percent, to one decimal; 0 without revenue. */
  function Margin(revenue: real, profit: real): real
  {
    if revenue > 0.0 then Round(profit / revenue * 100.0, 1) else 0.0
  }

  /** `UpdateSelectedProjectStats`: the figures of the first summary named as selected, zeros when none is. */
  function SelectedStats(summaries: seq<ProjectSummary>, selected: Option<string>): (s: Stats)
    ensures selected.None? ==> s == Stats(0.0, 0.0, 0.0, 0.0)
  {
    if selected.None? then Stats(0.0, 0.0, 0.0, 0.0)
    else match SummaryIndex(summaries, selected.value)
      case None => Stats(0.0, 0.0, 0.0, 0.0)
      case Some(k) =>
        var p := summaries[k];
        Stats(p.revenue, p.cost, p.profit, Margin(p.revenue, p.profit))
  }

  /**
   * The figures shown are those of the first project bearing the selected
   * name, its margin the one the project itself reports; all zero when no
   * project bears it.
   */
  lemma StatsOfProject(projects: seq<Project>, name: string)
    ensures var s := SelectedStats(Summaries(projects), Some(name));
      match FindIndex(projects, (p: Project) => p.name == name)
      case None => s == Stats(0.0, 0.0, 0.0, 0.0)
      case Some(k) => s == Stats(projects[k].revenue, projects[k].cost, Profit(projects[k]), ProfitMargin(projects[k]))
  {
    var sums := Summaries(projects);
    var bySummary := SummaryIndex(sums, name);
    var byProject := FindIndex(projects, (p: Project) => p.name == name);
    assert forall k :: 0 <= k < |projects| ==> sums[k].name == projects[k].name;
    assert bySummary.Some? <==> byProject.Some?;
    if bySummary.Some? {
      var a, b := bySummary.value, byProject.value;
      assert !(a < b) && !(b < a);
    }
  }

  /** A project within budget shows a margin between 0 and 100. */
  lemma StatsMarginBounds(projects: seq<Project>, k: nat)
    requires k < |projects| && projects[k].revenue > 0.0 && 0.0 <= projects[k].cost <= projects[k].revenue
    requires forall j :: 0 <= j < k ==> projects[j].name != projects[k].name
    ensures 0.0 <= SelectedStats(Summaries(projects), Some(projects[k].name)).profitMargin <= 100.0
  {
    StatsOfProject(projects, projects[k].name);
    ProfitMarginBounds(projects[k]);
  }

  /** `LoadTeamMembers`: the selected project's team and payroll; nothing for a blank selection. */
  function Team(members: seq<TeamMember>, selected: Option<string>): (r: (seq<TeamMember>, real))
    ensures selected.None? || IsBlank(selected.value) ==> r == ([], 0.0)
    ensures selected.Some? && !IsBlank(selected.value) ==>
      r == (MembersOfProject(members, selected.value).value, ProjectPayroll(members, selected.value).value)
  {
    if selected.None? || IsBlank(selected.value) then ([], 0.0)
    else (MembersOfProject(members, selected.value).value, ProjectPayroll(members, selected.value).value)
  }

  /** The payroll shown is that of the active members on the team shown. */
  lemma PayrollOfTeamShown(members: seq<TeamMember>, selected: Option<string>)
    ensures var (team, payroll) := Team(members, selected);
      payroll == Sum(Filter(team, (m: TeamMember) => m.isActive), MonthlyCost)
  {
    if selected.Some? && !IsBlank(selected.value) {
      var id := selected.value;
      var team := MembersOfProject(members, id).value;
      var ofProject := Filter(members, (m: TeamMember) => m.projectId == id);
      PayrollOfActiveMembers(members, id);
      FilterPermutation(team, ofProject, (m: TeamMember) => m.isActive);
      SumPermutation(Filter(team, (m: TeamMember) => m.isActive),
                     Filter(ofProject, (m: TeamMember) => m.isActive), MonthlyCost);
    } else {
      assert Filter([], (m: TeamMember) => m.isActive) == [];
    }
  }

  class ProjectAnalyticsView {
    var projects: seq<string>
    var selectedProject: Option<string>
    var projectSummaries: seq<ProjectSummary>
    var stats: Stats
    var teamMembers: seq<TeamMember>
    var totalMonthlyPayroll: real

    /** The screen loads the project data as soon as it is made; the team starts empty. */
    constructor (service: DataService)
      ensures projects == ProjectNames(service.data.projects)
      ensures projectSummaries == Summaries(service.data.projects)
      ensures selectedProject == Reselect(None, projects)
      ensures stats == SelectedStats(projectSummaries, selectedProject)
      ensures teamMembers == [] && totalMonthlyPayroll == 0.0
    {
      selectedProject := None;
      teamMembers, totalMonthlyPayroll := [], 0.0;
      new;
      LoadProjectData(service);
    }

    /** `UpdateSelectedProjectStats`. */
    method UpdateSelectedProjectStats()
      modifies this
      ensures stats == SelectedStats(projectSummaries, selectedProject)
      ensures projects == old(projects) && selectedProject == old(selectedProject)
      ensures projectSummaries == old(projectSummaries)
      ensures teamMembers == old(teamMembers) && totalMonthlyPayroll == old(totalMonthlyPayroll)
    {
      var found: Option<nat> := None;
      if selectedProject.Some? {
        found := SummaryIndex(projectSummaries, selectedProject.value);
      }
      if found.Some? {
        var p := projectSummaries[found.value];
        stats := Stats(p.revenue, p.cost, p.profit, Margin(p.revenue, p.profit));
      } else {
        stats := Stats(0.0, 0.0, 0.0, 0.0);
      }
    }

    /** `LoadProjectData`: the list and summaries from the store, the selection kept or reset, the figures updated. */
    method LoadProjectData(service: DataService)
      modifies this
      ensures projects == ProjectNames(service.data.projects)
      ensures projectSummaries == Summaries(service.data.projects)
      ensures selectedProject == Reselect(old(selectedProject), projects)
      ensures stats == SelectedStats(projectSummaries, selectedProject)
      ensures teamMembers == old(teamMembers) && totalMonthlyPayroll == old(totalMonthlyPayroll)
    {
      projects := ProjectNames(service.data.projects);
      projectSummaries := Summaries(service.data.projects);
      if selectedProject.None? || selectedProject.value !in projects {
        selectedProject := if |projects| > 0 then Some(projects[0]) else None;
      }
      UpdateSelectedProjectStats();
    }

    /** `LoadTeamMembers`. */
    method LoadTeamMembers(service: DataService)
      modifies this
      ensures (teamMembers, totalMonthlyPayroll) == Team(service.data.teamMembers, selectedProject)
      ensures projects == old(projects) && selectedProject == old(selectedProject)
      ensures projectSummaries == old(projectSummaries) && stats == old(stats)
    {
      if selectedProject.None? || IsBlank(selectedProject.value) {
        teamMembers := [];
        totalMonthlyPayroll := 0.0;
        return;
      }
      var r := MembersOfProject(service.data.teamMembers, selectedProject.value);
      teamMembers := r.value;
      var payroll := ProjectPayroll(service.data.teamMembers, selectedProject.value);
      totalMonthlyPayroll := payroll.value;
    }

    /** `SelectProject`: select, then refresh the figures and the team. */
    method SelectProject(service: DataService, project: Option<string>)
      modifies this
      ensures selectedProject == project
      ensures stats == SelectedStats(projectSummaries, project)
      ensures (teamMembers, totalMonthlyPayroll) == Team(service.data.teamMembers, project)
      ensures projects == old(projects) && projectSummaries == old(projectSummaries)
    {
      selectedProject := project;
      UpdateSelectedProjectStats();
      LoadTeamMembers(service);
    }

    /**
     * `AddTeamMember`: refused without a selected project; otherwise the
     * member the editor dialog returns, which the dialog files under the
     * selected project, goes to the store and the team is reloaded.
     */
    method AddTeamMember(service: DataService, member: TeamMember) returns (outcome: Outcome)
      modifies this, service
      ensures selectedProject.None? || IsBlank(selectedProject.value) ==>
        outcome == Done && service.data == old(service.data)
        && teamMembers == old(teamMembers) && totalMonthlyPayroll == old(totalMonthlyPayroll)
      ensures selectedProject.Some? && !IsBlank(selectedProject.value) ==>
        var filed := member.(projectId := selectedProject.value);
        (IsBlank(member.name) ==> outcome == Throws(ArgumentError("Team member name cannot be empty")))
        && (!IsBlank(member.name) ==>
              Change(outcome, service.data.teamMembers)
                == AddNonNegative(old(service.data.teamMembers), filed, member.salary, "Salary cannot be negative"))
        && service.data == old(service.data).(teamMembers := service.data.teamMembers)
      ensures selectedProject.Some? && !IsBlank(selectedProject.value) && outcome == Done ==>
        service.data.teamMembers == old(service.data.teamMembers) + [member.(projectId := selectedProject.value)]
        && (teamMembers, totalMonthlyPayroll) == Team(service.data.teamMembers, selectedProject)
      ensures outcome.Throws? ==>
        service.data == old(service.data)
        && teamMembers == old(teamMembers) && totalMonthlyPayroll == old(totalMonthlyPayroll)
      ensures selectedProject == old(selectedProject) && projects == old(projects)
      ensures projectSummaries == old(projectSummaries) && stats == old(stats)
    {
      if selectedProject.None? || IsBlank(selectedProject.value) {
        return Done;
      }
      outcome := service.AddTeamMember(member.(projectId := selectedProject.value));
      if outcome.Done? {
        LoadTeamMembers(service);
      }
    }
  }
}
