/** The manager's team page: a member's projects and bugs, what can still
    be assigned to the selected member, the guard on adding a member to a
    project, and the workload indicator. */
module TeamPage {
  import opened Common
  import opened Models
  import Projects
  import DeveloperDashboard

  /** The bugs assigned to the member; unassigned bugs are never counted. */
  function MemberBugs(bugs: seq<Bug>, uid: UserId): (r: seq<Bug>)
    ensures forall b :: b in r <==> b in bugs && b.assignedTo == Some(uid)
    ensures |r| <= |bugs|
  {
    Filter(bugs, (b: Bug) => b.assignedTo == Some(uid))
  }

  /** Bugs that may be assigned to the selected member: none unless a
      developer is selected; then every bug that is unassigned or open. */
  function AvailableBugs(bugs: seq<Bug>, member: Option<User>): (r: seq<Bug>)
    ensures member.None? || member.value.role != Developer ==> r == []
    ensures member.Some? && member.value.role == Developer ==>
              forall b :: b in r <==> b in bugs && (b.assignedTo.None? || b.status == Open)
  {
    if member.None? || member.value.role != Developer then []
    else Filter(bugs, (b: Bug) => b.assignedTo.None? || b.status == Open)
  }

  /** An open bug already assigned to someone else is still offered, and a
      bug assigned and in progress is not. */
  lemma AvailableBugsIncludeAssignedOpen(bugs: seq<Bug>, dev: User, b: Bug)
    requires dev.role == Developer && b in bugs
    ensures b.status == Open ==> b in AvailableBugs(bugs, Some(dev))
    ensures b.assignedTo.Some? && b.status != Open ==> b !in AvailableBugs(bugs, Some(dev))
  {
  }

  function Ids(ps: seq<Project>): (r: seq<ProjectId>)
    ensures |r| == |ps| && forall i :: 0 <= i < |ps| ==> r[i] == ps[i].id
  {
    seq(|ps|, i requires 0 <= i < |ps| => ps[i].id)
  }

  /** Projects the selected member may be added to: those whose id is not
      among the ids of the member's projects. */
  function AvailableProjects(projects: seq<Project>, member: Option<User>): (r: seq<Project>)
    ensures member.None? ==> r == []
    ensures |r| <= |projects|
  {
    if member.None? then []
    else
      var ids := Ids(DeveloperDashboard.MyProjects(projects, member.value.id));
      Filter(projects, (p: Project) => p.id !in ids)
  }

  /** With distinct project ids, the available projects are exactly the
      listed projects the member is not on, so together with the member's
      projects they cover the list once. */
  lemma AvailableIsComplement(projects: seq<Project>, member: User)
    requires DistinctKeys(projects, ProjectKey)
    ensures forall p :: p in AvailableProjects(projects, Some(member)) <==>
                          p in projects && !Projects.InTeam(p.team, member.id)
  {
    var mine := DeveloperDashboard.MyProjects(projects, member.id);
    var ids := Ids(mine);
    forall p | p in projects
      ensures p.id in ids <==> Projects.InTeam(p.team, member.id)
    {
      if Projects.InTeam(p.team, member.id) {
        assert p in mine;
        var k :| 0 <= k < |mine| && mine[k] == p;
        assert ids[k] == p.id;
      }
      if p.id in ids {
        var k :| 0 <= k < |ids| && ids[k] == p.id;
        var q := mine[k];
        assert q in projects && Projects.InTeam(q.team, member.id);
        var a :| 0 <= a < |projects| && projects[a] == p;
        var c :| 0 <= c < |projects| && projects[c] == q;
        assert a == c;
      }
    }
  }

  /** What the assign-project form does for the selected member. */
  datatype AssignOutcome =
    | NoProject
    | AlreadyOnTeam
    | Request(project: ProjectId, team: seq<TeamEntry>, added: UserId, role: RequestedRole)

  /** The role the form puts on the new entry: the member's account role,
      which the team schema accepts only for developers and testers. */
  function EntryRole(r: Role): (q: RequestedRole)
    ensures q.OtherRole? <==> r == Admin || r == Manager
  {
    match r
    case Developer => AsDeveloper
    case Tester => AsTester
    case Admin => OtherRole("admin")
    case Manager => OtherRole("manager")
  }

  /** `handleAssignProject`: nothing for an unknown project; an alert and no
      request when the member is already on its team; otherwise a request
      carrying the project's team followed by the member with their role. */
  function AssignProject(projects: seq<Project>, projectId: ProjectId, member: User): (r: AssignOutcome)
    ensures FindProject(projects, projectId).None? <==> r == NoProject
    ensures r == AlreadyOnTeam <==>
              FindProject(projects, projectId).Some? && Projects.InTeam(FindProject(projects, projectId).value.team, member.id)
    ensures r.Request? ==> r.project == projectId && r.added == member.id && r.role == EntryRole(member.role)
                           && r.team == FindProject(projects, projectId).value.team
  {
    match FindProject(projects, projectId)
    case None => NoProject
    case Some(p) =>
      if Projects.InTeam(p.team, member.id) then AlreadyOnTeam
      else Request(projectId, p.team, member.id, EntryRole(member.role))
  }

  /** A request goes out only for a member not yet on the team; for a
      developer or tester it extends a team without repeated users by one
      entry and keeps it without repeats, while an admin's or a manager's
      role fails the schema's check. */
  lemma AssignProjectKeepsUnique(projects: seq<Project>, projectId: ProjectId, member: User)
    requires var r := AssignProject(projects, projectId, member); r.Request? ==> Projects.UniqueMembers(r.team)
    ensures var r := AssignProject(projects, projectId, member);
            r.Request? ==>
              !Projects.InTeam(r.team, member.id)
              && (ValidateRole(r.role).Ok? <==> member.role in {Developer, Tester})
              && (ValidateRole(r.role).Ok? ==>
                    Projects.UniqueMembers(r.team + [TeamEntry(member.id, ValidateRole(r.role).value)]))
  {
    var r := AssignProject(projects, projectId, member);
    if r.Request? && ValidateRole(r.role).Ok? {
      Projects.AddKeepsUnique(r.team, TeamEntry(member.id, ValidateRole(r.role).value));
    }
  }

  // ---------------------------------------------------------------------
  // Workload
  // ---------------------------------------------------------------------

  datatype Level = Light | Moderate | Heavy

  function Rank(l: Level): nat
  {
    match l
    case Light => 0
    case Moderate => 1
    case Heavy => 2
  }

  /** The member's assignments: projects plus assigned bugs. */
  function Workload(projects: seq<Project>, bugs: seq<Bug>, uid: UserId): nat
  {
    |DeveloperDashboard.MyProjects(projects, uid)| + |MemberBugs(bugs, uid)|
  }

  /** More than five assignments is high, more than three medium, the rest
      light. */
  function LevelOf(total: nat): (l: Level)
    ensures l == Heavy <==> total > 5
    ensures l == Light <==> total <= 3
  {
    if total > 5 then Heavy else if total > 3 then Moderate else Light
  }

  /** The bar is ten percent per assignment, full from ten on. */
  function BarWidth(total: nat): (w: nat)
    ensures w <= 100
    ensures w == 100 <==> total >= 10
    ensures total < 10 ==> w == 10 * total
  {
    if total * 10 < 100 then total * 10 else 100
  }

  /** More assignments never show a lighter level or a shorter bar. */
  lemma WorkloadMonotone(a: nat, b: nat)
    requires a <= b
    ensures Rank(LevelOf(a)) <= Rank(LevelOf(b))
    ensures BarWidth(a) <= BarWidth(b)
  {
  }
}
