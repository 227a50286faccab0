/** The stored records: bugs, projects, notifications, comments, users and
    direct messages, with the enumerations, defaults and required fields of
    their schemas. Each `Make…` function is what creating a document does:
    it fills in the schema defaults and fails (a validation error, which the
    handlers answer with 500) when a required field is missing. */
module Models {
  import opened Common

  type UserId = nat
  type BugId = nat
  type ProjectId = nat

  // ---------------------------------------------------------------------
  // Users
  // ---------------------------------------------------------------------

  /** A user account. The optional profile fields are absent until set. */
  datatype User = User(
    id: UserId,
    name: string,
    email: string,
    password: string,
    role: Role,
    isActive: bool,
    phone: Option<string>,
    department: Option<string>,
    avatar: Option<string>)

  function UserKey(u: User): nat { u.id }

  /** `User.findById`. */
  function FindUser(users: seq<User>, id: UserId): (r: Option<User>)
    ensures r.Some? ==> r.value in users && r.value.id == id
    ensures r.None? <==> forall u :: u in users ==> u.id != id
  {
    match Find(users, UserKey, id)
    case None => None
    case Some(i) => Some(users[i])
  }

  /** `User.findOne({ role })`: the first account with that role in the
      collection's natural order, whatever its active flag. */
  function FirstWithRole(users: seq<User>, role: Role): (r: Option<User>)
    ensures r.Some? ==> r.value in users && r.value.role == role
    ensures r.Some? ==> exists i :: 0 <= i < |users| && users[i] == r.value
                                    && forall j :: 0 <= j < i ==> users[j].role != role
    ensures r.None? <==> forall u :: u in users ==> u.role != role
  {
    if users == [] then None
    else if users[0].role == role then Some(users[0])
    else
      var rest := FirstWithRole(users[1..], role);
      assert forall u :: u in users ==> u == users[0] || u in users[1..];
      if rest.Some? then
        var i :| 0 <= i < |users[1..]| && users[1..][i] == rest.value
                 && forall j :: 0 <= j < i ==> users[1..][j].role != role;
        assert users[i + 1] == rest.value;
        assert forall j :: 0 <= j < i + 1 ==> users[j].role != role by {
          forall j | 0 <= j < i + 1 ensures users[j].role != role {
            if j > 0 { assert users[j] == users[1..][j - 1]; }
          }
        }
        rest
      else
        rest
  }

  // ---------------------------------------------------------------------
  // Bugs
  // ---------------------------------------------------------------------

  datatype BugStatus = Open | InProgress | Resolved | Closed | Reopened

  datatype Severity = Minor | Major | Critical | Blocker

  /** The schema's `type` field; `Defect` is the value 'bug'. */
  datatype IssueType = Defect | Feature | Enhancement | Task

  /** A stored bug. The schema declares no `closedAt` path, so nothing of
      that name is ever stored. */
  datatype Bug = Bug(
    id: BugId,
    title: string,
    description: string,
    project: ProjectId,
    reporter: UserId,
    assignedTo: Option<UserId>,
    status: BugStatus,
    priority: Priority,
    severity: Severity,
    issueType: IssueType,
    screenshots: seq<string>,
    stepsToReproduce: Option<string>,
    environment: Option<string>,
    resolvedAt: Option<nat>,
    createdAt: nat)

  /** The schema's required strings: a stored bug has a non-empty (trimmed)
      title and a non-empty description, or saving it fails. */
  predicate Savable(b: Bug)
  {
    b.title != "" && b.description != ""
  }

  function BugKey(b: Bug): nat { b.id }
  function BugTime(b: Bug): nat { b.createdAt }

  /** The object handed to `Bug.create`: every schema path, each possibly
      absent. */
  datatype BugFields = BugFields(
    title: Option<string>,
    description: Option<string>,
    project: Option<ProjectId>,
    reporter: Option<UserId>,
    assignedTo: Option<UserId>,
    status: Option<BugStatus>,
    priority: Option<Priority>,
    severity: Option<Severity>,
    issueType: Option<IssueType>,
    screenshots: Option<seq<string>>,
    stepsToReproduce: Option<string>,
    environment: Option<string>,
    resolvedAt: Option<nat>)

  function Get<T>(o: Option<T>, default: T): T
  {
    if o.Some? then o.value else default
  }

  /** Creating a bug document: the title is trimmed, title and description
      must be non-empty, project and reporter present; status defaults to
      open, priority to medium, severity to major, type to 'bug'. */
  function MakeBug(id: BugId, f: BugFields, now: nat): (r: Result<Bug>)
    ensures r.Err? ==> r.failure == ServerError
    ensures r.Ok? <==> (f.title.Some? && Trim(f.title.value) != "" && Truthy(f.description)
                        && f.project.Some? && f.reporter.Some?)
    ensures r.Ok? ==> r.value.id == id && r.value.createdAt == now
                      && r.value.reporter == f.reporter.value && r.value.project == f.project.value
    ensures r.Ok? ==> Savable(r.value)
  {
    if f.title.None? || Trim(f.title.value) == "" || !Truthy(f.description)
       || f.project.None? || f.reporter.None?
    then Err(ServerError)
    else
      Ok(Bug(id, Trim(f.title.value), f.description.value, f.project.value, f.reporter.value,
             f.assignedTo, Get(f.status, Open), Get(f.priority, Medium), Get(f.severity, Major),
             Get(f.issueType, Defect), Get(f.screenshots, []), f.stepsToReproduce,
             f.environment, f.resolvedAt, now))
  }

  /** A bug created from fields that leave the enumerations unset starts
      open, at medium priority, major severity, of type 'bug', unassigned
      and never resolved. */
  lemma FreshBugDefaults(id: BugId, f: BugFields, now: nat)
    requires f.status.None? && f.priority.None? && f.severity.None? && f.issueType.None?
    requires f.assignedTo.None? && f.resolvedAt.None?
    requires MakeBug(id, f, now).Ok?
    ensures var b := MakeBug(id, f, now).value;
            b.status == Open && b.priority == Medium && b.severity == Major
            && b.issueType == Defect && b.assignedTo.None? && b.resolvedAt.None?
  {
  }

  // ---------------------------------------------------------------------
  // Projects
  // ---------------------------------------------------------------------

  /** The two roles a team entry may carry ('developer', 'tester'). */
  datatype TeamRole = TeamDeveloper | TeamTester

  /** A team entry as requested: a role string outside the enumeration
      (such as 'lead') is kept as `OtherRole` and fails validation on save. */
  datatype RequestedRole = NoRole | AsDeveloper | AsTester | OtherRole(name: string)

  datatype TeamEntry = TeamEntry(user: UserId, role: Option<TeamRole>)

  datatype ProjectStatus = PlanningPhase | InProgressPhase | TestingPhase | CompletedPhase | OnHoldPhase

  datatype Project = Project(
    id: ProjectId,
    name: string,
    description: string,
    manager: UserId,
    team: seq<TeamEntry>,
    status: ProjectStatus,
    priority: Priority,
    startDate: nat,
    endDate: Option<nat>,
    progress: int,
    createdAt: nat)

  /** The schema's checks on a stored project: a non-empty (trimmed) name, a
      non-empty description and progress from 0 to 100. */
  predicate ProjectSavable(p: Project)
  {
    p.name != "" && p.description != "" && 0 <= p.progress <= 100
  }

  function ProjectKey(p: Project): nat { p.id }
  function ProjectTime(p: Project): nat { p.createdAt }

  /** `Project.findById`. */
  function FindProject(projects: seq<Project>, id: ProjectId): (r: Option<Project>)
    ensures r.Some? ==> r.value in projects && r.value.id == id
    ensures r.None? <==> forall p :: p in projects ==> p.id != id
  {
    match Find(projects, ProjectKey, id)
    case None => None
    case Some(i) => Some(projects[i])
  }

  /** Progress is a number from 0 to 100. */
  predicate ProgressInRange(progress: int)
  {
    0 <= progress <= 100
  }

  /** The schema's role enumeration applied to a requested role. */
  function ValidateRole(r: RequestedRole): (v: Result<Option<TeamRole>>)
    ensures v.Ok? <==> !r.OtherRole?
    ensures v.Ok? ==> (v.value.Some? <==> r != NoRole)
  {
    match r
    case NoRole => Ok(None)
    case AsDeveloper => Ok(Some(TeamDeveloper))
    case AsTester => Ok(Some(TeamTester))
    case OtherRole(_) => Err(ServerError)
  }

  datatype ProjectFields = ProjectFields(
    name: Option<string>,
    description: Option<string>,
    manager: Option<UserId>,
    team: Option<seq<TeamEntry>>,
    status: Option<ProjectStatus>,
    priority: Option<Priority>,
    startDate: Option<nat>,
    endDate: Option<nat>,
    progress: Option<int>)

  /** Creating a project document: the name is trimmed, name and description
      must be non-empty, the manager present and progress within 0..100;
      status defaults to planning, priority to medium, the start date to now
      and progress to 0. The team list is stored as given: the schema does
      not make its users unique. */
  function MakeProject(id: ProjectId, f: ProjectFields, now: nat): (r: Result<Project>)
    ensures r.Err? ==> r.failure == ServerError
    ensures r.Ok? <==> (f.name.Some? && Trim(f.name.value) != "" && Truthy(f.description)
                        && f.manager.Some? && (f.progress.Some? ==> ProgressInRange(f.progress.value)))
    ensures r.Ok? ==> r.value.id == id && r.value.manager == f.manager.value
                      && ProgressInRange(r.value.progress) && ProjectSavable(r.value)
  {
    if f.name.None? || Trim(f.name.value) == "" || !Truthy(f.description) || f.manager.None?
       || (f.progress.Some? && !ProgressInRange(f.progress.value))
    then Err(ServerError)
    else
      Ok(Project(id, Trim(f.name.value), f.description.value, f.manager.value, Get(f.team, []),
                 Get(f.status, PlanningPhase), Get(f.priority, Medium), Get(f.startDate, now),
                 f.endDate, Get(f.progress, 0), now))
  }

  lemma FreshProjectDefaults(id: ProjectId, f: ProjectFields, now: nat)
    requires f.status.None? && f.priority.None? && f.progress.None? && f.team.None? && f.startDate.None?
    requires MakeProject(id, f, now).Ok?
    ensures var p := MakeProject(id, f, now).value;
            p.status == PlanningPhase && p.priority == Medium && p.progress == 0
            && p.team == [] && p.startDate == now
  {
  }

  // ---------------------------------------------------------------------
  // Notifications
  // ---------------------------------------------------------------------

  datatype NotificationType = BugAssigned | BugResolved | BugCreated | BugReopened | ProjectAssigned

  datatype Notification = Notification(
    id: nat,
    recipient: UserId,
    title: string,
    message: string,
    ntype: NotificationType,
    isRead: bool,
    relatedBug: Option<BugId>,
    relatedProject: Option<ProjectId>,
    actionUrl: string,
    priority: Priority,
    createdAt: nat)

  function NotificationKey(n: Notification): nat { n.id }
  function NotificationTime(n: Notification): nat { n.createdAt }

  /** The data the event builders pass to `createNotification`. */
  datatype NotificationData = NotificationData(
    title: string,
    message: string,
    ntype: NotificationType,
    relatedBug: Option<BugId>,
    relatedProject: Option<ProjectId>,
    actionUrl: Option<string>,
    priority: Option<Priority>)

  /** Creating a notification document: the title is trimmed, title and
      message must be non-empty; it starts unread, the action URL defaults to
      the empty string and the priority to medium. */
  function MakeNotification(id: nat, recipient: UserId, d: NotificationData, now: nat): (r: Result<Notification>)
    ensures r.Ok? <==> Trim(d.title) != "" && d.message != ""
    ensures r.Ok? ==> !r.value.isRead && r.value.recipient == recipient && r.value.ntype == d.ntype
  {
    if Trim(d.title) == "" || d.message == "" then Err(ServerError)
    else
      Ok(Notification(id, recipient, Trim(d.title), d.message, d.ntype, false, d.relatedBug,
                      d.relatedProject, Get(d.actionUrl, ""), Get(d.priority, Medium), now))
  }

  // ---------------------------------------------------------------------
  // Comments
  // ---------------------------------------------------------------------

  datatype Comment = Comment(
    id: nat,
    bug: BugId,
    user: UserId,
    content: string,
    attachments: seq<string>,
    createdAt: nat)

  function CommentKey(c: Comment): nat { c.id }
  function CommentTime(c: Comment): nat { c.createdAt }

  /** Creating a comment document: the content is required (non-empty). */
  function MakeComment(id: nat, bug: BugId, user: UserId, content: Option<string>,
                       attachments: seq<string>, now: nat): (r: Result<Comment>)
    ensures r.Ok? <==> Truthy(content)
    ensures r.Ok? ==> r.value.bug == bug && r.value.user == user && r.value.content == content.value
                      && r.value.attachments == attachments
  {
    if !Truthy(content) then Err(ServerError)
    else Ok(Comment(id, bug, user, content.value, attachments, now))
  }

  // ---------------------------------------------------------------------
  // Direct messages
  // ---------------------------------------------------------------------

  datatype Message = Message(
    id: nat,
    sender: UserId,
    receiver: UserId,
    content: string,
    read: bool,
    createdAt: nat)

  function MessageKey(m: Message): nat { m.id }
  function MessageTime(m: Message): nat { m.createdAt }
}
