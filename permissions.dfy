/** The route tables of the bug, project and user APIs: each route is a
    verb and a path pattern, tried in declaration order, with the set of
    roles its `authorize` guard admits (every signed-in role when the route
    has no guard). */
module Permissions {
  import opened Common
  import Projects
  import opened Models

  datatype Verb = Get | Post | Put | Delete

  /** A path segment: fixed text, or a parameter matching any non-empty
      segment. */
  datatype Segment = Lit(text: string) | Param

  /** A route: its verb, its path pattern, the roles its guard admits and
      the handler it reaches. */
  datatype Route<E> = Route(verb: Verb, pattern: seq<Segment>, guard: set<Role>, endpoint: E)

  predicate Matches(pattern: seq<Segment>, path: seq<string>)
  {
    |pattern| == |path|
    && forall i :: 0 <= i < |path| ==>
         if pattern[i].Lit? then pattern[i].text == path[i] else path[i] != ""
  }

  predicate Handles<E>(rt: Route<E>, verb: Verb, path: seq<string>)
  {
    rt.verb == verb && Matches(rt.pattern, path)
  }

  /** The first route, in declaration order, that takes the request. */
  function Resolve<E(==)>(table: seq<Route<E>>, verb: Verb, path: seq<string>): (r: Option<Route<E>>)
    ensures r.None? <==> forall k :: 0 <= k < |table| ==> !Handles(table[k], verb, path)
    ensures r.Some? ==> exists k :: 0 <= k < |table| && Handles(table[k], verb, path)
                                    && table[k] == r.value
                                    && forall j :: 0 <= j < k ==> !Handles(table[j], verb, path)
  {
    if table == [] then None
    else if Handles(table[0], verb, path) then Some(table[0])
    else
      var rest := Resolve(table[1..], verb, path);
      assert forall k :: 1 <= k < |table| ==> table[k] == table[1..][k - 1];
      if rest.Some? then
        var k :| 0 <= k < |table[1..]| && Handles(table[1..][k], verb, path)
                 && table[1..][k] == rest.value
                 && forall j :: 0 <= j < k ==> !Handles(table[1..][j], verb, path);
        assert forall j :: 1 <= j < k + 1 ==> !Handles(table[j], verb, path);
        rest
      else rest
  }

  /** The request goes to route `k` when route `k` takes it and no earlier
      route does. */
  lemma ResolveAt<E>(table: seq<Route<E>>, verb: Verb, path: seq<string>, k: nat)
    requires k < |table| && Handles(table[k], verb, path)
    requires forall j :: 0 <= j < k ==> !Handles(table[j], verb, path)
    ensures Resolve(table, verb, path) == Some(table[k])
  {
    var r := Resolve(table, verb, path);
    var k' :| 0 <= k' < |table| && Handles(table[k'], verb, path) && table[k'] == r.value
              && forall j :: 0 <= j < k' ==> !Handles(table[j], verb, path);
    assert k' == k;
  }

  const AllRoles: set<Role> := {Admin, Manager, Developer, Tester}

  /** A request through the table: 404 when no route takes it, 403 when the
      caller's role is not admitted by the route's guard, otherwise the
      route's handler. */
  function Dispatch<E(==)>(table: seq<Route<E>>, verb: Verb, path: seq<string>, role: Role): (r: Result<E>)
    ensures Resolve(table, verb, path).None? ==> r == Err(NotFound)
    ensures r.Ok? <==> Resolve(table, verb, path).Some? && role in Resolve(table, verb, path).value.guard
    ensures r.Ok? ==> r.value == Resolve(table, verb, path).value.endpoint
    ensures r.Err? ==> r.failure in {NotFound, Forbidden}
  {
    match Resolve(table, verb, path)
    case None => Err(NotFound)
    case Some(rt) => if role in rt.guard then Ok(rt.endpoint) else Err(Forbidden)
  }

  /** The answer to a request that route `k` is the first to take: the
      route's handler when its guard admits the role, 403 otherwise. */
  lemma DispatchAt<E>(table: seq<Route<E>>, verb: Verb, path: seq<string>, k: nat, role: Role)
    requires k < |table| && Handles(table[k], verb, path)
    requires forall j :: 0 <= j < k ==> !Handles(table[j], verb, path)
    ensures Dispatch(table, verb, path, role)
            == if role in table[k].guard then Ok(table[k].endpoint) else Err(Forbidden)
  {
    ResolveAt(table, verb, path, k);
  }

  /** A request shaped like a pattern: its literal segments as written,
      each parameter filled with a placeholder. */
  function Sample(pattern: seq<Segment>): (path: seq<string>)
    ensures Matches(pattern, path)
  {
    seq(|pattern|, i requires 0 <= i < |pattern| => if pattern[i].Lit? then pattern[i].text else "x")
  }

  /** No route of the table is dead: each one is the route a request shaped
      like its own pattern reaches, so no earlier declaration hides it. */
  ghost predicate NoneShadowed<E>(table: seq<Route<E>>)
  {
    forall k :: 0 <= k < |table| ==> Resolve(table, table[k].verb, Sample(table[k].pattern)) == Some(table[k])
  }

  // ---------------------------------------------------------------------
  // Bugs
  // ---------------------------------------------------------------------

  datatype BugEndpoint =
    | ListBugs | BugStats | GetBugById | CreateBugEndpoint | UpdateBugEndpoint
    | DeleteBugEndpoint | AssignBugEndpoint | VerifyBugEndpoint

  const BugRoutes: seq<Route<BugEndpoint>> := [
    Route(Get, [], AllRoles, ListBugs),
    Route(Get, [Lit("stats")], AllRoles, BugStats),
    Route(Get, [Param], AllRoles, GetBugById),
    Route(Post, [], {Tester}, CreateBugEndpoint),
    Route(Put, [Param], {Developer}, UpdateBugEndpoint),
    Route(Delete, [Param], {Admin}, DeleteBugEndpoint),
    Route(Put, [Param, Lit("assign")], {Admin, Manager}, AssignBugEndpoint),
    Route(Put, [Param, Lit("verify")], {Tester}, VerifyBugEndpoint)
  ]

  /** The bug router's declaration order hides none of its routes. */
  lemma BugRoutesReachable()
    ensures NoneShadowed(BugRoutes)
  {
    forall k | 0 <= k < |BugRoutes|
      ensures Resolve(BugRoutes, BugRoutes[k].verb, Sample(BugRoutes[k].pattern)) == Some(BugRoutes[k])
    {
      var path := Sample(BugRoutes[k].pattern);
      forall j | 0 <= j < k ensures !Handles(BugRoutes[j], BugRoutes[k].verb, path) {
        if k == 2 && j == 1 {
          assert path[0] == "x" && |"x"| != |"stats"|;
        }
        if k == 7 && j == 6 {
          assert path[1] == "verify" && "verify"[0] != "assign"[0];
        }
      }
      ResolveAt(BugRoutes, BugRoutes[k].verb, path, k);
    }
  }

  /** Every role may list bugs and read the statistics; `GET /stats`
      reaches the statistics, declared before the lookup by id. */
  lemma BugListingOpen(role: Role)
    ensures Dispatch(BugRoutes, Get, [], role) == Ok(ListBugs)
    ensures Dispatch(BugRoutes, Get, ["stats"], role) == Ok(BugStats)
  {
    assert ["stats"][0] == "stats";
    DispatchAt(BugRoutes, Get, [], 0, role);
    DispatchAt(BugRoutes, Get, ["stats"], 1, role);
  }

  /** Every role may read one bug, under any id other than `stats`. */
  lemma BugLookupOpen(role: Role, id: string)
    requires id != "" && id != "stats"
    ensures Dispatch(BugRoutes, Get, [id], role) == Ok(GetBugById)
  {
    assert [id][0] == id;
    DispatchAt(BugRoutes, Get, [id], 2, role);
  }

  /** Only a tester reports a bug. */
  lemma OnlyTestersReport(role: Role)
    ensures Dispatch(BugRoutes, Post, [], role).Ok? <==> role == Tester
    ensures role != Tester ==> Dispatch(BugRoutes, Post, [], role) == Err(Forbidden)
  {
    DispatchAt(BugRoutes, Post, [], 3, role);
  }

  /** Only a developer edits a bug; testers and managers cannot. */
  lemma OnlyDevelopersUpdate(role: Role, id: string)
    requires id != ""
    ensures Dispatch(BugRoutes, Put, [id], role).Ok? <==> role == Developer
  {
    assert [id][0] == id;
    DispatchAt(BugRoutes, Put, [id], 4, role);
  }

  /** Only an admin deletes a bug; managers cannot. */
  lemma OnlyAdminsDeleteBugs(role: Role, id: string)
    requires id != ""
    ensures Dispatch(BugRoutes, Delete, [id], role).Ok? <==> role == Admin
  {
    assert [id][0] == id;
    DispatchAt(BugRoutes, Delete, [id], 5, role);
  }

  /** Admins and managers assign bugs. */
  lemma AssignByAdminOrManager(role: Role, id: string)
    requires id != ""
    ensures Dispatch(BugRoutes, Put, [id, "assign"], role).Ok? <==> role in {Admin, Manager}
  {
    assert [id, "assign"][0] == id && [id, "assign"][1] == "assign";
    DispatchAt(BugRoutes, Put, [id, "assign"], 6, role);
  }

  /** Only a tester closes or reopens a bug. */
  lemma OnlyTestersVerify(role: Role, id: string)
    requires id != ""
    ensures Dispatch(BugRoutes, Put, [id, "verify"], role).Ok? <==> role == Tester
  {
    assert [id, "verify"][0] == id && [id, "verify"][1] == "verify";
    assert "assign"[0] != "verify"[0];
    DispatchAt(BugRoutes, Put, [id, "verify"], 7, role);
  }

  // ---------------------------------------------------------------------
  // Projects
  // ---------------------------------------------------------------------

  datatype ProjectEndpoint =
    | ListProjects | GetProjectById | CreateProjectEndpoint | UpdateProjectEndpoint
    | DeleteProjectEndpoint | AddTeamMemberEndpoint | RemoveTeamMemberEndpoint

  const ProjectRoutes: seq<Route<ProjectEndpoint>> := [
    Route(Get, [], AllRoles, ListProjects),
    Route(Get, [Param], AllRoles, GetProjectById),
    Route(Post, [], {Manager}, CreateProjectEndpoint),
    Route(Put, [Param], {Manager, Developer}, UpdateProjectEndpoint),
    Route(Delete, [Param], {Manager}, DeleteProjectEndpoint),
    Route(Post, [Param, Lit("team")], {Manager}, AddTeamMemberEndpoint),
    Route(Delete, [Param, Lit("team"), Param], {Manager}, RemoveTeamMemberEndpoint)
  ]

  /** The project router's declaration order hides none of its routes. */
  lemma ProjectRoutesReachable()
    ensures NoneShadowed(ProjectRoutes)
  {
    forall k | 0 <= k < |ProjectRoutes|
      ensures Resolve(ProjectRoutes, ProjectRoutes[k].verb, Sample(ProjectRoutes[k].pattern)) == Some(ProjectRoutes[k])
    {
      var path := Sample(ProjectRoutes[k].pattern);
      forall j | 0 <= j < k ensures !Handles(ProjectRoutes[j], ProjectRoutes[k].verb, path) {
      }
      ResolveAt(ProjectRoutes, ProjectRoutes[k].verb, path, k);
    }
  }

  /** Every role may list projects and read one. */
  lemma ProjectReadsOpen(role: Role, id: string)
    requires id != ""
    ensures Dispatch(ProjectRoutes, Get, [], role) == Ok(ListProjects)
    ensures Dispatch(ProjectRoutes, Get, [id], role) == Ok(GetProjectById)
  {
    assert [id][0] == id;
    DispatchAt(ProjectRoutes, Get, [], 0, role);
    DispatchAt(ProjectRoutes, Get, [id], 1, role);
  }

  /** Only a manager creates a project. */
  lemma OnlyManagersCreateProjects(role: Role)
    ensures Dispatch(ProjectRoutes, Post, [], role).Ok? <==> role == Manager
  {
    DispatchAt(ProjectRoutes, Post, [], 2, role);
  }

  /** Managers and developers update projects; nothing checks that the
      developer is on the project's team. */
  lemma UpdateByManagerOrDeveloper(role: Role, id: string)
    requires id != ""
    ensures Dispatch(ProjectRoutes, Put, [id], role).Ok? <==> role in {Manager, Developer}
  {
    assert [id][0] == id;
    DispatchAt(ProjectRoutes, Put, [id], 3, role);
  }

  /** Only a manager deletes a project; admins cannot. */
  lemma OnlyManagersDeleteProjects(role: Role, id: string)
    requires id != ""
    ensures Dispatch(ProjectRoutes, Delete, [id], role).Ok? <==> role == Manager
  {
    assert [id][0] == id;
    DispatchAt(ProjectRoutes, Delete, [id], 4, role);
  }

  /** Only a manager adds or removes team members. */
  lemma OnlyManagersManageTeams(role: Role, id: string, user: string)
    requires id != "" && user != ""
    ensures Dispatch(ProjectRoutes, Post, [id, "team"], role).Ok? <==> role == Manager
    ensures Dispatch(ProjectRoutes, Delete, [id, "team", user], role).Ok? <==> role == Manager
  {
    assert [id, "team"][0] == id && [id, "team"][1] == "team";
    assert [id, "team", user][0] == id && [id, "team", user][1] == "team" && [id, "team", user][2] == user;
    DispatchAt(ProjectRoutes, Post, [id, "team"], 5, role);
    DispatchAt(ProjectRoutes, Delete, [id, "team", user], 6, role);
  }

  /** Only a manager gets through to project creation, so the body's
      manager is always overridden by the caller: the other branch of the
      handler is unreachable. */
  lemma CreatedProjectsManagedByCaller(caller: Caller, body: ProjectFields)
    requires Dispatch(ProjectRoutes, Post, [], caller.role).Ok?
    ensures Projects.CreationFields(body, caller).manager == Some(caller.id)
  {
    OnlyManagersCreateProjects(caller.role);
  }

  // ---------------------------------------------------------------------
  // Users
  // ---------------------------------------------------------------------

  datatype UserEndpoint =
    | ListUsers | UsersByRole | GetUserById | UpdateUserEndpoint | DeleteUserEndpoint | ToggleActive

  const UserRoutes: seq<Route<UserEndpoint>> := [
    Route(Get, [], {Admin, Manager}, ListUsers),
    Route(Get, [Lit("role"), Param], AllRoles, UsersByRole),
    Route(Get, [Param], AllRoles, GetUserById),
    Route(Put, [Param], AllRoles, UpdateUserEndpoint),
    Route(Delete, [Param], {Admin}, DeleteUserEndpoint),
    Route(Put, [Param, Lit("toggle-active")], {Admin}, ToggleActive)
  ]

  /** The user router's declaration order hides none of its routes. */
  lemma UserRoutesReachable()
    ensures NoneShadowed(UserRoutes)
  {
    forall k | 0 <= k < |UserRoutes|
      ensures Resolve(UserRoutes, UserRoutes[k].verb, Sample(UserRoutes[k].pattern)) == Some(UserRoutes[k])
    {
      var path := Sample(UserRoutes[k].pattern);
      forall j | 0 <= j < k ensures !Handles(UserRoutes[j], UserRoutes[k].verb, path) {
      }
      ResolveAt(UserRoutes, UserRoutes[k].verb, path, k);
    }
  }

  /** Only admins and managers list every account. */
  lemma ListUsersByAdminOrManager(role: Role)
    ensures Dispatch(UserRoutes, Get, [], role).Ok? <==> role in {Admin, Manager}
  {
    DispatchAt(UserRoutes, Get, [], 0, role);
  }

  /** Every role may read the directory by role and one account. */
  lemma UserLookupOpen(role: Role, id: string, r: string)
    requires id != "" && r != ""
    ensures Dispatch(UserRoutes, Get, ["role", r], role) == Ok(UsersByRole)
    ensures Dispatch(UserRoutes, Get, [id], role) == Ok(GetUserById)
  {
    assert ["role", r][0] == "role" && ["role", r][1] == r && [id][0] == id;
    DispatchAt(UserRoutes, Get, ["role", r], 1, role);
    DispatchAt(UserRoutes, Get, [id], 2, role);
  }

  /** Any signed-in user may update any account, not only their own. */
  lemma AnyoneUpdatesAnyAccount(role: Role, id: string)
    requires id != ""
    ensures Dispatch(UserRoutes, Put, [id], role) == Ok(UpdateUserEndpoint)
  {
    assert [id][0] == id;
    DispatchAt(UserRoutes, Put, [id], 3, role);
  }

  /** Only an admin deletes an account or toggles its active flag. */
  lemma OnlyAdminsManageAccounts(role: Role, id: string)
    requires id != ""
    ensures Dispatch(UserRoutes, Delete, [id], role).Ok? <==> role == Admin
    ensures Dispatch(UserRoutes, Put, [id, "toggle-active"], role).Ok? <==> role == Admin
  {
    assert [id][0] == id && [id, "toggle-active"][0] == id && [id, "toggle-active"][1] == "toggle-active";
    DispatchAt(UserRoutes, Delete, [id], 4, role);
    DispatchAt(UserRoutes, Put, [id, "toggle-active"], 5, role);
  }
}
