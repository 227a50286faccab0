/** Projects and their teams: creation with the manager forced to a
    managing caller, the validated update, deletion, and the team
    operations. Adding a member refuses a user already on the team, so a
    team that starts without repeated users keeps none; removing a member
    drops every entry for that user. */
module Projects {
  import opened Common
  import opened Models

  // ---------------------------------------------------------------------
  // Teams
  // ---------------------------------------------------------------------

  /** Some entry of the team names the user. */
  predicate InTeam(team: seq<TeamEntry>, u: UserId)
  {
    exists e :: e in team && e.user == u
  }

  /** No user appears twice in the team. */
  ghost predicate UniqueMembers(team: seq<TeamEntry>)
  {
    forall i, j :: 0 <= i < j < |team| ==> team[i].user != team[j].user
  }

  function NotMember(u: UserId): TeamEntry -> bool
  {
    (e: TeamEntry) => e.user != u
  }

  /** The team without any entry for the user, in the same order. */
  function WithoutMember(team: seq<TeamEntry>, u: UserId): (r: seq<TeamEntry>)
    ensures !InTeam(r, u)
    ensures forall e :: e in r <==> e in team && e.user != u
  {
    Filter(team, NotMember(u))
  }

  /** Adding a user who is not on the team keeps its users unique, and the
      user is then on it. */
  lemma AddKeepsUnique(team: seq<TeamEntry>, e: TeamEntry)
    requires UniqueMembers(team) && !InTeam(team, e.user)
    ensures UniqueMembers(team + [e]) && InTeam(team + [e], e.user)
  {
    var t := team + [e];
    assert t[|team|] == e;
    forall i, j | 0 <= i < j < |t| ensures t[i].user != t[j].user {
      if j == |team| { assert t[i] in team; }
    }
  }

  /** Removing a user keeps the team's users unique. */
  lemma {:induction false} RemoveKeepsUnique(team: seq<TeamEntry>, u: UserId)
    requires UniqueMembers(team)
    ensures UniqueMembers(WithoutMember(team, u))
  {
    if team != [] {
      var init := team[..|team| - 1];
      var last := team[|team| - 1];
      assert UniqueMembers(init);
      RemoveKeepsUnique(init, u);
      var rest := WithoutMember(init, u);
      assert WithoutMember(team, u) == rest + (if last.user != u then [last] else []);
      if last.user != u {
        assert forall x :: x in rest ==> x in init;
        forall k | 0 <= k < |init| ensures init[k].user != last.user {
          assert team[k] == init[k];
        }
        AddKeepsUnique(rest, last);
      }
    }
  }

  /** Adding a user who was not on the team and then removing them gives
      back the team as it was. */
  lemma AddThenRemove(team: seq<TeamEntry>, e: TeamEntry)
    requires !InTeam(team, e.user)
    ensures WithoutMember(team + [e], e.user) == team
  {
    var p := NotMember(e.user);
    assert (team + [e])[..|team|] == team;
    assert Filter(team + [e], p) == Filter(team, p);
    forall x | x in team ensures p(x) {
    }
    FilterAll(team, p);
  }

  // ---------------------------------------------------------------------
  // Creation and update
  // ---------------------------------------------------------------------

  /** The body as stored: a manager always manages the project they create;
      any other caller's body names the manager. */
  function CreationFields(body: ProjectFields, caller: Caller): (r: ProjectFields)
    ensures caller.role == Manager ==> r.manager == Some(caller.id)
    ensures caller.role != Manager ==> r == body
    ensures r.(manager := body.manager) == body
  {
    body.(manager := if caller.role == Manager then Some(caller.id) else body.manager)
  }

  /** The update validators: every path the body sets must pass its schema
      check. */
  predicate PatchValid(f: ProjectFields)
  {
    (f.name.Some? ==> Trim(f.name.value) != "")
    && (f.description.Some? ==> f.description.value != "")
    && (f.progress.Some? ==> ProgressInRange(f.progress.value))
  }

  /** The stored project with the body's paths applied; the name setter
      trims. Identity and creation time are never touched. */
  function Patched(p: Project, f: ProjectFields): (r: Project)
    ensures r.id == p.id && r.createdAt == p.createdAt
    ensures PatchValid(f) && ProjectSavable(p) ==> ProjectSavable(r)
  {
    p.(name := if f.name.Some? then Trim(f.name.value) else p.name,
       description := Get(f.description, p.description),
       manager := Get(f.manager, p.manager),
       team := Get(f.team, p.team),
       status := Get(f.status, p.status),
       priority := Get(f.priority, p.priority),
       startDate := Get(f.startDate, p.startDate),
       endDate := if f.endDate.Some? then f.endDate else p.endDate,
       progress := Get(f.progress, p.progress))
  }

  /** A body that passes validation never takes progress out of range. */
  lemma PatchKeepsProgress(p: Project, f: ProjectFields)
    requires ProgressInRange(p.progress)
    ensures ProgressInRange(Patched(p, f).progress) <==>
            (f.progress.Some? ==> ProgressInRange(f.progress.value))
  {
  }

  // ---------------------------------------------------------------------
  // The store
  // ---------------------------------------------------------------------

  class ProjectStore {
    var projects: seq<Project>
    var nextId: nat
    /** The users sent a project-assignment email, in order. */
    var invited: seq<UserId>

    ghost predicate Valid()
      reads this
    {
      DistinctKeys(projects, ProjectKey) && KeysBelow(projects, ProjectKey, nextId)
      && Chronological(projects, ProjectTime)
      && forall p :: p in projects ==> ProjectSavable(p)
    }

    constructor()
      ensures Valid() && projects == [] && nextId == 0 && invited == []
    {
      projects := [];
      nextId := 0;
      invited := [];
    }

    /** `getProjectById`. */
    method GetProject(id: ProjectId) returns (r: Result<Project>)
      requires Valid()
      ensures r.Ok? <==> exists p :: p in projects && p.id == id
      ensures r.Ok? ==> r.value in projects && r.value.id == id
      ensures r.Err? ==> r.failure == NotFound
    {
      var p := FindProject(projects, id);
      if p.None? {
        return Err(NotFound);
      }
      r := Ok(p.value);
    }

    /** `createProject`. */
    method CreateProject(caller: Caller, body: ProjectFields, now: nat) returns (r: Result<Project>)
      requires Valid() && now >= Latest(projects, ProjectTime)
      modifies this
      ensures Valid() && invited == old(invited)
      ensures r == MakeProject(old(nextId), CreationFields(body, caller), now)
      ensures r.Ok? && caller.role == Manager ==> r.value.manager == caller.id
      ensures r.Ok? ==> projects == old(projects) + [r.value] && nextId == old(nextId) + 1
      ensures r.Err? ==> projects == old(projects) && nextId == old(nextId)
    {
      r := MakeProject(nextId, CreationFields(body, caller), now);
      if r.Err? {
        return;
      }
      AppendKeeps(projects, r.value, ProjectKey, ProjectTime, nextId);
      projects := projects + [r.value];
      nextId := nextId + 1;
    }

    /** `updateProject`: the body is validated first (500), then the project
        is looked up (404); no check of who the caller is beyond the route's
        roles. */
    method UpdateProject(id: ProjectId, body: ProjectFields) returns (r: Result<Project>)
      requires Valid()
      modifies this
      ensures Valid() && nextId == old(nextId) && invited == old(invited)
      ensures !PatchValid(body) ==> r == Err(ServerError) && projects == old(projects)
      ensures PatchValid(body) ==>
        match Find(old(projects), ProjectKey, id)
        case None => r == Err(NotFound) && projects == old(projects)
        case Some(i) => r == Ok(Patched(old(projects)[i], body))
                        && projects == old(projects)[i := r.value]
    {
      if !PatchValid(body) {
        return Err(ServerError);
      }
      var i := Find(projects, ProjectKey, id);
      if i.None? {
        return Err(NotFound);
      }
      var q := Patched(projects[i.value], body);
      assert projects[i.value] in projects;
      ReplaceSavable(projects, i.value, q);
      ReplaceKeeps(projects, i.value, q, ProjectKey, ProjectTime, nextId);
      projects := projects[i.value := q];
      r := Ok(q);
    }

    /** `deleteProject`: the project goes; bugs that name it are left as
        they are. */
    method DeleteProject(id: ProjectId) returns (r: Result<()>)
      requires Valid()
      modifies this
      ensures Valid() && nextId == old(nextId) && invited == old(invited)
      ensures match Find(old(projects), ProjectKey, id)
        case None => r == Err(NotFound) && projects == old(projects)
        case Some(i) => r == Ok(()) && projects == RemoveAt(old(projects), i)
    {
      var i := Find(projects, ProjectKey, id);
      if i.None? {
        return Err(NotFound);
      }
      RemoveAtKeeps(projects, i.value, ProjectKey, ProjectTime, nextId);
      projects := RemoveAt(projects, i.value);
      r := Ok(());
    }

    /** `addTeamMember`: 404 for a missing project, 400 for a user already
        on the team, 500 when the role is not one of the two team roles.
        The user's account is not checked: an unknown id joins the team and
        only the email is skipped. */
    method AddTeamMember(id: ProjectId, userId: UserId, role: RequestedRole, sendEmail: Option<bool>,
                         users: seq<User>, delivered: bool) returns (r: Result<Project>)
      requires Valid()
      modifies this
      ensures Valid() && nextId == old(nextId)
      ensures r.Err? ==> projects == old(projects) && invited == old(invited)
      ensures match Find(old(projects), ProjectKey, id)
        case None => r == Err(NotFound)
        case Some(i) =>
          var p := old(projects)[i];
          if InTeam(p.team, userId) then r == Err(BadRequest)
          else if ValidateRole(role).Err? then r == Err(ServerError)
          else
            var q := p.(team := p.team + [TeamEntry(userId, ValidateRole(role).value)]);
            r == Ok(q) && projects == old(projects)[i := q]
            && invited == old(invited)
                          + (if sendEmail != Some(false) && FindUser(users, userId).Some? && delivered
                             then [userId] else [])
            && InTeam(q.team, userId)
            && (UniqueMembers(p.team) ==> UniqueMembers(q.team))
    {
      var i := Find(projects, ProjectKey, id);
      if i.None? {
        return Err(NotFound);
      }
      var p := projects[i.value];
      if InTeam(p.team, userId) {
        return Err(BadRequest);
      }
      var tr := ValidateRole(role);
      if tr.Err? {
        return Err(ServerError);
      }
      var entry := TeamEntry(userId, tr.value);
      var q := p.(team := p.team + [entry]);
      if UniqueMembers(p.team) {
        AddKeepsUnique(p.team, entry);
      }
      assert q.team[|p.team|] == entry;
      assert p in projects;
      ReplaceSavable(projects, i.value, q);
      ReplaceKeeps(projects, i.value, q, ProjectKey, ProjectTime, nextId);
      projects := projects[i.value := q];
      if sendEmail != Some(false) && FindUser(users, userId).Some? && delivered {
        invited := invited + [userId];
      }
      r := Ok(q);
    }

    /** `removeTeamMember`: 404 for a missing project; otherwise every entry
        for the user goes, and removing someone who is not on the team
        changes nothing. */
    method RemoveTeamMember(id: ProjectId, userId: UserId) returns (r: Result<Project>)
      requires Valid()
      modifies this
      ensures Valid() && nextId == old(nextId) && invited == old(invited)
      ensures match Find(old(projects), ProjectKey, id)
        case None => r == Err(NotFound) && projects == old(projects)
        case Some(i) =>
          var p := old(projects)[i];
          var q := p.(team := WithoutMember(p.team, userId));
          r == Ok(q) && projects == old(projects)[i := q]
          && !InTeam(q.team, userId)
          && (UniqueMembers(p.team) ==> UniqueMembers(q.team))
          && (!InTeam(p.team, userId) ==> q == p)
    {
      var i := Find(projects, ProjectKey, id);
      if i.None? {
        return Err(NotFound);
      }
      var p := projects[i.value];
      var q := p.(team := WithoutMember(p.team, userId));
      if UniqueMembers(p.team) {
        RemoveKeepsUnique(p.team, userId);
      }
      if !InTeam(p.team, userId) {
        forall e | e in p.team ensures NotMember(userId)(e) {
        }
        FilterAll(p.team, NotMember(userId));
      }
      assert p in projects;
      ReplaceSavable(projects, i.value, q);
      ReplaceKeeps(projects, i.value, q, ProjectKey, ProjectTime, nextId);
      projects := projects[i.value := q];
      r := Ok(q);
    }
  }

  /** Replacing one project by a savable one keeps every stored project
      savable. */
  lemma ReplaceSavable(projects: seq<Project>, i: nat, x: Project)
    requires i < |projects| && ProjectSavable(x) && forall p :: p in projects ==> ProjectSavable(p)
    ensures forall p :: p in projects[i := x] ==> ProjectSavable(p)
  {
    forall p | p in projects[i := x] ensures ProjectSavable(p) {
      var k :| 0 <= k < |projects| && projects[i := x][k] == p;
      if k != i { assert projects[k] == p; }
    }
  }
}
