/** The bug lifecycle: listing by role, creation by a tester, the permissive
    update with its first-resolution side effect, assignment to a developer,
    the reporter's close-or-reopen verification, lookup and deletion.

    Every handler works on one `BugStore`. The user and project collections
    it reads are passed in as values. Emails and in-app notifications are
    recorded in the store's `effects` log; whether an email goes out is the
    `delivered` oracle, since the mail transport is outside the model. */
module Bugs {
  import opened Common
  import opened Models
  import opened Notifications

  datatype EmailKind = AssignmentEmail | ResolvedEmail | CreatedEmail | ReopenedEmail

  /** Something a handler sent besides its response: an email that went
      out, or an in-app notification it asked the notification store for. */
  datatype Effect =
    | Emailed(kind: EmailKind, to: UserId)
    | Notified(recipient: UserId, note: NotificationData)

  /** One guarded send. The email goes first and the notification follows in
      the same guarded block, so a failed email means no notification. */
  function Sent(kind: EmailKind, to: UserId, note: NotificationData, delivered: bool): (e: seq<Effect>)
    ensures forall x :: x in e ==> (x.Emailed? && x.to == to) || (x.Notified? && x.recipient == to)
    ensures e != [] <==> delivered
  {
    if delivered then [Emailed(kind, to), Notified(to, note)] else []
  }

  /** `Bug.findById` over the stored list. */
  function FindBug(bugs: seq<Bug>, id: BugId): (r: Option<Bug>)
    ensures r.Some? ==> r.value in bugs && r.value.id == id
    ensures r.None? <==> forall b :: b in bugs ==> b.id != id
  {
    match Find(bugs, BugKey, id)
    case None => None
    case Some(i) => Some(bugs[i])
  }

  // ---------------------------------------------------------------------
  // Listing
  // ---------------------------------------------------------------------

  /** The listing query: a developer sees the bugs assigned to them, a
      tester the bugs they reported, an admin or a manager every bug; a
      project filter, when given, narrows any of these. */
  predicate Sees(caller: Caller, project: Option<ProjectId>, b: Bug)
  {
    (caller.role == Developer ==> b.assignedTo == Some(caller.id))
    && (caller.role == Tester ==> b.reporter == caller.id)
    && (project.Some? ==> b.project == project.value)
  }

  function Visible(caller: Caller, project: Option<ProjectId>): Bug -> bool
  {
    (b: Bug) => Sees(caller, project, b)
  }

  // ---------------------------------------------------------------------
  // Creation
  // ---------------------------------------------------------------------

  /** The body as stored: the reporter is always the caller, whatever the
      body says, and the screenshots are the uploaded file names. */
  function CreationFields(body: BugFields, caller: Caller, files: seq<string>): (r: BugFields)
    ensures r.reporter == Some(caller.id) && r.screenshots == Some(files)
    ensures r.(reporter := body.reporter, screenshots := body.screenshots) == body
  {
    body.(reporter := Some(caller.id), screenshots := Some(files))
  }

  /** After a bug is created, the first manager account is emailed and
      notified, provided there is one and the bug's project exists. */
  function CreationEffects(bug: Bug, caller: Caller, users: seq<User>, projects: seq<Project>,
                           delivered: bool): (e: seq<Effect>)
    ensures e != [] ==> FirstWithRole(users, Manager).Some?
    ensures forall x :: x in e ==> (x.Emailed? && x.to == FirstWithRole(users, Manager).value.id)
                                   || (x.Notified? && x.recipient == FirstWithRole(users, Manager).value.id)
  {
    var manager := FirstWithRole(users, Manager);
    var project := FindProject(projects, bug.project);
    if manager.Some? && project.Some? then
      Sent(CreatedEmail, manager.value.id, CreatedNote(bug, caller.name, project.value.name), delivered)
    else []
  }

  // ---------------------------------------------------------------------
  // Update
  // ---------------------------------------------------------------------

  /** The request body of an update: any schema path may be present. An
      `assignedTo` of `Some(None)` clears the assignee. */
  datatype BugPatch = BugPatch(
    title: Option<string>,
    description: Option<string>,
    project: Option<ProjectId>,
    reporter: Option<UserId>,
    assignedTo: Option<Option<UserId>>,
    status: Option<BugStatus>,
    priority: Option<Priority>,
    severity: Option<Severity>,
    issueType: Option<IssueType>,
    screenshots: Option<seq<string>>,
    stepsToReproduce: Option<string>,
    environment: Option<string>,
    resolvedAt: Option<nat>)

  /** A body that sets only the status. */
  function StatusPatch(s: BugStatus): BugPatch
  {
    BugPatch(None, None, None, None, None, Some(s), None, None, None, None, None, None, None)
  }

  /** Copying the body onto the stored bug, path by path, with no check of
      which paths or which status change the caller may make; the title
      setter trims. Identity and creation time are never touched. */
  function Patched(b: Bug, p: BugPatch): (r: Bug)
    ensures r.id == b.id && r.createdAt == b.createdAt
  {
    b.(title := if p.title.Some? then Trim(p.title.value) else b.title,
       description := Get(p.description, b.description),
       project := Get(p.project, b.project),
       reporter := Get(p.reporter, b.reporter),
       assignedTo := Get(p.assignedTo, b.assignedTo),
       status := Get(p.status, b.status),
       priority := Get(p.priority, b.priority),
       severity := Get(p.severity, b.severity),
       issueType := Get(p.issueType, b.issueType),
       screenshots := Get(p.screenshots, b.screenshots),
       stepsToReproduce := if p.stepsToReproduce.Some? then p.stepsToReproduce else b.stepsToReproduce,
       environment := if p.environment.Some? then p.environment else b.environment,
       resolvedAt := if p.resolvedAt.Some? then p.resolvedAt else b.resolvedAt)
  }

  /** The update moves the bug into resolved from another status. */
  predicate FirstResolution(b: Bug, p: BugPatch)
  {
    p.status == Some(Resolved) && b.status != Resolved
  }

  /** The bug after an update at time `now`: the body is applied, and the
      resolution time is stamped exactly when the bug first enters resolved. */
  function Updated(b: Bug, p: BugPatch, now: nat): (r: Bug)
    ensures r.id == b.id && r.createdAt == b.createdAt
    ensures p.status.Some? ==> r.status == p.status.value
    ensures p.status.None? ==> r.status == b.status
    ensures FirstResolution(b, p) ==> r.resolvedAt == Some(now)
    ensures !FirstResolution(b, p) ==> r == Patched(b, p)
    ensures r.(resolvedAt := Patched(b, p).resolvedAt) == Patched(b, p)
  {
    var a := Patched(b, p);
    if FirstResolution(b, p) then a.(resolvedAt := Some(now)) else a
  }

  /** On first resolution the reporter of the updated bug is emailed and
      notified, provided both the reporter and the project exist. */
  function ResolutionEffects(bug: Bug, caller: Caller, users: seq<User>, projects: seq<Project>,
                             delivered: bool): (e: seq<Effect>)
    ensures forall x :: x in e ==> (x.Emailed? && x.to == bug.reporter)
                                   || (x.Notified? && x.recipient == bug.reporter)
  {
    var reporter := FindUser(users, bug.reporter);
    var project := FindProject(projects, bug.project);
    if reporter.Some? && project.Some? then
      Sent(ResolvedEmail, reporter.value.id, ResolvedNote(bug, caller.name), delivered)
    else []
  }

  // ---------------------------------------------------------------------
  // Assignment and verification
  // ---------------------------------------------------------------------

  /** Assignment: 404 for a missing bug, then 404 for a missing user, then
      400 unless the user is a developer; otherwise the bug is assigned to
      that developer and moves to in-progress, whatever its status was. */
  function Assigned(bug: Option<Bug>, assignee: Option<User>): (r: Result<Bug>)
    ensures bug.None? ==> r == Err(NotFound)
    ensures bug.Some? && assignee.None? ==> r == Err(NotFound)
    ensures bug.Some? && assignee.Some? && assignee.value.role != Developer ==> r == Err(BadRequest)
    ensures r.Ok? <==> bug.Some? && assignee.Some? && assignee.value.role == Developer
    ensures r.Ok? ==> r.value.assignedTo == Some(assignee.value.id) && r.value.status == InProgress
                      && r.value.(assignedTo := bug.value.assignedTo, status := bug.value.status) == bug.value
  {
    if bug.None? || assignee.None? then Err(NotFound)
    else if assignee.value.role != Developer then Err(BadRequest)
    else Ok(bug.value.(assignedTo := Some(assignee.value.id), status := InProgress))
  }

  /** Unless the body says `sendEmail: false`, the new assignee is emailed
      and notified, provided the bug's project exists. */
  function AssignmentEffects(bug: Bug, sendEmail: Option<bool>, projects: seq<Project>,
                             delivered: bool): (e: seq<Effect>)
    requires bug.assignedTo.Some?
    ensures sendEmail == Some(false) ==> e == []
    ensures forall x :: x in e ==> (x.Emailed? && x.to == bug.assignedTo.value)
                                   || (x.Notified? && x.recipient == bug.assignedTo.value)
  {
    var project := FindProject(projects, bug.project);
    if sendEmail != Some(false) && project.Some? then
      Sent(AssignmentEmail, bug.assignedTo.value, AssignedNote(bug), delivered)
    else []
  }

  /** Verification by a tester: 404 for a missing bug, 403 unless the caller
      reported it, 400 unless it is resolved, 400 for an action other than
      "close" or "reopen". Only the status changes; the resolution time is
      kept, and no closing time is stored. */
  function Verified(bug: Option<Bug>, caller: Caller, action: string): (r: Result<Bug>)
    ensures bug.None? ==> r == Err(NotFound)
    ensures bug.Some? && bug.value.reporter != caller.id ==> r == Err(Forbidden)
    ensures bug.Some? && bug.value.reporter == caller.id && bug.value.status != Resolved
            ==> r == Err(BadRequest)
    ensures r.Err? ==> r.failure != ServerError
    ensures r.Ok? <==> bug.Some? && bug.value.reporter == caller.id && bug.value.status == Resolved
                       && (action == "close" || action == "reopen")
    ensures r.Ok? ==> r.value.status == (if action == "close" then Closed else Reopened)
                      && r.value.(status := Resolved) == bug.value
  {
    if bug.None? then Err(NotFound)
    else if bug.value.reporter != caller.id then Err(Forbidden)
    else if bug.value.status != Resolved then Err(BadRequest)
    else if action == "close" then Ok(bug.value.(status := Closed))
    else if action == "reopen" then Ok(bug.value.(status := Reopened))
    else Err(BadRequest)
  }

  /** A reopened bug with an assignee: that developer is emailed and
      notified, provided the developer account and the project exist. */
  function ReopenEffects(bug: Bug, caller: Caller, users: seq<User>, projects: seq<Project>,
                         delivered: bool): (e: seq<Effect>)
    ensures bug.assignedTo.None? ==> e == []
    ensures forall x :: x in e ==> (x.Emailed? && Some(x.to) == bug.assignedTo)
                                   || (x.Notified? && Some(x.recipient) == bug.assignedTo)
  {
    if bug.assignedTo.None? then []
    else
      var developer := FindUser(users, bug.assignedTo.value);
      var project := FindProject(projects, bug.project);
      if developer.Some? && project.Some? then
        Sent(ReopenedEmail, developer.value.id, ReopenedNote(bug, caller.name), delivered)
      else []
  }

  // ---------------------------------------------------------------------
  // Properties of the lifecycle
  // ---------------------------------------------------------------------

  /** Resolving an already resolved bug again neither moves its resolution
      time nor sends anything a second time. */
  lemma ResolutionStampedOnce(b: Bug, t1: nat, t2: nat)
    ensures var b1 := Updated(b, StatusPatch(Resolved), t1);
            b1.status == Resolved
            && !FirstResolution(b1, StatusPatch(Resolved))
            && Updated(b1, StatusPatch(Resolved), t2).resolvedAt == b1.resolvedAt
            && (b.status != Resolved ==> b1.resolvedAt == Some(t1))
  {
  }

  /** The update accepts every status from every status: nothing in it
      enforces the lifecycle that the dashboards follow. */
  lemma UpdateAllowsAnyTransition(b: Bug, s: BugStatus, now: nat)
    ensures Updated(b, StatusPatch(s), now).status == s
    ensures Updated(b, StatusPatch(s), now).assignedTo == b.assignedTo
  {
  }

  /** The end-to-end lifecycle: assigned to a developer, resolved at time
      `t`, then reopened by its reporter. The bug ends reopened, still
      assigned, and keeps the resolution time; closing instead ends it
      closed. */
  lemma Lifecycle(b: Bug, dev: User, tester: Caller, t: nat)
    requires dev.role == Developer && b.reporter == tester.id
    ensures Assigned(Some(b), Some(dev)).Ok?
    ensures var b1 := Assigned(Some(b), Some(dev)).value;
            var b2 := Updated(b1, StatusPatch(Resolved), t);
            var reopened := Verified(Some(b2), tester, "reopen");
            var closed := Verified(Some(b2), tester, "close");
            reopened.Ok? && reopened.value.status == Reopened
            && reopened.value.assignedTo == Some(dev.id) && reopened.value.resolvedAt == Some(t)
            && closed.Ok? && closed.value.status == Closed && closed.value.resolvedAt == Some(t)
  {
    var b1 := Assigned(Some(b), Some(dev)).value;
    assert b1.status == InProgress;
    var b2 := Updated(b1, StatusPatch(Resolved), t);
    assert FirstResolution(b1, StatusPatch(Resolved));
    assert b2.reporter == b.reporter;
  }

  /** Replacing one bug by a savable one keeps every stored bug savable. */
  lemma ReplaceSavable(bugs: seq<Bug>, i: nat, x: Bug)
    requires i < |bugs| && Savable(x) && forall b :: b in bugs ==> Savable(b)
    ensures forall b :: b in bugs[i := x] ==> Savable(b)
  {
    forall b | b in bugs[i := x] ensures Savable(b) {
      var k :| 0 <= k < |bugs| && bugs[i := x][k] == b;
      if k != i { assert bugs[k] == b; }
    }
  }

  // ---------------------------------------------------------------------
  // The store
  // ---------------------------------------------------------------------

  class BugStore {
    var bugs: seq<Bug>
    var nextId: nat
    var effects: seq<Effect>

    /** Ids are distinct and below the next one, the list is in creation
        order, and every stored bug passed the schema's required checks. */
    ghost predicate Valid()
      reads this
    {
      DistinctKeys(bugs, BugKey) && KeysBelow(bugs, BugKey, nextId) && Chronological(bugs, BugTime)
      && forall b :: b in bugs ==> Savable(b)
    }

    constructor()
      ensures Valid() && bugs == [] && nextId == 0 && effects == []
    {
      bugs := [];
      nextId := 0;
      effects := [];
    }

    /** `getBugs`: the bugs the caller's role lets them see, newest first. */
    method GetBugs(caller: Caller, project: Option<ProjectId>) returns (r: seq<Bug>)
      requires Valid()
      ensures r == Reverse(Filter(bugs, Visible(caller, project)))
      ensures NewestFirst(r, BugTime)
      ensures forall b :: b in r <==> b in bugs && Sees(caller, project, b)
    {
      var p := Visible(caller, project);
      r := [];
      var i := 0;
      while i < |bugs|
        invariant 0 <= i <= |bugs|
        invariant r == Reverse(Filter(bugs[..i], p))
      {
        FilterSnoc(bugs, i, p);
        if p(bugs[i]) {
          ReverseSnoc(Filter(bugs[..i], p), bugs[i]);
          r := [bugs[i]] + r;
        }
        i := i + 1;
      }
      assert bugs[..i] == bugs;
      FilterChronological(bugs, p, BugTime);
      ReverseNewestFirst(Filter(bugs, p), BugTime);
      ReverseMembers(Filter(bugs, p));
    }

    /** `getBugById`. */
    method GetBug(id: BugId) returns (r: Result<Bug>)
      requires Valid()
      ensures r.Ok? <==> exists b :: b in bugs && b.id == id
      ensures r.Ok? ==> r.value in bugs && r.value.id == id
      ensures r.Err? ==> r.failure == NotFound
    {
      var b := FindBug(bugs, id);
      if b.None? {
        return Err(NotFound);
      }
      r := Ok(b.value);
    }

    /** `createBug`: stores the bug reported by the caller, then tells the
        first manager. A notification that cannot be sent never undoes the
        creation. */
    method CreateBug(caller: Caller, body: BugFields, files: seq<string>, users: seq<User>,
                     projects: seq<Project>, now: nat, delivered: bool) returns (r: Result<Bug>)
      requires Valid() && now >= Latest(bugs, BugTime)
      modifies this
      ensures Valid()
      ensures r == MakeBug(old(nextId), CreationFields(body, caller, files), now)
      ensures r.Ok? <==> body.title.Some? && Trim(body.title.value) != "" && Truthy(body.description)
                         && body.project.Some?
      ensures r.Ok? ==> r.value.reporter == caller.id && r.value.screenshots == files
      ensures r.Ok? ==> bugs == old(bugs) + [r.value] && nextId == old(nextId) + 1
                        && effects == old(effects) + CreationEffects(r.value, caller, users, projects, delivered)
      ensures r.Err? ==> bugs == old(bugs) && nextId == old(nextId) && effects == old(effects)
    {
      r := MakeBug(nextId, CreationFields(body, caller, files), now);
      if r.Err? {
        return;
      }
      AppendKeeps(bugs, r.value, BugKey, BugTime, nextId);
      bugs := bugs + [r.value];
      nextId := nextId + 1;
      effects := effects + CreationEffects(r.value, caller, users, projects, delivered);
    }

    /** `updateBug`: 404 for a missing bug; otherwise the body is applied and,
        on first resolution, the reporter is told before the bug is saved.
        A body that empties the title or description fails the save with
        500 and leaves the bug as it was, although the resolution notice
        has already been sent. */
    method UpdateBug(caller: Caller, id: BugId, patch: BugPatch, users: seq<User>,
                     projects: seq<Project>, now: nat, delivered: bool) returns (r: Result<Bug>)
      requires Valid()
      modifies this
      ensures Valid() && nextId == old(nextId)
      ensures match Find(old(bugs), BugKey, id)
        case None => r == Err(NotFound) && bugs == old(bugs) && effects == old(effects)
        case Some(i) =>
          var u := Updated(old(bugs)[i], patch, now);
          effects == old(effects)
                     + (if FirstResolution(old(bugs)[i], patch)
                        then ResolutionEffects(u, caller, users, projects, delivered) else [])
          && (if Savable(u) then r == Ok(u) && bugs == old(bugs)[i := u]
              else r == Err(ServerError) && bugs == old(bugs))
    {
      var i := Find(bugs, BugKey, id);
      if i.None? {
        return Err(NotFound);
      }
      var b := bugs[i.value];
      var u := Updated(b, patch, now);
      if FirstResolution(b, patch) {
        effects := effects + ResolutionEffects(u, caller, users, projects, delivered);
      }
      if !Savable(u) {
        return Err(ServerError);
      }
      ReplaceSavable(bugs, i.value, u);
      ReplaceKeeps(bugs, i.value, u, BugKey, BugTime, nextId);
      bugs := bugs[i.value := u];
      r := Ok(u);
    }

    /** `deleteBug`: 404 for a missing bug, otherwise it is removed. */
    method DeleteBug(id: BugId) returns (r: Result<()>)
      requires Valid()
      modifies this
      ensures Valid() && nextId == old(nextId) && effects == old(effects)
      ensures match Find(old(bugs), BugKey, id)
        case None => r == Err(NotFound) && bugs == old(bugs)
        case Some(i) => r == Ok(()) && bugs == RemoveAt(old(bugs), i)
    {
      var i := Find(bugs, BugKey, id);
      if i.None? {
        return Err(NotFound);
      }
      RemoveAtKeeps(bugs, i.value, BugKey, BugTime, nextId);
      bugs := RemoveAt(bugs, i.value);
      r := Ok(());
    }

    /** `assignBug`: assigns the bug to a developer (an absent `userId`
        finds no user), saves it, then tells the developer unless the body
        says not to. */
    method AssignBug(id: BugId, userId: Option<UserId>, sendEmail: Option<bool>, users: seq<User>,
                     projects: seq<Project>, delivered: bool) returns (r: Result<Bug>)
      requires Valid()
      modifies this
      ensures Valid() && nextId == old(nextId)
      ensures r == Assigned(FindBug(old(bugs), id),
                            if userId.Some? then FindUser(users, userId.value) else None)
      ensures r.Err? ==> bugs == old(bugs) && effects == old(effects)
      ensures match Find(old(bugs), BugKey, id)
        case None => r.Err?
        case Some(i) =>
          r.Ok? ==> bugs == old(bugs)[i := r.value]
                    && effects == old(effects) + AssignmentEffects(r.value, sendEmail, projects, delivered)
    {
      var i := Find(bugs, BugKey, id);
      var assignee := if userId.Some? then FindUser(users, userId.value) else None;
      if i.None? {
        return Assigned(None, assignee);
      }
      r := Assigned(Some(bugs[i.value]), assignee);
      if r.Err? {
        return;
      }
      assert bugs[i.value] in bugs;
      assert r.value.title == bugs[i.value].title && r.value.description == bugs[i.value].description;
      ReplaceSavable(bugs, i.value, r.value);
      ReplaceKeeps(bugs, i.value, r.value, BugKey, BugTime, nextId);
      bugs := bugs[i.value := r.value];
      effects := effects + AssignmentEffects(r.value, sendEmail, projects, delivered);
    }

    /** `verifyBug`: the reporter closes or reopens a resolved bug; a
        reopened bug's developer is told. */
    method VerifyBug(caller: Caller, id: BugId, action: string, users: seq<User>,
                     projects: seq<Project>, delivered: bool) returns (r: Result<Bug>)
      requires Valid()
      modifies this
      ensures Valid() && nextId == old(nextId)
      ensures r == Verified(FindBug(old(bugs), id), caller, action)
      ensures r.Err? ==> bugs == old(bugs) && effects == old(effects)
      ensures match Find(old(bugs), BugKey, id)
        case None => r.Err?
        case Some(i) =>
          r.Ok? ==> bugs == old(bugs)[i := r.value]
                    && effects == old(effects)
                                   + (if action == "reopen"
                                      then ReopenEffects(r.value, caller, users, projects, delivered) else [])
    {
      var i := Find(bugs, BugKey, id);
      if i.None? {
        return Verified(None, caller, action);
      }
      r := Verified(Some(bugs[i.value]), caller, action);
      if r.Err? {
        return;
      }
      assert bugs[i.value] in bugs;
      assert r.value.title == bugs[i.value].title && r.value.description == bugs[i.value].description;
      ReplaceSavable(bugs, i.value, r.value);
      ReplaceKeeps(bugs, i.value, r.value, BugKey, BugTime, nextId);
      bugs := bugs[i.value := r.value];
      if action == "reopen" {
        effects := effects + ReopenEffects(r.value, caller, users, projects, delivered);
      }
    }
  }
}
