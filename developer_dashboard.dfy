/** The developer's dashboard: the projects whose team includes the
    developer, the kanban board of the developer's bugs, the stat cards and
    the status change a card sends. */
module DeveloperDashboard {
  import opened Common
  import opened Models
  import Projects
  import Bugs

  /** The projects whose team has an entry for the user, in list order;
      the team page lists a member's projects the same way. */
  function MyProjects(projects: seq<Project>, uid: UserId): (r: seq<Project>)
    ensures forall p :: p in r <==> p in projects && Projects.InTeam(p.team, uid)
    ensures |r| <= |projects|
  {
    Filter(projects, (p: Project) => Projects.InTeam(p.team, uid))
  }

  datatype Column = ToDo | Doing | Done

  /** The column a bug's status maps to: closed bugs go to Done alongside
      resolved ones, and a reopened bug has no column. */
  function ColumnOf(s: BugStatus): (c: Option<Column>)
    ensures c == Some(Done) <==> s == Resolved || s == Closed
    ensures c.None? <==> s == Reopened
  {
    match s
    case Open => Some(ToDo)
    case InProgress => Some(Doing)
    case Resolved => Some(Done)
    case Closed => Some(Done)
    case Reopened => None
  }

  function InColumn(c: Column): Bug -> bool
  {
    (b: Bug) => ColumnOf(b.status) == Some(c)
  }

  function HasStatus(s: BugStatus): Bug -> bool
  {
    (b: Bug) => b.status == s
  }

  /** `organizedBugs`: one pass over the bugs, pushing each onto the end of
      its column; a bug without a column is skipped. Each column holds
      exactly its bugs, in input order. */
  method OrganizeBugs(bugs: seq<Bug>) returns (todo: seq<Bug>, doing: seq<Bug>, done: seq<Bug>)
    ensures todo == Filter(bugs, InColumn(ToDo))
    ensures doing == Filter(bugs, InColumn(Doing))
    ensures done == Filter(bugs, InColumn(Done))
  {
    todo, doing, done := [], [], [];
    var i := 0;
    while i < |bugs|
      invariant 0 <= i <= |bugs|
      invariant todo == Filter(bugs[..i], InColumn(ToDo))
      invariant doing == Filter(bugs[..i], InColumn(Doing))
      invariant done == Filter(bugs[..i], InColumn(Done))
    {
      var b := bugs[i];
      FilterSnoc(bugs, i, InColumn(ToDo));
      FilterSnoc(bugs, i, InColumn(Doing));
      FilterSnoc(bugs, i, InColumn(Done));
      match ColumnOf(b.status) {
        case Some(ToDo) => todo := todo + [b];
        case Some(Doing) => doing := doing + [b];
        case Some(Done) => done := done + [b];
        case None =>
      }
      i := i + 1;
    }
    assert bugs[..|bugs|] == bugs;
  }

  /** Every bug lands in exactly one column except the reopened ones, which
      are on no column: the columns and the reopened bugs together account
      for the whole list. */
  lemma {:induction false} ColumnsPartition(bugs: seq<Bug>)
    ensures |Filter(bugs, InColumn(ToDo))| + |Filter(bugs, InColumn(Doing))| + |Filter(bugs, InColumn(Done))|
            + Count(bugs, HasStatus(Reopened)) == |bugs|
  {
    if bugs != [] {
      ColumnsPartition(bugs[..|bugs| - 1]);
    }
  }

  /** A reopened bug is on no column of the board. */
  lemma ReopenedOnNoColumn(bugs: seq<Bug>, b: Bug)
    requires b in bugs && b.status == Reopened
    ensures forall c :: b !in Filter(bugs, InColumn(c))
  {
  }

  /** The three stat cards: every bug the developer sees, those in
      progress, and those resolved. */
  datatype Stats = Stats(total: nat, inProgress: nat, resolved: nat)

  function StatsOf(bugs: seq<Bug>): Stats
  {
    Stats(|bugs|, Count(bugs, HasStatus(InProgress)), Count(bugs, HasStatus(Resolved)))
  }

  /** The Resolved card counts only resolved bugs, while the Done column
      also holds the closed ones: the column exceeds the card by exactly the
      closed bugs, and the In Progress card is the Doing column. */
  lemma {:induction false} DoneColumnExceedsResolvedCard(bugs: seq<Bug>)
    ensures |Filter(bugs, InColumn(Done))| == StatsOf(bugs).resolved + Count(bugs, HasStatus(Closed))
    ensures |Filter(bugs, InColumn(Doing))| == StatsOf(bugs).inProgress
  {
    if bugs != [] {
      DoneColumnExceedsResolvedCard(bugs[..|bugs| - 1]);
    }
  }

  /** Moving a card sends a body with only the new status: the update then
      changes the status, and the resolution time on a first resolution,
      and nothing else. */
  lemma StatusChangeTouchesOnlyStatus(b: Bug, s: BugStatus, now: nat)
    ensures var u := Bugs.Updated(b, Bugs.StatusPatch(s), now);
            u.status == s && u.(status := b.status, resolvedAt := b.resolvedAt) == b
            && (u.resolvedAt != b.resolvedAt ==> s == Resolved && b.status != Resolved)
  {
  }
}
