/** The tester's dashboard: the bugs the tester reported, the status and
    priority filters, the verify buttons and the stat cards. */
module TesterDashboard {
  import opened Common
  import opened Models
  import Bugs
  import DeveloperDashboard

  /** The bugs whose reporter is the user, in list order. */
  function ReportedBy(bugs: seq<Bug>, uid: UserId): (r: seq<Bug>)
    ensures forall b :: b in r <==> b in bugs && b.reporter == uid
    ensures |r| <= |bugs|
  {
    Filter(bugs, (b: Bug) => b.reporter == uid)
  }

  /** A filter selection: everything, or one value. */
  datatype Choice<T> = All | Only(value: T)

  predicate Accepts<T(==)>(c: Choice<T>, x: T)
  {
    c.All? || c.value == x
  }

  /** `filteredBugs`: the bugs matching both the status and the priority
      selection, in list order. */
  function Filtered(bugs: seq<Bug>, status: Choice<BugStatus>, priority: Choice<Priority>): (r: seq<Bug>)
    ensures forall b :: b in r <==> b in bugs && Accepts(status, b.status) && Accepts(priority, b.priority)
    ensures |r| <= |bugs|
  {
    Filter(bugs, (b: Bug) => Accepts(status, b.status) && Accepts(priority, b.priority))
  }

  /** With both selections on "all", the whole list is shown, unchanged and
      in order; and filtering twice with the same selections is filtering
      once. */
  lemma FilteredAllIsIdentity(bugs: seq<Bug>, status: Choice<BugStatus>, priority: Choice<Priority>)
    ensures Filtered(bugs, All, All) == bugs
    ensures Filtered(Filtered(bugs, status, priority), status, priority) == Filtered(bugs, status, priority)
  {
    FilterAll(bugs, (b: Bug) => Accepts(All, b.status) && Accepts(All, b.priority));
    var f := Filtered(bugs, status, priority);
    FilterAll(f, (b: Bug) => Accepts(status, b.status) && Accepts(priority, b.priority));
  }

  /** The verify buttons are shown only on resolved bugs. */
  predicate CanVerify(b: Bug)
  {
    b.status == Resolved
  }

  /** On the tester's own bugs, the buttons are shown exactly when the
      server would accept the verification: closing and reopening succeed
      on a bug with buttons and are refused with 400 on every other. */
  lemma ButtonsMatchServer(bugs: seq<Bug>, tester: Caller, b: Bug)
    requires b in ReportedBy(bugs, tester.id)
    ensures Bugs.Verified(Some(b), tester, "close").Ok? <==> CanVerify(b)
    ensures Bugs.Verified(Some(b), tester, "reopen").Ok? <==> CanVerify(b)
    ensures !CanVerify(b) ==> Bugs.Verified(Some(b), tester, "close") == Err(BadRequest)
  {
  }

  /** The stat cards: reported, open (status open only) and resolved. */
  datatype Stats = Stats(reported: nat, open: nat, resolved: nat)

  function StatsOf(bugs: seq<Bug>): Stats
  {
    Stats(|bugs|, Count(bugs, DeveloperDashboard.HasStatus(Open)),
          Count(bugs, DeveloperDashboard.HasStatus(Resolved)))
  }

  /** The Open and Resolved cards count disjoint bugs, so with the reopened
      ones, which neither card counts, they never exceed the reported
      count. */
  lemma {:induction false} StatCardsBounded(bugs: seq<Bug>)
    ensures StatsOf(bugs).open + StatsOf(bugs).resolved + Count(bugs, DeveloperDashboard.HasStatus(Reopened))
            <= StatsOf(bugs).reported
  {
    if bugs != [] {
      StatCardsBounded(bugs[..|bugs| - 1]);
    }
  }

  /** A bug that is reopened shows on no card but Reported. */
  lemma ReopenedNotOpen(bugs: seq<Bug>)
    requires forall b :: b in bugs ==> b.status == Reopened
    ensures StatsOf(bugs).open == 0 && StatsOf(bugs).resolved == 0
  {
    CountZeroIff(bugs, DeveloperDashboard.HasStatus(Open));
    CountZeroIff(bugs, DeveloperDashboard.HasStatus(Resolved));
  }
}
