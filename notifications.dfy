/** The notification controller: the paginated listing, the unread count,
    marking one or all notifications read and deleting one, every one of them
    scoped to the caller as recipient; the internal `createNotification`
    that never fails (it answers "nothing" instead); and the four builders
    the bug handlers call on assignment, resolution, creation and reopening. */
module Notifications {
  import opened Common
  import opened Models

  // ---------------------------------------------------------------------
  // Pagination arithmetic
  // ---------------------------------------------------------------------

  /** `parseInt(q) || fallback`. `None` stands for a query parameter that is
      absent or does not parse (NaN); NaN and 0 are falsy, so both give the
      fallback, while any other number, negative ones included, is kept. */
  function ParamOr(q: Option<int>, fallback: int): (v: int)
    ensures (q.None? || q.value == 0) ==> v == fallback
    ensures (q.Some? && q.value != 0) ==> v == q.value
  {
    if q.None? || q.value == 0 then fallback else q.value
  }

  function PageParam(q: Option<int>): int { ParamOr(q, 1) }

  function LimitParam(q: Option<int>): int { ParamOr(q, 20) }

  /** `(page - 1) * limit` */
  function SkipOf(page: int, limit: int): int { (page - 1) * limit }

  /** `Math.ceil(total / limit)` for a non-zero limit. */
  function CeilDiv(total: nat, limit: int): (c: int)
    requires limit != 0
    ensures limit > 0 ==> (c - 1) * limit < total <= c * limit
    ensures limit > 0 ==> c >= 0
    ensures limit < 0 ==> c == -(total / -limit)
  {
    if limit > 0 then (total + limit - 1) / limit else -(total / -limit)
  }

  /** With the defaults, page 1 starts at the first notification and holds
      at most 20. */
  lemma DefaultPagination()
    ensures PageParam(None) == 1 && LimitParam(None) == 20
    ensures PageParam(Some(0)) == 1 && LimitParam(Some(0)) == 20
    ensures SkipOf(PageParam(None), LimitParam(None)) == 0
  {
  }

  /** For positive page and limit, consecutive pages start `limit` apart and
      the page count covers every notification. */
  lemma PagesTile(page: int, limit: int, total: nat)
    requires page >= 1 && limit >= 1
    ensures SkipOf(page + 1, limit) == SkipOf(page, limit) + limit
    ensures SkipOf(page, limit) >= 0
    ensures total <= CeilDiv(total, limit) * limit
    ensures page > CeilDiv(total, limit) ==> SkipOf(page, limit) >= total
  {
    assert page * limit == (page - 1) * limit + limit;
    var c := CeilDiv(total, limit);
    if page > c {
      var d := page - 1 - c;
      assert (page - 1) * limit == c * limit + d * limit;
      assert d * limit >= 0;
    }
  }

  // ---------------------------------------------------------------------
  // Event builders
  // ---------------------------------------------------------------------

  /** Assignment: type bug_assigned, the bug's own priority. The source's
      `bug.priority || 'medium'` fallback never applies to a stored bug,
      whose priority is always set. */
  function AssignedNote(bug: Bug): (d: NotificationData)
    ensures d.ntype == BugAssigned && d.priority == Some(bug.priority)
    ensures d.relatedBug == Some(bug.id) && d.relatedProject.None?
  {
    NotificationData("New Bug Assigned", "You have been assigned the bug: " + bug.title,
                     BugAssigned, Some(bug.id), None, Some("/developer/dashboard"), Some(bug.priority))
  }

  /** Resolution: type bug_resolved, always medium priority. */
  function ResolvedNote(bug: Bug, resolvedBy: string): (d: NotificationData)
    ensures d.ntype == BugResolved && d.priority == Some(Medium)
    ensures d.relatedBug == Some(bug.id) && d.relatedProject.None?
  {
    NotificationData("Bug Resolved",
                     "Your bug \"" + bug.title + "\" has been resolved by " + resolvedBy,
                     BugResolved, Some(bug.id), None, Some("/tester/dashboard"), Some(Medium))
  }

  /** Creation: type bug_created, the bug's own priority. */
  function CreatedNote(bug: Bug, reporterName: string, projectName: string): (d: NotificationData)
    ensures d.ntype == BugCreated && d.priority == Some(bug.priority)
    ensures d.relatedBug == Some(bug.id) && d.relatedProject.None?
  {
    NotificationData("New Bug Reported",
                     "New bug \"" + bug.title + "\" reported by " + reporterName + " in project " + projectName,
                     BugCreated, Some(bug.id), None, Some("/manager/bugs"), Some(bug.priority))
  }

  /** Reopening: type bug_reopened, always high priority. */
  function ReopenedNote(bug: Bug, testerName: string): (d: NotificationData)
    ensures d.ntype == BugReopened && d.priority == Some(High)
    ensures d.relatedBug == Some(bug.id) && d.relatedProject.None?
  {
    NotificationData("Bug Reopened",
                     "Bug \"" + bug.title + "\" has been reopened by " + testerName,
                     BugReopened, Some(bug.id), None, Some("/developer/dashboard"), Some(High))
  }

  /** The builders always produce a notification the schema accepts, so a
      built notification is lost only when the store itself fails. */
  lemma BuiltNotesValidate(bug: Bug, name: string, projectName: string, id: nat, to: UserId, now: nat)
    ensures MakeNotification(id, to, AssignedNote(bug), now).Ok?
    ensures MakeNotification(id, to, ResolvedNote(bug, name), now).Ok?
    ensures MakeNotification(id, to, CreatedNote(bug, name, projectName), now).Ok?
    ensures MakeNotification(id, to, ReopenedNote(bug, name), now).Ok?
  {
    NotBlank("New Bug Assigned");
    NotBlank("Bug Resolved");
    NotBlank("New Bug Reported");
    NotBlank("Bug Reopened");
  }

  /** A title that starts with a non-space character survives trimming. */
  lemma NotBlank(t: string)
    requires t != [] && !IsSpace(t[0])
    ensures Trim(t) != ""
  {
    TrimEmptyIff(t);
  }

  // ---------------------------------------------------------------------
  // The notification store
  // ---------------------------------------------------------------------

  /** The caller's unread notifications. */
  function UnreadFor(uid: UserId): Notification -> bool
  {
    (n: Notification) => n.recipient == uid && !n.isRead
  }

  function AddressedTo(uid: UserId): Notification -> bool
  {
    (n: Notification) => n.recipient == uid
  }

  /** The listing answer of `getNotifications`. */
  datatype NotificationPage = NotificationPage(
    notifications: seq<Notification>,
    unreadCount: nat,
    currentPage: int,
    totalPages: int)

  /** The state after `updateMany({recipient, isRead: false}, {isRead: true})`. */
  function AllReadFor(ns: seq<Notification>, uid: UserId): (r: seq<Notification>)
    ensures |r| == |ns|
    ensures forall i :: 0 <= i < |ns| ==>
              r[i] == if ns[i].recipient == uid then ns[i].(isRead := true) else ns[i]
  {
    seq(|ns|, i requires 0 <= i < |ns| =>
      if ns[i].recipient == uid then ns[i].(isRead := true) else ns[i])
  }

  /** Marking all read leaves the caller nothing unread, touches no other
      recipient's notifications, and a second call changes nothing. */
  lemma AllReadForProperties(ns: seq<Notification>, uid: UserId)
    ensures Count(AllReadFor(ns, uid), UnreadFor(uid)) == 0
    ensures forall i :: 0 <= i < |ns| && ns[i].recipient != uid ==> AllReadFor(ns, uid)[i] == ns[i]
    ensures AllReadFor(AllReadFor(ns, uid), uid) == AllReadFor(ns, uid)
  {
    var r := AllReadFor(ns, uid);
    FilterNone(r, UnreadFor(uid));
  }

  class NotificationStore {
    var notifications: seq<Notification>
    var nextId: nat

    ghost predicate Valid()
      reads this
    {
      DistinctKeys(notifications, NotificationKey)
      && KeysBelow(notifications, NotificationKey, nextId)
      && Chronological(notifications, NotificationTime)
    }

    constructor ()
      ensures Valid() && notifications == []
    {
      notifications := [];
      nextId := 0;
    }

    /** `getNotifications`: the caller's notifications newest first, `skip`
        of them passed over and at most `|limit|` returned; the caller's
        unread count; the page asked for; and the ceiling of total over
        limit. A negative skip is refused by the store (500). */
    method GetNotifications(caller: Caller, pageQuery: Option<int>, limitQuery: Option<int>)
      returns (r: Result<NotificationPage>)
      requires Valid()
      ensures var page, limit := PageParam(pageQuery), LimitParam(limitQuery);
              var skip := SkipOf(page, limit);
              var mine := Reverse(Filter(notifications, AddressedTo(caller.id)));
              if skip < 0 then r == Err(ServerError)
              else r.Ok?
                   && r.value.notifications == Page(mine, skip, if limit < 0 then -limit else limit)
                   && r.value.unreadCount == Count(notifications, UnreadFor(caller.id))
                   && r.value.currentPage == page
                   && r.value.totalPages == CeilDiv(|mine|, limit)
      ensures r.Ok? ==> NewestFirst(r.value.notifications, NotificationTime)
      ensures r.Ok? ==> forall n :: n in r.value.notifications ==> n in notifications && n.recipient == caller.id
    {
      var page, limit := PageParam(pageQuery), LimitParam(limitQuery);
      var skip := SkipOf(page, limit);
      if skip < 0 {
        return Err(ServerError);
      }
      var filtered := Filter(notifications, AddressedTo(caller.id));
      var mine := Reverse(filtered);
      FilterChronological(notifications, AddressedTo(caller.id), NotificationTime);
      ReverseNewestFirst(filtered, NotificationTime);
      var shown := Page(mine, skip, if limit < 0 then -limit else limit);
      PageNewestFirst(mine, skip, if limit < 0 then -limit else limit, NotificationTime);
      ReverseMembers(filtered);
      r := Ok(NotificationPage(shown, Count(notifications, UnreadFor(caller.id)), page,
                               CeilDiv(|mine|, limit)));
    }

    /** `getUnreadCount`: how many of the caller's notifications are unread. */
    function UnreadCount(caller: Caller): (n: nat)
      reads this
      ensures n <= |notifications|
      ensures n == 0 <==> forall k :: 0 <= k < |notifications| ==>
                             notifications[k].recipient != caller.id || notifications[k].isRead
    {
      CountZeroIff(notifications, UnreadFor(caller.id));
      Count(notifications, UnreadFor(caller.id))
    }

    /** `markAsRead`: only a notification with that id addressed to the
        caller is marked; anything else is 404 and nothing changes. */
    method MarkAsRead(caller: Caller, id: nat) returns (r: Result<Notification>)
      requires Valid()
      modifies this
      ensures Valid() && nextId == old(nextId)
      ensures var i := Find(old(notifications), NotificationKey, id);
              if i.None? || old(notifications)[i.value].recipient != caller.id then
                r == Err(NotFound) && notifications == old(notifications)
              else
                var n := old(notifications)[i.value].(isRead := true);
                r == Ok(n) && notifications == old(notifications)[i.value := n]
    {
      var i := Find(notifications, NotificationKey, id);
      if i.None? || notifications[i.value].recipient != caller.id {
        return Err(NotFound);
      }
      var n := notifications[i.value].(isRead := true);
      ReplaceKeeps(notifications, i.value, n, NotificationKey, NotificationTime, nextId);
      notifications := notifications[i.value := n];
      r := Ok(n);
    }

    /** `markAllAsRead`, an `updateMany` over the store. */
    method MarkAllAsRead(caller: Caller)
      requires Valid()
      modifies this
      ensures Valid() && nextId == old(nextId)
      ensures notifications == AllReadFor(old(notifications), caller.id)
    {
      var i := 0;
      ghost var before := notifications;
      while i < |notifications|
        invariant 0 <= i <= |notifications| == |before|
        invariant forall k :: 0 <= k < i ==> notifications[k] == AllReadFor(before, caller.id)[k]
        invariant forall k :: i <= k < |notifications| ==> notifications[k] == before[k]
        invariant nextId == old(nextId)
      {
        if notifications[i].recipient == caller.id && !notifications[i].isRead {
          notifications := notifications[i := notifications[i].(isRead := true)];
        }
        i := i + 1;
      }
      assert notifications == AllReadFor(before, caller.id);
      assert forall k :: 0 <= k < |before| ==>
        (NotificationKey(notifications[k]) == NotificationKey(before[k])
         && NotificationTime(notifications[k]) == NotificationTime(before[k]));
    }

    /** `deleteNotification`: removes the notification only when the caller
        is its recipient; anything else is 404 and nothing changes. */
    method DeleteNotification(caller: Caller, id: nat) returns (r: Result<()>)
      requires Valid()
      modifies this
      ensures Valid() && nextId == old(nextId)
      ensures var i := Find(old(notifications), NotificationKey, id);
              if i.None? || old(notifications)[i.value].recipient != caller.id then
                r == Err(NotFound) && notifications == old(notifications)
              else
                r == Ok(()) && notifications == RemoveAt(old(notifications), i.value)
    {
      var i := Find(notifications, NotificationKey, id);
      if i.None? || notifications[i.value].recipient != caller.id {
        return Err(NotFound);
      }
      RemoveAtKeeps(notifications, i.value, NotificationKey, NotificationTime, nextId);
      notifications := RemoveAt(notifications, i.value);
      r := Ok(());
    }

    /** `createNotification`: stores one notification for the recipient, or
        answers `None` instead of failing when the store refuses it
        (`persisted` is false, or the data fails validation). */
    method Create(recipient: UserId, d: NotificationData, now: nat, persisted: bool)
      returns (r: Option<Notification>)
      requires Valid() && now >= Latest(notifications, NotificationTime)
      modifies this
      ensures Valid()
      ensures var made := MakeNotification(old(nextId), recipient, d, now);
              if persisted && made.Ok? then
                r == Some(made.value) && notifications == old(notifications) + [made.value]
                && nextId == old(nextId) + 1
              else
                r == None && notifications == old(notifications) && nextId == old(nextId)
    {
      var made := MakeNotification(nextId, recipient, d, now);
      if !persisted || made.Err? {
        return None;
      }
      AppendKeeps(notifications, made.value, NotificationKey, NotificationTime, nextId);
      notifications := notifications + [made.value];
      nextId := nextId + 1;
      r := Some(made.value);
    }
  }
}
