/** The client's notification state and the reducer that updates it: the
    page of notifications last fetched, the unread counter shown in the
    badge, and the loading, error and page fields. The counter is the
    server's count over every page, so it also covers unread notifications
    the client has not fetched; the model calls those the hidden ones. */
module NotificationReducer {
  import opened Common
  import opened Models

  datatype ClientState = ClientState(
    notifications: seq<Notification>,
    unreadCount: int,
    loading: bool,
    error: Option<string>,
    currentPage: int,
    totalPages: int)

  datatype Action =
    | SetNotifications(list: seq<Notification>, count: int, pages: int, page: int)
    | SetLoading(on: bool)
    | AddNotification(n: Notification)
    | MarkAsRead(id: nat)
    | MarkAllAsRead
    | DeleteNotification(id: nat)
    | SetUnreadCount(count: int)
    | SetError(message: string)
    | Unknown(tag: string)

  /** Before the first fetch: nothing listed, nothing unread, page 1 of 1,
      loading. */
  const InitialState := ClientState([], 0, true, None, 1, 1)

  /** The number of unread notifications in a list. */
  function Unread(s: seq<Notification>): nat
  {
    if s == [] then 0 else (if s[0].isRead then 0 else 1) + Unread(s[1..])
  }

  /** The number of unread notifications in a list carrying `id`. */
  function UnreadWithId(s: seq<Notification>, id: nat): nat
  {
    if s == [] then 0 else (if s[0].id == id && !s[0].isRead then 1 else 0) + UnreadWithId(s[1..], id)
  }

  /** The first notification carrying `id`, as `find` returns it. */
  function FindById(s: seq<Notification>, id: nat): (r: Option<Notification>)
    ensures r.Some? ==> r.value in s && r.value.id == id
    ensures r.None? <==> forall n :: n in s ==> n.id != id
  {
    if s == [] then None
    else if s[0].id == id then Some(s[0])
    else FindById(s[1..], id)
  }

  /** The list with every notification carrying `id` marked read. */
  function MarkedRead(s: seq<Notification>, id: nat): (r: seq<Notification>)
    ensures |r| == |s|
    ensures forall i :: 0 <= i < |s| ==> r[i] == if s[i].id == id then s[i].(isRead := true) else s[i]
  {
    if s == [] then [] else [if s[0].id == id then s[0].(isRead := true) else s[0]] + MarkedRead(s[1..], id)
  }

  /** The list with every notification marked read. */
  function AllRead(s: seq<Notification>): (r: seq<Notification>)
    ensures |r| == |s|
    ensures forall i :: 0 <= i < |s| ==> r[i] == s[i].(isRead := true)
  {
    if s == [] then [] else [s[0].(isRead := true)] + AllRead(s[1..])
  }

  /** The list without the notifications carrying `id`, others in order. */
  function Without(s: seq<Notification>, id: nat): (r: seq<Notification>)
    ensures |r| <= |s|
    ensures forall n :: n in r <==> n in s && n.id != id
  {
    if s == [] then []
    else if s[0].id == id then Without(s[1..], id)
    else [s[0]] + Without(s[1..], id)
  }

  function Floor0(x: int): int
  {
    if x < 0 then 0 else x
  }

  /** The reducer, case by case as the client writes it. Each field has its
      own actions: only the list-changing actions touch the list, only
      `SET_NOTIFICATIONS` the page fields, only `SET_ERROR` the error, and
      only the loading, listing and error actions the loading flag; an
      unknown action changes nothing. */
  function Reduce(s: ClientState, a: Action): (r: ClientState)
    ensures r.notifications != s.notifications ==>
              a.SetNotifications? || a.AddNotification? || a.MarkAsRead? || a.MarkAllAsRead? || a.DeleteNotification?
    ensures r.unreadCount != s.unreadCount ==> !(a.SetLoading? || a.SetError? || a.Unknown?)
    ensures (r.currentPage, r.totalPages) != (s.currentPage, s.totalPages) ==> a.SetNotifications?
    ensures r.error != s.error ==> a.SetError? && r.error == Some(a.message)
    ensures r.loading != s.loading ==> a.SetLoading? || a.SetNotifications? || a.SetError?
    ensures a.Unknown? ==> r == s
  {
    match a
    case SetNotifications(list, count, pages, page) =>
      s.(notifications := list, unreadCount := count, totalPages := pages, currentPage := page, loading := false)
    case SetLoading(on) => s.(loading := on)
    case AddNotification(n) =>
      s.(notifications := [n] + s.notifications,
         unreadCount := if n.isRead then s.unreadCount else s.unreadCount + 1)
    case MarkAsRead(id) =>
      s.(notifications := MarkedRead(s.notifications, id), unreadCount := Floor0(s.unreadCount - 1))
    case MarkAllAsRead => s.(notifications := AllRead(s.notifications), unreadCount := 0)
    case DeleteNotification(id) =>
      var found := FindById(s.notifications, id);
      s.(notifications := Without(s.notifications, id),
         unreadCount := if found.Some? && !found.value.isRead then Floor0(s.unreadCount - 1) else s.unreadCount)
    case SetUnreadCount(count) => s.(unreadCount := count)
    case SetError(message) => s.(error := Some(message), loading := false)
    case Unknown(_) => s
  }

  /** The badge agrees with the list: the counter is the unread
      notifications listed plus `hidden` unread ones on other pages. */
  predicate Consistent(s: ClientState, hidden: nat)
  {
    s.unreadCount == Unread(s.notifications) + hidden
  }

  predicate DistinctIds(s: seq<Notification>)
  {
    forall i, j :: 0 <= i < j < |s| ==> s[i].id != s[j].id
  }

  // ---------------------------------------------------------------------
  // Counting lemmas
  // ---------------------------------------------------------------------

  lemma {:induction false} UnreadAllRead(s: seq<Notification>)
    ensures Unread(AllRead(s)) == 0
  {
    if s != [] {
      UnreadAllRead(s[1..]);
      assert AllRead(s)[1..] == AllRead(s[1..]);
    }
  }

  /** Marking read drops the unread count by the unread items with `id`. */
  lemma {:induction false} UnreadMarkedRead(s: seq<Notification>, id: nat)
    ensures Unread(MarkedRead(s, id)) + UnreadWithId(s, id) == Unread(s)
  {
    if s != [] {
      UnreadMarkedRead(s[1..], id);
      assert MarkedRead(s, id)[1..] == MarkedRead(s[1..], id);
    }
  }

  /** Deleting drops the unread count by the unread items with `id`. */
  lemma {:induction false} UnreadWithout(s: seq<Notification>, id: nat)
    ensures Unread(Without(s, id)) + UnreadWithId(s, id) == Unread(s)
  {
    if s != [] {
      UnreadWithout(s[1..], id);
      if s[0].id != id {
        assert ([s[0]] + Without(s[1..], id))[1..] == Without(s[1..], id);
      }
    }
  }

  /** With distinct ids, at most the one notification `find` returns is
      unread under that id. */
  lemma {:induction false} UnreadWithIdFound(s: seq<Notification>, id: nat)
    requires DistinctIds(s)
    ensures UnreadWithId(s, id) == match FindById(s, id) case None => 0 case Some(n) => if n.isRead then 0 else 1
  {
    if s != [] {
      assert DistinctIds(s[1..]) by {
        forall i, j | 0 <= i < j < |s[1..]| ensures s[1..][i].id != s[1..][j].id {
          assert s[1..][i] == s[i + 1] && s[1..][j] == s[j + 1];
        }
      }
      UnreadWithIdFound(s[1..], id);
      if s[0].id == id {
        NoOtherWithId(s, id);
      }
    }
  }

  lemma {:induction false} NoUnreadWithAbsentId(s: seq<Notification>, id: nat)
    requires forall n :: n in s ==> n.id != id
    ensures UnreadWithId(s, id) == 0
  {
    if s != [] {
      assert forall n :: n in s[1..] ==> n in s;
      NoUnreadWithAbsentId(s[1..], id);
    }
  }

  lemma NoOtherWithId(s: seq<Notification>, id: nat)
    requires s != [] && DistinctIds(s) && s[0].id == id
    ensures UnreadWithId(s[1..], id) == 0
  {
    forall n | n in s[1..] ensures n.id != id {
      var k :| 0 <= k < |s[1..]| && s[1..][k] == n;
      assert s[k + 1] == n;
    }
    NoUnreadWithAbsentId(s[1..], id);
  }

  // ---------------------------------------------------------------------
  // What each action does
  // ---------------------------------------------------------------------

  /** The initial state shows nothing unread and agrees with an empty
      server. */
  lemma InitialStateProperties()
    ensures InitialState.unreadCount == 0 && InitialState.notifications == []
    ensures InitialState.currentPage == 1 && InitialState.totalPages == 1 && InitialState.loading
    ensures Consistent(InitialState, 0)
  {
  }

  /** A fetched page replaces the list, the counter and the page fields and
      ends loading; the error stays. */
  lemma SetNotificationsReplaces(s: ClientState, list: seq<Notification>, count: int, pages: int, page: int)
    ensures var r := Reduce(s, SetNotifications(list, count, pages, page));
            r.notifications == list && r.unreadCount == count && r.totalPages == pages
            && r.currentPage == page && !r.loading && r.error == s.error
  {
  }

  /** A pushed notification goes first, and the counter rises by one
      exactly when it is unread; the list's unread count moves the same
      way, so the badge stays consistent. */
  lemma AddKeepsConsistent(s: ClientState, n: Notification, hidden: nat)
    ensures var r := Reduce(s, AddNotification(n));
            r.notifications[0] == n && r.notifications[1..] == s.notifications
            && r.unreadCount - s.unreadCount == (if n.isRead then 0 else 1)
            && Unread(r.notifications) - Unread(s.notifications) == (if n.isRead then 0 else 1)
    ensures Consistent(s, hidden) ==> Consistent(Reduce(s, AddNotification(n)), hidden)
  {
    var r := Reduce(s, AddNotification(n));
    assert r.notifications[1..] == s.notifications;
  }

  /** Marking read touches only the notifications with that id and lowers
      the counter by one, never below zero, whether or not such an unread
      notification is listed. */
  lemma MarkAsReadEffect(s: ClientState, id: nat)
    ensures var r := Reduce(s, MarkAsRead(id));
            |r.notifications| == |s.notifications|
            && (forall i :: 0 <= i < |s.notifications| && s.notifications[i].id != id ==>
                  r.notifications[i] == s.notifications[i])
            && (forall i :: 0 <= i < |s.notifications| && s.notifications[i].id == id ==>
                  r.notifications[i].isRead && r.notifications[i].(isRead := s.notifications[i].isRead) == s.notifications[i])
            && r.unreadCount == (if s.unreadCount >= 1 then s.unreadCount - 1 else 0)
  {
  }

  /** Marking everything read clears the list's unread items and the
      counter, keeps every notification otherwise, and doing it twice is
      doing it once. */
  lemma MarkAllIdempotent(s: ClientState)
    ensures var r := Reduce(s, MarkAllAsRead);
            r.unreadCount == 0 && Unread(r.notifications) == 0
            && |r.notifications| == |s.notifications|
            && (forall i :: 0 <= i < |s.notifications| ==> r.notifications[i].id == s.notifications[i].id)
            && Reduce(r, MarkAllAsRead) == r
            && Consistent(r, 0)
  {
    var r := Reduce(s, MarkAllAsRead);
    UnreadAllRead(s.notifications);
    assert AllRead(r.notifications) == r.notifications;
  }

  /** Deleting removes every notification with the id and keeps the rest;
      the counter drops by one, never below zero, only when the deleted
      notification was listed and unread. */
  lemma DeleteEffect(s: ClientState, id: nat)
    ensures var r := Reduce(s, DeleteNotification(id));
            (forall n :: n in r.notifications <==> n in s.notifications && n.id != id)
            && ((forall n :: n in s.notifications && n.id == id ==> n.isRead) ==> r.unreadCount == s.unreadCount)
            && (DistinctIds(s.notifications) && s.unreadCount >= 1
                && (exists n :: n in s.notifications && n.id == id && !n.isRead)
                ==> r.unreadCount == s.unreadCount - 1)
  {
    if DistinctIds(s.notifications) && exists n :: n in s.notifications && n.id == id && !n.isRead {
      var n :| n in s.notifications && n.id == id && !n.isRead;
      var f := FindById(s.notifications, id).value;
      var i :| 0 <= i < |s.notifications| && s.notifications[i] == n;
      var j :| 0 <= j < |s.notifications| && s.notifications[j] == f;
      assert i == j;
    }
  }

  /** With distinct ids, deleting keeps the badge consistent. */
  lemma DeleteKeepsConsistent(s: ClientState, id: nat, hidden: nat)
    requires DistinctIds(s.notifications) && Consistent(s, hidden)
    ensures Consistent(Reduce(s, DeleteNotification(id)), hidden)
  {
    UnreadWithout(s.notifications, id);
    UnreadWithIdFound(s.notifications, id);
  }

  /** An unknown action leaves the state as it is; an error is stored and
      ends loading, and nothing else changes. */
  lemma UnknownAndErrorActions(s: ClientState, tag: string, message: string)
    ensures Reduce(s, Unknown(tag)) == s
    ensures Reduce(s, SetError(message)) == s.(error := Some(message), loading := false)
  {
  }

  /** The counter never goes negative as long as the server never sends a
      negative one. */
  lemma CounterStaysNonNegative(s: ClientState, a: Action)
    requires s.unreadCount >= 0
    requires a.SetNotifications? ==> a.count >= 0
    requires a.SetUnreadCount? ==> a.count >= 0
    ensures Reduce(s, a).unreadCount >= 0
  {
  }

  // ---------------------------------------------------------------------
  // MARK_AS_READ and the badge
  // ---------------------------------------------------------------------

  /** As written, marking an already-read notification read still lowers
      the counter: with one read notification listed and one unread on
      another page, the badge drops to zero while one unread remains. */
  lemma MarkAsReadMiscounts(n: Notification)
    requires n.isRead
    ensures var s := ClientState([n], 1, false, None, 1, 2);
            Consistent(s, 1) && !Consistent(Reduce(s, MarkAsRead(n.id)), 1)
            && Reduce(s, MarkAsRead(n.id)).unreadCount == 0
  {
    var s := ClientState([n], 1, false, None, 1, 2);
    assert Unread([n]) == 0 by { assert [n][1..] == []; }
    assert MarkedRead([n], n.id) == [n.(isRead := true)];
    assert Unread([n.(isRead := true)]) == 0 by { assert [n.(isRead := true)][1..] == []; }
  }

  /** Marking read as the delete case already counts: the counter drops
      only when the notification `find` returns is listed and unread. */
  function MarkAsReadChecked(s: ClientState, id: nat): (r: ClientState)
    ensures r.notifications == MarkedRead(s.notifications, id)
    ensures r.(notifications := s.notifications, unreadCount := s.unreadCount) == s
  {
    var found := FindById(s.notifications, id);
    s.(notifications := MarkedRead(s.notifications, id),
       unreadCount := if found.Some? && !found.value.isRead then Floor0(s.unreadCount - 1) else s.unreadCount)
  }

  /** With distinct ids, the checked version keeps the badge consistent,
      where the written one does not. */
  lemma MarkAsReadCheckedConsistent(s: ClientState, id: nat, hidden: nat)
    requires DistinctIds(s.notifications) && Consistent(s, hidden)
    ensures Consistent(MarkAsReadChecked(s, id), hidden)
    ensures MarkAsReadChecked(s, id).unreadCount == s.unreadCount - UnreadWithId(s.notifications, id)
  {
    UnreadMarkedRead(s.notifications, id);
    UnreadWithIdFound(s.notifications, id);
  }
}
