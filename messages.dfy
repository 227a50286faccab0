/** Direct messages between users: the conversation list, one thread (which
    marks the partner's messages read), sending, the contact directory
    sorted by name, and marking a partner's messages read. */
module Messages {
  import opened Common
  import opened Models

  /** A user as the message endpoints show them: name, email and role. */
  datatype Contact = Contact(id: UserId, name: string, email: string, role: Role)

  function ContactOf(u: User): (c: Contact)
    ensures c.id == u.id && c.name == u.name
  {
    Contact(u.id, u.name, u.email, u.role)
  }

  /** One entry of the conversation list. */
  datatype Conversation = Conversation(
    user: Contact,
    lastMessage: string,
    lastMessageTime: nat,
    unreadCount: nat)

  // ---------------------------------------------------------------------
  // Conversations
  // ---------------------------------------------------------------------

  predicate Involves(m: Message, uid: UserId)
  {
    m.sender == uid || m.receiver == uid
  }

  function InvolvesFn(uid: UserId): Message -> bool
  {
    (m: Message) => Involves(m, uid)
  }

  /** The other side of a message: the receiver of what the user sent, the
      sender of anything else. */
  function PartnerOf(m: Message, uid: UserId): UserId
  {
    if m.sender == uid then m.receiver else m.sender
  }

  /** The message's sender account exists, and so does the partner account
      (the receiver, when the user sent it). Otherwise the listing fails. */
  predicate Resolvable(m: Message, uid: UserId, users: seq<User>)
  {
    FindUser(users, m.sender).Some? && FindUser(users, PartnerOf(m, uid)).Some?
  }

  function UnreadFrom(partner: UserId, uid: UserId): Message -> bool
  {
    (m: Message) => m.sender == partner && m.receiver == uid && !m.read
  }

  predicate HasPartner(cs: seq<Conversation>, p: UserId)
  {
    exists c :: c in cs && c.user.id == p
  }

  /** The user's messages, newest first. */
  function NewestInvolved(messages: seq<Message>, uid: UserId): seq<Message>
  {
    Reverse(Filter(messages, InvolvesFn(uid)))
  }

  /** Walking the messages newest first, each partner gets one conversation,
      made from the first (newest) message with them; partners appear in
      the order of their newest message. */
  function Gathered(l: seq<Message>, uid: UserId, users: seq<User>): (r: seq<Conversation>)
    requires forall m :: m in l ==> Resolvable(m, uid, users)
    ensures |r| <= |l|
    decreases |l|
  {
    if l == [] then []
    else
      var init := l[..|l| - 1];
      var m := l[|l| - 1];
      assert forall x :: x in init ==> x in l;
      var prev := Gathered(init, uid, users);
      var p := PartnerOf(m, uid);
      assert m in l;
      Absorb(prev, m, uid, users)
  }

  /** One step of the walk: a message with a partner who already has a
      conversation adds nothing; otherwise it opens the partner's
      conversation at the end. */
  function Absorb(prev: seq<Conversation>, m: Message, uid: UserId, users: seq<User>): seq<Conversation>
    requires Resolvable(m, uid, users)
  {
    var p := PartnerOf(m, uid);
    if HasPartner(prev, p) then prev
    else prev + [Conversation(ContactOf(FindUser(users, p).value), m.content, m.createdAt, 0)]
  }

  /** The last step of `Gathered`, unfolded. */
  lemma GatheredLast(l: seq<Message>, uid: UserId, users: seq<User>)
    requires l != [] && forall m :: m in l ==> Resolvable(m, uid, users)
    ensures forall m :: m in l[..|l| - 1] ==> Resolvable(m, uid, users)
    ensures forall m :: m in l ==> m in l[..|l| - 1] || m == l[|l| - 1]
    ensures Resolvable(l[|l| - 1], uid, users)
    ensures Gathered(l, uid, users) == Absorb(Gathered(l[..|l| - 1], uid, users), l[|l| - 1], uid, users)
  {
    assert l == l[..|l| - 1] + [l[|l| - 1]];
    assert l[|l| - 1] in l;
  }

  /** One step of the walk over a list: extending the walked prefix by the
      next message, which is resolvable. */
  lemma GatheredStep(l: seq<Message>, i: nat, uid: UserId, users: seq<User>)
    requires i < |l| && Resolvable(l[i], uid, users)
    requires forall m :: m in l[..i] ==> Resolvable(m, uid, users)
    ensures forall m :: m in l[..i + 1] ==> Resolvable(m, uid, users)
    ensures Gathered(l[..i + 1], uid, users) == Absorb(Gathered(l[..i], uid, users), l[i], uid, users)
  {
    assert l[..i + 1] == l[..i] + [l[i]];
    assert l[..i + 1][..i] == l[..i];
    GatheredLast(l[..i + 1], uid, users);
  }

  /** The partners with a conversation are exactly the user's partners in
      the messages walked, each shown with their account's contact. */
  lemma {:induction false} GatheredPartners(l: seq<Message>, uid: UserId, users: seq<User>)
    requires forall m :: m in l ==> Resolvable(m, uid, users)
    ensures var r := Gathered(l, uid, users);
            forall p :: HasPartner(r, p) <==> exists m :: m in l && PartnerOf(m, uid) == p
    ensures forall c :: c in Gathered(l, uid, users) ==>
              FindUser(users, c.user.id).Some? && c.user == ContactOf(FindUser(users, c.user.id).value)
              && c.unreadCount == 0
    decreases |l|
  {
    if l != [] {
      GatheredLast(l, uid, users);
      GatheredPartners(l[..|l| - 1], uid, users);
      var prev := Gathered(l[..|l| - 1], uid, users);
      var m := l[|l| - 1];
      var r := Gathered(l, uid, users);
      forall p ensures HasPartner(r, p) <==> exists x :: x in l && PartnerOf(x, uid) == p {
        if HasPartner(r, p) {
          var c :| c in r && c.user.id == p;
          if c in prev {
            assert HasPartner(prev, p);
            var x :| x in l[..|l| - 1] && PartnerOf(x, uid) == p;
            assert x in l;
          } else {
            assert m in l && PartnerOf(m, uid) == p;
          }
        }
        if exists x :: x in l && PartnerOf(x, uid) == p {
          var x :| x in l && PartnerOf(x, uid) == p;
          if x in l[..|l| - 1] {
            assert HasPartner(prev, p);
            var c :| c in prev && c.user.id == p;
            assert c in r;
          } else {
            assert x == m;
            if !HasPartner(prev, p) {
              assert r[|r| - 1] in r;
            }
          }
        }
      }
    }
  }

  /** No partner has two conversations. */
  lemma {:induction false} GatheredDistinct(l: seq<Message>, uid: UserId, users: seq<User>)
    requires forall m :: m in l ==> Resolvable(m, uid, users)
    ensures var r := Gathered(l, uid, users);
            forall i, j :: 0 <= i < j < |r| ==> r[i].user.id != r[j].user.id
    decreases |l|
  {
    if l != [] {
      GatheredLast(l, uid, users);
      GatheredDistinct(l[..|l| - 1], uid, users);
      var prev := Gathered(l[..|l| - 1], uid, users);
      var p := PartnerOf(l[|l| - 1], uid);
      if !HasPartner(prev, p) {
        forall i | 0 <= i < |prev| ensures prev[i].user.id != p {
          assert prev[i] in prev;
        }
      }
    }
  }

  /** Each conversation is made from the first message with its partner in
      the walk. */
  lemma {:induction false} GatheredFirst(l: seq<Message>, uid: UserId, users: seq<User>)
    requires forall m :: m in l ==> Resolvable(m, uid, users)
    ensures forall c :: c in Gathered(l, uid, users) ==>
              exists k :: 0 <= k < |l| && PartnerOf(l[k], uid) == c.user.id
                          && c.lastMessage == l[k].content && c.lastMessageTime == l[k].createdAt
                          && forall j :: 0 <= j < k ==> PartnerOf(l[j], uid) != c.user.id
    decreases |l|
  {
    if l != [] {
      var init := l[..|l| - 1];
      GatheredLast(l, uid, users);
      GatheredFirst(init, uid, users);
      GatheredPartners(init, uid, users);
      var prev := Gathered(init, uid, users);
      var m := l[|l| - 1];
      var p := PartnerOf(m, uid);
      forall c | c in Gathered(l, uid, users)
        ensures exists k :: 0 <= k < |l| && PartnerOf(l[k], uid) == c.user.id
                            && c.lastMessage == l[k].content && c.lastMessageTime == l[k].createdAt
                            && forall j :: 0 <= j < k ==> PartnerOf(l[j], uid) != c.user.id
      {
        if c in prev {
          var k :| 0 <= k < |init| && PartnerOf(init[k], uid) == c.user.id
                   && c.lastMessage == init[k].content && c.lastMessageTime == init[k].createdAt
                   && forall j :: 0 <= j < k ==> PartnerOf(init[j], uid) != c.user.id;
          assert l[k] == init[k];
          assert forall j :: 0 <= j < k ==> l[j] == init[j];
        } else {
          assert c.user.id == p && c.lastMessage == m.content && c.lastMessageTime == m.createdAt;
          forall j | 0 <= j < |l| - 1 ensures PartnerOf(l[j], uid) != p {
            assert l[j] == init[j] && init[j] in init;
          }
        }
      }
    }
  }

  /** The position of the message a conversation was made from. */
  lemma GatheredFirstAt(l: seq<Message>, uid: UserId, users: seq<User>, c: Conversation) returns (k: nat)
    requires forall m :: m in l ==> Resolvable(m, uid, users)
    requires c in Gathered(l, uid, users)
    ensures k < |l| && PartnerOf(l[k], uid) == c.user.id && c.lastMessageTime == l[k].createdAt
    ensures forall j :: 0 <= j < k ==> PartnerOf(l[j], uid) != c.user.id
  {
    GatheredFirst(l, uid, users);
    k :| 0 <= k < |l| && PartnerOf(l[k], uid) == c.user.id
         && c.lastMessage == l[k].content && c.lastMessageTime == l[k].createdAt
         && forall j :: 0 <= j < k ==> PartnerOf(l[j], uid) != c.user.id;
  }

  /** The conversations with each partner's count of unread messages to
      the user. */
  function WithUnread(cs: seq<Conversation>, messages: seq<Message>, uid: UserId): (r: seq<Conversation>)
    ensures |r| == |cs|
    ensures forall i :: 0 <= i < |cs| ==>
              r[i].(unreadCount := 0) == cs[i].(unreadCount := 0)
              && r[i].unreadCount == Count(messages, UnreadFrom(cs[i].user.id, uid))
  {
    seq(|cs|, i requires 0 <= i < |cs| =>
      cs[i].(unreadCount := Count(messages, UnreadFrom(cs[i].user.id, uid))))
  }

  /** Every conversation shows the latest message exchanged with its
      partner. */
  lemma ConversationShowsLatest(l: seq<Message>, uid: UserId, users: seq<User>, c: Conversation, m: Message)
    requires forall x :: x in l ==> Resolvable(x, uid, users)
    requires NewestFirst(l, MessageTime)
    requires c in Gathered(l, uid, users) && m in l && PartnerOf(m, uid) == c.user.id
    ensures m.createdAt <= c.lastMessageTime
  {
    var k := GatheredFirstAt(l, uid, users, c);
    var n :| 0 <= n < |l| && l[n] == m;
    assert k <= n;
    assert MessageTime(l[k]) >= MessageTime(l[n]);
  }

  // ---------------------------------------------------------------------
  // Read status
  // ---------------------------------------------------------------------

  /** Every unread message from `from` to `to` marked read; nothing else
      changes. */
  function MarkedRead(s: seq<Message>, from: UserId, to: UserId): (r: seq<Message>)
    ensures |r| == |s|
    ensures forall i :: 0 <= i < |s| ==>
              r[i].(read := s[i].read) == s[i]
              && r[i].read == (s[i].read || (s[i].sender == from && s[i].receiver == to))
  {
    seq(|s|, i requires 0 <= i < |s| =>
      if s[i].sender == from && s[i].receiver == to then s[i].(read := true) else s[i])
  }

  /** Marking read leaves nothing unread from that partner, is idempotent,
      and touches no other conversation's unread count. */
  lemma MarkedReadProperties(s: seq<Message>, from: UserId, to: UserId, other: UserId, uid: UserId)
    requires other != from || uid != to
    ensures Count(MarkedRead(s, from, to), UnreadFrom(from, to)) == 0
    ensures MarkedRead(MarkedRead(s, from, to), from, to) == MarkedRead(s, from, to)
    ensures Count(MarkedRead(s, from, to), UnreadFrom(other, uid)) == Count(s, UnreadFrom(other, uid))
  {
    var r := MarkedRead(s, from, to);
    forall x | x in r ensures !UnreadFrom(from, to)(x) {
      var k :| 0 <= k < |r| && r[k] == x;
    }
    FilterNone(r, UnreadFrom(from, to));
    MarkedReadKeepsOthers(s, from, to, other, uid);
  }

  lemma MarkedReadKeepsOthers(s: seq<Message>, from: UserId, to: UserId, other: UserId, uid: UserId)
    requires other != from || uid != to
    ensures Filter(MarkedRead(s, from, to), UnreadFrom(other, uid)) == Filter(s, UnreadFrom(other, uid))
  {
    var r := MarkedRead(s, from, to);
    var p := UnreadFrom(other, uid);
    forall i | 0 <= i < |s| ensures p(r[i]) == p(s[i]) && (p(r[i]) ==> r[i] == s[i]) {
    }
    FilterPointwise(r, s, p);
  }

  /** Messages between the two users in either direction. */
  function Between(a: UserId, b: UserId): Message -> bool
  {
    (m: Message) => (m.sender == a && m.receiver == b) || (m.sender == b && m.receiver == a)
  }

  // ---------------------------------------------------------------------
  // The contact directory
  // ---------------------------------------------------------------------

  /** Names compare character by character; a proper prefix comes first. */
  predicate NameLe(a: string, b: string)
    decreases |a|
  {
    a == [] || (b != [] && (a[0] < b[0] || (a[0] == b[0] && NameLe(a[1..], b[1..]))))
  }

  lemma {:induction false} NameLeTotal(a: string, b: string)
    ensures NameLe(a, b) || NameLe(b, a)
    decreases |a|
  {
    if a != [] && b != [] && a[0] == b[0] {
      NameLeTotal(a[1..], b[1..]);
    }
  }

  lemma {:induction false} NameLeTrans(a: string, b: string, c: string)
    requires NameLe(a, b) && NameLe(b, c)
    ensures NameLe(a, c)
    decreases |a|
  {
    if a != [] && a[0] == b[0] && b[0] == c[0] {
      NameLeTrans(a[1..], b[1..], c[1..]);
    }
  }

  ghost predicate SortedByName(s: seq<User>)
  {
    forall i, j :: 0 <= i < j < |s| ==> NameLe(s[i].name, s[j].name)
  }

  /** Inserting into a name-sorted list. */
  function Insert(u: User, s: seq<User>): (r: seq<User>)
    requires SortedByName(s)
    ensures SortedByName(r) && multiset(r) == multiset(s) + multiset{u}
    decreases |s|
  {
    if s == [] then [u]
    else if NameLe(u.name, s[0].name) then
      BelowHead(u.name, s);
      ConsSorted(u, s);
      [u] + s
    else
      NameLeTotal(u.name, s[0].name);
      SortedTail(s);
      var rest := Insert(u, s[1..]);
      assert s == [s[0]] + s[1..];
      HeadBoundsTail(s);
      BoundKept(s[0].name, rest, s[1..], u);
      ConsSorted(s[0], rest);
      [s[0]] + rest
  }

  /** In a name-sorted list the head's name bounds every later name. */
  lemma HeadBoundsTail(s: seq<User>)
    requires s != [] && SortedByName(s)
    ensures forall x :: x in s[1..] ==> NameLe(s[0].name, x.name)
  {
    forall x | x in s[1..] ensures NameLe(s[0].name, x.name) {
      var k :| 0 <= k < |s[1..]| && s[1..][k] == x;
      assert s[k + 1] == x;
    }
  }

  /** A name below the head of a name-sorted list is below every name in it. */
  lemma BelowHead(b: string, s: seq<User>)
    requires s != [] && SortedByName(s) && NameLe(b, s[0].name)
    ensures forall x :: x in s ==> NameLe(b, x.name)
  {
    forall x | x in s ensures NameLe(b, x.name) {
      var k :| 0 <= k < |s| && s[k] == x;
      if k > 0 { NameLeTrans(b, s[0].name, x.name); }
    }
  }

  lemma SortedTail(s: seq<User>)
    requires s != [] && SortedByName(s)
    ensures SortedByName(s[1..])
  {
    forall i, j | 0 <= i < j < |s| - 1 ensures NameLe(s[1..][i].name, s[1..][j].name) {
      assert s[1..][i] == s[i + 1] && s[1..][j] == s[j + 1];
    }
  }

  /** A lower bound on the names of a list and of one more user bounds the
      names of any permutation of them. */
  lemma BoundKept(b: string, rest: seq<User>, s: seq<User>, u: User)
    requires NameLe(b, u.name) && forall x :: x in s ==> NameLe(b, x.name)
    requires multiset(rest) == multiset(s) + multiset{u}
    ensures forall x :: x in rest ==> NameLe(b, x.name)
  {
    forall x | x in rest ensures NameLe(b, x.name) {
      assert x in multiset(rest);
      if x != u { assert x in multiset(s); }
    }
  }

  /** A user whose name bounds a sorted list's names may go first. */
  lemma ConsSorted(h: User, rest: seq<User>)
    requires SortedByName(rest) && forall x :: x in rest ==> NameLe(h.name, x.name)
    ensures SortedByName([h] + rest)
  {
    var r := [h] + rest;
    forall i, j | 0 <= i < j < |r| ensures NameLe(r[i].name, r[j].name) {
      if i == 0 { assert r[j] in rest; } else { assert r[i] == rest[i - 1] && r[j] == rest[j - 1]; }
    }
  }

  /** The accounts sorted by name: a permutation, in name order. */
  function SortByName(s: seq<User>): (r: seq<User>)
    ensures SortedByName(r) && multiset(r) == multiset(s)
  {
    if s == [] then []
    else
      assert s == [s[0]] + s[1..];
      Insert(s[0], SortByName(s[1..]))
  }

  function NotUser(uid: UserId): User -> bool
  {
    (u: User) => u.id != uid
  }

  /** A permutation has the same members. */
  lemma SameMembers(a: seq<User>, b: seq<User>)
    requires multiset(a) == multiset(b)
    ensures forall u :: u in a <==> u in b
  {
    forall u ensures u in a <==> u in b {
      assert u in a <==> u in multiset(a);
      assert u in b <==> u in multiset(b);
    }
  }

  // ---------------------------------------------------------------------
  // The store
  // ---------------------------------------------------------------------

  class MessageStore {
    var messages: seq<Message>
    var nextId: nat

    ghost predicate Valid()
      reads this
    {
      DistinctKeys(messages, MessageKey) && KeysBelow(messages, MessageKey, nextId)
      && Chronological(messages, MessageTime)
    }

    constructor()
      ensures Valid() && messages == [] && nextId == 0
    {
      messages := [];
      nextId := 0;
    }

    /** `GET /conversations`: one entry per partner, ordered by the newest
        message with them, showing that message and the number of unread
        messages the partner sent the caller. A message whose sender, or
        whose receiver when the caller sent it, no longer exists fails the
        whole listing. */
    method Conversations(caller: Caller, users: seq<User>) returns (r: Result<seq<Conversation>>)
      ensures var l := NewestInvolved(messages, caller.id);
              (r.Ok? <==> forall m :: m in l ==> Resolvable(m, caller.id, users))
              && (r.Ok? ==> r.value == WithUnread(Gathered(l, caller.id, users), messages, caller.id))
              && (r.Err? ==> r.failure == ServerError)
    {
      var l := NewestInvolved(messages, caller.id);
      var convs := GatherConversations(l, caller.id, users);
      if convs.None? {
        return Err(ServerError);
      }
      var out := CountUnread(convs.value, caller.id);
      r := Ok(out);
    }

    /** The grouping pass over the user's messages, newest first: the first
        message seen with each partner makes that partner's conversation.
        A message whose accounts cannot be resolved stops the pass. */
    static method GatherConversations(l: seq<Message>, uid: UserId, users: seq<User>)
      returns (r: Option<seq<Conversation>>)
      ensures r.Some? <==> forall m :: m in l ==> Resolvable(m, uid, users)
      ensures r.Some? ==> r.value == Gathered(l, uid, users)
    {
      var convs: seq<Conversation> := [];
      var i := 0;
      while i < |l|
        invariant 0 <= i <= |l|
        invariant forall m :: m in l[..i] ==> Resolvable(m, uid, users)
        invariant convs == Gathered(l[..i], uid, users)
      {
        var m := l[i];
        if !Resolvable(m, uid, users) {
          assert m in l;
          return None;
        }
        GatheredStep(l, i, uid, users);
        convs := Absorb(convs, m, uid, users);
        i := i + 1;
      }
      assert l[..i] == l;
      r := Some(convs);
    }

    /** The counting pass: each conversation's unread count becomes the
        number of unread messages its partner sent the user. */
    method CountUnread(convs: seq<Conversation>, uid: UserId) returns (out: seq<Conversation>)
      ensures out == WithUnread(convs, messages, uid)
    {
      out := [];
      var k := 0;
      while k < |convs|
        invariant 0 <= k <= |convs|
        invariant |out| == k
        invariant forall j :: 0 <= j < k ==>
                    out[j] == convs[j].(unreadCount := Count(messages, UnreadFrom(convs[j].user.id, uid)))
      {
        out := out + [convs[k].(unreadCount := Count(messages, UnreadFrom(convs[k].user.id, uid)))];
        k := k + 1;
      }
    }

    /** `GET /:userId`: the messages between the caller and the other user,
        oldest first, as they were before this request marked the other
        user's messages to the caller read. */
    method Thread(caller: Caller, other: UserId) returns (r: seq<Message>)
      requires Valid()
      modifies this
      ensures Valid() && nextId == old(nextId)
      ensures r == Filter(old(messages), Between(caller.id, other))
      ensures Chronological(r, MessageTime)
      ensures messages == MarkedRead(old(messages), other, caller.id)
    {
      r := Filter(messages, Between(caller.id, other));
      FilterChronological(messages, Between(caller.id, other), MessageTime);
      messages := MarkedRead(messages, other, caller.id);
    }

    /** `POST /`: 400 unless both a receiver and content are given, 404
        when the receiver does not exist; the content is stored trimmed. */
    method Send(caller: Caller, receiverId: Option<UserId>, content: Option<string>, users: seq<User>, now: nat)
      returns (r: Result<Message>)
      requires Valid() && now >= Latest(messages, MessageTime)
      modifies this
      ensures Valid()
      ensures receiverId.None? || !Truthy(content) ==> r == Err(BadRequest)
      ensures receiverId.Some? && Truthy(content) && FindUser(users, receiverId.value).None?
              ==> r == Err(NotFound)
      ensures r.Err? ==> messages == old(messages) && nextId == old(nextId)
      ensures r.Ok? ==> r.value == Message(old(nextId), caller.id, receiverId.value, Trim(content.value), false, now)
                        && messages == old(messages) + [r.value] && nextId == old(nextId) + 1
      ensures r.Ok? <==> receiverId.Some? && Truthy(content) && FindUser(users, receiverId.value).Some?
    {
      if receiverId.None? || !Truthy(content) {
        return Err(BadRequest);
      }
      if FindUser(users, receiverId.value).None? {
        return Err(NotFound);
      }
      var m := Message(nextId, caller.id, receiverId.value, Trim(content.value), false, now);
      AppendKeeps(messages, m, MessageKey, MessageTime, nextId);
      messages := messages + [m];
      nextId := nextId + 1;
      r := Ok(m);
    }

    /** `PUT /read/:userId`. */
    method MarkRead(caller: Caller, other: UserId)
      requires Valid()
      modifies this
      ensures Valid() && nextId == old(nextId)
      ensures messages == MarkedRead(old(messages), other, caller.id)
      ensures Count(messages, UnreadFrom(other, caller.id)) == 0
    {
      MarkedReadProperties(messages, other, caller.id, other, caller.id + 1);
      messages := MarkedRead(messages, other, caller.id);
    }
  }

  /** `GET /users/all`: every other account, sorted by name, showing name,
      email and role. */
  function UsersForChat(caller: Caller, users: seq<User>): (r: seq<Contact>)
    ensures var others := SortByName(Filter(users, NotUser(caller.id)));
            |r| == |others| && forall i :: 0 <= i < |r| ==> r[i] == ContactOf(others[i])
    ensures forall i, j :: 0 <= i < j < |r| ==> NameLe(r[i].name, r[j].name)
    ensures forall c :: c in r ==> c.id != caller.id
    ensures forall u :: u in users && u.id != caller.id ==> ContactOf(u) in r
  {
    var picked := Filter(users, NotUser(caller.id));
    var others := SortByName(picked);
    SameMembers(picked, others);
    ContactsMembers(others);
    Contacts(others)
  }

  function Contacts(s: seq<User>): (r: seq<Contact>)
    ensures |r| == |s| && forall i :: 0 <= i < |s| ==> r[i] == ContactOf(s[i])
  {
    seq(|s|, i requires 0 <= i < |s| => ContactOf(s[i]))
  }

  /** The contacts of a list are exactly the contacts of its members. */
  lemma ContactsMembers(s: seq<User>)
    ensures forall c :: c in Contacts(s) ==> exists u :: u in s && c == ContactOf(u)
    ensures forall u :: u in s ==> ContactOf(u) in Contacts(s)
  {
    var r := Contacts(s);
    forall c | c in r ensures exists u :: u in s && c == ContactOf(u) {
      var k :| 0 <= k < |r| && r[k] == c;
      assert s[k] in s;
    }
    forall u | u in s ensures ContactOf(u) in r {
      var k :| 0 <= k < |s| && s[k] == u;
      assert r[k] == ContactOf(u);
    }
  }
}
