/** User administration: listing without passwords, lookup, the profile
    update that only overwrites with non-empty values and lets only an admin
    change a role, deletion, the active flag toggle, and the directory of
    active users by role. Accounts are created at registration, which is
    not part of this model, so the store starts from a given list. */
module Users {
  import opened Common
  import opened Models

  /** An account as the listing endpoints return it: every field except the
      password. */
  datatype PublicUser = PublicUser(
    id: UserId,
    name: string,
    email: string,
    role: Role,
    isActive: bool,
    phone: Option<string>,
    department: Option<string>,
    avatar: Option<string>)

  function Public(u: User): (p: PublicUser)
    ensures p.id == u.id && p.role == u.role && p.isActive == u.isActive
  {
    PublicUser(u.id, u.name, u.email, u.role, u.isActive, u.phone, u.department, u.avatar)
  }

  /** The listing hides the password and nothing else: two accounts that
      differ only in their password list the same, and accounts that differ
      elsewhere list differently. */
  lemma PublicHidesOnlyPassword(u: User, v: User)
    ensures Public(u) == Public(v) <==> u.(password := v.password) == v
  {
  }

  function PublicList(s: seq<User>): (r: seq<PublicUser>)
    ensures |r| == |s| && forall i :: 0 <= i < |s| ==> r[i] == Public(s[i])
  {
    seq(|s|, i requires 0 <= i < |s| => Public(s[i]))
  }

  /** The fields the profile update reads from the body. */
  datatype UserUpdate = UserUpdate(
    name: Option<string>,
    email: Option<string>,
    phone: Option<string>,
    department: Option<string>,
    avatar: Option<string>,
    role: Option<Role>)

  /** What the profile update answers: the saved profile, without the
      password or the active flag. */
  datatype Profile = Profile(
    id: UserId,
    name: string,
    email: string,
    role: Role,
    phone: Option<string>,
    department: Option<string>,
    avatar: Option<string>)

  function ProfileOf(u: User): Profile
  {
    Profile(u.id, u.name, u.email, u.role, u.phone, u.department, u.avatar)
  }

  /** `value || current` for an optional profile field. */
  function Keep(value: Option<string>, current: Option<string>): (r: Option<string>)
    ensures r == value || r == current
    ensures Truthy(value) ==> r == value
    ensures !Truthy(value) ==> r == current
  {
    if Truthy(value) then value else current
  }

  /** The account after a profile update by `caller`: each text field takes
      the body's value only when it is non-empty, and the role changes only
      when an admin supplies one. */
  function Merged(u: User, body: UserUpdate, caller: Caller): (r: User)
    ensures r.id == u.id && r.password == u.password && r.isActive == u.isActive
    ensures r.name == (if Truthy(body.name) then body.name.value else u.name)
    ensures r.email == (if Truthy(body.email) then body.email.value else u.email)
    ensures r.role == (if caller.role == Admin && body.role.Some? then body.role.value else u.role)
    ensures r.phone == Keep(body.phone, u.phone) && r.department == Keep(body.department, u.department)
            && r.avatar == Keep(body.avatar, u.avatar)
  {
    u.(name := if Truthy(body.name) then body.name.value else u.name,
       email := if Truthy(body.email) then body.email.value else u.email,
       phone := Keep(body.phone, u.phone),
       department := Keep(body.department, u.department),
       avatar := Keep(body.avatar, u.avatar),
       role := if caller.role == Admin && body.role.Some? then body.role.value else u.role)
  }

  /** Sending the same update twice changes nothing the second time, and an
      empty body changes nothing at all. */
  lemma MergeIdempotent(u: User, body: UserUpdate, caller: Caller)
    ensures Merged(Merged(u, body, caller), body, caller) == Merged(u, body, caller)
    ensures Merged(u, UserUpdate(None, None, None, None, None, None), caller) == u
  {
  }

  /** Only an admin changes a role: for anyone else the role in the body is
      ignored. */
  lemma RoleOnlyByAdmin(u: User, body: UserUpdate, caller: Caller)
    requires caller.role != Admin
    ensures Merged(u, body, caller).role == u.role
    ensures Merged(u, body, caller) == Merged(u, body.(role := None), caller)
  {
  }

  /** Removing one account keeps the ids distinct. */
  lemma RemoveKeepsDistinct(s: seq<User>, i: nat)
    requires i < |s| && DistinctKeys(s, UserKey)
    ensures DistinctKeys(RemoveAt(s, i), UserKey)
  {
    var r := RemoveAt(s, i);
    forall a, b | 0 <= a < b < |r| ensures r[a].id != r[b].id {
      var a' := if a < i then a else a + 1;
      var b' := if b < i then b else b + 1;
      assert r[a] == s[a'] && r[b] == s[b'] && a' < b';
    }
  }

  function ActiveWithRole(role: Role): User -> bool
  {
    (u: User) => u.role == role && u.isActive
  }

  class UserStore {
    var users: seq<User>

    ghost predicate Valid()
      reads this
    {
      DistinctKeys(users, UserKey)
    }

    constructor(accounts: seq<User>)
      requires DistinctKeys(accounts, UserKey)
      ensures Valid() && users == accounts
    {
      users := accounts;
    }

    /** `getUsers`: every account, in the store's order, without passwords. */
    function GetUsers(): (r: seq<PublicUser>)
      reads this
      ensures |r| == |users|
      ensures forall i :: 0 <= i < |users| ==> r[i] == Public(users[i])
    {
      PublicList(users)
    }

    /** `getUsersByRole`: the active accounts with that role, in the
        store's order, without passwords. */
    function GetUsersByRole(role: Role): (r: seq<PublicUser>)
      reads this
      ensures forall p :: p in r ==> p.role == role && p.isActive
      ensures forall u :: u in users && u.role == role && u.isActive ==> Public(u) in r
      ensures forall p :: p in r ==> exists u :: u in users && u.role == role && u.isActive && p == Public(u)
      ensures |r| == Count(users, ActiveWithRole(role)) <= |users|
    {
      var picked := Filter(users, ActiveWithRole(role));
      assert forall u :: u in picked ==> u.role == role && u.isActive;
      var r := PublicList(picked);
      forall p | p in r ensures exists u :: u in users && u.role == role && u.isActive && p == Public(u) {
        var k :| 0 <= k < |r| && r[k] == p;
        assert picked[k] in picked;
      }
      r
    }

    /** `getUserById`. */
    method GetUser(id: UserId) returns (r: Result<PublicUser>)
      requires Valid()
      ensures r.Ok? <==> exists u :: u in users && u.id == id
      ensures r.Ok? ==> exists u :: u in users && u.id == id && r.value == Public(u)
      ensures r.Err? ==> r.failure == NotFound
    {
      var u := FindUser(users, id);
      if u.None? {
        return Err(NotFound);
      }
      r := Ok(Public(u.value));
    }

    /** `updateUser`: 404 for a missing account; any signed-in caller may
        update any account. */
    method UpdateUser(caller: Caller, id: UserId, body: UserUpdate) returns (r: Result<Profile>)
      requires Valid()
      modifies this
      ensures Valid()
      ensures match Find(old(users), UserKey, id)
        case None => r == Err(NotFound) && users == old(users)
        case Some(i) =>
          var u := Merged(old(users)[i], body, caller);
          users == old(users)[i := u] && r == Ok(ProfileOf(u))
    {
      var i := Find(users, UserKey, id);
      if i.None? {
        return Err(NotFound);
      }
      var u := Merged(users[i.value], body, caller);
      users := users[i.value := u];
      r := Ok(ProfileOf(u));
    }

    /** `deleteUser`: 404 for a missing account, otherwise it goes; bugs,
        projects and messages that name it are left as they are. */
    method DeleteUser(id: UserId) returns (r: Result<()>)
      requires Valid()
      modifies this
      ensures Valid()
      ensures match Find(old(users), UserKey, id)
        case None => r == Err(NotFound) && users == old(users)
        case Some(i) => r == Ok(()) && users == RemoveAt(old(users), i)
    {
      var i := Find(users, UserKey, id);
      if i.None? {
        return Err(NotFound);
      }
      RemoveKeepsDistinct(users, i.value);
      users := RemoveAt(users, i.value);
      r := Ok(());
    }

    /** `toggleUserActive`: 404 for a missing account, otherwise its active
        flag flips and the new value is answered. */
    method ToggleUserActive(id: UserId) returns (r: Result<bool>)
      requires Valid()
      modifies this
      ensures Valid()
      ensures match Find(old(users), UserKey, id)
        case None => r == Err(NotFound) && users == old(users)
        case Some(i) =>
          r == Ok(!old(users)[i].isActive)
          && users == old(users)[i := old(users)[i].(isActive := !old(users)[i].isActive)]
    {
      var i := Find(users, UserKey, id);
      if i.None? {
        return Err(NotFound);
      }
      var u := users[i.value];
      users := users[i.value := u.(isActive := !u.isActive)];
      r := Ok(!u.isActive);
    }
  }

  /** Toggling an account twice restores the store. */
  method ToggleTwice(s: UserStore, id: UserId)
    requires s.Valid()
    modifies s
    ensures s.Valid() && s.users == old(s.users)
  {
    var first := s.ToggleUserActive(id);
    var second := s.ToggleUserActive(id);
    if first.Ok? {
      assert s.users == old(s.users);
    }
  }
}
