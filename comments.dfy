/** Comments on bugs: the thread of one bug oldest first, posting as the
    caller, and editing or deleting, which only the comment's author or an
    admin may do. */
module Comments {
  import opened Common
  import opened Models

  /** The author of a comment or an admin. */
  predicate CanModify(caller: Caller, c: Comment)
  {
    c.user == caller.id || caller.role == Admin
  }

  /** The ownership check that guards edit and delete: 404 for a missing
      comment comes before 403 for a caller who may not touch it. */
  function Guard(c: Option<Comment>, caller: Caller): (r: Result<Comment>)
    ensures c.None? ==> r == Err(NotFound)
    ensures r.Ok? <==> c.Some? && CanModify(caller, c.value)
    ensures r.Ok? ==> r.value == c.value
    ensures c.Some? && !CanModify(caller, c.value) ==> r == Err(Forbidden)
  {
    if c.None? then Err(NotFound)
    else if !CanModify(caller, c.value) then Err(Forbidden)
    else Ok(c.value)
  }

  /** Whoever is not an admin and not the author is refused, whatever the
      comment says; an admin may touch every comment. */
  lemma OnlyAuthorOrAdmin(c: Comment, caller: Caller)
    ensures Guard(Some(c), caller) == Err(Forbidden) <==> caller.role != Admin && c.user != caller.id
    ensures caller.role == Admin ==> Guard(Some(c), caller).Ok?
  {
  }

  function OnBug(bug: BugId): Comment -> bool
  {
    (c: Comment) => c.bug == bug
  }

  function FindComment(s: seq<Comment>, id: nat): (r: Option<Comment>)
    ensures r.Some? ==> r.value in s && r.value.id == id
    ensures r.None? <==> forall c :: c in s ==> c.id != id
  {
    match Find(s, CommentKey, id)
    case None => None
    case Some(i) => Some(s[i])
  }

  class CommentStore {
    var comments: seq<Comment>
    var nextId: nat

    /** Ids are distinct and below the next one, the list is in creation
        order, and every comment has content. */
    ghost predicate Valid()
      reads this
    {
      DistinctKeys(comments, CommentKey) && KeysBelow(comments, CommentKey, nextId)
      && Chronological(comments, CommentTime)
      && forall c :: c in comments ==> c.content != ""
    }

    constructor()
      ensures Valid() && comments == [] && nextId == 0
    {
      comments := [];
      nextId := 0;
    }

    /** `getCommentsByBug`: the bug's comments, oldest first. */
    function GetCommentsByBug(bug: BugId): (r: seq<Comment>)
      requires Valid()
      reads this
      ensures forall c :: c in r <==> c in comments && c.bug == bug
      ensures Chronological(r, CommentTime)
    {
      FilterChronological(comments, OnBug(bug), CommentTime);
      Filter(comments, OnBug(bug))
    }

    /** `createComment`: the author is the caller and the attachments are
        the uploaded file names; the bug itself is not looked up. */
    method CreateComment(caller: Caller, bug: BugId, content: Option<string>, files: seq<string>, now: nat)
      returns (r: Result<Comment>)
      requires Valid() && now >= Latest(comments, CommentTime)
      modifies this
      ensures Valid()
      ensures r.Ok? <==> Truthy(content)
      ensures r.Err? ==> r.failure == ServerError && comments == old(comments) && nextId == old(nextId)
      ensures r.Ok? ==> r.value.user == caller.id && r.value.bug == bug && r.value.attachments == files
                        && comments == old(comments) + [r.value] && nextId == old(nextId) + 1
    {
      r := MakeComment(nextId, bug, caller.id, content, files, now);
      if r.Err? {
        return;
      }
      AppendKeeps(comments, r.value, CommentKey, CommentTime, nextId);
      comments := comments + [r.value];
      nextId := nextId + 1;
    }

    /** `updateComment`: after the guard, the content is replaced by the
        body's; an empty or missing content fails the save with 500. */
    method UpdateComment(caller: Caller, id: nat, content: Option<string>) returns (r: Result<Comment>)
      requires Valid()
      modifies this
      ensures Valid() && nextId == old(nextId)
      ensures match Find(old(comments), CommentKey, id)
        case None => r == Err(NotFound) && comments == old(comments)
        case Some(i) =>
          var c := old(comments)[i];
          if !CanModify(caller, c) then r == Err(Forbidden) && comments == old(comments)
          else if !Truthy(content) then r == Err(ServerError) && comments == old(comments)
          else r == Ok(c.(content := content.value)) && comments == old(comments)[i := r.value]
    {
      var i := Find(comments, CommentKey, id);
      if i.None? {
        return Err(NotFound);
      }
      var c := comments[i.value];
      if !CanModify(caller, c) {
        return Err(Forbidden);
      }
      if !Truthy(content) {
        return Err(ServerError);
      }
      var d := c.(content := content.value);
      ReplaceKeeps(comments, i.value, d, CommentKey, CommentTime, nextId);
      forall x | x in comments[i.value := d] ensures x.content != "" {
        var k :| 0 <= k < |comments| && comments[i.value := d][k] == x;
        if k != i.value { assert comments[k] == x; }
      }
      comments := comments[i.value := d];
      r := Ok(d);
    }

    /** `deleteComment`: after the guard, the comment goes. */
    method DeleteComment(caller: Caller, id: nat) returns (r: Result<()>)
      requires Valid()
      modifies this
      ensures Valid() && nextId == old(nextId)
      ensures match Find(old(comments), CommentKey, id)
        case None => r == Err(NotFound) && comments == old(comments)
        case Some(i) =>
          if !CanModify(caller, old(comments)[i]) then r == Err(Forbidden) && comments == old(comments)
          else r == Ok(()) && comments == RemoveAt(old(comments), i)
    {
      var i := Find(comments, CommentKey, id);
      if i.None? {
        return Err(NotFound);
      }
      if !CanModify(caller, comments[i.value]) {
        return Err(Forbidden);
      }
      RemoveAtKeeps(comments, i.value, CommentKey, CommentTime, nextId);
      forall x | x in RemoveAt(comments, i.value) ensures x.content != "" {
        var k :| 0 <= k < |comments| - 1 && RemoveAt(comments, i.value)[k] == x;
        if k < i.value { assert comments[k] == x; } else { assert comments[k + 1] == x; }
      }
      comments := RemoveAt(comments, i.value);
      r := Ok(());
    }
  }
}
