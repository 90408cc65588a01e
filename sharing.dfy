/** What routes/tasks.js and routes/notes.js share around collaborator lists:
    the outcome of a route, resolving the target user of a share, the filter
    that removes a collaborator entry by its `_id`, and the invariant that no
    user appears twice in a list. */
module Sharing {
  import opened Values
  import opened Permissions

  /** The answer of a route handler, in place of an HTTP status and body. */
  datatype Outcome =
    | Success
    | BadRequest(message: string)
    | NotFound(message: string)
    | Forbidden(message: string)
    | ServerError

  const InvalidInput := "Invalid input"
  const UserNotFound := "User not found"
  const UserNotFoundByEmail := "User not found by email"
  const TargetRequired := "userId or email required"
  const CollaboratorNotFound := "Collaborator not found"
  const OnlyOwnerCanShare := "Only owner can share"
  const OnlyOwnerCanRemove := "Only owner can remove collaborators"
  const OnlyOwnerCanDelete := "Only owner can delete"
  const ForbiddenMessage := "Forbidden"

  /** A user document as the share routes read it: `_id.toString()` and `email`. */
  datatype UserRec = UserRec(id: string, email: string)

  /** The body of a share request. */
  datatype ShareBody = ShareBody(userId: Option<string>, email: Option<string>, role: Option<string>)

  /** `User.findById` and `User.findOne({email})`, as lookups. */
  type UserLookup = string -> Option<UserRec>

  /** The entry a share appends for a user not yet listed: the user's id and
      the role; the database assigns the entry its own `_id`. */
  function NewEntry(entryId: string, target: UserRec, role: string): (e: Collaborator)
    ensures ToStringOf(e.userId) == Normal(target.id) && e.role == Some(role)
    ensures ToStringOf(e.entryId) == Normal(entryId) && e.email.None?
  {
    Collaborator(Obj(entryId), Obj(target.id), None, Some(role))
  }

  /** Resolving the share target: by `userId` when one is given, else by the
      lower-cased `email`, else the request is refused. */
  function ResolveTarget(body: ShareBody, findById: UserLookup, findByEmail: UserLookup): (r: Result<UserRec, Outcome>)
    ensures Present(body.userId) ==>
      r == (if findById(body.userId.value).Some? then Ok(findById(body.userId.value).value) else Err(NotFound(UserNotFound)))
    ensures !Present(body.userId) && Present(body.email) ==>
      var found := findByEmail(Lower(body.email.value));
      r == (if found.Some? then Ok(found.value) else Err(NotFound(UserNotFoundByEmail)))
    ensures !Present(body.userId) && !Present(body.email) ==> r == Err(BadRequest(TargetRequired))
  {
    if Present(body.userId) then
      match findById(body.userId.value)
      case None => Err(NotFound(UserNotFound))
      case Some(u) => Ok(u)
    else if Present(body.email) then
      match findByEmail(Lower(body.email.value))
      case None => Err(NotFound(UserNotFoundByEmail))
      case Some(u) => Ok(u)
    else Err(BadRequest(TargetRequired))
  }

  /** The entry's `_id` is `collabId`. */
  predicate Named(e: Collaborator, collabId: string)
  {
    ToStringOf(e.entryId) == Normal(collabId)
  }

  /** `collaborators.filter(c => c._id.toString() !== collabId)`: the entries
      with another `_id`, in their order; throws when an entry has no `_id`. */
  function Remaining(cs: seq<Collaborator>, collabId: string): (r: Completion<seq<Collaborator>>)
    ensures r.Throw? <==> exists i :: 0 <= i < |cs| && cs[i].entryId.NoId?
    ensures r.Normal? ==> |r.value| <= |cs|
  {
    if cs == [] then Normal([])
    else match ToStringOf(cs[0].entryId)
      case Throw => Throw
      case Normal(k) =>
        match Remaining(cs[1..], collabId)
        case Throw => Throw
        case Normal(rest) =>
          assert forall i :: 1 <= i < |cs| ==> cs[i] == cs[1..][i - 1];
          Normal(if k == collabId then rest else [cs[0]] + rest)
  }

  /** The filter keeps exactly the entries with another `_id`. */
  lemma {:induction false} RemainingMembers(cs: seq<Collaborator>, collabId: string)
    requires Remaining(cs, collabId).Normal?
    ensures forall e :: e in Remaining(cs, collabId).value <==> e in cs && !Named(e, collabId)
  {
    if cs != [] {
      assert forall i :: 1 <= i < |cs| ==> cs[i] == cs[1..][i - 1];
      RemainingMembers(cs[1..], collabId);
      assert forall e :: e in cs <==> e == cs[0] || e in cs[1..];
    }
  }

  /** The filter removes something exactly when some entry has that `_id`. */
  lemma {:induction false} RemainingLength(cs: seq<Collaborator>, collabId: string)
    requires Remaining(cs, collabId).Normal?
    ensures |Remaining(cs, collabId).value| == |cs| <==> forall i :: 0 <= i < |cs| ==> !Named(cs[i], collabId)
  {
    if cs != [] {
      assert forall i :: 1 <= i < |cs| ==> cs[i] == cs[1..][i - 1];
      RemainingLength(cs[1..], collabId);
    }
  }

  /** A filter that removes nothing returns the list itself, so the route's
      reassignment before its "not found" answer changes nothing. */
  lemma {:induction false} RemainingNothingRemoved(cs: seq<Collaborator>, collabId: string)
    requires Remaining(cs, collabId).Normal?
    requires |Remaining(cs, collabId).value| == |cs|
    ensures Remaining(cs, collabId).value == cs
  {
    if cs != [] {
      assert !Named(cs[0], collabId);
      RemainingNothingRemoved(cs[1..], collabId);
    }
  }

  /** The filter keeps order: filtering a concatenation is concatenating the
      filtered parts. */
  lemma {:induction false} RemainingConcat(a: seq<Collaborator>, b: seq<Collaborator>, collabId: string)
    requires Remaining(a, collabId).Normal? && Remaining(b, collabId).Normal?
    ensures Remaining(a + b, collabId) == Normal(Remaining(a, collabId).value + Remaining(b, collabId).value)
  {
    if a == [] {
      assert a + b == b;
      assert Remaining(a, collabId) == Normal([]);
      assert [] + Remaining(b, collabId).value == Remaining(b, collabId).value;
    } else {
      assert (a + b)[0] == a[0];
      assert (a + b)[1..] == a[1..] + b;
      assert forall i :: 1 <= i < |a| ==> a[1..][i - 1] == a[i];
      assert Remaining(a[1..], collabId).Normal?;
      RemainingConcat(a[1..], b, collabId);
      var ra, rb := Remaining(a[1..], collabId).value, Remaining(b, collabId).value;
      assert Remaining((a + b)[1..], collabId) == Normal(ra + rb);
      if !Named(a[0], collabId) {
        assert [a[0]] + (ra + rb) == ([a[0]] + ra) + rb;
      }
    }
  }

  /** No two entries name the same user (by `userId.toString()`). */
  predicate DistinctUsers(cs: seq<Collaborator>)
  {
    forall i, j :: 0 <= i < j < |cs| ==> ToStringOf(cs[i].userId) != ToStringOf(cs[j].userId)
  }

  /** Changing one entry's role keeps the users distinct. */
  lemma SetRoleKeepsDistinct(cs: seq<Collaborator>, i: nat, role: string)
    requires i < |cs| && DistinctUsers(cs)
    ensures DistinctUsers(cs[i := cs[i].(role := Some(role))])
  {
    var cs' := cs[i := cs[i].(role := Some(role))];
    assert forall k :: 0 <= k < |cs| ==> cs'[k].userId == cs[k].userId;
  }

  /** Appending an entry for a user not yet listed keeps the users distinct. */
  lemma AppendNewKeepsDistinct(cs: seq<Collaborator>, e: Collaborator)
    requires DistinctUsers(cs)
    requires forall k :: 0 <= k < |cs| ==> ToStringOf(cs[k].userId) != ToStringOf(e.userId)
    ensures DistinctUsers(cs + [e])
  {
  }

  /** Every entry of a list is allowed by a schema: a `userId` is present and
      the role is one of the enumerated ones. */
  predicate Conforms(cs: seq<Collaborator>, roles: set<string>)
  {
    forall i :: 0 <= i < |cs| ==> IsTruthy(cs[i].userId) && cs[i].role.Some? && cs[i].role.value in roles
  }

  /** Removing entries keeps a list conforming. */
  lemma RemainingConforms(cs: seq<Collaborator>, collabId: string, roles: set<string>)
    requires Conforms(cs, roles) && Remaining(cs, collabId).Normal?
    ensures Conforms(Remaining(cs, collabId).value, roles)
  {
    var rest := Remaining(cs, collabId).value;
    RemainingMembers(cs, collabId);
    forall i | 0 <= i < |rest|
      ensures IsTruthy(rest[i].userId) && rest[i].role.Some? && rest[i].role.value in roles
    {
      assert rest[i] in rest;
      var j :| 0 <= j < |cs| && cs[j] == rest[i];
    }
  }

  /** In a conforming list the `find` behind `canComment` never throws. */
  lemma {:induction false} ConformingNeverThrows(cs: seq<Collaborator>, roles: set<string>, key: string)
    requires Conforms(cs, roles)
    ensures GetCollaborator(cs, key).Normal?
  {
    if cs != [] {
      ConformingNeverThrows(cs[1..], roles, key);
    }
  }
}
