/** The handlers of routes/notes.js around the access predicates: the list
    query, create defaults, the whitelist update, the collaborator share, the
    collaborator listing and the collaborator remove. As for tasks, a handler
    receives the loaded document (`null` when it was not found), edits it in
    place, and runs the save hook where the source saves. Unlike the task
    routes, every note route hands the predicates the whole `req.user`
    object, so a caller's email takes part in the checks. */
module NoteRoutes {
  import opened Values
  import opened Permissions
  import opened Sharing
  import opened NoteModel
  import Auth

  const NoteNotFound := "Note not found"
  const NoteAlreadyOwner := "User already owner"

  /** The roles a note share may grant. */
  const NoteShareRoles: set<string> := {"editor", "viewer"}

  /** `req.user`, the caller every note route passes to the predicates: its
      id and its lower-cased email both count. */
  function NoteCaller(user: Auth.ReqUser): (c: Caller)
    ensures NormalizeCaller(c).id == (if Present(user.id) then user.id else None)
    ensures NormalizeCaller(c).email == (if Present(user.email) then Some(Lower(user.email.value)) else None)
  {
    Record(IdOf(user.id), NoId, user.email)
  }

  /** An entry inviting the caller's email, in any letter case, lets the
      caller view the note, and edit it when its role allows editing, whatever
      user id the entry holds. */
  lemma InvitedEmailGrantsAccess(doc: Doc, i: nat, user: Auth.ReqUser)
    requires i < |doc.collaborators|
    requires Present(user.email) && Present(doc.collaborators[i].email)
    requires Lower(doc.collaborators[i].email.value) == Lower(user.email.value)
    ensures CanView(Some(doc), NoteCaller(user))
    ensures GrantsEdit(doc.collaborators[i]) ==> CanEdit(Some(doc), NoteCaller(user))
  {
    var n := NormalizeCaller(NoteCaller(user));
    assert Matches(doc.collaborators[i], n);
    ViewScanIff(doc.collaborators, n);
    EditScanIff(doc.collaborators, n);
  }

  // ---------------------------------------------------------------------
  // GET /  (list)

  /** What the list query selects: notes owned by or shared with `userId`. */
  predicate NoteSelects(userId: string, s: NoteState)
  {
    || ToIdString(s.owner) == Some(userId)
    || exists i :: 0 <= i < |s.collaborators| && ToIdString(s.collaborators[i].userId) == Some(userId)
  }

  /** The list never shows a note that the single-note GET would refuse. */
  lemma ListedNotesAreViewable(user: Auth.ReqUser, s: NoteState)
    requires Present(user.id)
    requires NoteSelects(user.id.value, s)
    ensures CanView(Some(Doc(s.owner, s.collaborators)), NoteCaller(user))
  {
    var doc := Some(Doc(s.owner, s.collaborators));
    var n := NormalizeCaller(NoteCaller(user));
    OwnerCheckSurvivesNormalization(doc, NoteCaller(user));
    if ToIdString(s.owner) != user.id {
      var i :| 0 <= i < |s.collaborators| && ToIdString(s.collaborators[i].userId) == user.id;
      assert Matches(s.collaborators[i], n);
      ViewScanIff(s.collaborators, n);
    }
  }

  // ---------------------------------------------------------------------
  // GET /:id  and  DELETE /:id

  /** GET: not found, then view-gated. */
  method GetNote(note: Note?, user: Auth.ReqUser) returns (out: Outcome)
    ensures note == null ==> out == NotFound(NoteNotFound)
    ensures note != null ==> (out == Success <==> CanView(Some(note.Snapshot()), NoteCaller(user)))
    ensures note != null && out != Success ==> out == Forbidden(ForbiddenMessage)
  {
    if note == null {
      return NotFound(NoteNotFound);
    }
    if !CanView(Some(note.Snapshot()), NoteCaller(user)) {
      return Forbidden(ForbiddenMessage);
    }
    return Success;
  }

  /** DELETE: not found, then owner-only; the deletion itself is the database's. */
  method DeleteNote(note: Note?, user: Auth.ReqUser) returns (out: Outcome)
    ensures note == null ==> out == NotFound(NoteNotFound)
    ensures note != null ==> (out == Success <==> IsOwner(Some(note.Snapshot()), NoteCaller(user)))
    ensures note != null && out != Success ==> out == Forbidden(OnlyOwnerCanDelete)
  {
    if note == null {
      return NotFound(NoteNotFound);
    }
    if !IsOwner(Some(note.Snapshot()), NoteCaller(user)) {
      return Forbidden(OnlyOwnerCanDelete);
    }
    return Success;
  }

  // ---------------------------------------------------------------------
  // Request bodies of POST / and PUT /:id

  /** A JSON scalar a body field may hold. */
  datatype Scalar = JBool(b: bool) | JNum(n: int) | JStr(s: string)

  /** JavaScript truthiness of a scalar (`!!v`). */
  predicate Truthy(v: Scalar)
  {
    match v
    case JBool(b) => b
    case JNum(n) => n != 0
    case JStr(s) => s != ""
  }

  /** The values `isBoolean()` accepts: those whose string form is `true`,
      `false`, `1` or `0`. */
  predicate BooleanLike(v: Scalar)
  {
    match v
    case JBool(_) => true
    case JNum(n) => n == 0 || n == 1
    case JStr(s) => s == "true" || s == "false" || s == "1" || s == "0"
  }

  /** What the schema's Boolean cast stores for an accepted value. */
  function CastBoolean(v: Scalar): (r: bool)
    requires BooleanLike(v)
    ensures r ==> Truthy(v)
  {
    match v
    case JBool(b) => b
    case JNum(n) => n == 1
    case JStr(s) => s == "true" || s == "1"
  }

  /** Creating reads `pinned` by truthiness and updating by the schema cast;
      they disagree exactly on the strings `"false"` and `"0"`, which create a
      pinned note but unpin one on update. */
  lemma CreateAndUpdateReadPinnedDifferently(v: Scalar)
    requires BooleanLike(v)
    ensures Truthy(v) != CastBoolean(v) <==> v == JStr("false") || v == JStr("0")
  {
  }

  /** `tags` as sent: an array, or some other JSON value. */
  datatype TagsArg = Array(items: seq<string>) | NotArray

  /** The body of a POST or PUT; `None` is a key that is absent (`undefined`). */
  datatype NoteBody = NoteBody(title: Option<string>, content: Option<string>, pinned: Option<Scalar>, tags: Option<TagsArg>)

  /** The validators of POST and PUT: a `pinned` that is sent passes
      `isBoolean()` and a `tags` that is sent is an array. */
  predicate ValidNoteBody(b: NoteBody)
  {
    && (b.pinned.Some? ==> BooleanLike(b.pinned.value))
    && (b.tags.Some? ==> b.tags.value.Array?)
  }

  /** An absent key is always valid. */
  const EmptyBody := NoteBody(None, None, None, None)

  // ---------------------------------------------------------------------
  // POST /  (create)

  /** The document a create builds: owned by the caller, with no
      collaborators; `title` and `content` are `''` unless sent, and trimmed;
      `pinned` is the truthiness of what was sent; `tags` is what was sent
      when it is an array, else empty. */
  function InitialNote(user: Auth.ReqUser, b: NoteBody, now: Time): (s: NoteState)
    ensures s.owner == IdOf(user.id) && s.collaborators == []
    ensures s.title == Trim(Or(b.title, "")) && s.content == Trim(Or(b.content, ""))
    ensures s.pinned <==> b.pinned.Some? && Truthy(b.pinned.value)
    ensures s.tags == (if b.tags.Some? && b.tags.value.Array? then b.tags.value.items else [])
    ensures s.createdAt == now && s.updatedAt == now
  {
    var tags := if b.tags.Some? && b.tags.value.Array? then b.tags.value.items else [];
    NoteState(IdOf(user.id), [], Trim(Or(b.title, "")), Trim(Or(b.content, "")),
              b.pinned.Some? && Truthy(b.pinned.value), tags, now, now)
  }

  /** The creator of a note owns it: it may view, edit, share and delete it. */
  lemma CreatorOwnsNote(user: Auth.ReqUser, b: NoteBody, now: Time)
    requires Present(user.id)
    ensures var s := InitialNote(user, b, now);
      && IsOwner(Some(Doc(s.owner, s.collaborators)), NoteCaller(user))
      && CanEdit(Some(Doc(s.owner, s.collaborators)), NoteCaller(user))
      && CanView(Some(Doc(s.owner, s.collaborators)), NoteCaller(user))
  {
    var s := InitialNote(user, b, now);
    var doc := Some(Doc(s.owner, s.collaborators));
    OwnerCheckSurvivesNormalization(doc, NoteCaller(user));
  }

  /** An empty body creates an untitled, empty, unpinned, untagged note. */
  lemma EmptyBodyDefaults(user: Auth.ReqUser, now: Time)
    ensures var s := InitialNote(user, EmptyBody, now);
      s.title == "" && s.content == "" && !s.pinned && s.tags == []
  {
  }

  /** POST /: the body is validated, then the note is built and saved. */
  method CreateNote(user: Auth.ReqUser, b: NoteBody, now: Time) returns (out: Outcome, note: Note?)
    ensures !ValidNoteBody(b) ==> out == BadRequest(InvalidInput) && note == null
    ensures ValidNoteBody(b) ==>
      && out == Success && note != null && fresh(note)
      && note.State() == Stamped(InitialNote(user, b, now), now)
  {
    if !ValidNoteBody(b) {
      return BadRequest(InvalidInput), null;
    }
    var tags := if b.tags.Some? && b.tags.value.Array? then b.tags.value.items else [];
    note := new Note(IdOf(user.id), Or(b.title, ""), Or(b.content, ""),
                     b.pinned.Some? && Truthy(b.pinned.value), tags, now);
    note.PreSave(now);
    out := Success;
  }

  // ---------------------------------------------------------------------
  // PUT /:id  (update)

  datatype NoteKey = NoteTitle | NoteContent | NotePinned | NoteTags

  /** The keys a PUT may set, in the order the loop visits them. */
  const AllowedNoteKeys: seq<NoteKey> := [NoteTitle, NoteContent, NotePinned, NoteTags]

  /** The document after the whitelist loop: each key sent is stored through
      the schema (text trimmed, `pinned` cast), and nothing else changes, in
      particular not the owner or the collaborators. */
  function PatchedNote(s: NoteState, b: NoteBody): (r: NoteState)
    requires ValidNoteBody(b)
    ensures r.owner == s.owner && r.collaborators == s.collaborators
    ensures r.createdAt == s.createdAt && r.updatedAt == s.updatedAt
    ensures r.title == (if b.title.Some? then Trim(b.title.value) else s.title)
    ensures r.content == (if b.content.Some? then Trim(b.content.value) else s.content)
    ensures r.pinned == (if b.pinned.Some? then CastBoolean(b.pinned.value) else s.pinned)
    ensures r.tags == (if b.tags.Some? then b.tags.value.items else s.tags)
    ensures b == EmptyBody ==> r == s
  {
    s.(title := if b.title.Some? then Trim(b.title.value) else s.title,
       content := if b.content.Some? then Trim(b.content.value) else s.content,
       pinned := if b.pinned.Some? then CastBoolean(b.pinned.value) else s.pinned,
       tags := if b.tags.Some? then b.tags.value.items else s.tags)
  }

  /** Sending the same update twice leaves the note as sending it once. */
  lemma PatchIdempotent(s: NoteState, b: NoteBody)
    requires ValidNoteBody(b)
    ensures PatchedNote(PatchedNote(s, b), b) == PatchedNote(s, b)
  {
    if b.title.Some? {
      TrimIdempotent(b.title.value);
    }
    if b.content.Some? {
      TrimIdempotent(b.content.value);
    }
  }

  /** An update never changes who may view, edit or administer the note. */
  lemma PatchKeepsAccess(s: NoteState, b: NoteBody, c: Caller)
    requires ValidNoteBody(b)
    ensures var before, after := Doc(s.owner, s.collaborators), Doc(PatchedNote(s, b).owner, PatchedNote(s, b).collaborators);
      && (IsOwner(Some(before), c) <==> IsOwner(Some(after), c))
      && (CanEdit(Some(before), c) <==> CanEdit(Some(after), c))
      && (CanView(Some(before), c) <==> CanView(Some(after), c))
  {
  }

  /** The `for...of` loop over the whitelist, assigning field by field. */
  method ApplyNotePatch(note: Note, b: NoteBody)
    requires ValidNoteBody(b)
    modifies note
    ensures note.State() == PatchedNote(old(note.State()), b)
  {
    ghost var s := note.State();
    for k := 0 to |AllowedNoteKeys|
      invariant note.owner == s.owner && note.collaborators == s.collaborators
      invariant note.createdAt == s.createdAt && note.updatedAt == s.updatedAt
      invariant note.title == (if k > 0 && b.title.Some? then Trim(b.title.value) else s.title)
      invariant note.content == (if k > 1 && b.content.Some? then Trim(b.content.value) else s.content)
      invariant note.pinned == (if k > 2 && b.pinned.Some? then CastBoolean(b.pinned.value) else s.pinned)
      invariant note.tags == (if k > 3 && b.tags.Some? then b.tags.value.items else s.tags)
    {
      match AllowedNoteKeys[k]
      case NoteTitle =>
        if b.title.Some? { note.title := Trim(b.title.value); }
      case NoteContent =>
        if b.content.Some? { note.content := Trim(b.content.value); }
      case NotePinned =>
        if b.pinned.Some? { note.pinned := CastBoolean(b.pinned.value); }
      case NoteTags =>
        if b.tags.Some? { note.tags := b.tags.value.items; }
    }
  }

  /** PUT /:id: the body is validated, then not found, then edit-gated; the
      whitelisted keys are copied and the document saved. */
  method UpdateNote(note: Note?, user: Auth.ReqUser, b: NoteBody, now: Time) returns (out: Outcome)
    modifies note
    ensures !ValidNoteBody(b) ==> out == BadRequest(InvalidInput)
    ensures ValidNoteBody(b) && note == null ==> out == NotFound(NoteNotFound)
    ensures note != null && out != Success ==> unchanged(note)
    ensures note != null && ValidNoteBody(b) && !CanEdit(Some(old(note.Snapshot())), NoteCaller(user)) ==>
      out == Forbidden(ForbiddenMessage)
    ensures note != null && ValidNoteBody(b) && CanEdit(Some(old(note.Snapshot())), NoteCaller(user)) ==>
      out == Success && note.State() == Stamped(PatchedNote(old(note.State()), b), now)
  {
    if !ValidNoteBody(b) {
      return BadRequest(InvalidInput);
    }
    if note == null {
      return NotFound(NoteNotFound);
    }
    if !CanEdit(Some(note.Snapshot()), NoteCaller(user)) {
      return Forbidden(ForbiddenMessage);
    }
    ApplyNotePatch(note, b);
    note.PreSave(now);
    return Success;
  }

  // ---------------------------------------------------------------------
  // POST /:id/share

  /** The share role is one the note share accepts. */
  predicate ValidNoteShareRole(role: Option<string>)
  {
    role.Some? && role.value in NoteShareRoles
  }

  /** The entry names the user `key`: its `userId` is present and renders as `key`. */
  predicate NamesUser(e: Collaborator, key: string)
  {
    IsTruthy(e.userId) && ToStringOf(e.userId) == Normal(key)
  }

  /** The `find` of the note share route: the index of the first entry naming
      `key`; entries without a `userId` are skipped, so it never throws. */
  function FindUser(cs: seq<Collaborator>, key: string): (r: Option<nat>)
    ensures r.Some? ==> r.value < |cs| && NamesUser(cs[r.value], key)
    ensures r.Some? ==> forall j :: 0 <= j < r.value ==> !NamesUser(cs[j], key)
    ensures r.None? ==> forall j :: 0 <= j < |cs| ==> !NamesUser(cs[j], key)
  {
    if cs == [] then None
    else if NamesUser(cs[0], key) then Some(0)
    else match FindUser(cs[1..], key)
      case None => None
      case Some(i) => Some(i + 1)
  }

  /** Where the task share's `find` throws on an entry without a `userId`,
      the note share's skips it and finds the entry behind. */
  lemma NoteFindSkipsMissingUser()
    ensures var cs := [Collaborator(Obj("c1"), NoId, Some("a@x.io"), Some("viewer")),
                       Collaborator(Obj("c2"), Obj("u1"), None, Some("viewer"))];
      GetCollaborator(cs, "u1") == Throw && FindUser(cs, "u1") == Some(1)
  {
    var cs := [Collaborator(Obj("c1"), NoId, Some("a@x.io"), Some("viewer")),
               Collaborator(Obj("c2"), Obj("u1"), None, Some("viewer"))];
    assert !NamesUser(cs[0], "u1") && NamesUser(cs[1], "u1");
    assert cs[1..][0] == cs[1];
  }

  /** POST /:id/share: the role is checked first, then the note must exist and
      the caller own it; the target is resolved, refused when it is the owner,
      and then upserted: the first entry naming the target gets the new role
      in place, otherwise one entry is appended. The document is then saved. */
  method ShareNote(note: Note?, user: Auth.ReqUser, body: ShareBody, findById: UserLookup,
                   findByEmail: UserLookup, entryId: string, now: Time) returns (out: Outcome)
    modifies note
    ensures !ValidNoteShareRole(body.role) ==> out == BadRequest(InvalidInput)
    ensures ValidNoteShareRole(body.role) && note == null ==> out == NotFound(NoteNotFound)
    ensures note != null && out != Success ==> unchanged(note)
    ensures note != null && ValidNoteShareRole(body.role) ==>
      var owner := IsOwner(Some(old(note.Snapshot())), NoteCaller(user));
      var target := ResolveTarget(body, findById, findByEmail);
      && (!owner ==> out == Forbidden(OnlyOwnerCanShare))
      && (owner && target.Err? ==> out == target.error)
      && (owner && target.Ok? && ToStringOf(old(note.owner)) == Normal(target.value.id) ==> out == BadRequest(NoteAlreadyOwner))
      && (owner && target.Ok? && ToStringOf(old(note.owner)) != Normal(target.value.id) ==>
            var cs := old(note.collaborators);
            var role := body.role.value;
            out == Success &&
            match FindUser(cs, target.value.id)
            case Some(i) =>
              note.State() == Stamped(old(note.State()).(collaborators := cs[i := cs[i].(role := Some(role))]), now)
            case None =>
              note.State() == Stamped(old(note.State()).(collaborators := cs + [NewEntry(entryId, target.value, role)]), now))
    ensures note != null && old(DistinctUsers(note.collaborators) && note.Conforms()) ==> DistinctUsers(note.collaborators)
    ensures note != null && old(note.Conforms()) ==> note.Conforms()
  {
    if !ValidNoteShareRole(body.role) {
      return BadRequest(InvalidInput);
    }
    if note == null {
      return NotFound(NoteNotFound);
    }
    if !IsOwner(Some(note.Snapshot()), NoteCaller(user)) {
      return Forbidden(OnlyOwnerCanShare);
    }
    var role := body.role.value;
    var target;
    match ResolveTarget(body, findById, findByEmail) {
      case Err(e) => return e;
      case Ok(u) => target := u;
    }
    if ToStringOf(note.owner) == Normal(target.id) {
      return BadRequest(NoteAlreadyOwner);
    }
    ghost var cs := note.collaborators;
    match FindUser(note.collaborators, target.id) {
      case Some(i) =>
        note.collaborators := note.collaborators[i := note.collaborators[i].(role := Some(role))];
        if DistinctUsers(cs) {
          SetRoleKeepsDistinct(cs, i, role);
        }
      case None =>
        note.collaborators := note.collaborators + [NewEntry(entryId, target, role)];
        if DistinctUsers(cs) && Sharing.Conforms(cs, NoteRoles) {
          AppendNewKeepsDistinct(cs, NewEntry(entryId, target, role));
        }
    }
    note.PreSave(now);
    return Success;
  }

  // ---------------------------------------------------------------------
  // GET /:id/collaborators

  /** One collaborator as the listing shows it; `NoId` and `None` stand for `null`. */
  datatype CollabView = CollabView(id: IdVal, role: Option<string>, collabId: IdVal)

  /** The listing of one entry: the user id when present, the role when
      non-empty, and the entry's own `_id` when present. */
  function Project(e: Collaborator): (v: CollabView)
    ensures ToIdString(v.id) == ToIdString(e.userId) && (v.id.NoId? <==> !IsTruthy(e.userId))
    ensures Present(v.role) <==> Present(e.role)
    ensures v.role.Some? ==> v.role == e.role && Present(v.role)
    ensures ToIdString(v.collabId) == ToIdString(e.entryId) && (v.collabId.NoId? <==> !IsTruthy(e.entryId))
  {
    CollabView(if IsTruthy(e.userId) then e.userId else NoId,
               if Present(e.role) then e.role else None,
               if IsTruthy(e.entryId) then e.entryId else NoId)
  }

  /** The `map` over the collaborators: one view per entry, in order. */
  function Projection(cs: seq<Collaborator>): (r: seq<CollabView>)
    ensures |r| == |cs|
    ensures forall i :: 0 <= i < |cs| ==> r[i] == Project(cs[i])
  {
    if cs == [] then [] else [Project(cs[0])] + Projection(cs[1..])
  }

  /** Listing a conforming list shows every entry with a user id and a role
      the note schema allows. */
  lemma ConformingListing(cs: seq<Collaborator>)
    requires Sharing.Conforms(cs, NoteRoles)
    ensures forall i :: 0 <= i < |cs| ==> !Projection(cs)[i].id.NoId? && Projection(cs)[i].role.Some?
  {
    var r := Projection(cs);
    forall i | 0 <= i < |cs|
      ensures !r[i].id.NoId? && r[i].role.Some?
    {
      assert r[i] == Project(cs[i]);
      assert cs[i].role.value in NoteRoles;
    }
  }

  /** A `collabId` taken from the listing names an entry that the remove
      route deletes, so removal by it never answers "Collaborator not found". */
  lemma ListedCollabIdRemovesEntry(cs: seq<Collaborator>, i: nat)
    requires i < |cs| && IsTruthy(cs[i].entryId)
    requires forall j :: 0 <= j < |cs| ==> !cs[j].entryId.NoId?
    ensures var key := ToIdString(Projection(cs)[i].collabId).value;
      && Remaining(cs, key).Normal?
      && cs[i] !in Remaining(cs, key).value
      && |Remaining(cs, key).value| < |cs|
  {
    var key := ToIdString(Projection(cs)[i].collabId).value;
    assert Named(cs[i], key);
    RemainingMembers(cs, key);
    RemainingLength(cs, key);
  }

  /** GET /:id/collaborators: not found, then view-gated; the answer is the
      listing of every entry. */
  method ListNoteCollaborators(note: Note?, user: Auth.ReqUser) returns (out: Outcome, list: seq<CollabView>)
    ensures note == null ==> out == NotFound(NoteNotFound) && list == []
    ensures note != null ==> (out == Success <==> CanView(Some(note.Snapshot()), NoteCaller(user)))
    ensures note != null && out != Success ==> out == Forbidden(ForbiddenMessage) && list == []
    ensures out == Success ==> note != null && list == Projection(note.collaborators)
  {
    if note == null {
      return NotFound(NoteNotFound), [];
    }
    if !CanView(Some(note.Snapshot()), NoteCaller(user)) {
      return Forbidden(ForbiddenMessage), [];
    }
    return Success, Projection(note.collaborators);
  }

  // ---------------------------------------------------------------------
  // DELETE /:id/collaborators/:collabId

  /** DELETE /:id/collaborators/:collabId: not found, then owner-only; every
      entry with that `_id` is filtered out, in order; when the filter removed
      nothing the answer is "Collaborator not found" and nothing is saved. */
  method RemoveNoteCollaborator(note: Note?, user: Auth.ReqUser, collabId: string, now: Time) returns (out: Outcome)
    modifies note
    ensures note == null ==> out == NotFound(NoteNotFound)
    ensures note != null && out != Success ==> unchanged(note)
    ensures note != null ==>
      var owner := IsOwner(Some(old(note.Snapshot())), NoteCaller(user));
      var rest := Remaining(old(note.collaborators), collabId);
      && (!owner ==> out == Forbidden(OnlyOwnerCanRemove))
      && (owner && rest.Throw? ==> out == ServerError)
      && (owner && rest.Normal? && |rest.value| == |old(note.collaborators)| ==> out == NotFound(CollaboratorNotFound))
      && (owner && rest.Normal? && |rest.value| < |old(note.collaborators)| ==>
            out == Success && note.State() == Stamped(old(note.State()).(collaborators := rest.value), now))
    ensures note != null && old(note.Conforms()) ==> note.Conforms()
  {
    if note == null {
      return NotFound(NoteNotFound);
    }
    if !IsOwner(Some(note.Snapshot()), NoteCaller(user)) {
      return Forbidden(OnlyOwnerCanRemove);
    }
    var before := |note.collaborators|;
    match Remaining(note.collaborators, collabId) {
      case Throw =>
        return ServerError;
      case Normal(rest) =>
        if |rest| == before {
          RemainingNothingRemoved(note.collaborators, collabId);
        }
        if note.Conforms() {
          RemainingConforms(note.collaborators, collabId, NoteRoles);
        }
        note.collaborators := rest;
    }
    if |note.collaborators| == before {
      return NotFound(CollaboratorNotFound);
    }
    note.PreSave(now);
    return Success;
  }
}
