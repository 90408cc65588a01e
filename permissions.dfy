/** The access predicates of utils/permissions.js: rendering ids, normalizing
    the caller, and the owner / edit / comment / view checks over a document's
    owner id and ordered collaborator list. All are total: a missing document
    or an unusable caller yields `false`, never an error, except that the
    `find` behind `canComment` calls `toString()` on entries and throws on one
    with no `userId`. */
module Permissions {
  import opened Values

  /** One collaborator entry as stored: its own `_id`, the user it names (by
      id, or by email when invited by email) and its role text. */
  datatype Collaborator = Collaborator(entryId: IdVal, userId: IdVal, email: Option<string>, role: Option<string>)

  /** The part of a task or note the predicates read: `doc.userId` (the owner)
      and `doc.collaborators`. */
  datatype Doc = Doc(owner: IdVal, collaborators: seq<Collaborator>)

  /** What a route hands the predicates as the caller: nothing, a bare id
      string (`req.user.id`), or an object with `id`, `_id` and `email` fields
      (`req.user`, or an already normalized pair). */
  datatype Caller = NoCaller | IdString(s: string) | Record(id: IdVal, underscoreId: IdVal, email: Option<string>)

  /** The normalized caller `{id, email}`; `None` stands for `null`. */
  datatype Norm = Norm(id: Option<string>, email: Option<string>)

  const EditRoles: set<string> := {"editor", "owner"}
  const CommentRoles: set<string> := {"commenter", "editor", "owner"}

  /** `_toIdString`: the string form of an id value, `None` for a missing one
      or the empty string. */
  function ToIdString(v: IdVal): (r: Option<string>)
    ensures r.Some? <==> IsTruthy(v)
    ensures r.Some? ==> ToStringOf(v) == Normal(r.value)
    ensures v.Str? && r.Some? ==> Present(r)
  {
    match v
    case NoId => None
    case Str(s) => if s == "" then None else Some(s)
    case Obj(x) => Some(x)
  }

  /** JavaScript truthiness of the caller argument (`!caller`). */
  predicate CallerTruthy(c: Caller)
  {
    match c
    case NoCaller => false
    case IdString(s) => s != ""
    case Record(_, _, _) => true
  }

  /** The effective `_normalizeCaller` (the later of its two declarations):
      a string caller is an id; an object caller takes `id`, else `_id`, and
      its lower-cased email; a falsy caller normalizes to `{null, null}`. */
  function NormalizeCaller(c: Caller): (r: Norm)
    ensures !CallerTruthy(c) ==> r == Norm(None, None)
    ensures c.IdString? && c.s != "" ==> r == Norm(Some(c.s), None)
    ensures c.Record? ==> (r.id.Some? <==> IsTruthy(c.id) || IsTruthy(c.underscoreId))
    ensures c.Record? && IsTruthy(c.id) ==> r.id == ToIdString(c.id)
    ensures c.Record? && !IsTruthy(c.id) ==> r.id == (if IsTruthy(c.underscoreId) then ToIdString(c.underscoreId) else None)
    ensures c.Record? ==> r.email == (if Present(c.email) then Some(Lower(c.email.value)) else None)
    ensures r.email.Some? ==> c.Record? && Present(r.email) && Lower(r.email.value) == r.email.value
  {
    match c
    case NoCaller => Norm(None, None)
    case IdString(s) => if s == "" then Norm(None, None) else Norm(Some(s), None)
    case Record(id, underscoreId, email) =>
      var nid := if IsTruthy(id) then ToIdString(id)
                 else if IsTruthy(underscoreId) then ToIdString(underscoreId)
                 else None;
      var nemail := if Present(email) then Some(LowerNonEmpty(email.value)) else None;
      Norm(nid, nemail)
  }

  /** Lower-casing keeps a non-empty string non-empty and yields a fixed point. */
  function LowerNonEmpty(s: string): (r: string)
    requires s != ""
    ensures r != "" && r == Lower(s) && Lower(r) == r
  {
    LowerIdempotent(s);
    Lower(s)
  }

  /** The normalized pair passed back into `isOwner` as an object `{id, email}`. */
  function AsCaller(n: Norm): Caller
  {
    Record(IdOf(n.id), NoId, n.email)
  }

  /** `isOwner`: the owner id and the normalized caller id are both truthy and equal. */
  predicate IsOwner(doc: Option<Doc>, c: Caller)
  {
    && doc.Some?
    && var ownerId := ToIdString(doc.value.owner);
       var callerId := NormalizeCaller(c).id;
       Present(ownerId) && Present(callerId) && ownerId == callerId
  }

  /** The lower-cased email of an entry, or `null`. */
  function EntryEmail(e: Collaborator): Option<string>
  {
    if Present(e.email) then Some(Lower(e.email.value)) else None
  }

  /** The role text `canEdit` compares: lower-cased, or `''` when absent. */
  function EditRoleText(e: Collaborator): string
  {
    if Present(e.role) then Lower(e.role.value) else ""
  }

  /** The entry names the caller by its user id (both sides truthy). */
  predicate IdMatch(e: Collaborator, n: Norm)
  {
    var u := ToIdString(e.userId);
    Present(u) && Present(n.id) && u == n.id
  }

  /** The entry names the caller by email (both sides truthy, lower-cased). */
  predicate EmailMatch(e: Collaborator, n: Norm)
  {
    var m := EntryEmail(e);
    Present(m) && Present(n.email) && m == n.email
  }

  predicate Matches(e: Collaborator, n: Norm)
  {
    IdMatch(e, n) || EmailMatch(e, n)
  }

  predicate GrantsEdit(e: Collaborator)
  {
    EditRoleText(e) in EditRoles
  }

  /** The `for...of` loop of `canEdit`, with its early returns: scanning goes
      on past a matching entry whose role does not allow editing. */
  predicate EditScan(cs: seq<Collaborator>, n: Norm)
  {
    if cs == [] then false
    else if IdMatch(cs[0], n) && GrantsEdit(cs[0]) then true
    else if EmailMatch(cs[0], n) && GrantsEdit(cs[0]) then true
    else EditScan(cs[1..], n)
  }

  /** The `for...of` loop of `canView`: the first matching entry grants view. */
  predicate ViewScan(cs: seq<Collaborator>, n: Norm)
  {
    if cs == [] then false
    else if IdMatch(cs[0], n) then true
    else if EmailMatch(cs[0], n) then true
    else ViewScan(cs[1..], n)
  }

  /** `canEdit`: the owner, or any entry matching by id or email whose
      lower-cased role is `editor` or `owner`. */
  predicate CanEdit(doc: Option<Doc>, c: Caller)
  {
    && doc.Some?
    && var n := NormalizeCaller(c);
       IsOwner(doc, AsCaller(n)) || EditScan(doc.value.collaborators, n)
  }

  /** `canView`: the owner, or any entry matching by id or email. */
  predicate CanView(doc: Option<Doc>, c: Caller)
  {
    && doc.Some?
    && var n := NormalizeCaller(c);
       IsOwner(doc, AsCaller(n)) || ViewScan(doc.value.collaborators, n)
  }

  /** The `find` of `getCollaborator` (and of the task share route): the index
      of the first entry whose `userId.toString()` equals `key`; the scan
      throws when it reaches an entry without a `userId` first. */
  function GetCollaborator(cs: seq<Collaborator>, key: string): (r: Completion<Option<nat>>)
    ensures r.Normal? && r.value.Some? ==>
      && r.value.value < |cs|
      && ToStringOf(cs[r.value.value].userId) == Normal(key)
      && forall j :: 0 <= j < r.value.value ==> ToStringOf(cs[j].userId).Normal? && ToStringOf(cs[j].userId).value != key
    ensures r == Normal(None) ==>
      forall j :: 0 <= j < |cs| ==> ToStringOf(cs[j].userId).Normal? && ToStringOf(cs[j].userId).value != key
    ensures r.Throw? ==>
      exists j :: 0 <= j < |cs| && cs[j].userId.NoId? &&
        forall k :: 0 <= k < j ==> ToStringOf(cs[k].userId) != Normal(key)
  {
    if cs == [] then Normal(None)
    else match ToStringOf(cs[0].userId)
      case Throw => Throw
      case Normal(u) =>
        if u == key then Normal(Some(0))
        else match GetCollaborator(cs[1..], key)
          case Throw => Throw
          case Normal(None) => Normal(None)
          case Normal(Some(i)) => Normal(Some(i + 1))
  }

  /** `canComment`: the owner, or else the FIRST entry whose user id string
      equals `userId` decides, by its role compared case-sensitively against
      {commenter, editor, owner}; entries invited by email are never looked at. */
  function CanComment(doc: Option<Doc>, userId: string): (r: Completion<bool>)
    ensures doc.None? ==> r == Normal(false)
    ensures IsOwner(doc, IdString(userId)) ==> r == Normal(true)
    ensures doc.Some? && !IsOwner(doc, IdString(userId)) ==>
      var cs := doc.value.collaborators;
      match GetCollaborator(cs, userId)
      case Throw => r == Throw
      case Normal(None) => r == Normal(false)
      case Normal(Some(i)) => i < |cs| && r == Normal(cs[i].role.Some? && cs[i].role.value in CommentRoles)
    ensures r == Normal(true) ==>
      || IsOwner(doc, IdString(userId))
      || exists i :: 0 <= i < |doc.value.collaborators| &&
           ToStringOf(doc.value.collaborators[i].userId) == Normal(userId) &&
           doc.value.collaborators[i].role.Some? && doc.value.collaborators[i].role.value in CommentRoles
  {
    if doc.None? then Normal(false)
    else if IsOwner(doc, IdString(userId)) then Normal(true)
    else
      var cs := doc.value.collaborators;
      match GetCollaborator(cs, userId)
      case Throw => Throw
      case Normal(None) => Normal(false)
      case Normal(Some(i)) => Normal(cs[i].role.Some? && cs[i].role.value in CommentRoles)
  }

  // ---------------------------------------------------------------------
  // Properties of the predicates

  /** No document, no access: every predicate answers `false`. */
  lemma MissingDocDeniesAll(c: Caller, userId: string)
    ensures !IsOwner(None, c) && !CanEdit(None, c) && !CanView(None, c)
    ensures CanComment(None, userId) == Normal(false)
  {
  }

  /** Re-normalizing a normalized caller gives it back, unless its id is an
      empty string (which only an object whose string form is empty yields). */
  lemma NormalizeIdempotent(c: Caller)
    requires NormalizeCaller(c).id != Some("")
    ensures NormalizeCaller(AsCaller(NormalizeCaller(c))) == NormalizeCaller(c)
  {
    var n := NormalizeCaller(c);
    if n.email.Some? {
      LowerIdempotent(n.email.value);
    }
  }

  /** Passing the normalized pair into `isOwner`, as `canEdit` and `canView`
      do, decides ownership exactly as passing the caller itself. */
  lemma OwnerCheckSurvivesNormalization(doc: Option<Doc>, c: Caller)
    ensures IsOwner(doc, AsCaller(NormalizeCaller(c))) == IsOwner(doc, c)
  {
    var n := NormalizeCaller(c);
    if n.id != Some("") {
      NormalizeIdempotent(c);
    }
  }

  /** The loop of `canEdit` grants edit exactly when SOME entry matches the
      caller by id or email and carries an edit role; matching entries with
      other roles earlier in the list do not stop it. */
  lemma {:induction false} EditScanIff(cs: seq<Collaborator>, n: Norm)
    ensures EditScan(cs, n) <==> exists i :: 0 <= i < |cs| && Matches(cs[i], n) && GrantsEdit(cs[i])
  {
    if cs != [] {
      EditScanIff(cs[1..], n);
      if exists i :: 0 <= i < |cs| && Matches(cs[i], n) && GrantsEdit(cs[i]) {
        var i :| 0 <= i < |cs| && Matches(cs[i], n) && GrantsEdit(cs[i]);
        if i > 0 {
          assert cs[1..][i - 1] == cs[i];
        }
      }
    }
  }

  /** The loop of `canView` grants view exactly when some entry matches the
      caller by id or email, whatever its role. */
  lemma {:induction false} ViewScanIff(cs: seq<Collaborator>, n: Norm)
    ensures ViewScan(cs, n) <==> exists i :: 0 <= i < |cs| && Matches(cs[i], n)
  {
    if cs != [] {
      ViewScanIff(cs[1..], n);
      if exists i :: 0 <= i < |cs| && Matches(cs[i], n) {
        var i :| 0 <= i < |cs| && Matches(cs[i], n);
        if i > 0 {
          assert cs[1..][i - 1] == cs[i];
        }
      }
    }
  }

  /** For a bare id string, `isOwner` holds exactly when the id is non-empty,
      the owner id is set, and the owner id renders as that string. */
  lemma OwnerByIdString(d: Doc, userId: string)
    ensures IsOwner(Some(d), IdString(userId)) <==>
      userId != "" && IsTruthy(d.owner) && ToStringOf(d.owner) == Normal(userId)
  {
  }

  /** `canEdit` is the owner check or some entry, anywhere in the list, that
      names the caller and grants editing. */
  lemma CanEditIff(doc: Option<Doc>, c: Caller)
    ensures CanEdit(doc, c) <==>
      && doc.Some?
      && (|| IsOwner(doc, c)
          || exists i :: 0 <= i < |doc.value.collaborators| &&
               Matches(doc.value.collaborators[i], NormalizeCaller(c)) && GrantsEdit(doc.value.collaborators[i]))
  {
    if doc.Some? {
      OwnerCheckSurvivesNormalization(doc, c);
      EditScanIff(doc.value.collaborators, NormalizeCaller(c));
    }
  }

  /** `canView` is the owner check or some entry that names the caller. */
  lemma CanViewIff(doc: Option<Doc>, c: Caller)
    ensures CanView(doc, c) <==>
      && doc.Some?
      && (|| IsOwner(doc, c)
          || exists i :: 0 <= i < |doc.value.collaborators| && Matches(doc.value.collaborators[i], NormalizeCaller(c)))
  {
    if doc.Some? {
      OwnerCheckSurvivesNormalization(doc, c);
      ViewScanIff(doc.value.collaborators, NormalizeCaller(c));
    }
  }

  /** The owner may edit, view and comment. */
  lemma OwnerCanDoEverything(doc: Option<Doc>, c: Caller)
    requires IsOwner(doc, c)
    ensures CanEdit(doc, c) && CanView(doc, c)
    ensures c.IdString? ==> CanComment(doc, c.s) == Normal(true)
  {
    OwnerCheckSurvivesNormalization(doc, c);
  }

  /** Whoever may edit may view. */
  lemma EditImpliesView(doc: Option<Doc>, c: Caller)
    requires CanEdit(doc, c)
    ensures CanView(doc, c)
  {
    var n := NormalizeCaller(c);
    if !IsOwner(doc, AsCaller(n)) {
      EditScanIff(doc.value.collaborators, n);
      ViewScanIff(doc.value.collaborators, n);
    }
  }

  /** Whoever may comment by a non-empty user id may view with that id. */
  lemma CommentImpliesView(doc: Option<Doc>, userId: string)
    requires userId != ""
    requires CanComment(doc, userId) == Normal(true)
    ensures CanView(doc, IdString(userId))
  {
    var n := NormalizeCaller(IdString(userId));
    OwnerCheckSurvivesNormalization(doc, IdString(userId));
    if !IsOwner(doc, IdString(userId)) {
      var cs := doc.value.collaborators;
      var i :| 0 <= i < |cs| && ToStringOf(cs[i].userId) == Normal(userId) &&
               cs[i].role.Some? && cs[i].role.value in CommentRoles;
      assert IdMatch(cs[i], n);
      ViewScanIff(cs, n);
    }
  }

  /** A caller that normalizes to `{null, null}` (no caller, `""`, or an
      object without a truthy `id`, `_id` or `email`) is refused everything. */
  lemma NullCallerRefused(doc: Option<Doc>, c: Caller)
    requires NormalizeCaller(c) == Norm(None, None)
    ensures !IsOwner(doc, c) && !CanEdit(doc, c) && !CanView(doc, c)
  {
    if doc.Some? {
      EditScanIff(doc.value.collaborators, Norm(None, None));
      ViewScanIff(doc.value.collaborators, Norm(None, None));
    }
  }

  /** An entry naming neither a user id nor an email. */
  predicate Anonymous(e: Collaborator)
  {
    !IsTruthy(e.userId) && !Present(e.email)
  }

  /** Entries with neither `userId` nor `email` never match, so dropping them
      changes neither `canEdit` nor `canView`. */
  lemma AnonymousEntryIgnored(owner: IdVal, pre: seq<Collaborator>, e: Collaborator, post: seq<Collaborator>, c: Caller)
    requires Anonymous(e)
    ensures CanEdit(Some(Doc(owner, pre + [e] + post)), c) == CanEdit(Some(Doc(owner, pre + post)), c)
    ensures CanView(Some(Doc(owner, pre + [e] + post)), c) == CanView(Some(Doc(owner, pre + post)), c)
  {
    var n := NormalizeCaller(c);
    var long, short := pre + [e] + post, pre + post;
    EditScanIff(long, n);
    EditScanIff(short, n);
    ViewScanIff(long, n);
    ViewScanIff(short, n);
    assert forall i :: 0 <= i < |short| ==> short[i] == long[if i < |pre| then i else i + 1];
    assert forall i :: 0 <= i < |long| && i != |pre| ==> long[i] == short[if i < |pre| then i else i - 1];
    assert !Matches(long[|pre|], n);
  }

  /** `canEdit` takes any matching entry while `canComment` takes the first:
      a `viewer` entry listed before an `editor` entry for the same user lets
      that user edit but not comment. */
  lemma EditAnyMatchCommentFirstMatch()
    ensures var doc := Some(Doc(Str("o1"), [Collaborator(Obj("e1"), Str("u1"), None, Some("viewer")),
                                            Collaborator(Obj("e2"), Str("u1"), None, Some("editor"))]));
            CanEdit(doc, IdString("u1")) && CanComment(doc, "u1") == Normal(false)
  {
    var cs := [Collaborator(Obj("e1"), Str("u1"), None, Some("viewer")),
               Collaborator(Obj("e2"), Str("u1"), None, Some("editor"))];
    var n := Norm(Some("u1"), None);
    assert Lower("editor") == "editor" by { LowerOfLower("editor"); }
    EditScanIff(cs, n);
    assert Matches(cs[1], n) && GrantsEdit(cs[1]);
  }

  /** Roles are lower-cased by `canEdit` but compared as written by
      `canComment`: an entry with role `Editor` may edit but not comment. */
  lemma RoleCaseMattersOnlyForComment()
    ensures var doc := Some(Doc(Str("o1"), [Collaborator(Obj("e1"), Str("u1"), None, Some("Editor"))]));
            CanEdit(doc, IdString("u1")) && CanComment(doc, "u1") == Normal(false)
  {
    var e := Collaborator(Obj("e1"), Str("u1"), None, Some("Editor"));
    assert Lower("Editor") == "editor";
    assert GrantsEdit(e);
  }

  /** Emails match regardless of case: an entry invited as `Al@X` lets a
      caller whose email is `aL@x` view. */
  lemma EmailMatchIgnoresCase()
    ensures CanView(Some(Doc(Str("o1"), [Collaborator(Obj("e1"), NoId, Some("Al@X"), Some("viewer"))])),
                    Record(Str("u1"), NoId, Some("aL@x")))
  {
    assert Lower("Al@X") == "al@x";
    assert Lower("aL@x") == "al@x";
  }
}
