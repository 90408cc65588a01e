/** The handlers of routes/tasks.js around the access predicates: the list
    filter, create defaults, the whitelist update, and the collaborator share
    and remove edits. Loading and saving go to the database, which is not
    modelled: a handler receives the loaded document (`null` when it was not
    found), edits it in place, and runs the save hook where the source saves.
    Every task route hands the predicates `req.user.id`, a bare string. */
module TaskRoutes {
  import opened Values
  import opened Permissions
  import opened Sharing
  import opened TaskModel
  import Auth

  const TaskNotFound := "Task not found"
  const AlreadyOwner := "User is already owner"

  /** The roles a task share may grant. */
  const ShareRoles: set<string> := {"editor", "commenter", "viewer"}

  /** `req.user.id`, the caller every task route passes to the predicates. */
  function TaskCaller(user: Auth.ReqUser): (c: Caller)
    ensures NormalizeCaller(c).email.None?
    ensures NormalizeCaller(c).id == (if Present(user.id) then user.id else None)
  {
    if user.id.Some? then IdString(user.id.value) else NoCaller
  }

  /** Since task callers carry no email, an entry's email never lets anyone
      in: stripping it changes no verdict. */
  lemma TaskEmailsIgnored(owner: IdVal, cs: seq<Collaborator>, i: nat, user: Auth.ReqUser)
    requires i < |cs|
    ensures var stripped := cs[i := cs[i].(email := None)];
      && CanView(Some(Doc(owner, cs)), TaskCaller(user)) == CanView(Some(Doc(owner, stripped)), TaskCaller(user))
      && CanEdit(Some(Doc(owner, cs)), TaskCaller(user)) == CanEdit(Some(Doc(owner, stripped)), TaskCaller(user))
  {
    var n := NormalizeCaller(TaskCaller(user));
    var stripped := cs[i := cs[i].(email := None)];
    assert forall k :: 0 <= k < |cs| ==> (Matches(cs[k], n) <==> Matches(stripped[k], n));
    assert forall k :: 0 <= k < |cs| ==> (GrantsEdit(cs[k]) <==> GrantsEdit(stripped[k]));
    ViewScanIff(cs, n);
    ViewScanIff(stripped, n);
    EditScanIff(cs, n);
    EditScanIff(stripped, n);
  }

  // ---------------------------------------------------------------------
  // GET /  (list)

  /** The list query: tasks owned by or shared with `userId`, narrowed to a
      status only when the query names a valid one. */
  datatype TaskFilter = TaskFilter(userId: Option<string>, status: Option<Status>)

  function ListFilter(userId: Option<string>, query: Option<string>): (f: TaskFilter)
    ensures f.userId == userId
    ensures f.status.Some? <==> Present(query) && query.value in ValidStatuses
    ensures f.status.Some? ==> StatusName(f.status.value) == query.value
  {
    var status := if Present(query) then ParseStatus(query.value) else None;
    TaskFilter(userId, status)
  }

  /** What the list query selects, for a caller with an id. */
  predicate Selects(f: TaskFilter, t: TaskState)
  {
    && f.userId.Some?
    && (|| ToIdString(t.owner) == f.userId
        || exists i :: 0 <= i < |t.collaborators| && ToIdString(t.collaborators[i].userId) == f.userId)
    && (f.status.Some? ==> t.status == f.status.value)
  }

  /** The list never shows a task that the single-task GET would refuse. */
  lemma ListedTasksAreViewable(userId: string, query: Option<string>, t: TaskState)
    requires userId != ""
    requires Selects(ListFilter(Some(userId), query), t)
    ensures CanView(Some(Doc(t.owner, t.collaborators)), IdString(userId))
  {
    var doc := Some(Doc(t.owner, t.collaborators));
    var n := NormalizeCaller(IdString(userId));
    OwnerCheckSurvivesNormalization(doc, IdString(userId));
    if ToIdString(t.owner) != Some(userId) {
      var i :| 0 <= i < |t.collaborators| && ToIdString(t.collaborators[i].userId) == Some(userId);
      assert Matches(t.collaborators[i], n);
      ViewScanIff(t.collaborators, n);
    }
  }

  // ---------------------------------------------------------------------
  // GET /:id  and  DELETE /:id

  /** GET: not found, then view-gated. */
  method GetTask(task: Task?, user: Auth.ReqUser) returns (out: Outcome)
    ensures task == null ==> out == NotFound(TaskNotFound)
    ensures task != null ==> (out == Success <==> CanView(Some(task.Snapshot()), TaskCaller(user)))
    ensures task != null && out != Success ==> out == Forbidden(ForbiddenMessage)
  {
    if task == null {
      return NotFound(TaskNotFound);
    }
    if !CanView(Some(task.Snapshot()), TaskCaller(user)) {
      return Forbidden(ForbiddenMessage);
    }
    return Success;
  }

  /** DELETE: not found, then owner-only; the deletion itself is the database's. */
  method DeleteTask(task: Task?, user: Auth.ReqUser) returns (out: Outcome)
    ensures task == null ==> out == NotFound(TaskNotFound)
    ensures task != null ==> (out == Success <==> IsOwner(Some(task.Snapshot()), TaskCaller(user)))
    ensures task != null && out != Success ==> out == Forbidden(OnlyOwnerCanDelete)
  {
    if task == null {
      return NotFound(TaskNotFound);
    }
    if !IsOwner(Some(task.Snapshot()), TaskCaller(user)) {
      return Forbidden(OnlyOwnerCanDelete);
    }
    return Success;
  }

  // ---------------------------------------------------------------------
  // POST /  (create)

  /** The body of a POST; `None` is a key that is absent, and for `title`
      also a value that is not a string. */
  datatype NewTask = NewTask(title: Option<string>, description: Option<string>, startDate: Option<string>,
                             endDate: Option<string>, status: Option<string>)

  /** The validators of POST: a non-empty string `title`, and a `status`, when
      sent, from the enumeration. */
  predicate ValidNewTask(body: NewTask)
  {
    && body.title.Some? && body.title.value != ""
    && (body.status.Some? ==> body.status.value in ValidStatuses)
  }

  /** `status && VALID_STATUSES.includes(status) ? status : 'not started'`. */
  function InitialStatus(s: Option<string>): (r: Status)
    ensures Present(s) && s.value in ValidStatuses ==> StatusName(r) == s.value
    ensures !(Present(s) && s.value in ValidStatuses) ==> r == NotStarted
  {
    if Present(s) && ParseStatus(s.value).Some? then ParseStatus(s.value).value else NotStarted
  }

  /** The document a create builds from a validated body, before the save
      hook: owned by the caller, description `''` unless given, start date now
      unless given, no end date unless given. */
  function Initial(user: Auth.ReqUser, body: NewTask, now: Time): (s: TaskState)
    requires ValidNewTask(body)
    ensures s.owner == IdOf(user.id) && s.collaborators == [] && s.title == body.title.value
    ensures s.description == (if Present(body.description) then body.description.value else "")
    ensures s.startDate == Some(if Present(body.startDate) then Parsed(body.startDate.value) else now)
    ensures s.endDate == (if Present(body.endDate) then Some(Parsed(body.endDate.value)) else None)
    ensures s.status == InitialStatus(body.status) && !s.done
  {
    TaskState(IdOf(user.id), [], body.title.value,
              if Present(body.description) then body.description.value else "",
              Some(if Present(body.startDate) then Parsed(body.startDate.value) else now),
              if Present(body.endDate) then Some(Parsed(body.endDate.value)) else None,
              InitialStatus(body.status), false, now, now)
  }

  /** Once the body is validated, the status it names is the status created,
      and an absent one is `not started`. */
  lemma ValidatedStatusIsKept(user: Auth.ReqUser, body: NewTask, now: Time)
    requires ValidNewTask(body)
    ensures body.status.Some? ==> StatusName(Initial(user, body, now).status) == body.status.value
    ensures body.status.None? ==> Initial(user, body, now).status == NotStarted
  {
    if body.status.Some? {
      assert Present(body.status) by {
        assert body.status.value in ValidStatuses;
        assert "" !in ValidStatuses;
      }
    }
  }

  /** POST /: an invalid body is refused with `400`; otherwise a new task as
      built, then saved (a task created `completed` is done). */
  method CreateTask(user: Auth.ReqUser, body: NewTask, now: Time) returns (out: Outcome, task: Task?)
    ensures !ValidNewTask(body) ==> out == BadRequest(InvalidInput) && task == null
    ensures ValidNewTask(body) ==> out == Success && task != null && fresh(task)
    ensures ValidNewTask(body) ==> task.State() == Saved(Initial(user, body, now), now)
  {
    if !ValidNewTask(body) {
      return BadRequest(InvalidInput), null;
    }
    var s := Initial(user, body, now);
    task := new Task(s.owner, s.title, s.description, s.startDate, s.endDate, s.status, now);
    task.PreSave(now);
    out := Success;
  }

  // ---------------------------------------------------------------------
  // PUT /:id  (update)

  datatype TaskKey = TitleKey | DescriptionKey | StartDateKey | EndDateKey | StatusKey | DoneKey

  /** The keys a PUT may set, in the order the loop visits them. */
  const AllowedTaskKeys: seq<TaskKey> := [TitleKey, DescriptionKey, StartDateKey, EndDateKey, StatusKey, DoneKey]

  /** The body of a PUT; `None` is a key that is absent (`undefined`). A date
      key holds `None` for a falsy value such as `null` or `''`. */
  datatype TaskPatch = TaskPatch(title: Option<string>, description: Option<string>,
                                 startDate: Option<Option<string>>, endDate: Option<Option<string>>,
                                 status: Option<Status>, done: Option<bool>)

  /** `value ? new Date(value) : null`. */
  function DateArg(v: Option<string>): (r: Option<Time>)
    ensures r.Some? <==> Present(v)
    ensures r.Some? ==> r.value == Parsed(v.value)
  {
    if Present(v) then Some(Parsed(v.value)) else None
  }

  /** The document after the whitelist loop: each present whitelisted key is
      copied, and nothing else changes, in particular not the owner or the
      collaborators. */
  function Patched(s: TaskState, p: TaskPatch): (r: TaskState)
    ensures r.owner == s.owner && r.collaborators == s.collaborators
    ensures r.createdAt == s.createdAt && r.updatedAt == s.updatedAt
    ensures r.title == (if p.title.Some? then p.title.value else s.title)
    ensures r.description == (if p.description.Some? then p.description.value else s.description)
    ensures r.startDate == (if p.startDate.Some? then DateArg(p.startDate.value) else s.startDate)
    ensures r.endDate == (if p.endDate.Some? then DateArg(p.endDate.value) else s.endDate)
    ensures r.status == (if p.status.Some? then p.status.value else s.status)
    ensures r.done == (if p.done.Some? then p.done.value else s.done)
    ensures p == TaskPatch(None, None, None, None, None, None) ==> r == s
  {
    s.(title := Or(p.title, s.title),
       description := Or(p.description, s.description),
       startDate := if p.startDate.Some? then DateArg(p.startDate.value) else s.startDate,
       endDate := if p.endDate.Some? then DateArg(p.endDate.value) else s.endDate,
       status := Or(p.status, s.status),
       done := Or(p.done, s.done))
  }

  /** A `done` sent with a PUT never survives the save: the saved document is
      the same as if the key had not been sent. */
  lemma DoneInPutIsOverridden(s: TaskState, p: TaskPatch, now: Time)
    ensures Saved(Patched(s, p), now) == Saved(Patched(s, p.(done := None)), now)
    ensures Saved(Patched(s, p), now).done <==> Or(p.status, s.status) == Completed
  {
  }

  /** The `for...of` loop over the whitelist, assigning field by field. */
  method ApplyPatch(task: Task, p: TaskPatch)
    modifies task
    ensures task.State() == Patched(old(task.State()), p)
  {
    ghost var s := task.State();
    for k := 0 to |AllowedTaskKeys|
      invariant task.owner == s.owner && task.collaborators == s.collaborators
      invariant task.createdAt == s.createdAt && task.updatedAt == s.updatedAt
      invariant task.title == (if k > 0 then Or(p.title, s.title) else s.title)
      invariant task.description == (if k > 1 then Or(p.description, s.description) else s.description)
      invariant task.startDate == (if k > 2 && p.startDate.Some? then DateArg(p.startDate.value) else s.startDate)
      invariant task.endDate == (if k > 3 && p.endDate.Some? then DateArg(p.endDate.value) else s.endDate)
      invariant task.status == (if k > 4 then Or(p.status, s.status) else s.status)
      invariant task.done == (if k > 5 then Or(p.done, s.done) else s.done)
    {
      match AllowedTaskKeys[k]
      case TitleKey =>
        if p.title.Some? { task.title := p.title.value; }
      case DescriptionKey =>
        if p.description.Some? { task.description := p.description.value; }
      case StartDateKey =>
        if p.startDate.Some? { task.startDate := DateArg(p.startDate.value); }
      case EndDateKey =>
        if p.endDate.Some? { task.endDate := DateArg(p.endDate.value); }
      case StatusKey =>
        if p.status.Some? { task.status := p.status.value; }
      case DoneKey =>
        if p.done.Some? { task.done := p.done.value; }
    }
  }

  /** PUT /:id: not found, then edit-gated; the whitelisted keys are copied
      and the document saved. */
  method UpdateTask(task: Task?, user: Auth.ReqUser, p: TaskPatch, now: Time) returns (out: Outcome)
    modifies task
    ensures task == null ==> out == NotFound(TaskNotFound)
    ensures task != null && !CanEdit(Some(old(task.Snapshot())), TaskCaller(user)) ==>
      out == Forbidden(ForbiddenMessage) && unchanged(task)
    ensures task != null && CanEdit(Some(old(task.Snapshot())), TaskCaller(user)) ==>
      out == Success && task.State() == Saved(Patched(old(task.State()), p), now)
  {
    if task == null {
      return NotFound(TaskNotFound);
    }
    if !CanEdit(Some(task.Snapshot()), TaskCaller(user)) {
      return Forbidden(ForbiddenMessage);
    }
    ApplyPatch(task, p);
    task.PreSave(now);
    return Success;
  }

  // ---------------------------------------------------------------------
  // POST /:id/share

  /** The share role is one the task share accepts. */
  predicate ValidShareRole(role: Option<string>)
  {
    role.Some? && role.value in ShareRoles
  }

  /** POST /:id/share: the role is checked first, then the task must exist and
      the caller own it; the target is resolved, refused when it is the owner,
      and then upserted: an entry already naming the target (first by
      `userId.toString()`) gets the new role in place, otherwise one entry is
      appended. The document is then saved. */
  method ShareTask(task: Task?, user: Auth.ReqUser, body: ShareBody, findById: UserLookup,
                   findByEmail: UserLookup, entryId: string, now: Time) returns (out: Outcome)
    modifies task
    ensures !ValidShareRole(body.role) ==> out == BadRequest(InvalidInput)
    ensures ValidShareRole(body.role) && task == null ==> out == NotFound(TaskNotFound)
    ensures task != null && out != Success ==> unchanged(task)
    ensures task != null && ValidShareRole(body.role) ==>
      var owner := IsOwner(Some(old(task.Snapshot())), TaskCaller(user));
      var target := ResolveTarget(body, findById, findByEmail);
      && (!owner ==> out == Forbidden(OnlyOwnerCanShare))
      && (owner && target.Err? ==> out == target.error)
      && (owner && target.Ok? && ToStringOf(old(task.owner)) == Normal(target.value.id) ==> out == BadRequest(AlreadyOwner))
      && (owner && target.Ok? && ToStringOf(old(task.owner)) != Normal(target.value.id) ==>
            var cs := old(task.collaborators);
            var role := body.role.value;
            match GetCollaborator(cs, target.value.id)
            case Throw => out == ServerError
            case Normal(Some(i)) =>
              out == Success && task.State() == Saved(old(task.State()).(collaborators := cs[i := cs[i].(role := Some(role))]), now)
            case Normal(None) =>
              out == Success && task.State() == Saved(old(task.State()).(collaborators := cs + [NewEntry(entryId, target.value, role)]), now))
    ensures task != null && old(DistinctUsers(task.collaborators)) ==> DistinctUsers(task.collaborators)
    ensures task != null && old(task.Conforms()) ==> task.Conforms()
  {
    if !ValidShareRole(body.role) {
      return BadRequest(InvalidInput);
    }
    if task == null {
      return NotFound(TaskNotFound);
    }
    if !IsOwner(Some(task.Snapshot()), TaskCaller(user)) {
      return Forbidden(OnlyOwnerCanShare);
    }
    var role := body.role.value;
    var target;
    match ResolveTarget(body, findById, findByEmail) {
      case Err(e) => return e;
      case Ok(u) => target := u;
    }
    if ToStringOf(task.owner) == Normal(target.id) {
      return BadRequest(AlreadyOwner);
    }
    ghost var cs := task.collaborators;
    match GetCollaborator(task.collaborators, target.id) {
      case Throw =>
        return ServerError;
      case Normal(Some(i)) =>
        task.collaborators := task.collaborators[i := task.collaborators[i].(role := Some(role))];
        if DistinctUsers(cs) {
          SetRoleKeepsDistinct(cs, i, role);
        }
      case Normal(None) =>
        task.collaborators := task.collaborators + [NewEntry(entryId, target, role)];
        if DistinctUsers(cs) {
          AppendNewKeepsDistinct(cs, NewEntry(entryId, target, role));
        }
    }
    task.PreSave(now);
    return Success;
  }

  // ---------------------------------------------------------------------
  // DELETE /:id/collaborators/:collabId

  /** DELETE /:id/collaborators/:collabId: not found, then owner-only; every
      entry with that `_id` is filtered out, in order; when the filter removed
      nothing the answer is "Collaborator not found" and nothing is saved. */
  method RemoveTaskCollaborator(task: Task?, user: Auth.ReqUser, collabId: string, now: Time) returns (out: Outcome)
    modifies task
    ensures task == null ==> out == NotFound(TaskNotFound)
    ensures task != null && out != Success ==> unchanged(task)
    ensures task != null ==>
      var owner := IsOwner(Some(old(task.Snapshot())), TaskCaller(user));
      var rest := Remaining(old(task.collaborators), collabId);
      && (!owner ==> out == Forbidden(OnlyOwnerCanRemove))
      && (owner && rest.Throw? ==> out == ServerError)
      && (owner && rest.Normal? && |rest.value| == |old(task.collaborators)| ==> out == NotFound(CollaboratorNotFound))
      && (owner && rest.Normal? && |rest.value| < |old(task.collaborators)| ==>
            out == Success && task.State() == Saved(old(task.State()).(collaborators := rest.value), now))
    ensures task != null && old(task.Conforms()) ==> task.Conforms()
  {
    if task == null {
      return NotFound(TaskNotFound);
    }
    if !IsOwner(Some(task.Snapshot()), TaskCaller(user)) {
      return Forbidden(OnlyOwnerCanRemove);
    }
    var before := |task.collaborators|;
    match Remaining(task.collaborators, collabId) {
      case Throw =>
        return ServerError;
      case Normal(rest) =>
        if |rest| == before {
          RemainingNothingRemoved(task.collaborators, collabId);
        }
        if task.Conforms() {
          RemainingConforms(task.collaborators, collabId, TaskRoles);
        }
        task.collaborators := rest;
    }
    if |task.collaborators| == before {
      return NotFound(CollaboratorNotFound);
    }
    task.PreSave(now);
    return Success;
  }
}
