/** The task document of models/Task.js: its fields, the status and role
    enumerations, the `pre('save')` hook that derives `done` from `status`,
    and the `pre('findOneAndUpdate')` hook that does the same on an update. */
module TaskModel {
  import opened Values
  import opened Permissions
  import Sharing

  datatype Status = NotStarted | Active | Completed

  /** `VALID_STATUSES`, in the order the source lists them. */
  const ValidStatuses: seq<string> := ["not started", "active", "completed"]

  /** The collaborator roles the task schema allows. */
  const TaskRoles: set<string> := {"editor", "commenter", "viewer", "owner"}

  function StatusName(s: Status): string
  {
    match s
    case NotStarted => "not started"
    case Active => "active"
    case Completed => "completed"
  }

  /** `VALID_STATUSES.includes(s)`, giving the status it names. */
  function ParseStatus(s: string): (r: Option<Status>)
    ensures r.Some? <==> s in ValidStatuses
    ensures r.Some? ==> StatusName(r.value) == s
  {
    if s == "not started" then Some(NotStarted)
    else if s == "active" then Some(Active)
    else if s == "completed" then Some(Completed)
    else None
  }

  /** Every status is recognised by its own name. */
  lemma StatusRoundTrip(st: Status)
    ensures ParseStatus(StatusName(st)) == Some(st)
  {
  }

  /** All fields of a task document at one moment. */
  datatype TaskState = TaskState(
    owner: IdVal,
    collaborators: seq<Collaborator>,
    title: string,
    description: string,
    startDate: Option<Time>,
    endDate: Option<Time>,
    status: Status,
    done: bool,
    createdAt: Time,
    updatedAt: Time)

  /** What the save hook makes of a document: `done` follows `status` and
      `updatedAt` is the time of the save. */
  function Saved(s: TaskState, now: Time): (r: TaskState)
    ensures r.done <==> r.status == Completed
    ensures r.updatedAt == now
    ensures r.(done := s.done, updatedAt := s.updatedAt) == s
  {
    s.(done := s.status == Completed, updatedAt := now)
  }

  /** Saving twice at the same time is saving once. */
  lemma SavedIdempotent(s: TaskState, now: Time)
    ensures Saved(Saved(s, now), now) == Saved(s, now)
  {
  }

  /** A task document, updated in place by the routes before it is saved. */
  class Task {
    var owner: IdVal
    var collaborators: seq<Collaborator>
    var title: string
    var description: string
    var startDate: Option<Time>
    var endDate: Option<Time>
    var status: Status
    var done: bool
    var createdAt: Time
    var updatedAt: Time

    /** A new document: no collaborators, not done, created now. */
    constructor (owner: IdVal, title: string, description: string, startDate: Option<Time>,
                 endDate: Option<Time>, status: Status, now: Time)
      ensures State() == TaskState(owner, [], title, description, startDate, endDate, status, false, now, now)
    {
      this.owner := owner;
      this.collaborators := [];
      this.title := title;
      this.description := description;
      this.startDate := startDate;
      this.endDate := endDate;
      this.status := status;
      this.done := false;
      this.createdAt := now;
      this.updatedAt := now;
    }

    function State(): TaskState
      reads this
    {
      TaskState(owner, collaborators, title, description, startDate, endDate, status, done, createdAt, updatedAt)
    }

    /** The owner and collaborators, as the access predicates read them. */
    function Snapshot(): (d: Doc)
      reads this
      ensures d.owner == owner && d.collaborators == collaborators
    {
      Doc(owner, collaborators)
    }

    /** The collaborators fit the schema: each has a `userId` and a role from
        `TaskRoles`. */
    predicate Conforms()
      reads this
    {
      Sharing.Conforms(collaborators, TaskRoles)
    }

    /** `pre('save')`: `done` is recomputed from `status`, overriding any
        value set before, and `updatedAt` is refreshed. */
    method PreSave(now: Time)
      modifies this
      ensures State() == Saved(old(State()), now)
    {
      if status == Completed {
        done := true;
      } else {
        done := false;
      }
      updatedAt := now;
    }
  }

  /** The update object a `findOneAndUpdate` carries, as far as the hook
      reads and writes it. */
  class TaskUpdate {
    var status: Option<string>
    var done: Option<bool>
    var updatedAt: Option<Time>

    constructor (status: Option<string>, done: Option<bool>, updatedAt: Option<Time>)
      ensures this.status == status && this.done == done && this.updatedAt == updatedAt
    {
      this.status := status;
      this.done := done;
      this.updatedAt := updatedAt;
    }
  }

  /** `pre('findOneAndUpdate')`: with no update, nothing happens; otherwise
      `done` is recomputed only when the update sets a (truthy) status, and
      `updatedAt` is always set. */
  method PreFindOneAndUpdate(update: TaskUpdate?, now: Time)
    modifies update
    ensures update != null ==> update.status == old(update.status)
    ensures update != null ==> update.updatedAt == Some(now)
    ensures update != null && Present(update.status) ==> update.done == Some(update.status.value == "completed")
    ensures update != null && !Present(update.status) ==> update.done == old(update.done)
  {
    if update == null {
      return;
    }
    if Present(update.status) {
      update.done := Some(update.status.value == "completed");
    }
    update.updatedAt := Some(now);
  }
}
