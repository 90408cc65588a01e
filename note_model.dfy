/** The note document of models/Note.js: its fields, the collaborator role
    enumeration, the `trim` setters on `title` and `content`, and the
    `pre('save')` hook that refreshes `updatedAt`. */
module NoteModel {
  import opened Values
  import opened Permissions
  import Sharing

  /** The collaborator roles the note schema allows. */
  const NoteRoles: set<string> := {"editor", "viewer", "owner"}

  /** All fields of a note document at one moment. */
  datatype NoteState = NoteState(
    owner: IdVal,
    collaborators: seq<Collaborator>,
    title: string,
    content: string,
    pinned: bool,
    tags: seq<string>,
    createdAt: Time,
    updatedAt: Time)

  /** What the save hook makes of a document: only `updatedAt` moves, to the
      time of the save. */
  function Stamped(s: NoteState, now: Time): (r: NoteState)
    ensures r.updatedAt == now
    ensures r.(updatedAt := s.updatedAt) == s
  {
    s.(updatedAt := now)
  }

  /** Saving twice is saving once, at the later time. */
  lemma StampedTwice(s: NoteState, t1: Time, t2: Time)
    ensures Stamped(Stamped(s, t1), t2) == Stamped(s, t2)
  {
  }

  /** A note document, updated in place by the routes before it is saved.
      `title` and `content` hold what their `trim` setters leave. */
  class Note {
    var owner: IdVal
    var collaborators: seq<Collaborator>
    var title: string
    var content: string
    var pinned: bool
    var tags: seq<string>
    var createdAt: Time
    var updatedAt: Time

    /** `new Note({...})`: no collaborators, text fields trimmed, created now. */
    constructor (owner: IdVal, title: string, content: string, pinned: bool, tags: seq<string>, now: Time)
      ensures State() == NoteState(owner, [], Trim(title), Trim(content), pinned, tags, now, now)
    {
      this.owner := owner;
      this.collaborators := [];
      this.title := Trim(title);
      this.content := Trim(content);
      this.pinned := pinned;
      this.tags := tags;
      this.createdAt := now;
      this.updatedAt := now;
    }

    function State(): NoteState
      reads this
    {
      NoteState(owner, collaborators, title, content, pinned, tags, createdAt, updatedAt)
    }

    /** The owner and collaborators, as the access predicates read them. */
    function Snapshot(): (d: Doc)
      reads this
      ensures d.owner == owner && d.collaborators == collaborators
    {
      Doc(owner, collaborators)
    }

    /** The collaborators fit the schema: each has a `userId` and a role from
        `NoteRoles`. */
    predicate Conforms()
      reads this
    {
      Sharing.Conforms(collaborators, NoteRoles)
    }

    /** `pre('save')`: `updatedAt` is refreshed and nothing else changes. */
    method PreSave(now: Time)
      modifies this
      ensures State() == Stamped(old(State()), now)
    {
      updatedAt := now;
    }
  }
}
