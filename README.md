# TaskMate sharing and authorization, in Dafny

This project models the sharing and authorization core of the TaskMate API, a
Node/Express service for tasks and notes that their owners can share with
collaborators. It covers five parts:

- **Access predicates** (`utils/permissions.js`): rendering ids, normalizing the caller, and `isOwner`, `canView`, `canEdit`, `canComment` and `getCollaborator` over a document's owner id and its ordered collaborator list.
- **Identity helpers**:
  - the subject extraction, payload construction and secret checks of `utils/tokens.js`, with the JWT library as function parameters;
  - the `Authorization` header parse and the payload-to-`req.user` mapping of `middleware/auth.js`.
- **Task document** (`models/Task.js`): a `Task` class with the `pre('save')` hook that derives `done` from `status`, and the `pre('findOneAndUpdate')` hook on a `TaskUpdate` object.
- **Note document** (`models/Note.js`): a `Note` class with its `trim` setters and its `pre('save')` hook.
- **Route handlers** (`routes/tasks.js` and `routes/notes.js`) around the predicates:
  - list filters and create defaults;
  - the whitelist update loops;
  - the collaborator share (an upsert by user id) and remove (a filter by entry `_id`);
  - the note collaborator listing.

  Each handler is a method. It receives the loaded document, or `null` when it was not found. It edits the document in place and runs the save hook where the source saves. It returns an `Outcome` in place of an HTTP status.

Modules, one per file:

| file | module | models |
|---|---|---|
| values.dfy | `Values` | JavaScript values: `Option`, a `Completion` for a thrown TypeError, ids (`IdVal`), truthiness, `toLowerCase`, `trim` |
| permissions.dfy | `Permissions` | utils/permissions.js |
| tokens.dfy | `Tokens` | utils/tokens.js |
| auth.dfy | `Auth` | middleware/auth.js |
| sharing.dfy | `Sharing` | what both route files share: outcomes, target resolution, the remove filter, list invariants |
| task_model.dfy | `TaskModel` | models/Task.js |
| task_routes.dfy | `TaskRoutes` | routes/tasks.js |
| note_model.dfy | `NoteModel` | models/Note.js |
| note_routes.dfy | `NoteRoutes` | routes/notes.js |

The model follows the code exactly, including these points where it is easy to misread:

- **Header shape.** The header must start with exactly `Bearer `, which is case-sensitive, so `bearer x` is refused. The token is the second piece of `split(' ')`. So `Bearer a b` is accepted with token `a`, and `Bearer  a` gives the empty token.
- **Subject.** The payload's `sub` is not checked after verification: a verified payload without a subject signs in a caller without an id.
- **Edit scan.** `canEdit` grants edit when *any* matching entry has an edit role, not only the first matching entry.
- **Role case.** `canEdit` lower-cases roles before comparing them. `canComment` compares them case-sensitively.
- **Normalizer.** Of the two `_normalizeCaller` declarations, the later one (lines 39-44) is in force.

## Model

| member | source | states |
|---|---|---|
| Values.ToStringOf | utils/permissions.js:36 | `v.toString()` throws exactly on a missing value; a string renders as itself and an ObjectId as its hex string |
| Values.Trim | models/Note.js:14-15 | `trim`: the characterisation is `TrimShape` |
| Values.LowerChar | utils/permissions.js:43 | `toLowerCase` of one character: `A`..`Z` move up by 32 to `a`..`z`, every other character stays |
| Values.Lower | utils/permissions.js:43 | `toLowerCase` keeps the length; `LowerPointwise` states it character by character |
| Values.LowerPointwise | utils/permissions.js:43 | every position of the lower-cased string is the lower-cased character at that position |
| Values.SameLetterIgnoringCase | utils/permissions.js:43-82 | two characters lower-case alike iff they are equal or the two cases of one ASCII letter |
| Values.LowerEqualIff | utils/permissions.js:43-82 | two strings lower-case alike, as the email match compares them, iff they have the same length and agree at every position up to the case of ASCII letters |
| Values.TrimShape | models/Note.js:14-15 | `trim` returns the part from the first to the last non-whitespace character, and everything it cuts is whitespace |
| Values.TrimIdempotent | models/Note.js:14-15 | trimming a trimmed string changes nothing |
| Values.TrimBlank | utils/tokens.js:6 | `s.trim() === ''` holds exactly when every character of `s` is whitespace |
| Values.LowerIdempotent | utils/permissions.js:43 | lower-casing a lower-cased email changes nothing, so re-normalizing keeps it |
| Permissions.ToIdString | utils/permissions.js:17-31 | the rendered id is present exactly for a truthy id value, and equals its `toString()` |
| Permissions.NormalizeCaller | utils/permissions.js:39-44 | a falsy caller gives `{null, null}`; a string is the id; an object's id is the rendered `id` when that is truthy, else the rendered `_id` when that is truthy, else null; its email is the lower-cased `email` when that is non-empty, else null; only an object yields an email |
| Permissions.GetCollaborator | utils/permissions.js:34-37 | the first entry whose `userId.toString()` equals the key, no earlier one equal; none when no entry equals; a throw only when an entry without `userId` comes before any match |
| Permissions.CanComment | utils/permissions.js:66-71 | no document gives false; the owner gives true; otherwise the first entry whose `userId` renders as the id decides, true iff its role is in {commenter, editor, owner} exactly as written; no such entry gives false; a throw of that `find` propagates |
| Permissions.AsCaller | utils/permissions.js:49 | the normalized pair handed back to `isOwner` as an object `{id, email}`; `OwnerCheckSurvivesNormalization` states what it preserves |
| Permissions.IsOwner | utils/permissions.js:2-8 | `isOwner`: a document, and the rendered owner id and normalized caller id both truthy and equal; `OwnerByIdString` states it for an id string |
| Permissions.EditScan | utils/permissions.js:52-63 | the `canEdit` loop with its early returns; characterised by `EditScanIff` |
| Permissions.ViewScan | utils/permissions.js:79-86 | the `canView` loop with its early returns; characterised by `ViewScanIff` |
| Permissions.CanEdit | utils/permissions.js:46-64 | `canEdit`; characterised by `CanEditIff` |
| Permissions.CanView | utils/permissions.js:73-87 | `canView`; characterised by `CanViewIff` |
| Permissions.MissingDocDeniesAll | utils/permissions.js:3-74 | with no document, `isOwner`, `canEdit`, `canView` and `canComment` are all false |
| Permissions.NormalizeIdempotent | utils/permissions.js:39-44 | normalizing a normalized pair gives it back, except when the id renders as the empty string |
| Permissions.OwnerCheckSurvivesNormalization | utils/permissions.js:48-49 | `isOwner` on the normalized pair, as `canEdit` and `canView` call it, equals `isOwner` on the caller |
| Permissions.EditScanIff | utils/permissions.js:52-63 | the `canEdit` loop grants edit iff SOME entry matches by id or email and has role editor/owner after lower-casing |
| Permissions.ViewScanIff | utils/permissions.js:79-86 | the `canView` loop grants view iff some entry matches by id or email |
| Permissions.OwnerByIdString | utils/permissions.js:2-8 | for a bare id string, owner iff the id is non-empty, the owner id is set, and it renders as that string |
| Permissions.CanEditIff | utils/permissions.js:46-64 | edit iff there is a document and the caller owns it or some entry anywhere matches by id or email and has role editor/owner after lower-casing |
| Permissions.CanViewIff | utils/permissions.js:73-87 | view iff there is a document and the caller owns it or some entry matches by id or email |
| Permissions.OwnerCanDoEverything | utils/permissions.js:49-76 | the owner may edit, view and comment |
| Permissions.EditImpliesView | utils/permissions.js:46-87 | whoever may edit may view |
| Permissions.CommentImpliesView | utils/permissions.js:66-87 | whoever may comment under a non-empty user id may view under it |
| Permissions.NullCallerRefused | utils/permissions.js:6-84 | a caller that normalizes to `{null, null}` is neither owner, editor nor viewer |
| Permissions.AnonymousEntryIgnored | utils/permissions.js:53-84 | an entry with neither `userId` nor `email` never changes `canEdit` or `canView` |
| Permissions.EditAnyMatchCommentFirstMatch | utils/permissions.js:52-70 | a viewer entry before an editor entry for the same user: that user may edit but not comment |
| Permissions.RoleCaseMattersOnlyForComment | utils/permissions.js:55-70 | role `Editor` grants edit but not comment |
| Permissions.EmailMatchIgnoresCase | utils/permissions.js:43-84 | an entry invited as `Al@X` lets a caller with email `aL@x` view |
| Tokens.GetUserId | utils/tokens.js:4-13 | a non-blank string is its own id, untrimmed; blank strings, falsy and non-object inputs give none; an object gives the first truthy of `sub`, `_id`, `id`, as a string |
| Tokens.RequireEnv | utils/tokens.js:15-19 | an unset or empty variable is an error naming it; otherwise its value |
| Tokens.ExpiresIn | utils/tokens.js:23-37 | the configured expiry when set, else the default (`15m` access, `30d` refresh) |
| Tokens.AccessClaims | utils/tokens.js:27-31 | the payload is `{sub}`, plus `email` and `username` exactly when the input is an object and they are truthy |
| Tokens.SignAccessToken | utils/tokens.js:21-33 | an unset access secret fails first, then a missing subject; otherwise the token is `sign` of the access payload with the access secret and expiry |
| Tokens.SignRefreshToken | utils/tokens.js:35-42 | the same with the refresh secret and expiry, and the payload exactly `{sub}` |
| Tokens.VerifyWith | utils/tokens.js:44-52 | an unset or empty secret is an error naming it; otherwise the verifier's payload, or a rejection when it refuses |
| Tokens.VerifyAccessToken | utils/tokens.js:44-47 | fails with an unset access secret; otherwise succeeds iff the verifier accepts under the access secret, giving its payload |
| Tokens.VerifyRefreshToken | utils/tokens.js:49-52 | the same with the refresh secret |
| Tokens.RefreshPayloadIsSubjectOnly | utils/tokens.js:27-40 | a refresh token carries the access payload's subject and nothing else |
| Tokens.VerifiersUseOwnSecrets | utils/tokens.js:45-50 | each verifier fails on its own unset secret whatever the other secret is |
| Tokens.AccessRoundTrip | utils/tokens.js:21-47 | verifying a freshly signed access token (with a verifier that accepts the signer's output) gives back subject, email and username |
| Auth.Split | middleware/auth.js:10 | `split` yields at least one piece and no piece holds the separator |
| Auth.SplitJoin | middleware/auth.js:10 | joining the pieces of a split with the separator gives the string back |
| Auth.TokenOf | middleware/auth.js:10 | the token is the text after `Bearer ` up to the next space or the end |
| Auth.Authenticate | middleware/auth.js:6-23 | "Authorization required" iff the header is missing or does not start with `Bearer `; "Invalid or expired token" iff verification fails; signed in iff the header is well formed and verification succeeds, with `req.user` the `{sub, email, username}` of the payload |
| Auth.MalformedHeaderNotVerified | middleware/auth.js:7-9 | a malformed header is answered the same whatever the verifier |
| Auth.RefusedHeaders | middleware/auth.js:7-9 | `""`, `Token abc`, `Bearer` and `bearer x` are refused before verification |
| Auth.ExtraSegmentsReachVerification | middleware/auth.js:7-10 | `Bearer a b` reaches verification with token `a`, `Bearer  a` with the empty token |
| Auth.SignThenAuthenticate | middleware/auth.js:6-23 | presenting a freshly signed access token (without spaces) as `Bearer <token>` signs the caller in with the input's id, email and username |
| Sharing.NewEntry | routes/tasks.js:171 | the appended entry names the target user with the requested role and no email |
| Sharing.ResolveTarget | routes/tasks.js:151-160 | the target is looked up by `userId` when given, else by the lower-cased email, else "userId or email required"; each failed lookup has its own message |
| Sharing.Remaining | routes/tasks.js:207 | the filter throws exactly when some entry has no `_id`, and never grows the list |
| Sharing.RemainingMembers | routes/tasks.js:207 | the filter keeps exactly the entries whose `_id` is not `collabId` |
| Sharing.RemainingLength | routes/tasks.js:207-208 | the length is unchanged iff no entry has that `_id` |
| Sharing.RemainingNothingRemoved | routes/tasks.js:207-208 | a filter that removes nothing returns the list itself |
| Sharing.RemainingConcat | routes/tasks.js:207 | the filter keeps order: filtering a concatenation concatenates the filtered parts |
| Sharing.SetRoleKeepsDistinct | routes/tasks.js:168-169 | changing one entry's role keeps the users pairwise distinct |
| Sharing.AppendNewKeepsDistinct | routes/tasks.js:170-171 | appending an entry for an unlisted user keeps the users pairwise distinct |
| Sharing.RemainingConforms | models/Task.js:4-6 | removing entries keeps every entry with a `userId` and an allowed role |
| Sharing.ConformingNeverThrows | models/Task.js:5 | when every entry has a `userId`, the `find` behind `canComment` never throws |
| TaskModel.ParseStatus | routes/tasks.js:10-22 | a status is recognised iff it is in `VALID_STATUSES`, and it names what it parses to |
| TaskModel.StatusRoundTrip | models/Task.js:20 | each status is recognised by its own name |
| TaskModel.Saved | models/Task.js:27-31 | after a save `done` holds iff the status is completed, `updatedAt` is the save time, and nothing else changes |
| TaskModel.SavedIdempotent | models/Task.js:27-31 | saving twice at the same time is saving once |
| TaskModel.Task.constructor | models/Task.js:10-25 | a new task has no collaborators, is not done, and was created and updated now |
| TaskModel.Task.PreSave | models/Task.js:27-32 | the hook leaves the document as `Saved` of its old state |
| TaskModel.PreFindOneAndUpdate | models/Task.js:34-41 | no update: nothing happens; `done` is recomputed only when the update carries a truthy status; `updatedAt` is always set |
| TaskRoutes.TaskCaller | routes/tasks.js:37-122 | task routes pass `req.user.id`: the normalized caller has that id when non-empty and never an email |
| TaskRoutes.TaskEmailsIgnored | routes/tasks.js:37-94 | for task callers, an entry's email never changes `canView` or `canEdit` |
| TaskRoutes.Selects | routes/tasks.js:15-22 | the list query: a caller id, and the task owned by it or shared with it; `ListedTasksAreViewable` relates it to the view check |
| TaskRoutes.ListFilter | routes/tasks.js:15-22 | the list filter narrows by status exactly when the query is truthy and in `VALID_STATUSES` |
| TaskRoutes.ListedTasksAreViewable | routes/tasks.js:15-37 | any task the list returns to a caller passes that caller's view check |
| TaskRoutes.GetTask | routes/tasks.js:32-38 | not found first; then success iff the caller may view, else "Forbidden" |
| TaskRoutes.DeleteTask | routes/tasks.js:117-125 | not found first; then success iff the caller is the owner, else "Only owner can delete" |
| TaskRoutes.ValidNewTask | routes/tasks.js:48-52 | the create validators: `title` a non-empty string, `status` absent or one of `VALID_STATUSES` |
| TaskRoutes.InitialStatus | routes/tasks.js:65 | the given status when it is truthy and valid, else `not started` |
| TaskRoutes.Initial | routes/tasks.js:58-66 | the new task from a validated body is owned by the caller, has the given title, description `''`, start date now and no end date unless given |
| TaskRoutes.ValidatedStatusIsKept | routes/tasks.js:52-65 | after validation the status sent is the status created, and an absent one is `not started` |
| TaskRoutes.CreateTask | routes/tasks.js:54-67 | an invalid body gives "Invalid input" and no task; otherwise the created task is the initial document after the save hook |
| TaskRoutes.DateArg | routes/tasks.js:100 | a date key yields a date iff its value is truthy, and then the date parsed from that value; else null |
| TaskRoutes.Patched | routes/tasks.js:96-105 | each key sent replaces its field (a date key by its parsed date or null) and each key not sent keeps it; the owner, the collaborators and the timestamps are never touched; an empty body changes nothing |
| TaskRoutes.DoneInPutIsOverridden | routes/tasks.js:96-107 | a `done` sent with a PUT never survives the save; the saved `done` follows the resulting status |
| TaskRoutes.ApplyPatch | routes/tasks.js:96-105 | the loop over the whitelist leaves the task as `Patched` of its old state |
| TaskRoutes.UpdateTask | routes/tasks.js:89-107 | not found first; a caller who may not edit gets "Forbidden" and nothing changes; otherwise the task is the patched document after the save hook |
| TaskRoutes.ShareTask | routes/tasks.js:137-175 | the outcomes in route order: invalid role, not found, not owner, each lookup failure, and target is the owner (nothing changes on any of these); a `find` throw gives a server error; otherwise the first entry for the target gets the role in place, or one entry is appended, then the task is saved; distinct users and schema conformance are preserved |
| TaskRoutes.RemoveTaskCollaborator | routes/tasks.js:199-211 | not found, then owner-only; a filter throw gives a server error; when nothing is removed "Collaborator not found" and no change; otherwise the filtered list is saved; conformance is preserved |
| NoteModel.Stamped | models/Note.js:23-26 | a save moves `updatedAt` to the save time and changes nothing else |
| NoteModel.StampedTwice | models/Note.js:23-26 | two saves leave the document as the later one alone |
| NoteModel.Note.constructor | models/Note.js:10-21 | a new note has no collaborators, trimmed title and content, and was created and updated now |
| NoteModel.Note.PreSave | models/Note.js:23-26 | the hook leaves the document as `Stamped` of its old state |
| NoteRoutes.NoteCaller | routes/notes.js:67-113 | note routes pass the whole `req.user`: the normalized caller has its non-empty id and its lower-cased non-empty email |
| NoteRoutes.InvitedEmailGrantsAccess | routes/notes.js:67-90 | an entry inviting the caller's email in any case grants view, and edit when its role allows |
| NoteRoutes.NoteSelects | routes/notes.js:13-14 | the list query: the note owned by the caller id or shared with it; `ListedNotesAreViewable` relates it to the view check |
| NoteRoutes.ListedNotesAreViewable | routes/notes.js:13-67 | any note the list returns to a caller passes that caller's view check |
| NoteRoutes.GetNote | routes/notes.js:61-68 | not found first; then success iff the caller may view, else "Forbidden" |
| NoteRoutes.DeleteNote | routes/notes.js:108-116 | not found first; then success iff the caller is the owner, else "Only owner can delete" |
| NoteRoutes.BooleanLike | routes/notes.js:34 | what `isBoolean()` accepts: a boolean, `0`, `1`, or the strings `true`, `false`, `1`, `0` |
| NoteRoutes.ValidNoteBody | routes/notes.js:32-81 | the create and update validators: a `pinned` that is sent is boolean-like, a `tags` that is sent is an array |
| NoteRoutes.CastBoolean | routes/notes.js:34-94 | the stored `pinned` for an accepted value is true only for a truthy value |
| NoteRoutes.CreateAndUpdateReadPinnedDifferently | routes/notes.js:46-94 | create (`!!pinned`) and update (the schema cast) disagree exactly on the strings `"false"` and `"0"` |
| NoteRoutes.InitialNote | routes/notes.js:41-48 | the new note is owned by the caller; title and content default to `''` and are trimmed; `pinned` is the truthiness of what was sent; `tags` is what was sent when an array, else `[]` |
| NoteRoutes.CreatorOwnsNote | routes/notes.js:43 | the creator is the owner and may edit and view the new note |
| NoteRoutes.EmptyBodyDefaults | routes/notes.js:41 | an empty body creates an untitled, empty, unpinned, untagged note |
| NoteRoutes.CreateNote | routes/notes.js:30-49 | an invalid `pinned` or `tags` gives "Invalid input" and no note; otherwise the created note is the initial document after the save hook |
| NoteRoutes.PatchedNote | routes/notes.js:92-95 | each key sent replaces its field as the schema stores it (`title` and `content` trimmed, `pinned` cast, `tags` the array sent) and each key not sent keeps it; the owner, the collaborators and the timestamps are never touched; an empty body changes nothing |
| NoteRoutes.PatchIdempotent | routes/notes.js:92-95 | applying the same update twice is applying it once |
| NoteRoutes.PatchKeepsAccess | routes/notes.js:92-95 | an update never changes who is owner, editor or viewer |
| NoteRoutes.ApplyNotePatch | routes/notes.js:92-95 | the loop over the whitelist leaves the note as `PatchedNote` of its old state |
| NoteRoutes.UpdateNote | routes/notes.js:76-99 | invalid input first, then not found; a caller who may not edit gets "Forbidden" and nothing changes; otherwise the note is the patched document after the save hook |
| NoteRoutes.FindUser | routes/notes.js:156 | the first entry whose `userId` is present and renders as the target id, no earlier one doing so; none when no entry does; it never throws |
| NoteRoutes.NoteFindSkipsMissingUser | routes/notes.js:156 | where the task share's `find` throws on an entry without `userId`, the note share's skips it |
| NoteRoutes.ShareNote | routes/notes.js:128-161 | the outcomes in route order: invalid role (only editor or viewer), not found, not owner, each lookup failure, and "User already owner" (nothing changes on any of these); otherwise the first entry naming the target gets the role, or one entry is appended, then the note is saved; distinct users and conformance are preserved |
| NoteRoutes.Project | routes/notes.js:192-202 | a listed entry shows the same user id and entry id as the stored one, null exactly when absent, and the stored role when it is non-empty, else null (never `''`) |
| NoteRoutes.Projection | routes/notes.js:192-202 | the listing has one view per entry, in order |
| NoteRoutes.ConformingListing | routes/notes.js:192-202 | in a conforming list every listed entry has a user id and a role |
| NoteRoutes.ListedCollabIdRemovesEntry | routes/notes.js:200-221 | a `collabId` taken from the listing makes the remove route delete that entry, never "Collaborator not found" |
| NoteRoutes.ListNoteCollaborators | routes/notes.js:175-204 | not found first; then success iff the caller may view, with the listing of every entry |
| NoteRoutes.RemoveNoteCollaborator | routes/notes.js:212-225 | not found, then owner-only; a filter throw gives a server error; when nothing is removed "Collaborator not found" and no change; otherwise the filtered list is saved; conformance is preserved |

## Left out

- The JSON Web Token library is not modelled. `jwt.sign` and `jwt.verify` are function parameters, so nothing is claimed about signatures, tampering or expiry.
- `process.env` is an explicit `Env` record.
- MongoDB and Mongoose I/O is not modelled:
  - `find`, `findById`, `save`, `deleteOne`, `populate`, `sort`, `lean` and the indexes;
  - the user lookups of a share, which are function parameters.

  A route receives the loaded document and the save is the save hook. `GetNote` and `ListNoteCollaborators` take the stored collaborator list, not the populated one: in the source, an entry whose user was deleted populates its `userId` to `null`, so it stops granting access by id and is listed with a null id (routes/notes.js:61-68, 175-204).
- Timestamps are an opaque `Time`. `Date.now()` is a parameter and `new Date(text)` keeps its text.
- Express routing, HTTP statuses, JSON bodies and `console` logging become the `Outcome` datatype.
- Request validation is only partly modelled:
  - **Modelled:** the share role check, the task create checks on `title` and `status`, and the note `pinned`/`tags` checks.
  - **Reflected in the types:** `isString` checks and the PUT status check of a task (a `TaskPatch` holds a `Status`).
  - **Not modelled:** the `isISO8601` date checks and the `isEmail` check on a share; bodies that fail them are treated as valid.
- The listing omits fields. `username`, `email` and `addedAt` come from populated user documents and schema defaults, which are not modelled.
- GET /tasks/:id/collaborators (routes/tasks.js:184-196) returns the stored list behind the view check that `GetTask` models. It is not modelled separately.
- The `pre('findOneAndUpdate')` hook of models/Note.js is not modelled. No route issues that query.
- Lower-casing covers ASCII letters only.
- `trim` uses the JavaScript whitespace set. The Boolean cast covers only the values `isBoolean()` lets through.
- `_toIdString` is modelled on the id shapes a document can hold: a missing value, a string, or an object with a string form. Numbers and booleans, which it renders as `null` (utils/permissions.js:30), and the `String(...)` fallbacks are left out.
- The first `_normalizeCaller` (utils/permissions.js:9-16) is dead code, since the later declaration replaces it.
- `verifyAccessToken` payloads are modelled with string claims only.
- middleware/auth.js:29-31 answers a server error for any other exception. The model has no such path: nothing in lines 6-23 can throw for a string header once verification has answered.
- The collaborator role default `editor` (models/Task.js:6, models/Note.js:6) is never applied, because both share routes always store an explicit role.
- The list filters assume a caller with an id. A query with `{userId: undefined}` has database semantics that are not modelled.
- `Sharing.Remaining`, `Permissions.GetCollaborator`, `TaskRoutes.ShareTask`: Mongoose gives every stored entry an `_id` and requires its `userId`, so a stored list has no entry on which `toString()` throws. The model keeps such entries possible and answers `ServerError`, which is what the route's catch does, rather than assuming them away.
- `NoteRoutes.ShareNote`: keeping users distinct is proved only for lists that also conform to the schema. An entry whose `userId` renders as the empty string is skipped by the `find` but could equal an empty target id.
- `TaskRoutes.UpdateTask`: the schema validation Mongoose runs at save is not modelled. A PUT with title `''` passes `isString()`, but the required `title` (models/Task.js:14) makes the source's save fail with a server error, where the model saves it.
- `TaskRoutes.CreateTask`, `NoteRoutes.CreateNote`: likewise, a caller without an id (the middleware does not check `sub`) gets a document without owner. The required `userId` (models/Task.js:11, models/Note.js:11) makes the source answer a server error, where the model creates it.
