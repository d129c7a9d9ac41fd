# Note-graph store of the Ansible knowledge base

This project models the data and service layer of a personal knowledge-base
backend. The backend stores text notes, tags attached to notes, and typed
directed links between notes. The model covers:

- the records of `Note.cs`: `Note`, `Tag`, `NoteLink` and the seven-valued
  `LinkType` (module `Models`);
- the three tables behind the services, as maps keyed by id. This includes
  how a query loads a note with its tags and, optionally, its outbound links.
  The shared database context is the class `Database.Store`, whose three map
  fields the services update in place (module `Database`);
- `NoteService`: the queries (all, by id, substring search, by tag name,
  one-hop linked notes) and the mutations (create, update, delete with
  cascading link removal, link create, link delete) (module `Notes`, with
  properties in `NoteProperties`);
- `TagService`: list, get, create, update and delete over the tag table
  (module `Tags`);
- `string.Contains`, as used by the search (module `Strings`);
- end-to-end scenarios over several calls (module `Scenarios`).

Each mutation has a pure step function on a `Tables` snapshot. The step states
the new tables and the result, including the `NotFound` path, which changes
nothing. Each service method changes the `Store` and is proved to agree with
its step function. The store invariant `Consistent` says that every tag and
link row is keyed by its own id and that no link names a missing note. Every
step preserves it. The ids that notes hold for their tags are NOT part of the
invariant: deleting a tag leaves them in place, as the source does.

Queries return sets of loaded notes. A search, by-tag or linked-notes result
loads tags only, so its `links` field is empty, because those queries include
only `Tags`. `GetAllNotes` and `GetNoteById` also load the outbound links.

Two behaviours of the code worth noting:

- Create does not clear `UpdatedAt`. The code sets only `Id` and `CreatedAt`,
  so a caller-supplied update time is stored (`CreateNoteStep`).
- Search does not match every note on the empty term. A note whose title and
  content are both null does not match (`SearchEmptyTerm`).

Environment inputs are parameters. `Guid.NewGuid()` becomes a `newId`
argument. It is never Guid.Empty and must not already be a key of the table
it goes into.
`DateTime.UtcNow` becomes a `now` argument.

## Model

| member | source | states |
|---|---|---|
| `Models.NewNote` | src/Ansible.Domain/Models/Note.cs:6-16 | a new note has empty tag and link collections, null optional fields, no update time, Guid.Empty id and default creation time |
| `Models.Ordinal` | src/Ansible.Domain/Models/Note.cs:34-43 | each kind's enum value, its position in declaration order, lies in 0..6 |
| `Models.FromOrdinal` | src/Ansible.Domain/Models/Note.cs:34-43 | an integer is the enum value of some kind exactly when it lies in 0..6 |
| `Models.LinkTypeCount` | src/Ansible.Domain/Models/Note.cs:34-43 | there are exactly seven link kinds and every kind is one of them |
| `Models.OrdinalRoundTrip` | src/Ansible.Domain/Models/Note.cs:34-43 | converting a kind to its enum value and back gives the same kind |
| `Models.FromOrdinalRoundTrip` | src/Ansible.Domain/Models/Note.cs:34-43 | every integer in 0..6 is the enum value of the kind it converts to |
| `Strings.Contains` | src/Ansible.Infrastructure/Services/NoteService.cs:112 | true exactly when the term occurs in the string at some index |
| `Database.ResolveTags` | src/Ansible.Infrastructure/Services/NoteService.cs:28 | with rows keyed by their own ids, the ids of the loaded tags are exactly the note's tag ids that have a row; a dangling id yields nothing |
| `Database.ResolveSupplied` | src/Ansible.Infrastructure/Services/NoteService.cs:28 | stored tag rows, keyed by their own ids, load back from their ids as themselves |
| `Database.OutboundLinks` | src/Ansible.Infrastructure/Services/NoteService.cs:29 | with rows keyed by their own ids, a link is loaded exactly when it is a stored row starting at the note; with no dangling links, a note absent from the table has none |
| `Database.LoadAllCount` | src/Ansible.Infrastructure/Services/NoteService.cs:27-30 | a query result holds one note per id, none repeated |
| `Notes.GetAllNotes` | src/Ansible.Infrastructure/Services/NoteService.cs:24-31 | every note of the table, with tags and links, exactly once each |
| `Notes.GetNoteById` | src/Ansible.Infrastructure/Services/NoteService.cs:33-40 | present exactly when the id is in the table; then the row's fields, its resolved tags and its outbound links |
| `Notes.FieldContains` | src/Ansible.Infrastructure/Services/NoteService.cs:112 | a null field never contains the term; a non-null one does when the term is a substring |
| `Notes.SearchNotes` | src/Ansible.Infrastructure/Services/NoteService.cs:106-114 | a note is returned exactly when the term is a substring of its non-null title or of its non-null content |
| `Notes.GetNotesByTag` | src/Ansible.Infrastructure/Services/NoteService.cs:116-124 | a note is returned exactly when one of its tag ids names a tag row whose name equals the given name |
| `Notes.LinkTargets` | src/Ansible.Infrastructure/Services/NoteService.cs:130-133 | with no dangling links, every target collected is a stored note |
| `Notes.GetLinkedNotes` | src/Ansible.Infrastructure/Services/NoteService.cs:126-139 | a note is returned exactly when some link goes from the given note to it |
| `Notes.CreateNoteStep` | src/Ansible.Infrastructure/Services/NoteService.cs:42-53 | the caller's id is replaced by a fresh one and the creation time set; the note is added, returned, and no other row changes; consistency is kept |
| `Notes.UpdateNoteStep` | src/Ansible.Infrastructure/Services/NoteService.cs:55-83 | a missing id fails with NotFound and changes nothing; otherwise title, content and work item are overwritten, the update time set, the tag ids become exactly the supplied ones, and id, creation time, links and other notes are unchanged |
| `Notes.IncidentLinks` | src/Ansible.Infrastructure/Services/NoteService.cs:96-98 | with no dangling links, a note absent from the table has no incident links |
| `Notes.DeleteNoteStep` | src/Ansible.Infrastructure/Services/NoteService.cs:85-104 | a missing id fails with NotFound and changes nothing; otherwise the note and exactly its incident links go, no remaining link mentions it, all other rows are unchanged, and consistency is kept |
| `Notes.CreateLinkStep` | src/Ansible.Infrastructure/Services/NoteService.cs:141-152 | the link gets a fresh id and is added and returned; if its source or target note is missing, the store refuses it and nothing changes |
| `Notes.DeleteLinkStep` | src/Ansible.Infrastructure/Services/NoteService.cs:154-166 | a missing id fails with NotFound and changes nothing; otherwise exactly that link goes |
| `Notes.NoteService.constructor` | src/Ansible.Infrastructure/Services/NoteService.cs:18-22 | the service works on the context it is given |
| `Notes.NoteService.CreateNote` | src/Ansible.Infrastructure/Services/NoteService.cs:42-53 | the store's tables and the returned note are those of `CreateNoteStep` |
| `Notes.NoteService.UpdateNote` | src/Ansible.Infrastructure/Services/NoteService.cs:55-83 | after the field assignments, the clear and the add loop, the tables and the outcome are those of `UpdateNoteStep` |
| `Notes.NoteService.DeleteNote` | src/Ansible.Infrastructure/Services/NoteService.cs:85-104 | removing the incident links and then the note gives the tables and outcome of `DeleteNoteStep` |
| `Notes.NoteService.CreateLink` | src/Ansible.Infrastructure/Services/NoteService.cs:141-152 | the tables and the outcome are those of `CreateLinkStep` |
| `Notes.NoteService.DeleteLink` | src/Ansible.Infrastructure/Services/NoteService.cs:154-166 | the tables and the outcome are those of `DeleteLinkStep` |
| `NoteProperties.SearchEmptyTerm` | src/Ansible.Infrastructure/Services/NoteService.cs:110-113 | the empty term finds exactly the notes with a non-null title or content |
| `NoteProperties.LinkedNotesAreTargets` | src/Ansible.Infrastructure/Services/NoteService.cs:130-138 | with no dangling links, the linked notes' ids are exactly the distinct link targets, and each appears once |
| `NoteProperties.LinkedNotesSingleHop` | src/Ansible.Infrastructure/Services/NoteService.cs:130-138 | a note that no outbound link of the source reaches directly is not returned, however it is reachable otherwise; this includes the source itself without a self-link |
| `NoteProperties.CreateThenGet` | src/Ansible.Infrastructure/Services/NoteService.cs:42-53 | a created note reads back as supplied, apart from the assigned id and creation time; its tags are the stored rows of the supplied tag ids, and it has no links |
| `NoteProperties.CreateReadsBackReturned` | src/Ansible.Infrastructure/Services/NoteService.cs:42-53 | when the supplied tags are stored tag rows, a created note reads back as the returned note with its links not loaded; with a non-empty tag set the program itself fails here, because the save inserts those tags again |
| `NoteProperties.UpdateThenGet` | src/Ansible.Infrastructure/Services/NoteService.cs:69-80 | an updated note reads back with the supplied fields, the stored rows of the supplied tag ids, and keeps its id, creation time and links |
| `NoteProperties.UpdateReadsBackSuppliedTags` | src/Ansible.Infrastructure/Services/NoteService.cs:75-80 | when the supplied tags are stored tag rows, the updated note reads back with exactly the supplied tag set |
| `NoteProperties.UpdateForgetsOldTags` | src/Ansible.Infrastructure/Services/NoteService.cs:75-80 | the tag set the note held before an update has no influence on the result |
| `NoteProperties.DeleteThenGet` | src/Ansible.Infrastructure/Services/NoteService.cs:96-101 | after a delete the note is absent and has no linked notes, and every other note's linked notes are the old ones without it; other notes keep their tags and their links to notes other than the deleted one |
| `Tags.GetAllTags` | src/Ansible.Infrastructure/Services/TagService.cs:23-27 | every row is listed; with keys matching ids, a tag is listed exactly when it is the row under its own id |
| `Tags.TagRowsCount` | src/Ansible.Infrastructure/Services/TagService.cs:26 | with rows keyed by their own ids, no two keys hold the same tag row |
| `Tags.GetAllTagsCount` | src/Ansible.Infrastructure/Services/TagService.cs:26 | the listing holds one tag per row |
| `Tags.GetTagById` | src/Ansible.Infrastructure/Services/TagService.cs:29-33 | present exactly when the id is a key, and then the row stored under it |
| `Tags.CreateTagStep` | src/Ansible.Infrastructure/Services/TagService.cs:35-45 | the tag gets a fresh id and is added and returned without any check on its name; no other row changes |
| `Tags.UpdateTagStep` | src/Ansible.Infrastructure/Services/TagService.cs:47-61 | a missing id fails with NotFound and changes nothing; otherwise only name and colour change, and the id and other rows stay the same |
| `Tags.DeleteTagStep` | src/Ansible.Infrastructure/Services/TagService.cs:63-75 | a missing id fails with NotFound and changes nothing; otherwise exactly that row goes, and notes and links are untouched |
| `Tags.TagService.constructor` | src/Ansible.Infrastructure/Services/TagService.cs:17-21 | the service works on the context it is given |
| `Tags.TagService.CreateTag` | src/Ansible.Infrastructure/Services/TagService.cs:35-45 | the tables and the returned tag are those of `CreateTagStep` |
| `Tags.TagService.UpdateTag` | src/Ansible.Infrastructure/Services/TagService.cs:47-61 | overwriting the stored row's name and colour gives the tables and outcome of `UpdateTagStep` |
| `Tags.TagService.DeleteTag` | src/Ansible.Infrastructure/Services/TagService.cs:63-75 | the tables and the outcome are those of `DeleteTagStep` |
| `Tags.DeleteTagLeavesDanglingIds` | src/Ansible.Infrastructure/Services/TagService.cs:73 | after a tag delete, notes that held the tag still hold its id, which names no row, and loading them no longer shows the tag |
| `Scenarios.LinkThenDeleteSource` | src/Ansible.Infrastructure/Services/NoteService.cs:126-152 | with notes A and B and a Supports link A to B, A's linked notes are exactly B and B's are none; deleting A keeps B and removes the link |
| `Scenarios.TagThenFindByName` | src/Ansible.Infrastructure/Services/NoteService.cs:116-124 | a note updated to carry the tag "project-x" is exactly what the by-tag lookup for "project-x" finds |
| `Scenarios.DuplicateTagNames` | src/Ansible.Infrastructure/Services/TagService.cs:35-45 | two tags with the same name are both stored, under different ids |

## Left out

- HTTP controllers, routing, status-code mapping and the controllers' check that the path id equals the body id: these are outside the services.
- Startup wiring, dependency injection, logging, telemetry, the retry policy and the database health check: these are configuration and I/O.
- Async/await, `SaveChangesAsync` and transactions: each step function applies one service call as a single atomic change.
- Concurrency and last-writer-wins races between requests.
- Store failures other than a missing link endpoint (connectivity, timeouts): these are I/O.
- `Guid.NewGuid()` is the `newId` argument. It is required to be non-empty and absent from the live table. Real GUIDs are also never reused after a delete; the model does not capture that. So a tag created under a deleted tag's id would reappear on the notes that kept that id.
- `DateTime.UtcNow` is the `now` argument.
- Entity Framework's handling of the objects attached to a note passed to create or update. This covers change-tracking states, key conflicts, insertion of caller-supplied `Tag` objects, and a join row naming a missing tag. The model keeps only the ids of the supplied tags as the association. Links supplied in a new note's `Links` collection are not stored. On create every supplied tag is inserted. An existing one duplicates its key and the save fails. A new one becomes a tag row, which the model does not create: the model keeps its id, which then names no row. On update a tag the note already holds fails as a second tracked instance. Any other supplied tag with an id is written back, so its row's `Name` and `Color` become the supplied values, or the save fails when there is no row. The model leaves the tag table unchanged on update.
- The store's collation: strings are compared character by character, case-sensitively.
- A null search term or tag name: both are plain strings here.
- Result order: queries return sets. The C# lists come back in store order, which is not specified.
- Link referential integrity on create belongs to the database schema, which is not part of this model. The model has the store refuse the link with `ReferentialViolation`, and nothing changes.
