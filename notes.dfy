/** The note service: queries over notes and the lifecycle of notes, their
    tag associations and their links. */
module Notes {
  import opened Wrappers
  import opened Models
  import opened Strings
  import opened Database

  // ---------------------------------------------------------------------
  // Queries. Each is one LINQ expression over the tables.

  /** Every note, with its tags and outbound links. */
  function GetAllNotes(t: Tables): (r: set<Note>)
    ensures forall id :: id in t.notes ==> Load(t, id, true) in r
    ensures forall n :: n in r ==> n.id in t.notes && n == Load(t, n.id, true)
    ensures |r| == |t.notes|
  {
    LoadAllCount(t, t.notes.Keys, true);
    LoadAll(t, t.notes.Keys, true)
  }

  /** The note stored under `id` with its tags and outbound links, or None. */
  function GetNoteById(t: Tables, id: Id): (r: Option<Note>)
    ensures r.Some? <==> id in t.notes
    ensures r.Some? ==> && r.value.id == id
                        && r.value.title == t.notes[id].title
                        && r.value.content == t.notes[id].content
                        && r.value.tags == ResolveTags(t, t.notes[id].tagIds)
                        && r.value.links == OutboundLinks(t, id)
                        && r.value.createdAt == t.notes[id].createdAt
                        && r.value.updatedAt == t.notes[id].updatedAt
                        && r.value.workItemId == t.notes[id].workItemId
  {
    if id in t.notes then Some(Load(t, id, true)) else None
  }

  /** The search predicate, stated on the reference meaning of substring: a
      null field never matches. */
  ghost predicate Matches(row: NoteRow, term: string)
  {
    || (row.title.Some? && IsSubstring(term, row.title.value))
    || (row.content.Some? && IsSubstring(term, row.content.value))
  }

  /** `field!.Contains(term)` as the store evaluates it: false on null. */
  function FieldContains(field: Text, term: string): (b: bool)
    ensures b <==> field.Some? && IsSubstring(term, field.value)
  {
    field.Some? && Contains(field.value, term)
  }

  /** The notes whose title or content contains `term` (tags included,
      links not loaded). */
  function SearchNotes(t: Tables, term: string): (r: set<Note>)
    ensures forall id :: id in t.notes ==> (Load(t, id, false) in r <==> Matches(t.notes[id], term))
    ensures forall n :: n in r ==> n.id in t.notes && n == Load(t, n.id, false)
  {
    LoadAll(t, set id | id in t.notes && (FieldContains(t.notes[id].title, term) || FieldContains(t.notes[id].content, term)), false)
  }

  /** `n.Tags.Any(t => t.Name == tagName)` over the loaded tags. */
  predicate HasTagNamed(tags: set<Tag>, tagName: string)
  {
    exists tag :: tag in tags && tag.name == Some(tagName)
  }

  /** The notes holding a tag, present in the tag table, named `tagName`. */
  function GetNotesByTag(t: Tables, tagName: string): (r: set<Note>)
    ensures forall id :: id in t.notes ==>
      (Load(t, id, false) in r <==>
       exists k :: k in t.notes[id].tagIds && k in t.tags && t.tags[k].name == Some(tagName))
    ensures forall n :: n in r ==> n.id in t.notes && n == Load(t, n.id, false)
  {
    LoadAll(t, set id | id in t.notes && HasTagNamed(ResolveTags(t, t.notes[id].tagIds), tagName), false)
  }

  /** The target ids of the links leaving `noteId`. */
  function LinkTargets(t: Tables, noteId: Id): (ids: set<Id>)
    ensures NoDanglingLinks(t) ==> ids <= t.notes.Keys
  {
    set k | k in t.links && t.links[k].sourceNoteId == noteId :: t.links[k].targetNoteId
  }

  /** The notes one outbound link away from `noteId`. */
  function GetLinkedNotes(t: Tables, noteId: Id): (r: set<Note>)
    ensures forall id :: id in t.notes ==>
      (Load(t, id, false) in r <==>
       exists k :: k in t.links && t.links[k].sourceNoteId == noteId && t.links[k].targetNoteId == id)
    ensures forall n :: n in r ==> n.id in t.notes && n == Load(t, n.id, false)
  {
    var targets := LinkTargets(t, noteId);
    LoadAll(t, set id | id in t.notes && id in targets, false)
  }

  // ---------------------------------------------------------------------
  // The effect of each mutation on the tables.

  /** CreateNoteAsync: the caller's id is replaced by `newId` and the
      creation time by `now`; the note is added and returned. */
  function CreateNoteStep(t: Tables, note: Note, newId: Id, now: Timestamp): (s: Step<Note>)
    requires newId != EmptyId && newId !in t.notes
    ensures s.result.Ok? && s.result.value.id == newId && s.result.value.createdAt == now
    ensures s.result.value == note.(id := newId, createdAt := now)
    ensures s.tables.notes.Keys == t.notes.Keys + {newId}
    ensures s.tables.notes[newId] == RowOf(s.result.value)
    ensures forall k :: k in t.notes ==> s.tables.notes[k] == t.notes[k]
    ensures s.tables.tags == t.tags && s.tables.links == t.links
    ensures Consistent(t) ==> Consistent(s.tables)
  {
    var stored := note.(id := newId, createdAt := now);
    Step(t.(notes := t.notes[newId := RowOf(stored)]), Ok(stored))
  }

  /** UpdateNoteAsync: a missing note fails with NotFound and changes
      nothing; otherwise title, content and work item are overwritten, the
      update time set and the tag set replaced by the supplied one. */
  function UpdateNoteStep(t: Tables, note: Note, now: Timestamp): (s: Step<()>)
    ensures note.id !in t.notes ==> s == Step(t, Err(NotFound))
    ensures note.id in t.notes ==>
      && s.result == Ok(())
      && s.tables.notes.Keys == t.notes.Keys
      && s.tables.notes[note.id].title == note.title
      && s.tables.notes[note.id].content == note.content
      && s.tables.notes[note.id].workItemId == note.workItemId
      && s.tables.notes[note.id].updatedAt == Some(now)
      && s.tables.notes[note.id].createdAt == t.notes[note.id].createdAt
      && s.tables.notes[note.id].tagIds == TagIds(note.tags)
      && (forall k :: k in t.notes && k != note.id ==> s.tables.notes[k] == t.notes[k])
      && s.tables.tags == t.tags && s.tables.links == t.links
    ensures Consistent(t) ==> Consistent(s.tables)
  {
    if note.id !in t.notes then
      Step(t, Err(NotFound))
    else
      var row := t.notes[note.id].(title := note.title, content := note.content,
                                   updatedAt := Some(now), workItemId := note.workItemId,
                                   tagIds := TagIds(note.tags));
      Step(t.(notes := t.notes[note.id := row]), Ok(()))
  }

  /** The keys of the links that start or end at the note `id`. */
  function IncidentLinks(t: Tables, id: Id): (ks: set<Id>)
    ensures NoDanglingLinks(t) && id !in t.notes ==> ks == {}
  {
    set k | k in t.links && Mentions(t.links[k], id)
  }

  /** DeleteNoteAsync: a missing note fails with NotFound and changes
      nothing; otherwise every link touching the note goes, then the note. */
  function DeleteNoteStep(t: Tables, id: Id): (s: Step<()>)
    ensures id !in t.notes ==> s == Step(t, Err(NotFound))
    ensures id in t.notes ==>
      && s.result == Ok(())
      && s.tables.notes == t.notes - {id}
      && s.tables.tags == t.tags
      && s.tables.links.Keys == t.links.Keys - IncidentLinks(t, id)
      && |s.tables.links| == |t.links| - |IncidentLinks(t, id)|
      && (forall k :: k in s.tables.links ==> s.tables.links[k] == t.links[k] && !Mentions(s.tables.links[k], id))
    ensures Consistent(t) ==> Consistent(s.tables)
  {
    if id !in t.notes then
      Step(t, Err(NotFound))
    else
      var kept := map k | k in t.links && !Mentions(t.links[k], id) :: t.links[k];
      assert kept.Keys == t.links.Keys - IncidentLinks(t, id);
      Step(Tables(t.notes - {id}, t.tags, kept), Ok(()))
  }

  /** CreateLinkAsync: the link gets `newId` and is added. The service does
      not look at the notes; the store refuses a link whose source or target
      is missing, and then nothing changes. */
  function CreateLinkStep(t: Tables, link: NoteLink, newId: Id): (s: Step<NoteLink>)
    requires newId != EmptyId && newId !in t.links
    ensures link.sourceNoteId !in t.notes || link.targetNoteId !in t.notes ==>
      s == Step(t, Err(ReferentialViolation))
    ensures link.sourceNoteId in t.notes && link.targetNoteId in t.notes ==>
      && s.result == Ok(link.(id := newId))
      && s.tables.links.Keys == t.links.Keys + {newId}
      && s.tables.links[newId] == link.(id := newId)
      && (forall k :: k in t.links ==> s.tables.links[k] == t.links[k])
      && s.tables.notes == t.notes && s.tables.tags == t.tags
    ensures Consistent(t) ==> Consistent(s.tables)
  {
    if link.sourceNoteId !in t.notes || link.targetNoteId !in t.notes then
      Step(t, Err(ReferentialViolation))
    else
      var stored := link.(id := newId);
      Step(t.(links := t.links[newId := stored]), Ok(stored))
  }

  /** DeleteLinkAsync: a missing link fails with NotFound and changes
      nothing; otherwise exactly that link goes. */
  function DeleteLinkStep(t: Tables, linkId: Id): (s: Step<()>)
    ensures linkId !in t.links ==> s == Step(t, Err(NotFound))
    ensures linkId in t.links ==>
      && s.result == Ok(())
      && s.tables.links == t.links - {linkId}
      && s.tables.notes == t.notes && s.tables.tags == t.tags
    ensures Consistent(t) ==> Consistent(s.tables)
  {
    if linkId !in t.links then Step(t, Err(NotFound))
    else Step(t.(links := t.links - {linkId}), Ok(()))
  }

  // ---------------------------------------------------------------------
  // The service object.

  class NoteService {
    const db: Store

    constructor(db: Store)
      ensures this.db == db
    {
      this.db := db;
    }

    /** CreateNoteAsync; `newId` stands for Guid.NewGuid(), which is never
        Guid.Empty, and `now` for the clock. */
    method CreateNote(note: Note, newId: Id, now: Timestamp) returns (stored: Note)
      requires newId != EmptyId && newId !in db.notes
      modifies db
      ensures var s := CreateNoteStep(old(db.State()), note, newId, now);
        db.State() == s.tables && Ok(stored) == s.result
      ensures old(Consistent(db.State())) ==> Consistent(db.State())
    {
      stored := note;
      stored := stored.(id := newId);
      stored := stored.(createdAt := now);
      db.notes := db.notes[newId := RowOf(stored)];
    }

    /** UpdateNoteAsync: scalar fields first, then the tag collection is
        cleared and each supplied tag added in turn. */
    method UpdateNote(note: Note, now: Timestamp) returns (outcome: Result<(), Error>)
      modifies db
      ensures var s := UpdateNoteStep(old(db.State()), note, now);
        db.State() == s.tables && outcome == s.result
      ensures old(Consistent(db.State())) ==> Consistent(db.State())
    {
      if note.id !in db.notes {
        return Err(NotFound);
      }
      var existing := db.notes[note.id];
      existing := existing.(title := note.title, content := note.content);
      existing := existing.(updatedAt := Some(now), workItemId := note.workItemId);
      var ids: set<Id> := {};
      var pending := note.tags;
      while pending != {}
        invariant pending <= note.tags
        invariant ids == TagIds(note.tags - pending)
        decreases pending
      {
        var tag :| tag in pending;
        assert note.tags - (pending - {tag}) == (note.tags - pending) + {tag};
        ids := ids + {tag.id};
        pending := pending - {tag};
      }
      assert note.tags - pending == note.tags;
      db.notes := db.notes[note.id := existing.(tagIds := ids)];
      outcome := Ok(());
    }

    /** DeleteNoteAsync: the links touching the note are removed, then the note. */
    method DeleteNote(id: Id) returns (outcome: Result<(), Error>)
      modifies db
      ensures var s := DeleteNoteStep(old(db.State()), id);
        db.State() == s.tables && outcome == s.result
      ensures old(Consistent(db.State())) ==> Consistent(db.State())
    {
      if id !in db.notes {
        return Err(NotFound);
      }
      ghost var before := db.State();
      var doomed := set k | k in db.links && (db.links[k].sourceNoteId == id || db.links[k].targetNoteId == id);
      assert doomed == IncidentLinks(before, id);
      db.links := db.links - doomed;
      assert db.links == DeleteNoteStep(before, id).tables.links;
      db.notes := db.notes - {id};
      outcome := Ok(());
    }

    /** CreateLinkAsync; `newId` stands for Guid.NewGuid(). */
    method CreateLink(link: NoteLink, newId: Id) returns (outcome: Result<NoteLink, Error>)
      requires newId != EmptyId && newId !in db.links
      modifies db
      ensures var s := CreateLinkStep(old(db.State()), link, newId);
        db.State() == s.tables && outcome == s.result
      ensures old(Consistent(db.State())) ==> Consistent(db.State())
    {
      var stored := link.(id := newId);
      if stored.sourceNoteId !in db.notes || stored.targetNoteId !in db.notes {
        return Err(ReferentialViolation);
      }
      db.links := db.links[newId := stored];
      outcome := Ok(stored);
    }

    /** DeleteLinkAsync. */
    method DeleteLink(linkId: Id) returns (outcome: Result<(), Error>)
      modifies db
      ensures var s := DeleteLinkStep(old(db.State()), linkId);
        db.State() == s.tables && outcome == s.result
      ensures old(Consistent(db.State())) ==> Consistent(db.State())
    {
      if linkId !in db.links {
        return Err(NotFound);
      }
      db.links := db.links - {linkId};
      outcome := Ok(());
    }
  }
}
