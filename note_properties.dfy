/** Properties relating the note service's queries to its mutations. */
module NoteProperties {
  import opened Wrappers
  import opened Models
  import opened Strings
  import opened Database
  import opened Notes

  /** Searching for the empty string finds exactly the notes that have a
      title or a content at all. */
  lemma SearchEmptyTerm(t: Tables)
    ensures forall id :: id in t.notes ==>
      (Load(t, id, false) in SearchNotes(t, "") <==> t.notes[id].title.Some? || t.notes[id].content.Some?)
  {
  }

  /** With no dangling links, the linked notes are exactly the distinct
      targets of the links leaving `noteId`, each once. */
  lemma LinkedNotesAreTargets(t: Tables, noteId: Id)
    requires NoDanglingLinks(t)
    ensures NoteIds(GetLinkedNotes(t, noteId)) == LinkTargets(t, noteId)
    ensures |GetLinkedNotes(t, noteId)| == |LinkTargets(t, noteId)|
  {
    var targets := LinkTargets(t, noteId);
    var ids := set id | id in t.notes && id in targets;
    assert ids == targets;
    LoadAllCount(t, ids, false);
  }

  /** Traversal is one hop: a note reached only through an intermediate note
      is not among the linked notes, and the source note itself appears only
      through a link to itself. */
  lemma LinkedNotesSingleHop(t: Tables, a: Id, c: Id)
    requires c in t.notes
    requires forall k :: k in t.links && t.links[k].sourceNoteId == a ==> t.links[k].targetNoteId != c
    ensures Load(t, c, false) !in GetLinkedNotes(t, a)
  {
  }

  /** A created note reads back as the note supplied, except for the id and
      creation time the service assigns; its tags are the supplied tag ids as
      stored in the tag table, and it has no links yet. */
  lemma CreateThenGet(t: Tables, note: Note, newId: Id, now: Timestamp)
    requires Consistent(t) && newId != EmptyId && newId !in t.notes
    ensures GetNoteById(CreateNoteStep(t, note, newId, now).tables, newId)
         == Some(Note(newId, note.title, note.content, ResolveTags(t, TagIds(note.tags)), {},
                      now, note.updatedAt, note.workItemId))
  {
    var t' := CreateNoteStep(t, note, newId, now).tables;
    assert ResolveTags(t', TagIds(note.tags)) == ResolveTags(t, TagIds(note.tags));
    assert OutboundLinks(t', newId) == {};
  }

  /** When the supplied tags are stored tag rows, a created note reads back
      as the note the call returned, with its links not loaded. */
  lemma CreateReadsBackReturned(t: Tables, note: Note, newId: Id, now: Timestamp)
    requires Consistent(t) && newId != EmptyId && newId !in t.notes
    requires note.tags <= t.tags.Values
    ensures var s := CreateNoteStep(t, note, newId, now);
      GetNoteById(s.tables, newId) == Some(s.result.value.(links := {}))
  {
    CreateThenGet(t, note, newId, now);
    ResolveSupplied(t, note.tags);
  }

  /** After an update the note reads back with the supplied fields, and its
      tags are the stored rows of the supplied tag ids; its id, creation time
      and links are those it had before. */
  lemma UpdateThenGet(t: Tables, note: Note, now: Timestamp)
    requires note.id in t.notes
    ensures var r := GetNoteById(UpdateNoteStep(t, note, now).tables, note.id);
      && r.Some?
      && r.value.id == note.id
      && r.value.title == note.title && r.value.content == note.content
      && r.value.workItemId == note.workItemId && r.value.updatedAt == Some(now)
      && r.value.tags == ResolveTags(t, TagIds(note.tags))
      && r.value.createdAt == t.notes[note.id].createdAt
      && r.value.links == OutboundLinks(t, note.id)
  {
  }

  /** When the supplied tags are stored tag rows, an updated note reads back
      with exactly the supplied tag set, whatever it held before. */
  lemma UpdateReadsBackSuppliedTags(t: Tables, note: Note, now: Timestamp)
    requires KeysMatch(t) && note.id in t.notes
    requires note.tags <= t.tags.Values
    ensures GetNoteById(UpdateNoteStep(t, note, now).tables, note.id).value.tags == note.tags
  {
    UpdateThenGet(t, note, now);
    ResolveSupplied(t, note.tags);
  }

  /** Update replaces the tag set outright: whatever tags the note held
      before makes no difference to the tables afterwards. */
  lemma UpdateForgetsOldTags(t: Tables, note: Note, now: Timestamp, before: set<Id>)
    requires note.id in t.notes
    ensures var t0 := t.(notes := t.notes[note.id := t.notes[note.id].(tagIds := before)]);
      UpdateNoteStep(t0, note, now) == UpdateNoteStep(t, note, now)
  {
  }

  /** After a delete the note is gone, nothing links to or from it, every
      other note's linked notes lose only the deleted one, and every other
      note keeps its tags and the outbound links that did not end at the
      deleted note. */
  lemma DeleteThenGet(t: Tables, id: Id)
    requires id in t.notes
    ensures var t' := DeleteNoteStep(t, id).tables;
      && GetNoteById(t', id) == None
      && GetLinkedNotes(t', id) == {}
      && (forall x :: x != id ==> GetLinkedNotes(t', x) == GetLinkedNotes(t, x) - {Load(t, id, false)})
      && (forall x :: x in t'.notes ==>
            && GetNoteById(t', x).value.tags == GetNoteById(t, x).value.tags
            && GetNoteById(t', x).value.links == set l | l in GetNoteById(t, x).value.links && l.targetNoteId != id)
  {
    var t' := DeleteNoteStep(t, id).tables;
    forall x | x in t'.notes
      ensures OutboundLinks(t', x) == set l | l in OutboundLinks(t, x) && l.targetNoteId != id
    {
      forall l | l in OutboundLinks(t, x) && l.targetNoteId != id ensures l in OutboundLinks(t', x) {
        var k :| k in t.links && t.links[k] == l;
        assert k in t'.links;
      }
    }
    forall x | x != id ensures GetLinkedNotes(t', x) == GetLinkedNotes(t, x) - {Load(t, id, false)} {
      forall n | n in GetLinkedNotes(t', x) ensures n in GetLinkedNotes(t, x) && n != Load(t, id, false) {
        assert Load(t', n.id, false) == Load(t, n.id, false);
      }
      forall n | n in GetLinkedNotes(t, x) && n != Load(t, id, false) ensures n in GetLinkedNotes(t', x) {
        var k :| k in t.links && t.links[k].sourceNoteId == x && t.links[k].targetNoteId == n.id;
        assert k in t'.links;
        assert Load(t', n.id, false) == Load(t, n.id, false);
      }
    }
  }
}
