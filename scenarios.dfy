/** Whole-service scenarios, each a sequence of calls starting from a given
    store, with what the queries answer along the way. */
module Scenarios {
  import opened Wrappers
  import opened Models
  import opened Database
  import opened Notes
  import opened Tags

  /** Two notes A and B, a link A -> B of kind Supports: A's linked notes are
      [B] and B's are []; once A is deleted, B is still there and the link is
      gone. */
  lemma LinkThenDeleteSource(a: Id, b: Id, l: Id, now: Timestamp, noteA: Note, noteB: Note, description: Text)
    requires a != b && a != EmptyId && b != EmptyId && l != EmptyId
    ensures
      var s1 := CreateNoteStep(Empty(), noteA, a, now);
      var s2 := CreateNoteStep(s1.tables, noteB, b, now);
      var s3 := CreateLinkStep(s2.tables, NoteLink(EmptyId, a, b, description, Supports), l);
      var s4 := DeleteNoteStep(s3.tables, a);
      && s3.result == Ok(NoteLink(l, a, b, description, Supports))
      && GetLinkedNotes(s3.tables, a) == {Load(s3.tables, b, false)}
      && GetLinkedNotes(s3.tables, b) == {}
      && s4.result == Ok(())
      && GetNoteById(s4.tables, b).Some?
      && GetNoteById(s4.tables, a) == None
      && l !in s4.tables.links
  {
    var s1 := CreateNoteStep(Empty(), noteA, a, now);
    var s2 := CreateNoteStep(s1.tables, noteB, b, now);
    var t3 := CreateLinkStep(s2.tables, NoteLink(EmptyId, a, b, description, Supports), l).tables;
    assert t3.links == map[l := NoteLink(l, a, b, description, Supports)];
    assert LinkTargets(t3, a) == {b};
    assert LinkTargets(t3, b) == {};
    assert IncidentLinks(t3, a) == {l};
  }

  /** A tag named "project-x", a note N created without tags and then updated
      to carry that tag: looking notes up by "project-x" finds exactly N. */
  lemma TagThenFindByName(g: Id, n: Id, now: Timestamp, later: Timestamp, color: Text, note: Note)
    requires g != EmptyId && n != EmptyId && note.tags == {}
    ensures
      var s1 := CreateTagStep(Empty(), Tag(EmptyId, Some("project-x"), color), g);
      var s2 := CreateNoteStep(s1.tables, note, n, now);
      var s3 := UpdateNoteStep(s2.tables, s2.result.value.(tags := {s1.result.value}), later);
      && s3.result == Ok(())
      && GetNotesByTag(s3.tables, "project-x") == {Load(s3.tables, n, false)}
  {
  }

  /** Two tags created with the same name are both stored, under different
      ids: names are not unique. */
  lemma DuplicateTagNames(t: Tables, first: Tag, second: Tag, g1: Id, g2: Id)
    requires g1 != g2 && g1 != EmptyId && g2 != EmptyId && g1 !in t.tags && g2 !in t.tags
    requires first.name == second.name
    ensures
      var s1 := CreateTagStep(t, first, g1);
      var s2 := CreateTagStep(s1.tables, second, g2);
      && s1.result.Ok? && s2.result.Ok?
      && g1 in s2.tables.tags && g2 in s2.tables.tags
      && s2.tables.tags[g1].name == s2.tables.tags[g2].name == first.name
  {
  }
}
