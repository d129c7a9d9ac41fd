/** The tag service: plain create, read, update and delete over the tag
    table. It never looks at notes. */
module Tags {
  import opened Wrappers
  import opened Models
  import opened Database

  /** Every tag row. With keys matching ids, a tag is returned exactly when
      it is the row stored under its own id. */
  function GetAllTags(t: Tables): (r: set<Tag>)
    ensures forall k :: k in t.tags ==> t.tags[k] in r
    ensures KeysMatch(t) ==> forall tag :: tag in r <==> tag.id in t.tags && t.tags[tag.id] == tag
  {
    t.tags.Values
  }

  /** The tag stored under `id`, or None. */
  function GetTagById(t: Tables, id: Id): (r: Option<Tag>)
    ensures r.Some? <==> id in t.tags
    ensures r.Some? ==> r.value == t.tags[id]
    ensures r.Some? && KeysMatch(t) ==> r.value.id == id
  {
    if id in t.tags then Some(t.tags[id]) else None
  }

  /** CreateTagAsync: the tag gets `newId` and is added. Names are not
      checked for uniqueness. */
  function CreateTagStep(t: Tables, tag: Tag, newId: Id): (s: Step<Tag>)
    requires newId != EmptyId && newId !in t.tags
    ensures s.result == Ok(tag.(id := newId))
    ensures s.tables.tags.Keys == t.tags.Keys + {newId}
    ensures s.tables.tags[newId] == tag.(id := newId)
    ensures forall k :: k in t.tags ==> s.tables.tags[k] == t.tags[k]
    ensures s.tables.notes == t.notes && s.tables.links == t.links
    ensures Consistent(t) ==> Consistent(s.tables)
  {
    var stored := tag.(id := newId);
    Step(t.(tags := t.tags[newId := stored]), Ok(stored))
  }

  /** UpdateTagAsync: a missing tag fails with NotFound and changes nothing;
      otherwise only its name and colour are overwritten. */
  function UpdateTagStep(t: Tables, tag: Tag): (s: Step<()>)
    ensures tag.id !in t.tags ==> s == Step(t, Err(NotFound))
    ensures tag.id in t.tags ==>
      && s.result == Ok(())
      && s.tables.tags.Keys == t.tags.Keys
      && s.tables.tags[tag.id].id == t.tags[tag.id].id
      && s.tables.tags[tag.id].name == tag.name
      && s.tables.tags[tag.id].color == tag.color
      && (forall k :: k in t.tags && k != tag.id ==> s.tables.tags[k] == t.tags[k])
      && s.tables.notes == t.notes && s.tables.links == t.links
    ensures Consistent(t) ==> Consistent(s.tables)
  {
    if tag.id !in t.tags then
      Step(t, Err(NotFound))
    else
      var row := t.tags[tag.id].(name := tag.name, color := tag.color);
      Step(t.(tags := t.tags[tag.id := row]), Ok(()))
  }

  /** DeleteTagAsync: a missing tag fails with NotFound and changes nothing;
      otherwise exactly that tag row goes. The notes, with the tag ids they
      hold, are left as they were. */
  function DeleteTagStep(t: Tables, id: Id): (s: Step<()>)
    ensures id !in t.tags ==> s == Step(t, Err(NotFound))
    ensures id in t.tags ==>
      && s.result == Ok(())
      && s.tables.tags == t.tags - {id}
      && s.tables.notes == t.notes && s.tables.links == t.links
    ensures Consistent(t) ==> Consistent(s.tables)
  {
    if id !in t.tags then Step(t, Err(NotFound))
    else Step(t.(tags := t.tags - {id}), Ok(()))
  }

  class TagService {
    const db: Store

    constructor(db: Store)
      ensures this.db == db
    {
      this.db := db;
    }

    /** CreateTagAsync; `newId` stands for Guid.NewGuid(). */
    method CreateTag(tag: Tag, newId: Id) returns (stored: Tag)
      requires newId != EmptyId && newId !in db.tags
      modifies db
      ensures var s := CreateTagStep(old(db.State()), tag, newId);
        db.State() == s.tables && Ok(stored) == s.result
      ensures old(Consistent(db.State())) ==> Consistent(db.State())
    {
      stored := tag.(id := newId);
      db.tags := db.tags[newId := stored];
    }

    /** UpdateTagAsync: the stored row's name and colour are overwritten in place. */
    method UpdateTag(tag: Tag) returns (outcome: Result<(), Error>)
      modifies db
      ensures var s := UpdateTagStep(old(db.State()), tag);
        db.State() == s.tables && outcome == s.result
      ensures old(Consistent(db.State())) ==> Consistent(db.State())
    {
      if tag.id !in db.tags {
        return Err(NotFound);
      }
      var existing := db.tags[tag.id];
      existing := existing.(name := tag.name);
      existing := existing.(color := tag.color);
      db.tags := db.tags[tag.id := existing];
      outcome := Ok(());
    }

    /** DeleteTagAsync. */
    method DeleteTag(id: Id) returns (outcome: Result<(), Error>)
      modifies db
      ensures var s := DeleteTagStep(old(db.State()), id);
        db.State() == s.tables && outcome == s.result
      ensures old(Consistent(db.State())) ==> Consistent(db.State())
    {
      if id !in db.tags {
        return Err(NotFound);
      }
      db.tags := db.tags - {id};
      outcome := Ok(());
    }
  }

  /** The tag rows stored under the keys `ks`. */
  function TagRows(t: Tables, ks: set<Id>): (r: set<Tag>)
    requires ks <= t.tags.Keys
    ensures forall k :: k in ks ==> t.tags[k] in r
  {
    set k | k in ks :: t.tags[k]
  }

  /** With keys matching ids, no two keys hold the same row. */
  lemma {:induction false} TagRowsCount(t: Tables, ks: set<Id>)
    requires KeysMatch(t) && ks <= t.tags.Keys
    ensures |TagRows(t, ks)| == |ks|
  {
    if ks != {} {
      var k :| k in ks;
      var rest := ks - {k};
      TagRowsCount(t, rest);
      assert TagRows(t, ks) == TagRows(t, rest) + {t.tags[k]};
    }
  }

  /** With keys matching ids, listing the tags returns one tag per row. */
  lemma GetAllTagsCount(t: Tables)
    requires KeysMatch(t)
    ensures |GetAllTags(t)| == |t.tags|
  {
    TagRowsCount(t, t.tags.Keys);
    assert GetAllTags(t) == TagRows(t, t.tags.Keys);
  }

  /** Deleting a tag leaves its id on every note that held it, so the note
      keeps an id with no tag row behind it; loading the note no longer shows
      the tag. */
  lemma DeleteTagLeavesDanglingIds(t: Tables, id: Id, noteId: Id)
    requires KeysMatch(t)
    requires id in t.tags && noteId in t.notes && id in t.notes[noteId].tagIds
    ensures var t' := DeleteTagStep(t, id).tables;
      && id in t'.notes[noteId].tagIds && id !in t'.tags
      && Load(t', noteId, true).tags == Load(t, noteId, true).tags - {t.tags[id]}
  {
  }
}
