/** The three tables the services work on, how a note is loaded from them, and
    the store object that holds them. */
module Database {
  import opened Wrappers
  import opened Models

  /** The failures the services surface: a missing mutation target
      (KeyNotFoundException), and the store rejecting a link whose source or
      target note does not exist. */
  datatype Error = NotFound | ReferentialViolation

  /** A row of the note table. Tag membership is kept as the ids of the
      associated tags; the outbound links live in the link table. */
  datatype NoteRow = NoteRow(
    title: Text,
    content: Text,
    tagIds: set<Id>,
    createdAt: Timestamp,
    updatedAt: Option<Timestamp>,
    workItemId: Text)

  /** A snapshot of the store: each table maps keys to rows. */
  datatype Tables = Tables(notes: map<Id, NoteRow>, tags: map<Id, Tag>, links: map<Id, NoteLink>)

  /** The tables after a service call, with what the call returned. */
  datatype Step<T> = Step(tables: Tables, result: Result<T, Error>)

  function Empty(): Tables
  {
    Tables(map[], map[], map[])
  }

  /** Each tag and link row is stored under its own id. */
  predicate KeysMatch(t: Tables)
  {
    && (forall k :: k in t.tags ==> t.tags[k].id == k)
    && (forall k :: k in t.links ==> t.links[k].id == k)
  }

  /** Every link joins two notes that are in the note table. */
  predicate NoDanglingLinks(t: Tables)
  {
    forall k :: k in t.links ==> t.links[k].sourceNoteId in t.notes && t.links[k].targetNoteId in t.notes
  }

  /** The integrity the store keeps. Tag ids held by notes are deliberately
      not required to exist: deleting a tag leaves them behind. */
  predicate Consistent(t: Tables)
  {
    KeysMatch(t) && NoDanglingLinks(t)
  }

  predicate Mentions(l: NoteLink, id: Id)
  {
    l.sourceNoteId == id || l.targetNoteId == id
  }

  /** The ids of a collection of tags: what the many-to-many association keeps. */
  function TagIds(tags: set<Tag>): (ids: set<Id>)
    ensures forall tag :: tag in tags ==> tag.id in ids
    ensures forall k :: k in ids ==> exists tag :: tag in tags && tag.id == k
  {
    set tag | tag in tags :: tag.id
  }

  /** The row of a note as it is written from a Note object. */
  function RowOf(n: Note): NoteRow
  {
    NoteRow(n.title, n.content, TagIds(n.tags), n.createdAt, n.updatedAt, n.workItemId)
  }

  /** `Include(n => n.Tags)`: the tag rows named by `ids`. With rows keyed by
      their own ids, the loaded tags carry exactly those of `ids` that have a
      row; an id with no row joins to nothing. */
  function ResolveTags(t: Tables, ids: set<Id>): (r: set<Tag>)
    ensures KeysMatch(t) ==> TagIds(r) == ids * t.tags.Keys
  {
    set k | k in ids && k in t.tags :: t.tags[k]
  }

  /** Tags that are stored rows, keyed by their own ids, resolve back to
      themselves from their ids. */
  lemma ResolveSupplied(t: Tables, supplied: set<Tag>)
    requires KeysMatch(t) && supplied <= t.tags.Values
    ensures ResolveTags(t, TagIds(supplied)) == supplied
  {
  }

  /** `Include(n => n.Links)`: the links whose source is the note `id`. With
      rows keyed by their own ids, a link is loaded exactly when it is the row
      under its own id and starts at the note; a note that is not in the
      table has none when no link dangles. */
  function OutboundLinks(t: Tables, id: Id): (r: set<NoteLink>)
    ensures KeysMatch(t) ==> forall l :: l in r <==> l.id in t.links && t.links[l.id] == l && l.sourceNoteId == id
    ensures NoDanglingLinks(t) && id !in t.notes ==> r == {}
  {
    set k | k in t.links && t.links[k].sourceNoteId == id :: t.links[k]
  }

  /** The note `id` as a query materialises it: tags always included, the
      outbound links only when `withLinks` (otherwise the list stays empty). */
  function Load(t: Tables, id: Id, withLinks: bool): (n: Note)
    requires id in t.notes
    ensures n.id == id
  {
    var row := t.notes[id];
    Note(id, row.title, row.content, ResolveTags(t, row.tagIds),
         if withLinks then OutboundLinks(t, id) else {},
         row.createdAt, row.updatedAt, row.workItemId)
  }

  /** The notes with the given ids. */
  function LoadAll(t: Tables, ids: set<Id>, withLinks: bool): (r: set<Note>)
    requires ids <= t.notes.Keys
  {
    set id | id in ids :: Load(t, id, withLinks)
  }

  /** No two ids load to the same note, so a query never repeats a note. */
  lemma {:induction false} LoadAllCount(t: Tables, ids: set<Id>, withLinks: bool)
    requires ids <= t.notes.Keys
    ensures |LoadAll(t, ids, withLinks)| == |ids|
  {
    if ids != {} {
      var id :| id in ids;
      var rest := ids - {id};
      LoadAllCount(t, rest, withLinks);
      assert LoadAll(t, ids, withLinks) == LoadAll(t, rest, withLinks) + {Load(t, id, withLinks)};
      assert Load(t, id, withLinks) !in LoadAll(t, rest, withLinks);
    }
  }

  /** The ids of a set of loaded notes. */
  function NoteIds(ns: set<Note>): set<Id>
  {
    set n | n in ns :: n.id
  }

  /** The database context both services share: one mutable map per table. */
  class Store {
    var notes: map<Id, NoteRow>
    var tags: map<Id, Tag>
    var links: map<Id, NoteLink>

    /** A store with three empty tables. */
    constructor()
      ensures State() == Empty()
    {
      notes, tags, links := map[], map[], map[];
    }

    /** The current contents of the three tables. */
    function State(): Tables
      reads this
    {
      Tables(notes, tags, links)
    }
  }
}
