/** The domain records of the knowledge base: notes, tags and the typed,
    directed links between notes. They carry data only. */
module Models {
  import opened Wrappers

  /** A Guid key. 0 stands for Guid.Empty, the key of an entity that has not
      been stored yet. */
  type Id = nat

  const EmptyId: Id := 0

  /** A DateTime, as a tick count; 0 is default(DateTime). */
  type Timestamp = int

  const DefaultTimestamp: Timestamp := 0

  /** A nullable C# string. */
  type Text = Option<string>

  /** The closed set of relationship kinds a link may have. */
  datatype LinkType = Reference | Supports | Contradicts | Elaborates | Example | Question | Answer

  datatype Tag = Tag(id: Id, name: Text, color: Text)

  /** A directed edge from the note `sourceNoteId` to the note `targetNoteId`. */
  datatype NoteLink = NoteLink(
    id: Id,
    sourceNoteId: Id,
    targetNoteId: Id,
    description: Text,
    linkType: LinkType)

  /** A note together with the tags attached to it and its outbound links.
      `createdAt` is always present; `updatedAt` is absent until an update. */
  datatype Note = Note(
    id: Id,
    title: Text,
    content: Text,
    tags: set<Tag>,
    links: set<NoteLink>,
    createdAt: Timestamp,
    updatedAt: Option<Timestamp>,
    workItemId: Text)

  /** `new Note()`: every reference property null, both collections empty. */
  function NewNote(): (n: Note)
    ensures n.tags == {} && n.links == {}
    ensures n.title == None && n.content == None && n.workItemId == None
    ensures n.updatedAt == None && n.id == EmptyId && n.createdAt == DefaultTimestamp
  {
    Note(EmptyId, None, None, {}, {}, DefaultTimestamp, None, None)
  }

  /** The integer an enum value of LinkType is stored as, in declaration order. */
  function Ordinal(k: LinkType): (n: nat)
    ensures n < |AllLinkTypes|
  {
    LinkTypeCount(k);
    match k
    case Reference => 0
    case Supports => 1
    case Contradicts => 2
    case Elaborates => 3
    case Example => 4
    case Question => 5
    case Answer => 6
  }

  /** Reading a stored integer back as a LinkType; only 0 to 6 name a kind. */
  function FromOrdinal(n: int): (r: Option<LinkType>)
    ensures r.Some? <==> 0 <= n < |AllLinkTypes|
  {
    LinkTypeCount(Reference);
    if n == 0 then Some(Reference)
    else if n == 1 then Some(Supports)
    else if n == 2 then Some(Contradicts)
    else if n == 3 then Some(Elaborates)
    else if n == 4 then Some(Example)
    else if n == 5 then Some(Question)
    else if n == 6 then Some(Answer)
    else None
  }

  const AllLinkTypes: set<LinkType> :=
    {Reference, Supports, Contradicts, Elaborates, Example, Question, Answer}

  /** There are exactly seven link kinds and every kind is one of them. */
  lemma LinkTypeCount(k: LinkType)
    ensures k in AllLinkTypes && |AllLinkTypes| == 7
  {
  }

  /** Storing a kind as an integer and reading it back gives the kind again. */
  lemma OrdinalRoundTrip(k: LinkType)
    ensures FromOrdinal(Ordinal(k)) == Some(k)
  {
  }

  /** Every integer that names a kind is that kind's stored integer. */
  lemma FromOrdinalRoundTrip(n: int)
    requires 0 <= n < |AllLinkTypes|
    ensures FromOrdinal(n).Some? && Ordinal(FromOrdinal(n).value) == n
  {
  }
}
