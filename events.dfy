/**
 * The typed Gerrit event model of plugins/gerritbot/gerritbot.py: an entity
 * (person), a patch set, a change and the two events the bot parses, each
 * built from a decoded JSON dict by its `from_data`. Fields the bot only
 * stores keep their JSON value; sizes and the change number go through
 * `int(...)`, timestamps through `datetime.fromtimestamp` (kept as epoch
 * seconds). A missing required key raises `KeyError`; `email`, `topic` and
 * `comment` default to `None`. Arguments are evaluated left to right and the
 * `int(...)` coercions run in the constructors, after every lookup.
 */
module Events {
  import opened Values

  datatype Entity = Entity(username: Json, name: Json, email: Json)

  datatype PatchSet = PatchSet(
    kind: Json, author: Entity, inserts: int, deletes: int,
    uploader: Entity, revision: Json, createdOn: int)

  datatype Change = Change(
    status: Json, commitMessage: Json, number: int, url: Json, project: Json,
    owner: Entity, subject: Json, branch: Json, id: Json, topic: Json)

  datatype Event =
    | PatchSetCreated(patchSet: PatchSet, change: Change, uploader: Entity, createdOn: int)
    | CommentAdded(author: Entity, change: Change, patchSet: PatchSet, createdOn: int, comment: Json)

  /** The classes `GERRIT_EVENTS` can name. */
  datatype EventClass = PatchSetCreatedClass | CommentAddedClass

  function EntityFromData(data: Json): Result<Entity> {
    var username :- Get(data, "username");
    var name :- Get(data, "name");
    var email :- GetOr(data, "email", JNull);
    Ok(Entity(username, name, email))
  }

  function PatchSetFromData(data: Json): Result<PatchSet> {
    var kind :- Get(data, "kind");
    var authorData :- Get(data, "author");
    var author :- EntityFromData(authorData);
    var sizeInsertions :- Get(data, "sizeInsertions");
    var sizeDeletions :- Get(data, "sizeDeletions");
    var uploaderData :- Get(data, "uploader");
    var uploader :- EntityFromData(uploaderData);
    var revision :- Get(data, "revision");
    var createdOnData :- Get(data, "createdOn");
    var createdOn :- Timestamp(createdOnData);
    var inserts :- PyInt(sizeInsertions);
    var deletes :- PyInt(sizeDeletions);
    Ok(PatchSet(kind, author, inserts, deletes, uploader, revision, createdOn))
  }

  function ChangeFromData(data: Json): Result<Change> {
    var status :- Get(data, "status");
    var commitMessage :- Get(data, "commitMessage");
    var numberData :- Get(data, "number");
    var url :- Get(data, "url");
    var project :- Get(data, "project");
    var ownerData :- Get(data, "owner");
    var owner :- EntityFromData(ownerData);
    var subject :- Get(data, "subject");
    var branch :- Get(data, "branch");
    var id :- Get(data, "id");
    var topic :- GetOr(data, "topic", JNull);
    var number :- PyInt(numberData);
    Ok(Change(status, commitMessage, number, url, project, owner, subject, branch, id, topic))
  }

  function PatchSetCreatedFromData(data: Json): Result<Event> {
    var patchSetData :- Get(data, "patchSet");
    var patchSet :- PatchSetFromData(patchSetData);
    var changeData :- Get(data, "change");
    var change :- ChangeFromData(changeData);
    var uploaderData :- Get(data, "uploader");
    var uploader :- EntityFromData(uploaderData);
    var createdOnData :- Get(data, "eventCreatedOn");
    var createdOn :- Timestamp(createdOnData);
    Ok(PatchSetCreated(patchSet, change, uploader, createdOn))
  }

  function CommentAddedFromData(data: Json): Result<Event> {
    var authorData :- Get(data, "author");
    var author :- EntityFromData(authorData);
    var changeData :- Get(data, "change");
    var change :- ChangeFromData(changeData);
    var patchSetData :- Get(data, "patchSet");
    var patchSet :- PatchSetFromData(patchSetData);
    var createdOnData :- Get(data, "eventCreatedOn");
    var createdOn :- Timestamp(createdOnData);
    var comment :- GetOr(data, "comment", JNull);
    Ok(CommentAdded(author, change, patchSet, createdOn, comment))
  }

  /** `event_cls.from_data(event)`. */
  function FromData(cls: EventClass, data: Json): Result<Event> {
    match cls
    case PatchSetCreatedClass => PatchSetCreatedFromData(data)
    case CommentAddedClass => CommentAddedFromData(data)
  }

  function ClassOf(ev: Event): EventClass {
    match ev
    case PatchSetCreated(_, _, _, _) => PatchSetCreatedClass
    case CommentAdded(_, _, _, _, _) => CommentAddedClass
  }

  // ---------------------------------------------------------------------------
  // The payload each value is read from, as Gerrit sends it.

  function EntityToData(e: Entity): Json {
    var fields := map["username" := e.username, "name" := e.name];
    JObj(if e.email == JNull then fields else fields["email" := e.email])
  }

  function PatchSetToData(p: PatchSet): Json {
    JObj(map[
      "kind" := p.kind, "author" := EntityToData(p.author),
      "sizeInsertions" := JInt(p.inserts), "sizeDeletions" := JInt(p.deletes),
      "uploader" := EntityToData(p.uploader), "revision" := p.revision,
      "createdOn" := JInt(p.createdOn)])
  }

  function ChangeToData(c: Change): Json {
    var fields := map[
      "status" := c.status, "commitMessage" := c.commitMessage, "number" := JInt(c.number),
      "url" := c.url, "project" := c.project, "owner" := EntityToData(c.owner),
      "subject" := c.subject, "branch" := c.branch, "id" := c.id];
    JObj(if c.topic == JNull then fields else fields["topic" := c.topic])
  }

  function EventToData(ev: Event): Json {
    match ev
    case PatchSetCreated(p, c, u, t) =>
      JObj(map["patchSet" := PatchSetToData(p), "change" := ChangeToData(c),
               "uploader" := EntityToData(u), "eventCreatedOn" := JInt(t)])
    case CommentAdded(a, c, p, t, comment) =>
      var fields := map["author" := EntityToData(a), "change" := ChangeToData(c),
                        "patchSet" := PatchSetToData(p), "eventCreatedOn" := JInt(t)];
      JObj(if comment == JNull then fields else fields["comment" := comment])
  }

  // ---------------------------------------------------------------------------
  // Properties of parsing

  /** Parsing the payload of an entity gives the entity back; an absent email reads as `None`. */
  lemma EntityRoundTrip(e: Entity)
    ensures EntityFromData(EntityToData(e)) == Ok(e)
  {
  }

  lemma PatchSetRoundTrip(p: PatchSet)
    ensures PatchSetFromData(PatchSetToData(p)) == Ok(p)
  {
    EntityRoundTrip(p.author);
    EntityRoundTrip(p.uploader);
  }

  lemma ChangeRoundTrip(c: Change)
    ensures ChangeFromData(ChangeToData(c)) == Ok(c)
  {
    EntityRoundTrip(c.owner);
  }

  lemma PatchSetCreatedRoundTrip(p: PatchSet, c: Change, u: Entity, t: int)
    ensures PatchSetCreatedFromData(EventToData(PatchSetCreated(p, c, u, t))) == Ok(PatchSetCreated(p, c, u, t))
  {
    var d := EventToData(PatchSetCreated(p, c, u, t));
    assert Get(d, "patchSet") == Ok(PatchSetToData(p));
    assert Get(d, "change") == Ok(ChangeToData(c));
    assert Get(d, "uploader") == Ok(EntityToData(u));
    assert Get(d, "eventCreatedOn") == Ok(JInt(t));
    PatchSetRoundTrip(p);
    ChangeRoundTrip(c);
    EntityRoundTrip(u);
  }

  lemma CommentAddedRoundTrip(a: Entity, c: Change, p: PatchSet, t: int, comment: Json)
    ensures CommentAddedFromData(EventToData(CommentAdded(a, c, p, t, comment))) == Ok(CommentAdded(a, c, p, t, comment))
  {
    var d := EventToData(CommentAdded(a, c, p, t, comment));
    assert Get(d, "author") == Ok(EntityToData(a));
    assert Get(d, "change") == Ok(ChangeToData(c));
    assert Get(d, "patchSet") == Ok(PatchSetToData(p));
    assert Get(d, "eventCreatedOn") == Ok(JInt(t));
    assert GetOr(d, "comment", JNull) == Ok(comment);
    EntityRoundTrip(a);
    ChangeRoundTrip(c);
    PatchSetRoundTrip(p);
  }

  /** Every event parses back from the payload Gerrit would send for it. */
  lemma EventRoundTrip(ev: Event)
    ensures FromData(ClassOf(ev), EventToData(ev)) == Ok(ev)
  {
    match ev
    case PatchSetCreated(p, c, u, t) => PatchSetCreatedRoundTrip(p, c, u, t);
    case CommentAdded(a, c, p, t, comment) => CommentAddedRoundTrip(a, c, p, t, comment);
  }

  /** `username` and `name` are required; `email` is optional and defaults to `None`. */
  lemma EntityKeys(data: map<string, Json>)
    ensures "username" !in data ==> EntityFromData(JObj(data)) == Err(KeyError("username"))
    ensures "username" in data && "name" !in data ==> EntityFromData(JObj(data)) == Err(KeyError("name"))
    ensures "username" in data && "name" in data ==>
      EntityFromData(JObj(data)) == Ok(Entity(data["username"], data["name"],
                                              if "email" in data then data["email"] else JNull))
  {
  }

  /** A parsed patch set had every required key; its sizes are `int(...)` of the payload's. */
  lemma PatchSetParsed(data: Json, p: PatchSet)
    requires PatchSetFromData(data) == Ok(p)
    ensures data.JObj?
    ensures forall k :: k in ["kind", "author", "sizeInsertions", "sizeDeletions", "uploader", "revision", "createdOn"]
                        ==> k in data.fields
    ensures PyInt(data.fields["sizeInsertions"]) == Ok(p.inserts)
    ensures PyInt(data.fields["sizeDeletions"]) == Ok(p.deletes)
    ensures Timestamp(data.fields["createdOn"]) == Ok(p.createdOn)
  {
  }

  /** A parsed change had every required key; `number` is `int(...)` of the payload's, `topic` defaults to `None`. */
  lemma ChangeParsed(data: Json, c: Change)
    requires ChangeFromData(data) == Ok(c)
    ensures data.JObj?
    ensures forall k :: k in ["status", "commitMessage", "number", "url", "project", "owner", "subject", "branch", "id"]
                        ==> k in data.fields
    ensures PyInt(data.fields["number"]) == Ok(c.number)
    ensures c.id == data.fields["id"] && c.project == data.fields["project"] && c.url == data.fields["url"]
    ensures c.topic == if "topic" in data.fields then data.fields["topic"] else JNull
  {
  }

  /** Whatever stands in `sizeInsertions` is read by `int(...)` and nothing else changes. */
  lemma PatchSetSizeField(p: PatchSet, v: Json)
    ensures PatchSetFromData(JObj(PatchSetToData(p).fields["sizeInsertions" := v]))
            == (match PyInt(v) case Ok(n) => Ok(p.(inserts := n)) case Err(e) => Err(e))
  {
    var data := JObj(PatchSetToData(p).fields["sizeInsertions" := v]);
    EntityRoundTrip(p.author);
    EntityRoundTrip(p.uploader);
    if PyInt(v).Ok? {
      assert PatchSetFromData(data) == Ok(p.(inserts := PyInt(v).value));
    } else {
      assert PatchSetFromData(data) == Err(PyInt(v).error);
    }
  }

  /** The size fields accept what `int(...)` accepts, strings included, and nothing else. */
  lemma PatchSetSizeText(p: PatchSet, text: string)
    ensures PatchSetFromData(JObj(PatchSetToData(p).fields["sizeInsertions" := JStr(text)]))
            == (match ParseInt(text) case Ok(n) => Ok(p.(inserts := n)) case Err(e) => Err(e))
  {
    PatchSetSizeField(p, JStr(text));
  }
}
