// From a decoded Jetstream event to a typed model, and from there to one of three fates:
// skipped, sent to the dead-letter topic, or produced under its time_us cursor.
module Parse {
  import opened Basics

  /** A decoded JSON value as Python sees it: true and false are integers there, floats are not. */
  datatype Json =
    | Null
    | Bool(b: bool)
    | Int(n: int)
    | Float(r: real)
    | Str(s: string)
    | Arr(items: seq<Json>)
    | Obj(fields: Object)

  type Object = map<string, Json>

  datatype Model =
    | Post(did: string, rkey: string, cid: string, createdAt: Json, text: string,
           langs: Option<seq<string>>, replyParent: Option<string>, replyRoot: Option<string>)
    | Like(did: string, rkey: string, cid: string, createdAt: Json, subjectUri: string, subjectCid: string)
    | Follow(did: string, rkey: string, cid: string, createdAt: Json, subjectDid: string)

  /** The exceptions that can leave to_model. */
  datatype Exn = ValueErr | ValidationErr | KeyErr | TypeErr {
    /** Exception subtyping: pydantic's ValidationError is a ValueError. */
    predicate IsA(handler: Exn) {
      this == handler || (this == ValidationErr && handler == ValueErr)
    }
  }

  datatype Result<+T> = Ok(value: T) | Raise(exn: Exn)
  {
    predicate IsFailure() {
      Raise?
    }

    function PropagateFailure<U>(): Result<U>
      requires Raise?
    {
      Raise(exn)
    }

    function Extract(): T
      requires Ok?
    {
      value
    }
  }

  const POST := "app.bsky.feed.post"
  const LIKE := "app.bsky.feed.like"
  const FOLLOW := "app.bsky.graph.follow"

  /** d.get(key) */
  function Get(d: Object, key: string): Json {
    if key in d then d[key] else Null
  }

  /** d[key] */
  function Item(d: Object, key: string): Result<Json> {
    if key in d then Ok(d[key]) else Raise(KeyErr)
  }

  /** v[key], where v need not be an object. */
  function Index(v: Json, key: string): Result<Json> {
    if v.Obj? then Item(v.fields, key) else Raise(TypeErr)
  }

  datatype Shared = Shared(did: Json, rkey: Json, cid: Json, createdAt: Json)

  function Common(did: Json, commit: Object, record: Object): Result<Shared> {
    var rkey :- Item(commit, "rkey");
    var cid :- Item(commit, "cid");
    var createdAt :- Item(record, "createdAt");
    Ok(Shared(did, rkey, cid, createdAt))
  }

  function Reply(record: Object, side: string): Option<string> {
    var reply := Get(record, "reply");
    if !reply.Obj? then None else
      var ref := Get(reply.fields, side);
      if !ref.Obj? then None else
        var uri := Get(ref.fields, "uri");
        if uri.Str? then Some(uri.s) else None
  }

  predicate StringList(v: Json) {
    v.Arr? && forall i :: 0 <= i < |v.items| ==> v.items[i].Str?
  }

  predicate Langs(v: Json) {
    v.Null? || StringList(v)
  }

  function LangsOf(v: Json): Option<seq<string>>
    requires Langs(v)
  {
    if v.Null? then None
    else Some(seq(|v.items|, i requires 0 <= i < |v.items| => v.items[i].s))
  }

  /** The identity fields validate: three strings and a timestamp, which `dt` recognises. */
  predicate ValidShared(dt: Json -> bool, c: Shared) {
    c.did.Str? && c.rkey.Str? && c.cid.Str? && dt(c.createdAt)
  }

  function MakePost(dt: Json -> bool, c: Shared, text: Json, langs: Json,
                    parent: Option<string>, root: Option<string>): Result<Model> {
    if ValidShared(dt, c) && text.Str? && Langs(langs)
    then Ok(Post(c.did.s, c.rkey.s, c.cid.s, c.createdAt, text.s, LangsOf(langs), parent, root))
    else Raise(ValidationErr)
  }

  function MakeLike(dt: Json -> bool, c: Shared, uri: Json, cid: Json): Result<Model> {
    if ValidShared(dt, c) && uri.Str? && cid.Str?
    then Ok(Like(c.did.s, c.rkey.s, c.cid.s, c.createdAt, uri.s, cid.s))
    else Raise(ValidationErr)
  }

  function MakeFollow(dt: Json -> bool, c: Shared, subject: Json): Result<Model> {
    if ValidShared(dt, c) && subject.Str?
    then Ok(Follow(c.did.s, c.rkey.s, c.cid.s, c.createdAt, subject.s))
    else Raise(ValidationErr)
  }

  /** to_model: the model, or the exception that leaves the function first. */
  function ToModel(dt: Json -> bool, event: Object): Result<Model> {
    if Get(event, "kind") != Str("commit") then Raise(ValueErr) else
    var commitJ := Get(event, "commit");
    if !commitJ.Obj? then Raise(ValueErr) else
    var commit := commitJ.fields;
    if Get(commit, "operation") != Str("create") then Raise(ValueErr) else
    var recordJ := Get(commit, "record");
    if !recordJ.Obj? then Raise(ValueErr) else
    var record := recordJ.fields;
    var did :- Item(event, "did");
    var collection := Get(commit, "collection");
    if collection == Str(POST) then
      var common :- Common(did, commit, record);
      var text :- Item(record, "text");
      MakePost(dt, common, text, Get(record, "langs"), Reply(record, "parent"), Reply(record, "root"))
    else if collection == Str(LIKE) then
      var subject :- Item(record, "subject");
      var common :- Common(did, commit, record);
      var uri :- Index(subject, "uri");
      var cid :- Index(subject, "cid");
      MakeLike(dt, common, uri, cid)
    else if collection == Str(FOLLOW) then
      var common :- Common(did, commit, record);
      var subject :- Item(record, "subject");
      MakeFollow(dt, common, subject)
    else Raise(ValueErr)
  }

  /** The integer time_us of an event, if it carries one. */
  function TimeUs(event: Object): Option<int> {
    match Get(event, "time_us")
    case Int(n) => Some(n)
    case Bool(b) => Some(if b then 1 else 0)
    case _ => None
  }

  datatype Route =
    | Skipped
    | DeadLettered(reason: Json)
    | Produced(cursor: int)

  /** The label an event is counted under. */
  function CollectionOf(event: Object): Json {
    var commit := Get(event, "commit");
    if commit.Obj? && "collection" in commit.fields then commit.fields["collection"] else Str("unknown")
  }

  /** The first except clause that matches decides; the ValueError clause comes first. */
  function RouteOf(dt: Json -> bool, event: Object): Route {
    match ToModel(dt, event)
    case Raise(e) => if e.IsA(ValueErr) then Skipped else DeadLettered(CollectionOf(event))
    case Ok(_) =>
      match TimeUs(event)
      case Some(t) => Produced(t)
      case None => DeadLettered(Str("missing_time_us"))
  }

  // ----- What decides the route, stated on the event alone -----

  /** A create commit with a record object, the shape this service ingests. */
  predicate CreateShape(event: Object) {
    && Get(event, "kind") == Str("commit")
    && Get(event, "commit").Obj?
    && var commit := Get(event, "commit").fields;
       Get(commit, "operation") == Str("create") && Get(commit, "record").Obj?
  }

  function CommitOf(event: Object): Object
    requires CreateShape(event)
  {
    event["commit"].fields
  }

  function RecordOf(event: Object): Object
    requires CreateShape(event)
  {
    CommitOf(event)["record"].fields
  }

  predicate Known(collection: Json) {
    collection in {Str(POST), Str(LIKE), Str(FOLLOW)}
  }

  /** Every field the collection needs is there, whatever its type. */
  predicate Complete(event: Object)
    requires CreateShape(event)
  {
    var commit, record := CommitOf(event), RecordOf(event);
    var collection := Get(commit, "collection");
    && {"rkey", "cid"} <= commit.Keys
    && "createdAt" in record
    && (collection == Str(POST) ==> "text" in record)
    && (collection == Str(LIKE) ==>
          "subject" in record && record["subject"].Obj? && {"uri", "cid"} <= record["subject"].fields.Keys)
    && (collection == Str(FOLLOW) ==> "subject" in record)
  }

  /** Every field the collection needs has the type the schema asks for. */
  predicate WellTyped(dt: Json -> bool, event: Object)
    requires CreateShape(event) && "did" in event && Complete(event)
  {
    var commit, record := CommitOf(event), RecordOf(event);
    var collection := Get(commit, "collection");
    && event["did"].Str? && commit["rkey"].Str? && commit["cid"].Str? && dt(record["createdAt"])
    && (collection == Str(POST) ==> record["text"].Str? && Langs(Get(record, "langs")))
    && (collection == Str(LIKE) ==>
          record["subject"].fields["uri"].Str? && record["subject"].fields["cid"].Str?)
    && (collection == Str(FOLLOW) ==> record["subject"].Str?)
  }

  predicate Ingestable(dt: Json -> bool, event: Object) {
    && CreateShape(event) && "did" in event && Known(Get(CommitOf(event), "collection"))
    && Complete(event) && WellTyped(dt, event)
  }

  /** The routing table: exactly when an event is produced, dead-lettered or skipped. */
  lemma RoutingTable(dt: Json -> bool, event: Object)
    ensures RouteOf(dt, event).Produced? <==> Ingestable(dt, event) && TimeUs(event).Some?
    ensures RouteOf(dt, event).Produced? ==> TimeUs(event) == Some(RouteOf(dt, event).cursor)
    ensures RouteOf(dt, event).DeadLettered? <==>
              || (Ingestable(dt, event) && TimeUs(event).None?)
              || (CreateShape(event) && "did" !in event)
              || (CreateShape(event) && Known(Get(CommitOf(event), "collection")) && !Complete(event))
  {
    if CreateShape(event) {
      assert event["commit"].Obj? && CommitOf(event)["record"].Obj?;
    }
  }

  /** The record's reply block names `uri` on the given side. */
  predicate RepliesTo(record: Object, side: string, uri: string) {
    && Get(record, "reply").Obj?
    && Get(Get(record, "reply").fields, side).Obj?
    && Get(Get(Get(record, "reply").fields, side).fields, "uri") == Str(uri)
  }

  predicate SameLangs(langs: Option<seq<string>>, v: Json) {
    if langs.None? then v.Null?
    else v == Arr(seq(|langs.value|, i requires 0 <= i < |langs.value| => Str(langs.value[i])))
  }

  /** The model carries the event's own fields. */
  predicate Carries(m: Model, event: Object)
    requires CreateShape(event)
  {
    var commit, record := CommitOf(event), RecordOf(event);
    && Get(event, "did") == Str(m.did)
    && Get(commit, "rkey") == Str(m.rkey)
    && Get(commit, "cid") == Str(m.cid)
    && "createdAt" in record && record["createdAt"] == m.createdAt
    && match m {
         case Post(_, _, _, _, text, langs, _, _) =>
           && Get(commit, "collection") == Str(POST)
           && Get(record, "text") == Str(text)
           && SameLangs(langs, Get(record, "langs"))
         case Like(_, _, _, _, uri, cid) =>
           && Get(commit, "collection") == Str(LIKE)
           && Get(record, "subject").Obj?
           && Get(record["subject"].fields, "uri") == Str(uri)
           && Get(record["subject"].fields, "cid") == Str(cid)
         case Follow(_, _, _, _, subject) =>
           && Get(commit, "collection") == Str(FOLLOW)
           && Get(record, "subject") == Str(subject)
       }
  }

  /** The model is the event's own: its fields, and for a post the uris of its reply block and no others. */
  ghost predicate IsOwnModel(m: Model, event: Object) {
    && CreateShape(event) && Carries(m, event)
    && (m.Post? ==> forall uri ::
          && (m.replyParent == Some(uri) <==> RepliesTo(RecordOf(event), "parent", uri))
          && (m.replyRoot == Some(uri) <==> RepliesTo(RecordOf(event), "root", uri)))
  }

  lemma ModelFields(dt: Json -> bool, event: Object)
    requires ToModel(dt, event).Ok?
    ensures Ingestable(dt, event) && IsOwnModel(ToModel(dt, event).value, event)
  {
    var m, v := ToModel(dt, event).value, Get(RecordOf(event), "langs");
    if m.Post? && m.langs.Some? {
      assert v.items == seq(|m.langs.value|, i requires 0 <= i < |m.langs.value| => Str(m.langs.value[i]));
    }
  }

  /** A model is built exactly for ingestable events. */
  lemma ModelIff(dt: Json -> bool, event: Object)
    ensures ToModel(dt, event).Ok? <==> Ingestable(dt, event)
  {
    if CreateShape(event) {
      assert event["commit"].Obj? && CommitOf(event)["record"].Obj?;
    }
  }

  /** The event carries this time_us: an integer, or a boolean, which Python takes for one. */
  predicate IsStamped(event: Object, cursor: int) {
    "time_us" in event
    && (event["time_us"] == Int(cursor) || (cursor in {0, 1} && event["time_us"] == Bool(cursor == 1)))
  }

  /** The collection the event itself names, or "unknown" when it has no commit object or the commit names none. */
  predicate NamesCollection(event: Object, collection: Json) {
    if "commit" in event && event["commit"].Obj? && "collection" in event["commit"].fields
    then collection == event["commit"].fields["collection"] else collection == Str("unknown")
  }

  /** What each route carries: the event's own stamp, or the label its dead letter is counted under. */
  lemma RouteCarries(dt: Json -> bool, event: Object)
    ensures forall c :: RouteOf(dt, event) == Produced(c) ==> IsStamped(event, c)
    ensures RouteOf(dt, event).Produced? <==> Ingestable(dt, event) && exists c :: IsStamped(event, c)
    ensures NamesCollection(event, CollectionOf(event))
    ensures RouteOf(dt, event).DeadLettered? ==>
              if Ingestable(dt, event) then RouteOf(dt, event).reason == Str("missing_time_us")
              else NamesCollection(event, RouteOf(dt, event).reason)
  {
    hide ToModel, Ingestable;
    RoutingTable(dt, event);
    ModelIff(dt, event);
    if TimeUs(event).Some? {
      assert IsStamped(event, TimeUs(event).value);
    }
  }

  /** A create commit of a known collection is dropped without trace exactly when all its fields
      are present and some field has the wrong type: the handler written for it is never reached. */
  lemma DroppedExactly(dt: Json -> bool, event: Object)
    requires CreateShape(event) && Known(Get(CommitOf(event), "collection"))
    ensures RouteOf(dt, event).Skipped? <==>
              "did" in event && Complete(event) && !WellTyped(dt, event)
  {
  }

  /** One such event: a follow whose subject is a number. */
  lemma WrongTypeIsDropped(dt: Json -> bool)
    ensures exists event :: CreateShape(event) && Get(CommitOf(event), "collection") == Str(FOLLOW)
                            && "did" in event && Complete(event) && RouteOf(dt, event).Skipped?
  {
    var record: Object := map["createdAt" := Str("2026-06-01"), "subject" := Int(7)];
    var commit: Object := map["operation" := Str("create"), "collection" := Str(FOLLOW),
                              "rkey" := Str("r"), "cid" := Str("c"), "record" := Obj(record)];
    var event: Object := map["kind" := Str("commit"), "did" := Str("d"), "commit" := Obj(commit)];
    assert CreateShape(event) && CommitOf(event) == commit && RecordOf(event) == record;
    assert Complete(event);
    assert !WellTyped(dt, event);
    DroppedExactly(dt, event);
  }
}
