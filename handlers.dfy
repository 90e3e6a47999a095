/** The five bus processors of main.go. Each check of a payload is a pure
    function from the payload to what the processor does with it; the
    processors themselves update the event and the dispatcher in place and
    acknowledge the event exactly once. */
module Handlers {
  import opened Bson
  import opened DispatchSpec
  import opened Dispatcher

  const InsertUsage: string := "need db, collection and doc as parameters"
  const IdUsage: string := "need db, collection and id as parameters"
  const UpsertUsage: string := "need db, collection, id and doc as parameters"
  const FindUsage: string := "need db, collection and query as parameters"

  /** A bus event: its payload, its headers and how often it was acknowledged
      (`susi.Ack` is not modelled beyond this count). */
  class Event {
    var payload: Value
    var headers: seq<map<string, string>>
    var acks: nat

    constructor (payload: Value, headers: seq<map<string, string>>)
      ensures this.payload == payload && this.headers == headers && acks == 0
    {
      this.payload := payload;
      this.headers := headers;
      acks := 0;
    }
  }

  /** `addError` (main.go:17-19): one more header `{"Error": message}`. */
  method AddError(message: string, event: Event)
    modifies event
    ensures event.headers == old(event.headers) + [map["Error" := message]]
    ensures event.payload == old(event.payload) && event.acks == old(event.acks)
  {
    event.headers := event.headers + [map["Error" := message]];
  }

  /** `susi.Ack(event)`. */
  method Ack(event: Event)
    modifies event
    ensures event.acks == old(event.acks) + 1
    ensures event.payload == old(event.payload) && event.headers == old(event.headers)
  {
    event.acks := event.acks + 1;
  }

  /** What an insert, upsert or remove processor does with a payload: enqueue a
      command and answer with the annotated payload, or refuse with a message. */
  datatype Write = Enqueue(command: Cmd, payload: Value) | Refuse(message: string)

  /** Whether a payload holds the string parameters `db` and `collection`. */
  predicate HasTarget(p: Document) {
    "db" in p && p["db"].Str? && "collection" in p && p["collection"].Str?
  }

  /** The checks and the updates of the insert processor (main.go:33-47), with
      the fresh `bson.NewObjectId()` given as `id`. The same document map is
      both enqueued and kept in the payload, so both see its new `_id`. */
  function InsertRequest(payload: Value, id: ObjectId): (r: Write)
    ensures r.Enqueue? <==> (payload.Obj? && HasTarget(payload.fields) &&
      "doc" in payload.fields && payload.fields["doc"].Obj?)
    ensures r.Refuse? ==> r.message == InsertUsage
    ensures r.Enqueue? ==>
      var p := payload.fields;
      var c := r.command;
      c.kind == Insert && c.db == p["db"].s && c.collection == p["collection"].s &&
      c.reply.None? && |c.args| == 1 &&
      // the enqueued document is the given one with `_id` set to the fresh id
      c.args[0].Obj? && c.args[0].fields.Keys == p["doc"].fields.Keys + {"_id"} &&
      c.args[0].fields["_id"] == Oid(id) &&
      (forall k :: k in p["doc"].fields && k != "_id" ==> c.args[0].fields[k] == p["doc"].fields[k]) &&
      // the payload echoes the id and shares the updated document
      r.payload.Obj? && r.payload.fields.Keys == p.Keys + {"id"} &&
      r.payload.fields["id"] == Oid(id) && r.payload.fields["doc"] == c.args[0] &&
      (forall k :: k in p && k != "id" && k != "doc" ==> r.payload.fields[k] == p[k])
  {
    match payload
    case Obj(p) =>
      (match (StringAt(p, "db"), StringAt(p, "collection"), DocumentAt(p, "doc"))
       case (Some(db), Some(collection), Some(doc)) =>
         var stamped := Obj(doc["_id" := Oid(id)]);
         Enqueue(InsertCmd(db, collection, stamped), Obj(p["doc" := stamped]["id" := Oid(id)]))
       case _ => Refuse(InsertUsage))
    case _ => Refuse(InsertUsage)
  }

  /** The checks and the updates of the remove processor (main.go:52-64), with
      `bson.IsObjectIdHex` given as `isHex`. */
  function RemoveRequest(payload: Value, isHex: string -> bool): (r: Write)
    ensures r.Enqueue? <==> (payload.Obj? && HasTarget(payload.fields) &&
      "id" in payload.fields && payload.fields["id"].Str? && isHex(payload.fields["id"].s))
    ensures r.Refuse? ==> r.message == IdUsage
    ensures r.Enqueue? ==>
      var p := payload.fields;
      r.command == Cmd(Remove, p["db"].s, p["collection"].s, [IdQuery(ObjectId(p["id"].s))], None) &&
      r.payload.Obj? && r.payload.fields.Keys == p.Keys + {"success"} &&
      r.payload.fields["success"] == Bool(true) &&
      (forall k :: k in p && k != "success" ==> r.payload.fields[k] == p[k])
  {
    match payload
    case Obj(p) =>
      (match (StringAt(p, "db"), StringAt(p, "collection"), StringAt(p, "id"))
       case (Some(db), Some(collection), Some(id)) =>
         if isHex(id) then
           Enqueue(RemoveCmd(db, collection, IdQuery(ObjectId(id))), Obj(p["success" := Bool(true)]))
         else Refuse(IdUsage)
       case _ => Refuse(IdUsage))
    case _ => Refuse(IdUsage)
  }

  /** The checks and the updates of the upsert processor (main.go:69-82). */
  function UpsertRequest(payload: Value, isHex: string -> bool): (r: Write)
    ensures r.Enqueue? <==> (payload.Obj? && HasTarget(payload.fields) &&
      "id" in payload.fields && payload.fields["id"].Str? &&
      "doc" in payload.fields && payload.fields["doc"].Obj? && isHex(payload.fields["id"].s))
    ensures r.Refuse? ==> r.message == UpsertUsage
    ensures r.Enqueue? ==>
      var p := payload.fields;
      r.command == Cmd(Upsert, p["db"].s, p["collection"].s, [IdQuery(ObjectId(p["id"].s)), p["doc"]], None) &&
      r.payload.Obj? && r.payload.fields.Keys == p.Keys + {"success"} &&
      r.payload.fields["success"] == Bool(true) &&
      (forall k :: k in p && k != "success" ==> r.payload.fields[k] == p[k])
  {
    match payload
    case Obj(p) =>
      (match (StringAt(p, "db"), StringAt(p, "collection"), StringAt(p, "id"), DocumentAt(p, "doc"))
       case (Some(db), Some(collection), Some(id), Some(doc)) =>
         if isHex(id) then
           Enqueue(UpsertCmd(db, collection, IdQuery(ObjectId(id)), Obj(doc)), Obj(p["success" := Bool(true)]))
         else Refuse(UpsertUsage)
       case _ => Refuse(UpsertUsage))
    case _ => Refuse(UpsertUsage)
  }

  /** What the find and get processors ask the dispatcher, or the message they refuse with. */
  datatype Lookup = Query(db: string, collection: string, query: Value) | Invalid(message: string)

  /** The checks of the find processor (main.go:87-91). */
  function FindRequest(payload: Value): (r: Lookup)
    ensures r.Query? <==> (payload.Obj? && HasTarget(payload.fields) &&
      "query" in payload.fields && payload.fields["query"].Obj?)
    ensures r.Invalid? ==> r.message == FindUsage
    ensures r.Query? ==>
      r.db == payload.fields["db"].s && r.collection == payload.fields["collection"].s &&
      r.query == payload.fields["query"]
  {
    match payload
    case Obj(p) =>
      (match (StringAt(p, "db"), StringAt(p, "collection"), DocumentAt(p, "query"))
       case (Some(db), Some(collection), Some(query)) => Query(db, collection, Obj(query))
       case _ => Invalid(FindUsage))
    case _ => Invalid(FindUsage)
  }

  /** The checks of the get processor (main.go:112-117): the query addresses the
      document whose `_id` is the given identifier. */
  function GetRequest(payload: Value, isHex: string -> bool): (r: Lookup)
    ensures r.Query? <==> (payload.Obj? && HasTarget(payload.fields) &&
      "id" in payload.fields && payload.fields["id"].Str? && isHex(payload.fields["id"].s))
    ensures r.Invalid? ==> r.message == IdUsage
    ensures r.Query? ==>
      r.db == payload.fields["db"].s && r.collection == payload.fields["collection"].s &&
      r.query == IdQuery(ObjectId(payload.fields["id"].s))
  {
    match payload
    case Obj(p) =>
      (match (StringAt(p, "db"), StringAt(p, "collection"), StringAt(p, "id"))
       case (Some(db), Some(collection), Some(id)) =>
         if isHex(id) then Query(db, collection, IdQuery(ObjectId(id))) else Invalid(IdUsage)
       case _ => Invalid(IdUsage))
    case _ => Invalid(IdUsage)
  }

  /** `payload[key] = v`, for a payload checked to be a map. */
  function Annotate(payload: Document, key: string, v: Value): (r: Value)
    ensures r.Obj? && r.fields.Keys == payload.Keys + {key} && r.fields[key] == v
    ensures forall k :: k in payload && k != key ==> r.fields[k] == payload[k]
  {
    Obj(payload[key := v])
  }

  /** The shared body of the insert, remove and upsert processors. */
  method ApplyWrite(w: Write, event: Event, mongo: Mongo)
    requires mongo.Valid() && (w.Enqueue? ==> |mongo.commands| < Capacity && WellFormed(w.command) && w.command.reply.None?)
    modifies event, mongo
    ensures mongo.Valid()
    ensures event.acks == old(event.acks) + 1
    ensures w.Enqueue? ==>
      mongo.Abstract() == Push(old(mongo.Abstract()), w.command) &&
      event.payload == w.payload && event.headers == old(event.headers)
    ensures w.Refuse? ==>
      mongo.Abstract() == old(mongo.Abstract()) && event.payload == old(event.payload) &&
      event.headers == old(event.headers) + [map["Error" := w.message]]
  {
    match w {
      case Enqueue(c, p) =>
        assert c.args == if c.kind == Upsert then [c.args[0], c.args[1]] else [c.args[0]];
        match c.kind {
          case Insert => mongo.Insert(c.db, c.collection, c.args[0]);
          case Upsert => mongo.Upsert(c.db, c.collection, c.args[0], c.args[1]);
          case Remove => mongo.Remove(c.db, c.collection, c.args[0]);
          case Find => assert false;
        }
        event.payload := p;
      case Refuse(message) =>
        AddError(message, event);
    }
    Ack(event);
  }

  /** The `mongodb::insert` processor (main.go:32-49), with the fresh id given. */
  method HandleInsert(event: Event, mongo: Mongo, id: ObjectId)
    requires mongo.Valid()
    requires InsertRequest(event.payload, id).Enqueue? ==> |mongo.commands| < Capacity
    modifies event, mongo
    ensures mongo.Valid()
    ensures event.acks == old(event.acks) + 1
    ensures var w := InsertRequest(old(event.payload), id);
      (w.Enqueue? ==>
        mongo.Abstract() == Push(old(mongo.Abstract()), w.command) &&
        event.payload == w.payload && event.headers == old(event.headers)) &&
      (w.Refuse? ==>
        mongo.Abstract() == old(mongo.Abstract()) && event.payload == old(event.payload) &&
        event.headers == old(event.headers) + [map["Error" := InsertUsage]])
  {
    ApplyWrite(InsertRequest(event.payload, id), event, mongo);
  }

  /** The `mongodb::remove` processor (main.go:51-66). */
  method HandleRemove(event: Event, mongo: Mongo, isHex: string -> bool)
    requires mongo.Valid()
    requires RemoveRequest(event.payload, isHex).Enqueue? ==> |mongo.commands| < Capacity
    modifies event, mongo
    ensures mongo.Valid()
    ensures event.acks == old(event.acks) + 1
    ensures var w := RemoveRequest(old(event.payload), isHex);
      (w.Enqueue? ==>
        mongo.Abstract() == Push(old(mongo.Abstract()), w.command) &&
        event.payload == w.payload && event.headers == old(event.headers)) &&
      (w.Refuse? ==>
        mongo.Abstract() == old(mongo.Abstract()) && event.payload == old(event.payload) &&
        event.headers == old(event.headers) + [map["Error" := IdUsage]])
  {
    ApplyWrite(RemoveRequest(event.payload, isHex), event, mongo);
  }

  /** The `mongodb::upsert` processor (main.go:68-84). */
  method HandleUpsert(event: Event, mongo: Mongo, isHex: string -> bool)
    requires mongo.Valid()
    requires UpsertRequest(event.payload, isHex).Enqueue? ==> |mongo.commands| < Capacity
    modifies event, mongo
    ensures mongo.Valid()
    ensures event.acks == old(event.acks) + 1
    ensures var w := UpsertRequest(old(event.payload), isHex);
      (w.Enqueue? ==>
        mongo.Abstract() == Push(old(mongo.Abstract()), w.command) &&
        event.payload == w.payload && event.headers == old(event.headers)) &&
      (w.Refuse? ==>
        mongo.Abstract() == old(mongo.Abstract()) && event.payload == old(event.payload) &&
        event.headers == old(event.headers) + [map["Error" := UpsertUsage]])
  {
    ApplyWrite(UpsertRequest(event.payload, isHex), event, mongo);
  }

  /** The first half of the find and get processors: refuse a bad payload, or
      call `Find` up to its wait. `None` means the event is already answered and
      acknowledged; `Some(ch)` that the processor now waits on reply channel `ch`. */
  method BeginLookup(l: Lookup, event: Event, mongo: Mongo) returns (waiting: Option<Channel>)
    requires mongo.Valid() && (l.Query? && mongo.connected ==> |mongo.commands| < Capacity)
    modifies event, mongo
    ensures mongo.Valid() && event.payload == old(event.payload)
    ensures l.Invalid? ==>
      waiting == None && mongo.Abstract() == old(mongo.Abstract()) &&
      event.headers == old(event.headers) + [map["Error" := l.message]] && event.acks == old(event.acks) + 1
    ensures l.Query? ==>
      var (s, sub) := DispatchSpec.SubmitFind(old(mongo.Abstract()), l.db, l.collection, l.query);
      mongo.Abstract() == s &&
      (sub.Rejected? ==>
        waiting == None && event.acks == old(event.acks) + 1 &&
        event.headers == old(event.headers) + [map["Error" := sub.message]]) &&
      (sub.Waiting? ==>
        waiting == Some(sub.channel) && event.acks == old(event.acks) && event.headers == old(event.headers))
  {
    match l {
      case Invalid(message) =>
        AddError(message, event);
      case Query(db, collection, query) =>
        var sub := mongo.SubmitFind(db, collection, query);
        match sub {
          case Rejected(message) =>
            AddError(message, event);
          case Waiting(ch) =>
            return Some(ch);
        }
    }
    Ack(event);
    waiting := None;
  }

  /** The first half of the `mongodb::find` processor (main.go:86-92). */
  method BeginFind(event: Event, mongo: Mongo) returns (waiting: Option<Channel>)
    requires mongo.Valid()
    requires FindRequest(event.payload).Query? && mongo.connected ==> |mongo.commands| < Capacity
    modifies event, mongo
    ensures mongo.Valid() && event.payload == old(event.payload)
    ensures var l := FindRequest(old(event.payload));
      (l.Invalid? ==>
        waiting == None && mongo.Abstract() == old(mongo.Abstract()) &&
        event.headers == old(event.headers) + [map["Error" := FindUsage]] && event.acks == old(event.acks) + 1) &&
      (l.Query? ==>
        var (s, sub) := DispatchSpec.SubmitFind(old(mongo.Abstract()), l.db, l.collection, l.query);
        mongo.Abstract() == s &&
        (sub.Rejected? ==>
          waiting == None && event.acks == old(event.acks) + 1 &&
          event.headers == old(event.headers) + [map["Error" := NotConnected]]) &&
        (sub.Waiting? ==>
          waiting == Some(sub.channel) && event.acks == old(event.acks) && event.headers == old(event.headers)))
  {
    waiting := BeginLookup(FindRequest(event.payload), event, mongo);
  }

  /** The first half of the `mongodb::get` processor (main.go:111-117). */
  method BeginGet(event: Event, mongo: Mongo, isHex: string -> bool) returns (waiting: Option<Channel>)
    requires mongo.Valid()
    requires GetRequest(event.payload, isHex).Query? && mongo.connected ==> |mongo.commands| < Capacity
    modifies event, mongo
    ensures mongo.Valid() && event.payload == old(event.payload)
    ensures var l := GetRequest(old(event.payload), isHex);
      (l.Invalid? ==>
        waiting == None && mongo.Abstract() == old(mongo.Abstract()) &&
        event.headers == old(event.headers) + [map["Error" := IdUsage]] && event.acks == old(event.acks) + 1) &&
      (l.Query? ==>
        var (s, sub) := DispatchSpec.SubmitFind(old(mongo.Abstract()), l.db, l.collection, l.query);
        mongo.Abstract() == s &&
        (sub.Rejected? ==>
          waiting == None && event.acks == old(event.acks) + 1 &&
          event.headers == old(event.headers) + [map["Error" := NotConnected]]) &&
        (sub.Waiting? ==>
          waiting == Some(sub.channel) && event.acks == old(event.acks) && event.headers == old(event.headers)))
  {
    waiting := BeginLookup(GetRequest(event.payload, isHex), event, mongo);
  }

  /** `for doc := range iter { docs = append(docs, doc) }` (main.go:96-99): drain
      the stream; what it yields is what remained, in order, and afterwards it
      is closed and empty. */
  method Drain(stream: ResultStream) returns (docs: seq<Document>)
    requires stream.Valid()
    modifies stream
    ensures stream.Valid() && stream.Remaining() == []
    ensures docs == old(stream.Remaining())
  {
    docs := [];
    while true
      invariant stream.Valid()
      invariant docs + stream.Remaining() == old(stream.Remaining())
      decreases |stream.Remaining()|
    {
      var doc := stream.Receive();
      if doc.None? {
        break;
      }
      docs := docs + [doc.value];
    }
  }

  /** The second half of the `mongodb::find` processor (main.go:92-108), once the
      reply on `ch` has arrived: report the error, or store every document of
      the stream under `docs`, in order; then acknowledge. */
  method FinishFind(event: Event, mongo: Mongo, ch: Channel)
    requires mongo.Valid() && ch in mongo.pending && event.payload.Obj?
    modifies event, mongo
    ensures mongo.Valid() && mongo.Abstract() == Receive(old(mongo.Abstract()), ch).0
    ensures event.acks == old(event.acks) + 1
    ensures old(mongo.pending[ch]).ReplyError? ==>
      event.payload == old(event.payload) &&
      event.headers == old(event.headers) + [map["Error" := old(mongo.pending[ch]).message]]
    ensures old(mongo.pending[ch]).ReplyStream? ==>
      event.headers == old(event.headers) &&
      event.payload == Annotate(old(event.payload).fields, "docs", DocumentList(old(mongo.pending[ch]).docs))
  {
    var arrived, err, stream := mongo.AwaitFind(ch);
    if err.Some? {
      AddError(err.value, event);
    } else {
      var docs := Drain(stream);
      event.payload := Annotate(event.payload.fields, "docs", DocumentList(docs));
    }
    Ack(event);
  }

  /** What `payload["doc"] = <-iter` stores: the first document of the stream, or
      the nil map a closed, empty stream yields. */
  function FirstOrNil(docs: seq<Document>): (v: Value)
    ensures docs == [] <==> v == Null
    ensures docs != [] ==> v == Obj(docs[0])
  {
    if docs == [] then Null else Obj(docs[0])
  }

  /** The second half of the `mongodb::get` processor (main.go:117-129), once the
      reply on `ch` has arrived: report the error, or store the first document
      of the stream under `doc`; then acknowledge. */
  method FinishGet(event: Event, mongo: Mongo, ch: Channel)
    requires mongo.Valid() && ch in mongo.pending && event.payload.Obj?
    modifies event, mongo
    ensures mongo.Valid() && mongo.Abstract() == Receive(old(mongo.Abstract()), ch).0
    ensures event.acks == old(event.acks) + 1
    ensures old(mongo.pending[ch]).ReplyError? ==>
      event.payload == old(event.payload) &&
      event.headers == old(event.headers) + [map["Error" := old(mongo.pending[ch]).message]]
    ensures old(mongo.pending[ch]).ReplyStream? ==>
      event.headers == old(event.headers) &&
      event.payload == Annotate(old(event.payload).fields, "doc", FirstOrNil(old(mongo.pending[ch]).docs))
  {
    var arrived, err, stream := mongo.AwaitFind(ch);
    if err.Some? {
      AddError(err.value, event);
    } else {
      var first := stream.Receive();
      var doc := if first.Some? then Obj(first.value) else Null;
      event.payload := Annotate(event.payload.fields, "doc", doc);
    }
    Ack(event);
  }
}
