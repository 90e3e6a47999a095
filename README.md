# susi-mongodb: the command dispatcher and the bus processors, in Dafny

susi-mongodb connects a message bus to a MongoDB server. Bus events
`mongodb::insert`, `mongodb::upsert`, `mongodb::remove`, `mongodb::find` and
`mongodb::get` carry an untyped payload map. A processor checks the payload,
turns it into a command for a single dispatcher, annotates the payload and
acknowledges the event. The dispatcher (the `Mongo` object) owns the database
session. It takes commands from a channel with room for 64 commands, runs them
one at a time, and after any failure leaves its command loop so that `backend`
dials again. A failed insert, upsert or remove goes back to the end of the
queue unchanged. A failed find sends its error once to the waiting caller and
is not retried. A successful find sends one result stream, which yields the
query iterator's documents in order and is then closed.

The project has four modules:

- `Bson` (bson.dfy): the untyped payload values (`Value`, `Document`,
  `ObjectId`) and the lookups `m[key].(string)` and
  `m[key].(map[string]interface{})`.
- `DispatchSpec` (dispatch_spec.dfy): Mongo.go as a pure state machine. The
  state is `connected`, the command queue, the replies sent but not yet
  received, the set of channels ever replied to, and the next reply channel.
  It holds the dispatcher invariant `Valid` and the transitions `Push`,
  `SubmitFind`, `Receive`, `Dial` and `Step`. `Loop` runs the command loop, and
  the lemmas state FIFO order, exit on failure, no lost writes and exactly one
  reply per find.
- `Dispatcher` (dispatcher.dfy): the `Mongo` class, whose fields its methods
  update in place, and `ResultStream`, the result channel of one find. Each
  public `Mongo` method's postcondition ties the new state to the matching
  `DispatchSpec` transition of the old state. `CommandLoop` is the `range` loop
  with its invariants.
- `Handlers` (handlers.dfy): main.go. The payload checks of the five
  processors are pure functions. The processors update the `Event` and the
  dispatcher in place and acknowledge exactly once. The find processor's
  drain loop is `Drain`.

The model is sequential. The dispatcher goroutine is driven from outside, one
dial (`Connect`) or one command (`ExecuteNext`) at a time. The outcome of each
driver call is a parameter: `DbResult` is `Failure(message)`, or
`Success(docs)`, where `docs` is what a find's iterator yields. `Find` blocks
until its reply arrives, so it is split in two: `SubmitFind` does the
pre-check and the enqueue (Mongo.go:57-62), and `AwaitFind` takes the reply
once it has been sent (Mongo.go:63-67). The find and get processors are split
the same way, into a `Begin` and a `Finish` method, and acknowledge once
across the two. A reply channel is a number handed out in order. A send on
the full command channel blocks, so the enqueueing methods require room in the
queue. The fresh `bson.NewObjectId()` is a parameter `id`, and
`bson.IsObjectIdHex` is a parameter `isHex`.

Two behaviours of the code worth noting:

- An insert, upsert or remove on a full queue does not fail. The producer
  blocks until there is room.
- `get` does not drain its stream. It stores the first document only, or the
  nil map (`Null`) when the stream is empty.

## Model

| member | source | states |
|---|---|---|
| `Bson.StringAt` | main.go:34-35 | the lookup succeeds exactly when the key is present and holds a string, and then returns that string |
| `Bson.DocumentAt` | main.go:36 | the lookup succeeds exactly when the key is present and holds a map, and then returns that map |
| `Bson.IdQuery` | main.go:57 | the query has the single key `_id`, mapped to the given ObjectId |
| `Bson.DocumentList` | main.go:96-100 | the list value has one entry per document, in order, each the document itself |
| `DispatchSpec.Init` | Mongo.go:35-39 | a new dispatcher is disconnected, has an empty queue and no replies, and satisfies the invariant |
| `DispatchSpec.Push` | Mongo.go:45-55 | a send below capacity appends exactly the given command at the back, keeps the earlier queue, leaves `connected` and the replies alone, and keeps the invariant (so the queue never exceeds 64) |
| `DispatchSpec.InsertCmd` | Mongo.go:45-47 | an insert command carries exactly `[doc]` and no reply channel |
| `DispatchSpec.UpsertCmd` | Mongo.go:49-51 | an upsert command carries exactly `[query, doc]` and no reply channel |
| `DispatchSpec.RemoveCmd` | Mongo.go:53-55 | a remove command carries exactly `[query]` and no reply channel |
| `DispatchSpec.SubmitFind` | Mongo.go:57-62 | when disconnected: the error "db not connected" and nothing changes; when connected: a find on a fresh channel that nobody has replied to, and no queued command uses, is appended to the queue |
| `DispatchSpec.Receive` | Mongo.go:63-67 | the caller gets the reply exactly when one was sent on its channel; receiving removes it, so it is received once |
| `DispatchSpec.Dial` | Mongo.go:70-83 | `connected` becomes true exactly when the dial succeeds; a failed dial changes nothing, and the queue, replies and channel counter are untouched either way |
| `DispatchSpec.Requeued` | Mongo.go:116-141 | a command goes back on the queue exactly when it is an insert, upsert or remove whose driver call failed, and then it is the identical command |
| `DispatchSpec.ReplyTo` | Mongo.go:143-159 | a failed find replies with its error message; a successful one replies with a stream of the iterator's documents |
| `DispatchSpec.Step` | Mongo.go:85-161 | one command loop iteration removes the queue head, appends it again only if it is a failed write, leaves `connected` true exactly on success, and for a find sends exactly the reply its outcome calls for on its channel |
| `DispatchSpec.StepKeepsValid` | Mongo.go:85-161 | a loop iteration keeps the invariant (queue within 64, well-formed commands, a distinct unanswered channel per queued find), and the channel a find replies on had never been replied to |
| `DispatchSpec.Loop` | Mongo.go:85-114 | running the loop keeps every queued command well formed, executes at most one command per outcome and no more commands than were queued, and makes no new reply channel |
| `DispatchSpec.LoopKeepsValid` | Mongo.go:85-114 | the whole command loop keeps the dispatcher invariant |
| `DispatchSpec.LoopIsFifo` | Mongo.go:86-141 | the loop executes a prefix of the queue in queue order, one command per outcome, stopping at the first failure; the queue left is the unexecuted rest, followed by the failed command if it was an insert, upsert or remove |
| `DispatchSpec.LoopLeavesOnFailure` | Mongo.go:80-112 | after the loop, `connected` is false exactly when the last executed command failed; while connected, the loop stops only for an empty queue or missing outcomes |
| `DispatchSpec.LoopLosesNoWrite` | Mongo.go:90-105 | every queued insert, upsert or remove was either executed successfully or is still in the queue afterwards; `LoopIsFifo` gives the exact queue left, copies included |
| `DispatchSpec.PendingKept` | Mongo.go:106-110 | a channel already replied to stays answered while the loop runs; a reply still waiting on it is kept unchanged, and a channel whose reply was already taken gets no second reply |
| `DispatchSpec.LoopRepliesToFinds` | Mongo.go:106-110 | every find the loop executed has had exactly the reply of its outcome sent on its own, previously unanswered channel, and the reply is still there for the caller |
| `Dispatcher.ResultStream.constructor` | Mongo.go:149 | a new result stream holds the iterator's documents, none of them received yet |
| `Dispatcher.ResultStream.Receive` | Mongo.go:150-157 | receiving yields the next document in iterator order; once all are taken the stream is closed and stays empty |
| `Dispatcher.Mongo.constructor` | Mongo.go:35-39 | the new object's state is `DispatchSpec.Init` |
| `Dispatcher.Mongo.Insert` | Mongo.go:45-47 | the new state is `Push` of the insert command onto the old state |
| `Dispatcher.Mongo.Upsert` | Mongo.go:49-51 | the new state is `Push` of the upsert command onto the old state |
| `Dispatcher.Mongo.Remove` | Mongo.go:53-55 | the new state is `Push` of the remove command onto the old state |
| `Dispatcher.Mongo.SubmitFind` | Mongo.go:57-62 | the new state and the result are those of `DispatchSpec.SubmitFind` |
| `Dispatcher.Mongo.AwaitFind` | Mongo.go:63-67 | the reply is taken exactly when it was sent; an error reply gives the error and no stream; a stream reply gives a fresh stream whose documents are the reply's, in order |
| `Dispatcher.Mongo.Connect` | Mongo.go:71-79 | the new state is `Dial` of the old state with the dial's outcome |
| `Dispatcher.Mongo.RunWrite` | Mongo.go:116-141 | the call fails exactly when the driver call fails, and then the very same command is appended to the queue |
| `Dispatcher.Mongo.RunFind` | Mongo.go:143-161 | the reply of the outcome is sent on the command's channel, that channel is marked answered, and the find is never requeued |
| `Dispatcher.Mongo.ExecuteNext` | Mongo.go:86-112 | the new state is `DispatchSpec.Step` of the old state, dispatching on the command's tag, and the invariant holds |
| `Dispatcher.Mongo.CommandLoop` | Mongo.go:85-114 | the final state and the executed commands are exactly those of `DispatchSpec.Loop`, and the invariant holds |
| `Handlers.AddError` | main.go:17-19 | exactly one header `{"Error": message}` is appended and the earlier headers are kept in order |
| `Handlers.Ack` | main.go:48 | acknowledging counts one more acknowledgement and changes nothing else |
| `Handlers.Annotate` | main.go:100 | `payload[key] = v`: the key now holds `v` and every other key keeps its value |
| `Handlers.ApplyWrite` | main.go:37-48 | a produced command is enqueued exactly as built and the payload replaced by the annotated one; a refusal adds exactly one error header and enqueues nothing; either way one acknowledgement |
| `Handlers.BeginLookup` | main.go:91-94 | an invalid lookup adds its error and acknowledges; a valid one calls the `Find` pre-check, which either adds "db not connected" and acknowledges or leaves the processor waiting on the new channel |
| `Handlers.InsertRequest` | main.go:33-47 | a command is produced exactly when the payload is a map with string `db`, string `collection` and map `doc`; it is one insert of the doc with `_id` set to the fresh id and every other field kept; the payload gains `id` equal to that id and shares the stamped doc; otherwise the error is "need db, collection and doc as parameters" |
| `Handlers.RemoveRequest` | main.go:52-64 | a command is produced exactly when `db`, `collection` and `id` are strings and `id` passes the ObjectId check; it is a remove with the query `{"_id": id}`; the payload gains `success: true` and keeps everything else; otherwise the error is "need db, collection and id as parameters" |
| `Handlers.UpsertRequest` | main.go:69-82 | as for remove, and `doc` must also be a map; the command is an upsert with the arguments `{"_id": id}` and `doc`; otherwise the error is "need db, collection, id and doc as parameters" |
| `Handlers.FindRequest` | main.go:87-91 | a query is made exactly when `db` and `collection` are strings and `query` is a map, using exactly those values; otherwise the error is "need db, collection and query as parameters" |
| `Handlers.GetRequest` | main.go:112-117 | a query is made exactly when `db`, `collection` and `id` are strings and `id` passes the ObjectId check; the query is `{"_id": id}` |
| `Handlers.HandleInsert` | main.go:32-49 | the event is acknowledged once; a valid payload enqueues exactly the insert command and stores the annotated payload; an invalid one changes no queue and adds exactly one error header |
| `Handlers.HandleRemove` | main.go:51-66 | the event is acknowledged once; a valid payload enqueues exactly the remove command and sets `success`; an invalid one adds exactly one error header |
| `Handlers.HandleUpsert` | main.go:68-84 | the event is acknowledged once; a valid payload enqueues exactly the upsert command and sets `success`; an invalid one adds exactly one error header |
| `Handlers.BeginFind` | main.go:86-92 | an invalid payload, or a disconnected dispatcher, adds one error header and acknowledges once with nothing enqueued; otherwise the find is enqueued and the processor waits on its channel, not yet acknowledged |
| `Handlers.BeginGet` | main.go:111-117 | as for find, with the query `{"_id": id}` |
| `Handlers.Drain` | main.go:96-99 | draining yields every remaining document of the stream, in order, and leaves the stream closed and empty, so a second drain yields nothing |
| `Handlers.FinishFind` | main.go:92-108 | on an error reply, the error message becomes one header and `docs` is not set; on a stream reply, `docs` is the full list of streamed documents in order; the event is acknowledged once |
| `Handlers.FirstOrNil` | main.go:121 | the stored value is the first document of the stream, or nil when the stream is empty |
| `Handlers.FinishGet` | main.go:117-129 | on an error reply, one error header; on a stream reply, `doc` is the first document of the stream; the event is acknowledged once |

## Left out

- The driver calls `mgo.Dial`, `session.DB(...).C(...)`, `Insert`, `Upsert`, `Remove` and `Find(...).Iter()`: they are foreign library code. Their outcome is the parameter of `Connect` and `ExecuteNext`. The `session` field is not modelled.
- `Close` (Mongo.go:41-43) is a single driver call with no logic of its own, and is not modelled.
- `log.Print` and `time.Sleep` in `backend` (Mongo.go:74-75) are I/O and timing. A failed dial is simply another `Connect` attempt.
- Goroutines and channel blocking are not modelled. The command channel is a bounded `seq<Cmd>`. A blocked send is a precondition, and a blocked `Find` is an `AwaitFind` that returns "not arrived". The find producer goroutine is a stream whose documents exist from the start.
- Dequeue, driver call and requeue happen in one step (`ExecuteNext`). In the source, producers can fill the channel between the dequeue at Mongo.go:86 and the re-send at Mongo.go:119, 128 or 137. The dispatcher would then block on its own send. The model does not capture that interleaving.
- The value of `iter.Err()` returned at Mongo.go:160 after a successful find can race with the producer goroutine. The model treats a find whose first check succeeded as a success. An iterator that fails part-way is a shorter document sequence.
- Other goroutines read `connected` without synchronisation. Here it is a plain field.
- The bus client and its plumbing are network and process code: `susigo.NewSusi`, `RegisterProcessor`, `susi.Wait`, flag parsing, `log.Fatal` and `select {}` (main.go:12-30, main.go:132). `susi.Ack` is only a counter on the event.
- `bson.NewObjectId` and the body of `bson.IsObjectIdHex` are foreign library code. They are parameters.
- JSON numbers arrive from the bus as float64; `Bson.Num` holds an integer instead. No processor inspects numbers, so only their transport is modelled.
- `Handlers.RemoveRequest`, `Handlers.UpsertRequest`, `Handlers.GetRequest`: `bson.ObjectIdHex` is modelled as an ObjectId that keeps the hex text. Two spellings of the same id (upper and lower case) are therefore different ids here.
- Payload maps are aliased in Go, so writing into them changes the event in place. The model writes the payload value back into the event. The one alias the source relies on is modelled: the doc map that gets `_id` is both enqueued and stored in the payload.
