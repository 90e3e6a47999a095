/** The `Mongo` object of Mongo.go with its fields updated in place. Each method
    is one transition of the state machine in `DispatchSpec`; the goroutine of
    `backend` is driven from outside, one dial or one command at a time. */
module Dispatcher {
  import opened Bson
  import opened DispatchSpec

  /** The result channel of one successful find (Mongo.go:149-157): the producer
      goroutine sends `items`, the query iterator's documents, in order and then
      closes the channel. The model holds them all from the start; `received`
      counts how many the consumer has taken. */
  class ResultStream {
    const items: seq<Document>
    var received: nat

    ghost predicate Valid()
      reads this
    {
      received <= |items|
    }

    /** The documents still to be received. */
    function Remaining(): seq<Document>
      reads this
      requires Valid()
    {
      items[received..]
    }

    constructor (docs: seq<Document>)
      ensures Valid() && items == docs && Remaining() == docs
    {
      items := docs;
      received := 0;
    }

    /** `doc, ok := <-result`: the next document, or `None` once the channel is
      drained and closed; a closed stream stays closed. */
    method Receive() returns (doc: Option<Document>)
      requires Valid()
      modifies this
      ensures Valid()
      ensures old(Remaining()) == [] ==> doc == None && Remaining() == []
      ensures old(Remaining()) != [] ==>
        doc == Some(old(Remaining())[0]) && Remaining() == old(Remaining())[1..]
    {
      if received == |items| {
        doc := None;
      } else {
        doc := Some(items[received]);
        received := received + 1;
      }
    }
  }

  class Mongo {
    var connected: bool
    /** The buffered channel `commands`, oldest command first. */
    var commands: seq<Cmd>
    /** Replies sent on a find's channel that its caller has not received yet. */
    var pending: map<Channel, Reply>
    /** Every reply channel a reply has been sent on. */
    ghost var answered: set<Channel>
    /** The next reply channel `Find` makes. */
    var nextChannel: Channel

    ghost function Abstract(): State
      reads this
    {
      State(connected, commands, pending, answered, nextChannel)
    }

    ghost predicate Valid()
      reads this
    {
      DispatchSpec.Valid(Abstract())
    }

    /** `NewMongo` (Mongo.go:35-39). */
    constructor ()
      ensures Valid() && Abstract() == Init()
    {
      connected := false;
      commands := [];
      pending := map[];
      answered := {};
      nextChannel := 0;
    }

    /** `Insert` (Mongo.go:45-47): enqueue `[doc]`, no reply channel. */
    method Insert(db: string, collection: string, doc: Value)
      requires Valid() && |commands| < Capacity
      modifies this
      ensures Valid() && Abstract() == Push(old(Abstract()), InsertCmd(db, collection, doc))
    {
      commands := commands + [Cmd(CommandType.Insert, db, collection, [doc], None)];
    }

    /** `Upsert` (Mongo.go:49-51): enqueue `[query, doc]`, no reply channel. */
    method Upsert(db: string, collection: string, query: Value, doc: Value)
      requires Valid() && |commands| < Capacity
      modifies this
      ensures Valid() && Abstract() == Push(old(Abstract()), UpsertCmd(db, collection, query, doc))
    {
      commands := commands + [Cmd(CommandType.Upsert, db, collection, [query, doc], None)];
    }

    /** `Remove` (Mongo.go:53-55): enqueue `[query]`, no reply channel. */
    method Remove(db: string, collection: string, query: Value)
      requires Valid() && |commands| < Capacity
      modifies this
      ensures Valid() && Abstract() == Push(old(Abstract()), RemoveCmd(db, collection, query))
    {
      commands := commands + [Cmd(CommandType.Remove, db, collection, [query], None)];
    }

    /** `Find` up to its wait (Mongo.go:57-62). */
    method SubmitFind(db: string, collection: string, query: Value) returns (r: Submitted)
      requires Valid() && (connected ==> |commands| < Capacity)
      modifies this
      ensures Valid() && (Abstract(), r) == DispatchSpec.SubmitFind(old(Abstract()), db, collection, query)
    {
      if !connected {
        return Rejected(NotConnected);
      }
      var ch := nextChannel;
      nextChannel := nextChannel + 1;
      commands := commands + [Cmd(Find, db, collection, [query], Some(ch))];
      r := Waiting(ch);
    }

    /** `Find` from its wait on (Mongo.go:63-67): if the reply has been sent,
      return its error, or the result stream that the dispatcher made for it. */
    method AwaitFind(ch: Channel) returns (arrived: bool, err: Option<string>, stream: ResultStream?)
      requires Valid()
      modifies this
      ensures Valid() && Abstract() == Receive(old(Abstract()), ch).0
      ensures arrived <==> ch in old(pending)
      ensures !arrived ==> err == None && stream == null
      ensures arrived && old(pending)[ch].ReplyError? ==>
        err == Some(old(pending)[ch].message) && stream == null
      ensures arrived && old(pending)[ch].ReplyStream? ==>
        err == None && stream != null && fresh(stream) && stream.Valid() &&
        stream.Remaining() == old(pending)[ch].docs
    {
      if ch !in pending {
        return false, None, null;
      }
      var reply := pending[ch];
      pending := pending - {ch};
      arrived := true;
      match reply
      case ReplyError(msg) =>
        err, stream := Some(msg), null;
      case ReplyStream(docs) =>
        err := None;
        stream := new ResultStream(docs);
    }

    /** One attempt of the `backend` loop (Mongo.go:71-79) with the dial's outcome
      given: on failure nothing changes and the loop tries again. */
    method Connect(dialed: bool)
      requires Valid() && !connected
      modifies this
      ensures Valid() && Abstract() == Dial(old(Abstract()), dialed)
    {
      if !dialed {
        return;
      }
      connected := true;
    }

    /** `insert`, `upsert` and `remove` (Mongo.go:116-141) after the queue head was
      taken: one driver call with outcome `o`; on failure the command goes back
      at the end of the queue. */
    method RunWrite(command: Cmd, o: DbResult) returns (failed: bool)
      requires command.kind != Find
      modifies this`commands
      ensures failed <==> o.Failure?
      ensures commands == old(commands) + Requeued(command, o)
    {
      failed := o.Failure?;
      if failed {
        commands := commands + [command];
      }
    }

    /** `find` (Mongo.go:143-161): send the error, or a stream of the iterator's
      documents, on the command's reply channel; never requeue. */
    method RunFind(command: Cmd, o: DbResult) returns (failed: bool)
      requires command.kind == Find && command.reply.Some?
      modifies this`pending, this`answered
      ensures failed <==> o.Failure?
      ensures pending == old(pending)[command.reply.value := ReplyTo(o)]
      ensures answered == old(answered) + {command.reply.value}
    {
      var ch := command.reply.value;
      match o {
        case Failure(msg) =>
          pending := pending[ch := ReplyError(msg)];
        case Success(docs) =>
          pending := pending[ch := ReplyStream(docs)];
      }
      answered := answered + {ch};
      failed := o.Failure?;
    }

    /** One iteration of `commandLoop` (Mongo.go:86-112) with the driver's outcome
      given; a failure ends the loop, and `backend` then clears `connected`
      (Mongo.go:80-81). */
    method ExecuteNext(o: DbResult)
      requires Valid() && connected && |commands| > 0
      modifies this
      ensures Valid() && Abstract() == DispatchSpec.Step(old(Abstract()), o)
    {
      StepKeepsValid(Abstract(), o);
      var command := commands[0];
      commands := commands[1..];
      var failed: bool;
      match command.kind {
        case Insert =>
          failed := RunWrite(command, o);
        case Upsert =>
          failed := RunWrite(command, o);
        case Remove =>
          failed := RunWrite(command, o);
        case Find =>
          failed := RunFind(command, o);
      }
      if failed {
        connected := false;
      }
    }

    /** `commandLoop` (Mongo.go:85-114) fed with one driver outcome per command:
      it runs until a command fails, the queue is empty or the outcomes run out,
      and returns the commands it executed, in order. */
    method CommandLoop(outcomes: seq<DbResult>) returns (executed: seq<Cmd>)
      requires Valid()
      modifies this
      ensures Valid() && Run(Abstract(), executed) == Loop(old(Abstract()), outcomes)
    {
      ghost var start := Abstract();
      executed := [];
      var i := 0;
      while i < |outcomes| && connected && commands != []
        invariant 0 <= i <= |outcomes|
        invariant Valid()
        invariant Loop(start, outcomes) ==
          Run(Loop(Abstract(), outcomes[i..]).state, executed + Loop(Abstract(), outcomes[i..]).executed)
        decreases |outcomes| - i
      {
        ghost var before := Abstract();
        assert outcomes[i..][1..] == outcomes[i + 1..];
        executed := executed + [commands[0]];
        ExecuteNext(outcomes[i]);
        i := i + 1;
        assert Loop(before, outcomes[i - 1..]).executed ==
          [before.commands[0]] + Loop(Abstract(), outcomes[i..]).executed;
      }
    }
  }
}
