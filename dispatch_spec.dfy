/** The command dispatcher of Mongo.go as a pure state machine: the command queue,
    the `connected` flag and the reply channels of pending finds. The class
    `Dispatcher.Mongo` implements these transitions step by step. */
module DispatchSpec {
  import opened Bson

  /** `commandType` (Mongo.go:11-18). */
  datatype CommandType = Insert | Upsert | Find | Remove

  /** A reply channel, identified by the order in which it was made. */
  type Channel = nat

  /** `cmd` (Mongo.go:20-26): the operation, its target, its ordered arguments
      and, for a find only, the channel its reply goes to. */
  datatype Cmd = Cmd(kind: CommandType, db: string, collection: string, args: seq<Value>, reply: Option<Channel>)

  /** What the driver call of one command did: it failed with a message, or it
      succeeded; for a find, `docs` is what the query iterator yields, in order. */
  datatype DbResult = Success(docs: seq<Document>) | Failure(message: string)

  /** The one value sent on a find's reply channel: the error, or the result stream. */
  datatype Reply = ReplyError(message: string) | ReplyStream(docs: seq<Document>)

  /** Capacity of the command channel (Mongo.go:36). */
  const Capacity: nat := 64

  /** The message of the find pre-check (Mongo.go:59). */
  const NotConnected: string := "db not connected"

  /** `connected`, the buffered command channel, the replies sent but not yet
      received (`pending`), every channel ever replied to (`answered`) and the
      next reply channel to make. */
  datatype State = State(
    connected: bool,
    commands: seq<Cmd>,
    pending: map<Channel, Reply>,
    answered: set<Channel>,
    nextChannel: Channel)

  /** The argument list each kind of command carries: `[doc]`, `[query, doc]`, `[query]`. */
  predicate WellFormed(c: Cmd) {
    (c.kind == Find <==> c.reply.Some?) &&
    |c.args| == (if c.kind == Upsert then 2 else 1)
  }

  /** The dispatcher invariant: the queue is within capacity, every command is
      well formed, and each queued find waits on its own channel, which nobody
      has replied to yet. */
  predicate AllWellFormed(cs: seq<Cmd>) {
    forall i :: 0 <= i < |cs| ==> WellFormed(cs[i])
  }

  predicate Valid(s: State) {
    |s.commands| <= Capacity &&
    AllWellFormed(s.commands) &&
    (forall i :: 0 <= i < |s.commands| && s.commands[i].reply.Some? ==>
       s.commands[i].reply.value < s.nextChannel && s.commands[i].reply.value !in s.answered) &&
    (forall i, j :: 0 <= i < j < |s.commands| && s.commands[i].reply.Some? && s.commands[j].reply.Some? ==>
       s.commands[i].reply.value != s.commands[j].reply.value) &&
    s.pending.Keys <= s.answered &&
    (forall ch :: ch in s.answered ==> ch < s.nextChannel)
  }

  /** `NewMongo` (Mongo.go:35-39): disconnected, nothing queued. */
  function Init(): (s: State)
    ensures Valid(s) && !s.connected && s.commands == [] && s.pending == map[]
  {
    State(false, [], map[], {}, 0)
  }

  /** A producer's send on the command channel (Mongo.go:46, 50, 54). A send
      on a full channel blocks, so it only happens below capacity. */
  function Push(s: State, c: Cmd): (r: State)
    requires Valid(s) && |s.commands| < Capacity
    requires WellFormed(c) && c.reply.None?
    ensures Valid(r)
    ensures r.commands == s.commands + [c]
    ensures r.connected == s.connected && r.pending == s.pending && r.answered == s.answered
    ensures r.nextChannel == s.nextChannel
  {
    s.(commands := s.commands + [c])
  }

  /** The commands `Insert`, `Upsert` and `Remove` enqueue (Mongo.go:45-55). */
  function InsertCmd(db: string, collection: string, doc: Value): (c: Cmd)
    ensures WellFormed(c) && c.kind == Insert && c.args == [doc] && c.reply.None?
  {
    Cmd(Insert, db, collection, [doc], None)
  }

  function UpsertCmd(db: string, collection: string, query: Value, doc: Value): (c: Cmd)
    ensures WellFormed(c) && c.kind == Upsert && c.args == [query, doc] && c.reply.None?
  {
    Cmd(Upsert, db, collection, [query, doc], None)
  }

  function RemoveCmd(db: string, collection: string, query: Value): (c: Cmd)
    ensures WellFormed(c) && c.kind == Remove && c.args == [query] && c.reply.None?
  {
    Cmd(Remove, db, collection, [query], None)
  }

  /** Whether the `Find` pre-check lets the call through, and on what channel it then waits. */
  datatype Submitted = Rejected(message: string) | Waiting(channel: Channel)

  /** The first half of `Find` (Mongo.go:57-62): fail fast when not connected,
      otherwise make a fresh reply channel and enqueue the find on it. */
  function SubmitFind(s: State, db: string, collection: string, query: Value): (r: (State, Submitted))
    requires Valid(s)
    requires s.connected ==> |s.commands| < Capacity
    ensures Valid(r.0)
    ensures !s.connected ==> r.1 == Rejected(NotConnected) && r.0 == s
    ensures s.connected ==>
      r.1.Waiting? && r.1.channel !in s.answered && r.1.channel !in s.pending &&
      r.0.commands == s.commands + [Cmd(Find, db, collection, [query], Some(r.1.channel))] &&
      r.0.pending == s.pending && r.0.answered == s.answered && r.0.connected
    ensures forall i :: 0 <= i < |s.commands| && s.commands[i].reply.Some? ==>
      r.1 != Waiting(s.commands[i].reply.value)
  {
    if !s.connected then (s, Rejected(NotConnected))
    else
      var ch := s.nextChannel;
      (s.(commands := s.commands + [Cmd(Find, db, collection, [query], Some(ch))], nextChannel := ch + 1), Waiting(ch))
  }

  /** The second half of `Find` (Mongo.go:63-67): take the reply off the channel
      if the dispatcher has sent it; `None` means the caller is still blocked. */
  function Receive(s: State, ch: Channel): (r: (State, Option<Reply>))
    requires Valid(s)
    ensures Valid(r.0)
    ensures r.1.Some? <==> ch in s.pending
    ensures ch in s.pending ==> r.1.value == s.pending[ch] && r.0.pending == s.pending - {ch}
    ensures ch !in s.pending ==> r.0 == s
    ensures r.0.commands == s.commands && r.0.connected == s.connected && r.0.answered == s.answered
    ensures r.0.nextChannel == s.nextChannel
    ensures ch !in r.0.pending
  {
    if ch in s.pending then (s.(pending := s.pending - {ch}), Some(s.pending[ch]))
    else (s, None)
  }

  /** One attempt of `backend` (Mongo.go:71-79): a failed dial changes nothing and
      is retried; a successful one sets `connected` and enters the command loop. */
  function Dial(s: State, ok: bool): (r: State)
    requires Valid(s) && !s.connected
    ensures Valid(r)
    ensures r.connected <==> ok
    ensures r.commands == s.commands && r.pending == s.pending && r.answered == s.answered
    ensures r.nextChannel == s.nextChannel
    ensures !ok ==> r == s
  {
    if ok then s.(connected := true) else s
  }

  /** What a failed command puts back at the end of the queue: the command itself
      for insert, upsert and remove (Mongo.go:119, 128, 137), nothing for find. */
  function Requeued(c: Cmd, o: DbResult): (r: seq<Cmd>)
    ensures r == [] || r == [c]
    ensures r == [c] <==> c.kind != Find && o.Failure?
  {
    if c.kind != Find && o.Failure? then [c] else []
  }

  /** What a find sends on its reply channel (Mongo.go:146-158). */
  function ReplyTo(o: DbResult): (r: Reply)
    ensures o.Failure? <==> r.ReplyError?
    ensures o.Failure? ==> r.message == o.message
    ensures o.Success? ==> r.docs == o.docs
  {
    match o
    case Failure(msg) => ReplyError(msg)
    case Success(docs) => ReplyStream(docs)
  }

  /** One iteration of `commandLoop` (Mongo.go:86-112): take the head of the queue,
      run it against the database with outcome `o`, and on any failure leave the
      loop, so that `backend` clears `connected` (Mongo.go:80-81). */
  function Step(s: State, o: DbResult): (r: State)
    requires s.connected && |s.commands| > 0 && AllWellFormed(s.commands)
    ensures AllWellFormed(r.commands)
    ensures r.commands == s.commands[1..] + Requeued(s.commands[0], o)
    ensures r.connected <==> o.Success?
    ensures s.commands[0].kind == Find ==>
      var ch := s.commands[0].reply.value;
      r.answered == s.answered + {ch} && r.pending == s.pending[ch := ReplyTo(o)]
    ensures s.commands[0].kind != Find ==> r.answered == s.answered && r.pending == s.pending
    ensures r.nextChannel == s.nextChannel
  {
    var c := s.commands[0];
    var rest := s.commands[1..] + Requeued(c, o);
    assert AllWellFormed(rest) by {
      forall i | 0 <= i < |rest| ensures WellFormed(rest[i]) {
        if i < |s.commands| - 1 { assert rest[i] == s.commands[i + 1]; }
      }
    }
    var connected := o.Success?;
    match c.kind
    case Find =>
      var ch := c.reply.value;
      s.(commands := rest, connected := connected,
         pending := s.pending[ch := ReplyTo(o)], answered := s.answered + {ch})
    case _ =>
      s.(commands := rest, connected := connected)
  }

  /** A step keeps the dispatcher invariant, and the find it executes replies on
      a channel nobody had replied to before: each find is answered once. */
  lemma StepKeepsValid(s: State, o: DbResult)
    requires Valid(s) && s.connected && |s.commands| > 0
    ensures Valid(Step(s, o))
    ensures s.commands[0].kind == Find ==> s.commands[0].reply.value !in s.answered
  {
  }

  /** The result of running the command loop: the state it ends in and the
      commands it executed, in the order it executed them. */
  datatype Run = Run(state: State, executed: seq<Cmd>)

  /** The command loop fed with the driver outcomes `os`, one per command, until
      it leaves on a failure, finds the queue empty (where `range` would block)
      or runs out of outcomes. */
  function Loop(s: State, os: seq<DbResult>): (r: Run)
    requires AllWellFormed(s.commands)
    ensures AllWellFormed(r.state.commands)
    ensures |r.executed| <= |os| && |r.executed| <= |s.commands|
    ensures r.state.nextChannel == s.nextChannel
    decreases |os|
  {
    if !s.connected || s.commands == [] || os == [] then Run(s, [])
    else
      var t := Loop(Step(s, os[0]), os[1..]);
      Run(t.state, [s.commands[0]] + t.executed)
  }

  /** The command loop keeps the dispatcher invariant. */
  lemma {:induction false} LoopKeepsValid(s: State, os: seq<DbResult>)
    requires Valid(s)
    ensures Valid(Loop(s, os).state)
    decreases |os|
  {
    if s.connected && s.commands != [] && os != [] {
      StepKeepsValid(s, os[0]);
      LoopKeepsValid(Step(s, os[0]), os[1..]);
    }
  }

  /** The shape of a FIFO run over queue `cs` with outcomes `os`: the executed
      commands `ex` are a prefix of the queue, one per outcome, every outcome but
      the last one used was a success, and the queue left behind (`rest`) is the
      unexecuted suffix followed by the last command if it must be retried. */
  predicate FifoRun(cs: seq<Cmd>, os: seq<DbResult>, ex: seq<Cmd>, rest: seq<Cmd>) {
    |ex| <= |cs| && |ex| <= |os| &&
    ex == cs[..|ex|] &&
    (forall i :: 0 <= i < |ex| - 1 ==> os[i].Success?) &&
    rest == cs[|ex|..] + (if ex == [] then [] else Requeued(cs[|ex| - 1], os[|ex| - 1]))
  }

  /** A successful first command extends a FIFO run over the rest of the queue. */
  lemma FifoRunCons(cs: seq<Cmd>, os: seq<DbResult>, ex: seq<Cmd>, rest: seq<Cmd>)
    requires cs != [] && os != [] && os[0].Success?
    requires FifoRun(cs[1..], os[1..], ex, rest)
    ensures FifoRun(cs, os, [cs[0]] + ex, rest)
  {
  }

  /** FIFO: the loop executes a prefix of the queue, in queue order, one command
      per outcome, and every outcome before the last one it used was a success.
      What remains is the rest of the queue followed, if the last command was a
      failed insert, upsert or remove, by that same command. */
  lemma {:induction false} LoopIsFifo(s: State, os: seq<DbResult>)
    requires AllWellFormed(s.commands)
    ensures var r := Loop(s, os); FifoRun(s.commands, os, r.executed, r.state.commands)
    decreases |os|
  {
    if s.connected && s.commands != [] && os != [] {
      var s' := Step(s, os[0]);
      if os[0].Failure? {
        assert Loop(s', os[1..]) == Run(s', []);
      } else {
        LoopIsFifo(s', os[1..]);
        var t := Loop(s', os[1..]);
        FifoRunCons(s.commands, os, t.executed, t.state.commands);
      }
    }
  }

  /** The loop runs while connected and leaves it exactly when a command fails:
      afterwards `connected` is false if and only if the last executed command
      failed. */
  lemma {:induction false} LoopLeavesOnFailure(s: State, os: seq<DbResult>)
    requires AllWellFormed(s.commands) && s.connected
    ensures var r := Loop(s, os); var k := |r.executed|;
      (!r.state.connected <==> k > 0 && os[k - 1].Failure?) &&
      (r.state.connected ==> k == |os| || k == |s.commands|)
    decreases |os|
  {
    if s.commands != [] && os != [] {
      var s' := Step(s, os[0]);
      if s'.connected {
        LoopLeavesOnFailure(s', os[1..]);
      }
    }
  }

  /** Nothing is lost: every queued insert, upsert or remove either was executed by
      a successful driver call or is still queued afterwards. */
  lemma LoopLosesNoWrite(s: State, os: seq<DbResult>, i: nat)
    requires AllWellFormed(s.commands) && i < |s.commands| && s.commands[i].kind != Find
    ensures var r := Loop(s, os); var k := |r.executed|;
      (i < k && os[i].Success?) || s.commands[i] in r.state.commands
  {
    LoopIsFifo(s, os);
    var r := Loop(s, os);
    var k := |r.executed|;
    if i >= k {
      assert s.commands[i] == s.commands[k..][i - k];
    } else if os[i].Failure? {
      assert i == k - 1;
      assert Requeued(s.commands[k - 1], os[k - 1]) == [s.commands[i]];
      assert r.state.commands[|r.state.commands| - 1] == s.commands[i];
    }
  }

  /** Exactly one reply per find: each find the loop executed has had the reply
      its outcome calls for sent on its channel, and it is not queued again. */
  lemma {:induction false} LoopRepliesToFinds(s: State, os: seq<DbResult>)
    requires Valid(s)
    ensures var r := Loop(s, os);
      forall i :: 0 <= i < |r.executed| && r.executed[i].kind == Find ==>
        r.executed[i].reply.Some? &&
        r.executed[i].reply.value !in s.answered &&
        r.executed[i].reply.value in r.state.answered &&
        r.executed[i].reply.value in r.state.pending &&
        r.state.pending[r.executed[i].reply.value] == ReplyTo(os[i])
    ensures var r := Loop(s, os); r.state.answered >= s.answered
    decreases |os|
  {
    if s.connected && s.commands != [] && os != [] {
      var s' := Step(s, os[0]);
      StepKeepsValid(s, os[0]);
      LoopRepliesToFinds(s', os[1..]);
      LoopIsFifo(s, os);
      var r := Loop(s, os);
      var t := Loop(s', os[1..]);
      forall i | 0 <= i < |r.executed| && r.executed[i].kind == Find
        ensures r.executed[i].reply.Some? && r.executed[i].reply.value !in s.answered &&
          r.executed[i].reply.value in r.state.answered &&
          r.executed[i].reply.value in r.state.pending &&
          r.state.pending[r.executed[i].reply.value] == ReplyTo(os[i])
      {
        if i == 0 {
          var ch := s.commands[0].reply.value;
          assert ch in s'.answered;
          PendingKept(s', os[1..], ch);
        } else {
          assert r.executed[i] == t.executed[i - 1];
          assert r.executed[i] == s.commands[i];
          assert s.commands[i].reply.value !in s'.answered;
          assert os[1..][i - 1] == os[i];
        }
      }
    }
  }

  /** A reply already sent stays where it is while the loop runs: the loop only
      replies on channels of queued finds, and those nobody has answered. */
  lemma {:induction false} PendingKept(s: State, os: seq<DbResult>, ch: Channel)
    requires Valid(s) && ch in s.answered
    ensures var r := Loop(s, os);
      ch in r.state.answered &&
      (ch in s.pending ==> ch in r.state.pending && r.state.pending[ch] == s.pending[ch]) &&
      (ch !in s.pending ==> ch !in r.state.pending)
    decreases |os|
  {
    if s.connected && s.commands != [] && os != [] {
      StepKeepsValid(s, os[0]);
      PendingKept(Step(s, os[0]), os[1..], ch);
    }
  }
}
