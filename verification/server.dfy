/** The server side: a queue consumer that runs each task only while its client
    is present and writes the result envelope back under that client's results
    collection, again only while the client is present. */
module RpcServer {
  import opened Values
  import opened Paths
  import opened Db

  /** The arguments `(err, connected)` a liveness check calls back with. */
  datatype Reply = Reply(err: Value, connected: bool)

  /** The arguments `(err, result)` the task handler calls back with. */
  datatype TaskOutcome = TaskOutcome(err: Value, result: Value)

  /** The queue continuation a run of `process` completes: `resolve()` or `reject(err)`. */
  datatype Completion = Resolved | Rejected(err: Value)

  /** One call into the handler registry: `build(name, data, callback)`. */
  datatype Build = Build(name: Value, data: Value)

  /** What the queue is constructed with: its root reference and its options. */
  datatype QueueSetup = QueueSetup(ref: Path, opts: map<string, Value>)

  /** What one run of `process` does: how many presence reads it makes, which
      handler call, which envelope it pushes, and which continuation it completes. */
  datatype Trace = Trace(presenceReads: nat, build: Option<Build>, push: Option<Value>, done: Completion)

  /** Whether a queue item is a task to run: `data && data.task`. Only an object
      whose own `task` property is truthy qualifies; an empty, zero or false
      task name does not. */
  predicate IsTask(item: Value)
    ensures IsTask(item) <==> item.Obj? && "task" in item.fields && Truthy(item.fields["task"])
  {
    Truthy(item) && Truthy(Get(item, "task"))
  }

  /** `clients/{client}`: where a client's presence record lives. */
  function ClientPath(client: Value): Path {
    Segments("clients/" + ToStr(client))
  }

  /** `results/{client}`: the collection a client's result envelopes are pushed to. */
  function ResultsPath(client: Value): Path {
    Segments("results/" + ToStr(client))
  }

  /** The reply of a presence read of `client` on the store contents `nodes`:
      connected exactly when something is stored at or below `clients/{client}`;
      the read never reports an error. */
  function PresenceReply(nodes: map<Path, Value>, client: Value): (reply: Reply)
    ensures reply.err == Null
    ensures reply.connected <==> exists q :: q in nodes && ClientPath(client) <= q
  {
    Reply(Null, PresentIn(nodes, ClientPath(client)))
  }

  /** The result envelope for a task: addressed by `client` and `key`, carrying the
      handler's error when it reported one and its result otherwise. */
  function Envelope(client: Value, key: Value, outcome: TaskOutcome): (r: Value)
    ensures r.Obj? && r.fields.Keys <= {"client", "key", "error", "data"}
    ensures Get(r, "client") == client && Get(r, "key") == key
    ensures "error" in r.fields <==> Truthy(outcome.err)
    ensures "data" in r.fields <==> !Truthy(outcome.err)
    ensures "error" in r.fields ==> r.fields["error"] == outcome.err
    ensures "data" in r.fields ==> r.fields["data"] == outcome.result
  {
    var head := map["client" := client, "key" := key];
    if Truthy(outcome.err) then Obj(head["error" := outcome.err]) else Obj(head["data" := outcome.result])
  }

  /** The decisions of `process` for one queue item, given the two liveness
      replies, the handler's outcome and the outcome of the push. */
  function Dispatch(item: Value, check1: Reply, outcome: TaskOutcome, check2: Reply, write: WriteOutcome): (t: Trace)
    // an item that is not a task is acknowledged with no read and no write
    ensures !IsTask(item) ==> t == Trace(0, None, None, Resolved)
    // the task runs exactly when the first check reads cleanly and finds the client
    ensures t.build.Some? <==> IsTask(item) && !Truthy(check1.err) && check1.connected
    ensures t.build.Some? ==> t.build.value == Build(Get(item, "task"), Or(Get(item, "data"), EmptyObj))
    // the handler gets the item's data, or `{}` when that is missing or falsy
    ensures t.build.Some? ==> t.build.value.data == (if Truthy(Get(item, "data")) then Get(item, "data") else EmptyObj)
    // an envelope is pushed exactly when, besides, the second check finds the client
    ensures t.push.Some? <==> t.build.Some? && !Truthy(check2.err) && check2.connected
    ensures t.push.Some? ==> t.push.value == Envelope(Get(item, "client"), Get(item, "key"), outcome)
    // the second check is made exactly when the task ran
    ensures t.presenceReads == if !IsTask(item) then 0 else if t.build.Some? then 2 else 1
    // it rejects with the first failure met, and resolves otherwise
    ensures IsTask(item) && Truthy(check1.err) ==> t.done == Rejected(check1.err)
    ensures t.build.Some? && Truthy(check2.err) ==> t.done == Rejected(check2.err)
    ensures t.push.Some? ==> t.done == (if write.Written? then Resolved else Rejected(write.err))
    ensures t.done.Rejected? <==>
      (IsTask(item) && Truthy(check1.err)) || (t.build.Some? && Truthy(check2.err)) || (t.push.Some? && write.WriteFailed?)
  {
    if !IsTask(item) then Trace(0, None, None, Resolved)
    else if Truthy(check1.err) then Trace(1, None, None, Rejected(check1.err))
    else if !check1.connected then Trace(1, None, None, Resolved)
    else
      var build := Some(Build(Get(item, "task"), Or(Get(item, "data"), EmptyObj)));
      if Truthy(check2.err) then Trace(2, build, None, Rejected(check2.err))
      else if !check2.connected then Trace(2, build, None, Resolved)
      else
        var envelope := Envelope(Get(item, "client"), Get(item, "key"), outcome);
        Trace(2, build, Some(envelope), if write.Written? then Resolved else Rejected(write.err))
  }

  class Server {
    /** The store below `config.ref`. */
    const db: Store
    var config: Config
    var queueOpts: map<string, Value>
    var queueRef: Path
    var queue: Option<QueueSetup>
    /** The calls made into the handler registry, in order. */
    var builds: seq<Build>

    constructor (config: Config)
      requires config.ref != null
      ensures db == config.ref && this.config == config
      ensures queueOpts == Extend(map[], config.queue) && queueRef == ["queue"]
      ensures queue == None && builds == []
    {
      db := config.ref;
      this.config := config;
      queueOpts := Extend(map[], config.queue);
      queueRef := ["queue"];
      queue := None;
      builds := [];
    }

    /** Start consuming: merge `options` over the stored queue options (in place)
        and construct the queue with the result. */
    method Listen(options: Value) returns (q: QueueSetup)
      modifies this`queueOpts, this`queue
      ensures queueOpts == Extend(old(queueOpts), options)
      ensures q == QueueSetup(queueRef, queueOpts) && queue == Some(q)
    {
      queueOpts := Extend(queueOpts, options);
      q := QueueSetup(queueRef, queueOpts);
      queue := Some(q);
    }

    /** The presence read for `client` on the current store. */
    function IsConnected(client: Value): (reply: Reply)
      reads db
      ensures reply.err == Null
      ensures reply.connected <==> db.Present(ClientPath(client))
    {
      PresenceReply(db.nodes, client)
    }

    /** The queue's processing callback for one item. `check1` and `check2` are
        the replies of the two liveness reads, `outcome` is what the handler
        calls back with, and `write` is how the store settles the push. */
    method Process(item: Value, check1: Reply, outcome: TaskOutcome, check2: Reply, write: WriteOutcome)
      returns (done: Completion)
      requires db.Valid()
      modifies this`builds, db`nodes, db`nextId
      ensures db.Valid()
      ensures var t := Dispatch(item, check1, outcome, check2, write);
        && done == t.done
        && builds == old(builds) + (if t.build.Some? then [t.build.value] else [])
        && db.nextId == old(db.nextId) + (if t.push.Some? then 1 else 0)
        && db.nodes == if t.push.Some? && write.Written?
                       then ApplyUpdates(old(db.nodes),
                                         map[ResultsPath(Get(item, "client")) + [PushId(old(db.nextId))] := t.push.value])
                       else old(db.nodes)
    {
      if Truthy(item) && Truthy(Get(item, "task")) {
        var client := Get(item, "client");
        var key := Get(item, "key");
        var resultsRef := ResultsPath(client);

        // first liveness read: skip the task for a client that is gone
        if Truthy(check1.err) {
          return Rejected(check1.err);
        }
        if !check1.connected {
          return Resolved;
        }

        builds := builds + [Build(Get(item, "task"), Or(Get(item, "data"), EmptyObj))];

        // second liveness read: drop the outcome for a client that is gone
        if Truthy(check2.err) {
          return Rejected(check2.err);
        }
        if !check2.connected {
          return Resolved;
        }

        var results := map["client" := client, "key" := key];
        if Truthy(outcome.err) {
          results := results["error" := outcome.err];
        } else {
          results := results["data" := outcome.result];
        }

        var k := db.Push();
        match write
        case Written =>
          db.Update(map[resultsRef + [k] := Obj(results)]);
          return Resolved;
        case WriteFailed(err) =>
          return Rejected(err);
      }
      return Resolved;
    }
  }

  /** `new Server(config)`: fails without a root reference; otherwise keeps a
      copy of `config`, a copy of its queue options and the queue reference. */
  method NewServer(config: Config) returns (r: Result<Server>)
    ensures r.Err? <==> config.ref == null
    ensures r.Err? ==> r.message == CONFIG_ERROR
    ensures r.Ok? ==> fresh(r.value) && r.value.db == config.ref && r.value.config == config
    ensures r.Ok? ==> r.value.queueOpts == Extend(map[], config.queue) && r.value.queueRef == ["queue"]
    ensures r.Ok? ==> r.value.queue == None && r.value.builds == []
  {
    if config.ref == null {
      return Err(CONFIG_ERROR);
    }
    var s := new Server(config);
    return Ok(s);
  }
}
