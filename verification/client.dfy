/** The client side: lazy presence registration, task submission with a
    correlation key, and one-shot result handlers that deliver the envelope
    carrying their key and clean it up. */
module RpcClient {
  import opened Values
  import opened Paths
  import opened Db

  /** A caller's callback function, known by its identity. */
  datatype Callback = Callback(id: nat)

  /** The second argument of `run`: data, or a function taking the callback's place. */
  datatype Arg = Data(v: Value) | Function(f: Callback)

  /** What a `child_added` notification hands over: the child's key and value. */
  datatype Snapshot = Snapshot(key: string, val: Value)

  /** The `child_added` handler one `run` installs: the correlation key it waits
      for, the callback it serves and whether it is still subscribed. */
  datatype Handler = Handler(key: string, cb: Callback, subscribed: bool)

  /** What the client does towards the store and its callers, in order. */
  datatype Effect =
    | Unsubscribed(handler: nat)
    | Removed(path: Path)
      /** `cb(err, val)`; the one-argument call `cb(err)` has `val` undefined. */
    | Called(cb: Callback, err: Value, val: Value)

  /** The fields written at `clients/{id}` when the client registers. */
  function PresenceRecord(clientRef: Path, id: string): (r: map<Path, Value>)
    // exactly three fields, each a direct child of `clientRef`, none of them a deletion
    ensures r.Keys == {clientRef + ["id"], clientRef + ["status"], clientRef + ["lastActivity"]}
    ensures r[clientRef + ["id"]] == Str(id) && r[clientRef + ["status"]] == Str("connected")
    ensures r[clientRef + ["lastActivity"]] == TIMESTAMP && !Deletes(TIMESTAMP)
  {
    var n := |clientRef|;
    assert (clientRef + ["id"])[n] == "id" && (clientRef + ["status"])[n] == "status";
    assert (clientRef + ["lastActivity"])[n] == "lastActivity";
    assert ".sv" in TIMESTAMP.fields;
    map[clientRef + ["id"] := Str(id), clientRef + ["status"] := Str("connected"), clientRef + ["lastActivity"] := TIMESTAMP]
  }

  /** The task a client queues: who asks, what for, with which data, under which key. */
  function TaskObject(id: string, name: Value, data: Value, key: string): (task: Value)
    ensures task.Obj? && task.fields.Keys == {"client", "task", "data", "key"}
    ensures Get(task, "client") == Str(id) && Get(task, "task") == name
    ensures Get(task, "data") == data && Get(task, "key") == Str(key)
  {
    Obj(map["client" := Str(id), "task" := name, "data" := data, "key" := Str(key)])
  }

  /** The one atomic update of `run`, keyed by the relative paths
      `clients/{id}/lastActivity` and `queue/tasks/{key}`. */
  function RunUpdates(id: string, key: string, task: Value): map<Path, Value> {
    map[Segments("clients/" + id + "/lastActivity") := TIMESTAMP, Segments("queue/tasks/" + key) := task]
  }

  /** For a registered id and a push key, the update of `run` has exactly two
      entries: it refreshes the client's activity time and queues the task at its
      key, and touches nothing else. */
  lemma RunUpdatesShape(id: string, key: string, task: Value)
    requires IsKey(id) && IsKey(key)
    ensures |RunUpdates(id, key, task)| == 2
    ensures RunUpdates(id, key, task) == map[["clients", id, "lastActivity"] := TIMESTAMP, ["queue", "tasks", key] := task]
  {
    JoinThree("clients", id, "lastActivity");
    JoinThree("queue", "tasks", key);
    SegmentsJoin(["clients", id, "lastActivity"]);
    SegmentsJoin(["queue", "tasks", key]);
    assert "clients/" + id + "/lastActivity" == "clients" + "/" + id + "/" + "lastActivity";
    assert "queue/tasks/" + key == "queue" + "/" + "tasks" + "/" + key;
    assert ["clients", id, "lastActivity"] != ["queue", "tasks", key];
  }

  lemma JoinThree(a: string, b: string, c: string)
    ensures Join([a, b, c], '/') == a + "/" + b + "/" + c
  {
    assert [a, b, c][1..] == [b, c];
    assert [b, c][1..] == [c];
    assert Join([b, c], '/') == b + "/" + c;
    assert a + "/" + (b + "/" + c) == a + "/" + b + "/" + c;
  }

  /** Whether a result snapshot carries the correlation key `key`. */
  predicate Matches(snap: Snapshot, key: string) {
    Get(snap.val, "key") == Str(key)
  }

  /** One `child_added` notification to handler number `i` listening on
      `resultsRef`: the new handler state and the effects, in order. */
  function Handle(h: Handler, i: nat, resultsRef: Path, snap: Snapshot): (r: (Handler, seq<Effect>))
    // the handler keeps its key and callback; it reacts iff it is subscribed and the key matches
    ensures r.0.key == h.key && r.0.cb == h.cb
    ensures r.1 != [] <==> h.subscribed && Matches(snap, h.key)
    // reacting ends the subscription; otherwise nothing changes
    ensures r.0.subscribed <==> h.subscribed && !Matches(snap, h.key)
    // it unsubscribes, removes the consumed result, then calls back once with no error and the whole envelope
    ensures r.1 != [] ==> r.1 == [Unsubscribed(i), Removed(resultsRef + [snap.key]), Called(h.cb, Null, snap.val)]
  {
    if h.subscribed && Matches(snap, h.key) then
      (h.(subscribed := false), [Unsubscribed(i), Removed(resultsRef + [snap.key]), Called(h.cb, Null, snap.val)])
    else
      (h, [])
  }

  /** A sequence of notifications to one handler. */
  function Feed(h: Handler, i: nat, resultsRef: Path, snaps: seq<Snapshot>): (Handler, seq<Effect>)
    decreases |snaps|
  {
    if snaps == [] then (h, [])
    else
      var first := Handle(h, i, resultsRef, snaps[0]);
      var rest := Feed(first.0, i, resultsRef, snaps[1..]);
      (rest.0, first.1 + rest.1)
  }

  /** A handler that is unsubscribed, or that sees no result with its key, does
      nothing: unmatched results stay where they are. */
  lemma {:induction false} FeedUnmatched(h: Handler, i: nat, resultsRef: Path, snaps: seq<Snapshot>)
    requires !h.subscribed || forall j :: 0 <= j < |snaps| ==> !Matches(snaps[j], h.key)
    ensures Feed(h, i, resultsRef, snaps) == (h, [])
    decreases |snaps|
  {
    if snaps != [] {
      var first := Handle(h, i, resultsRef, snaps[0]);
      assert first == (h, []);
      FeedUnmatched(h, i, resultsRef, snaps[1..]);
      var rest := Feed(h, i, resultsRef, snaps[1..]);
      assert Feed(h, i, resultsRef, snaps) == (rest.0, first.1 + rest.1);
      assert rest.0 == h;
      assert rest.1 == [];
      assert first.1 + rest.1 == [];
    }
  }

  /** Exactly-once delivery: whatever arrives, a subscribed handler reacts to the
      first result carrying its key only: it unsubscribes, removes that result,
      then calls back once with the whole envelope and no error; every later
      notification, a duplicate of the same key included, changes nothing. */
  lemma {:induction false} FeedFirstMatch(h: Handler, i: nat, resultsRef: Path, snaps: seq<Snapshot>, j: nat)
    requires h.subscribed && j < |snaps| && Matches(snaps[j], h.key)
    requires forall m :: 0 <= m < j ==> !Matches(snaps[m], h.key)
    ensures Feed(h, i, resultsRef, snaps) ==
      (h.(subscribed := false), [Unsubscribed(i), Removed(resultsRef + [snaps[j].key]), Called(h.cb, Null, snaps[j].val)])
    decreases j
  {
    var done := h.(subscribed := false);
    var first := Handle(h, i, resultsRef, snaps[0]);
    if j == 0 {
      FeedUnmatched(done, i, resultsRef, snaps[1..]);
      var rest := Feed(done, i, resultsRef, snaps[1..]);
      assert rest.0 == done && rest.1 == [];
      assert Feed(h, i, resultsRef, snaps) == (rest.0, first.1 + rest.1);
      assert first.1 + rest.1 == first.1;
    } else {
      assert first == (h, []);
      FeedFirstMatch(h, i, resultsRef, snaps[1..], j - 1);
      var rest := Feed(h, i, resultsRef, snaps[1..]);
      assert snaps[1..][j - 1] == snaps[j];
      assert Feed(h, i, resultsRef, snaps) == (rest.0, first.1 + rest.1);
      assert first.1 + rest.1 == rest.1;
    }
  }

  class Client {
    /** The store below `config.ref`. */
    const db: Store
    var config: Config
    var queueRef: Path
    var connected: bool
    var clientRef: Path
    var id: string
    var resultsRef: Path
    /** The paths the store removes when this client's connection drops. */
    var onDisconnect: set<Path>
    /** The `child_added` handlers on `resultsRef`, one per successful `run`. */
    var handlers: seq<Handler>
    /** Unsubscriptions, removals and callback calls, in the order made. */
    var effects: seq<Effect>

    ghost predicate Valid()
      reads this
    {
      && queueRef == ["queue"]
      && (connected ==> IsKey(id) && clientRef == ["clients", id] && resultsRef == ["results", id])
    }

    constructor (config: Config)
      requires config.ref != null
      ensures Valid() && db == config.ref && this.config == config && queueRef == ["queue"]
      ensures !connected && onDisconnect == {} && handlers == [] && effects == []
    {
      db := config.ref;
      this.config := config;
      queueRef := ["queue"];
      connected := false;
      clientRef, id, resultsRef := [], "", [];
      onDisconnect, handlers, effects := {}, [], [];
    }

    /** Register presence once: a push key under `clients` becomes the client's
        id, the presence record is written there, and the record and the results
        collection are marked for removal on disconnect. Later calls do nothing. */
    method Connect()
      requires Valid() && db.Valid()
      modifies this`connected, this`clientRef, this`id, this`resultsRef, this`onDisconnect, db`nodes, db`nextId
      ensures Valid() && db.Valid() && connected
      ensures old(connected) ==> unchanged(this) && unchanged(db)
      ensures !old(connected) ==>
        && id == PushId(old(db.nextId)) && db.nextId == old(db.nextId) + 1
        && db.nodes == ApplyUpdates(old(db.nodes), PresenceRecord(clientRef, id))
        && onDisconnect == old(onDisconnect) + {clientRef, resultsRef}
    {
      if connected {
        return;
      }
      connected := true;

      var k := db.Push();
      clientRef := ["clients"] + [k];
      LastSegmentOfChild(db.url, ["clients"], k);
      id := LastSegment(Url(db.url, clientRef));

      SegmentsOfPair("results", id);
      resultsRef := Segments("results" + "/" + id);
      db.Update(PresenceRecord(clientRef, id));

      onDisconnect := onDisconnect + {clientRef, resultsRef};
    }

    /** Submit task `name`: register if needed, then queue the task. */
    method Run(name: Value, data: Arg, cb: Callback, update: WriteOutcome)
      requires Valid() && db.Valid()
      modifies this`connected, this`clientRef, this`id, this`resultsRef, this`onDisconnect
      modifies this`handlers, this`effects, db`nodes, db`nextId
      ensures Valid() && db.Valid() && connected
      ensures old(connected) ==> id == old(id) && onDisconnect == old(onDisconnect)
      ensures !old(connected) ==> id == PushId(old(db.nextId)) && onDisconnect == old(onDisconnect) + {clientRef, resultsRef}
      ensures db.nextId == old(db.nextId) + (if old(connected) then 1 else 2)
      ensures
        var registered := if old(connected) then old(db.nodes) else ApplyUpdates(old(db.nodes), PresenceRecord(clientRef, id));
        var key := PushId(db.nextId - 1);
        var callback := if data.Function? then data.f else cb;
        var task := TaskObject(id, name, if data.Function? then EmptyObj else data.v, key);
        && (update.Written? ==>
              && db.nodes == ApplyUpdates(registered, RunUpdates(id, key, task))
              && handlers == old(handlers) + [Handler(key, callback, true)]
              && effects == old(effects))
        && (update.WriteFailed? ==>
              && db.nodes == registered
              && handlers == old(handlers)
              && effects == old(effects) + [Called(callback, update.err, Undefined)])
    {
      Connect();
      Submit(name, data, cb, update);
    }

    /** The part of `run` after registration: take a push key under
        `queue/tasks` as the correlation key and write the activity time and the
        task in one update. If the update fails the callback gets the error and
        nothing is installed; otherwise a subscribed handler for the key is. */
    method Submit(name: Value, data: Arg, cb: Callback, update: WriteOutcome)
      requires Valid() && db.Valid() && connected
      modifies this`handlers, this`effects, db`nodes, db`nextId
      ensures Valid() && db.Valid()
      ensures db.nextId == old(db.nextId) + 1
      ensures
        var key := PushId(old(db.nextId));
        var callback := if data.Function? then data.f else cb;
        var task := TaskObject(id, name, if data.Function? then EmptyObj else data.v, key);
        && (update.Written? ==>
              && db.nodes == ApplyUpdates(old(db.nodes), RunUpdates(id, key, task))
              && handlers == old(handlers) + [Handler(key, callback, true)]
              && effects == old(effects))
        && (update.WriteFailed? ==>
              && db.nodes == old(db.nodes)
              && handlers == old(handlers)
              && effects == old(effects) + [Called(callback, update.err, Undefined)])
    {
      var callback := cb;
      var payload: Value;
      if data.Function? {
        callback := data.f;
        payload := EmptyObj;
      } else {
        payload := data.v;
      }

      var fields := map["client" := Str(id), "task" := name, "data" := payload];

      var tasksRef := queueRef + ["tasks"];
      var k := db.Push();
      LastSegmentOfChild(db.url, tasksRef, k);
      var key := LastSegment(Url(db.url, tasksRef + [k]));
      fields := fields["key" := Str(key)];

      var task := Obj(fields);
      assert task == TaskObject(id, name, payload, key);
      var updates := RunUpdates(id, key, task);

      match update
      case Written =>
        db.Update(updates);
        handlers := handlers + [Handler(key, callback, true)];
      case WriteFailed(err) =>
        effects := effects + [Called(callback, err, Undefined)];
    }

    /** The store notifies handler `i` of a new child of `resultsRef`. A handler
        that has unsubscribed is no longer called; a result carrying another key
        is ignored; the result carrying the handler's key makes it unsubscribe,
        remove that result and call back with the whole envelope. */
    method OnChildAdded(i: nat, snap: Snapshot)
      requires Valid() && db.Valid() && i < |handlers|
      modifies this`handlers, this`effects, db`nodes
      ensures Valid() && db.Valid()
      ensures !(old(handlers[i]).subscribed && Matches(snap, old(handlers[i]).key)) ==> unchanged(this) && unchanged(db)
      ensures var (h, e) := Handle(old(handlers[i]), i, resultsRef, snap);
        && handlers == old(handlers)[i := h]
        && effects == old(effects) + e
        && db.nodes == if e == [] then old(db.nodes) else ApplyUpdates(old(db.nodes), map[resultsRef + [snap.key] := Null])
    {
      var h := handlers[i];
      if !h.subscribed {
        return;
      }
      if Get(snap.val, "key") != Str(h.key) {
        return;
      }

      var val := snap.val;
      handlers := handlers[i := h.(subscribed := false)];
      effects := effects + [Unsubscribed(i)];

      var consumed := resultsRef + [snap.key];
      db.Remove(consumed);
      effects := effects + [Removed(consumed)];

      effects := effects + [Called(h.cb, Null, val)];
    }
  }

  /** `new Client(config)`: fails without a root reference; otherwise keeps a copy
      of `config` and the queue reference, not yet registered. */
  method NewClient(config: Config) returns (r: Result<Client>)
    ensures r.Err? <==> config.ref == null
    ensures r.Err? ==> r.message == CONFIG_ERROR
    ensures r.Ok? ==> fresh(r.value) && r.value.Valid() && r.value.db == config.ref && r.value.config == config
    ensures r.Ok? ==> r.value.queueRef == ["queue"] && !r.value.connected
    ensures r.Ok? ==> r.value.handlers == [] && r.value.effects == [] && r.value.onDisconnect == {}
  {
    if config.ref == null {
      return Err(CONFIG_ERROR);
    }
    var c := new Client(config);
    return Ok(c);
  }
}
