/** The client and the server together: what a task submitted by a registered
    client leads to on the server, how its result finds its way back to the one
    handler waiting for it, and what happens when the client goes away. */
module Protocol {
  import opened Values
  import opened Paths
  import opened Db
  import opened RpcServer
  import opened RpcClient

  /** What the store does when a client's connection drops: it removes every
      path that client marked for removal on disconnect. */
  function DropConnection(nodes: map<Path, Value>, marked: set<Path>): (r: map<Path, Value>)
    // nothing is left at or below a marked path
    ensures forall p :: p in marked ==> !PresentIn(r, p)
    // everything outside the marked subtrees stays as it was, and nothing is added
    ensures forall q :: q in nodes && (forall p :: p in marked ==> !(p <= q)) ==> q in r && r[q] == nodes[q]
    ensures forall q :: q in r ==> q in nodes && r[q] == nodes[q]
  {
    var removals := map p | p in marked :: Null;
    DeletionsAbsent(nodes, removals);
    ApplyUpdates(nodes, removals)
  }

  lemma ClientPathOf(id: string)
    requires IsKey(id)
    ensures ClientPath(Str(id)) == ["clients", id]
    ensures ResultsPath(Str(id)) == ["results", id]
  {
    SegmentsOfPair("clients", id);
    SegmentsOfPair("results", id);
    assert "clients/" + id == "clients" + "/" + id;
    assert "results/" + id == "results" + "/" + id;
  }

  /** Once a client has written its presence record, the server's presence read
      for that client's id answers connected. */
  lemma RegisteredClientIsConnected(nodes: map<Path, Value>, id: string)
    requires IsKey(id)
    ensures PresenceReply(ApplyUpdates(nodes, PresenceRecord(["clients", id], id)), Str(id)) == Reply(Null, true)
  {
    ClientPathOf(id);
    var r := ApplyUpdates(nodes, PresenceRecord(["clients", id], id));
    assert ["clients", id] + ["id"] == ["clients", id, "id"];
    assert ["clients", id, "id"] in r;
    assert ["clients", id] <= ["clients", id, "id"];
  }

  /** The update of `run` queues the task at its key and leaves the client
      present: a task is never queued without a presence record beside it. */
  lemma SubmittedTaskIsQueued(nodes: map<Path, Value>, id: string, key: string, task: Value)
    requires IsKey(id) && IsKey(key) && !Deletes(task)
    ensures var r := ApplyUpdates(nodes, RunUpdates(id, key, task));
      && ["queue", "tasks", key] in r && r[["queue", "tasks", key]] == task
      && PresenceReply(r, Str(id)) == Reply(Null, true)
  {
    RunUpdatesShape(id, key, task);
    ClientPathOf(id);
    var u := RunUpdates(id, key, task);
    assert ["queue", "tasks", key] in u && u[["queue", "tasks", key]] == task;
    assert ["clients", id, "lastActivity"] in u && u[["clients", id, "lastActivity"]] == TIMESTAMP;
    var r := ApplyUpdates(nodes, u);
    assert ["clients", id, "lastActivity"] in r;
    assert ["clients", id] <= ["clients", id, "lastActivity"];
  }

  /** After the client's connection drops, its presence record and its results
      collection are gone: presence reads answer not connected. */
  lemma DroppedClientIsGone(nodes: map<Path, Value>, id: string)
    requires IsKey(id)
    ensures var r := DropConnection(nodes, {["clients", id], ["results", id]});
      && PresenceReply(r, Str(id)) == Reply(Null, false)
      && !PresentIn(r, ["results", id])
  {
    ClientPathOf(id);
    var marked: set<Path> := {["clients", id], ["results", id]};
    var removals := map p | p in marked :: Null;
    var r := DropConnection(nodes, marked);
    forall q | q in r
      ensures !(["clients", id] <= q) && !(["results", id] <= q)
    {
      assert ["clients", id] in removals && ["results", id] in removals;
    }
  }

  /** No result for a client that has gone: if the client's connection dropped
      before the first presence read, the task does not even run; if it dropped
      before the second, the outcome is discarded. Either way nothing is pushed
      and the item is resolved. */
  lemma VanishedClientGetsNoResult(item: Value, id: string, nodes1: map<Path, Value>, nodes2: map<Path, Value>,
                                   outcome: TaskOutcome, write: WriteOutcome)
    requires IsKey(id) && Get(item, "client") == Str(id)
    ensures var gone := DropConnection(nodes1, {["clients", id], ["results", id]});
      var t := Dispatch(item, PresenceReply(gone, Str(id)), outcome, PresenceReply(nodes2, Str(id)), write);
      t.build == None && t.push == None && t.done == Resolved
    ensures var gone := DropConnection(nodes2, {["clients", id], ["results", id]});
      var t := Dispatch(item, PresenceReply(nodes1, Str(id)), outcome, PresenceReply(gone, Str(id)), write);
      t.push == None && t.done == Resolved
  {
    DroppedClientIsGone(nodes1, id);
    DroppedClientIsGone(nodes2, id);
  }

  /** Presence reads never fail, so with them a dispatch rejects only when the
      push of the envelope fails. */
  lemma PresenceReadsNeverReject(item: Value, nodes1: map<Path, Value>, outcome: TaskOutcome,
                                 nodes2: map<Path, Value>, write: WriteOutcome)
    ensures var c := Get(item, "client");
      var t := Dispatch(item, PresenceReply(nodes1, c), outcome, PresenceReply(nodes2, c), write);
      t.done.Rejected? <==> t.push.Some? && write.WriteFailed?
  {
  }

  /** A task whose name is empty, zero, false or null is queued like any other,
      but the server's `data && data.task` test skips it: it never runs, no
      envelope is pushed, and the run's handler never fires. */
  lemma FalsyTaskNameIsDropped(id: string, name: Value, data: Value, key: string,
                               check1: Reply, outcome: TaskOutcome, check2: Reply, write: WriteOutcome)
    requires !Truthy(name)
    ensures Dispatch(TaskObject(id, name, data, key), check1, outcome, check2, write) == Trace(0, None, None, Resolved)
  {
    assert !IsTask(TaskObject(id, name, data, key));
  }

  /** The round trip of one task for a client that stays connected: the server
      runs the named handler on the task's data, pushes the envelope into the
      very collection the client listens on, and the run's handler consumes it:
      it unsubscribes, removes it and calls back with the whole envelope, whose
      `error` or `data` is the handler's outcome. A handler waiting for any
      other key leaves it alone. */
  lemma RoundTrip(id: string, key: string, name: Value, data: Value, outcome: TaskOutcome,
                  pushKey: string, cb: Callback, i: nat)
    requires IsKey(id) && IsKey(key) && Truthy(name)
    ensures var task := TaskObject(id, name, data, key);
      var t := Dispatch(task, Reply(Null, true), outcome, Reply(Null, true), Written);
      && t.build == Some(Build(name, Or(data, EmptyObj)))
      && t.push.Some? && t.done == Resolved
      && ResultsPath(Get(task, "client")) == ["results", id]
      && Handle(Handler(key, cb, true), i, ["results", id], Snapshot(pushKey, t.push.value)) ==
         (Handler(key, cb, false),
          [Unsubscribed(i), Removed(["results", id, pushKey]), Called(cb, Null, t.push.value)])
      && (Truthy(outcome.err) ==> Get(t.push.value, "error") == outcome.err && "data" !in t.push.value.fields)
      && (!Truthy(outcome.err) ==> Get(t.push.value, "data") == outcome.result && "error" !in t.push.value.fields)
      && forall other :: other != key ==> !Matches(Snapshot(pushKey, t.push.value), other)
  {
    ClientPathOf(id);
    var task := TaskObject(id, name, data, key);
    var env := Envelope(Str(id), Str(key), outcome);
    assert Get(task, "client") == Str(id) && Get(task, "key") == Str(key);
    assert Dispatch(task, Reply(Null, true), outcome, Reply(Null, true), Written).push == Some(env);
    assert ["results", id] + [pushKey] == ["results", id, pushKey];
  }

  /** Two runs of one client take different keys from the generator, so the
      result of one never matches the other's handler, whatever order results
      arrive in. */
  lemma RunsDoNotCrossTalk(id: string, n1: nat, n2: nat, name: Value, data: Value, outcome: TaskOutcome,
                           pushKey: string)
    requires n1 != n2
    ensures var t := Dispatch(TaskObject(id, name, data, PushId(n1)), Reply(Null, true), outcome, Reply(Null, true), Written);
      t.push.Some? ==> !Matches(Snapshot(pushKey, t.push.value), PushId(n2))
  {
    PushIdInjective(n1, n2);
  }
}
