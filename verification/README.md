# firebase-rpc: correlation and liveness protocol, modelled in Dafny

firebase-rpc runs remote procedure calls over a shared hierarchical database.
A **client** registers an ephemeral presence record under `clients/{id}`. It
queues a task under `queue/tasks/{key}`; the push-generated `key` is the
correlation key. It then listens on `results/{id}` for the envelope that carries
that key. A **server** consumes queued tasks. Before running a task it checks that
the client is still present, and it checks again before pushing the result
envelope to `results/{client}`.

The model covers the two core files:

- `values.dfy` (`Values`): JSON-like values and the JavaScript semantics the code
  relies on. These are truthiness, property reads, `a || b`, string conversion
  and the shallow merge of `extend-shallow`.
- `paths.dfy` (`Paths`): `split('/')`, `last(...)`, reference URLs and the way
  `child(rel)` splits a relative path. It proves that split and join are inverses
  and that the last piece of a pushed reference's URL is its key.
- `store.dfy` (`Db`): the shared store as a class holding a map from path to
  value and a push-key generator. It has atomic multi-path updates (a null value
  deletes), removal and presence.
- `server.dfy` (`RpcServer`, lib/server.js): the `Server` class (constructor,
  `Listen`, `IsConnected`, `Process`) and the pure `Dispatch` that specifies
  `Process`. The two liveness replies, the handler's outcome and the push outcome
  are inputs. Handler calls are recorded in `builds`; the queue continuation is
  the returned `Completion`.
- `client.dfy` (`RpcClient`, lib/client.js): the `Client` class (`Connect`,
  `Run`, `OnChildAdded`). The update outcome is an input. Installed handlers are
  a field. Unsubscriptions, removals and callback calls are recorded in order in
  `effects`. `Handle`/`Feed` specify a handler's reaction to notifications.
- `protocol.dfy` (`Protocol`): client and server together. It covers the round
  trip of one task, no result for a vanished client, no cross-talk between runs,
  and presence after registration.

Three behaviours of the code that the model keeps as written:

- On a match the client calls `cb(null, envelope)` with the whole envelope
  (lib/client.js:95). It does not move the envelope's `error` into the error
  argument. `Handle` and `RoundTrip` state exactly this.
- The presence read `isConnected` never reports an error (lib/server.js:128-133).
  The `reject(err)` branches after the liveness reads (lib/server.js:86,
  lib/server.js:94) are therefore unreachable with the real read. `Process` still
  models them, because the reply is an input. `PresenceReadsNeverReject` proves
  that with real presence replies a dispatch rejects only when the push fails.
- `run` queues any task name as given (lib/client.js:68-72), but the server runs
  an item only when `data && data.task` holds (lib/server.js:77). A run whose
  name is empty, zero, `false` or `null` is therefore resolved by the server
  without running or answering, and its callback never fires, although the
  client stays connected. `FalsyTaskNameIsDropped` proves this;
  `RoundTrip` covers truthy task names.

## Model

| member | source | states |
|---|---|---|
| `Values.Extend` | lib/server.js:62 | `extend(target, source)`: the keys are those of both; a key of the source wins; a non-object source changes nothing |
| `Paths.Split` | lib/client.js:47 | `split('/')` gives at least one piece, and no piece contains the separator |
| `Paths.JoinSplit` | lib/client.js:47 | joining the pieces of a split string gives the string back |
| `Paths.SplitJoin` | lib/client.js:47 | splitting a join of separator-free pieces gives the pieces back |
| `Paths.LastSegment` | lib/client.js:47 | `last(s.split('/'))` contains no '/' |
| `Paths.LastSegmentOfChild` | lib/client.js:46-47 | the last piece of a pushed reference's URL is the pushed key, so `id` (and a task `key`) is the push key |
| `Paths.SegmentsOfPair` | lib/client.js:49 | `child('results/' + id)` names the path `["results", id]` for a non-empty, '/'-free id |
| `Paths.SegmentsJoin` | lib/client.js:82-83 | a '/'-joined relative path of non-empty pieces names exactly those pieces |
| `Db.PushId` | lib/client.js:46 | push keys are non-empty and contain no '/' |
| `Db.PushIdInjective` | lib/client.js:78-79 | distinct generator states give distinct keys: every run gets its own correlation key |
| `Db.ApplyUpdates` | lib/client.js:85 | a multi-path update writes each non-null value at its path, keeps every node outside the updated subtrees, and adds nothing else |
| `Db.DeletionsAbsent` | lib/client.js:56-57 | after an update made only of deletions nothing is left at or below any of its paths |
| `Db.RemovedAbsent` | lib/client.js:94 | after `remove()` nothing is stored at or below the removed path |
| `Db.Store.Push` | lib/client.js:78 | `push()` yields the generator's next key and writes nothing |
| `Db.Store.Update` | lib/client.js:85 | the store's contents become the update applied to the old contents |
| `Db.Store.Remove` | lib/client.js:94 | the store's contents lose the subtree at the path |
| `RpcServer.NewServer` | lib/server.js:25-42 | fails with the configuration error exactly when `config.ref` is missing; otherwise keeps `config`, copies `config.queue` into `queueOpts`, and sets `queueRef` to `queue` |
| `RpcServer.Server.Listen` | lib/server.js:61-65 | merges `options` over `queueOpts` in place (option keys win) and constructs the queue on `queueRef` with the merged options |
| `RpcServer.IsTask` | lib/server.js:77 | `data && data.task` holds exactly for an object whose own `task` property is truthy |
| `RpcServer.PresenceReply` | lib/server.js:126-134 | a presence read answers connected iff something is stored at or below `clients/{client}`, and never reports an error |
| `RpcServer.Server.IsConnected` | lib/server.js:126-134 | the same read on the server's own store |
| `RpcServer.Envelope` | lib/server.js:97-102 | the envelope carries the item's `client` and `key`; it has `error` iff the handler reported a truthy error, and otherwise `data = result`; never both, no other field |
| `RpcServer.Dispatch` | lib/server.js:76-115 | a non-task item is resolved with no read, no run and no write; the task runs iff the first read is clean and finds the client, on the item's data or `{}` when that is falsy (`data.data || {}`); an envelope is pushed iff, in addition, the second read does too; the run ends in a reject exactly on a read error or a failed push, and in a resolve otherwise |
| `RpcServer.Server.Process` | lib/server.js:76-115 | completes exactly the continuation `Dispatch` chooses; records the handler call iff the task ran; pushes the envelope under `results/{client}` with a fresh key iff an envelope is pushed and the write succeeds; changes nothing else |
| `RpcClient.NewClient` | lib/client.js:25-38 | fails with the configuration error exactly when `config.ref` is missing; otherwise an unregistered client with `queueRef` set to `queue` |
| `RpcClient.Client.Connect` | lib/client.js:42-58 | the first call takes a push key under `clients` as `id`, sets `clientRef` to `clients/{id}` and `resultsRef` to `results/{id}`, writes `{id, status: 'connected', lastActivity}` there and marks both paths for removal on disconnect; later calls change nothing |
| `RpcClient.PresenceRecord` | lib/client.js:50-54 | the presence record is exactly three direct children of `clients/{id}`: `id`, `status = 'connected'` and `lastActivity` set to the timestamp, none of them a deletion |
| `RpcClient.RunUpdatesShape` | lib/client.js:82-83 | the update of `run` has exactly two entries: `clients/{id}/lastActivity` set to the timestamp, and `queue/tasks/{key}` set to the task |
| `RpcClient.Client.Run` | lib/client.js:60-101 | registers first if needed; a function as second argument becomes the callback and data becomes `{}`; the key is the next push key; on a failed update the callback gets the error, nothing is written and no handler is installed; otherwise the two-path update is applied and one subscribed handler for the key is installed |
| `RpcClient.Client.Submit` | lib/client.js:63-100 | for a registered client: the key is the next push key and the task carries it; on a failed update the callback gets the error and nothing else changes; otherwise the two-path update is applied and one subscribed handler for the key is installed |
| `RpcClient.Handle` | lib/client.js:87-96 | one notification: the handler reacts iff it is still subscribed and the result carries its key; reacting ends the subscription and does, in order, unsubscribe, remove that result, `cb(null, envelope)`; otherwise nothing changes; key and callback never change |
| `RpcClient.Client.OnChildAdded` | lib/client.js:87-96 | a result with another key changes nothing; for the handler's key it unsubscribes, then removes that result node, then calls back once with a null error and the whole envelope |
| `RpcClient.FeedUnmatched` | lib/client.js:88-90 | over any sequence of notifications, an unsubscribed handler, or one that sees no matching key, does nothing and leaves every result in place |
| `RpcClient.FeedFirstMatch` | lib/client.js:92-95 | over any sequence of notifications, a handler consumes only the first result with its key (unsubscribe, remove, one callback) and ignores everything after, duplicates included |
| `Protocol.DropConnection` | lib/client.js:56-57 | when the connection drops, nothing is left at or below a path marked for removal, everything outside those subtrees stays, and nothing is added |
| `Protocol.ClientPathOf` | lib/server.js:82 | for a registered id, `clients/{id}` and `results/{id}` name the two-piece paths the client writes and listens on |
| `Protocol.RegisteredClientIsConnected` | lib/client.js:50-54 | once the presence record is written, the server's presence read for that id answers connected |
| `Protocol.SubmittedTaskIsQueued` | lib/client.js:82-85 | the update of `run` queues the task at `queue/tasks/{key}` and leaves the client present |
| `Protocol.DroppedClientIsGone` | lib/client.js:56-57 | after the connection drops, the presence record and the results collection are gone and presence reads answer not connected |
| `Protocol.VanishedClientGetsNoResult` | lib/server.js:84-95 | if the client is gone at the first read the task does not run; if it is gone at the second the outcome is dropped; either way nothing is pushed and the item resolves |
| `Protocol.PresenceReadsNeverReject` | lib/server.js:86 | with real presence replies a dispatch rejects only when the push fails |
| `Protocol.RoundTrip` | lib/server.js:97-108 | for a connected client and a truthy task name, the server runs the named handler on the task's data and pushes the envelope into `results/{id}`; the run's handler consumes it and calls back with the whole envelope (error or data inside); a handler for any other key ignores it |
| `Protocol.FalsyTaskNameIsDropped` | lib/server.js:77 | a task queued with a falsy name is resolved without a presence read, a handler call or a push, so the run's callback never fires |
| `Protocol.RunsDoNotCrossTalk` | lib/client.js:88-90 | the result of one run never matches the handler of a run with a different generator state |

## Left out

- Database I/O is not modelled as asynchronous. The outcomes of promises and
  callbacks (update, push, liveness reads, the handler) are method inputs.
  `child_added` notifications are calls of `OnChildAdded`, one at a time.
- The handler registry (`base`, `base-task`, `self.build`) is not part of this
  model. Each call is recorded as a `Build`, and its `(err, result)` outcome is
  an input. `UnknownTask` handling lives there and is not modelled.
- The durable queue (`firebase-queue`) is not part of this model. `Listen`
  records what the queue is constructed with. Its workers, locking, retries and
  `progress` hook are not modelled.
- `Base` plumbing (`isApp`, `is('server')`, `use(tasks())`) is not modelled, and
  neither is calling `Server`/`Client` without `new`.
- `Config` holds only `ref` and `queue`. Other configuration keys are copied
  unchanged by the source and play no role in the core.
- `RpcServer.Server.Listen`: the queue receives `queueOpts` as a value. The
  source shares the object with the queue, so a later `listen` would change the
  options of an earlier queue; that aliasing is not modelled.
- The server timestamp sentinel stays an opaque constant. The store does not
  replace it with a clock value.
- `RpcClient.Client.Connect`: the presence write and the on-disconnect
  registrations are not awaited by the source. The model applies the write and
  records the marked paths in `onDisconnect`. The store-side removal on
  disconnect is the pure function `Protocol.DropConnection`.
- `RpcClient.Client.Run`: the callback is always a function. A call without a
  callback (`.catch(undefined)`, and `cb(null, val)` throwing) is not modelled.
- `RpcClient.Client.Run` and `RpcClient.Client.Submit`: an `undefined` task
  name or data, or data holding an `undefined` field, makes the update at
  lib/client.js:85 throw synchronously, after registration and the push of the
  key. `run` then throws to its caller: no callback fires and no handler is
  installed. The model instead queues the task with the `undefined` inside; it
  installs a subscribed handler on `Written` and calls back with the error on
  `WriteFailed`.
- `RpcServer.Dispatch`: the store checks written data synchronously and throws
  on an `undefined` field. A handler that succeeds without a result therefore
  makes the push at lib/server.js:104 throw inside the presence callback, and
  that run completes with neither `resolve` nor `reject`. The model pushes the
  envelope and states one completion for this input.
- `Protocol.RoundTrip`: the store drops null and empty-object fields nested
  inside a written value, so an envelope with `data: null` or `data: {}` reaches
  the client without `data`. The model delivers the envelope as written. Only a
  null or an empty object written directly at a path is a deletion
  (`Db.Deletes`); an object whose fields are all null or empty is stored as is.
- `Db.ApplyUpdates`: a value is kept whole at the path it was written to; the
  store does not split an object into its fields. A path below a stored object
  therefore reads as absent, and a write below it leaves the object's stale
  field in place, where the real store would read and replace that field. The
  protocol never reaches such a state: the presence record is written as three
  leaves, and nothing is written below a task or an envelope.
- The store rejects illegal path characters; the model stores at any path.
  Snapshot keys are taken to be single path pieces.
- Numbers are integers. JavaScript's floating-point values and their string
  forms are not modelled.
- Push keys come from a counter rendered in decimal, not from time-ordered
  random keys. The ordering of a results collection and the initial replay of
  existing children when a handler subscribes are not modelled.
- A store read that fails makes `once('value')` never call back, which stalls
  the dispatch. This is not modelled; read errors appear only as replies.
- Concurrency between queue workers and interleaving of notifications are not
  modelled.
- index.js (a re-export) and the two example programs (credentials, timers,
  console output) are not modelled.
