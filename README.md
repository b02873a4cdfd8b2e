# Presence-and-request broker of agent-chat-node, in Dafny

The chat server in `index.js` puts website visitors ("customers") in touch
with support staff ("agents"). Its broker keeps two presence lists of user
records in Redis, under the keys `agent` and `customer`. For each customer it
also keeps a request ledger: a Redis list under `<socketId>reqs` naming the
agents already asked on that customer's behalf. The broker pushes socket.io
events to the sockets that are currently connected.

The model is one object, `ChatBroker.Broker`, with four fields:

- `store`: the presence lists, by key. `addUser` files a record under the
  record's own `type` field, so any key can appear.
- `ledgers`: the request ledgers, by customer socket id.
- `live`: the socket ids with an open connection, i.e. the ids that socket.io
  holds as connected sockets. The source tests this with a property lookup
  on `io.sockets.sockets`. The model assumes socket.io 2.x, where that is a
  plain object keyed by socket id (see "## Left out").
- `log`: every event the broker emits, in order. Each event has a target, an
  event name and a payload.

Each HTTP or socket handler is one method, and each method runs as one atomic
step. A missing key reads as the empty list, as the `|| []` in the source
does. The exception is `getAgents`/`getCustomers`, which have no `|| []`: they
return `None` for a key that was never written.

Modules:

- `Presence` (`presence.dfy`): the user record and the pure list operations.
  These are `some` (`HasSocket`), `filter` (`Filter`, with the tests `IsLive` and `IsNot`)
  and `extractSockets` (`SocketIds`). It also holds the lemmas that filtering
  keeps order and keeps socket ids unique.
- `Ledger` (`ledger.dfy`): how `sendRequest` picks an agent. `FirstUntried`
  is the first agent, in presence order, that is not in the ledger.
  `RecordedAsWritten` is the ledger after one request as the handler runs
  it. `SuccessiveRequestsAsWritten` and `StallAtThirdAgent` show that
  repeated requests reach only the first two agents. `Recorded` is the
  evidently intended ledger, and `SuccessiveRequests` shows that under it
  repeated requests walk all the agents in presence order (see
  "## Findings").
- `Events` (`events.dfy`): the event record, the event names and payload
  texts, what `notify` emits (`Notification`), and runs of `chatRequestError`
  events (`Errors`).
- `ChatBroker` (`broker.dfy`): the `Broker` class. Its invariant `Valid()`
  says three things. Every record sits under its own `type`. No list has the
  same socket id twice. No ledger has the same agent twice. Every handler
  keeps this invariant.
- `Scenarios` (`scenarios.dfy`): client sessions built only from the
  handlers' contracts. One has two agents and repeated requests. One has
  three agents, where the third request stalls. One asks an agent that has no
  open socket. One has departures.

Emits made with `io.to(id).emit` are logged whether or not `id` is live,
because the code does not check. Only `notify` checks liveness first.
In the source, socket.io drops a socket from `io.sockets.sockets` before it
runs the `disconnect` handler. `Disconnect` models this, so it removes the
socket from `live` as well.

The code is a simpler broker than a full chat service, and the model follows
the code:

- The code has no Pending/Accepted/Cancelled state.
- `acceptRequest` only emits `greetings` to the customer.
- Nothing moves on to the next agent when an agent disconnects.
- The event names are `notification`, `chatRequestError`, `greetings` and
  `hello`.
- The ledger is newest-first (LPUSH).
- The ledger key is `<socketId>reqs`.
- `sendRequest` emits one `chatRequestError` for every already-asked agent it
  skips, and sends an HTTP response with each one. In Express the second
  response of one request throws, because `res.send` sets the `Content-Type`
  header after the headers were sent. The handler's `catch` (index.js:181-183)
  swallows the error and the request ends. So a request skips at most two
  agents: it emits at most two errors, and it asks and records an agent only
  if at most one already-asked agent comes before it.
- `sendRequest` records an agent even when the notification was dropped
  because that agent's socket is not live.
- `joinChat` reports success even when the user was already registered,
  because it never awaits `addUser`.

## Model

| member | source | states |
|---|---|---|
| `Presence.Filter` | index.js:211-216 | the result holds exactly the entries that pass the test, and is no longer than the input |
| `Presence.FilterKeepsOrder` | index.js:87-107 | a filtered list is a subsequence of the original, so the surviving entries keep their relative order |
| `Presence.FilterKeepsAll` | index.js:209-218 | filtering by a test every entry passes returns the list unchanged, e.g. a disconnect of a socket that has no record |
| `Presence.FilterKeepsDistinct` | index.js:87-107 | filtering a list with pairwise-distinct socket ids keeps them distinct |
| `Presence.AppendKeepsDistinct` | index.js:77-83 | pushing a record whose socket id is not listed keeps the socket ids pairwise distinct |
| `Presence.SocketIds` | index.js:145-151 | the ids list has one entry per record, and entry i is the socket id of record i |
| `Ledger.FirstUntried` | index.js:168-174 | the index is at most the number of agents, every earlier agent is already in the ledger, and the agent at the index (if any) is not |
| `Ledger.Recorded` | index.js:168-174 | the evidently intended ledger after one request: either the ledger is unchanged, or it gains exactly one agent at the front and that agent is listed and was not in the ledger. It is unchanged exactly when every agent was already asked. A ledger without duplicates stays without duplicates |
| `Ledger.RecordedAsWritten` | index.js:168-183 | the ledger after one request as the handler runs: it is either unchanged or equal to the intended `Recorded`. It changes exactly when one of the first two agents is not yet in the ledger. A ledger without duplicates stays without duplicates |
| `Ledger.DistinctSocketIds` | index.js:145-151 | records with distinct socket ids give a duplicate-free id list |
| `Ledger.TriedMembers` | index.js:172 | the ledger built by m successive LPUSHes holds exactly the first m agent ids |
| `Ledger.SuccessiveRequests` | index.js:155-180 | under the intended `Recorded`, with an unchanging agent list, the (m+1)-th request records agent m and the ledger lists the first m+1 agents, newest first. Once all agents are recorded, a request records nothing |
| `Ledger.SuccessiveRequestsAsWritten` | index.js:155-183 | as the handler runs, with an unchanging agent list, the (m+1)-th request records agent m only for m < 2. After that no request records anything |
| `Ledger.StallAtThirdAgent` | index.js:175-183 | with at least three distinct agents and the first two asked, the handler records nothing, while the intended ledger would gain the third agent |
| `Events.Notification` | index.js:110-114 | there is one 'notification' event to the target with the given payload if and only if the target is live, otherwise no event |
| `Events.Errors` | index.js:175-177 | n events, each a 'chatRequestError' to the customer with the fixed text |
| `ChatBroker.StoreUpdate` | index.js:83 | writing a list back under its own key keeps every list of the store filed under its key and free of repeated socket ids |
| `ChatBroker.StoredAgentsStall` | index.js:158-183 | for every valid store with at least three agents, the agent ids are distinct, and after two requests the handler records nothing more while the intended ledger would gain the third agent |
| `ChatBroker.FilterFiled` | index.js:211-218 | a filtered presence list is still filed under its key with distinct socket ids |
| `ChatBroker.Broker.constructor` | index.js:10 | a fresh, empty store: no lists, no ledgers, no open sockets, no events |
| `ChatBroker.Broker.Connect` | index.js:204-207 | the socket becomes live and receives 'hello'; the store and the ledgers do not change |
| `ChatBroker.Broker.AddUser` | index.js:75-85 | returns false and leaves the store unchanged if the socket id is already listed under the record's type. Otherwise returns true and appends the record at the end of that list, with nothing else changing. The invariant is kept |
| `ChatBroker.Broker.JoinChat` | index.js:116-125 | always reports success; the store changes exactly as AddUser changes it |
| `ChatBroker.Broker.GetAgents` | index.js:127-131 | the stored agent list, or None if the key was never written |
| `ChatBroker.Broker.GetCustomers` | index.js:133-136 | the stored customer list, or None if the key was never written |
| `ChatBroker.Broker.KeepLive` | index.js:89-95 | the loop result is the list of those records whose socket is live, in their original order |
| `ChatBroker.Broker.ClearOffline` | index.js:87-108 | the 'agent' and 'customer' lists become exactly their live entries, in order; ledgers, live set and log are unchanged |
| `ChatBroker.Broker.Notify` | index.js:110-114 | the log grows by the notification if and only if the socket is live; nothing else changes and the invariant is kept |
| `ChatBroker.Broker.AcceptRequest` | index.js:138-143 | exactly one 'greetings' event to the customer, with the agent as payload; no state changes and the invariant is kept |
| `ChatBroker.Broker.SendRequest` | index.js:155-184 | with no agents, one error to the customer and the ledgers unchanged. Otherwise, one error per already-asked agent before the first untried one, but at most two, since the second HTTP response throws and ends the handler. If at most one agent was skipped, the first untried agent is notified when live and is pushed on the customer's ledger even when not live. Otherwise nothing is recorded. The new ledger is `RecordedAsWritten` of the old one. Other ledgers, the store and the live set are unchanged. The ledger invariant (no duplicates) is kept |
| `ChatBroker.Broker.Disconnect` | index.js:209-223 | every record with the socket's id leaves both lists and the rest keep their order. The socket's own ledger is deleted, and every other ledger, including entries naming the socket, is unchanged. The socket is no longer live |

## Findings

| source | as written | input that shows it | evidently intended | confidence | as-written member | corrected member |
|---|---|---|---|---|---|---|
| index.js:168-183 | each already-asked agent triggers `res.send`. The second call throws, the `catch` ends the handler, and no later agent is asked | agents `a1`, `a2`, `a3`, all live, and a customer ledger of `["a2", "a1"]`: two errors, no notification, ledger unchanged | skip every already-asked agent, then notify and record `a3`, giving ledger `["a3", "a2", "a1"]` | not executed | `Ledger.StallAtThirdAgent` (about `Ledger.RecordedAsWritten`, which `ChatBroker.Broker.SendRequest` follows) | `Ledger.SuccessiveRequests` (about `Ledger.Recorded`) |

## Left out

- The GitHub repository-count endpoint and its cache (`setResponse`, `getRepos`, `cache`): a network fetch that has nothing to do with the broker.
- Express routing, body parsing, CORS, static files, ports and `listen`. The bodies of HTTP responses are not modelled. Of the repeated `res.send` in the `sendRequest` loop, only the error that the second call throws is modelled (see above).
- JSON serialisation in `redisSetData`/`redisGetData`: the store holds typed records directly. A key holding a non-list value is not modelled.
- Redis is a single key space, so a ledger key `<socketId>reqs` could in principle clash with a presence key. The model keeps ledgers and presence lists in separate maps.
- Asynchrony: un-awaited writes and interleaving between handlers. Every handler is one atomic step.
- The body fields of a user record other than `type` and `socketId` are an unstructured map. A record without a `socketId` is not modelled.
- `User.socketId` and `LedgersValid`: socket ids are strings. The `/join` body can give a JSON number instead, such as `{"type":"agent","socketId":5}`. That number never equals the strings that LRANGE returns, so `sentRequests.includes` never finds it, and every `sendRequest` asks that agent again and pushes it again. The ledger then repeats an agent and no `chatRequestError` is emitted for it. Non-string ids are not modelled, and the no-duplicate ledger invariant holds only for string ids.
- The `agent` that `acceptRequest` forwards comes from the request body and can be any JSON value; the model types it as a string.
- The `name` in `sendRequest` is a string; the text `undefined` for a missing name is not modelled.
- `console.log` output. The try/catch in `sendRequest` is modelled only for the error thrown by the second HTTP response. Store failures it would also catch are not modelled.
- socket.io versions from 3.x on: `index.js` does not fix the version, and the model assumes 2.x. From 3.x on, `io.sockets.sockets` is a `Map`, so the property lookup is always `undefined`: `notify` would never emit and `clearOffline` would empty both lists. That behaviour is not modelled.
- Liveness is modelled as membership in `live`. The source checks that `io.sockets.sockets[socketId] != undefined`. Under the assumed socket.io 2.x this is a lookup on a plain object, which also finds inherited members. So a record whose socket id names an `Object.prototype` member (`constructor`, `toString`, `__proto__`, ...) counts as live there, is kept by `clearOffline` and is notified. Such ids are not modelled.
- The startup call `clearOffline()` against whatever Redis held before: the constructor starts from an empty store, and `ClearOffline` can be called at any time.
