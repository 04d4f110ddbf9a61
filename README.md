# fenix hub — a verified model of the server core

fenix is a chat server written in Go. Clients reach it over HTTP with Basic credentials.
They either authenticate (`/ws`) or register (`/register`), and are then upgraded to a
WebSocket connection. From then on they talk in JSON envelopes that carry a `type` tag.

A `ServerHub` keeps:
- the registry of connected `Client`s;
- a dispatch table from tag to handler;
- named callbacks;
- a `WaitGroupCounter` that tracks every background task by name.

Each `Client` runs two tasks:
- a read loop classifies incoming frames and starts the handler for the frame's tag;
- an event loop writes outgoing payloads, stamped with their tag, until the client quits.

The handlers answer with one payload each, either to the sender or broadcast to everybody:
- sending a message;
- a message history query;
- `whoami`;
- creating a yodel;
- fetching a yodel.

The broadcast task copies a broadcast payload into every registered client's outgoing
queue. On shutdown the hub closes every client and stops its own tasks.

Messages and users live in a store. The model covers the two in-process stores:
- the append-only `InMemoryDatabase`;
- the map-based `StubDatabase`. Its range query filters, sorts by timestamp and truncates.

The model is in Dafny, in these modules:

| file | module | what it holds |
|---|---|---|
| `wrappers.dfy` | `Wrappers` | `Option` |
| `ids.dfy` | `Ids` | twelve-byte object ids, their 24-digit hex form, and the hex parser |
| `wait_group.dfy` | `WaitGroups` | the tracker: `TrackerState` with `AddSpec`/`DoneSpec`, and the `WaitGroupCounter` class proved against them |
| `database_models.dfy` | `DbModels` | the `User`, `Message` and `Yodel` records |
| `in_memory_database.dfy` | `InMemoryDb` | the append-only history store |
| `database_stub.dfy` | `StubDb` | the map-based store; the range query is a loop over the key set plus an in-place insertion sort on an array |
| `websocket_models.dfy` | `WebsocketModels` | the twenty envelope kinds, with `Type`, `SetType` and `GetNonce` |
| `server.dfy` | `Server` | the `Client` and `ServerHub` classes: registries, one round of each task loop, the shutdown sweep, and `Upgrade` |
| `auth.dfy` | `Auth` | the HTTP route and credential decision |
| `handlers.dfy` | `Handlers` | the five handlers, each as a pure answer function plus a method that delivers the answer against the stub store or the yodel collection, and the registration functions |
| `runner.dfy` | `Runner` | `NewHub` and its dispatch table |

How the model represents the source:
- Channels become sequences: a send appends and a receive takes the head.
- Each task loop becomes one method per round. Which of the channels a `select` takes is a parameter.
- Everything the core cannot see is a parameter:
  - the outcome of a transport read or write;
  - a JSON decode (`None` when the frame does not decode);
  - the id the store assigns;
  - the current time;
  - the password derivation.
- A Go panic on a bad input is a precondition. This covers:
  - a negative limit;
  - `GetUser` with neither key set;
  - `GetMessage` on a missing id;
  - `Done` with the wait group already at zero;
  - the empty username a new client would be looked up by.

## Model

| member | source | states |
|---|---|---|
| Ids.Hex | src/server/server_hub.go:205 | an id's hex form always has 24 characters |
| Ids.FromHex | src/server/handlers/yodel.go:70-74 | a string parses exactly when it is 24 hex digits of either case, and byte k of the id is the value of digit pair k |
| Ids.DecodeHexBytesSpec | src/server/handlers/yodel.go:70-74 | pairwise hex decoding succeeds exactly on all-hex input, and each byte is its digit pair's value |
| Ids.HexRoundTrip | src/server/handlers/yodel.go:70-86 | parsing the hex form of an id gives the id back |
| Ids.HexInjective | src/server/server_hub.go:205 | two ids have the same hex key exactly when they are equal, so hex-keyed registries and stores never merge two ids |
| WaitGroups.AddKeepsConsistent | src/utils/wait_group.go:17-27 | with a non-negative delta, Add keeps the wait-group count between 0 and the visible counter |
| WaitGroups.DoneKeepsConsistent | src/utils/wait_group.go:31-36 | Done on a positive wait-group count keeps it between 0 and the visible counter |
| WaitGroups.AddTrackedNameOnlyBumpsCounter | src/utils/wait_group.go:18-22 | Add with a name that is already tracked moves only the visible counter; the names and the wait-group count are unchanged |
| WaitGroups.AddThenDoneOnFresh | src/utils/utils_test.go:8-35 | on a fresh tracker, Add(1, n) gives counter 1, and Add(1, n) followed by Done(n) returns to the fresh, drained state |
| WaitGroups.DuplicateAddLeavesCounterBehind | src/utils/wait_group.go:17-36 | adding one name twice and finishing it once drains the wait group but leaves the visible counter at 1 |
| WaitGroups.AddEachFreshNames | src/utils/wait_group.go:24-25 | adding n distinct untracked names raises both counts by n and tracks exactly those names |
| WaitGroups.DoneEachRemoves | src/utils/wait_group.go:31-36 | finishing n names lowers both counts by n and forgets exactly those names |
| WaitGroups.NoLeakWithDistinctNames | src/utils/wait_group.go:14-40 | when tasks with distinct names all start and then all finish, the tracker returns to its fresh state, so Wait can return; other interleavings are covered by WaitGroups.WellFormedRunEndsFresh |
| WaitGroups.AddThenDoneRestores | src/utils/wait_group.go:17-36 | finishing a task just started under an untracked name restores the tracker exactly |
| WaitGroups.StepKeepsBalanced | src/utils/wait_group.go:17-36 | a start under an untracked name or a finish under a tracked one keeps both counts equal to the number of tasks in flight |
| WaitGroups.WellFormedRunStaysBalanced | src/utils/wait_group.go:14-40 | in any interleaving of starts and finishes that keeps names unique among tasks in flight, every prefix is balanced and every finish meets a positive wait-group count |
| WaitGroups.WellFormedRunEndsFresh | src/utils/wait_group.go:14-40 | such a run from a fresh tracker that ends with no name in flight ends fresh and drained |
| WaitGroups.OverlappingReuseGoesNegative | src/utils/wait_group.go:16-36 | two overlapping tasks under one name break the callers' contract and take the wait-group count to -1 |
| WaitGroups.WaitGroupCounter.constructor | src/utils/wait_group.go:42-47 | a new tracker has counter 0, no names and a zero wait-group count |
| WaitGroups.WaitGroupCounter.Add | src/utils/wait_group.go:17-27 | the new state is AddSpec of the old one, the count invariant holds, and no error is reported |
| WaitGroups.WaitGroupCounter.Done | src/utils/wait_group.go:31-36 | the new state is DoneSpec of the old one: both counts fall by one and the name is forgotten |
| WaitGroups.WaitGroupCounter.Wait | src/utils/wait_group.go:38-40 | returns only in the drained state; blocking is replaced by requiring that state (see Left out) |
| InMemoryDb.Min | src/database/in_memory_database.go:3-8 | the result is one of the arguments and no larger than either |
| InMemoryDb.InMemoryDatabase.constructor | src/database/in_memory_database.go:14-16 | a new store has an empty history |
| InMemoryDb.InMemoryDatabase.GetMessagesBetween | src/database/in_memory_database.go:18-21 | both time bounds are ignored; the answer is the first min(history length, limit) messages in insertion order |
| InMemoryDb.InMemoryDatabase.InsertMessage | src/database/in_memory_database.go:23-25 | the message is appended at the end and earlier entries are unchanged |
| InMemoryDb.HistoryTests | src/database/in_memory_database_test.go:10-47 | for any bounds, an empty store answers nothing, and after at most 50 inserts a limit of 0 answers nothing and a limit of 50 answers exactly the inserted messages in order |
| StubDb.OrderedBoundsKeepEverything | src/database/database_stub.go:57 | the range filter is a disjunction, so with a <= b every message passes it |
| StubDb.Swap | src/database/database_stub.go:27-33 | exchanges two entries and changes nothing else |
| StubDb.SortByTimestamp | src/database/database_stub.go:63-67 | sorts the array in place by non-decreasing timestamp, keeping the same multiset of messages |
| StubDb.SortedPrefixIsEarliest | src/database/database_stub.go:68-71 | the front of a timestamp-sorted list holds messages no later than any message after it |
| StubDb.TruncateSorted | src/database/database_stub.go:63-71 | cutting the sorted matches at the limit gives min(#matches, limit) distinct matching messages, each no later than any match left out |
| StubDb.StubDatabase.constructor | src/database/database_stub.go:40-44 | a new stub store has three empty maps |
| StubDb.StubDatabase.InsertMessage | src/database/database_stub.go:46-50 | the message is stamped with the given id and stored under that id's hex form; the key set grows by exactly that key |
| StubDb.StubDatabase.CollectMatching | src/database/database_stub.go:55-62 | the Range pass collects each stored message that passes the filter exactly once |
| StubDb.StubDatabase.GetMessagesBetween | src/database/database_stub.go:52-72 | the answer is sorted by timestamp, has no repeats, holds only matching messages, has length min(#matches, limit), and is the earliest matches |
| StubDb.StubDatabase.GetMessage | src/database/database_stub.go:74-79 | copies back the stored message with the caller's id |
| StubDb.StubDatabase.DeleteMessage | src/database/database_stub.go:81-84 | removes exactly the given id's key |
| StubDb.StubDatabase.InsertUser | src/database/database_stub.go:86-91 | the user is stamped with the given id and the same record is stored under its hex id and under its username |
| StubDb.StubDatabase.GetUser | src/database/database_stub.go:93-110 | looks up by id when the id is set, else by username, never both; a hit returns the stored record, a miss returns DoesNotExist and leaves the caller's record unchanged |
| StubDb.StubDatabase.DeleteUser | src/database/database_stub.go:112-116 | removes the user's key from both maps and nothing else |
| WebsocketModels.JSONModel.SetType | src/websocket_models/identification.go:22-25 | the copy carries the envelope's own tag, and every other field is unchanged |
| WebsocketModels.JSONModel.Type | src/websocket_models/messages.go:12-14 | each kind's constant tag, which reads back to that kind (the other `Type` methods are alike) |
| WebsocketModels.JSONModel.GetNonce | src/websocket_models/identification.go:27-29 | defined for the five envelopes with a nonce accessor, and the nonce survives stamping the tag before the write |
| WebsocketModels.TagIdentifiesKind | src/websocket_models/messages.go:12-66 | reading an envelope's tag back gives its own kind, for all twenty kinds |
| WebsocketModels.TagsDistinct | src/websocket_models/yodel.go:8-39 | two envelopes share a tag exactly when they are of the same kind |
| WebsocketModels.SetTypeIdempotent | src/websocket_models/identification.go:22-29 | stamping twice equals stamping once; the tag and the nonce are unchanged by stamping |
| WebsocketModels.ChannelTagsPrefix | src/websocket_models/channels.go:14-131 | every channel envelope's tag starts with "chnl_" |
| Server.ClassifyRead | src/server/client.go:79-101 | the five read outcomes and what each does to the reply, the dispatch and the loop, each in both directions (details below) |
| Server.LoopNamesDistinct | src/server/client.go:68-111 | a client's two task names always differ, and two clients' task names coincide exactly when their users' ids do |
| Server.ClientTasksLeaveTrackerUnchanged | src/server/client.go:67-111 | a client whose task names are untracked starts both tasks and, in either exit order, finishing both restores the tracker |
| Server.Client.New | src/server/client.go:47-58 | empty queues, the client open, and the user reloaded from the hub's store by username (only the username when the store has none); the key is the user's hex id |
| Server.Client.Close | src/server/client.go:33-45 | Done only for a non-empty name, at most one quit event, then closed and out of the registry (details below) |
| Server.Client.OnClose | src/server/client.go:60-65 | always pushes a quit event, marks the client closed and reports no error |
| Server.Client.StartListenOnWebsocket | src/server/client.go:67-73 | the read task registers with the tracker under its own name |
| Server.Client.ListenOnWebsocketStep | src/server/client.go:75-102 | one read round does what ClassifyRead decides: it pushes the error payload (if any), returns the dispatch, and says whether the loop continues |
| Server.Client.ListenOnWebsocketExit | src/server/client.go:73 | leaving the read task closes the client as Close does and reports the read task's own name done |
| Server.Client.StartListenOnEventLoop | src/server/client.go:105-111 | the event task registers with the tracker under its own name |
| Server.Client.ListenOnEventLoopStep | src/server/client.go:112-132 | quit closes and stops; a payload is written stamped unless the client is closed or the write fails (details below) |
| Server.Client.ListenOnEventLoopExit | src/server/client.go:111 | leaving the event task closes the client as Close does and reports the event task's own name done |
| Server.ServerHub.constructor | src/server/server_hub.go:53-64 | empty registry, queue, handler and callback tables; the given tracker and store |
| Server.ServerHub.RegisterHandler | src/server/server_hub.go:94-96 | maps the tag to the handler, replacing an earlier one, and leaves the other entries unchanged |
| Server.ServerHub.RegisterCallback | src/server/server_hub.go:99-101 | maps the event to the callback, replacing an earlier one |
| Server.ServerHub.CallCallbackIfExists | src/server/server_hub.go:104-108 | one invocation with the given arguments exactly when a callback is registered under the name; otherwise nothing |
| Server.ServerHub.StartBroadcastLoop | src/server/server_hub.go:113-118 | the broadcast task registers under "BroadcastPayloadLoop" |
| Server.ServerHub.BroadcastStep | src/server/server_hub.go:123-129 | takes the head payload; every registered client's outgoing queue gets it exactly once; the registry is unchanged; the BroadcastPayload callback fires if registered |
| Server.ServerHub.BroadcastLoopExit | src/server/server_hub.go:131-134 | once cancelled, the broadcast task reports "BroadcastPayloadLoop" done, then fires its loop-done callback |
| Server.ServerHub.StartMainLoop | src/server/server_hub.go:145-150 | the main-event task registers under "MainEventLoop" |
| Server.ServerHub.MainLoopEventStep | src/server/server_hub.go:154-155 | an event is handed to the MainLoopEvent callback if one is registered |
| Server.ServerHub.MainLoopExit | src/server/server_hub.go:157-160 | once cancelled, the main-event task reports "MainEventLoop" done, then fires its loop-done callback |
| Server.ServerHub.RunStart | src/server/server_hub.go:170-177 | Run registers the broadcast task, the main-event task and itself, in that order |
| Server.ServerHub.RequestShutdown | src/server/server_hub.go:179 | Shutdown cancels the hub context that Run waits on |
| Server.ServerHub.CloseAllClients | src/server/server_hub.go:180-185 | every registered client ends up closed with its transport closed; each gets one quit event if it was still open; the registry ends up empty; the tracker is untouched |
| Server.ServerHub.RunShutdownSweep | src/server/server_hub.go:179-190 | the sweep closes every client as above, cancels both loops, and reports only "ServerHub_Run" done |
| Server.ServerHub.Upgrade | src/server/server_hub.go:194-206 | a failed upgrade changes nothing, whatever the username; a successful one stores a fresh open client for the user under its hex key, replacing any earlier one |
| Auth.FirstMatch | src/server/database_models.go:82-83 | the result, if any, is a stored document satisfying the query; there is none exactly when no stored document does |
| Auth.FindUser | src/server/database_models.go:68-84 | queries by id when the id is set, else by username, and panics with neither; a miss means that no stored user matches the key used |
| Auth.HandleRequest | src/server/server_hub.go:229-281 | route, missing-credential statuses, and when a user is inserted and with what (details below) |
| Auth.WsUpgradeIffPasswordMatches | src/server/server_hub.go:231-248 | /ws upgrades exactly when the username is non-empty and the first stored user of that name has a digest equal to the derivation of the given password with that user's salt; an unknown user is refused with 401; an empty username panics |
| Auth.RegisterChecksOnlyTheFreshId | src/server/server_hub.go:249-277 | /register refuses with 401 exactly when a stored user already has the fresh id; otherwise it stores the new user, even under a username that is already taken |
| Auth.RegisterInsertFailureStillUpgrades | src/server/server_hub.go:271-277 | a failed insert writes 500 and the upgrade is still attempted |
| Auth.DuplicateUsernameIsRegistered | src/server/server_hub.go:256-264 | a concrete store holding "alice" accepts a second registration of "alice" |
| Handlers.Emit | src/server/handlers/message.go:58-64 | a reply goes to the sender's outgoing queue and a broadcast to the hub's broadcast queue, nothing else |
| Handlers.StoredMessageMatchesBroadcast | src/server/handlers/message.go:38-64 | for a valid, stored message the record inserted and the broadcast agree: same text and time, the broadcast's id and author id parse back to the stored id and author id, same author name |
| Handlers.SendMessageEffect | src/server/handlers/message.go:21-65 | the ordered error chain, and exactly when and with what contents a broadcast happens (details below) |
| Handlers.HandleSendMessage | src/server/handlers/message.go:21-65 | the store gains the message exactly when it is valid, and a broadcast's id locates it in the store (details below) |
| Handlers.MessageHistoryEffect | src/server/handlers/message.go:67-86 | always one reply: JSONDecodeError, DatabaseError, or the request with only its message list replaced by the query result |
| Handlers.HandleMessageHistory | src/server/handlers/message.go:67-86 | the sender gets exactly one payload: the request with its tag, nonce and bounds, holding the earliest min(#matching, 50) stored matches, each once, sorted by timestamp |
| Handlers.WhoAmIReply | src/server/handlers/identification.go:17-25 | the reply echoes the request's nonce (empty when decoding failed) and carries the sender's own username and an id that parses back to the sender's id |
| Handlers.HandleWhoAmI | src/server/handlers/identification.go:17-25 | exactly that reply is appended to the sender's queue and nothing else changes |
| Handlers.PendingYodel | src/server/handlers/yodel.go:39-42 | the record to insert has the requested name, no id yet, and an owner that parses back to the sender's id |
| Handlers.YodelCreateEffect | src/server/handlers/yodel.go:22-56 | the ordered error chain, and the stored id, name and owner on success (details below) |
| Handlers.YodelGetEffect | src/server/handlers/yodel.go:58-87 | the ordered error chain, and the id and name of the stored yodel with an empty owner (details below) |
| Handlers.CreateThenGet | src/server/handlers/yodel.go:22-87 | fetching the id a successful create returned answers with the created yodel minus its owner |
| Handlers.HandleYodelCreate | src/server/handlers/yodel.go:22-56 | the sender gets exactly the create answer; the collection gains the owned, named yodel under the assigned id exactly when the request decodes, names it and the insert succeeds, and a get with the answered id then finds it |
| Handlers.HandleYodelGet | src/server/handlers/yodel.go:58-87 | the sender gets exactly the get answer for the collection as it stands, which is left unchanged |
| Handlers.NewMessageHandler | src/server/handlers/message.go:16-19 | registers send under "msg_send" and history under "msg_history" |
| Handlers.NewIdentificationHandler | src/server/handlers/identification.go:13-15 | registers whoami under "whoami" |
| Handlers.NewYodelHandler | src/server/handlers/yodel.go:17-20 | registers create and get under the tags of the YodelCreate and YodelGet envelopes, "yodel_create" and "yodel_get" |
| Runner.DispatchTable | src/server/runner/runner.go:17-24 | the table has exactly the five keys msg_send, msg_history, whoami, yodel_create and yodel_get |
| Runner.DispatchMatchesEnvelopes | src/server/runner/runner.go:22-24 | each key is the tag of the request envelope its handler decodes, and no two keys share a handler |
| Runner.NewHub | src/server/runner/runner.go:13-30 | a fresh hub: empty registry, the given tracker and store, the dispatch table above, and the context set before Run |

Details of the longer rows:

- **Server.ClassifyRead.**
  - A close error stops the loop with nothing sent.
  - Any other read error sends one BadFormat error and stops.
  - A frame that is not JSON sends BadFormat "Malformed JSON" and stops.
  - A frame with a known tag is dispatched to its handler and the loop continues.
  - An unknown tag is ignored and the loop continues.
  - Each of these holds in both directions.
- **Server.Client.Close.**
  - The tracker gets Done(name) exactly when the name is non-empty.
  - A quit event is pushed only if the client was still open, so repeated closes push at most one.
  - Afterwards the client is closed, its transport is closed, and it is out of the registry.
- **Server.Client.ListenOnEventLoopStep.**
  - A quit event closes the client and stops the loop; other events are ignored.
  - A payload that arrives once the client is closed stops the loop unwritten.
  - Otherwise the payload is written stamped with its tag.
  - A failed write closes the client and stops the loop.
- **Auth.HandleRequest.**
  - Paths other than /ws and /register do nothing.
  - Without credentials, /ws gives 401 and /register gives 400.
  - An upgrade happens only with credentials.
  - A user is inserted only by /register after a successful insert. The inserted user has the fresh id, the username, the salt, and the password derived with that salt.
- **Handlers.SendMessageEffect.** Errors are checked in this order: JSONDecodeError, MessageEmpty ("Cannot send an empty message!"), DatabaseError. There is a broadcast exactly when the message decodes, is non-empty and is stored. The broadcast carries:
  - the text and the time;
  - the sender's hex id and username as author;
  - an id that parses back to the stored id;
  - an empty nonce.
- **Handlers.HandleSendMessage.** The stub store gains the message exactly when the message decodes and is non-empty. The answer goes to the right queue. A broadcast's message id is the store key of a message with the same text and time.
- **Handlers.YodelCreateEffect.** Errors are checked in this order: JSONDecodeError, YodelNameEmpty ("Cannot create a yodel with no name!"), DatabaseError. On success the reply carries the stored id, the name, and an owner that parses back to the sender's id.
- **Handlers.YodelGetEffect.**
  - Errors are checked in this order: JSONDecodeError, then MissingIDError for an empty id (before any parsing), then IDFormattingError, then YodelDoesntExistError.
  - A yodel is returned exactly when the id parses and names a stored yodel.
  - The answer has that yodel's id and name and an empty owner.

## Where the code and the design disagree

The model follows the code in each case:

- `Add` is not idempotent. The visible counter grows even for a name that is already tracked (`WaitGroups.DuplicateAddLeavesCounterBehind`).
- The tracker asks that a name be unique (`src/utils/wait_group.go:16`), and its callers rely on that only among tasks in flight: a name may be reused once its task is done (`WaitGroups.WellFormedRunStaysBalanced`). A user who connects twice at once gets two clients whose tasks share names (`Server.LoopNamesDistinct`). Their second finish would take the wait group below zero, which Go answers with a panic (`WaitGroups.OverlappingReuseGoesNegative`). The model keeps `Done`'s precondition of a positive count, so it covers only well-formed runs.
- `/register` does not refuse an existing username. It sets a fresh id before `FindUser`, so the lookup is by that id and never by username (`Auth.RegisterChecksOnlyTheFreshId`, `Auth.DuplicateUsernameIsRegistered`).
- Status codes: a missing Basic credential on `/ws` is 401; on `/register` it is 400; an existing id gives 401; a failed insert gives 500, followed by an upgrade. Tests in the repository that expect 403, 404 or 409 belong to another version of the entry point.
- The empty-message error kind is `MessageEmpty`, as `src/server/handlers/message.go:33` emits it. A test in the repository expects `message_empty`.
- The stub store's range filter is `timestamp >= a || timestamp <= b`. It is a disjunction, not an interval (`StubDb.OrderedBoundsKeepEverything`).
- The in-memory store ignores both time bounds. Tests in `src/database/tests/` expect time filtering and newest-first order; they belong to another version.

## Left out

- Concurrency: goroutines, blocking on unbuffered channels, the choice a `select` makes, context cancellation, and `sync.Map` races. Each loop round is one sequential step, and freedom from deadlock or leaks is not claimed.
- The transport: the WebSocket handshake and framing, and HTTP serving (`Serve`). The outcome of a read or write, the upgrade's success, and the request's Basic credentials are inputs.
- Cryptography: PBKDF2 with SHA-512/256 is the `derive` parameter, and the constant-time compare is byte-sequence equality. The random salt is a parameter.
- JSON encoding and decoding: a decode result is an input. `Handlers.WhoAmIReply` treats every failed decode as an empty request. Go keeps fields decoded before the error, so a partly decoded nonce would be echoed there.
- Object id generation and time: a fresh id and the current time are parameters. `Ids` models only the hex form and the hex parser the code relies on; the ObjectID library itself is not part of this model.
- MongoDB: the document store behind `src/server/database_models.go` and `src/database/database.go`. The users collection in `Auth` is a sequence queried for its first match. The yodel collection (`Handlers.YodelCollection`) is a map from id to record; whether the insert succeeds and which id it assigns are inputs. The Mongo `InsertYodel` reads the inserted id before it checks the error (`src/database/database.go:58-61`); the model treats a failed insert as a plain error.
- `Server.Client.New`, `Server.ServerHub.Upgrade`, `Handlers.HandleMessageHistory`: the hub runs on the stub store, which does not match the Go `database.Database` interface. Its `GetMessagesBetween` returns values rather than pointers, and it has no `InsertYodel`, `GetYodel` or `ClearDB`; the yodel handlers therefore take the yodel collection as a separate parameter. Against Mongo, `GetUser` with an empty username answers with an error instead of panicking (`src/database/database.go:148-150`), so the non-empty-username preconditions (in `Upgrade`, only once the upgrade has succeeded) hold only for the stub. Mongo's history query is an interval and comes back newest first (`src/database/database.go:95-103`). The stub stores pointers and the model stores values; no stored record is changed after insertion, so no aliasing is lost.
- The older `NewHub` in `src/server/server_hub.go:53-91`, which reads an environment file and connects to MongoDB; the hub is built by `Runner.NewHub`.
- `src/server/server_hub.go` is an older hub than `src/server/client.go`. Its registry stores clients under `UserID.Hex()` (line 205), while `Close` deletes the raw `UserID` (`src/server/client.go:42`). The model uses one key, the user's hex id, for both.
- `Server.Client.Close`: the removal under the same key that `Upgrade` uses is the model's choice. Literally, the two keys differ and the entry would stay.
- `Server.Client.ListenOnWebsocketStep`: the handler is started in its own task. The model returns the `Dispatch` instead of running it; the handler methods in `Handlers` are run separately.
- `Server.ServerHub.CallCallbackIfExists`: callbacks are identified by the number they were registered as, and each call is recorded; what a callback does is not modelled.
- `StubDb.StubDatabase.GetMessagesBetween`: it does not state the stable sort's order among equal timestamps. The input order comes from map iteration, which is unspecified.
- `WaitGroups.WaitGroupCounter.Wait`: blocking is not modelled. The method requires the drained state it would wait for.
- `WebsocketModels.JSONModel.GetNonce` exists only for the identification and message envelopes, as in the source. The other kinds have no nonce accessor.
- The single-use ticket handshake appears in no file of this model.
- Logging, `main.go`, the gRPC stream plumbing, test helpers, and the superseded handler and envelope snapshots (`src/server/messages.go`, `src/models/`, `src/handlers/messages.go`, `src/server/handlers.go`).
- Integer widths: timestamps and limits are the source's 64-bit integers. No arithmetic on them can overflow here, so they are unbounded integers.
