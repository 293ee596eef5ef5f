# Rusty chat server and to-do list: a Dafny model

This project models two pieces of the Rusty repository and proves what they promise.

**The chat server's routing engine** (`chat/`). The server keeps four shared maps in `AppState`:

- `users`: username → account
- `sessions`: login token → username
- `connections`: username → live WebSocket session
- `messages`: username → transcript lines

A `ChatSession` actor joins and leaves the `connections` registry and tells the other sessions. It decodes inbound frames and routes them:

- public text is fanned out to every connection and recorded for every account;
- private text and file offers go to one connected user, with an echo to the sender and a line in both transcripts;
- malformed frames, unknown types, self-addressed messages, absent recipients and empty file sends each get one error frame.

The HTTP handlers create accounts, log in, and answer the history and online-users queries.

The model runs these steps one at a time. `ChatState.AppState` is a class whose fields are the four maps plus two more:

- `outbox`: the frames written so far to each connection (`do_send` and `ctx.text` append to it);
- `uploads`: the `uploads/` directory.

The session callbacks `started`, `stopped` and `handle`, the two routers `handle_text_message` and `handle_file_message`, and the `signup` and `login` handlers are methods of `ChatWebSocket.ChatSession` or `ChatHandlers`. Each is proved equal to a pure step function on a `World` snapshot, and the routing rules are lemmas about those step functions. The four actor-message handlers (chat/src/websocket.rs:73-112) are the function `ChatWebSocket.Render`: a `do_send` appends the frame the receiving session's handler writes. The two queries `get_history` and `get_online_users` read `AppState` directly, as a function and as a method without `modifies`. Message texts and error strings are the ones in the source.

**The to-do list's task operations** (`todo_list/`). These are the add, toggle, edit, delete and import callbacks on the task vector and its `next_id` counter, plus the two forms' non-empty guards. `TodoList.TodoApp` holds the two `use_state` cells. Toggle and edit find the first task with the id by a scan (`FindTask`). They are proved against recursive reference definitions (`Toggled`, `Edited`). Delete is the filter `Deleted`. Import recomputes the counter with `MaxId`.

Some of the code's behaviour differs from what a reader might expect. The model keeps it as written:

- The error texts are the code's: "Невідомий формат повідомлення", "Cannot send messages to yourself.", "Користувач не знайдений", and so on.
- A private file sent to oneself is stored before the self-check rejects it (chat/src/websocket.rs:219-222 run before line 237).
- `stopped` removes the username whichever session registered it, so an orphaned older session that stops unregisters its newer replacement.

## Model

| member | source | states |
|---|---|---|
| ChatState.AppState.constructor | chat/src/main.rs:25-30 | all four maps start empty, with no frames and no uploads, and the state is consistent |
| ChatState.RecordEffect | chat/src/websocket.rs:164-165 | `entry(u).or_insert(..).push(line)` creates the transcript if it is absent and gives `u` exactly one more line, at the end; no other transcript changes |
| ChatState.RecordAllEffect | chat/src/websocket.rs:161-167 | recording for a set of names gives each of them exactly one more line and everyone else none; the key set becomes old keys ∪ names |
| ChatState.PushEffect | chat/src/websocket.rs:76-78 | a `ctx.text` to a connection gives it exactly one more frame, last, and every other connection none |
| ChatState.DeliverAllEffect | chat/src/websocket.rs:169-172 | a fan-out gives every target exactly one more frame, last, and every non-target none |
| ChatState.AppState.SendEach | chat/src/websocket.rs:170-172 | the `do_send` loop over `connections` writes the frame once to each address registered under a name outside `skip`, using the registry invariant that no address has two names |
| ChatState.AppState.RecordEach | chat/src/websocket.rs:161-167 | the loop over `users` leaves `messages` equal to one `Record` of the line for every account |
| ChatWebSocket.JoinStep | chat/src/websocket.rs:39-55 | joining sets `connections[u] := c` and changes no account, session, transcript or upload |
| ChatWebSocket.LeaveStep | chat/src/websocket.rs:57-70 | leaving removes `u` from `connections` and changes no account, session, transcript or upload |
| ChatWebSocket.TextStep | chat/src/websocket.rs:150-212 | routing text never changes accounts, sessions, the registry or uploads |
| ChatWebSocket.FileStep | chat/src/websocket.rs:214-274 | routing a file never changes accounts, sessions or the registry |
| ChatWebSocket.DispatchStep | chat/src/websocket.rs:115-146 | no inbound frame changes accounts, sessions or the registry |
| ChatWebSocket.ChatSession.constructor | chat/src/main.rs:59-62 | a session is bound to one username, its own address and the shared state |
| ChatWebSocket.ChatSession.Started | chat/src/websocket.rs:39-55 | performs `JoinStep` in place and keeps the state consistent (one address per name, accounts keyed by name, sessions naming accounts) |
| ChatWebSocket.ChatSession.Stopped | chat/src/websocket.rs:57-70 | performs `LeaveStep` in place and keeps the state consistent |
| ChatWebSocket.ChatSession.Handle | chat/src/websocket.rs:115-146 | performs `DispatchStep` in place: parse failure and unknown type answer with an error; "file" and "message" go to their routers |
| ChatWebSocket.ChatSession.HandleTextMessage | chat/src/websocket.rs:150-212 | performs `TextStep` in place and keeps the state consistent |
| ChatWebSocket.ChatSession.HandleFileMessage | chat/src/websocket.rs:214-274 | performs `FileStep` in place, storing the payload under the file id first |
| ChatWebSocket.ChatSession.SendPrivate | chat/src/websocket.rs:186-203 | the recipient's session gets the frame as a `PrivateMessage`, the sender the bare frame, then the sender's and the recipient's transcripts get one line each |
| ChatWebSocketLemmas.JoinNotifiesOthers | chat/src/websocket.rs:39-55 | (with the `UserConnected` handler, lines 90-100) joining registers `u` at `c` and silently replaces an earlier address, which is then registered nowhere. Every other registered connection gets exactly one `user_connected(u)`, the joiner none. The registry keeps one address per name |
| ChatWebSocketLemmas.LeaveNotifiesRemaining | chat/src/websocket.rs:57-70 | (with the `UserDisconnected` handler, lines 102-112) leaving removes the name whichever address it had, and is a no-op on the registry when it is absent. Every connection still registered gets exactly one `user_disconnected(u)`, the rest none. Transcripts are unchanged |
| ChatWebSocketLemmas.LeaveIdempotent | chat/src/websocket.rs:59-62 | leaving twice leaves the same registry as leaving once |
| ChatWebSocketLemmas.RegistryAfterReplay | chat/src/websocket.rs:39-70 | after any sequence of joins and leaves, a name is registered exactly when its last event was a join, and at that join's address |
| ChatWebSocketLemmas.RejectedFrame | chat/src/websocket.rs:119-141 | an unparsable frame ("Невідомий формат повідомлення") or a type other than "file"/"message" ("Невідомий тип повідомлення") gives the sender exactly one error frame, others nothing; registry, transcripts and uploads are unchanged |
| ChatWebSocketLemmas.PublicTextFanOut | chat/src/websocket.rs:152-172 | (with the `BroadcastMessage` handler, lines 73-79, which writes the frame unchanged) missing content counts as "". Every name in `users` gains exactly one line "<u>: <content>" (the transcript is created if absent), and names outside `users` gain none. Every registered connection, the sender's included, gets the public frame exactly once, and others nothing |
| ChatWebSocketLemmas.PrivateTextRejected | chat/src/websocket.rs:174-210 | private text to oneself ("Cannot send messages to yourself.") or to a name with no connection ("Користувач не знайдений") gives the sender one error frame; no one else gets a frame and no transcript changes |
| ChatWebSocketLemmas.PrivateTextDelivered | chat/src/websocket.rs:183-203 | (with the `PrivateMessage` handler, lines 81-88, which prefixes the sender) private text to another connected user: the recipient gets exactly the prefixed private frame, the sender exactly the bare echo, nobody else anything. The sender gains "До <to>: <content>", the recipient "Від <u>: <content>", nobody else a line |
| ChatWebSocketLemmas.FileWithoutData | chat/src/websocket.rs:267-273 | a file message without data gives one "Не вибрано жодного файлу" error and changes neither transcripts nor uploads |
| ChatWebSocketLemmas.PublicFileBroadcast | chat/src/websocket.rs:215-235 | (with the `BroadcastMessage` handler, lines 73-79) a public file is stored under its id; every registered connection gets the metadata frame exactly once, and no transcript changes |
| ChatWebSocketLemmas.PrivateFileRejected | chat/src/websocket.rs:219-265 | a private file to oneself or to an absent user gives the sender one error and writes no transcript line, although the payload has already been stored |
| ChatWebSocketLemmas.PrivateFileDelivered | chat/src/websocket.rs:246-258 | (with the `PrivateMessage` handler, lines 81-88) a private file to another connected user: the metadata is delivered prefixed to the recipient and echoed bare to the sender. The lines are "До <r>: Надіслав файл '<f>'" and "Від <s>: Отримано файл '<f>'" |
| ChatWebSocketLemmas.DispatchAppendOnly | chat/src/websocket.rs:115-146 | handling any frame only appends: every outbox and every transcript before is a prefix of the one after |
| ChatWebSocketLemmas.JoinLeaveAppendOnly | chat/src/websocket.rs:39-70 | joining and leaving only append to outboxes and never touch transcripts |
| ChatHandlers.SignupOutcome | chat/src/handlers.rs:7-22 | a taken username gives 400 "Такий користувач вже існує" with `users` unchanged. A fresh one gives success and adds exactly that username → account. These are two if-and-only-ifs, and no other map changes |
| ChatHandlers.LoginOutcome | chat/src/handlers.rs:24-44 | a token is issued if and only if the username exists with that password, and then `sessions` gains exactly token → username. Otherwise the reply is 401 with `sessions` unchanged. Nothing else changes |
| ChatHandlers.SignupKeepsConsistent | chat/src/handlers.rs:7-22 | signup stores the new account under its own username and removes no account, so accounts stay keyed by name and every session still names an existing account |
| ChatHandlers.LoginKeepsConsistent | chat/src/handlers.rs:24-44 | login issues a token only for an existing account, so every session names an existing account |
| ChatHandlers.Signup | chat/src/handlers.rs:7-22 | performs `SignupStep` in place and keeps the state consistent |
| ChatHandlers.Login | chat/src/handlers.rs:24-44 | performs `LoginStep` in place and keeps the state consistent |
| ChatHandlers.GetHistory | chat/src/handlers.rs:46-68 | unknown token gives 401 "Invalid token". A known token gives that user's transcript in append order, or an empty list when there is none. It reads state only |
| ChatHandlers.GetOnlineUsers | chat/src/handlers.rs:70-86 | unknown token gives 401. A known token gives a list holding every registered name exactly once (membership in both directions, no duplicates). It changes nothing |
| ChatScenarios.SignedUp | chat/src/handlers.rs:7-22 | two signups from an empty server leave exactly the accounts "alice" and "bob" and nothing else |
| ChatScenarios.AliceOnline | chat/src/websocket.rs:39-55 | after two signups, alice starts a session at address 1: she is the only registered name and, with nobody else online, no connection receives a frame |
| ChatScenarios.AliceThenBob | chat/src/websocket.rs:39-55 | when alice then bob connect, alice is told once that bob connected, and bob is told nothing |
| ChatScenarios.PublicHello | chat/src/websocket.rs:152-172 | bob's public "hi" puts "bob: hi" in both transcripts and a `public` frame from bob on both connections |
| ChatScenarios.PrivateToAbsentUser | chat/src/websocket.rs:204-210 | alice writing to "carol", who has no connection, gets exactly one "Користувач не знайдений" error, and no transcript exists afterwards |
| TodoList.FirstIndex | todo_list/src/main.rs:68 | the index the `find` lands on: every earlier task has another id, and the entry there (if any) has the id |
| TodoList.FindTask | todo_list/src/main.rs:68 | the scan returns that first matching index, or the length when no task matches |
| TodoList.Deleted | todo_list/src/main.rs:78 | the filtered list is no longer than the input and holds only input tasks whose id differs |
| TodoList.MaxId | todo_list/src/main.rs:132 | the result bounds every id and is one of them, or is 0 for an empty list |
| TodoList.ToggledAt | todo_list/src/main.rs:65-72 | toggling flips `completed` of the first task with the id and changes nothing else: same length, order, ids and descriptions |
| TodoList.EditedAt | todo_list/src/main.rs:86-92 | editing replaces the description of the first task with the id and changes nothing else |
| TodoList.AbsentIdUnchanged | todo_list/src/main.rs:68-90 | toggling or editing an id that no task has leaves the list unchanged |
| TodoList.DeletedKeepsOthers | todo_list/src/main.rs:78 | a task survives deletion if and only if it was in the list with a different id |
| TodoList.DeletedConcat | todo_list/src/main.rs:78 | deletion distributes over concatenation, so the survivors keep their original order |
| TodoList.DeletedAbsent | todo_list/src/main.rs:78 | deleting an id that no task has leaves the list unchanged |
| TodoList.StepKeepsIdsBelow | todo_list/src/main.rs:49-133 | each user action keeps every id below `next_id`, provided the counter does not wrap |
| TodoList.IdsStayBelow | todo_list/src/main.rs:42-133 | from any state with ids below the counter (the initial one included), every id stays below `next_id` after any sequence of actions that keeps the counter within `u32` |
| TodoList.AddedIdFresh | todo_list/src/main.rs:52-58 | the added task takes `next_id`, an id no existing task has |
| TodoList.WrapReusesId | todo_list/src/main.rs:132-133 | at the edge of `u32` the counter wraps: importing ids 0 and 4294967295 and then adding a task gives two tasks with id 0 |
| TodoList.StepKeepsDescribed | todo_list/src/main.rs:173-180 | the forms never store an empty description; only an import can bring one in |
| TodoList.TodoApp.constructor | todo_list/src/main.rs:42-43 | starts with no tasks and `next_id` = 1 |
| TodoList.TodoApp.AddTask | todo_list/src/main.rs:49-59 | appends `Task(next_id, description, false)` at the end and increments the counter (wrapping) |
| TodoList.TodoApp.ToggleTask | todo_list/src/main.rs:65-72 | the list becomes `Toggled(old list, id)` |
| TodoList.TodoApp.DeleteTask | todo_list/src/main.rs:77-80 | the list becomes `Deleted(old list, id)` |
| TodoList.TodoApp.EditTask | todo_list/src/main.rs:86-92 | the list becomes `Edited(old list, id, description)` |
| TodoList.TodoApp.ImportTasks | todo_list/src/main.rs:128-134 | a decoded file replaces the list and sets `next_id` to max id + 1, which is 1 for an empty file. An unreadable file changes nothing |
| TodoList.TodoApp.SubmitAddForm | todo_list/src/main.rs:173-180 | an empty input leaves the state unchanged; otherwise it is added |
| TodoList.TodoApp.SaveEditForm | todo_list/src/main.rs:247-253 | an empty input leaves the state unchanged; otherwise the matching entry is edited |

## Left out

- Concurrency: the `Mutex` locking and the actix mailboxes. Each callback and handler is one atomic step, and `do_send` writes its frame into the recipient's outbox at once, as that session's handler would. The interleaving allowed between the two lock scopes of `started` and `stopped` is not modelled.
- A `do_send` to a session that has stopped is dropped by actix. In the model its frame lands in that dead connection's outbox, where nobody reads it.
- JSON encoding and decoding (`serde_json`). Inbound frames arrive decoded, with "did not parse" as an input case. Outbound frames are datatype values. The unused `content_type` and `size` fields of `ClientMessage` are not carried.
- Ping/pong, the binary echo and close frames (chat/src/websocket.rs:117, 143-144). These are transport replies; in the model they change nothing.
- The uuid generation for file ids and login tokens. Both are method parameters.
- The file system. `create_dir_all` and `fs::write` (which panic on failure) become an update of the `uploads` map. `download_file` is not part of this model.
- The server wiring and `websocket_handler`'s token lookup in chat/src/main.rs. A session is created directly with its username and address. `ChatSession.Started` requires that no other name holds the session's address, which actix guarantees by giving every actor its own address.
- HTTP status codes and bodies are reduced to `Ok` / `BadRequest` / `Unauthorized` with the body's fields.
- The to-do list's rendering, its editing-mode state, export (serialisation and download), and the `FileReader` plumbing of import. An import arrives decoded, with "did not read or parse" as `None`.
- The id counter's `u32` `+ 1` is modelled as the wrap-around of a release build. A debug build panics at that point instead. Either way, id freshness (`IdsStayBelow`) holds only while the counter stays below 4294967295.
- The calculator (calculator/src/main.rs) is not part of this model: it is floating-point arithmetic over stdin.
