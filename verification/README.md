# Operator/client chat relay — presence and hand-off state machine

A Dafny model of the live-chat broker of a medical chatbot back end. Human
operators and anonymous clients hold Socket.IO connections to one Node.js
process. That process keeps three in-memory structures:

- the set of active operator ids;
- a map from client id to a client record (socket, assigned operator, name,
  status, ended-chat mark and timestamps);
- a ledger of recently seen message ids, used for duplicate suppression.

The socket handlers mutate these structures. The model also covers the
middleware that screens an operator registration (username, email pattern,
password length).

Each socket event is a pure function from `(state, socket, payload, now)` to
a `Reaction`: the new state, the emitted notifications in order, and the
timers scheduled. A notification goes to one socket, the `operators` room,
the `clients` room, every operator but the sender, or every socket but the
sender. The two `setTimeout` callbacks and the `setInterval` sweep are
explicit events that re-read the state when they fire, as the source does.
`Server.Step` dispatches all events. `Server.Run` replays a trace of timed
events from an empty server.

Modules:

- `Js`: the JavaScript conventions the handlers rely on. Stored ids are
  non-empty strings, `a || b` falls back on an empty string, and
  `${Date.now()}` renders a clock reading with its inverse parse.
- `Registry`: the state, the client record, the socket attributes, the
  outbound events and the timers.
- `Connect`: `operator:connect`, `client:connect`, `client:leave` and the
  legacy `client:reconnect`.
- `Lifecycle`: `operator:accept`, and `chat:end` with identity rotation.
- `Relay`: `message:send` (duplicate check, then routing) and the sweep.
- `Grace`: `disconnect` and the callbacks of its 5 s and 30 s grace timers.
- `Reconnect`: `reconnect:attempt`.
- `Server`: the dispatcher and the invariants of every reachable state.
- `Scenarios`: properties that span several events.
- `Conversation`: one concrete conversation, replayed end to end.
- `Validation`: `validateOperatorInput`.

Payload fields are strings. The empty string stands for both an omitted field
and an empty one, because JavaScript treats both as falsy. An omitted
`messageId` or `type` is `None`, because the destructuring defaults of
`message:send` apply only to an omitted field. Clock readings are
milliseconds as `nat`.

Behaviours of the code worth knowing, all modelled as written:

- An ended chat is the `chatEnded` flag, not a third status value. `status`
  stays `connected`/`disconnected`.
- `client:connect` on a known id rebuilds the record without the ended mark.
  The conversation is therefore live again (`Scenarios.ConnectForgetsEnded`).
  `reconnect:attempt` keeps the mark.
- `operator:accept` neither checks the ended mark nor checks that the
  operator is still in the pool. Only the socket's own `operatorId` matters.
- Client-to-operator routing does not check the ended mark. After an ended
  chat is accepted again, the client's messages reach the operators while
  operator replies stay blocked (`Scenarios.AcceptReopensClientSide`).
- The operator grace timer tests whether the old socket's room still exists,
  not whether the operator is online. An operator that resumed on another
  socket is evicted anyway (`Scenarios.OperatorTimerIgnoresResume`).
- The legacy `client:reconnect` is commented (server.js:179 and 182) as a
  redirection to the `client:connect` handler. The `socket.emit` at
  server.js:183 only sends a `client:connect` event back to the remote
  client, so the server registers nothing.
- The 30 s client timer re-checks only the record's status, not its socket
  (`Scenarios.EarlierTimerHonoursLaterDrop`).
- The identity handed out after `chat:end` is `<id>_new_<clock>` and is never
  checked against the registry. It can already belong to another client, and
  two ends of the same chat in the same millisecond hand out the same id
  (`Scenarios.RotatedIdUnchecked`).

## Model

| member | source | states |
|---|---|---|
| `Connect.OperatorConnect` | server.js:65-88 | The operator id (payload id, else the socket id) joins the pool, and the socket records it and the name (default `Operator`), keeping its other attributes. The operator receives a list with exactly the registered client ids, each with its name (default `Guest`), taken flag and status. Every other socket hears `available: true`. Clients and the ledger are unchanged. |
| `Connect.ClientConnect` | server.js:91-168 | Upsert keyed by the payload id, else the socket id, which never creates a second record. The record points at the new socket, is `connected`, and is not ended. It keeps its operator if the id was known and has none if the id is new. The socket records the client id and the name (default `Guest`), keeping its other attributes. Other records, the pool and the ledger are unchanged. The last emission tells the caller whether any operator is active. |
| `Connect.ClientConnectDeliveries` | server.js:104-167 | The connecting socket receives directly (not through a room) exactly this, in order: `chat:accepted{restored: true}` with the operator, if and only if the id already had one, then `operator:status`. |
| `Connect.ClientLeave` | server.js:187-197 | The record is deleted, and `client:left` goes to the operators, exactly when it exists and points at the leaving socket. Otherwise nothing changes and nothing is emitted. |
| `Connect.LegacyReconnect` | server.js:180-184 | The legacy signal changes no state and only echoes `client:connect` with the same payload to its sender. |
| `Lifecycle.OperatorAccept` | server.js:200-228 | Without an operator id on the socket, nothing happens. For a known client, only the assignment changes; the ended mark and the other fields are kept. Exactly three events go out, in this order: confirmation to the operator, `chat:accepted` to the client's socket, and an update to the other operators. For an unknown client, the state is unchanged and only an error goes to the operator. |
| `Lifecycle.RotatedId` | server.js:368 | The identity handed out after a chat ends extends the old id as a proper prefix, so it never equals it. |
| `Lifecycle.RotatedIdInjective` | server.js:368 | Two chat ends of the same client at different instants hand out different identities. |
| `Js.ParseNatToString` | server.js:368 | Parsing the decimal rendering of a clock reading gives the reading back. |
| `Lifecycle.EndChat` | server.js:327-397 | A missing or unknown client id changes nothing and emits nothing. Otherwise the record loses its operator, is marked ended with `endedBy` (default `unknown`) and the time, and keeps every other field. The rotated id is not registered. Exactly four events go out, in order: `chat:ended` (`Chat ended by <endedBy>`) and an update marking the client ended and available to the operators, then, to the client's socket, `chat:ended` (text chosen by `endedBy == "operator"`) and `chat:assign_new_id` with the rotated id. |
| `Relay.MessageSend` | server.js:231-243 | A truthy id already in the ledger drops the message with no state change and no emission. Otherwise a truthy id is recorded at `now` before routing. An omitted id is the clock reading. The output is exactly the routing's. |
| `Relay.Route` | server.js:245-323 | Operator to unknown client: only an error to the sender. Operator to an ended chat: the state is unchanged, and an error plus a re-announced `chat:ended` go to the sender. Operator to a live chat: the assignment becomes the sender, and exactly one `message:received` goes to the client's socket, carrying the text, the sender's operator id, the given name else the socket's operator name else `OperatorFallbackName` (the Georgian word for operator, `ოპერატორი`), the type (default `text`) and `now`. Client with an operator: one `message:received` goes to the whole operators room, carrying the client id, the given name else the socket's client name else the record's name else `GuestFallbackName` (the Georgian word for guest, `გესტი`), the type and `now`. Client without one: only `No operator assigned…` to the sender. A socket that is neither: nothing. |
| `Relay.Sweep` | server.js:43-50 | The sweep keeps exactly the fingerprints whose age is at most 10000 ms, with their times unchanged. |
| `Relay.SweepWindow` | server.js:43-50 | A fingerprint recorded at `t` survives a sweep at `now` if and only if `now <= t + 10000`. |
| `Relay.SweepLater` | server.js:43-50 | A sweep followed by a later sweep equals the later sweep alone. |
| `Grace.Disconnect` | server.js:400-449 | A disconnect removes nothing. An operator timer is scheduled, once, if and only if the socket carries an operator id. A client record is marked `disconnected` with the time, and one client timer scheduled, if and only if the record points at this socket; the operators then get exactly one `client:updated` saying `disconnected` and whether an operator is assigned. All other records are untouched. |
| `Grace.FireOperatorGrace` | server.js:406-415 | If the room is present, nothing happens. Otherwise the operator leaves the pool, and the clients hear `available: false` exactly when the pool is then empty. |
| `Grace.FireClientGrace` | server.js:439-446 | The record is deleted, and `client:left` is emitted, exactly when it still exists and is `disconnected` at fire time. Otherwise nothing happens. |
| `Reconnect.ReconnectAttempt` | server.js:452-530 | Known client on a new socket: the record moves to it and becomes `connected`, keeping its operator and ended mark. The socket receives `chat:accepted{restored: true}` exactly when an operator is assigned, then `reconnect:success`. Same socket: the record is unchanged and only `reconnect:success` is sent. Unknown id: nothing is registered and only `use:client:connect` is sent. An operator id alone joins the pool (idempotent). |
| `Server.Step` | server.js:53-531 | Only `client:connect` adds records. Only `client:leave` and the client timer remove them. Only the operator timer shrinks the pool. Only a send or a sweep touches the ledger. Only a disconnect schedules timers, and only for its own socket. |
| `Server.StepKeepsInv` | server.js:53-531 | Every event preserves the invariant. An ended chat records who ended it and when. A disconnected record carries its time. Every operator id on a record or a socket is known, with the known set growing by the pool after the event. |
| `Server.RunKeepsInv` | server.js:34-531 | Every trace from an invariant state ends in one. Its known operators are those active at some point of the trace. |
| `Server.Reachable` | server.js:34-36 | In every state reachable from an empty server, an assigned operator is one that was, at some point, in the active pool. Every ended chat says by whom and when. |
| `Scenarios.ResumeWithinGrace` | server.js:419-514 | Disconnect, then `reconnect:attempt` on a new socket, gives this: `connected`, on the new socket, with the operator and ended mark preserved. The socket gets exactly one `chat:accepted{restored: true}` if and only if an operator was assigned. The pending 30 s timer then does nothing. |
| `Scenarios.EarlierTimerHonoursLaterDrop` | server.js:439-446 | After resuming and dropping again, the first drop's timer removes the record. |
| `Scenarios.EndedIsSticky` | server.js:346-352 | Once a chat is ended, every event except `client:connect` on that id keeps the mark while the record exists. |
| `Scenarios.ConnectForgetsEnded` | server.js:104-115 | `client:connect` on an ended chat's id clears the mark, and the next operator message is delivered. |
| `Scenarios.EndedBlocksOperator` | server.js:259-281 | After `chat:end`, an operator message to that client delivers nothing and leaves the state as it is. The sender gets the ended-chat error stamped with the end time, plus `chat:ended`. |
| `Scenarios.EndedClientUnassigned` | server.js:306-322 | After `chat:end`, the client's own messages get only `No operator assigned…`. |
| `Scenarios.AcceptReopensClientSide` | server.js:205-208 | Accepting an ended chat assigns the operator but keeps the mark. The client's messages reach the operators again, while operator replies stay blocked. |
| `Scenarios.DuplicateWithinTtl` | server.js:235-243 | A resend of the same truthy id after a sweep within the 10000 ms window is dropped: no emission, no state change. |
| `Scenarios.RedeliveredAfterTtl` | server.js:43-50 | After a sweep later than the window, the same id is routed as a new message and re-fingerprinted at the new time. |
| `Scenarios.UnlabelledSameInstant` | server.js:231-243 | Two id-less messages in the same millisecond share a fingerprint, so the second is dropped. |
| `Scenarios.LeaveUndoesConnect` | server.js:146-196 | A `client:leave` from the same socket after a fresh `client:connect` restores the registry. |
| `Scenarios.OperatorConnectIdempotent` | server.js:65-88 | Announcing the same operator twice on a socket leaves the state of the first announcement. |
| `Scenarios.OperatorTimerIgnoresResume` | server.js:404-415 | An operator that resumed on another socket is in the pool, yet the old socket's timer evicts it once that socket's room is gone. |
| `Scenarios.RotatedIdUnchecked` | server.js:367-368 | With `c1_new_6000` already registered, ending `c1` at 6000 hands out `c1_new_6000`, which stays a registry key; ending it again at the same instant hands out the same id. |
| `Conversation.AcceptRelayEnd` | server.js:65-397 | Concrete run: operator and client connect, and the client hears `available: true`. The operator accepts, and the client gets `chat:accepted`. `hello` with id 1 is delivered once, and its resend is dropped. The operator ends the chat, and the client gets `chat:ended` then `chat:assign_new_id` with `c1_new_6000`. A later operator message is refused. |
| `Validation.IsValidEmail` | routes/operators.js:20-23 | A single scan decides `^[^\s@]+@[^\s@]+\.[^\s@]+$` exactly, both directions. |
| `Validation.EmailPatternMeaning` | routes/operators.js:20 | The pattern holds if and only if the email has no white space and exactly one `@` with something before it. After the `@` there must be a `.` that is neither the domain's first nor its last character. |
| `Validation.ValidateOperatorInput` | routes/operators.js:11-31 | Any missing field gives 400 `Please enter all fields`, before the other checks. Otherwise an email outside the pattern gives 400 `Please enter a valid email`. Otherwise a password under 6 UTF-16 units gives 400. The result is `next()` with no response if and only if all three checks pass. |
| `Validation.Utf16Length` | routes/operators.js:26 | JavaScript's `.length` counts between one and two units per character. |
| `Validation.PasswordBoundary` | routes/operators.js:26-28 | Six characters always pass the length check. Five characters of the Basic Multilingual Plane never do. |

## Left out

- Express routes `/`, `/chat`, `/status` and `server.listen`: HTTP plumbing, and `/chat` calls an external language-model service.
- Registration and login handlers in routes/operators.js, the chat-session routes, and the Mongoose models. These are database queries, password hashing and token signing, all foreign calls.
- Socket.IO transport: rooms, `join`, ping/pong, and the `connected` greeting. Recipients are abstract `Target`s. The operator timer's room check is the `roomPresent` parameter.
- Timer due times: in a `Server.Run` trace, a timer firing and a ledger sweep are unconstrained events. A firing has no due time (5 s, 30 s) and no link to the disconnect that scheduled it, so it may fire a timer never scheduled, or fire one twice; sweeps have no 30 s period. `Server.RunKeepsInv` and `Server.Reachable` hold for this larger set of traces, hence for the real schedule.
- Logging and real clocks. `now` is a parameter, and a `Date.now()` and a `new Date()` in the same handler read the same instant. ISO timestamp strings are milliseconds.
- `Connect.OperatorConnect`: `clients:list` is modelled as a map. The array order, which follows the insertion order of the JavaScript `Map`, is not modelled.
- `Relay.Route`: the operator branch's final `else` ("Client disconnected or not found") is unreachable, because every stored socket id is non-empty. The model has no such branch.
- `Relay.MessageSend`: message ids are integers or strings. Non-integer numbers, `NaN`, `null`, booleans and object ids are not modelled; an object id would never deduplicate, because a JavaScript `Map` compares objects by reference.
- A missing or `null` payload object is not modelled. In the source, `operator:connect` and `client:connect` then throw a TypeError on reading `.id` (server.js:66, 92), and `client:leave`, `operator:accept`, `message:send`, `chat:end` and `reconnect:attempt` throw while destructuring their parameter (server.js:187, 200, 231, 327, 452), before touching any state. `operator:accept` throws this way even on a socket that is not an operator, because the destructuring precedes the guard at server.js:201.
- `Validation.ValidateOperatorInput`: fields are strings. A non-string password (whose `.length` is undefined and so passes the length check) is not modelled.
- `Connect.ClientConnect`: the `client:new`, `client:reconnected` and `client:updated` notifications to the operators room are modelled as emitted, but its contract states only the events the connecting socket receives.
- `Reconnect.ReconnectAttempt`: the `client:reconnected` and `message:system` notifications to the operators room are modelled as emitted, but its contract states only the events the reconnecting socket receives.
