# cards-client-rs, the connectivity core, in Dafny

A model of the connectivity layer of `cards-client-rs`, a browser client for a
card-game server written with the Yew framework, together with the small list
and state helpers around it. Every part of it is a single-threaded message
handler; Yew hands it one message at a time.

- `wire.dfy`: the game protocol (`Message` and its parts) and its
  internally tagged JSON encoding (a `"type"` member beside the fields). It
  proves that decoding an encoded message gives the message back, and it
  states the test vectors of the wire module. `json.dfy` holds the JSON
  values and serde_json's compact writer, with its string escaping.
- `game_ws_mgr.dfy`: `GameWsMgr`, the agent that owns the game's WebSocket.
  It holds the connection, a set-like registry of subscribers and a text
  history, and it broadcasts every socket event. `subscribers.dfy` holds the
  registry operations the agents share (`position`, `swap_remove`, the
  broadcast loop).
- `game_mgr.dfy`, `ws_dbg_console.dfy` and `play_game.dfy`: the agent and
  components that follow the socket's status. `game_ws_api.dfy` holds the
  form of the WebSocket agent's protocol that they use.
- `joining_game.dfy`: the join page, as a transition function over
  `JoinStep` with the effect each transition starts.
- `neq_assign.dfy`, `notifications_agent.dfy`, `notification_list.dfy`,
  `state_mgr.dfy`, `routes.dfy`, `game_server.dfy`: change-detecting
  assignment, the notification bus and list, the state agent, routes and
  breadcrumbs, and the join request with its response handler.
- `ws_connection.dfy`, `ws_experiment.dfy`, `app.dfy`: the older raw-socket
  state machine of the experiment page and of the application root.

Agents and components are classes whose fields are the Rust struct's fields.
What they cause outside themselves is appended to sequence fields ("outboxes"):
`link.respond`, `send` to another agent, `link.send_message`, the URLs dialled,
the frames written, storage writes and route changes. A `HandlerId` is a
`nat`, and a `WebSocketTask` is an opaque `nat` token. What the platform
returns to a handler is a parameter of the method: the result of
`WebSocketService::connect`, the page's origin, parsed JSON, and an HTTP status
with its body.

The repository's files come from two snapshots of the WebSocket agent's
protocol. `game_ws_mgr.rs` defines `Connecting`, `Connected` and the status
variants without data, and a `JoinRound { game_id, player_id }` request.
`game_mgr.rs`, `joining_game.rs`, `ws_dbg_console.rs` and `play_game.rs` use
variants that carry a `GameWsConnectionInfo`. Each form has its own datatypes
here: `GameWsMgr.*` for the first and `GameWsApi.*` for the second.
`ws_dbg_console.rs` writes its join request in the first form
(`JoinRound { game_id, player_id }`, line 93). It is modelled as
`GameWsApi.JoinRound(ConnectionInfo(game_id, player_id))`, which carries the
same two strings.

The model follows the code as written:
- `JoinRound` replaces any connection with the new pending one. It does not
  check whether that game and player are already connected, and it does not
  explicitly close the superseded socket.
- `EnsureConnected` forwards a join every time.
- The socket scheme is always `ws`.
- `JoiningGame::change` ignores new properties; it does not restart the join.

## Model

| member | source | states |
|---|---|---|
| Wire.Decode | src/wire/mod.rs:4-45 | Only an object is read, and a message read from it is the one its single `"type"` string member names |
| Wire.DecodeVariant | src/wire/mod.rs:4-45 | A message read under a tag carries that tag |
| Wire.ParseVariant | src/wire/mod.rs:7-44 | A tag is read back as the variant whose rename it is |
| Wire.Encode | src/wire/mod.rs:4-45 | An encoded message is one object whose first member is `"type"` holding the variant's tag, and whose remaining members are the variant's fields |
| Wire.VariantNameRoundTrip | src/wire/mod.rs:7-44 | Every variant's renamed tag (`PING`, `PLAYER_CONNECTED`, …) reads back as that variant |
| Wire.TagRoundTrip | src/wire/mod.rs:4-45 | The `"type"` member of an encoding is found once and holds the tag, so decoding picks the message's own variant |
| Wire.ContentsRoundTrip | src/wire/mod.rs:47-150 | For every variant, the fields written beside the tag decode to that variant's contents |
| Wire.RoundTrip | src/wire/mod.rs:156-167 | `decode(encode(m)) == m` for every message |
| Wire.EncodeInjective | src/wire/mod.rs:156-167 | Distinct messages have distinct encodings |
| Wire.PlayerConnectedRoundTrip | src/wire/mod.rs:47-51 | `message` and `username` read back from the flattened fields |
| Wire.GameFinishedRoundTrip | src/wire/mod.rs:53-56 | The `winners` list reads back in order |
| Wire.ErrorRoundTrip | src/wire/mod.rs:58-61 | The `messages` list reads back in order |
| Wire.ActionAwaitedRoundTrip | src/wire/mod.rs:63-66 | `all_of` reads back, each action with its own tag |
| Wire.AwaitedActionRoundTrip | src/wire/mod.rs:68-73 | `OnClick { target_component }` reads back from its own `"type":"OnClick"` object |
| Wire.InterfaceUpdateRoundTrip | src/wire/mod.rs:75-78 | The `components` list reads back in order |
| Wire.InterfaceComponentRoundTrip | src/wire/mod.rs:80-103 | A bare-string id and a lower-case position name read back as the component |
| Wire.ComponentsUpdatesRoundTrip | src/wire/mod.rs:105-109 | `updates`, written under the name `components`, reads back in order |
| Wire.ComponentUpdateRoundTrip | src/wire/mod.rs:111-118 | `Create { id, component }` reads back from its tagged object |
| Wire.ComponentRoundTrip | src/wire/mod.rs:120-130 | `Card` and `Hand` each read back from an object carrying their own tag |
| Wire.CardRoundTrip | src/wire/mod.rs:132-139 | All five card fields read back, the images as options |
| Wire.OptionalRoundTrip | src/wire/mod.rs:136-137 | An absent image is written as `null` and read back as `None`; a present one reads back as itself |
| Wire.CardStateRoundTrip | src/wire/mod.rs:141-145 | `suit` and `value` read back |
| Wire.HandRoundTrip | src/wire/mod.rs:147-150 | The card ids read back in order |
| WireVectors.UnitVariantText | src/wire/mod.rs:7-24 | A variant without fields is written as an object holding only its tag |
| WireVectors.PingVector | src/wire/mod.rs:169-172 | `Ping` is written exactly as `{"type":"PING"}` |
| WireVectors.CloseVector | src/wire/mod.rs:179-182 | `Close` is written exactly as `{"type":"CLOSE"}` |
| WireVectors.PongVector | src/wire/mod.rs:174-177 | `Pong` is written exactly as `{"type":"PONG"}` |
| WireVectors.StartGameVector | src/wire/mod.rs:195-198 | `StartGame` is written exactly as `{"type":"START_GAME"}` |
| WireVectors.PlayerConnectedVector | src/wire/mod.rs:184-193 | The test's `PlayerConnected` is written exactly as `{"type":"PLAYER_CONNECTED","message":"Say hello to Toto.","username":"Toto"}` |
| WireVectors.GameFinishedVector | src/wire/mod.rs:200-208 | The test's `GameFinished` is written exactly as `{"type":"GAME_FINISHED","winners":["Toto","Tata"]}` |
| WireVectors.ErrorVector | src/wire/mod.rs:210-221 | The test's `Error` is written exactly as `{"type":"ERROR","messages":["You are dumb.","The cake is a lie."]}` |
| WireVectors.CardStateText | src/wire/mod.rs:141-145 | A card state is written as `{"suit":…,"value":…}`, its fields in order |
| WireVectors.HandText | src/wire/mod.rs:120-150 | A hand of three cards is written as its `Hand` tag, then `cards` holding the bare ids in order |
| WireVectors.CardText | src/wire/mod.rs:132-139 | A card without images is written as its `Card` tag, `name`, `description`, `null` for both images, then its state |
| WireVectors.CreateText | src/wire/mod.rs:111-118 | A `Create` update is written as its tag, the bare id, then the component |
| WireVectors.ComponentsUpdatesText | src/wire/mod.rs:105-109 | Two updates are written as the `COMPONENTS_UPDATES` tag, then `components` holding both in order |
| WireVectors.ComponentsUpdatesVector | src/wire/mod.rs:276-342 | The test's `ComponentsUpdates` is written exactly as the test's document with its whitespace removed |
| Json.EscapeCharSpec | src/components/ws_dbg_console.rs:150-151 | serde_json writes every character from U+0020 on except quote and backslash as itself; every other character becomes a backslash escape holding no character below U+0020 |
| Json.EscapePrintable | src/components/ws_dbg_console.rs:150-151 | Escaping never shortens a string, and the written text holds no character below U+0020 |
| Json.EscapePlain | src/components/ws_dbg_console.rs:150-151 | A string of plain characters is written unchanged |
| Json.NatToString | src/services/game_server.rs:97 | A status code is displayed as its shortest decimal numeral, whose value is the code |
| Subscribers.Position | src/agents/game_ws_mgr.rs:204 | `position` gives the first index holding the id, or none exactly when the id is absent |
| Subscribers.SwapRemove | src/agents/game_ws_mgr.rs:205 | `swap_remove(i)`: one element shorter, the last element moved to `i`, every other position unchanged, the multiset loses exactly `s[i]` |
| Subscribers.Remove | src/agents/game_ws_mgr.rs:202-210 | Removing an id drops exactly one occurrence of it, and changes nothing when it is absent |
| Subscribers.AddIfAbsent | src/agents/game_ws_mgr.rs:195-200 | Registering gives the old set plus the id; it pushes only when the id was absent |
| Subscribers.AddIfAbsentNoDuplicates | src/agents/game_ws_mgr.rs:195-200 | Set-like registration never creates a duplicate |
| Subscribers.RemoveNoDuplicates | src/agents/game_ws_mgr.rs:202-210 | Removal keeps a duplicate-free registry duplicate-free and leaves the id unregistered |
| Subscribers.DeliveriesInOrder | src/agents/game_ws_mgr.rs:214-218 | The i-th delivery of a broadcast goes to the i-th subscriber, with the message itself |
| Subscribers.DeliveriesCount | src/agents/game_ws_mgr.rs:214-218 | Each id gets one delivery per registration |
| Subscribers.DeliveredOnce | src/agents/game_ws_mgr.rs:214-218 | With a duplicate-free registry, each subscriber gets the broadcast exactly once and nobody else gets it |
| Subscribers.Broadcast | src/agents/game_ws_mgr.rs:214-218 | The loop appends exactly the deliveries to every subscriber, in list order |
| GameWsMgr.StatusOf | src/agents/game_ws_mgr.rs:73-81 | `None`, `Pending` and `Connected` map one-to-one onto `NotConnected`, `Pending` and `Connected` |
| GameWsMgr.AfterNotification | src/agents/game_ws_mgr.rs:113-120 | The connection is `Connected`, with the same task, exactly when it was `Pending` and the socket reported `Opened`; every other combination leaves no connection |
| GameWsMgr.NotificationResponse | src/agents/game_ws_mgr.rs:121-126 | A socket notification is broadcast as `Connected` exactly when the socket opened, `Closed` exactly when it closed, `ErrorOccurred` exactly when it failed |
| GameWsMgr.NotificationResponseInjective | src/agents/game_ws_mgr.rs:121-126 | Different notifications give different responses |
| GameWsMgr.ReceivedResponse | src/agents/game_ws_mgr.rs:128-134 | A decoded frame is broadcast as `Received(data)` and a failed one as `ReceivedError(text)` |
| GameWsMgr.SocketUrl | src/agents/game_ws_mgr.rs:142-150 | The socket URL is `ws://`, the origin, `/api/round/`, the game id, `/join?playerId=`, the player id; the game id and `/join` sit at the positions after the prefix |
| GameWsMgr.SocketUrlSeparatesGames | src/agents/game_ws_mgr.rs:142-150 | Two different games dial different URLs for the same player, whatever the lengths of their ids |
| GameWsMgr.GameWsMgr.constructor | src/agents/game_ws_mgr.rs:97-105 | No subscriber, no connection, an empty history |
| GameWsMgr.GameWsMgr.BroadcastToSubscribers | src/agents/game_ws_mgr.rs:214-218 | One response per registered subscriber, in order |
| GameWsMgr.GameWsMgr.Update | src/agents/game_ws_mgr.rs:107-136 | `FailedToConnect` and received frames are broadcast and leave the connection; a notification sets the connection by `AfterNotification` and broadcasts its response; the registry stays duplicate-free |
| GameWsMgr.GameWsMgr.HandleInput | src/agents/game_ws_mgr.rs:138-193 | `JoinRound` dials the socket URL: on success the new connection is `Pending` with one history line and a `Connecting` broadcast; on failure the connection is kept, one error line is logged and `FailedToConnect` queued. `CloseSocket` leaves no connection and broadcasts nothing. `Send` writes one frame and one line only when connected. `GetWebSocketStatus` answers only the sender and changes nothing |
| GameWsMgr.GameWsMgr.Connected | src/agents/game_ws_mgr.rs:195-200 | The id is registered once, whatever was there before |
| GameWsMgr.GameWsMgr.Disconnected | src/agents/game_ws_mgr.rs:202-210 | The id is no longer registered; the registry stays duplicate-free |
| GameWsApi.ImpliedStatus | src/agents/game_mgr.rs:83-105 | `Connecting(info)` means `Pending(info)`, `Connected(info)` means `Connected(info)`, `Closed`/`FailedToConnect`/`ErrorOccurred` mean `NotConnected`, a status report means itself, and only frame responses imply nothing |
| GameMgr.GameMgr.constructor | src/agents/game_mgr.rs:60-72 | `NotConnected`, no subscriber, and exactly one status query queued |
| GameMgr.GameMgr.UpdateWsStatus | src/agents/game_mgr.rs:141-143 | The status becomes the new one; the result is true exactly when it changed |
| GameMgr.GameMgr.BroadcastToSubscribers | src/agents/game_mgr.rs:145-149 | One response per registration, in order |
| GameMgr.GameMgr.Update | src/agents/game_mgr.rs:74-114 | `Update` asks the WebSocket agent for its status; a response sets the status it implies, and `WebSocketStatusChanged` goes to every subscriber exactly when the status changed; frame responses change nothing |
| GameMgr.GameMgr.HandleInput | src/agents/game_mgr.rs:116-123 | `EnsureConnected(info)` forwards exactly one `JoinRound(info)`, every time |
| GameMgr.GameMgr.Connected | src/agents/game_mgr.rs:125-128 | A plain push: the id is appended even if already present |
| GameMgr.GameMgr.Disconnected | src/agents/game_mgr.rs:130-135 | One occurrence of the id is removed, if any |
| GameMgr.DoubleRegistrationDoubleDelivery | src/agents/game_mgr.rs:125-128 | A subscriber that connects twice is told every change twice |
| WsDbgConsole.WrappingIncrement | src/components/ws_dbg_console.rs:275 | `wrapping_add(1)` on a 32-bit `usize`: the next id modulo 2^32, zero exactly after the largest |
| WsDbgConsole.PushedSpec | src/components/ws_dbg_console.rs:11 | A push never takes the history past 500 lines; below 500 it grows by one; the new line is first and the kept lines are the newest old ones, in order |
| WsDbgConsole.IdsDistinct | src/components/ws_dbg_console.rs:72 | Ids counting down from the wrapped counter are pairwise distinct within the bounded history |
| WsDbgConsole.DistinctResidues | src/components/ws_dbg_console.rs:275 | Numbers closer than the counter's period have different residues |
| WsDbgConsole.ShiftedResidue | src/components/ws_dbg_console.rs:275 | One step of the counter shifts every older id by one place |
| WsDbgConsole.HexNoPad | src/components/ws_dbg_console.rs:158 | `\u{..}` is written with at least one lower-case hex digit, the digits denote the code point, and there is no leading zero |
| WsDbgConsole.DebugEscapeChar | src/components/ws_dbg_console.rs:157-160 | Rust's `{:?}` writes an ASCII character as printable ASCII text |
| WsDbgConsole.DebugEscapeCharSpec | src/components/ws_dbg_console.rs:157-160 | Rust's `{:?}` writes a printable character other than quote and backslash as itself, and any other ASCII character as a backslash escape |
| WsDbgConsole.DebugEscapeAgreesWithJson | src/components/ws_dbg_console.rs:150-160 | On characters neither escaping touches, `{:?}` and serde_json's writer leave the text unchanged |
| WsDbgConsole.DebugQuoteAgreesWithJson | src/components/ws_dbg_console.rs:150-160 | …and both quote it the same way |
| WsDbgConsole.DebugQuoteDiffersOnControl | src/components/ws_dbg_console.rs:150-160 | They differ on every character below U+0020 other than newline, carriage return and tab |
| WsDbgConsole.ResponseLine | src/components/ws_dbg_console.rs:122-163 | Every response except a bare status report adds a history line; a received frame adds `<- ` and its compact JSON, an undecodable one `Failed to decode received data: ` and the quoted error |
| WsDbgConsole.ConnectionLinesDistinct | src/components/ws_dbg_console.rs:123-147 | `Connecting`, `Connected`, `Closed` and `ErrorOccurred` leave different lines |
| WsDbgConsole.ReceivedLineDistinguished | src/components/ws_dbg_console.rs:148-155 | The line of a received frame differs from the line, or the absence of one, of every other response |
| WsDbgConsole.InfoOf | src/components/ws_dbg_console.rs:255-266 | Only `NotConnected` names no game and player; the others name the info they carry |
| WsDbgConsole.WebSocketDebugConsole.constructor | src/components/ws_dbg_console.rs:62-78 | Empty fields and history, counter at 0, one status query queued |
| WsDbgConsole.WebSocketDebugConsole.Change | src/components/ws_dbg_console.rs:80-83 | Queues a status query and does not re-render |
| WsDbgConsole.WebSocketDebugConsole.PushInHistory | src/components/ws_dbg_console.rs:270-279 | The loop drops the oldest lines until fewer than 500 remain; the counter takes its wrapping increment and the new line goes first with that id; the history stays bounded and its ids keep counting down |
| WsDbgConsole.WebSocketDebugConsole.ChangeStatus | src/components/ws_dbg_console.rs:255-268 | The status becomes the new one; the result is true exactly when it changed; a status naming a connection copies its game and player into the fields |
| WsDbgConsole.WebSocketDebugConsole.SendOnWs | src/components/ws_dbg_console.rs:281-285 | One `-> ` line and exactly one `Send` of the same JSON |
| WsDbgConsole.WebSocketDebugConsole.UpdateCommand | src/components/ws_dbg_console.rs:87-117 | Each command sends its one request (status query, join of the fields' game and player, `PING`, the parsed message, close). A message that does not parse logs an error and sends nothing. Only sending re-renders |
| WsDbgConsole.WebSocketDebugConsole.OnWebSocketMessage | src/components/ws_dbg_console.rs:122-164 | The status becomes the one the response implies, the fields take its game and player, and exactly one line is logged, except for a bare status report, which logs none and re-renders only when the status changed |
| WsDbgConsole.WebSocketDebugConsole.OnInput | src/components/ws_dbg_console.rs:119-121 | Each input replaces its own field only, and re-renders exactly when the text changed |
| WsDbgConsole.WebSocketDebugConsole.Update | src/components/ws_dbg_console.rs:85-167 | Commands leave the status and fields alone; events send nothing; typing leaves the history alone |
| ChangeDetection.NeqAssign | src/components/neq_assign.rs:19-28 | Afterwards the value is the new one; the result is true exactly when the old value differed; an equal value leaves the old one |
| ChangeDetection.NeqAssignTwice | src/components/neq_assign.rs:19-28 | Assigning the same value a second time reports no change |
| Notifications.NotificationDispatcher.NotifySuccess | src/agents/notifications.rs:16-24 | Sends one `New` notification with the text at level `Success` |
| Notifications.NotificationDispatcher.NotifyInfo | src/agents/notifications.rs:26-34 | …at level `Info` |
| Notifications.NotificationDispatcher.NotifyWarn | src/agents/notifications.rs:36-44 | …at level `Warning` |
| Notifications.NotificationDispatcher.NotifyError | src/agents/notifications.rs:46-54 | …at level `Error` |
| Notifications.NotificationBus.constructor | src/agents/notifications.rs:82-87 | No listener |
| Notifications.NotificationBus.HandleInput | src/agents/notifications.rs:91-96 | The request goes unchanged to every listener, the sender included when it listens, exactly once each |
| Notifications.NotificationBus.Connected | src/agents/notifications.rs:98-103 | A listener is registered once; the registry stays duplicate-free |
| Notifications.NotificationBus.Disconnected | src/agents/notifications.rs:105-110 | The listener is no longer registered; an absent one changes nothing |
| NotificationList.RemoveAt | src/components/notifications.rs:47 | `Vec::remove(i)`: earlier entries stay, later ones move down one place, exactly the entry at `i` is gone |
| NotificationList.ColorClassInjective | src/components/notifications.rs:76-81 | Each level has its own colour class |
| NotificationList.ColorClass | src/components/notifications.rs:76-81 | Every level maps to a Bulma `is-` class |
| NotificationList.NotificationsComponent.constructor | src/components/notifications.rs:23-31 | The list starts empty |
| NotificationList.NotificationsComponent.Change | src/components/notifications.rs:33-35 | Never re-renders |
| NotificationList.NotificationsComponent.Update | src/components/notifications.rs:37-55 | A new notification goes at the end and re-renders; a delete inside the list removes that index and re-renders; a delete past the end changes nothing and does not re-render |
| NotificationList.PushThenDelete | src/components/notifications.rs:39-48 | Deleting a notification at the index it was shown at undoes its arrival |
| StateMgr.StateMgr.constructor | src/agents/state_mgr.rs:36-42 | No subscriber and the default state |
| StateMgr.StateMgr.HandleInput | src/agents/state_mgr.rs:46-51 | `Nope` goes to every subscriber, which is nobody, so nothing is sent |
| StateMgr.StateMgr.Connected | src/agents/state_mgr.rs:53-55 | Nobody is registered, so the registry stays empty |
| StateMgr.StateMgr.Disconnected | src/agents/state_mgr.rs:57-62 | One occurrence of the id is removed, if any; an absent id changes nothing |
| PlayGame.PlayGamePage.constructor | src/pages/play_game.rs:52-64 | `NotConnected`, and exactly one `Update` queued |
| PlayGame.PlayGamePage.Change | src/pages/play_game.rs:67-73 | The props become the new ones; re-render and one queued `Update` exactly when they differ |
| PlayGame.PlayGamePage.Update | src/pages/play_game.rs:75-96 | `Update` sends exactly one `EnsureConnected` with the props' game and player and does not re-render; a status report is stored and re-renders exactly when it changed |
| Routes.DisplayMatchesPattern | src/routes.rs:5-30 | Every route displays as the path it is matched on, except `JoinGame`, which lacks the `join/` segment |
| Routes.Display | src/routes.rs:5-30 | Every route's `#[display]` text is an absolute path |
| Routes.DisplayDistinguishesRoutes | src/routes.rs:5-30 | Different routes display differently, as long as their game ids hold neither `/` nor `?` |
| Routes.BreadcrumbComponents | src/routes.rs:66-76 | Every route has at least one crumb, the last is not a link, and two-crumb routes start with the `Games` link |
| Routes.RenderBreadcrumb | src/routes.rs:41-63 | Nothing for no crumbs; otherwise the site name linking to `Index`, the other crumbs in order, and the last crumb marked `is-active` |
| Routes.BreadcrumbOfRoute | src/routes.rs:41-76 | On every page exactly the last item is active and it is not a link; the first leads to `Index` |
| GameServer.JoinUrl | src/services/game_server.rs:85-89 | The join URL is `/api/round/`, the game id, `/join?username=`, the user name, unescaped |
| GameServer.JoinUrlSlash | src/services/game_server.rs:85-89 | For a game id without `/`, the first slash after the prefix ends the game id |
| GameServer.JoinUrlInjective | src/services/game_server.rs:85-89 | Different games or users give different URLs when the game ids hold no `/` |
| GameServer.JoinRoundResponseRoundTrip | src/services/game_server.rs:26-39 | A response written with camel-case names reads back exactly when its player counts fit a `u32` |
| GameServer.DecodeNamesOfEncoded | src/services/game_server.rs:26-39 | The six text fields read back as written |
| GameServer.DecodeSettingsOfEncoded | src/services/game_server.rs:26-39 | The counts, `public` and `players` read back exactly when the counts fit a `u32` |
| GameServer.SnakeCaseFieldRefused | src/services/game_server.rs:26-27 | A body naming the field `player_id` is refused for missing `playerId` |
| GameServer.DecodeJoinRoundResponse | src/services/game_server.rs:26-39 | Only an object is read; a read response holds the `playerId`, `gameId` and `public` members it was read from |
| GameServer.DecodeNames | src/services/game_server.rs:26-33 | The player and game ids read are the string members `playerId` and `gameId` |
| GameServer.DecodeSettings | src/services/game_server.rs:34-37 | The `public` flag read is the boolean member `public` |
| GameServer.StatusText | src/services/game_server.rs:97 | A status is shown as its code's decimal numeral, a space, then the reason or `<unknown status code>` |
| GameServer.HandleJoinResponse | src/services/game_server.rs:92-98 | A non-2xx status yields an error naming the status, whatever the body; a success forwards the body's decoding, its error included |
| GameServer.JoinResponseDelivered | src/services/game_server.rs:92-98 | A successful join whose body the server wrote reaches the page as that response |
| JoiningGame.Transition | src/pages/joining_game.rs:99-161 | The join fails exactly on a refused HTTP join, a socket error or a failed connection, and stays failed; a failure keeps the player id it knew and starts nothing; the fetch asks for the join URL of the page's game and user |
| JoiningGame.IntoPlayerIdOrNone | src/pages/joining_game.rs:230-238 | The player id the step knows: the connected steps' id, the failed step's id, none otherwise |
| JoiningGame.TransitionProgress | src/pages/joining_game.rs:97-164 | A transition never goes back. A transition that starts an effect moves one step along the happy path. The fetch, the connect request, the timer and the redirect each come from exactly one step and message |
| JoiningGame.FailedNotEntered | src/pages/joining_game.rs:99-100 | The `Failed` placeholder never results from a transition, and a failed join stays failed |
| JoiningGame.PlayerIdKept | src/pages/joining_game.rs:119-144 | The player id, once known, is kept by every later step, failed or not, until the redirect |
| JoiningGame.RedirectTarget | src/pages/joining_game.rs:147-155 | The redirect goes to `/game/play/{game_id}?as={player_id}` with the server's player id |
| JoiningGame.HttpErrorText | src/pages/joining_game.rs:119-122 | A refused HTTP join shows the `error joining the round: ` prefix twice, then the status |
| JoiningGame.AtMostOneRedirect | src/pages/joining_game.rs:147-155 | Whatever messages arrive, the page redirects at most once |
| JoiningGame.AtMostOneFetch | src/pages/joining_game.rs:101-108 | Whatever messages arrive, the page asks the server to join at most once, and only from the start |
| JoiningGame.JoiningGamePage.constructor | src/pages/joining_game.rs:69-83 | Starts at `WantToJoinGame` with no task and `JoinRound` queued |
| JoiningGame.JoiningGamePage.Change | src/pages/joining_game.rs:85-95 | New props are ignored and nothing re-renders |
| JoiningGame.JoiningGamePage.Update | src/pages/joining_game.rs:97-164 | The step takes the transition; a fetch or timer replaces the current task; a connect request or route change is sent once; always re-renders |
| WsConnection.AfterConnected | src/pages/ws_experiment.rs:61-69 | `Pending(t)` becomes `Connected(t)` with the same task; any other state is left as it is |
| WsConnection.AfterConnectedIdempotent | src/app.rs:49-57 | A second `connected` changes nothing |
| WsExperiment.ReceivedLine | src/pages/ws_experiment.rs:169-174 | A received frame is logged as `< ` and its compact JSON, an undecodable one as `< ERROR: ` and the error |
| WsExperiment.ReceivedLineTellsOutcome | src/pages/ws_experiment.rs:169-174 | A decoded frame's line never reads like an error line |
| WsExperiment.SharedState.constructor | src/state.rs:3-6 | The shared state holds the given server address |
| WsExperiment.WsExperimentPage.constructor | src/pages/ws_experiment.rs:112-123 | No socket and an empty history |
| WsExperiment.WsExperimentPage.Change | src/pages/ws_experiment.rs:125-127 | The new shared state is adopted, and the page re-renders, exactly when its content differs |
| WsExperiment.WsExperimentPage.Update | src/pages/ws_experiment.rs:129-188 | Always re-renders. The address update writes the shared state. `Connect` dials the shared address: `Pending` plus one line on success, one error line and no change on failure. `Connected` takes `connected()` plus one line. `Send` writes a frame and one line only when connected. A received frame logs one line. `Close`/`Closed` leave no socket plus one line. An error leaves no socket, one line and one error notification |
| App.StoredText | src/app.rs:60-63 | The stored text is the one-member object `{"value": ...}` with the value quoted and escaped |
| App.StoredStateRestored | src/app.rs:118-126 | A state that `update` stored is the state the next `create` starts from |
| App.Restored | src/app.rs:121-126 | The restored state, or the default when nothing or no state is stored |
| App.AppRoot.constructor | src/app.rs:118-135 | The state is restored from storage, and there is no socket |
| App.AppRoot.Change | src/app.rs:137-139 | Never re-renders |
| App.AppRoot.Update | src/app.rs:141-191 | `Ignore` changes nothing and does not re-render. A failed dial panics. Every other message takes its transition, stores the state under `cards-client-rs.state` and re-renders. `Update` sets the value, `Connect` leaves the socket `Pending`, `Send` writes only when connected, `Close`/`Closed`/`ErrorOccurred` leave no socket |

## Left out

- Rendering: every `view`/`html!` body, including the `ProgressBar` fractions of the join page. The view-only files `navbar.rs`, `list_games.rs`, `index.rs`, `create_game.rs`, `not_found.rs` and `html.rs` are not part of this model.
- Transport and platform calls: `WebSocketService::connect`, `ws.send`, `FetchService::fetch`, `IntervalService::spawn`, `RouteAgentDispatcher` and `StorageService`. Their results are parameters, and their calls are outbox entries.
- Resolving the join path against `window().location()` with `web_sys::Url`: the page's origin (`host[:port]`) is a parameter, and the URL is the concatenation. Failures of `Url::new` and `set_scheme` are not modelled.
- Percent-encoding: URLs are plain concatenations, as the source's `format!` produces them.
- Logging (`trace!`, `info!`, `error!`), `println!`, and the yew agent plumbing (`AgentLink`, bridges, scheduling). A `HandlerId` is an opaque number.
- The no-op `update` of `NotificationBus` and `StateMgr`: there is nothing to state about it.
- Parsing JSON text (the typed message in the console, inbound frames, stored state): its outcome is a parameter, a JSON value or the parser's error text.
- serde's sequence form of structs: a derived `Deserialize` also accepts a struct given as a JSON array of its fields in order. The decoder accepts only the object form. It finds the `type` tag at any position among the members.
- The sorted map inside `serde_json::Value`: a `Value` object keeps its keys in ascending order and holds each key once, and this `Json` type imposes neither. The lines of the following members are therefore stated for any member order, including orders no `Value` can have: `GameWsMgr.GameWsMgr.HandleInput` (`> `, src/agents/game_ws_mgr.rs:183), `WsExperiment.WsExperimentPage.Update` (`> ` and `< `, src/pages/ws_experiment.rs:164 and 172), `WsExperiment.ReceivedLine` (`< `), `WsDbgConsole.WebSocketDebugConsole.SendOnWs` and `UpdateCommand` (`-> `, src/components/ws_dbg_console.rs:283), `WsDbgConsole.ResponseLine` and `WsDbgConsole.WebSocketDebugConsole.OnWebSocketMessage` (`<- `, src/components/ws_dbg_console.rs:151-153).
- Floating-point numbers: a `Json` number is an integer, so the same members do not cover frames that carry a fraction or an exponent.
- WireVectors: the exact texts of the `action_awaited` and `interface_update` tests (src/wire/mod.rs:223-274) are not stated. Their messages are covered by `Wire.RoundTrip` and the member texts of `Json`.
- JoiningGame.Transition: the request builder's `unwrap()` (src/services/game_server.rs:90) panics when the http crate refuses the URL, for instance a user name with a space or a character beyond ASCII, and `fetch(..).unwrap()` (line 100) panics when the fetch cannot start. The model always issues the fetch and never panics.
- The implicit close of a replaced socket: `JoinRound` in `GameWsMgr.GameWsMgr.HandleInput` overwrites the stored `WebSocketTask`, and dropping that task closes its socket. The model keeps no record of that close.
- Error texts of serde decoding failures: `GameServer.FailureText` gives their shape, not serde's exact wording.
- Rust's `{:?}` on characters beyond ASCII (Unicode escapes of non-printable code points): `WsDbgConsole.DebugEscapeChar` covers ASCII and passes everything else through.
- WsDbgConsole.WebSocketDebugConsole.Update: states only what each kind of message leaves alone. What each branch does is the contract of `UpdateCommand`, `OnWebSocketMessage` or `OnInput`, which it calls.
- The `Rc<RefCell<State>>` shared by the experiment page is an object reference. The `neq_assign` on it compares contents, as `Rc`'s `PartialEq` does.
- JoiningGame.HttpErrorText: the double `error joining the round: ` prefix is the code's behaviour, kept as written.
