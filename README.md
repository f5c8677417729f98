# ChatSpace relay and client, modelled in Dafny

ChatSpace is a small room-based chat. A Node relay server keeps one process-wide
list `allSockets` of `{socket, room}` entries. A `join` frame appends an entry to
it. A `chat` frame looks up the sender's room as the room of the sender's first
entry, then walks the whole list and sends the raw message text to every entry
whose room equals it. The React client keeps a few state cells (`messages`,
`currentRoom`, `isConnected`, `roomCreated`, `memberCount`) and an
`attemptedRoom` slot in session storage. It updates them from inbound frames,
sends `create`, `join` and `chat` frames behind trim checks, and colours user
names with a small string hash.

Modules:

- `Relay` (`relay.dfy`), for `api/src/index.ts`. `allSockets` is a
  `seq<User>` field of the class `Relay`, and the sends are a trace
  `sent: seq<Send>`. `Join` appends. `Chat` is the source's index loop, proved
  against the specification functions `SenderRoom` (the `find`) and `Fanout`
  (the filtered sends in list order). Lemmas about those two functions give the
  delivery set, the order, the number of copies, echo to the sender, and the
  case of a sender that never joined.
- `WebSocketHook` (`session.dfy`), for `web/src/hooks/useWebSocket.ts`. The
  pure function `Dispatch` gives the effect of one `onmessage` event on the state
  cells, taken as one value `View`. The class `Session` holds the cells, and its
  `OnMessage` and `OnOpen` methods are tied to `Dispatch`. Lemmas state the
  effect of each branch.
- `ChatApp` (`app.dfy`), for `web/src/App.tsx`. The class `App` holds the page's
  fields and its guarded senders. The page's own `onmessage` handler is a copy of
  the hook's, so `App` keeps a `Session` and hands the event to it.
- `MessageList` (`message_list.dfy`), for `web/src/components/MessageList.tsx`.
  `UsernameHash` is the hash loop, proved against the function `Hash`.
  `GetUsernameColor` picks a colour from the palette. `IsOwnMessage` is the
  ownership test, and `LoggedMessagesOwnership` applies it to the messages the
  socket handler logs.
- `JsPrimitives` (`js_primitives.dfy`) holds the JavaScript built-ins these
  rely on: `trim`, `includes`, UTF-16 code units and ToInt32. `Wrappers`
  (`wrappers.dfy`) holds `Option`, which stands for `undefined`/`null`.

The server does less than the client's frames suggest:

- The server implements only `join` and `chat`. It has no `create`, no
  duplicate-room or unknown-room errors, no `memberCount` pushes and no removal
  on disconnect: the disconnect handler is commented out.
- `join` accepts any room id without a check. A socket that joins twice has two
  entries, and its room for `chat` stays the first one.
- The server relays `payload.message` as plain text, not as a
  `{type: "chat", ...}` frame.
- The room lookup compares with JavaScript's `==`. A sender with no entry gets
  room `undefined`, and `undefined == undefined` holds. So that sender's message
  reaches every entry stored by a `join` frame that had no `roomId`
  (`StrangerReachesRoomless`). When every stored room is a string, it reaches
  nobody (`StrangerReachesNobody`).

## Model

| member | source | states |
|---|---|---|
| `Relay.SenderRoom` | api/src/index.ts:35 | The room of the first entry whose socket is the sender; `undefined` when the sender has no entry |
| `Relay.SenderRoomIgnoresLater` | api/src/index.ts:35 | Entries added after the sender's first entry, its own included, never change the sender's room |
| `Relay.Fanout` | api/src/index.ts:39-43 | At most one send per entry, and every send carries the chat text |
| `Relay.FanoutAppend` | api/src/index.ts:39-43 | Sends follow list order: the fan-out over `a + b` is the fan-out over `a` followed by the fan-out over `b` |
| `Relay.FanoutDelivers` | api/src/index.ts:39-43 | A socket is sent a text exactly when that text is the chat text and the socket has an entry with the matching room |
| `Relay.FanoutCount` | api/src/index.ts:39-43 | A socket with k entries in the room gets the text exactly k times |
| `Relay.EchoToSender` | api/src/index.ts:35-43 | A sender that has joined gets its own message back |
| `Relay.StrangerReachesNobody` | api/src/index.ts:35-41 | A sender with no entry, when every stored room is a string, sends nothing |
| `Relay.StrangerReachesRoomless` | api/src/index.ts:35-41 | A sender with no entry reaches every entry stored with an undefined room |
| `Relay.Relay.constructor` | api/src/index.ts:11 | The list starts empty and nothing has been sent |
| `Relay.Relay.Join` | api/src/index.ts:20-27 | Exactly one entry `(socket, roomId)` is appended at the end, earlier entries are unchanged and nothing is sent |
| `Relay.Relay.Chat` | api/src/index.ts:32-44 | The list is unchanged, and the sends added to the trace are exactly `Fanout` for the sender's room, in list order |
| `Relay.Relay.OnMessage` | api/src/index.ts:15-45 | The old list is always a prefix of the new one. `join` appends and sends nothing, `chat` fans out, and any other type changes nothing |
| `WebSocketHook.OnSuccess` | web/src/hooks/useWebSocket.ts:32-48 | A success frame always logs the server's text first, keeps the old messages, and changes the member count only when the frame's count is truthy |
| `WebSocketHook.Dispatch` | web/src/hooks/useWebSocket.ts:29-65 | No event removes or reorders a message, none of the appended messages carries a user id, and `roomCreated` is never reset by an inbound event |
| `WebSocketHook.MessagesOnlyGrow` | web/src/hooks/useWebSocket.ts:29-65 | The old messages stay in place and in order. An event appends one message, none for `memberCount`, and two only for a "created successfully" success without "Joined room" |
| `WebSocketHook.JoinCompletes` | web/src/hooks/useWebSocket.ts:33-44 | A "Joined room" success with a pending room: the text is logged, the room becomes current, `isConnected` becomes true, the pending slot is cleared and `roomCreated` is kept. The member count changes exactly when the frame's count is truthy |
| `WebSocketHook.JoinWithoutPendingOnlyLogs` | web/src/hooks/useWebSocket.ts:33-36 | A "Joined room" success with no pending room appends the text and changes nothing else |
| `WebSocketHook.CreatedOnlyWithoutJoinedMarker` | web/src/hooks/useWebSocket.ts:34-48 | "Joined room" is checked first, so a text with both markers never sets `roomCreated`. "created successfully" alone sets it and appends the server text, then the notice |
| `WebSocketHook.ErrorOnlyLogs` | web/src/hooks/useWebSocket.ts:49-53 | An error frame appends "Error: " plus the text and touches no other cell |
| `WebSocketHook.ChatIsLogged` | web/src/hooks/useWebSocket.ts:54-55 | A chat frame appends the text with the sender's name and touches no other cell |
| `WebSocketHook.MemberCountSet` | web/src/hooks/useWebSocket.ts:56-58 | A memberCount frame sets the count and leaves everything else, messages included, unchanged |
| `WebSocketHook.UnknownLogsRaw` | web/src/hooks/useWebSocket.ts:59-64 | An unknown type and an unparseable payload both append the raw event text and change nothing else |
| `WebSocketHook.OnlyJoinConnects` | web/src/hooks/useWebSocket.ts:32-64 | Only a "Joined room" success with a pending room changes `currentRoom`, `isConnected` or `attemptedRoom` |
| `WebSocketHook.Session.constructor` | web/src/hooks/useWebSocket.ts:18-22 | The cells start empty, false, "", false and 0, and session storage keeps what it held |
| `WebSocketHook.Session.OnMessage` | web/src/hooks/useWebSocket.ts:29-65 | The new state of the cells is `Dispatch` of the old state and the event |
| `WebSocketHook.Session.OnOpen` | web/src/hooks/useWebSocket.ts:69-71 | Exactly one "Connected to server" message is appended, and nothing else changes |
| `ChatApp.App.constructor` | web/src/App.tsx:15-25 | The page starts with the generated id, an empty name, no socket, no input and nothing sent |
| `ChatApp.App.AttachSocket` | web/src/App.tsx:118 | The socket reference becomes set, and nothing else changes |
| `ChatApp.App.Render` | web/src/App.tsx:190-323 | The message input is mounted exactly while the page shows the connected view; a newly mounted input is empty |
| `ChatApp.App.CreateRoom` | web/src/App.tsx:27-38 | A `create` frame with the trimmed id is sent exactly when the trimmed id is non-empty and a socket exists. No other field changes |
| `ChatApp.App.HandleGenerateNewRoom` | web/src/App.tsx:40-43 | The new id is installed and `roomCreated` is always reset to false |
| `ChatApp.App.JoinRoom` | web/src/App.tsx:45-59 | A `join` frame is sent exactly when the trimmed id and the trimmed name are non-empty and a socket exists. Then the same trimmed id is recorded as `attemptedRoom`; otherwise nothing changes |
| `ChatApp.App.SendMessage` | web/src/App.tsx:61-76 | A `chat` frame with the untrimmed input and the current name is sent exactly when input and socket exist and the trimmed text is non-empty. The input is then cleared |
| `ChatApp.App.OnMessage` | web/src/App.tsx:81-117 | The page's copy of the handler has the same effect, `Dispatch`, including `memberCount := count` and the truthiness test on a success frame's count |
| `ChatApp.App.OnOpen` | web/src/App.tsx:120-122 | Exactly one "Connected to server" message is appended |
| `MessageList.HashStep` | web/src/components/MessageList.tsx:14 | One turn is congruent to `31 * hash + code` modulo 2^32, and its shifted term is a 32-bit value |
| `MessageList.Hash` | web/src/components/MessageList.tsx:12-15 | For 16-bit code units the hash of n units is at most n * (2^31 + 65535) in magnitude |
| `MessageList.UsernameHash` | web/src/components/MessageList.tsx:12-15 | The loop's result is `Hash` of the code units: each unit is visited once, left to right |
| `MessageList.HashFitsDoubles` | web/src/components/MessageList.tsx:12-15 | For names up to 2^21 code units the hash stays below 2^53, so integer arithmetic matches the double arithmetic |
| `MessageList.ColorIndex` | web/src/components/MessageList.tsx:30 | `Math.abs(hash) % 10` is an index of the ten-entry palette |
| `MessageList.UsernameColor` | web/src/components/MessageList.tsx:11-31 | Every name's colour is one of the palette entries |
| `MessageList.GetUsernameColor` | web/src/components/MessageList.tsx:11-31 | The returned colour is a palette entry and depends on the name alone, since it equals `UsernameColor(username)` |
| `MessageList.EmptyNameIsRed` | web/src/components/MessageList.tsx:12-30 | The empty name hashes to 0 and gets 'text-red-500' |
| `MessageList.IsOwnMessage` | web/src/components/MessageList.tsx:48 | JavaScript's `===` on two optional ids: `undefined === undefined` holds, and a set id never equals an unset one; `LoggedMessagesOwnership` gives what it means for the logged messages |
| `MessageList.LoggedMessagesOwnership` | web/src/components/MessageList.tsx:48 | No logged message carries a user id, so with no `currentUserId` every message is drawn as one's own and with one set none is |
| `JsPrimitives.TrimStart` | web/src/App.tsx:28 | Removing leading white space never lengthens the string and leaves no space at its start |
| `JsPrimitives.TrimEnd` | web/src/App.tsx:46 | Removing trailing white space never lengthens the string and leaves no space at its end |
| `JsPrimitives.Trim` | web/src/App.tsx:64 | `trim()` never lengthens a string and leaves a string with no space at either end unchanged |
| `JsPrimitives.TrimStartSpec` | web/src/App.tsx:28 | Removing leading white space keeps the longest suffix that does not start with a space, and everything dropped is white space |
| `JsPrimitives.TrimEndSpec` | web/src/App.tsx:33 | Removing trailing white space keeps the longest prefix that does not end with a space, and everything dropped is white space |
| `JsPrimitives.TrimIsSlice` | web/src/App.tsx:47 | `trim()` leaves one contiguous slice with no space at either end, and it removes only white space |
| `JsPrimitives.TrimEmptyIff` | web/src/App.tsx:46 | The trimmed string is empty exactly when every character is white space, which is the case in which a guard fails |
| `JsPrimitives.TrimIdempotent` | web/src/App.tsx:64 | Trimming an already trimmed string changes nothing |
| `JsPrimitives.Includes` | web/src/hooks/useWebSocket.ts:34-45 | Every string includes the empty string, and no string includes one longer than itself |
| `JsPrimitives.IncludesIff` | web/src/hooks/useWebSocket.ts:34 | `includes` holds exactly when the marker occurs at some position of the text |
| `JsPrimitives.ToInt32` | web/src/components/MessageList.tsx:14 | The result lies in [-2^31, 2^31) and is congruent to the input modulo 2^32 |
| `JsPrimitives.ShiftLeft5` | web/src/components/MessageList.tsx:14 | `hash << 5` lies in [-2^31, 2^31) and is congruent to 32 * hash modulo 2^32 |
| `JsPrimitives.Utf16` | web/src/components/MessageList.tsx:13-14 | Every code unit lies in [0, 65536). When all characters are in the Basic Multilingual Plane there is one unit per character and each unit is that character's code point |
| `JsPrimitives.Utf16RoundTrip` | web/src/components/MessageList.tsx:13-14 | Reading the code units back, surrogate pairs included, gives the original string |

## Left out

- The WebSocket server, the listener on port 8080, WebSocket framing and the browser `WebSocket` are left out. `socket.send` is an append to the `sent` trace.
- `JSON.parse` and `JSON.stringify` are left out. Inbound frames are already-decoded datatypes, and outbound frames on the client are the datatype `Outbound`.
- Exceptions on the server are not modelled: a frame without a `payload`, or a `send` that throws.
- Server message payloads other than strings are left out: `Relay.Frame.message` is a string, while `payload.message` at api/src/index.ts:39 is handed to `socket.send` as whatever JSON value it holds, and what `send` does with a non-string is not modelled.
- Strings with an unpaired surrogate are left out: a Dafny `string` holds Unicode scalar values, so such a JavaScript string cannot be represented. This applies to the `username` given to `getUsernameColor` (the domain of `Utf16` and `Hash`) and to every message text.
- Server room ids other than strings or `undefined` (numbers, objects) are left out. For those values JavaScript's loose `==` is more than datatype equality.
- Frames on the client whose `message` is missing or not a string are not modelled. So is a `memberCount` frame without a numeric `count`. In the source these reach `.includes` on `undefined` or store `undefined` as the count. A missing `type` behaves like any unknown type and is covered by `UnknownLogsRaw`.
- Numbers are integers. A count of NaN and fractional counts are not modelled; JavaScript truthiness of a number is `!= 0`.
- `WebSocketHook.Session.OnMessage`: every `new Date().toISOString()` within one event is the single parameter `ts`, so the two messages of a "created successfully" success share one timestamp. `toLocaleTimeString` is not modelled.
- `generateRoomId` uses `Math.random` and a base-36 float conversion. Its result is a parameter: `generatedId` of the constructor and `newId` of `HandleGenerateNewRoom`.
- React re-rendering, batching of `setState` and concurrent delivery of events are left out. Each handler is one atomic sequential step. `inputMounted` and `hasSocket` stand for the two refs being set. The `onChange` handlers that edit `roomId`, `username` and the input are JSX and are not modelled as methods.
- `alert`, `console.log`, themes, focus and scrolling are left out, and so is all rendering, including `Header.tsx`, `JoinRoom.tsx`, `ChatInput.tsx` and the JSX of `App.tsx` and `MessageList.tsx`.
- `MessageList.Hash`: JavaScript computes the hash in doubles. The model uses exact integers, which agree with doubles while magnitudes stay below 2^53. `HashFitsDoubles` shows this holds for names of up to 2^21 code units; longer names are not modelled.
- `WebSocketHook.Message`: the shared `Message` type of `web/src/types` is not part of this model. App.tsx:4-8 declares no `userId`, and no object literal of the handler sets one, so `userId` is always undefined.
- The `send` of a socket still connecting, which throws in the browser, is not modelled. `hasSocket` only says that the reference is set.
