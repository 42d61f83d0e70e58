# Monash Chatroom client: a Dafny model

The repository is a browser chat client. Users pick a display name, then
create or join a room named by a six-character code, and exchange messages
through a realtime document store. This project models three parts of it:

- the data-access module `src/lib/roomChat.js`: room-code normalisation,
  random code generation, the check-then-create room allocator, message
  posting, and the snapshot-to-message mapping;
- the lobby page `src/pages/Lobby.jsx`: the name and code validators, the
  reconnect shortcut, and the create/join handlers with their order of guards;
- the room page `src/pages/Room.jsx`: the `loading | ready | empty | error`
  status machine that the boot effect drives, the composer guards, and the
  send and leave handlers.

The external services are abstract state:

- the document store is a `Store` object: the set of existing room codes, and
  per room the list of posted messages;
- `localStorage` and the router are a `Window` object: a key/value map and the
  list of navigations made;
- `Math.random` is an oracle: a sequence of indices in `[0, 36)`;
- a failing store request is a `fault` parameter carrying the thrown error.

Files:

- `js_values.dfy`: `null`/`undefined`, thrown errors, `x || ""` and `e?.message || fallback`.
- `js_strings.dfy`: `trim` (the full ECMAScript white-space set), `length` (UTF-16 code units) and `toUpperCase` (ASCII letters).
- `browser.dfy`: storage keys, the room route, and the `Window` class.
- `room_chat.dfy`: module `RoomChat`.
- `lobby.dfy`: module `LobbyPage`.
- `room.dfy`: module `RoomPage`.

In the room page, every run of the boot effect has its own closure (`unsub`,
`cancelled`). That closure is a `BootRun` object. This lets a run that has been
torn down still deliver late results while the page has moved on.

Facts of the code the model follows:

- The room page does not check the shape of the code. It only requires the
  normalised code to be non-empty (`src/pages/Room.jsx:82`).
- Neither page wraps a store request in `withTimeout`.
- The lobby does not clear an invalid stored room code. The reconnect effect
  only declines to navigate.
- `withTimeout` never clears its timers.

## Model

| member | source | states |
|---|---|---|
| `JsValues.OrEmpty` | src/lib/roomChat.js:19 | the empty-string default for a string that may be missing: a missing string reads as `""`, a present one as itself |
| `JsValues.MessageOr` | src/pages/Lobby.jsx:50 | a present, non-empty message is the result; a missing or empty message gives the fallback text; the result is never empty when the fallback is not |
| `JsStrings.IsWhiteSpace` | src/lib/roomChat.js:19 | the characters `trim()` removes lie below U+10000 and include no ASCII letter or digit |
| `JsStrings.TrimSlice` | src/lib/roomChat.js:19 | `trim()` returns one contiguous slice of its input, and everything outside that slice is white space |
| `JsStrings.Trim` | src/lib/roomChat.js:19 | the trimmed string is no longer than the input and has no white space at either end |
| `JsStrings.TrimStart` | src/lib/roomChat.js:19 | after leading white space is removed, the result starts with a non-white-space character |
| `JsStrings.TrimEnd` | src/lib/roomChat.js:19 | after trailing white space is removed, the result ends with a non-white-space character |
| `JsStrings.TrimStartDrops` | src/lib/roomChat.js:19 | the leading trim keeps a suffix of the input and drops only white space |
| `JsStrings.TrimEndDrops` | src/lib/roomChat.js:19 | the trailing trim keeps a prefix of the input and drops only white space |
| `JsStrings.ToUpper` | src/lib/roomChat.js:19 | upper-casing keeps the length and maps each character on its own |
| `JsStrings.ToUpperChar` | src/lib/roomChat.js:19 | an ASCII lower-case letter becomes its own capital; every other character is kept |
| `JsStrings.CodeUnits` | src/pages/Lobby.jsx:10 | a character takes two UTF-16 code units exactly when it lies above U+FFFF, and one otherwise |
| `JsStrings.Length` | src/pages/Lobby.jsx:10 | `length` counts UTF-16 code units: at least the number of characters and at most twice that |
| `JsStrings.WideCharLength` | src/pages/Lobby.jsx:10 | a string holding a character above U+FFFF has a `length` of at least 2 |
| `JsStrings.SingleCharLength` | src/pages/Lobby.jsx:10 | a one-character string has the `length` of that character |
| `Browser.RoomPath` | src/pages/Lobby.jsx:48 | the room route is `/room/` followed by the code, unchanged |
| `Browser.Window.GetItem` | src/pages/Lobby.jsx:28-29 | `getItem` gives the stored value of a key that is set and `null` otherwise |
| `Browser.Window.SetItem` | src/pages/Lobby.jsx:37 | `setItem` sets one key and changes nothing else |
| `Browser.Window.RemoveItem` | src/pages/Room.jsx:108 | `removeItem` unsets one key and changes nothing else |
| `Browser.Window.Navigate` | src/pages/Room.jsx:109 | `navigate` appends one navigation with its path and replace flag; storage is untouched |
| `RoomChat.NormalizeRoomCode` | src/lib/roomChat.js:18-20 | a missing input gives `""`; the result has no white space at either end, no lower-case ASCII letter, and is no longer than the input |
| `RoomChat.NormalizeFixes` | src/lib/roomChat.js:18-20 | a string with no white space at either end and no lower-case ASCII letter is its own normal form |
| `RoomChat.NormalizeIdempotent` | src/lib/roomChat.js:18-20 | normalising twice gives the same result as normalising once |
| `RoomChat.CodeOf` | src/lib/roomChat.js:15-16 | six oracle indices spell a code of `ROOM_CODE_LEN` symbols, every one from `ROOM_CHARS` |
| `RoomChat.GenerateRoomCode` | src/lib/roomChat.js:22-28 | the loop appends one `ROOM_CHARS` symbol per draw; the result is the code those draws spell: 6 characters from the alphabet |
| `RoomChat.Generated` | src/lib/roomChat.js:38-51 | the retry loop yields one generated code per six draws, each a well-formed room code |
| `RoomChat.Candidates` | src/lib/roomChat.js:38-51 | the codes tried in turn: a non-empty preferred code first, then one well-formed generated code per six draws |
| `RoomChat.FirstFree` | src/lib/roomChat.js:44-50 | a created code is one of the candidates and was not taken |
| `RoomChat.FirstFreeIsFree` | src/lib/roomChat.js:44-50 | the search keeps going exactly when every candidate is taken |
| `RoomChat.FirstFreeCons` | src/lib/roomChat.js:44-51 | one step of the search: a free candidate is chosen at once, a taken one is passed over |
| `RoomChat.FirstFreeSkipsTaken` | src/lib/roomChat.js:44-51 | candidates that were found taken do not change which code is chosen |
| `RoomChat.PreferredWhenFree` | src/lib/roomChat.js:38-49 | a non-empty preferred code that is free is the code created |
| `RoomChat.FallbackIsGenerated` | src/lib/roomChat.js:38-51 | when the preferred code is empty or taken, any code created is a generated one |
| `RoomChat.AllocationFacts` | src/lib/roomChat.js:36-53 | the allocator's choice is free, prefers a free non-empty preferred code, and otherwise is generated |
| `RoomChat.Written` | src/lib/roomChat.js:76-80 | the data written for a message has exactly the fields `senderName` and `text`, holding the sender and the text |
| `RoomChat.Delivered` | src/lib/roomChat.js:62 | `{ id: d.id, ...d.data() }`: every data field is kept, and `id` is the data's own `id` field when there is one, otherwise the document id |
| `RoomChat.WrittenMessageDelivered` | src/lib/roomChat.js:62 | a message this client wrote comes back with exactly its document id, sender and text |
| `RoomChat.MessagesFromDocs` | src/lib/roomChat.js:59-64 | the delivered list has the snapshot's length and order, each entry delivered from its own document |
| `RoomChat.IsBlank` | src/lib/roomChat.js:72-73 | a missing text is blank; a text that is not blank trims to a string starting with a visible character |
| `RoomChat.BlankIffAllWhiteSpace` | src/lib/roomChat.js:72-73 | a text is dropped exactly when every character of it is white space |
| `RoomChat.Store.RoomExists` | src/lib/roomChat.js:30-34 | true exactly when the room's document exists |
| `RoomChat.Store.CreateRoom` | src/lib/roomChat.js:36-53 | the result is the first free candidate: a free non-empty preferred code, otherwise generated codes in draw order. The code returned was absent before and is the only code added. Message logs are untouched. When the oracle runs out of free codes, nothing changes |
| `RoomChat.Store.SendMessage` | src/lib/roomChat.js:71-81 | a missing, empty or blank text leaves every log unchanged. Otherwise exactly one message is appended to that room's log: the trimmed, non-empty text under the sender name as given. Other rooms are untouched |
| `LobbyPage.IsValidName` | src/pages/Lobby.jsx:9-11 | a missing name is invalid; a valid name does not trim to `""` |
| `LobbyPage.ValidNameShows` | src/pages/Lobby.jsx:9-11 | a valid name holds two characters that are not white space, or one such character above U+FFFF |
| `LobbyPage.ShownNameValid` | src/pages/Lobby.jsx:9-11 | two visible characters, or one visible character above U+FFFF, make a name valid |
| `LobbyPage.ValidNameIffTwoUnits` | src/pages/Lobby.jsx:9-11 | a name is valid exactly when its trimmed `length` reaches 2 UTF-16 code units: two visible characters, or one above U+FFFF |
| `LobbyPage.EmojiNameIsValid` | src/pages/Lobby.jsx:10 | a name made of one emoji (U+1F600) is valid, as its `length` is 2 |
| `LobbyPage.IsValidCode` | src/pages/Lobby.jsx:12-14 | a missing code is invalid |
| `LobbyPage.RoomCharsAreCodeChars` | src/lib/roomChat.js:16 | the alphabet `ROOM_CHARS` is exactly the character class `[A-Z0-9]` |
| `LobbyPage.ValidCodeIffRoomCode` | src/pages/Lobby.jsx:12-14 | `^[A-Z0-9]{6}$` accepts exactly the six-symbol codes over `ROOM_CHARS` |
| `LobbyPage.GeneratedCodeIsValid` | src/pages/Lobby.jsx:12-14 | every generated code passes `isValidCode` |
| `LobbyPage.ValidCodeIsNormal` | src/pages/Lobby.jsx:12-14 | every code `isValidCode` accepts is a fixed point of `normalizeRoomCode` |
| `LobbyPage.ShouldReconnect` | src/pages/Lobby.jsx:30 | the reconnect condition holds only for a present, non-empty stored name and a present stored room that is a well-formed room code |
| `LobbyPage.StoredSessionReconnects` | src/pages/Lobby.jsx:27-33 | the trimmed valid name and the valid code that a successful join or create stores satisfy the reconnect condition |
| `LobbyPage.Lobby.constructor` | src/pages/Lobby.jsx:19-24 | name and code start from storage, or as `""`; the page is not busy and shows no error |
| `LobbyPage.Lobby.Reconnect` | src/pages/Lobby.jsx:27-33 | navigates to `/room/<stored code>` (replacing) exactly when the stored name is non-empty and the stored room passes `isValidCode`; storage is untouched |
| `LobbyPage.Lobby.NormalizedCode` | src/pages/Lobby.jsx:21 | the shown code has no white space at its ends and no lower-case ASCII letter; a valid typed code is shown as typed |
| `LobbyPage.Lobby.PersistName` | src/pages/Lobby.jsx:35-38 | sets the name and stores it untrimmed under `monash_name` |
| `LobbyPage.Lobby.SetCode` | src/pages/Lobby.jsx:97 | sets the typed code; nothing else changes |
| `LobbyPage.Lobby.OnCreate` | src/pages/Lobby.jsx:40-54 | An invalid name sets the name error and touches neither storage, navigation nor the store. A store failure leaves only the trimmed name stored and shows the error's message or "Failed to create room.". Success creates the first free generated code, which passes `isValidCode`, stores name and code, and pushes `/room/<code>`. `busy` is false whenever the handler has finished |
| `LobbyPage.Lobby.OnJoin` | src/pages/Lobby.jsx:56-73 | The name is checked first, then the normalised code's shape, both before the store is asked. A missing room sets the not-found error, with no storage write, no navigation and no room created. A store failure shows its message. Success stores the trimmed name and the normalised code and pushes `/room/<code>`. `busy` ends false on every path |
| `RoomPage.InputDisabled` | src/pages/Room.jsx:148 | the input is enabled exactly in the `ready` and `empty` states |
| `RoomPage.SendDisabled` | src/pages/Room.jsx:150 | the send button is enabled exactly when the input is and the text is one `sendMessage` posts (not blank) |
| `RoomPage.BootRun.constructor` | src/pages/Room.jsx:46-48 | a run starts with no listener and not cancelled |
| `RoomPage.BootRun.Teardown` | src/pages/Room.jsx:84-87 | sets `cancelled`, and calls `unsub()` exactly when the run holds a listener |
| `RoomPage.Room.constructor` | src/pages/Room.jsx:20-26 | the code is the normalised route parameter and the name comes from storage; the status is `loading`, with no error, no messages and no text |
| `RoomPage.Room.SetRouteCode` | src/pages/Room.jsx:20 | a new route parameter re-normalises the code and keeps the rest of the page state |
| `RoomPage.Room.GuardName` | src/pages/Room.jsx:31-38 | without a stored name, replaces the route with `/`; otherwise it adopts the stored name |
| `RoomPage.Room.PersistRoom` | src/pages/Room.jsx:41-43 | stores a non-empty code under `monash_roomCode`; an empty code stores nothing |
| `RoomPage.Room.Boot` | src/pages/Room.jsx:50-55 | for a non-empty code: status `loading`, error cleared, existence check pending. For an empty code nothing happens (line 82). A fresh run has no listener |
| `RoomPage.Room.OnExistence` | src/pages/Room.jsx:55-79 | as written: a thrown check shows its message or "Failed to load room." unless cancelled. A missing room gives `error` with "Room not found." and no listener, even when cancelled. An existing room gets a listener, even when cancelled |
| `RoomPage.Room.OnExistenceGuarded` | src/pages/Room.jsx:55-79 | the same continuation with `cancelled` checked first: a torn-down run changes nothing and leaves no listener running |
| `RoomPage.Room.OnSnapshot` | src/pages/Room.jsx:64-68 | unless cancelled, `messages` is replaced wholesale by the mapped snapshot, and the status is `ready` exactly when the list is non-empty and `empty` exactly when it is empty. A cancelled run changes nothing |
| `RoomPage.Room.OnSubscriptionError` | src/pages/Room.jsx:69-73 | unless cancelled, the status becomes `error` with the error's message or "Failed to load messages."; a cancelled run changes nothing |
| `RoomPage.Room.SetText` | src/pages/Room.jsx:146 | sets the typed text; nothing else changes |
| `RoomPage.Room.OnSend` | src/pages/Room.jsx:97-105 | A successful send posts the text as `sendMessage` does and clears the text. A failing send keeps the text, sets the error, leaves the status unchanged and posts nothing |
| `RoomPage.Room.OnLeave` | src/pages/Room.jsx:107-110 | removes `monash_roomCode` and replaces the route with `/` |
| `RoomPage.LeaveWhileCheckingLeaks` | src/pages/Room.jsx:62-74 | for any existing room whose code is already normalised, leaving while its existence check is pending leaves a listener that is never closed |
| `RoomPage.LeaveWhileCheckingGuarded` | src/pages/Room.jsx:62-74 | with the guarded continuation, the same sequence leaves no listener |
| `RoomPage.StaleNotFoundOverwrites` | src/pages/Room.jsx:55-59 | for any two distinct normalised codes, a missing one then an existing one, a late "not found" from the torn-down first run puts the existing, loaded room into the error state |
| `RoomPage.StaleNotFoundIgnored` | src/pages/Room.jsx:55-59 | with the guarded continuation, the loaded room stays `ready` |

## Findings

| source | as written | input that shows it | evidently intended | confidence | as-written member | corrected member |
|---|---|---|---|---|---|---|
| src/pages/Room.jsx:62-74 | after `await roomExists(code)`, `unsub = subscribeMessages(...)` runs without checking `cancelled`. A teardown that ran during the await found `unsub` null (line 86) | room `ABC123` (or any other existing code) exists; the user presses Leave while its existence check is pending; the check then resolves true | a run torn down before its check resolves opens no listener, or closes it at once | high; not executed | `RoomPage.LeaveWhileCheckingLeaks` (on `RoomPage.Room.OnExistence`) | `RoomPage.Room.OnExistenceGuarded`, `RoomPage.LeaveWhileCheckingGuarded` |
| src/pages/Room.jsx:55-59 | the not-found branch sets status `error` without checking `cancelled`, unlike the catch branch (line 76) and both callbacks | the route changes from `/room/AAAAAA` (missing) to `/room/BBBBBB` (existing; any two distinct codes do) while the first check is pending; `BBBBBB` loads; then the first check resolves false | a late result of a torn-down run is ignored | medium; not executed | `RoomPage.StaleNotFoundOverwrites` (on `RoomPage.Room.OnExistence`) | `RoomPage.Room.OnExistenceGuarded`, `RoomPage.StaleNotFoundIgnored` |

## Left out

- The document store's own behaviour is not modelled. That covers `getDoc`, `setDoc`, `addDoc` and `onSnapshot`, server timestamps, the `createdAt` ordering and `limit(100)` of the subscription query, and the link between stored messages and delivered snapshots. Snapshots are inputs to `RoomPage.Room.OnSnapshot`.
- `RoomChat.Delivered` holds string-valued fields only: the `createdAt` server timestamp, and any field of another type, is not part of the model's document data.
- The `createdAt` field of rooms and messages is left out. The message time display (`fmtTime`) is left out too, since it depends on dates and locales.
- `RoomChat.Store.CreateRoom` loops without bound in the source. The model bounds the loop by the length of the oracle sequence and returns `Searching` when no draws are left. Termination of the source loop is not claimed.
- `RoomChat.Store.CreateRoom` does not model a store request that fails. In `LobbyPage.Lobby.OnCreate` such a failure is a fault raised before the first store request, so no room is created.
- `LobbyPage.Lobby.OnCreate`: when the oracle runs out, the model leaves the page busy. This matches a `createRoom` call that has not resolved.
- `LobbyPage.Lobby.OnJoin` and `LobbyPage.Lobby.OnCreate` each run as one atomic step, so input events that arrive during their awaits are not modelled. Both require a page that is not busy, because the buttons are disabled while busy.
- `RoomChat.Store.CreateRoom` runs as one atomic step, while the source awaits `getDoc` and then `setDoc` separately. Another client that creates the same code between the two awaits is not modelled; in the source `setDoc` then overwrites that room and both callers get the same code. The freshness of the created code holds only for a store without such interleavings.
- `RoomPage.Room.OnSend` runs as one atomic step. In the source, `setText("")` runs after the `sendMessage` await, so text typed while a send is pending is wiped. The room page has no busy flag, so a second submit during a pending send posts the same text twice. Neither interleaving is modelled.
- `JsStrings.ToUpper` maps only the ASCII letters. Unicode case mapping, which can change a string's length, is not modelled.
- `JsStrings.ToUpperChar` likewise keeps every non-ASCII character: a letter such as 'é', which `toUpperCase` maps to 'É', is left unchanged.
- `withTimeout` in `src/lib/utils.js` is not part of this model. It is a promise and timer race, and no page calls it.
- The auto-scroll effect, the JSX rendering and styling, and the route table in `src/App.jsx` are left out, since none holds logic beyond wiring.
- `subscribeMessages` guards its error callback with `if (onError)`; the room page always passes one, so the model delivers errors to `RoomPage.Room.OnSubscriptionError` directly.
