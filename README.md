# Room service store — a Dafny model

The room service (`service/roomService.js`) is the HTTP side of a small LAN
game room. One process keeps, in memory, a registry of players and a table of
data that players submit, and answers six routes over that state. This project
models:

- the store: two insertion-ordered JavaScript `Map`s, `players` (player id →
  player record) and `data` (`<playerId>_<dataType>` → datum), as the class
  `Room.RoomStore` whose fields are association lists that the handlers
  reassign (`OrderedMap` gives `Map.get`/`Map.set` their JavaScript meaning:
  setting an existing key replaces its value where it stands, a new key goes
  at the end);
- the handlers as methods of that class: join, query room, recreate, submit,
  query data (with its loops over the data map), health check, and
  `getServiceStatus`;
- the dispatch: the CORS middleware that answers OPTIONS before routing, the
  six routes, the 404 listing (`Routes`), and one request through all of it
  (`RoomStore.Handle`);
- the port fallback of `startRoomService` (`Listen`).

Clock readings (`new Date().toISOString()`, `process.uptime()`) are opaque
inputs (`Clock`); the payload is a type parameter the store never looks at.
A request field is `Option<string>`: `None` is a field that is absent, and
the handlers' `!field` test is `Present` (present and not empty).

Facts of the code that the model keeps as they are: there is no room
identifier (recreate only empties the two maps and no reply carries a
`roomId`); five routes live under `/api`, and the health check is `/health`; `lastSeen` is set at join and never
refreshed; a malformed JSON body goes to the error middleware (status 500),
not to a 400 reply.

## Model

| member | source | states |
|---|---|---|
| `OrderedMap.IndexOf` | service/roomService.js:8-9 | a map lookup finds the first (for distinct keys, the only) entry with the key, or reports that no entry has it |
| `OrderedMap.Get` | service/roomService.js:230 | `map.get(k)`: the value of the entry `IndexOf` finds, or nothing; its meaning after a `set` is stated by `SetGetSame`, `SetGetOther` and `GetAt` |
| `OrderedMap.Set` | service/roomService.js:143-148 | `map.set(k, v)`: the value is replaced where the key stands, or the pair is appended; its meaning is stated by `SetGetSame`, `SetGetOther`, `SetKeys`, `SetUnique`, `SetDistinct` and `SetFresh` |
| `OrderedMap.SetGetSame` | service/roomService.js:143-148 | after `set(k, v)` the map yields `v` for `k` |
| `OrderedMap.SetGetOther` | service/roomService.js:203-208 | `set(k, v)` leaves every other key's value as it was |
| `OrderedMap.SetKeys` | service/roomService.js:143-148 | `set` keeps the key order when the key was present and appends it otherwise; the size grows by one exactly for a new key |
| `OrderedMap.SetUnique` | service/roomService.js:143-148 | after `set(k, v)` exactly one entry has key `k`, and it holds `v` |
| `OrderedMap.SetDistinct` | service/roomService.js:203-208 | `set` never creates a duplicate key |
| `OrderedMap.SetFresh` | service/roomService.js:236-245 | setting a key the map lacks appends it at the end |
| `OrderedMap.GetAt` | service/roomService.js:230 | in a map with distinct keys, each entry is found at its own position |
| `OrderedMap.HasIffKey` | service/roomService.js:230-231 | `has(k)` holds exactly when `k` is among the keys |
| `Room.RoomStore.constructor` | service/roomService.js:7-10 | the store starts with two empty maps |
| `Room.RoomStore.Join` | service/roomService.js:132-157 | an absent or empty id or name gives 400 "Missing playerId or playerName" and changes neither map; otherwise the player is upserted under its id, no other player changes, the count grows only for a new id, and the reply's `playerCount` is the new size |
| `Room.RoomStore.QueryRoom` | service/roomService.js:160-170 | the snapshot lists the player records in first-join order; `playerCount` and `dataCount` are the sizes of the maps; nothing changes |
| `Room.RoomStore.Recreate` | service/roomService.js:173-184 | both maps are empty afterwards |
| `Room.RoomStore.Submit` | service/roomService.js:191-217 | an absent or empty player id or data type gives 400 "Missing playerId or dataType" and changes neither map; otherwise the datum is set under `playerId_dataType` (last write wins, no duplicate), no other datum changes, and the reply carries the key |
| `Room.RoomStore.QueryData` | service/roomService.js:220-253 | the reply's data is exactly `Select` of the table for the query, built by the two loops, and `totalCount` is its length; nothing changes |
| `Room.RoomStore.HealthCheck` | service/roomService.js:260-269 | the health reply carries both map sizes and the uptime |
| `Room.RoomStore.GetServiceStatus` | service/roomService.js:286-293 | the call throws exactly when the module holds a server handle that is not listening (its address is null, so reading `port` fails); otherwise `isRunning` holds exactly when a handle is held, `port` is its port or null without one, and the counts are the map sizes |
| `Room.RoomStore.Handle` | service/roomService.js:31-124 | a request that reaches the CORS middleware gets its three headers and the status of its reply; OPTIONS is answered 200 before routing; each routed request gets its own handler's reply and state change (a validated join or submit sets its record, a refused one changes nothing, recreate empties both maps, the queries and the health check return what those handlers return and change nothing); an unmatched request gets the 404 listing with its URL |
| `Room.StatusCode` | service/roomService.js:36-37 | the HTTP status of a reply: 400 for a refused join or submit (:136, :195), 404 for the fallback (:111), 200 otherwise (the preflight's `sendStatus(200)` and every `res.json` without a status); `Room.RoomStore.Handle` states that a response carries it and that it is 200 exactly for a successful reply |
| `Room.Message` | service/roomService.js:152-156 | the `message` text of a reply: "Joined room successfully" (:154), "Room recreated successfully" (:182), "Data submitted successfully" (:214), none otherwise; `Join`, `Recreate` and `Submit` state the text they answer with, and `Handle` that only those three routes give a message |
| `Room.ByPlayer` | service/roomService.js:234-240 | the entries of the data map whose stored `playerId` equals the filter, in map order; stated by `ByPlayerExactly` and `ByPlayerDistinct`, and `QueryData`'s loop is proved to build it |
| `Room.Select` | service/roomService.js:225-246 | the entries a data query should return in each of its three modes; stated by `SelectExact`, `SelectByPlayer` and `SelectAll`, and `QueryData` is proved to return it |
| `Room.DataKey` | service/roomService.js:202 | the key is the player id, an underscore, then the data type |
| `Room.KeysCollide` | service/roomService.js:202 | moving an underscore between player id and data type gives the same key, so ("a_b", "c") and ("a", "b_c") share one entry |
| `Room.KeyDeterminesPairWithoutUnderscore` | service/roomService.js:202 | if neither player id contains an underscore, equal keys mean equal pairs |
| `Room.SelectExact` | service/roomService.js:227-233 | with both filters the query returns at most one entry, the one stored under their key, unchanged, and one exactly when that key is stored |
| `Room.SelectByPlayer` | service/roomService.js:234-240 | with only a player id the query returns exactly the entries whose stored `playerId` equals it |
| `Room.SelectAll` | service/roomService.js:241-245 | without a player id (a lone data type included) the query returns the whole table |
| `Room.ByPlayerExactly` | service/roomService.js:236-239 | an entry is in the by-player result exactly when it is in the table with that player id |
| `Room.ByPlayerDistinct` | service/roomService.js:236-240 | the by-player result is no longer than the table and has distinct keys when the table does |
| `Room.SubmitThenQuery` | service/roomService.js:202-208 | after submitting a pair, the exact query for it returns exactly the submitted datum |
| `Routes.Available` | service/roomService.js:115-122 | the 404 listing is exactly the six lines `POST /api/room/join - 加入房间` … `GET /health - 健康检查`, in registration order, and line `i` is `Listing` of the `i`-th entry of the table that `Route` dispatches on (its method, path and description) |
| `Routes.Route` | service/roomService.js:35-124 | which endpoint answers a request: OPTIONS first (:35-38), then the six routes in registration order (:98-107), then the 404 fallback (:110-124); its meaning is stated by `OptionsAlwaysPreflight`, `RegisteredRoutesReachHandlers`, `NotFoundIffNoRoute` and `RouteIgnoresCase` |
| `Routes.OptionsAlwaysPreflight` | service/roomService.js:36-39 | every OPTIONS request is answered by the preflight, whatever its path |
| `Routes.RegisteredRoutesReachHandlers` | service/roomService.js:98-107 | each of the six routes, requested as registered, reaches its handler |
| `Routes.NotFoundIffNoRoute` | service/roomService.js:110-124 | the 404 fallback answers exactly the non-OPTIONS requests that no route matches |
| `Routes.RouteIgnoresCase` | service/roomService.js:98-107 | the letter case of the path never changes which handler answers |
| `Routes.Lower` | service/roomService.js:98-107 | ASCII lower-casing keeps the length and lower-cases each character |
| `Listen.StartListening` | service/roomService.js:63-82 | how a start ends, given what each listen attempt reports: bound to the port, bound to `port + 1` after "address in use", a handle left without a port, or an unhandled retry failure; stated by `AtMostOneFallback` |
| `Listen.AtMostOneFallback` | service/roomService.js:63-82 | the server listens on the configured port or, only after "address in use", on the next one, and no further port is tried; any other first failure is only logged and leaves the handle in place without a port; a failed retry has no error listener and escapes unhandled |
| `PlainObject.ProtoEntryLostAsWritten` | service/roomService.js:236-245 | as written, a datum submitted as player `_`, type `proto__` is missing from the unfiltered and by-player results (`totalCount` 0), while `Select` returns it |
| `PlainObject.AssignAsWritten` | service/roomService.js:238 | the own keys of a `{}` object after `result[key] = value`: unchanged for the key `__proto__`, a map `set` otherwise; its effect over a loop is stated by `AssignAllDropsProto` |
| `PlainObject.AssignAllAsWritten` | service/roomService.js:236-245 | the own keys after the assignment loop over a sequence of entries, from `{}`; stated by `AssignAllDropsProto` and `WithoutProtoFrom` |
| `PlainObject.QueryDataAsWritten` | service/roomService.js:225-252 | the data query as written: the exact mode through the computed literal, the other two modes through the assignment loop; stated by `ProtoEntryLostAsWritten` and `AsWrittenAgreesWithoutProto` |
| `PlainObject.AssignAllDropsProto` | service/roomService.js:243-245 | as written, assigning entries one by one into `{}` keeps all of them except the one under `__proto__` |
| `PlainObject.AsWrittenAgreesWithoutProto` | service/roomService.js:225-252 | when no stored key is `__proto__`, the query as written answers exactly as `Select` specifies |
| `PlainObject.ProtoKeyIsReachable` | service/roomService.js:202 | the submissions (`_`, `proto__`) and (`__proto`, `_`) are stored under the key `__proto__` |
| `PlainObject.WithoutProtoFrom` | service/roomService.js:243-245 | an entry survives the as-written assignment exactly when its key is not `__proto__` |

## Findings

| source | as written | input that shows it | evidently intended | confidence | as-written member | corrected member |
|---|---|---|---|---|---|---|
| service/roomService.js:236-245 | the by-player and unfiltered data queries copy entries with `result[key] = value` into an object made by `{}`; for the key `__proto__` that assignment sets the prototype instead of adding a key | submit player `_`, type `proto__`, then `GET /api/data/query` (or `?playerId=_`): the stored datum is left out and `totalCount` is 0 | every selected entry is in `data` and counted in `totalCount` | not executed; follows from the JavaScript semantics of `__proto__` on ordinary objects | `PlainObject.ProtoEntryLostAsWritten` | `Room.RoomStore.QueryData` |

## Left out

- Express itself: body parsing (`express.json`, `express.urlencoded`), the logging middleware and the error middleware (a malformed body or a handler fault answered with status 500) are library plumbing; a request reaches the model with its fields already parsed. Because the body parsers run before the CORS middleware, that 500 reply to a malformed body carries no CORS headers; `Room.RoomStore.Handle` covers only requests that reach the CORS middleware.
- Non-string request fields: a JSON number, array or object as `playerId`, `playerName` or `dataType` (or a repeated query parameter) is not modelled; every field is a string or absent.
- Starting and stopping the server (`startRoomService`, `stopRoomService`): sockets and handles; only how a start ends is modelled (`Listen.StartListening`), and `GetServiceStatus` takes the module's `server` variable (no handle, a handle not listening, or a handle listening on a port) as a parameter.
- Clock and uptime values: opaque inputs; the two date readings of a join are separate inputs because the code reads the clock twice.
- The console output of every handler.
- Paths are matched as given (no percent-decoding); HEAD requests reach the GET handlers, whose body the server then drops; the model returns the reply regardless.
- main.js (window and application lifecycle), preload.js (an IPC bridge whose handlers are not part of this model), test/game.js and public/scripts (page and serial-port glue) are not part of this model.
