# Machine websocket listener and shared event store

This project models the logic inside the `MachinesWS` widget of comfyui-deploy
(`web/src/components/MachinesWS.tsx`). A listener per machine receives decoded
frames over a websocket. It stores them in one page-wide store, and each machine
shows its own log lines in timestamp order. The model has six modules:

- `Wrappers` (`wrappers.dfy`): the `Option` type, shared by the frame shape and the
  endpoint inverse.
- `Messages` (`messages.dfy`): the decoded frame `{event, data}`. `data` is absent,
  a plain string (the LOGS payload), or an object with optional `sid` and
  `prompt_id`. JavaScript truthiness of those fields means present and non-empty.
- `Store` (`store.dfy`): the zustand store `useStore` as the class `EventStore`. It
  has two `seq` fields, `data` and `logs`, which start empty, and two append
  methods. The clock reading `Date.now()` is a parameter.
- `LogView` (`log_view.dfy`): the per-machine selector `filter(...).sort(...)` as
  pure functions. `ForMachine` is the filter. `SortByTime` is a stable insertion
  sort on integer timestamps. `MachineLogs` composes the two. Stability is stated
  through `WithTime(s, t)`, the subsequence of records stamped `t`. Two sequences
  agree on it for every `t` exactly when equal timestamps keep their relative
  order. `SortedUnique` shows that a sorted sequence is determined by these
  subsequences. So every stable ascending sort, including the engine's
  `Array.prototype.sort`, gives the same result as `SortByTime`.
- `Listener` (`listener.dfy`): the `lastMessage` effect. `Handle` is the effect of
  one frame: the new `sid` and the records appended to each stream.
  `MachineListener.OnMessage` performs that effect on a shared `EventStore`.
  `Replay` folds `Handle` over a run of frames, for properties of a listener's
  whole lifetime.
- `Endpoint` (`endpoint.dfy`): the socket address. `endpoint.replace(/^http/, "ws")`
  followed by `/comfyui-deploy/ws`, which gives the ws/wss schemes of section 3 of
  RFC 6455. `HttpEndpoint` is the inverse used to state the round trip.

The model keeps these details of the code:

- The session id and the prompt id are tested for truthiness, not for presence.
  An empty `sid` or `prompt_id` is ignored.
- A LOGS frame stores `message.data` as it is. The declared type says `string`,
  but an object payload is stored unchanged too. So `LogRecord.logs` is a `Payload`.
- A malformed frame is not caught: the exception propagates. The model takes
  frames that are already decoded and requires `data` to be present, because
  `message.data.sid` throws otherwise.

## Model

| member | source | states |
|---|---|---|
| `Store.EventStore.constructor` | web/src/components/MachinesWS.tsx:42-44 | both streams start empty |
| `Store.EventStore.AddLogs` | web/src/components/MachinesWS.tsx:45-50 | appends exactly one record `{machine_id, logs, timestamp}` at the end of `logs`; earlier log records and the whole `data` stream are unchanged |
| `Store.EventStore.AddData` | web/src/components/MachinesWS.tsx:51-55 | appends exactly one record `{id, timestamp, json}` at the end of `data`; earlier data records and the whole `logs` stream are unchanged |
| `LogView.ForMachine` | web/src/components/MachinesWS.tsx:80-81 | the filter keeps exactly the records whose `machine_id` is the machine's id, and is never longer than its input |
| `LogView.ForMachineAppend` | web/src/components/MachinesWS.tsx:80-81 | filtering distributes over concatenation, so appending to the store appends to the filtered subsequence |
| `LogView.Insert` | web/src/components/MachinesWS.tsx:82 | inserting adds exactly one occurrence of the record and nothing else, and the result starts with the record or with the old head |
| `LogView.InsertSorted` | web/src/components/MachinesWS.tsx:82 | inserting into a sorted sequence keeps it sorted |
| `LogView.SortByTime` | web/src/components/MachinesWS.tsx:82 | the sorted result is non-decreasing in timestamp and a permutation of its input |
| `LogView.SortStable` | web/src/components/MachinesWS.tsx:82 | for every timestamp, the records carrying it appear in the same relative order after sorting as before (stability) |
| `LogView.SortedUnique` | web/src/components/MachinesWS.tsx:82 | two sorted sequences with the same per-timestamp subsequences are equal, so the stable sort's result is unique |
| `LogView.MachineLogs` | web/src/components/MachinesWS.tsx:79-83 | the selector: this machine's records, sorted by timestamp. Its contract says the view is sorted and a permutation of the filtered records; `ViewMembership`, `ViewOrdered`, `ViewCharacterized` and `ForeignAppend` give its other properties |
| `LogView.ViewMembership` | web/src/components/MachinesWS.tsx:79-83 | a record is in the machine's view if and only if it is in the store's logs and carries that machine's id |
| `LogView.ViewPermutation` | web/src/components/MachinesWS.tsx:79-83 | the view is the same multiset as the filtered subsequence |
| `LogView.ViewOrdered` | web/src/components/MachinesWS.tsx:79-83 | the view is ascending by timestamp and records with equal timestamps keep their insertion order |
| `LogView.ViewCharacterized` | web/src/components/MachinesWS.tsx:79-83 | a sequence is the view if and only if it is sorted and keeps the insertion order of each timestamp's records |
| `LogView.ForeignAppend` | web/src/components/MachinesWS.tsx:79-83 | appending records of other machines leaves this machine's view unchanged |
| `Listener.Handle` | web/src/components/MachinesWS.tsx:111-128 | an empty frame changes nothing; a truthy `sid` becomes the sid, otherwise it is kept; one data record `{prompt_id, json = message}` exactly when `prompt_id` is truthy, whatever the event; one log record `{machine id, data}` exactly when the event is LOGS; nothing else |
| `Listener.MachineListener.constructor` | web/src/components/MachinesWS.tsx:84 | the listener's sid starts empty and it is bound to its machine id and the shared store |
| `Listener.MachineListener.OnMessage` | web/src/components/MachinesWS.tsx:111-128 | handling a frame sets the sid and appends to the shared store exactly as `Handle` says |
| `Listener.Replay` | web/src/components/MachinesWS.tsx:125-127 | every log record a listener produces carries that listener's machine id |
| `Listener.ReplayCounts` | web/src/components/MachinesWS.tsx:121-127 | over any run of frames, the data records added equal the frames with a truthy `prompt_id`, and the log records added equal the LOGS frames |
| `Listener.ReplaySnoc` | web/src/components/MachinesWS.tsx:111-128 | frames are handled in arrival order: one more frame extends the effect of the earlier ones |
| `Listener.ReplaySid` | web/src/components/MachinesWS.tsx:117-119 | after any run of frames the sid is the latest truthy `sid` seen, or the initial one if none was truthy |
| `Listener.NoCrossContamination` | web/src/components/MachinesWS.tsx:125-127 | whatever frames machine A's listener handles, machine B's log view is unchanged |
| `Messages.SidOf` | web/src/components/MachinesWS.tsx:117 | `message.data.sid`; a plain-string payload never yields a truthy sid |
| `Messages.PromptIdOf` | web/src/components/MachinesWS.tsx:121 | `message.data?.prompt_id`; a plain-string payload never yields a truthy prompt id |
| `Endpoint.WsEndpoint` | web/src/components/MachinesWS.tsx:86 | the anchored replacement: an endpoint starting with `http` becomes `ws` followed by everything after those four characters; any other endpoint is unchanged; the result starts with `http` only when it is the unchanged endpoint. `RewriteIdempotent` and `RewriteKeepsRest` give its other properties |
| `Endpoint.SocketUrl` | web/src/components/MachinesWS.tsx:86-88 | the socket URL ends with `/comfyui-deploy/ws` and what comes before it is the rewritten endpoint. `HttpBecomesWs`, `HttpsBecomesWss`, `OtherSchemeKept` and `SocketUrlRoundTrip` give its other properties |
| `Endpoint.HttpBecomesWs` | web/src/components/MachinesWS.tsx:86-88 | `http://host` connects to `ws://host/comfyui-deploy/ws` |
| `Endpoint.HttpsBecomesWss` | web/src/components/MachinesWS.tsx:86-88 | `https://host` connects to `wss://host/comfyui-deploy/ws` |
| `Endpoint.OtherSchemeKept` | web/src/components/MachinesWS.tsx:86-88 | an endpoint not starting with `http` keeps its prefix and only gains the events path |
| `Endpoint.RewriteKeepsRest` | web/src/components/MachinesWS.tsx:86-88 | only the leading `http` is replaced by `ws`; everything after it is kept, followed by the events path |
| `Endpoint.RewriteIdempotent` | web/src/components/MachinesWS.tsx:86 | the anchored replacement happens at most once: rewriting a rewritten endpoint changes nothing |
| `Endpoint.SocketUrlRoundTrip` | web/src/components/MachinesWS.tsx:86-88 | for an http(s) endpoint, the endpoint can be recovered from the socket URL |
| `Endpoint.RewriteNotInjective` | web/src/components/MachinesWS.tsx:86-88 | for endpoints not starting with `http` the rewrite loses information: `httpx` and `wsx` share one socket URL |

## Left out

- Rendering is not modelled: the badge, dialog and icon components, the
  connection-status glyph table, and the scroll-to-bottom effects. These are
  presentation and DOM side effects.
- `useWebSocket` is not modelled: connection lifecycle, ready state and the reconnect
  policy (retry always, 20 attempts, 1000 ms apart). It is a transport inside a
  third-party library.
- zustand's subscription and re-render machinery and React's hook scheduling are
  not modelled. `set` is a plain replacement of the store's fields. `setSid` is an
  assignment that takes effect at once. React may batch renders, so several socket
  frames that arrive between two renders can collapse into one `lastMessage`. A
  `Frame` is one observed change of `lastMessage`, so `Listener.ReplayCounts` counts
  handled frames, not frames received on the socket.
- `JSON.parse` and its exception on a malformed frame are not modelled. The handler
  takes a decoded message, and `None` stands for a missing `lastMessage` or empty
  frame text. A decoded message without `data` is excluded by a precondition,
  because the source throws there.
- `Date.now()` is a parameter. Each frame carries two readings, one for `addData` and
  one for `addLogs`, which may differ. Timestamps are mathematical integers. The
  comparator `a.timestamp - b.timestamp` on millisecond counts never overflows or
  yields NaN.
- Other keys of a frame's `data` object are not modelled. A non-string `sid` or
  `prompt_id` is not modelled either. `json` keeps the message as the model
  represents it.
- `console.log` and the commented-out `queryParams` are not modelled: output only, and
  dead code.
- The engine's sort algorithm is not modelled as such. The model uses insertion
  sort and proves it is the only stable ascending ordering (`LogView.SortedUnique`),
  so it agrees with any stable sort.
- Tearing down a listener (no store updates after the view is removed) is not
  modelled. It depends on React unmount semantics and the websocket library.
