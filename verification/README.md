# Device registry and command routing of the cloud audio control server

`server.js` is a small relay. Audio devices open WebSocket connections to it, and HTTP
clients send one-shot commands to a device by id. Its one piece of state is the `devices`
object, which maps the uuid generated for each live connection to that connection's
socket. Accepting a connection and closing one change it. `POST /send/:id` reads it to
route a command, and `GET /devices` reads it to list its keys. A frame that a connection
sends touches neither.

This project models that registry as an immutable `map<DeviceId, Socket>`. It gives each
handler as a pure transition function and proves what the handlers promise, one call at a
time and over whole event traces. Modules:

- `Values`: `Option`, and the opaque `Json` value that the server passes through unread.
- `Devices`: the registry, and the connect (`Connect`) and close (`Close`) handlers.
- `Messages`: the frame handler, which parses and logs a frame and changes nothing.
- `Routing`: the command router with own-key lookup (`Route`). It also holds the router as
  written, which also looks up inherited object members (see Findings).
- `DeviceList`: the `/devices` listing.
- `Server`: the events, the registry transition and a step function, the replay of a
  trace, and the trace-level properties. The step function sends commands to the corrected router `Route`.

Sockets and JSON values are opaque types, because only their identity matters here. The
source calls five things outside itself: the uuid generator, `JSON.parse`,
`JSON.stringify`, the socket's `send` and the console. These become the following:

- uuid generator: an id supplied by the caller, with the precondition that it is not yet a
  key. Over a trace, the `Fresh` predicate says that no earlier event connected or closed
  that id.
- `JSON.parse`: the `parsed` field of a `Frame`.
- `JSON.stringify`: left out; the payload sent is the body itself.
- socket `send`: a `SendOutcome` parameter, either `Returned` or `Threw`.
- console: a `Log` value. The frame handler returns one, and the step function emits the
  connect and disconnect announcements.

What the code does, and what it does not do:

- A command is sent as the request body itself, with no `{type:"cmd"}` envelope.
- Closing a connection deletes its entry. Nothing is marked offline.
- An unknown id is answered `"Device not connected"`, except the Object.prototype names
  such as `constructor`, which are answered `"Send failed"` (see Findings).
- There is no per-device state store, dashboard broadcast or liveness probe.

## Model

| member | source | states |
|---|---|---|
| Devices.Connect | server.js:70-72 | a new connection's fresh id is bound to its socket; every other entry keeps its socket; the registry grows by one |
| Devices.Close | server.js:87-88 | closing removes exactly the connection's own id, every other entry keeps its socket, and closing an absent id changes nothing |
| Devices.ConnectThenClose | server.js:70-88 | a connection that opens with a fresh id and then closes leaves the registry as it was before |
| Messages.HandleMessage | server.js:77-84 | a frame never changes the registry, whether or not it parses; a parsed frame is logged with the connection's id and its data, and an unparsable one is logged with its raw text |
| Routing.Route | server.js:35-49 | an id that is not a key gives "Device not connected" and no send; a key gets one send of the unchanged body to its socket; the reply is "Send failed" exactly when that send threw, and otherwise ok with the body echoed |
| Routing.PropertyOf | server.js:38 | `devices[id]` reads the id's own socket when the id is a key, an inherited member when it is an Object.prototype name, and nothing otherwise |
| Routing.RouteAsWritten | server.js:38-45 | the handler as written reports "Device not connected" only for ids that are neither keys nor inherited names; an inherited name that is not a key is answered "Send failed" with no send; on every other id it agrees with Route |
| Routing.ConstructorIsMisreported | server.js:38-45 | with no device named "constructor", the handler as written answers "Send failed", whereas Route answers "Device not connected" |
| Routing.AsWrittenDiffersOnlyOnInheritedNames | server.js:38-45 | the handler as written and Route give different results exactly for inherited names that are not registry keys |
| DeviceList.ListDevices | server.js:27-31 | the listed ids are exactly the registry's keys, each listed once, and the count equals both the number of listed ids and the registry's size |
| Server.Next | server.js:70-91 | connecting binds its id to its socket; closing removes its id; every other entry keeps its socket; frames and commands leave the registry unchanged |
| Server.Step | server.js:35-91 | the registry moves as Server.Next says; connecting and closing announce the id; a frame logs its data with the connection's id, or its raw text when it does not parse; a command to an unknown id gets "Device not connected" and no send; one to a known id sends the body to that id's socket and gets "Send failed" if the send throws, and otherwise ok with the body echoed |
| Server.RunMatchesExpected | server.js:70-91 | replaying any trace of fresh connections gives the starting entries plus every opened connection's socket, minus every closed id |
| Server.RegistryHoldsOpenConnections | server.js:70-91 | starting from an empty registry, the registry holds exactly the connections opened and not yet closed, each bound to the socket it connected with |
| Server.QuietTraceKeepsRegistry | server.js:35-84 | any trace made only of frames and commands, valid or not and whatever the send outcome, leaves the registry unchanged |
| Server.ClosedDeviceIsUnreachable | server.js:35-49 | a connected device's command is sent to its own socket; once that connection closes, a command to it gives "Device not connected" and no send |
| Server.ClosedIdIsUnreachable | server.js:35-91 | after any fresh trace from an empty registry, a command to any id the trace closed, whatever events came in between, gets "Device not connected" and no send from the corrected router, and from the handler as written for any id that is not an Object.prototype name, which covers every uuid the server generates |
| Server.ClosedDeviceIsUnreachableAsWritten | server.js:35-49 | the same holds of the handler as written for any id that is not an Object.prototype name, which covers every uuid the server generates |

## Left out

- Express setup, CORS, JSON body parsing, the `/` banner route, and choosing the port and calling `app.listen` (server.js:5-12, 22-24, 57-61): these are framework input/output.
- Constructing the `WebSocketServer` and the socket semantics of the `ws` library (server.js:68): a send is modelled only as delivered or thrown.
- uuid generation (server.js:71): a random source outside the model. It is replaced by a caller-supplied id that must be fresh.
- `JSON.parse`, `JSON.stringify` and `console.log` (server.js:43, 74, 79-82, 89): the parse result arrives with the frame. The serialised payload is represented by the body itself. Log output is a returned `Log` value, not formatted text.
- Server.Step: sends commands to the corrected router `Route`, not to `RouteAsWritten`. So for an Object.prototype name that is not a key, it answers "Device not connected" where server.js:38-45 answers "Send failed" (see Findings). The target comes from the request URL, so any client can reach this case; `Routing.RouteAsWritten` gives the reply as written.
- DeviceList.ListDevices: does not fix the order of the listed ids. JavaScript lists these keys in insertion order, but a map has no order.
- How event handlers from different connections interleave is modelled as one sequential trace of events.

## Findings

| source | as written | input that shows it | evidently intended | confidence | as-written member | corrected member |
|---|---|---|---|---|---|---|
| server.js:38-45 | `!devices[id]` tests a plain object, so Object.prototype members such as `constructor` or `__proto__` count as connected; calling their missing `send` throws, and the handler replies "Send failed" | `POST /send/constructor` when no device has that id | `{ok:false, error:"Device not connected"}`, looking up only the object's own keys | high; not executed | Routing.RouteAsWritten (shown by Routing.ConstructorIsMisreported) | Routing.Route |
