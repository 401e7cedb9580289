/** The `POST /send/:id` handler: routes a command body to one connected device. */
module Routing {
  import opened Values
  import opened Devices

  /** What the socket's `send` did: it returned, or it threw. Returning is all the handler
      can see; it does not mean the device received the command, since a socket that is
      already closing drops the frame without throwing. `send` is a foreign call, so the
      caller supplies its outcome. */
  datatype SendOutcome = Returned | Threw

  /** A send the handler attempted: the socket written to and the payload written. */
  datatype Delivery = Delivery(socket: Socket, payload: Json)

  /** The JSON reply: `{ok: true, sent: body}` or `{ok: false, error: message}`. */
  datatype Reply = Ok(sent: Json) | Err(error: string)

  /** The reply together with the send the handler attempted, if any. */
  datatype Routed = Routed(reply: Reply, attempt: Option<Delivery>)

  const NotConnected: string := "Device not connected"
  const SendFailed: string := "Send failed"

  /** Routes `body` to the device `id`, looking `id` up among the registry's own keys.
      An unknown id is reported without any send. A known id gets the body itself as its
      payload, with no envelope. The reply then depends only on whether that send threw,
      and a successful reply echoes the body. */
  function Route(reg: Registry, id: DeviceId, body: Json, outcome: SendOutcome): (r: Routed)
    ensures r.reply == Err(NotConnected) <==> id !in reg
    ensures r.attempt == None <==> id !in reg
    ensures id in reg ==> r.attempt == Some(Delivery(reg[id], body))
    ensures r.reply == Err(SendFailed) <==> id in reg && outcome == Threw
    ensures r.reply.Ok? <==> id in reg && outcome == Returned
    ensures r.reply.Ok? ==> r.reply.sent == body
  {
    if id !in reg then Routed(Err(NotConnected), None)
    else
      var attempt := Some(Delivery(reg[id], body));
      match outcome
      case Threw => Routed(Err(SendFailed), attempt)
      case Returned => Routed(Ok(body), attempt)
  }

  /** The property names every plain JavaScript object inherits from Object.prototype.
      Reading any of them from `devices` gives a truthy value with no `send` method. */
  const PrototypeNames: set<string> :=
    {"constructor", "__proto__", "hasOwnProperty", "isPrototypeOf",
     "propertyIsEnumerable", "toString", "toLocaleString", "valueOf",
     "__defineGetter__", "__defineSetter__", "__lookupGetter__", "__lookupSetter__"}

  /** What the expression `devices[id]` reads from a plain object: an own socket, an
      inherited Object.prototype member, or undefined. */
  datatype Property = Own(ws: Socket) | Inherited | Missing

  function PropertyOf(reg: Registry, id: DeviceId): (p: Property)
    ensures p.Own? <==> id in reg
    ensures p.Own? ==> p.ws == reg[id]
    ensures p.Inherited? <==> id !in reg && id in PrototypeNames
  {
    if id in reg then Own(reg[id])
    else if id in PrototypeNames then Inherited
    else Missing
  }

  /** The handler as written: `!devices[id]` is false for an inherited member too, and
      calling the missing `send` of that member throws, which the handler reports as a
      failed send. Off the inherited names it agrees with `Route`. */
  function RouteAsWritten(reg: Registry, id: DeviceId, body: Json, outcome: SendOutcome): (r: Routed)
    ensures r.reply == Err(NotConnected) <==> id !in reg && id !in PrototypeNames
    ensures id !in reg && id in PrototypeNames ==> r == Routed(Err(SendFailed), None)
    ensures id in reg || id !in PrototypeNames ==> r == Route(reg, id, body, outcome)
  {
    match PropertyOf(reg, id)
    case Missing => Routed(Err(NotConnected), None)
    case Inherited => Routed(Err(SendFailed), None)
    case Own(ws) =>
      var attempt := Some(Delivery(ws, body));
      match outcome
      case Threw => Routed(Err(SendFailed), attempt)
      case Returned => Routed(Ok(body), attempt)
  }

  /** The discrepancy: `POST /send/constructor` with no such device answers "Send failed",
      where an absent device should be answered "Device not connected". */
  lemma ConstructorIsMisreported(reg: Registry, body: Json, outcome: SendOutcome)
    requires "constructor" !in reg
    ensures RouteAsWritten(reg, "constructor", body, outcome).reply == Err(SendFailed)
    ensures Route(reg, "constructor", body, outcome).reply == Err(NotConnected)
  {
  }

  /** The handler as written and the own-key lookup differ exactly on inherited names
      that are not device ids. */
  lemma AsWrittenDiffersOnlyOnInheritedNames(reg: Registry, id: DeviceId, body: Json, outcome: SendOutcome)
    ensures RouteAsWritten(reg, id, body, outcome) != Route(reg, id, body, outcome)
        <==> id !in reg && id in PrototypeNames
  {
  }
}
