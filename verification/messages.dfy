/** The 'message' handler of a device connection: the frame is parsed and logged,
    and nothing else happens. */
module Messages {
  import opened Values
  import opened Devices

  /** An inbound frame: its raw text and what `JSON.parse` made of it (None when it threw).
      Parsing is a foreign call, so its outcome arrives with the frame. */
  datatype Frame = Frame(raw: string, parsed: Option<Json>)

  /** A console line the device handlers write. A frame gets its decoded data tagged with
      the connection's id, or its raw text when it did not parse; opening and closing a
      connection each announce its id. */
  datatype Log =
    | Logged(device: DeviceId, data: Json)
    | Invalid(raw: string)
    | DeviceConnected(device: DeviceId)
    | DeviceDisconnected(device: DeviceId)

  datatype Handled = Handled(registry: Registry, log: Log)

  /** Handles a frame received on the connection whose id is `id`. Valid or not, the
      frame never changes the registry, and an invalid one does not close the connection. */
  function HandleMessage(reg: Registry, id: DeviceId, frame: Frame): (r: Handled)
    ensures r.registry == reg
    ensures r.log.Logged? || r.log.Invalid?
    ensures r.log.Logged? <==> frame.parsed.Some?
    ensures r.log.Logged? ==> r.log.device == id && frame.parsed == Some(r.log.data)
    ensures r.log.Invalid? ==> r.log.raw == frame.raw
  {
    match frame.parsed
    case Some(data) => Handled(reg, Logged(id, data))
    case None => Handled(reg, Invalid(frame.raw))
  }
}
