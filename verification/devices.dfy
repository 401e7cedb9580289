/** The device registry of server.js: the single `devices` object that maps the id of
    every live WebSocket connection to that connection's socket. */
module Devices {

  /** A device id: the uuid the server generates for a connection when it is accepted,
      or the target a command names in its request URL, which may be any string. */
  type DeviceId = string

  /** A live WebSocket connection; the registry only stores and hands out its identity. */
  type Socket(==)

  /** The whole state of the server: device id to the socket it was bound to. */
  type Registry = map<DeviceId, Socket>

  /** The 'connection' handler: the freshly generated id is bound to the new socket.
      The id comes from a random uuid, so it is never already a key. */
  function Connect(reg: Registry, id: DeviceId, ws: Socket): (r: Registry)
    requires id !in reg
    ensures r.Keys == reg.Keys + {id}
    ensures r[id] == ws
    ensures forall k :: k in reg ==> r[k] == reg[k]
    ensures |r| == |reg| + 1
  {
    reg[id := ws]
  }

  /** The 'close' handler: the connection's own id is deleted; deleting an absent
      key is a no-op, as `delete` is in JavaScript. */
  function Close(reg: Registry, id: DeviceId): (r: Registry)
    ensures r.Keys == reg.Keys - {id}
    ensures forall k :: k in r ==> r[k] == reg[k]
    ensures id in reg ==> |r| == |reg| - 1
    ensures id !in reg ==> r == reg
  {
    reg - {id}
  }

  /** A connection that opens with a fresh id and then closes leaves the registry as it found it. */
  lemma ConnectThenClose(reg: Registry, id: DeviceId, ws: Socket)
    requires id !in reg
    ensures Close(Connect(reg, id, ws), id) == reg
  {
  }
}
