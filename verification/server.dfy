/** The server as a sequential state machine: the four events that reach the registry,
    handled one at a time in the order they arrive. */
module Server {
  import opened Values
  import opened Devices
  import opened Messages
  import opened Routing

  datatype Event =
    | Connected(id: DeviceId, ws: Socket)                            // a WebSocket connection was accepted
    | Received(id: DeviceId, frame: Frame)                           // that connection sent a frame
    | Closed(id: DeviceId)                                           // that connection closed
    | Command(target: DeviceId, body: Json, outcome: SendOutcome)    // `POST /send/:target`

  /** What an event makes the server say: a console line, or an HTTP reply. */
  datatype Output = Wrote(log: Log) | Replied(routed: Routed)

  datatype Transition = Transition(registry: Registry, output: Output)

  /** A connection event only ever carries an id the registry does not hold. */
  predicate Admissible(reg: Registry, e: Event) {
    e.Connected? ==> e.id !in reg
  }

  /** The registry after one event. Only connecting and closing touch it, and each
      touches only its own id. */
  function Next(reg: Registry, e: Event): (r: Registry)
    requires Admissible(reg, e)
    ensures e.Connected? ==> r.Keys == reg.Keys + {e.id} && r[e.id] == e.ws
    ensures e.Closed? ==> r.Keys == reg.Keys - {e.id}
    ensures e.Connected? || e.Closed? ==>
      forall k | k in reg && k != e.id :: r[k] == reg[k]
    ensures !e.Connected? && !e.Closed? ==> r == reg
  {
    match e
    case Connected(id, ws) => Connect(reg, id, ws)
    case Received(id, frame) => HandleMessage(reg, id, frame).registry
    case Closed(id) => Close(reg, id)
    case Command(_, _, _) => reg
  }

  /** Dispatches one event to its handler: the registry moves as `Next` says, and the
      handler writes a console line or an HTTP reply. Commands go to the own-key router
      `Route`. */
  function Step(reg: Registry, e: Event): (t: Transition)
    requires Admissible(reg, e)
    ensures t.registry == Next(reg, e)
    ensures e.Connected? ==> t.output == Wrote(DeviceConnected(e.id))
    ensures e.Closed? ==> t.output == Wrote(DeviceDisconnected(e.id))
    ensures e.Received? ==>
      && t.output.Wrote?
      && (t.output.log.Logged? <==> e.frame.parsed.Some?)
      && (t.output.log.Logged? ==> t.output.log == Logged(e.id, e.frame.parsed.value))
      && (!t.output.log.Logged? ==> t.output.log == Invalid(e.frame.raw))
    ensures e.Command? && e.target !in reg ==>
      t.output == Replied(Routed(Err(NotConnected), None))
    ensures e.Command? && e.target in reg ==>
      && t.output.Replied?
      && t.output.routed.attempt == Some(Delivery(reg[e.target], e.body))
      && t.output.routed.reply == (if e.outcome == Returned then Ok(e.body) else Err(SendFailed))
  {
    var output := match e
      case Connected(id, _) => Wrote(DeviceConnected(id))
      case Received(id, frame) => Wrote(HandleMessage(reg, id, frame).log)
      case Closed(id) => Wrote(DeviceDisconnected(id))
      case Command(target, body, outcome) => Replied(Route(reg, target, body, outcome));
    Transition(Next(reg, e), output)
  }

  /** True when `e` is a connection or close event for `id`. */
  predicate Touches(e: Event, id: DeviceId) {
    (e.Connected? || e.Closed?) && e.id == id
  }

  /** Every id a trace connects is a fresh uuid: it is not in the starting registry and
      no earlier event of the trace connected or closed it. */
  predicate Fresh(reg: Registry, t: seq<Event>) {
    forall i | 0 <= i < |t| && t[i].Connected? ::
      t[i].id !in reg && forall j | 0 <= j < i :: !Touches(t[j], t[i].id)
  }

  /** Handling the first event of a fresh trace is allowed and keeps the rest of it fresh. */
  lemma FreshAfterNext(reg: Registry, t: seq<Event>)
    requires Fresh(reg, t) && t != []
    ensures Admissible(reg, t[0])
    ensures Fresh(Next(reg, t[0]), t[1..])
  {
  }

  /** The registry after the server has handled every event of `t` in order. */
  function Run(reg: Registry, t: seq<Event>): Registry
    requires Fresh(reg, t)
    decreases |t|
  {
    if t == [] then reg
    else
      FreshAfterNext(reg, t);
      Run(Next(reg, t[0]), t[1..])
  }

  /** The sockets of the connections the trace opens, by id. */
  function Opened(t: seq<Event>): map<DeviceId, Socket>
    decreases |t|
  {
    if t == [] then map[]
    else if t[0].Connected? then map[t[0].id := t[0].ws] + Opened(t[1..])
    else Opened(t[1..])
  }

  /** The ids of the connections the trace closes. */
  function ClosedIds(t: seq<Event>): set<DeviceId>
    decreases |t|
  {
    if t == [] then {}
    else if t[0].Closed? then {t[0].id} + ClosedIds(t[1..])
    else ClosedIds(t[1..])
  }

  /** The registry the trace should leave behind, stated without replaying it: the
      starting entries and the opened connections, less every closed id. */
  function Expected(reg: Registry, t: seq<Event>): Registry {
    (reg + Opened(t)) - ClosedIds(t)
  }

  lemma {:induction false} NotOpened(t: seq<Event>, id: DeviceId)
    requires forall i | 0 <= i < |t| && t[i].Connected? :: t[i].id != id
    ensures id !in Opened(t)
    decreases |t|
  {
    if t != [] {
      forall i | 0 <= i < |t[1..]| && t[1..][i].Connected?
        ensures t[1..][i].id != id
      {
        assert t[1..][i] == t[i + 1];
      }
      NotOpened(t[1..], id);
    }
  }

  lemma MapUpdateUnion(m: Registry, id: DeviceId, ws: Socket, o: Registry)
    ensures m[id := ws] + o == m + (map[id := ws] + o)
  {
  }

  lemma MapRemoveUnion(m: Registry, id: DeviceId, o: Registry, c: set<DeviceId>)
    requires id !in o
    ensures ((m - {id}) + o) - c == (m + o) - ({id} + c)
  {
  }

  /** Handling a connection moves its id from the trace into the registry. */
  lemma ExpectedAfterConnect(reg: Registry, t: seq<Event>)
    requires t != [] && t[0].Connected? && t[0].id !in reg
    ensures Expected(Next(reg, t[0]), t[1..]) == Expected(reg, t)
  {
    var id, ws, rest := t[0].id, t[0].ws, t[1..];
    assert Next(reg, t[0]) == reg[id := ws];
    assert Opened(t) == map[id := ws] + Opened(rest);
    assert ClosedIds(t) == ClosedIds(rest);
    MapUpdateUnion(reg, id, ws, Opened(rest));
  }

  /** Handling a close drops its id, which no later event of a fresh trace reconnects. */
  lemma ExpectedAfterClose(reg: Registry, t: seq<Event>)
    requires Fresh(reg, t) && t != [] && t[0].Closed?
    ensures Expected(Next(reg, t[0]), t[1..]) == Expected(reg, t)
  {
    var id, rest := t[0].id, t[1..];
    forall i | 0 <= i < |rest| && rest[i].Connected?
      ensures rest[i].id != id
    {
      assert rest[i] == t[i + 1];
      assert !Touches(t[0], t[i + 1].id);
    }
    NotOpened(rest, id);
    assert Next(reg, t[0]) == reg - {id};
    assert Opened(t) == Opened(rest);
    assert ClosedIds(t) == {id} + ClosedIds(rest);
    MapRemoveUnion(reg, id, Opened(rest), ClosedIds(rest));
  }

  /** Frames and commands leave both the registry and the expected registry alone. */
  lemma ExpectedAfterQuiet(reg: Registry, t: seq<Event>)
    requires t != [] && !t[0].Connected? && !t[0].Closed?
    ensures Expected(Next(reg, t[0]), t[1..]) == Expected(reg, t)
  {
  }

  /** Replaying a trace of fresh connections yields exactly the expected registry: each
      id stays bound to the socket it connected with until its own close removes it,
      and no close ever evicts another connection. */
  lemma {:induction false} RunMatchesExpected(reg: Registry, t: seq<Event>)
    requires Fresh(reg, t)
    ensures Run(reg, t) == Expected(reg, t)
    decreases |t|
  {
    if t == [] {
      assert Expected(reg, t) == reg;
    } else {
      FreshAfterNext(reg, t);
      RunMatchesExpected(Next(reg, t[0]), t[1..]);
      if t[0].Connected? {
        ExpectedAfterConnect(reg, t);
      } else if t[0].Closed? {
        ExpectedAfterClose(reg, t);
      } else {
        ExpectedAfterQuiet(reg, t);
      }
    }
  }

  /** From an empty registry, the registry at any point holds exactly the connections
      that have opened and not yet closed, each bound to its own socket. */
  lemma RegistryHoldsOpenConnections(t: seq<Event>)
    requires Fresh(map[], t)
    ensures Run(map[], t).Keys == Opened(t).Keys - ClosedIds(t)
    ensures forall k | k in Run(map[], t) :: Run(map[], t)[k] == Opened(t)[k]
  {
    RunMatchesExpected(map[], t);
    assert map[] + Opened(t) == Opened(t);
  }

  /** Frames and commands, however many and whatever their outcome, never change the registry. */
  lemma {:induction false} QuietTraceKeepsRegistry(reg: Registry, t: seq<Event>)
    requires forall i | 0 <= i < |t| :: !t[i].Connected? && !t[i].Closed?
    ensures Fresh(reg, t) && Run(reg, t) == reg
    decreases |t|
  {
    if t != [] {
      forall i | 0 <= i < |t[1..]|
        ensures !t[1..][i].Connected? && !t[1..][i].Closed?
      {
        assert t[1..][i] == t[i + 1];
      }
      QuietTraceKeepsRegistry(reg, t[1..]);
    }
  }

  /** A connected device is reachable by command; once its connection closes, a command
      to it is answered "Device not connected" and no send is attempted. */
  lemma ClosedDeviceIsUnreachable(reg: Registry, id: DeviceId, ws: Socket, body: Json, outcome: SendOutcome)
    requires id !in reg
    ensures Route(Connect(reg, id, ws), id, body, outcome).attempt == Some(Delivery(ws, body))
    ensures Route(Close(Connect(reg, id, ws), id), id, body, outcome) == Routed(Err(NotConnected), None)
  {
  }

  /** The same holds of the handler as written for every id the server generates: a uuid
      is never the name of an Object.prototype member. */
  lemma ClosedDeviceIsUnreachableAsWritten(reg: Registry, id: DeviceId, ws: Socket, body: Json, outcome: SendOutcome)
    requires id !in reg && id !in PrototypeNames
    ensures RouteAsWritten(Connect(reg, id, ws), id, body, outcome).attempt == Some(Delivery(ws, body))
    ensures RouteAsWritten(Close(Connect(reg, id, ws), id), id, body, outcome) == Routed(Err(NotConnected), None)
  {
  }

  /** However the other connections' events interleave, once a trace has closed an id, a
      command to it finds no device, whichever router handles it: a fresh id is never
      reconnected, and uuids are never Object.prototype names. */
  lemma ClosedIdIsUnreachable(t: seq<Event>, id: DeviceId, body: Json, outcome: SendOutcome)
    requires Fresh(map[], t) && id in ClosedIds(t)
    ensures Route(Run(map[], t), id, body, outcome) == Routed(Err(NotConnected), None)
    ensures id !in PrototypeNames ==>
      RouteAsWritten(Run(map[], t), id, body, outcome) == Routed(Err(NotConnected), None)
  {
    RegistryHoldsOpenConnections(t);
  }
}
