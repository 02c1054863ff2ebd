/** The in-memory state shared by every socket handler of server.js, the
    notifications they emit, and the timers they schedule. */
module Registry {
  import opened Wrappers
  import opened Js

  /** The error text for an operator addressing a client id the registry
      does not hold. */
  const ClientNotFound := "Client not found or no longer connected"

  datatype Status = Connected | Disconnected

  /** One entry of `activeClients`. Timestamps are milliseconds since the
      epoch (the source stores ISO strings of the same instants); `None`
      and "" stand for a field the record does not carry. */
  datatype ClientRecord = ClientRecord(
    socket: Id,
    operatorId: Option<Id>,
    name: string,
    status: Status,
    connectedAt: Option<nat>,
    reconnectedAt: Option<nat>,
    disconnectedAt: Option<nat>,
    chatEnded: bool,
    endedBy: string,
    endedAt: Option<nat>)

  /** The attributes a handler writes onto the socket object itself. */
  datatype SocketAttrs = SocketAttrs(
    operatorId: Option<Id>,
    operatorName: string,
    clientId: Option<Id>,
    clientName: string)

  const Fresh := SocketAttrs(None, "", None, "")

  /** A key of `recentMessages`: the client sends a number or a string. */
  datatype MessageId = NumId(n: int) | StrId(s: string)

  /** The `if (messageId)` test. */
  predicate Truthy(m: MessageId) {
    match m
    case NumId(n) => n != 0
    case StrId(s) => s != ""
  }

  /** `activeOperators`, `activeClients`, `recentMessages`, and the
      attributes of every socket that has run a handler. */
  datatype State = State(
    operators: set<Id>,
    clients: map<Id, ClientRecord>,
    recent: map<MessageId, nat>,
    sockets: map<Id, SocketAttrs>)

  const Initial := State({}, map[], map[], map[])

  /** The attributes of socket `sock`; a socket no handler has touched
      carries none. */
  function Attrs(st: State, sock: Id): SocketAttrs {
    if sock in st.sockets then st.sockets[sock] else Fresh
  }

  /** Who receives an emission: one socket (`socket.emit`,
      `io.to(socketId)`), a room, every operator but the sender
      (`socket.broadcast.to('operators')`), or every socket but the sender
      (`socket.broadcast.emit`). */
  datatype Target =
    | ToSocket(socket: Id)
    | ToOperators
    | ToClients
    | ToOperatorsExcept(sender: Id)
    | ToAllExcept(sender: Id)

  /** One row of the `clients:list` an operator receives. */
  datatype ClientSummary = ClientSummary(name: string, hasOperator: bool, status: Status)

  /** The outbound events and their payloads; "" and `None` stand for a
      payload field the source leaves out. */
  datatype Out =
    | ClientsList(clients: map<Id, ClientSummary>)
    | OperatorStatus(available: bool)
    | ClientNew(id: Id, name: string)
    | ClientReconnected(id: Id, name: string, hasOperator: bool)
    | ClientUpdated(id: Id, name: string, hasOperator: bool, status: string, reconnected: bool, chatEnded: bool)
    | ClientLeft(id: Id)
    | ClientAccepted(id: Id)
    | ChatAccepted(operatorId: Id, restored: bool)
    | MessageReceived(text: string, from: Id, name: string, kind: string, timestamp: nat)
    | MessageSystem(clientId: Id, text: string, timestamp: nat)
    | Error(message: string, aboutClient: Option<Id>, chatEndedAt: Option<nat>)
    | ChatEnded(clientId: Id, endingOperator: Option<Id>, endedBy: string, message: string, timestamp: nat)
    | AssignNewId(oldId: Id, newId: string, timestamp: nat)
    | ReconnectSuccess(assignedOperator: Option<Id>, socketId: Id)
    | UseClientConnect
    | ClientConnectEcho(echoId: string, echoName: string)

  datatype Emit = Emit(to: Target, msg: Out)

  /** A deferred callback scheduled by a `disconnect`, with the socket
      attribute its closure reads when it fires. */
  datatype Timer =
    | OperatorGrace(socket: Id, operatorId: Id)
    | ClientGrace(socket: Id, clientId: Id)

  /** What one handler invocation leaves behind. */
  datatype Reaction = Reaction(st: State, out: seq<Emit>, timers: seq<Timer>)

  function Quiet(st: State): Reaction {
    Reaction(st, [], [])
  }

  /** The events of `out` that reach socket `sock` directly, in order. */
  function Delivered(out: seq<Emit>, sock: Id): (d: seq<Out>)
    // a socket no emission addresses directly receives nothing
    ensures (forall i | 0 <= i < |out| :: out[i].to != ToSocket(sock)) ==> d == []
  {
    if out == [] then []
    else (if out[0].to == ToSocket(sock) then [out[0].msg] else []) + Delivered(out[1..], sock)
  }

  lemma {:induction false} DeliveredConcat(a: seq<Emit>, b: seq<Emit>, sock: Id)
    ensures Delivered(a + b, sock) == Delivered(a, sock) + Delivered(b, sock)
    decreases |a|
  {
    if a != [] {
      assert (a + b)[1..] == a[1..] + b;
      DeliveredConcat(a[1..], b, sock);
    } else {
      assert a + b == b;
    }
  }

  /** Whether a `message:received` event occurs in `out`. */
  predicate Relays(out: seq<Emit>) {
    exists i :: 0 <= i < |out| && out[i].msg.MessageReceived?
  }
}
