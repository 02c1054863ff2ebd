/** The `disconnect` handler of server.js and the two grace-period timers
    it schedules. Each timer re-reads the registry when it fires. */
module Grace {
  import opened Wrappers
  import opened Js
  import opened Registry

  /** Whether the disconnect of `sock` marks a client record: the socket
      announced a client id and is still the one that record points at. */
  predicate OwnsRecord(st: State, sock: Id) {
    var a := Attrs(st, sock);
    a.clientId.Some? && a.clientId.value in st.clients && st.clients[a.clientId.value].socket == sock
  }

  /** `disconnect` of socket `sock` at time `now`. Nothing is removed yet;
      an operator socket schedules the 5 s timer, and a client socket that
      owns its record marks it disconnected and schedules the 30 s timer. */
  function Disconnect(st: State, sock: Id, now: nat): (r: Reaction)
    ensures r.st.operators == st.operators && r.st.recent == st.recent && r.st.sockets == st.sockets
    ensures r.st.clients.Keys == st.clients.Keys
    ensures forall k :: k in st.clients && (Attrs(st, sock).clientId != Some(k) || !OwnsRecord(st, sock)) ==>
              r.st.clients[k] == st.clients[k]
    ensures OwnsRecord(st, sock) ==>
              var cid := Attrs(st, sock).clientId.value;
              && r.st.clients[cid] == st.clients[cid].(status := Disconnected, disconnectedAt := Some(now))
              && ClientGrace(sock, cid) in r.timers
    ensures forall cid :: ClientGrace(sock, cid) in r.timers <==>
              OwnsRecord(st, sock) && Attrs(st, sock).clientId == Some(cid)
    ensures forall op :: OperatorGrace(sock, op) in r.timers <==> Attrs(st, sock).operatorId == Some(op)
    ensures forall t :: t in r.timers ==> t.socket == sock
    // one `setTimeout` per kind, never a duplicate
    ensures |r.timers| == (if Attrs(st, sock).operatorId.Some? then 1 else 0) + (if OwnsRecord(st, sock) then 1 else 0)
    ensures !OwnsRecord(st, sock) ==> r.out == []
    // the operators see the client go away, with its assignment
    ensures OwnsRecord(st, sock) ==>
              var cid := Attrs(st, sock).clientId.value;
              r.out == [Emit(ToOperators, ClientUpdated(cid, "", st.clients[cid].operatorId.Some?, "disconnected", false, false))]
  {
    var a := Attrs(st, sock);
    var opTimers := if a.operatorId.Some? then [OperatorGrace(sock, a.operatorId.value)] else [];
    if OwnsRecord(st, sock) then
      var cid := a.clientId.value;
      var c := st.clients[cid];
      Reaction(st.(clients := st.clients[cid := c.(status := Disconnected, disconnectedAt := Some(now))]),
               [Emit(ToOperators, ClientUpdated(cid, "", c.operatorId.Some?, "disconnected", false, false))],
               opTimers + [ClientGrace(sock, cid)])
    else
      Reaction(st, [], opTimers)
  }

  /** The operator timer. `roomPresent` is the transport's answer to
      whether a room named after the old socket id still exists. */
  function FireOperatorGrace(st: State, op: Id, roomPresent: bool): (r: Reaction)
    ensures roomPresent ==> r == Quiet(st)
    ensures !roomPresent ==>
              && r.st == st.(operators := st.operators - {op})
              && op !in r.st.operators
              && (r.st.operators == {} ==> r.out == [Emit(ToClients, OperatorStatus(false))])
              && (r.st.operators != {} ==> r.out == [])
    ensures r.timers == []
  {
    if roomPresent then Quiet(st)
    else
      var ops := st.operators - {op};
      Reaction(st.(operators := ops),
               if |ops| == 0 then [Emit(ToClients, OperatorStatus(false))] else [], [])
  }

  /** The client timer: the record goes only if it is still marked
      disconnected when the timer fires. */
  function FireClientGrace(st: State, cid: Id): (r: Reaction)
    ensures cid in st.clients && st.clients[cid].status == Disconnected ==>
              && r.st == st.(clients := st.clients - {cid})
              && r.out == [Emit(ToOperators, ClientLeft(cid))]
    ensures !(cid in st.clients && st.clients[cid].status == Disconnected) ==> r == Quiet(st)
    ensures r.timers == []
  {
    if cid in st.clients && st.clients[cid].status == Disconnected then
      Reaction(st.(clients := st.clients - {cid}), [Emit(ToOperators, ClientLeft(cid))], [])
    else
      Quiet(st)
  }

  /** A timer firing. */
  function Fire(st: State, t: Timer, roomPresent: bool): Reaction {
    match t
    case OperatorGrace(_, op) => FireOperatorGrace(st, op, roomPresent)
    case ClientGrace(_, cid) => FireClientGrace(st, cid)
  }
}
