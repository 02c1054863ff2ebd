/** The `operator:connect`, `client:connect`, `client:leave` and legacy
    `client:reconnect` handlers of server.js: registration into the
    presence registry. */
module Connect {
  import opened Wrappers
  import opened Js
  import opened Registry

  /** The row `clients:list` shows for one record. */
  function Summary(c: ClientRecord): ClientSummary {
    ClientSummary(Or(c.name, "Guest"), c.operatorId.Some?, c.status)
  }

  /** `operator:connect {id, name}` on socket `sock`. */
  function OperatorConnect(st: State, sock: Id, id: string, name: string): (r: Reaction)
    ensures id != "" ==> r.st.operators == st.operators + {id}
    ensures id == "" ==> r.st.operators == st.operators + {sock}
    ensures r.st.clients == st.clients && r.st.recent == st.recent && r.timers == []
    ensures Attrs(r.st, sock) == Attrs(st, sock).(operatorId := Some(OrId(id, sock)), operatorName := Or(name, "Operator"))
    ensures forall s :: s != sock ==> Attrs(r.st, s) == Attrs(st, s)
    // the operator learns every registered client, and which are taken
    ensures |r.out| == 2 && r.out[0].to == ToSocket(sock) && r.out[0].msg.ClientsList?
    ensures r.out[0].msg.clients.Keys == st.clients.Keys
    ensures forall c :: c in st.clients ==>
              r.out[0].msg.clients[c] == ClientSummary(Or(st.clients[c].name, "Guest"), st.clients[c].operatorId.Some?, st.clients[c].status)
    // every other socket hears that an operator is available
    ensures r.out[1] == Emit(ToAllExcept(sock), OperatorStatus(true))
  {
    var op := OrId(id, sock);
    var a := Attrs(st, sock).(operatorId := Some(op), operatorName := Or(name, "Operator"));
    var list := map c | c in st.clients :: Summary(st.clients[c]);
    Reaction(st.(operators := st.operators + {op}, sockets := st.sockets[sock := a]),
             [Emit(ToSocket(sock), ClientsList(list)), Emit(ToAllExcept(sock), OperatorStatus(true))],
             [])
  }

  /** `client:connect {id, name}` on socket `sock` at time `now`: an upsert
      keyed by `id || socket.id`. An existing record is rebuilt from
      scratch, keeping only its operator, so an ended chat is forgotten. */
  function ClientConnect(st: State, sock: Id, id: string, name: string, now: nat): (r: Reaction)
    // never a second record: the key set grows by at most this id
    ensures r.st.clients.Keys == st.clients.Keys + {OrId(id, sock)}
    ensures forall k :: k in st.clients && k != OrId(id, sock) ==> r.st.clients[k] == st.clients[k]
    ensures var c := r.st.clients[OrId(id, sock)];
            && c.socket == sock && c.status == Connected && c.name == Or(name, "Guest")
            && !c.chatEnded && c.endedBy == "" && c.endedAt == None
            && (OrId(id, sock) in st.clients ==> c.operatorId == st.clients[OrId(id, sock)].operatorId)
            && (OrId(id, sock) !in st.clients ==> c.operatorId == None)
    ensures r.st.operators == st.operators && r.st.recent == st.recent && r.timers == []
    ensures Attrs(r.st, sock) == Attrs(st, sock).(clientId := Some(OrId(id, sock)), clientName := Or(name, "Guest"))
    ensures forall s :: s != sock ==> Attrs(r.st, s) == Attrs(st, s)
    // the caller always learns whether an operator is online, last
    ensures r.out != [] && r.out[|r.out| - 1] == Emit(ToSocket(sock), OperatorStatus(|st.operators| > 0))
  {
    var cid := OrId(id, sock);
    var cname := Or(name, "Guest");
    var st1 := st.(sockets := st.sockets[sock := Attrs(st, sock).(clientId := Some(cid), clientName := cname)]);
    var status := Emit(ToSocket(sock), OperatorStatus(|st.operators| > 0));
    if cid in st.clients then
      var prev := st.clients[cid];
      var rec := ClientRecord(sock, prev.operatorId, Or(cname, prev.name), Connected,
                              None, Some(now), None, false, "", None);
      var notify := Emit(ToOperators, ClientReconnected(cid, cname, prev.operatorId.Some?));
      var restore :=
        if prev.operatorId.Some? then
          [Emit(ToSocket(sock), ChatAccepted(prev.operatorId.value, true)),
           Emit(ToOperators, ClientUpdated(cid, cname, true, "connected", true, false))]
        else [];
      Reaction(st1.(clients := st.clients[cid := rec]), [notify] + restore + [status], [])
    else
      var rec := ClientRecord(sock, None, cname, Connected, Some(now), None, None, false, "", None);
      Reaction(st1.(clients := st.clients[cid := rec]),
               [Emit(ToOperators, ClientNew(cid, cname)), status], [])
  }

  /** What the connecting socket itself receives from `client:connect`, in
      order: a restored assignment exactly when the id already had an
      operator, then the availability status. */
  lemma ClientConnectDeliveries(st: State, sock: Id, id: string, name: string, now: nat)
    ensures var cid := OrId(id, sock);
            Delivered(ClientConnect(st, sock, id, name, now).out, sock) ==
              (if cid in st.clients && st.clients[cid].operatorId.Some?
               then [ChatAccepted(st.clients[cid].operatorId.value, true)] else [])
              + [OperatorStatus(|st.operators| > 0)]
  {
    var cid := OrId(id, sock);
    var out := ClientConnect(st, sock, id, name, now).out;
    var status := Emit(ToSocket(sock), OperatorStatus(|st.operators| > 0));
    if cid in st.clients {
      var prev := st.clients[cid];
      var notify := Emit(ToOperators, ClientReconnected(cid, Or(name, "Guest"), prev.operatorId.Some?));
      if prev.operatorId.Some? {
        var restore := [Emit(ToSocket(sock), ChatAccepted(prev.operatorId.value, true)),
                        Emit(ToOperators, ClientUpdated(cid, Or(name, "Guest"), true, "connected", true, false))];
        assert out == [notify] + restore + [status];
        DeliveredConcat([notify] + restore, [status], sock);
        DeliveredConcat([notify], restore, sock);
        DeliveredConcat(restore[..1], restore[1..], sock);
        assert restore == restore[..1] + restore[1..];
      } else {
        assert out == [notify] + [] + [status];
        DeliveredConcat([notify], [status], sock);
      }
    } else {
      assert out == [Emit(ToOperators, ClientNew(cid, Or(name, "Guest")))] + [status];
      DeliveredConcat([Emit(ToOperators, ClientNew(cid, Or(name, "Guest")))], [status], sock);
    }
  }

  /** `client:leave {clientId}`: only the socket the record points at may
      delete it. */
  function ClientLeave(st: State, sock: Id, clientId: string): (r: Reaction)
    ensures clientId in st.clients && st.clients[clientId].socket == sock ==>
              && r.st == st.(clients := st.clients - {clientId})
              && r.out == [Emit(ToOperators, ClientLeft(clientId))]
    ensures !(clientId in st.clients && st.clients[clientId].socket == sock) ==> r == Quiet(st)
    ensures r.timers == []
  {
    if clientId in st.clients && st.clients[clientId].socket == sock then
      Reaction(st.(clients := st.clients - {clientId}), [Emit(ToOperators, ClientLeft(clientId))], [])
    else
      Quiet(st)
  }

  /** The legacy `client:reconnect`: echoes a `client:connect` back to the
      sender and touches no state. */
  function LegacyReconnect(st: State, sock: Id, id: string, name: string): (r: Reaction)
    ensures r.st == st && r.timers == []
    ensures r.out == [Emit(ToSocket(sock), ClientConnectEcho(id, name))]
  {
    Reaction(st, [Emit(ToSocket(sock), ClientConnectEcho(id, name))], [])
  }
}
