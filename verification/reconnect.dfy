/** The unified `reconnect:attempt` handler of server.js: a client resumes
    its record on a new socket, or an operator rejoins the pool. */
module Reconnect {
  import opened Wrappers
  import opened Js
  import opened Registry

  const ReconnectedText := "Client has reconnected and can continue chatting"

  /** `reconnect:attempt {clientId, operatorId, name}` on socket `sock` at
      time `now`. A client id wins over an operator id. */
  function ReconnectAttempt(st: State, sock: Id, clientId: string, operatorId: string, name: string, now: nat): (r: Reaction)
    ensures r.st.recent == st.recent && r.timers == []
    ensures forall s :: s != sock ==> Attrs(r.st, s) == Attrs(st, s)
    // a client resumes; an unknown id is not registered here
    ensures clientId != "" ==>
              && r.st.operators == st.operators
              && r.st.clients.Keys == st.clients.Keys
              && Attrs(r.st, sock) == Attrs(st, sock).(clientId := Some(clientId), clientName := name)
    ensures clientId != "" && clientId !in st.clients ==>
              r.st.clients == st.clients && r.out == [Emit(ToSocket(sock), UseClientConnect)]
    ensures clientId in st.clients ==>
              var c := st.clients[clientId];
              // always acknowledged with the assignment it had
              && r.out != [] && r.out[|r.out| - 1] == Emit(ToSocket(sock), ReconnectSuccess(c.operatorId, sock))
              && forall k :: k in st.clients && k != clientId ==> r.st.clients[k] == st.clients[k]
    ensures clientId in st.clients && st.clients[clientId].socket == sock ==>
              r.st.clients == st.clients && r.out == [Emit(ToSocket(sock), ReconnectSuccess(st.clients[clientId].operatorId, sock))]
    ensures clientId in st.clients && st.clients[clientId].socket != sock ==>
              var c := st.clients[clientId];
              var e := r.st.clients[clientId];
              // the record is spread: assignment and ended state survive
              && e == c.(socket := sock, name := Or(name, c.name), status := Connected, reconnectedAt := Some(now))
              && Delivered(r.out, sock) ==
                   (if c.operatorId.Some? then [ChatAccepted(c.operatorId.value, true)] else [])
                   + [ReconnectSuccess(c.operatorId, sock)]
    // an operator rejoins the pool
    ensures clientId == "" && operatorId != "" ==>
              && r.st.operators == st.operators + {operatorId}
              && r.st.clients == st.clients
              && Attrs(r.st, sock) == Attrs(st, sock).(operatorId := Some(operatorId), operatorName := name)
              && r.out == [Emit(ToClients, OperatorStatus(true))]
    ensures clientId == "" && operatorId == "" ==> r == Quiet(st)
  {
    if clientId != "" then
      var st1 := st.(sockets := st.sockets[sock := Attrs(st, sock).(clientId := Some(clientId), clientName := name)]);
      if clientId in st.clients then
        var c := st.clients[clientId];
        var ack := Emit(ToSocket(sock), ReconnectSuccess(c.operatorId, sock));
        if c.socket != sock then
          var shown := Or(name, c.name);
          var rec := c.(socket := sock, name := shown, status := Connected, reconnectedAt := Some(now));
          var notify := Emit(ToOperators, ClientReconnected(clientId, shown, c.operatorId.Some?));
          var restore :=
            if c.operatorId.Some? then
              [Emit(ToSocket(sock), ChatAccepted(c.operatorId.value, true)),
               Emit(ToOperators, MessageSystem(clientId, ReconnectedText, now))]
            else [];
          DeliveredConcat([notify] + restore, [ack], sock);
          DeliveredConcat([notify], restore, sock);
          Reaction(st1.(clients := st.clients[clientId := rec]), [notify] + restore + [ack], [])
        else
          Reaction(st1, [ack], [])
      else
        Reaction(st1, [Emit(ToSocket(sock), UseClientConnect)], [])
    else if operatorId != "" then
      Reaction(st.(operators := st.operators + {operatorId},
                   sockets := st.sockets[sock := Attrs(st, sock).(operatorId := Some(operatorId), operatorName := name)]),
               [Emit(ToClients, OperatorStatus(true))], [])
    else
      Quiet(st)
  }
}
