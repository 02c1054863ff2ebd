/** The `operator:accept` and `chat:end` handlers of server.js: assigning
    an operator to a client and ending a conversation under a rotated id. */
module Lifecycle {
  import opened Wrappers
  import opened Js
  import opened Registry

  const EndedByOperatorText := "The operator has ended this chat session"
  const EndedByClientText := "You ended the chat session"

  /** `operator:accept {clientId}` on socket `sock`. Only a socket that
      announced itself as an operator may accept; an ended chat is
      accepted like any other. */
  function OperatorAccept(st: State, sock: Id, clientId: string): (r: Reaction)
    ensures Attrs(st, sock).operatorId == None ==> r == Quiet(st)
    ensures r.st.operators == st.operators && r.st.recent == st.recent
    ensures r.st.sockets == st.sockets && r.timers == []
    ensures r.st.clients.Keys == st.clients.Keys
    ensures forall k :: k in st.clients && k != clientId ==> r.st.clients[k] == st.clients[k]
    ensures Attrs(st, sock).operatorId.Some? && clientId in st.clients ==>
              var op := Attrs(st, sock).operatorId.value;
              var c := st.clients[clientId];
              // only the assignment changes: chatEnded and the rest are kept
              && r.st.clients[clientId] == c.(operatorId := Some(op))
              // the operator's confirmation, the client's notice, then the other operators
              && r.out == [Emit(ToSocket(sock), ClientAccepted(clientId)),
                           Emit(ToSocket(c.socket), ChatAccepted(op, false)),
                           Emit(ToOperatorsExcept(sock), ClientUpdated(clientId, "", true, "", false, false))]
    ensures Attrs(st, sock).operatorId.Some? && clientId !in st.clients ==>
              && r.st == st
              && r.out == [Emit(ToSocket(sock), Error(ClientNotFound, None, None))]
  {
    match Attrs(st, sock).operatorId
    case None => Quiet(st)
    case Some(op) =>
      if clientId in st.clients then
        var c := st.clients[clientId];
        Reaction(st.(clients := st.clients[clientId := c.(operatorId := Some(op))]),
                 [Emit(ToSocket(sock), ClientAccepted(clientId)),
                  Emit(ToSocket(c.socket), ChatAccepted(op, false)),
                  Emit(ToOperatorsExcept(sock), ClientUpdated(clientId, "", true, "", false, false))],
                 [])
      else
        Reaction(st, [Emit(ToSocket(sock), Error(ClientNotFound, None, None))], [])
  }

  /** The identity a client must use after its chat ends:
      `${clientId}_new_${Date.now()}`. */
  function RotatedId(clientId: Id, now: nat): (r: Id)
    ensures r != clientId && |r| > |clientId| && r[..|clientId|] == clientId
  {
    clientId + "_new_" + NatToString(now)
  }

  /** Two chat ends of the same client at different instants hand out
      different identities. */
  lemma RotatedIdInjective(clientId: Id, t1: nat, t2: nat)
    requires RotatedId(clientId, t1) == RotatedId(clientId, t2)
    ensures t1 == t2
  {
    var k := |clientId| + 5;
    assert RotatedId(clientId, t1)[k..] == NatToString(t1);
    assert RotatedId(clientId, t2)[k..] == NatToString(t2);
    NatToStringInjective(t1, t2);
  }

  /** The text the client's own `chat:ended` carries. */
  function EndedText(endedBy: string): string {
    if endedBy == "operator" then EndedByOperatorText else EndedByClientText
  }

  /** `chat:end {clientId, operatorId, endedBy}` at time `now`. */
  function EndChat(st: State, sock: Id, clientId: string, operatorId: string, endedBy: string, now: nat): (r: Reaction)
    ensures clientId !in st.clients ==> r == Quiet(st)
    ensures r.st.operators == st.operators && r.st.recent == st.recent
    ensures r.st.sockets == st.sockets && r.timers == []
    // the rotated identity is handed out, not registered
    ensures r.st.clients.Keys == st.clients.Keys
    ensures forall k :: k in st.clients && k != clientId ==> r.st.clients[k] == st.clients[k]
    ensures clientId in st.clients ==>
              var c := st.clients[clientId];
              var e := r.st.clients[clientId];
              var endedAs := Or(endedBy, "unknown");
              var ending := if operatorId != "" then Some(operatorId) else c.operatorId;
              && e.chatEnded && e.operatorId == None && e.endedBy == endedAs && e.endedAt == Some(now)
              // every other field of the record is kept
              && e.(operatorId := c.operatorId, chatEnded := c.chatEnded,
                    endedBy := c.endedBy, endedAt := c.endedAt) == c
              // the whole operator pool hears the end and the availability update,
              // then the client hears the end first and its next identity second
              && r.out ==
                   [Emit(ToOperators, ChatEnded(clientId, ending, endedAs, "Chat ended by " + endedAs, now)),
                    Emit(ToOperators, ClientUpdated(clientId, "", false, "available", false, true)),
                    Emit(ToSocket(c.socket), ChatEnded(clientId, ending, endedAs, EndedText(endedBy), now)),
                    Emit(ToSocket(c.socket), AssignNewId(clientId, RotatedId(clientId, now), now))]
              && Delivered(r.out, c.socket) ==
                   [ChatEnded(clientId, ending, endedAs, EndedText(endedBy), now),
                    AssignNewId(clientId, RotatedId(clientId, now), now)]
  {
    if clientId !in st.clients then Quiet(st)
    else
      var c := st.clients[clientId];
      var endedAs := Or(endedBy, "unknown");
      var ending := if operatorId != "" then Some(operatorId) else c.operatorId;
      var ended := c.(operatorId := None, chatEnded := true, endedBy := endedAs, endedAt := Some(now));
      var broadcast := [Emit(ToOperators, ChatEnded(clientId, ending, endedAs, "Chat ended by " + endedAs, now)),
                        Emit(ToOperators, ClientUpdated(clientId, "", false, "available", false, true))];
      var direct := [Emit(ToSocket(c.socket), ChatEnded(clientId, ending, endedAs, EndedText(endedBy), now)),
                     Emit(ToSocket(c.socket), AssignNewId(clientId, RotatedId(clientId, now), now))];
      DeliveredConcat(broadcast, direct, c.socket);
      Reaction(st.(clients := st.clients[clientId := ended]), broadcast + direct, [])
  }
}
