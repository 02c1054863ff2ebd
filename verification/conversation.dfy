/** The conversation the relay exists for, replayed on concrete values:
    an operator and a client connect, the operator accepts, a message is
    delivered once despite a retry, and the operator ends the chat. */
module Conversation {
  import opened Wrappers
  import opened Js
  import opened Registry
  import Connect
  import Lifecycle
  import Relay

  const OpSocket := SocketAttrs(Some("op1"), "Ann", None, "")
  const ClientSocket := SocketAttrs(None, "", Some("c1"), "Bob")
  const Joined := ClientRecord("s2", None, "Bob", Connected, Some(1000), None, None, false, "", None)
  const Taken := Joined.(operatorId := Some("op1"))
  const Finished := Joined.(chatEnded := true, endedBy := "operator", endedAt := Some(6000))

  const AfterOperator := State({"op1"}, map[], map[], map["s1" := OpSocket])
  const AfterClient := AfterOperator.(clients := map["c1" := Joined], sockets := map["s1" := OpSocket, "s2" := ClientSocket])
  const AfterAccept := AfterClient.(clients := map["c1" := Taken])
  const AfterHello := AfterAccept.(recent := map[NumId(1) := 2000])
  const AfterEnd := AfterHello.(clients := map["c1" := Finished])

  lemma OperatorJoins()
    ensures Connect.OperatorConnect(Initial, "s1", "op1", "Ann").st == AfterOperator
  {
  }

  lemma ClientJoins()
    ensures var r := Connect.ClientConnect(AfterOperator, "s2", "c1", "Bob", 1000);
            r.st == AfterClient && Delivered(r.out, "s2") == [OperatorStatus(true)]
  {
    Connect.ClientConnectDeliveries(AfterOperator, "s2", "c1", "Bob", 1000);
  }

  lemma OperatorAccepts()
    ensures var r := Lifecycle.OperatorAccept(AfterClient, "s1", "c1");
            r.st == AfterAccept && Emit(ToSocket("s2"), ChatAccepted("op1", false)) in r.out
  {
  }

  lemma HelloOnce()
    ensures var r := Relay.MessageSend(AfterAccept, "s1", "hello", "c1", Some(NumId(1)), None, "", 2000);
            && r.st == AfterHello
            && r.out == [Emit(ToSocket("s2"), MessageReceived("hello", "op1", "Ann", "text", 2000))]
    ensures Relay.MessageSend(AfterHello, "s1", "hello", "c1", Some(NumId(1)), None, "", 5000) == Quiet(AfterHello)
  {
  }

  lemma OperatorEnds()
    ensures var r := Lifecycle.EndChat(AfterHello, "s1", "c1", "op1", "operator", 6000);
            && r.st == AfterEnd
            && Emit(ToOperators, ChatEnded("c1", Some("op1"), "operator", "Chat ended by operator", 6000)) in r.out
            && Delivered(r.out, "s2") ==
                 [ChatEnded("c1", Some("op1"), "operator", Lifecycle.EndedByOperatorText, 6000),
                  AssignNewId("c1", "c1_new_6000", 6000)]
  {
    assert NatToString(6000) == "6000";
    assert Lifecycle.RotatedId("c1", 6000) == "c1_new_6000";
    assert "Chat ended by " + Or("operator", "unknown") == "Chat ended by operator";
  }

  lemma NoMessageAfterEnd()
    ensures var r := Relay.MessageSend(AfterEnd, "s1", "again", "c1", Some(NumId(2)), None, "", 7000);
            && !Relays(r.out)
            && r.out[0] == Emit(ToSocket("s1"), Error(Relay.ChatHasEnded, Some("c1"), Some(6000)))
  {
    var r := Relay.MessageSend(AfterEnd, "s1", "again", "c1", Some(NumId(2)), None, "", 7000);
    assert |r.out| == 2 && !r.out[0].msg.MessageReceived? && !r.out[1].msg.MessageReceived?;
  }

  /** The whole conversation, one event after another. */
  lemma AcceptRelayEnd()
    ensures var r1 := Connect.OperatorConnect(Initial, "s1", "op1", "Ann");
            var r2 := Connect.ClientConnect(r1.st, "s2", "c1", "Bob", 1000);
            var r3 := Lifecycle.OperatorAccept(r2.st, "s1", "c1");
            var r4 := Relay.MessageSend(r3.st, "s1", "hello", "c1", Some(NumId(1)), None, "", 2000);
            var r5 := Relay.MessageSend(r4.st, "s1", "hello", "c1", Some(NumId(1)), None, "", 5000);
            var r6 := Lifecycle.EndChat(r5.st, "s1", "c1", "op1", "operator", 6000);
            var r7 := Relay.MessageSend(r6.st, "s1", "again", "c1", Some(NumId(2)), None, "", 7000);
            && Delivered(r2.out, "s2") == [OperatorStatus(true)]
            && Emit(ToSocket("s2"), ChatAccepted("op1", false)) in r3.out
            && r4.out == [Emit(ToSocket("s2"), MessageReceived("hello", "op1", "Ann", "text", 2000))]
            && r5.out == []
            && Delivered(r6.out, "s2") ==
                 [ChatEnded("c1", Some("op1"), "operator", Lifecycle.EndedByOperatorText, 6000),
                  AssignNewId("c1", "c1_new_6000", 6000)]
            && !Relays(r7.out)
  {
    OperatorJoins();
    ClientJoins();
    OperatorAccepts();
    HelloOnce();
    OperatorEnds();
    NoMessageAfterEnd();
  }
}
