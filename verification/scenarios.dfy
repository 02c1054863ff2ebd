/** Properties that span several events: resumption inside the grace
    period, the fate of an ended chat, duplicate suppression over time,
    and the end-to-end conversation the server is built for. */
module Scenarios {
  import opened Wrappers
  import opened Js
  import opened Registry
  import Connect
  import Lifecycle
  import Relay
  import Grace
  import Reconnect
  import Server

  /** A client whose socket drops and who resumes on a new socket before
      its 30 s timer fires keeps its record, its operator and its ended
      state, is told of a restored assignment exactly when it had one, and
      the pending timer then does nothing. */
  lemma ResumeWithinGrace(st: State, cid: Id, h1: Id, h2: Id, name: string, t1: nat, t2: nat)
    requires cid in st.clients && st.clients[cid].socket == h1
    requires Attrs(st, h1).clientId == Some(cid)
    requires h1 != h2
    ensures var d := Grace.Disconnect(st, h1, t1);
            var r := Reconnect.ReconnectAttempt(d.st, h2, cid, "", name, t2);
            var c := st.clients[cid];
            && ClientGrace(h1, cid) in d.timers
            && d.st.clients[cid].status == Disconnected
            && r.st.clients[cid].status == Connected
            && r.st.clients[cid].socket == h2
            && r.st.clients[cid].operatorId == c.operatorId
            && r.st.clients[cid].chatEnded == c.chatEnded
            && Delivered(r.out, h2) ==
                 (if c.operatorId.Some? then [ChatAccepted(c.operatorId.value, true)] else [])
                 + [ReconnectSuccess(c.operatorId, h2)]
            && Grace.FireClientGrace(r.st, cid) == Quiet(r.st)
  {
    assert Grace.OwnsRecord(st, h1);
  }

  /** The 30 s timer re-checks only the status, not the socket: a second
      drop after resuming re-arms the first timer too, which then removes
      the record 30 s after the first drop. */
  lemma EarlierTimerHonoursLaterDrop(st: State, cid: Id, h1: Id, h2: Id, name: string, t1: nat, t2: nat, t3: nat)
    requires cid in st.clients && st.clients[cid].socket == h1
    requires Attrs(st, h1).clientId == Some(cid)
    requires h1 != h2
    ensures var d1 := Grace.Disconnect(st, h1, t1);
            var r := Reconnect.ReconnectAttempt(d1.st, h2, cid, "", name, t2);
            var d2 := Grace.Disconnect(r.st, h2, t3);
            && ClientGrace(h1, cid) in d1.timers
            && cid !in Grace.FireClientGrace(d2.st, cid).st.clients
  {
    var d1 := Grace.Disconnect(st, h1, t1);
    assert Grace.OwnsRecord(st, h1);
    var r := Reconnect.ReconnectAttempt(d1.st, h2, cid, "", name, t2);
    assert Grace.OwnsRecord(r.st, h2);
  }

  /** Once a chat has ended, no event but a fresh `client:connect` on the
      same id (or removal of the record) clears the mark. */
  lemma EndedIsSticky(st: State, cid: Id, ev: Server.Event, now: nat)
    requires cid in st.clients && st.clients[cid].chatEnded
    requires !(ev.ClientConnect? && OrId(ev.id, ev.socket) == cid)
    requires cid in Server.Step(st, ev, now).st.clients
    ensures Server.Step(st, ev, now).st.clients[cid].chatEnded
  {
    match ev {
      case OperatorConnect(s, id, name) =>
      case ClientConnect(s, id, name) =>
      case LegacyReconnect(s, id, name) =>
      case ClientLeave(s, c) =>
      case OperatorAccept(s, c) =>
      case MessageSend(s, text, to, mid, kind, name) =>
        var m := Relay.FingerprintOf(mid, now);
        if !Relay.IsDuplicate(st.recent, m) {
          var routed := Relay.Route(st, s, text, to, kind.GetOr("text"), name, now);
          assert routed.st.clients[cid].chatEnded;
        }
      case ChatEnd(s, c, op, endedBy) =>
      case Disconnect(s) =>
        if Grace.OwnsRecord(st, s) && Attrs(st, s).clientId == Some(cid) {
          assert Server.Step(st, ev, now).st.clients[cid] ==
                 st.clients[cid].(status := Disconnected, disconnectedAt := Some(now));
        }
      case ReconnectAttempt(s, c, op, name) =>
      case TimerFires(t, roomPresent) =>
      case SweepTick =>
    }
  }

  /** The `client:connect` quirk: reconnecting under the same id through
      `client:connect` rebuilds the record and forgets that the chat ended,
      so the next operator message is delivered again. */
  lemma ConnectForgetsEnded(st: State, cid: Id, sock: Id, name: string, now: nat,
                            op: Id, text: string, kind: string, later: nat)
    requires cid in st.clients && st.clients[cid].chatEnded
    requires Attrs(st, op).operatorId.Some?
    ensures var c := Connect.ClientConnect(st, sock, cid, name, now);
            && !c.st.clients[cid].chatEnded
            && Relays(Relay.Route(c.st, op, text, cid, kind, "", later).out)
  {
    var c := Connect.ClientConnect(st, sock, cid, name, now);
    assert Attrs(c.st, op).operatorId.Some? by {
      if op != sock {
        assert Attrs(c.st, op) == Attrs(st, op);
      }
    }
    var out := Relay.Route(c.st, op, text, cid, kind, "", later).out;
    assert out[0].msg.MessageReceived?;
  }

  /** An operator message to an ended chat is never delivered: the sender
      gets an error and the ending again, and the record is untouched. */
  lemma EndedBlocksOperator(st: State, cid: Id, operatorId: string, endedBy: string, now: nat,
                            op: Id, text: string, kind: string, name: string, later: nat)
    requires cid in st.clients
    requires Attrs(st, op).operatorId.Some?
    ensures var e := Lifecycle.EndChat(st, op, cid, operatorId, endedBy, now);
            var r := Relay.Route(e.st, op, text, cid, kind, name, later);
            && !Relays(r.out)
            && r.st == e.st
            && r.out[0] == Emit(ToSocket(op), Error(Relay.ChatHasEnded, Some(cid), Some(now)))
            && r.out[1].to == ToSocket(op) && r.out[1].msg.ChatEnded?
  {
    var e := Lifecycle.EndChat(st, op, cid, operatorId, endedBy, now);
    var r := Relay.Route(e.st, op, text, cid, kind, name, later);
    assert Attrs(e.st, op) == Attrs(st, op);
    assert |r.out| == 2 && !r.out[0].msg.MessageReceived? && !r.out[1].msg.MessageReceived?;
  }

  /** After a chat ends, the client's own messages are refused: the end
      cleared its operator. */
  lemma EndedClientUnassigned(st: State, cid: Id, operatorId: string, endedBy: string, now: nat,
                              sock: Id, text: string, to: string, kind: string, name: string, later: nat)
    requires cid in st.clients
    requires Attrs(st, sock).clientId == Some(cid)
    requires !Relay.FromOperator(st, sock, to)
    ensures var e := Lifecycle.EndChat(st, sock, cid, operatorId, endedBy, now);
            Relay.Route(e.st, sock, text, to, kind, name, later).out ==
              [Emit(ToSocket(sock), Error(Relay.NoOperator, None, None))]
  {
    var e := Lifecycle.EndChat(st, sock, cid, operatorId, endedBy, now);
    assert Attrs(e.st, sock) == Attrs(st, sock);
  }

  /** The `operator:accept` quirk: accepting an ended chat assigns the
      operator without clearing the end, and the client's messages reach
      the operators again while operator replies stay blocked. */
  lemma AcceptReopensClientSide(st: State, cid: Id, operatorId: string, endedBy: string, now: nat,
                                op: Id, csock: Id, text: string, kind: string, name: string, later: nat)
    requires cid in st.clients
    requires Attrs(st, op).operatorId.Some?
    requires Attrs(st, csock).clientId == Some(cid)
    ensures var e := Lifecycle.EndChat(st, op, cid, operatorId, endedBy, now);
            var a := Lifecycle.OperatorAccept(e.st, op, cid);
            && a.st.clients[cid].chatEnded
            && a.st.clients[cid].operatorId == Attrs(st, op).operatorId
            && Relays(Relay.Route(a.st, csock, text, "", kind, name, later).out)
            && !Relays(Relay.Route(a.st, op, text, cid, kind, name, later).out)
  {
    var e := Lifecycle.EndChat(st, op, cid, operatorId, endedBy, now);
    var a := Lifecycle.OperatorAccept(e.st, op, cid);
    assert Attrs(e.st, op) == Attrs(st, op);
    assert Attrs(a.st, csock) == Attrs(st, csock);
    var relayed := Relay.Route(a.st, csock, text, "", kind, name, later).out;
    assert relayed[0].msg.MessageReceived?;
    var blocked := Relay.Route(a.st, op, text, cid, kind, name, later).out;
    assert |blocked| == 2 && !blocked[0].msg.MessageReceived? && !blocked[1].msg.MessageReceived?;
  }

  /** Resending a fingerprinted message while its fingerprint survives
      the sweeps is dropped without any emission or state change. */
  lemma DuplicateWithinTtl(st: State, sock: Id, text: string, to: string, m: MessageId, kind: Option<string>,
                           name: string, t1: nat, t2: nat, sock2: Id, text2: string, to2: string,
                           kind2: Option<string>, name2: string, t3: nat)
    requires Truthy(m) && m !in st.recent
    requires t2 <= t1 + Relay.MessageTtl
    ensures var s1 := Relay.MessageSend(st, sock, text, to, Some(m), kind, name, t1).st;
            var s2 := s1.(recent := Relay.Sweep(s1.recent, t2));
            Relay.MessageSend(s2, sock2, text2, to2, Some(m), kind2, name2, t3) == Quiet(s2)
  {
    var s1 := Relay.MessageSend(st, sock, text, to, Some(m), kind, name, t1).st;
    Relay.SweepWindow(s1.recent, m, t1, t2);
  }

  /** Once a sweep later than the TTL has run, the same id is routed like
      a new message and fingerprinted afresh. */
  lemma RedeliveredAfterTtl(st: State, sock: Id, text: string, to: string, m: MessageId, kind: Option<string>,
                            name: string, t1: nat, t2: nat, t3: nat)
    requires Truthy(m) && m !in st.recent
    requires t2 > t1 + Relay.MessageTtl
    ensures var s1 := Relay.MessageSend(st, sock, text, to, Some(m), kind, name, t1).st;
            var s2 := s1.(recent := Relay.Sweep(s1.recent, t2));
            var r := Relay.MessageSend(s2, sock, text, to, Some(m), kind, name, t3);
            && r.out == Relay.Route(s2, sock, text, to, kind.GetOr("text"), name, t3).out
            && r.st.recent[m] == t3
  {
    var s1 := Relay.MessageSend(st, sock, text, to, Some(m), kind, name, t1).st;
    Relay.SweepWindow(s1.recent, m, t1, t2);
  }

  /** The rotated identity is built, never checked against the registry:
      when a client already holds `c1_new_6000`, ending `c1`'s chat at 6000
      hands out that occupied id, and ending it again in the same
      millisecond hands it out once more. */
  lemma RotatedIdUnchecked()
    ensures var taken := ClientRecord("s9", None, "Eve", Connected, Some(1), None, None, false, "", None);
            var c1 := taken.(socket := "s2", name := "Bob");
            var st := State({}, map["c1" := c1, "c1_new_6000" := taken], map[], map[]);
            var r := Lifecycle.EndChat(st, "s1", "c1", "", "", 6000);
            var again := Lifecycle.EndChat(r.st, "s1", "c1", "", "", 6000);
            && Delivered(r.out, "s2")[1] == AssignNewId("c1", "c1_new_6000", 6000)
            && "c1_new_6000" in r.st.clients
            && Delivered(again.out, "s2")[1] == Delivered(r.out, "s2")[1]
  {
    assert NatToString(6000) == "6000";
    assert Lifecycle.RotatedId("c1", 6000) == "c1_new_6000";
  }

  /** A message sent without an id is fingerprinted by the clock, so a
      second id-less message in the same millisecond is dropped as a
      duplicate, whatever its text or sender. */
  lemma UnlabelledSameInstant(st: State, sock: Id, text: string, to: string, kind: Option<string>, name: string,
                              sock2: Id, text2: string, to2: string, kind2: Option<string>, name2: string, now: nat)
    requires now != 0
    ensures var s1 := Relay.MessageSend(st, sock, text, to, None, kind, name, now).st;
            Relay.MessageSend(s1, sock2, text2, to2, None, kind2, name2, now) == Quiet(s1)
  {
  }

  /** A fresh `client:connect` undone by a `client:leave` from the same
      socket leaves the registry as it was. */
  lemma LeaveUndoesConnect(st: State, sock: Id, id: string, name: string, now: nat)
    requires OrId(id, sock) !in st.clients
    ensures var c := Connect.ClientConnect(st, sock, id, name, now);
            Connect.ClientLeave(c.st, sock, OrId(id, sock)).st.clients == st.clients
  {
  }

  /** Announcing the same operator twice on a socket changes nothing the
      second time. */
  lemma OperatorConnectIdempotent(st: State, sock: Id, id: string, name: string)
    ensures var once := Connect.OperatorConnect(st, sock, id, name).st;
            Connect.OperatorConnect(once, sock, id, name).st == once
  {
  }

  /** The operator timer looks at the old socket's room, not at the
      operator: an operator that resumed on another socket is still
      evicted when the room of the dropped socket is gone. */
  lemma OperatorTimerIgnoresResume(st: State, h1: Id, h2: Id, op: Id, name: string, t1: nat, t2: nat)
    requires Attrs(st, h1).operatorId == Some(op)
    requires h1 != h2
    ensures var d := Grace.Disconnect(st, h1, t1);
            var r := Reconnect.ReconnectAttempt(d.st, h2, "", op, name, t2);
            && OperatorGrace(h1, op) in d.timers
            && op in r.st.operators && Attrs(r.st, h2).operatorId == Some(op)
            && op !in Grace.FireOperatorGrace(r.st, op, false).st.operators
  {
  }
}
