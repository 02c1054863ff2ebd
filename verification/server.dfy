/** The socket event loop of server.js as one transition function over
    the registry, and the invariants every reachable state keeps. */
module Server {
  import opened Wrappers
  import opened Js
  import opened Registry
  import Connect
  import Lifecycle
  import Relay
  import Grace
  import Reconnect

  /** Every inbound socket event, each timer callback and the periodic
      sweep. String fields are "" when the payload omits them. */
  datatype Event =
    | OperatorConnect(socket: Id, id: string, name: string)
    | ClientConnect(socket: Id, id: string, name: string)
    | LegacyReconnect(socket: Id, id: string, name: string)
    | ClientLeave(socket: Id, clientId: string)
    | OperatorAccept(socket: Id, clientId: string)
    | MessageSend(socket: Id, text: string, to: string, messageId: Option<MessageId>, kind: Option<string>, name: string)
    | ChatEnd(socket: Id, clientId: string, operatorId: string, endedBy: string)
    | Disconnect(socket: Id)
    | ReconnectAttempt(socket: Id, clientId: string, operatorId: string, name: string)
    | TimerFires(timer: Timer, roomPresent: bool)
    | SweepTick

  /** Handling one event at time `now`. */
  function Step(st: State, ev: Event, now: nat): (r: Reaction)
    // records appear only by client:connect ...
    ensures !ev.ClientConnect? ==> r.st.clients.Keys <= st.clients.Keys
    // ... and disappear only by an explicit leave or the client grace timer
    ensures !ev.ClientLeave? && !(ev.TimerFires? && ev.timer.ClientGrace?) ==> st.clients.Keys <= r.st.clients.Keys
    // operators leave the pool only when their grace timer fires
    ensures !(ev.TimerFires? && ev.timer.OperatorGrace?) ==> st.operators <= r.st.operators
    // the fingerprint ledger changes only by a send or a sweep
    ensures !ev.MessageSend? && !ev.SweepTick? ==> r.st.recent == st.recent
    // only a disconnect schedules timers, and only for its own socket
    ensures forall t :: t in r.timers ==> ev.Disconnect? && t.socket == ev.socket
  {
    match ev
    case OperatorConnect(s, id, name) => Connect.OperatorConnect(st, s, id, name)
    case ClientConnect(s, id, name) => Connect.ClientConnect(st, s, id, name, now)
    case LegacyReconnect(s, id, name) => Connect.LegacyReconnect(st, s, id, name)
    case ClientLeave(s, cid) => Connect.ClientLeave(st, s, cid)
    case OperatorAccept(s, cid) => Lifecycle.OperatorAccept(st, s, cid)
    case MessageSend(s, text, to, mid, kind, name) => Relay.MessageSend(st, s, text, to, mid, kind, name, now)
    case ChatEnd(s, cid, op, endedBy) => Lifecycle.EndChat(st, s, cid, op, endedBy, now)
    case Disconnect(s) => Grace.Disconnect(st, s, now)
    case ReconnectAttempt(s, cid, op, name) => Reconnect.ReconnectAttempt(st, s, cid, op, name, now)
    case TimerFires(t, roomPresent) => Grace.Fire(st, t, roomPresent)
    case SweepTick => Quiet(st.(recent := Relay.Sweep(st.recent, now)))
  }

  datatype Timed = Timed(ev: Event, now: nat)

  /** The state after handling `trace` in order. */
  function Run(st: State, trace: seq<Timed>): State
    decreases |trace|
  {
    if trace == [] then st else Run(Step(st, trace[0].ev, trace[0].now).st, trace[1..])
  }

  /** Every operator id that is in the pool at some point of `trace`. */
  function EverActive(st: State, trace: seq<Timed>): set<Id>
    decreases |trace|
  {
    st.operators + (if trace == [] then {} else EverActive(Step(st, trace[0].ev, trace[0].now).st, trace[1..]))
  }

  /** An ended chat records who ended it and when. */
  ghost predicate EndedRecorded(st: State) {
    forall k :: k in st.clients && st.clients[k].chatEnded ==>
      st.clients[k].endedBy != "" && st.clients[k].endedAt.Some?
  }

  /** A disconnected record carries its disconnection time. */
  ghost predicate AwayRecorded(st: State) {
    forall k :: k in st.clients && st.clients[k].status == Disconnected ==> st.clients[k].disconnectedAt.Some?
  }

  /** Every operator id the state mentions (in the pool, on a record, on a
      socket) lies in `known`. */
  ghost predicate OperatorsWithin(st: State, known: set<Id>) {
    && st.operators <= known
    && (forall k :: k in st.clients && st.clients[k].operatorId.Some? ==> st.clients[k].operatorId.value in known)
    && (forall s :: s in st.sockets && st.sockets[s].operatorId.Some? ==> st.sockets[s].operatorId.value in known)
  }

  ghost predicate Inv(st: State, known: set<Id>) {
    EndedRecorded(st) && AwayRecorded(st) && OperatorsWithin(st, known)
  }

  lemma InitialInv()
    ensures Inv(Initial, {})
  {
  }

  /** One event keeps the invariant, where the known operators grow by
      the pool the event leaves behind. */
  lemma StepKeepsInv(st: State, known: set<Id>, ev: Event, now: nat)
    requires Inv(st, known)
    ensures Inv(Step(st, ev, now).st, known + Step(st, ev, now).st.operators)
  {
    match ev {
      case OperatorConnect(s, id, name) => OperatorConnectKeepsInv(st, known, s, id, name);
      case ClientConnect(s, id, name) => ClientConnectKeepsInv(st, known, s, id, name, now);
      case LegacyReconnect(s, id, name) =>
      case ClientLeave(s, cid) => ClientLeaveKeepsInv(st, known, s, cid);
      case OperatorAccept(s, cid) => AcceptKeepsInv(st, known, s, cid);
      case MessageSend(s, text, to, mid, kind, name) => SendKeepsInv(st, known, s, text, to, mid, kind, name, now);
      case ChatEnd(s, cid, op, endedBy) => EndChatKeepsInv(st, known, s, cid, op, endedBy, now);
      case Disconnect(s) => DisconnectKeepsInv(st, known, s, now);
      case ReconnectAttempt(s, cid, op, name) => ReconnectKeepsInv(st, known, s, cid, op, name, now);
      case TimerFires(t, roomPresent) => FireKeepsInv(st, known, t, roomPresent);
      case SweepTick =>
    }
  }

  lemma OperatorConnectKeepsInv(st: State, known: set<Id>, s: Id, id: string, name: string)
    requires Inv(st, known)
    ensures var r := Connect.OperatorConnect(st, s, id, name); Inv(r.st, known + r.st.operators)
  {
    var r := Connect.OperatorConnect(st, s, id, name);
    assert forall x :: x in r.st.sockets && x != s ==> r.st.sockets[x] == Attrs(st, x);
  }

  lemma ClientConnectKeepsInv(st: State, known: set<Id>, s: Id, id: string, name: string, now: nat)
    requires Inv(st, known)
    ensures var r := Connect.ClientConnect(st, s, id, name, now); Inv(r.st, known + r.st.operators)
  {
    var r := Connect.ClientConnect(st, s, id, name, now);
    assert forall x :: x in r.st.sockets && x != s ==> r.st.sockets[x] == Attrs(st, x);
  }

  lemma ClientLeaveKeepsInv(st: State, known: set<Id>, s: Id, cid: string)
    requires Inv(st, known)
    ensures var r := Connect.ClientLeave(st, s, cid); Inv(r.st, known + r.st.operators)
  {
  }

  lemma AcceptKeepsInv(st: State, known: set<Id>, s: Id, cid: string)
    requires Inv(st, known)
    ensures var r := Lifecycle.OperatorAccept(st, s, cid); Inv(r.st, known + r.st.operators)
  {
    if Attrs(st, s).operatorId.Some? {
      assert s in st.sockets;
    }
  }

  lemma SendKeepsInv(st: State, known: set<Id>, s: Id, text: string, to: string, mid: Option<MessageId>,
                     kind: Option<string>, name: string, now: nat)
    requires Inv(st, known)
    ensures var r := Relay.MessageSend(st, s, text, to, mid, kind, name, now); Inv(r.st, known + r.st.operators)
  {
    if Relay.FromOperator(st, s, to) {
      assert s in st.sockets;
    }
  }

  lemma EndChatKeepsInv(st: State, known: set<Id>, s: Id, cid: string, op: string, endedBy: string, now: nat)
    requires Inv(st, known)
    ensures var r := Lifecycle.EndChat(st, s, cid, op, endedBy, now); Inv(r.st, known + r.st.operators)
  {
  }

  lemma DisconnectKeepsInv(st: State, known: set<Id>, s: Id, now: nat)
    requires Inv(st, known)
    ensures var r := Grace.Disconnect(st, s, now); Inv(r.st, known + r.st.operators)
  {
  }

  lemma ReconnectKeepsInv(st: State, known: set<Id>, s: Id, cid: string, op: string, name: string, now: nat)
    requires Inv(st, known)
    ensures var r := Reconnect.ReconnectAttempt(st, s, cid, op, name, now); Inv(r.st, known + r.st.operators)
  {
    var r := Reconnect.ReconnectAttempt(st, s, cid, op, name, now);
    assert forall x :: x in r.st.sockets && x != s ==> r.st.sockets[x] == Attrs(st, x);
  }

  lemma FireKeepsInv(st: State, known: set<Id>, t: Timer, roomPresent: bool)
    requires Inv(st, known)
    ensures var r := Grace.Fire(st, t, roomPresent); Inv(r.st, known + r.st.operators)
  {
  }

  /** Every state reachable from `st` keeps the invariant, relative to the
      operators that were ever in the pool along the way. */
  lemma {:induction false} RunKeepsInv(st: State, known: set<Id>, trace: seq<Timed>)
    requires Inv(st, known)
    ensures Inv(Run(st, trace), known + EverActive(st, trace))
    decreases |trace|
  {
    if trace != [] {
      var next := Step(st, trace[0].ev, trace[0].now).st;
      StepKeepsInv(st, known, trace[0].ev, trace[0].now);
      RunKeepsInv(next, known + next.operators, trace[1..]);
      assert known + next.operators + EverActive(next, trace[1..]) == known + EverActive(st, trace);
    }
  }

  /** From a fresh server: an assigned operator is one that is, or once
      was, in the active pool; an ended chat says by whom and when. */
  lemma Reachable(trace: seq<Timed>)
    ensures var st := Run(Initial, trace);
            && EndedRecorded(st) && AwayRecorded(st)
            && forall k :: k in st.clients && st.clients[k].operatorId.Some? ==>
                 st.clients[k].operatorId.value in EverActive(Initial, trace)
  {
    InitialInv();
    RunKeepsInv(Initial, {}, trace);
    assert {} + EverActive(Initial, trace) == EverActive(Initial, trace);
  }
}
