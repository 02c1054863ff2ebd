/** The `message:send` handler of server.js and the periodic sweep of
    `recentMessages`: duplicate suppression, then routing. */
module Relay {
  import opened Wrappers
  import opened Js
  import opened Registry

  /** `MESSAGE_TTL`: a fingerprint older than this many milliseconds is
      swept. The sweep itself runs every 30000 ms; in this model each run
      is an explicit event. */
  const MessageTtl: nat := 10000

  const ChatHasEnded := "Cannot send message: Chat has ended"
  const AlreadyEnded := "This chat has already ended"
  const NoOperator := "No operator assigned to this chat yet"
  const OperatorFallbackName := "ოპერატორი"
  const GuestFallbackName := "გესტი"

  /** The `setInterval` callback: drops every fingerprint whose age at
      `now` exceeds the TTL. */
  function Sweep(recent: map<MessageId, nat>, now: nat): (r: map<MessageId, nat>)
    ensures forall m :: m in r <==> m in recent && now - recent[m] <= MessageTtl
    ensures forall m :: m in r ==> r[m] == recent[m]
  {
    map m | m in recent && !(now - recent[m] > MessageTtl) :: recent[m]
  }

  /** The id under which a message is fingerprinted: an omitted
      `messageId` defaults to the current time. */
  function FingerprintOf(messageId: Option<MessageId>, now: nat): MessageId {
    messageId.GetOr(NumId(now))
  }

  /** Whether `message:send` drops the message as a duplicate. */
  predicate IsDuplicate(recent: map<MessageId, nat>, m: MessageId) {
    Truthy(m) && m in recent
  }

  /** Whether the sender takes the operator-to-client branch. */
  predicate FromOperator(st: State, sock: Id, to: string) {
    Attrs(st, sock).operatorId.Some? && to != ""
  }

  /** Routing of a message that passed the duplicate check, with the
      fingerprint already recorded. */
  function Route(st: State, sock: Id, text: string, to: string, kind: string, name: string, now: nat): (r: Reaction)
    ensures r.st.operators == st.operators && r.st.recent == st.recent
    ensures r.st.sockets == st.sockets && r.timers == []
    ensures r.st.clients.Keys == st.clients.Keys
    ensures forall k :: k in st.clients && k != to ==> r.st.clients[k] == st.clients[k]
    // operator to an unknown client
    ensures FromOperator(st, sock, to) && to !in st.clients ==>
              r.st == st && r.out == [Emit(ToSocket(sock), Error(ClientNotFound, Some(to), None))]
    // operator to an ended chat: nothing delivered, the ending re-announced to the sender
    ensures FromOperator(st, sock, to) && to in st.clients && st.clients[to].chatEnded ==>
              && r.st == st && |r.out| == 2
              && r.out[0] == Emit(ToSocket(sock), Error(ChatHasEnded, Some(to), Some(st.clients[to].endedAt.GetOr(now))))
              && r.out[1] == Emit(ToSocket(sock), ChatEnded(to, None, Or(st.clients[to].endedBy, "client"), AlreadyEnded,
                                                            st.clients[to].endedAt.GetOr(now)))
    // operator to a live chat: assignment re-asserted, one delivery to the client
    ensures FromOperator(st, sock, to) && to in st.clients && !st.clients[to].chatEnded ==>
              var op := Attrs(st, sock).operatorId.value;
              && r.st.clients[to] == st.clients[to].(operatorId := Some(op))
              && r.out == [Emit(ToSocket(st.clients[to].socket),
                                MessageReceived(text, op, Or(Or(name, Attrs(st, sock).operatorName), OperatorFallbackName),
                                                kind, now))]
    // client to the operator pool
    ensures !FromOperator(st, sock, to) && Attrs(st, sock).clientId.Some? ==>
              var cid := Attrs(st, sock).clientId.value;
              && r.st == st
              && (cid in st.clients && st.clients[cid].operatorId.Some? ==>
                    r.out == [Emit(ToOperators,
                                   MessageReceived(text, cid,
                                                   Or(Or(Or(name, Attrs(st, sock).clientName), st.clients[cid].name),
                                                      GuestFallbackName),
                                                   kind, now))])
              && (!(cid in st.clients && st.clients[cid].operatorId.Some?) ==>
                    r.out == [Emit(ToSocket(sock), Error(NoOperator, None, None))])
    // a socket that is neither
    ensures !FromOperator(st, sock, to) && Attrs(st, sock).clientId.None? ==> r == Quiet(st)
  {
    var a := Attrs(st, sock);
    if FromOperator(st, sock, to) then
      var op := a.operatorId.value;
      if to !in st.clients then
        Reaction(st, [Emit(ToSocket(sock), Error(ClientNotFound, Some(to), None))], [])
      else
        var c := st.clients[to];
        if c.chatEnded then
          var at := c.endedAt.GetOr(now);
          Reaction(st, [Emit(ToSocket(sock), Error(ChatHasEnded, Some(to), Some(at))),
                        Emit(ToSocket(sock), ChatEnded(to, None, Or(c.endedBy, "client"), AlreadyEnded, at))], [])
        else
          var sender := Or(Or(name, a.operatorName), OperatorFallbackName);
          Reaction(st.(clients := st.clients[to := c.(operatorId := Some(op))]),
                   [Emit(ToSocket(c.socket), MessageReceived(text, op, sender, kind, now))], [])
    else
      match a.clientId
      case None => Quiet(st)
      case Some(cid) =>
        if cid in st.clients && st.clients[cid].operatorId.Some? then
          var sender := Or(Or(Or(name, a.clientName), st.clients[cid].name), GuestFallbackName);
          Reaction(st, [Emit(ToOperators, MessageReceived(text, cid, sender, kind, now))], [])
        else
          Reaction(st, [Emit(ToSocket(sock), Error(NoOperator, None, None))], [])
  }

  /** `message:send {text, to, messageId, type, name}` on socket `sock` at
      time `now`. A fresh truthy id is fingerprinted before routing, so a
      send that then fails is still remembered. */
  function MessageSend(st: State, sock: Id, text: string, to: string, messageId: Option<MessageId>,
                       kind: Option<string>, name: string, now: nat): (r: Reaction)
    ensures IsDuplicate(st.recent, FingerprintOf(messageId, now)) ==> r == Quiet(st)
    ensures !IsDuplicate(st.recent, FingerprintOf(messageId, now)) ==>
              var m := FingerprintOf(messageId, now);
              var routed := Route(st, sock, text, to, kind.GetOr("text"), name, now);
              && r.st.recent == (if Truthy(m) then st.recent[m := now] else st.recent)
              && r.out == routed.out
              && r.st == routed.st.(recent := r.st.recent)
  {
    var m := FingerprintOf(messageId, now);
    if IsDuplicate(st.recent, m) then Quiet(st)
    else
      var recent := if Truthy(m) then st.recent[m := now] else st.recent;
      var routed := Route(st, sock, text, to, kind.GetOr("text"), name, now);
      routed.(st := routed.st.(recent := recent))
  }

  /** Sweeping twice is sweeping once at the later instant. */
  lemma SweepLater(recent: map<MessageId, nat>, t1: nat, t2: nat)
    requires t1 <= t2
    ensures Sweep(Sweep(recent, t1), t2) == Sweep(recent, t2)
  {
  }

  /** A fingerprint recorded at `t` survives any sweep up to `t + TTL`
      and no sweep after it. */
  lemma SweepWindow(recent: map<MessageId, nat>, m: MessageId, t: nat, now: nat)
    requires m in recent && recent[m] == t
    ensures m in Sweep(recent, now) <==> now <= t + MessageTtl
  {
  }
}
