/**
 One client's session state and the handlers that change it: deliveries to the client with
 their rollback, and the acknowledgement flows in both directions. Each handler is one step.
 */
module ClientSession {
  import opened DeliveryStatus
  import opened PacketIds
  import opened TopicAliases

  /** Server-to-client state under one packet id: a message, or the PUBREL that replaced it. */
  datatype Outgoing = Message(topic: string, qos: nat, held: bool) | Pubrel

  /** Client-to-server state under one packet id: the acknowledgement last sent. */
  datatype Incoming = Pubrec | Pubcomp

  datatype Session = Session(
    inline: bool, outbound: map<nat, Outgoing>, inbound: map<nat, Incoming>,
    sendQuota: int, maximumSendQuota: int, receiveQuota: int, maximumReceiveQuota: int,
    packetId: nat, pending: int, aliases: Outbound)

  /** ResetSendQuota and ResetReceiveQuota on a new session; `inline` is the server's own client. */
  function Fresh(inline: bool, sendMaximum: nat, receiveMaximum: nat, aliasMaximum: nat): Session {
    Session(inline, map[], map[], sendMaximum, sendMaximum, receiveMaximum, receiveMaximum, 0, 0, Outbound(map[], 0, aliasMaximum))
  }

  function Lower(quota: int): int {
    if quota > 0 then quota - 1 else quota
  }

  function Raise(quota: int, maximum: int): int {
    if quota < maximum then quota + 1 else quota
  }

  function RaiseSend(s: Session): Session {
    s.(sendQuota := Raise(s.sendQuota, s.maximumSendQuota))
  }

  function RaiseReceive(s: Session): Session {
    s.(receiveQuota := Raise(s.receiveQuota, s.maximumReceiveQuota))
  }

  // ---------------------------------------------------------------- delivering to the client

  /** One delivery: the packet, the subscription, the limits, and what hooks, connection and queue will say. */
  datatype Attempt = Attempt(
    topic: string, qos: nat, subQos: nat, maximumQos: nat, maximumInflight: nat,
    echo: bool, allowed: bool, shared: bool,
    persist: Status, cleanup: Status, offline: bool, room: bool)

  function Min(a: nat, b: nat): nat {
    if a > b then b else a
  }

  function DeliveryQos(a: Attempt): nat {
    Min(Min(a.qos, a.subQos), a.maximumQos)
  }

  /** The attempt gets as far as taking a packet id. */
  predicate Reserves(s: Session, a: Attempt) {
    && !a.echo && a.allowed && DeliveryQos(a) > 0
    && |s.outbound| < a.maximumInflight
    && FreeOffset(s.outbound.Keys, s.packetId, 0) < MAX_ID
  }

  function NewId(s: Session): nat {
    IdAt(s.packetId, FreeOffset(s.outbound.Keys, s.packetId, 0))
  }

  /** The packet id is taken and the message stored under it. */
  function Reserved(s: Session, a: Attempt): Session {
    s.(packetId := NewId(s), outbound := s.outbound[NewId(s) := Message(a.topic, DeliveryQos(a), false)])
  }

  /** Take back a delivery: its row, one unit of quota, and the persisted copy. */
  function Undo(s: Session, id: nat, cleanup: Status, code: Code): (Session, Status) {
    if id in s.outbound then
      (RaiseSend(s.(outbound := s.outbound - {id})),
       if cleanup.Failed? then Failed(Wrapped("qos persistence cleanup failed", cleanup.error)) else Failed(Plain(code)))
    else (s, Failed(Plain(code)))
  }

  /** From the connection check on; `id` is 0 for quality of service 0. */
  function HandOver(s: Session, a: Attempt, id: nat): (Session, Status) {
    if a.offline then
      if a.shared && id > 0 then Undo(s, id, a.cleanup, Disconnected) else (s, Failed(Plain(Disconnected)))
    else
      var (aliases, alias, _) := SetAlias(s.aliases, a.topic);
      if a.room then (s.(aliases := aliases, pending := s.pending + 1), Ok)
      else
        var back := s.(aliases := if alias > 0 then DeleteAlias(aliases, a.topic, alias) else aliases);
        if id > 0 then Undo(back, id, a.cleanup, PendingWritesExceeded) else (back, Failed(Plain(PendingWritesExceeded)))
  }

  /** From the stored message on: persist it, count it against the quota, and send it or hold it back. */
  function SendStored(stored: Session, a: Attempt, id: nat): (Session, Status) {
    if a.persist.Failed? then
      (RaiseSend(stored.(outbound := stored.outbound - {id})), Failed(Wrapped("qos persistence failed", a.persist.error)))
    else
      var counted := stored.(sendQuota := Lower(stored.sendQuota));
      if stored.sendQuota == 0 && stored.maximumSendQuota > 0
      then (counted.(outbound := counted.outbound[id := Message(a.topic, DeliveryQos(a), true)]), Ok)
      else HandOver(counted, a, id)
  }

  /** publishToClientMode. */
  function Deliver(s: Session, a: Attempt): (Session, Status) {
    if a.echo then (s, Ok)
    else if !a.allowed then (s, Failed(Plain(NotAuthorized)))
    else if DeliveryQos(a) == 0 then HandOver(s, a, 0)
    else if !Reserves(s, a) then (s, Failed(Plain(QuotaExceeded)))
    else SendStored(Reserved(s, a), a, NewId(s))
  }

  /** publishSharedToClient: an unknown client, or one's own message under no-local, counts as disconnected. */
  function DeliverShared(s: Session, a: Attempt, known: bool): (Session, Status) {
    if !known || a.echo then (s, Failed(Plain(Disconnected))) else Deliver(s, a.(shared := true))
  }

  // ---------------------------------------------------------------- packets from the client

  /** What the publish hook answers: pass with a (possibly changed) quality of service, or an error. */
  datatype Hook = Pass(qos: nat) | Reject | Ignore | Refuse | OtherError

  /** A packet, with what the checks, hooks and writes it meets will answer; `retain` says that the flag is set
      and the server keeps retained messages. */
  datatype Received =
    | Publish(id: nat, qos: nat, retain: bool, validTopic: bool, allowed: bool, v5: bool, knownAlias: bool, hook: Hook, written: bool)
    | PubackIn(id: nat)
    | PubrecIn(id: nat, failed: bool, written: bool)
    | PubrelIn(id: nat, failed: bool, written: bool)
    | PubcompIn(id: nat)

  /** What the session log records. `qos` is the one the client published with. */
  datatype Event = Retained(id: nat) | FannedOut(id: nat, qos: nat) | Released(id: nat)

  function HookQos(qos: nat, hook: Hook): nat {
    if hook.Pass? then hook.qos else qos
  }

  /** The publish goes on after the hook. */
  predicate GoesOn(hook: Hook, v5: bool, qos: nat) {
    !hook.Reject? && !(hook.Refuse? && v5 && qos > 0)
  }

  /** retainMessage, unless the hook asked to ignore the packet. */
  function Retains(pk: Received): seq<Event>
    requires pk.Publish?
  {
    if pk.retain && !pk.hook.Ignore? then [Retained(pk.id)] else []
  }

  /** The fan-out, unless the hook asked to ignore the packet. */
  function FansOut(pk: Received): seq<Event>
    requires pk.Publish?
  {
    if pk.hook.Ignore? then [] else [FannedOut(pk.id, pk.qos)]
  }

  /** processPublish, and whether it ended in an error. The inline client skips the topic, authorisation and
      duplicate checks. */
  function ReceivePublish(s: Session, pk: Received, maximumQos: nat): (Session, seq<Event>, bool)
    requires pk.Publish?
  {
    if !s.inline && !pk.validTopic then (s, [], false)
    else if s.receiveQuota == 0 then (s, [], true)
    else if !s.inline && !pk.allowed then (s, [], pk.qos > 0 && (!pk.v5 || !pk.written))
    else if !s.inline && pk.id in s.inbound && s.inbound[pk.id] == Pubrec then (s, [], !pk.written)
    else
      var s1 := if s.inline then s else s.(inbound := s.inbound - {pk.id});
      if !pk.knownAlias then (s1, [], true)
      else
        var lowered := Min(pk.qos, maximumQos);
        if !GoesOn(pk.hook, pk.v5, lowered) then (s1, [], pk.hook.Refuse? && !pk.written)
        else Acknowledge(s1, pk, HookQos(lowered, pk.hook))
  }

  /** The part of processPublish that retains, acknowledges and fans out. */
  function Acknowledge(s: Session, pk: Received, qos: nat): (Session, seq<Event>, bool)
    requires pk.Publish?
  {
    if qos == 0 || s.inline then (s, Retains(pk) + FansOut(pk), false)
    else
      var s1 := s.(receiveQuota := Lower(s.receiveQuota));
      var s2 := if qos == 2 then s1.(inbound := s1.inbound[pk.id := Pubrec]) else s1;
      if !pk.written then (s2, Retains(pk), true)
      else (if qos == 1 then RaiseReceive(s2) else s2, Retains(pk) + FansOut(pk), false)
  }

  function ReceivePuback(s: Session, id: nat): Session {
    if id in s.outbound then RaiseSend(s.(outbound := s.outbound - {id})) else s
  }

  function ReceivePubrec(s: Session, id: nat, failed: bool, written: bool): (Session, bool) {
    if id !in s.outbound then (s, !written)
    else if failed then (s.(outbound := s.outbound - {id}), false)
    else (s.(receiveQuota := Lower(s.receiveQuota), outbound := s.outbound[id := Pubrel]), !written)
  }

  function ReceivePubrel(s: Session, id: nat, failed: bool, written: bool): (Session, bool) {
    if id !in s.inbound then (s, !written)
    else if failed then (s.(inbound := s.inbound - {id}), false)
    else if !written then (s.(inbound := s.inbound[id := Pubcomp]), true)
    else (RaiseSend(RaiseReceive(s.(inbound := s.inbound - {id}))), false)
  }

  function ReceivePubcomp(s: Session, id: nat): Session {
    RaiseSend(RaiseReceive(s.(outbound := s.outbound - {id})))
  }

  /** After a packet without error: one held message may go out, `next` being the oldest. */
  function SendHeld(s: Session, next: nat): Session {
    if s.sendQuota > 0 && next in s.outbound && s.outbound[next].Message? && s.outbound[next].held
    then s.(outbound := s.outbound - {next}, sendQuota := Lower(s.sendQuota))
    else s
  }

  /** Either a packet from the client, followed by the held-message step, or a delivery to it. */
  datatype Input = FromClient(pk: Received, next: nat) | ToClient(attempt: Attempt)

  function Handle(s: Session, pk: Received, maximumQos: nat): (Session, seq<Event>, bool) {
    match pk
    case Publish(_, _, _, _, _, _, _, _, _) => ReceivePublish(s, pk, maximumQos)
    case PubackIn(id) => (ReceivePuback(s, id), [], false)
    case PubrecIn(id, failed, written) =>
      var (s1, error) := ReceivePubrec(s, id, failed, written);
      (s1, [], error)
    case PubrelIn(id, failed, written) =>
      var (s1, error) := ReceivePubrel(s, id, failed, written);
      (s1, [Released(id)], error)
    case PubcompIn(id) => (ReceivePubcomp(s, id), [], false)
  }

  function Step(s: Session, input: Input, maximumQos: nat): (Session, seq<Event>) {
    match input
    case FromClient(pk, next) =>
      var (s1, events, error) := Handle(s, pk, maximumQos);
      (if error then s1 else SendHeld(s1, next), events)
    case ToClient(a) => (Deliver(s, a).0, [])
  }

  function Run(s: Session, inputs: seq<Input>, maximumQos: nat): (Session, seq<Event>)
    decreases |inputs|
  {
    if inputs == [] then (s, [])
    else
      var (s1, events) := Step(s, inputs[0], maximumQos);
      var (s2, more) := Run(s1, inputs[1..], maximumQos);
      (s2, events + more)
  }
}
