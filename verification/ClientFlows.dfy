/**
 What one packet does: which publishes are fanned out and retained and what they cost, and the
 acknowledgement flows that give back what a delivery took.
 */
module ClientFlows {
  import opened DeliveryStatus
  import opened PacketIds
  import opened TopicAliases
  import opened ClientSession
  import opened ClientSessionTheorems

  // ---------------------------------------------------------------- a publish from the client

  /** The topic, quota, authorisation and duplicate checks let it through; the inline client skips all but the quota. */
  predicate Entered(s: Session, pk: Received)
    requires pk.Publish?
  {
    s.receiveQuota != 0 && (s.inline || (pk.validTopic && pk.allowed && !(pk.id in s.inbound && s.inbound[pk.id] == Pubrec)))
  }

  /** Its alias is known too, and the hook neither rejects it nor refuses it with an acknowledgement. */
  predicate Admitted(s: Session, pk: Received, maximumQos: nat)
    requires pk.Publish?
  {
    Entered(s, pk) && pk.knownAlias && !pk.hook.Reject? && !(pk.hook.Refuse? && pk.v5 && pk.qos > 0 && maximumQos > 0)
  }

  /** The quality of service it goes on with: the hook's, or the client's up to the server's maximum. */
  function QosLeft(pk: Received, maximumQos: nat): nat
    requires pk.Publish?
  {
    if pk.hook.Pass? then pk.hook.qos else if pk.qos <= maximumQos then pk.qos else maximumQos
  }

  /** An acknowledgement is due, and is what the receive quota pays for. */
  predicate AckDue(s: Session, pk: Received, maximumQos: nat)
    requires pk.Publish?
  {
    Admitted(s, pk, maximumQos) && !s.inline && QosLeft(pk, maximumQos) > 0
  }

  /** A publish is fanned out, once, exactly when it is admitted, not to be ignored, and any acknowledgement due was
      written; it is retained, once, exactly when it is admitted, not to be ignored, and asks for it. */
  lemma PublishEvents(s: Session, pk: Received, maximumQos: nat)
    requires pk.Publish?
    ensures var goes := Admitted(s, pk, maximumQos) && !pk.hook.Ignore?;
            ReceivePublish(s, pk, maximumQos).1
            == (if goes && pk.retain then [Retained(pk.id)] else [])
             + (if goes && (AckDue(s, pk, maximumQos) ==> pk.written) then [FannedOut(pk.id, pk.qos)] else [])
  {
  }

  /** It costs one unit of receive quota while its acknowledgement is owed or PUBREL is awaited, a QoS 2 publish
      leaves a PUBREC behind, and nothing else changes; a publish that ends in an error is not fanned out. */
  lemma PublishState(s: Session, pk: Received, maximumQos: nat)
    requires pk.Publish? && QuotasOk(s)
    ensures var (t, events, error) := ReceivePublish(s, pk, maximumQos);
            var due, qos := AckDue(s, pk, maximumQos), QosLeft(pk, maximumQos);
            && t.receiveQuota == s.receiveQuota - (if due && !(qos == 1 && pk.written) then 1 else 0)
            && (forall id :: id != pk.id ==> (id in t.inbound <==> id in s.inbound) && (id in s.inbound ==> t.inbound[id] == s.inbound[id]))
            && (pk.id in t.inbound <==> (due && qos == 2) || (pk.id in s.inbound && (s.inline || !Entered(s, pk))))
            && (due && qos == 2 ==> t.inbound[pk.id] == Pubrec)
            && t == s.(receiveQuota := t.receiveQuota, inbound := t.inbound)
            && (error ==> FannedOut(pk.id, pk.qos) !in events)
  {
  }

  /** It ends in an error when the quota is used up or the alias unknown, when the connection must end for want of
      authorisation, or when an answer it owes could not be written. */
  lemma PublishErrors(s: Session, pk: Received, maximumQos: nat)
    requires pk.Publish?
    ensures var error := ReceivePublish(s, pk, maximumQos).2;
            if !s.inline && !pk.validTopic then !error
            else if s.receiveQuota == 0 then error
            else if !s.inline && !pk.allowed then error <==> pk.qos > 0 && !(pk.v5 && pk.written)
            else if !Entered(s, pk) then error <==> !pk.written
            else if !pk.knownAlias then error
            else if !Admitted(s, pk, maximumQos) then error <==> pk.hook.Refuse? && !pk.written
            else error <==> AckDue(s, pk, maximumQos) && !pk.written
  {
  }

  // ---------------------------------------------------------------- a delivery to the client

  /** A delivery's quality of service is the least of the packet's, the subscription's and the server's. */
  lemma LeastQos(a: Attempt)
    ensures var q := DeliveryQos(a); q <= a.qos && q <= a.subQos && q <= a.maximumQos && (q == a.qos || q == a.subQos || q == a.maximumQos)
  {
  }

  /** There is room for one more message in flight, and a free id for it. */
  ghost predicate RoomInFlight(s: Session, a: Attempt) {
    |s.outbound| < a.maximumInflight && exists id :: 1 <= id <= MAX_ID && id !in s.outbound
  }

  /** The message is stored and held back: the send quota is used up. */
  predicate HeldBack(s: Session, a: Attempt) {
    DeliveryQos(a) > 0 && s.sendQuota == 0 && s.maximumSendQuota > 0
  }

  lemma ReservesIff(s: Session, a: Attempt)
    ensures Reserves(s, a) <==> !a.echo && a.allowed && DeliveryQos(a) > 0 && RoomInFlight(s, a)
  {
    ExhaustedIffFull(s.outbound.Keys, s.packetId);
  }

  /** A delivery is accepted exactly when the client wants no copy of its own message, or may read the topic and,
      above QoS 0, there is room in flight and the hook has stored it, and the connection and its queue take it or
      it is held back. An accepted packet is queued once, and carries the topic's alias. */
  lemma DeliveredIff(s: Session, a: Attempt)
    ensures var (t, status) := Deliver(s, a);
            && (status.Ok? <==>
                  || a.echo
                  || (&& a.allowed && (DeliveryQos(a) > 0 ==> RoomInFlight(s, a) && a.persist.Ok?)
                      && (HeldBack(s, a) || (!a.offline && a.room))))
            && (status.Ok? ==> if a.echo || HeldBack(s, a) then t.pending == s.pending && t.aliases == s.aliases
                               else t.pending == s.pending + 1 && t.aliases == SetAlias(s.aliases, a.topic).0)
            && (status.Failed? ==> t.pending == s.pending)
  {
    ReservesIff(s, a);
  }

  /** The error says what went wrong first. */
  lemma DeliveryErrors(s: Session, a: Attempt)
    requires Deliver(s, a).1.Failed?
    ensures var e, qos := Deliver(s, a).1.error, DeliveryQos(a);
            if !a.allowed then e == Plain(NotAuthorized)
            else if qos > 0 && !RoomInFlight(s, a) then e == Plain(QuotaExceeded)
            else if qos > 0 && a.persist.Failed? then RootCode(e) == RootCode(a.persist.error)
            else if qos > 0 && a.cleanup.Failed? && (a.offline ==> a.shared) then RootCode(e) == RootCode(a.cleanup.error)
            else e == Plain(if a.offline then Disconnected else PendingWritesExceeded)
  {
    ReservesIff(s, a);
  }

  /** A shared attempt can only leave doubt through an error of the persistence hook. */
  lemma DoubtComesFromHooks(s: Session, a: Attempt, known: bool)
    requires Ambiguous(DeliverShared(s, a, known).1)
    ensures Ambiguous(a.persist) || Ambiguous(a.cleanup)
  {
    var b := a.(shared := true);
    assert known && !a.echo;
    DeliveryErrors(s, b);
    SafeFailureCodes(Deliver(s, b).1.error);
    if a.persist.Failed? { SafeFailureCodes(a.persist.error); }
    if a.cleanup.Failed? { SafeFailureCodes(a.cleanup.error); }
  }

  /** An accepted delivery above QoS 0 stores the message with that quality of service under the first free id,
      held back exactly when the send quota is used up. */
  lemma AcceptedStores(s: Session, a: Attempt)
    requires QuotasOk(s) && s.packetId <= MAX_ID && !a.echo && DeliveryQos(a) > 0 && Deliver(s, a).1.Ok?
    ensures var t, id := Deliver(s, a).0, NewId(s);
            && FirstAfter(s.outbound.Keys, s.packetId, id)
            && t.outbound == s.outbound[id := Message(a.topic, DeliveryQos(a), s.sendQuota == 0 && s.maximumSendQuota > 0)]
            && t.packetId == id && t.sendQuota == (if s.sendQuota > 0 then s.sendQuota - 1 else 0)
            && t.inbound == s.inbound && t.receiveQuota == s.receiveQuota
  {
    FreeOffsetFirst(s.outbound.Keys, s.packetId);
  }

  /** QoS 1: the PUBACK gives back the id and the quota. */
  lemma PubackReturns(s: Session, a: Attempt)
    requires QuotasOk(s) && s.packetId <= MAX_ID && s.sendQuota > 0 && !a.echo && DeliveryQos(a) > 0 && Deliver(s, a).1.Ok?
    ensures var t := Deliver(s, a).0; var u := ReceivePuback(t, NewId(s));
            u.outbound == s.outbound && u.sendQuota == s.sendQuota && u == t.(outbound := u.outbound, sendQuota := u.sendQuota)
  {
    AcceptedStores(s, a);
    FreshId(s, a);
  }

  /** QoS 2: the PUBREC leaves a PUBREL in the message's place and takes a unit of receive quota; the PUBCOMP gives
      back the id and both quotas. */
  lemma PubcompReturns(s: Session, a: Attempt, written: bool)
    requires QuotasOk(s) && s.packetId <= MAX_ID && s.sendQuota > 0 && s.receiveQuota > 0
    requires !a.echo && DeliveryQos(a) > 0 && Deliver(s, a).1.Ok?
    ensures var t, id := Deliver(s, a).0, NewId(s);
            var u := ReceivePubrec(t, id, false, written).0;
            var v := ReceivePubcomp(u, id);
            && id in u.outbound && u.outbound[id] == Pubrel && u.outbound - {id} == s.outbound
            && u.sendQuota == t.sendQuota && u.receiveQuota == s.receiveQuota - 1
            && v.outbound == s.outbound && v.sendQuota == s.sendQuota && v.receiveQuota == s.receiveQuota
            && v == t.(outbound := v.outbound, sendQuota := v.sendQuota)
  {
    AcceptedStores(s, a);
    FreshId(s, a);
  }

  /** One unit more, up to the maximum. */
  predicate OneMore(after: int, before: int, maximum: int) {
    after == (if before < maximum then before + 1 else before)
  }

  /** What an acknowledgement does: it touches the row of its own id only, a PUBACK returns a unit of send quota for a
      known id, and a PUBCOMP or a completed PUBREL a unit of both. */
  lemma AcksTouchOne(s: Session, id: nat, failed: bool, written: bool)
    ensures var t := ReceivePuback(s, id);
            && t == s.(outbound := s.outbound - {id}, sendQuota := t.sendQuota)
            && (if id in s.outbound then OneMore(t.sendQuota, s.sendQuota, s.maximumSendQuota) else t.sendQuota == s.sendQuota)
    ensures var t := ReceivePubcomp(s, id);
            && t == s.(outbound := s.outbound - {id}, sendQuota := t.sendQuota, receiveQuota := t.receiveQuota)
            && OneMore(t.sendQuota, s.sendQuota, s.maximumSendQuota) && OneMore(t.receiveQuota, s.receiveQuota, s.maximumReceiveQuota)
    ensures var (t, error) := ReceivePubrec(s, id, failed, written);
            && t.outbound - {id} == s.outbound - {id} && t == s.(outbound := t.outbound, receiveQuota := t.receiveQuota)
            && (id in t.outbound <==> id in s.outbound && !failed) && (id in t.outbound ==> t.outbound[id] == Pubrel)
            && t.receiveQuota == (if id in t.outbound && s.receiveQuota > 0 then s.receiveQuota - 1 else s.receiveQuota)
            && (error <==> !written && !(id in s.outbound && failed))
    ensures var (t, error) := ReceivePubrel(s, id, failed, written);
            var completes := id in s.inbound && !failed && written;
            && t.outbound == s.outbound && t.inbound - {id} == s.inbound - {id}
            && (id in t.inbound <==> id in s.inbound && !failed && !written) && (id in t.inbound ==> t.inbound[id] == Pubcomp)
            && (if completes then OneMore(t.sendQuota, s.sendQuota, s.maximumSendQuota) && OneMore(t.receiveQuota, s.receiveQuota, s.maximumReceiveQuota)
                else t.sendQuota == s.sendQuota && t.receiveQuota == s.receiveQuota)
            && (error <==> !written && !(id in s.inbound && failed))
  {
  }

  /** The held-message step takes away one message that was held, and only with quota. */
  lemma HeldGoesOut(s: Session, next: nat)
    ensures var t := SendHeld(s, next);
            && (t != s <==> s.sendQuota > 0 && next in s.outbound && s.outbound[next].Message? && s.outbound[next].held)
            && (t != s ==> t.outbound == s.outbound - {next} && t.sendQuota == s.sendQuota - 1)
            && t == s.(outbound := t.outbound, sendQuota := t.sendQuota)
  {
  }
}
