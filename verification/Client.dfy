/** The client's methods, updating its fields in place, proved against the session functions. */
module Client {
  import opened DeliveryStatus
  import opened PacketIds
  import opened TopicAliases
  import opened ClientSession

  class Client {
    const inline: bool
    var outbound: map<nat, Outgoing>
    var inbound: map<nat, Incoming>
    var sendQuota: int
    var maximumSendQuota: int
    var receiveQuota: int
    var maximumReceiveQuota: int
    var packetId: nat
    /** The pending-write counter, outboundQty. */
    var pending: int
    const aliases: OutboundTopicAliases

    ghost predicate Valid()
      reads this
    {
      packetId <= MAX_ID
    }

    function View(): Session
      reads this, aliases
    {
      Session(inline, outbound, inbound, sendQuota, maximumSendQuota, receiveQuota, maximumReceiveQuota, packetId, pending, aliases.View())
    }

    constructor (inline: bool, sendMaximum: nat, receiveMaximum: nat, aliasMaximum: nat)
      ensures Valid() && fresh(aliases) && View() == Fresh(inline, sendMaximum, receiveMaximum, aliasMaximum)
    {
      this.inline := inline;
      outbound, inbound, packetId, pending := map[], map[], 0, 0;
      sendQuota, maximumSendQuota := sendMaximum, sendMaximum;
      receiveQuota, maximumReceiveQuota := receiveMaximum, receiveMaximum;
      aliases := new OutboundTopicAliases(aliasMaximum);
    }

    // -------------------------------------------------------------- quotas and maps

    method DecreaseSendQuota()
      modifies `sendQuota
      ensures sendQuota == Lower(old(sendQuota))
    {
      if sendQuota > 0 { sendQuota := sendQuota - 1; }
    }

    method IncreaseSendQuota()
      modifies `sendQuota
      ensures sendQuota == Raise(old(sendQuota), maximumSendQuota)
    {
      if sendQuota < maximumSendQuota { sendQuota := sendQuota + 1; }
    }

    method DecreaseReceiveQuota()
      modifies `receiveQuota
      ensures receiveQuota == Lower(old(receiveQuota))
    {
      if receiveQuota > 0 { receiveQuota := receiveQuota - 1; }
    }

    method IncreaseReceiveQuota()
      modifies `receiveQuota
      ensures receiveQuota == Raise(old(receiveQuota), maximumReceiveQuota)
    {
      if receiveQuota < maximumReceiveQuota { receiveQuota := receiveQuota + 1; }
    }

    method DeleteOutbound(id: nat) returns (existed: bool)
      modifies `outbound
      ensures existed <==> id in old(outbound)
      ensures outbound == old(outbound) - {id}
    {
      existed := id in outbound;
      outbound := outbound - {id};
    }

    // -------------------------------------------------------------- delivering

    method Rollback(id: nat, cleanup: Status, code: Code) returns (status: Status)
      modifies `outbound, `sendQuota
      ensures (View(), status) == Undo(old(View()), id, cleanup, code)
    {
      var existed := DeleteOutbound(id);
      if existed {
        IncreaseSendQuota();
        if cleanup.Failed? {
          return Failed(Wrapped("qos persistence cleanup failed", cleanup.error));
        }
      } else {
        assert outbound == old(outbound);
      }
      return Failed(Plain(code));
    }

    method Enqueue(a: Attempt, id: nat) returns (status: Status)
      modifies this, aliases
      ensures (View(), status) == HandOver(old(View()), a, id) && packetId == old(packetId)
    {
      if a.offline {
        if a.shared && id > 0 {
          status := Rollback(id, a.cleanup, Disconnected);
          return;
        }
        return Failed(Plain(Disconnected));
      }
      var alias, _ := aliases.Set(a.topic);
      pending := pending + 1;
      if a.room {
        return Ok;
      }
      pending := pending - 1;
      if alias > 0 {
        aliases.Delete(a.topic, alias);
      }
      if id > 0 {
        status := Rollback(id, a.cleanup, PendingWritesExceeded);
        return;
      }
      return Failed(Plain(PendingWritesExceeded));
    }

    /** Client.NextPacketID: 0 when no id is free. */
    method NextId() returns (id: nat)
      requires Valid()
      modifies `packetId
      ensures Valid()
      ensures id == 0 ==> packetId == old(packetId) && FreeOffset(outbound.Keys, old(packetId), 0) == MAX_ID
      ensures id > 0 ==> FreeOffset(outbound.Keys, old(packetId), 0) < MAX_ID && packetId == id == ClientSession.NewId(old(View()))
    {
      id := NextPacketId(outbound.Keys, packetId);
      if id > 0 { packetId := id; }
    }

    method PublishToClientMode(a: Attempt) returns (status: Status)
      requires Valid()
      modifies this, aliases
      ensures Valid() && (View(), status) == Deliver(old(View()), a)
    {
      if a.echo {
        return Ok;
      }
      if !a.allowed {
        return Failed(Plain(NotAuthorized));
      }
      var qos := a.qos;
      if qos > a.subQos { qos := a.subQos; }
      if qos > a.maximumQos { qos := a.maximumQos; }
      var id := 0;
      if qos > 0 {
        if |outbound| >= a.maximumInflight {
          return Failed(Plain(QuotaExceeded));
        }
        id := NextId();
        if id == 0 {
          return Failed(Plain(QuotaExceeded));
        }
        outbound := outbound[id := Message(a.topic, qos, false)];
        status := SendStored(a, id, qos);
        return;
      }
      status := Enqueue(a, id);
    }

    /** The part after the message is stored. */
    method SendStored(a: Attempt, id: nat, qos: nat) returns (status: Status)
      requires qos == DeliveryQos(a)
      modifies this, aliases
      ensures (View(), status) == ClientSession.SendStored(old(View()), a, id) && packetId == old(packetId)
    {
      var sentQuota := sendQuota;
      if a.persist.Failed? {
        var existed := DeleteOutbound(id);
        IncreaseSendQuota();
        return Failed(Wrapped("qos persistence failed", a.persist.error));
      }
      DecreaseSendQuota();
      if sentQuota == 0 && maximumSendQuota > 0 {
        outbound := outbound[id := Message(a.topic, qos, true)];
        return Ok;
      }
      status := Enqueue(a, id);
    }

    method PublishSharedToClient(a: Attempt, known: bool) returns (status: Status)
      requires Valid()
      modifies this, aliases
      ensures Valid() && (View(), status) == DeliverShared(old(View()), a, known)
    {
      if !known || a.echo {
        return Failed(Plain(Disconnected));
      }
      status := PublishToClientMode(a.(shared := true));
    }

    // -------------------------------------------------------------- packets from the client

    /** processPublish: the events logged, and whether it ended in an error. */
    method ProcessPublish(pk: Received, maximumQos: nat) returns (events: seq<Event>, error: bool)
      requires pk.Publish?
      modifies this
      ensures (View(), events, error) == ReceivePublish(old(View()), pk, maximumQos) && packetId == old(packetId)
    {
      if !inline && !pk.validTopic {
        return [], false;
      }
      if receiveQuota == 0 {
        return [], true;
      }
      if !inline && !pk.allowed {
        return [], pk.qos > 0 && (!pk.v5 || !pk.written);
      }
      if !inline {
        if pk.id in inbound && inbound[pk.id] == Pubrec {
          return [], !pk.written;
        }
        inbound := inbound - {pk.id};
      }
      if !pk.knownAlias {
        return [], true;
      }
      var qos := pk.qos;
      if qos > maximumQos { qos := maximumQos; }
      if pk.hook.Pass? {
        qos := pk.hook.qos;
      } else if pk.hook.Reject? {
        return [], false;
      } else if pk.hook.Refuse? && pk.v5 && qos > 0 {
        return [], !pk.written;
      }
      events, error := AcknowledgePublish(pk, qos);
    }

    method AcknowledgePublish(pk: Received, qos: nat) returns (events: seq<Event>, error: bool)
      requires pk.Publish?
      modifies `receiveQuota, `inbound
      ensures (View(), events, error) == Acknowledge(old(View()), pk, qos)
    {
      events := Retains(pk);
      if qos == 0 || inline {
        return events + FansOut(pk), false;
      }
      DecreaseReceiveQuota();
      if qos == 2 {
        inbound := inbound[pk.id := Pubrec];
      }
      if !pk.written {
        return events, true;
      }
      if qos == 1 {
        IncreaseReceiveQuota();
      }
      return events + FansOut(pk), false;
    }

    method ProcessPuback(id: nat)
      modifies `outbound, `sendQuota
      ensures View() == ReceivePuback(old(View()), id)
    {
      if id !in outbound {
        return;
      }
      var existed := DeleteOutbound(id);
      if existed {
        IncreaseSendQuota();
      }
    }

    method ProcessPubrec(id: nat, failed: bool, written: bool) returns (error: bool)
      modifies `outbound, `receiveQuota
      ensures (View(), error) == ReceivePubrec(old(View()), id, failed, written)
    {
      if id !in outbound {
        return !written;
      }
      if failed {
        var existed := DeleteOutbound(id);
        return false;
      }
      DecreaseReceiveQuota();
      outbound := outbound[id := Pubrel];
      return !written;
    }

    method ProcessPubrel(id: nat, failed: bool, written: bool) returns (error: bool)
      modifies `inbound, `receiveQuota, `sendQuota
      ensures (View(), error) == ReceivePubrel(old(View()), id, failed, written)
    {
      if id !in inbound {
        return !written;
      }
      if failed {
        inbound := inbound - {id};
        return false;
      }
      inbound := inbound[id := Pubcomp];
      if !written {
        return true;
      }
      IncreaseReceiveQuota();
      IncreaseSendQuota();
      inbound := inbound - {id};
      assert inbound == old(inbound) - {id};
      return false;
    }

    method ProcessPubcomp(id: nat)
      modifies `outbound, `receiveQuota, `sendQuota
      ensures View() == ReceivePubcomp(old(View()), id)
    {
      IncreaseReceiveQuota();
      IncreaseSendQuota();
      var existed := DeleteOutbound(id);
    }

    /** A held message goes out once quota is free; `next` is the oldest. */
    method SendNextHeld(next: nat)
      modifies `outbound, `sendQuota
      ensures View() == SendHeld(old(View()), next)
    {
      if |outbound| > 0 && sendQuota > 0 && next in outbound && outbound[next].Message? && outbound[next].held {
        var existed := DeleteOutbound(next);
        DecreaseSendQuota();
      }
    }
  }
}
