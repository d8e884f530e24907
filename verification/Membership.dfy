/** The failover loop's methods on the node's failure windows, proved against the step functions. */
module Membership {
  import opened NodeOrder
  import opened RedisFailover

  class Membership {
    const self: Node
    const threshold: int
    var missingSince: map<Node, int>
    /** Commands sent and observations made so far. */
    ghost var log: seq<Event>

    ghost function View(): State
      reads this
    {
      State(missingSince, log)
    }

    constructor (self: Node, threshold: int)
      ensures View() == START && this.self == self && this.threshold == threshold
    {
      this.self, this.threshold, missingSince, log := self, threshold, map[], [];
    }

    method EnsureReplicasConfigured(t: Tick, members: seq<Meta>, primary: Node)
      modifies `log
      ensures View() == Note(old(View()), Configure(t, members, primary))
    {
      var addr := "";
      for i := 0 to |members|
        invariant addr == "" && AddrOf(members[i..], primary) == AddrOf(members, primary)
      {
        if members[i].node == primary {
          addr := members[i].addr;
          break;
        }
      }
      assert addr == AddrOf(members, primary);
      if addr == "" || !t.validAddr(addr) {
        assert log == old(log) + [];
        return;
      }
      for k := 0 to |members|
        invariant log + Replicas(t, members, primary, k) == old(log) + Replicas(t, members, primary, 0)
      {
        if members[k].node == primary {
          continue;
        }
        if !t.replicaLeader(k) {
          return;
        }
        log := log + [ReplicaOf(members[k].node, primary)];
      }
    }

    method FailoverRedisPrimary(t: Tick, dead: Node)
      modifies this
      ensures View() == Failover(old(View()), t, dead)
    {
      var order := ByNode(t.members);
      var candidate, found := "", false;
      for k := 0 to |order|
        invariant !found && log == old(log) && Search(t, order, dead, k) == Search(t, order, dead, 0)
      {
        if order[k].node == dead {
          continue;
        }
        if !t.ping(k) {
          continue;
        }
        if !t.stillLeader(k) {
          return;
        }
        log := log + [Promote(order[k].node, t.promote(k))];
        if !t.promote(k) {
          return;
        }
        candidate, found := order[k].node, true;
        break;
      }
      if !found {
        return;
      }
      if !t.commit {
        return;
      }
      log := log + [Designate(Some(dead), candidate, t.now)];
      missingSince := missingSince - {dead};
      EnsureReplicasConfigured(t, order, candidate);
    }

    method BootstrapRedisPrimary(t: Tick, voters: nat)
      modifies `log
      ensures View() == Bootstrap(old(View()), t, self, voters)
    {
      if |t.members| == 0 {
        return;
      }
      var candidate := t.members[0].node;
      for i := 0 to |t.members|
        invariant candidate == t.members[0].node
        invariant forall j :: 0 <= j < i ==> t.members[j].node != self
      {
        if t.members[i].node == self {
          candidate := t.members[i].node;
          break;
        }
      }
      assert candidate == BootChoice(t.members, self);
      if !t.commit {
        return;
      }
      log := log + [Designate(None, candidate, t.now)];
      if voters > 1 {
        EnsureReplicasConfigured(t, t.members, candidate);
        return;
      }
      log := log + [Promote(candidate, t.soleAck)];
    }

    /** Is the primary visible, and does its Redis answer? */
    method Probe(t: Tick, primary: Node) returns (healthy: bool)
      ensures healthy <==> Visible(t.members, primary) && t.pingPrimary
    {
      healthy := false;
      for i := 0 to |t.members|
        invariant !healthy && forall j :: 0 <= j < i ==> t.members[j].node != primary
      {
        if t.members[i].node == primary {
          healthy := t.pingPrimary;
          assert t.members[i] in t.members;
          break;
        }
      }
    }

    method ReconcileRedisPrimary(t: Tick)
      modifies this
      ensures View() == Reconcile(old(View()), t, self, threshold)
    {
      if !t.leader {
        missingSince := map[];
        log := log + [NotLeader];
        return;
      }
      if t.voters == None {
        return;
      }
      if t.current == None {
        BootstrapRedisPrimary(t, t.voters.value);
        return;
      }
      if t.voters.value <= 1 {
        return;
      }
      var primary := t.current.value;
      var healthy := Probe(t, primary);
      if !t.leaderAfterPing {
        return;
      }
      if healthy {
        missingSince := missingSince - {primary};
        log := log + [Healthy(primary)];
        EnsureReplicasConfigured(t, t.members, primary);
        return;
      }
      if primary !in missingSince {
        missingSince := missingSince[primary := t.now];
        log := log + [WindowOpened(primary, t.now)];
        return;
      }
      if t.now - missingSince[primary] <= threshold {
        return;
      }
      FailoverRedisPrimary(t, primary);
    }
  }
}
