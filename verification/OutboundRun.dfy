/**
 The outbound queue in use: any number of publishers, the write loop as its one consumer,
 and Stop, interleaved at every lock, channel and counter operation.
 */
module OutboundRun {
  import opened PacketQueue

  /** A publisher that has counted its packet and not yet handed it over. */
  datatype Producer = Counted(pk: Packet) | Offering(pk: Packet) | Refused(pk: Packet)

  /** The write loop: the top of pop, before the lock, asleep, writing, and its deferred close. */
  datatype Consumer = Check | Locking | Waiting | InHand(pk: Packet) | Written | Leaving | Owing(n: nat) | Gone

  datatype Stopper = Running | Cancelled | Owes(n: nat) | Settled

  /** `direct` is the unbuffered mode; the logs record packets accepted, taken by the consumer, and
      discarded by a close. */
  datatype System = System(
    q: Fifo, direct: bool, done: bool, producers: map<nat, Producer>, consumer: Consumer, stopper: Stopper,
    qty: int, accepted: seq<Packet>, taken: seq<Packet>, discarded: seq<Packet>)

  datatype ProducerMove = Count(pk: Packet) | TryPush | Hand | GiveUp | Uncount
  datatype ConsumerMove = SeeDone | Enter | Lock | Wake | Write | Settle | LeaveClose | LeavePay
  datatype StopMove = Cancel | StopClose | StopPay
  datatype Action = Publish(k: nat, producer: ProducerMove) | Consume(consumer: ConsumerMove) | Stop(stop: StopMove)

  function Initial(limit: nat): System {
    System(Fifo([], limit, false, false), limit == 0, false, map[], Check, Running, 0, [], [], [])
  }

  // ---------------------------------------------------------------- steps

  function ProducerStep(s: System, k: nat, move: ProducerMove): System {
    if move.Count? then
      if k in s.producers then s else s.(producers := s.producers[k := Counted(move.pk)], qty := s.qty + 1)
    else if k !in s.producers then s
    else
      var p := s.producers[k];
      match move
      case TryPush =>
        if !p.Counted? then s
        else if s.direct && !s.q.closed then s.(producers := s.producers[k := Offering(p.pk)])
        else if Refuses(s.q) then s.(producers := s.producers[k := Refused(p.pk)])
        else s.(q := Push(s.q, p.pk), producers := s.producers - {k}, accepted := s.accepted + [p.pk])
      case Hand =>
        if !(p.Offering? && s.consumer == Waiting) then s
        else s.(producers := s.producers - {k}, consumer := InHand(p.pk),
                accepted := s.accepted + [p.pk], taken := s.taken + [p.pk])
      case GiveUp => if p.Offering? then s.(producers := s.producers[k := Refused(p.pk)]) else s
      case Uncount => if p.Refused? then s.(producers := s.producers - {k}, qty := s.qty - 1) else s
  }

  /** Pop's locked pass. */
  function LockStep(s: System): System {
    var (r, q) := Pop(s.q);
    match r
    case Stopped => s.(consumer := Leaving)
    case Item(pk) => s.(q := q, consumer := InHand(pk), taken := s.taken + [pk])
    case Empty => s.(consumer := Waiting)
  }

  function WakeStep(s: System): System {
    if s.direct then s.(consumer := Leaving)
    else s.(consumer := Check, q := if s.q.closed then s.q else s.q.(token := false))
  }

  function ConsumerStep(s: System, move: ConsumerMove): System {
    match move
    case SeeDone => if s.done && (s.consumer == Check || s.consumer == Waiting) then s.(consumer := Leaving) else s
    case Enter => if s.consumer == Check then s.(consumer := if s.direct then Waiting else Locking) else s
    case Lock => if s.consumer == Locking then LockStep(s) else s
    case Wake => if s.consumer == Waiting && (s.q.closed || s.q.token) then WakeStep(s) else s
    case Write => if s.consumer.InHand? then s.(consumer := Written) else s
    case Settle => if s.consumer == Written then s.(consumer := Check, qty := s.qty - 1) else s
    case LeaveClose =>
      if s.consumer == Leaving
      then s.(q := Shut(s.q), discarded := s.discarded + s.q.items, consumer := Owing(|s.q.items|)) else s
    case LeavePay => if s.consumer.Owing? then s.(consumer := Gone, qty := s.qty - s.consumer.n) else s
  }

  function StopStep(s: System, move: StopMove): System {
    match move
    case Cancel => if s.stopper == Running then s.(stopper := Cancelled, done := true) else s
    case StopClose =>
      if s.stopper == Cancelled
      then s.(q := Shut(s.q), discarded := s.discarded + s.q.items, stopper := Owes(|s.q.items|)) else s
    case StopPay => if s.stopper.Owes? then s.(stopper := Settled, qty := s.qty - s.stopper.n) else s
  }

  /** One step; a move that is not enabled changes nothing. */
  function Step(s: System, a: Action): System {
    match a
    case Publish(k, move) => ProducerStep(s, k, move)
    case Consume(move) => ConsumerStep(s, move)
    case Stop(move) => StopStep(s, move)
  }

  function Run(s: System, actions: seq<Action>): System
    decreases |actions|
  {
    if actions == [] then s else Run(Step(s, actions[0]), actions[1..])
  }

  // ---------------------------------------------------------------- invariants

  function OnHand(c: Consumer): nat {
    if c.InHand? || c == Written then 1 else 0
  }

  /** Packets dropped by a close and not yet subtracted from the counter. */
  function Debts(s: System): nat {
    (if s.consumer.Owing? then s.consumer.n else 0) + (if s.stopper.Owes? then s.stopper.n else 0)
  }

  /** The pending-write counter is what is queued, being written, being published, or owed. */
  predicate Conserved(s: System) {
    s.qty == |s.q.items| + OnHand(s.consumer) + |s.producers| + Debts(s)
  }

  /** Packets leave in the order they were accepted; only a close drops any. */
  predicate Ordered(s: System) {
    && s.accepted == s.taken + s.discarded + s.q.items
    && (s.q.closed ==> s.q.items == [])
    && (s.discarded != [] ==> s.q.closed)
    && (s.direct ==> s.q.items == [] && s.discarded == [])
  }

  predicate Bounded(s: System) {
    && |s.q.items| <= s.q.limit
    && (s.direct ==> s.q.limit == 0 && !s.q.token)
    && (!s.direct ==> forall k :: k in s.producers ==> !s.producers[k].Offering?)
  }

  /** A sleeping consumer of a non-empty queue has a token waiting. */
  predicate Awake(s: System) {
    s.consumer == Waiting && s.q.items != [] ==> s.q.token
  }

  /** Leaving is final, and whoever has closed the queue left it closed. */
  predicate Shutting(s: System) {
    && (s.consumer == Leaving ==> s.done || s.q.closed)
    && (s.consumer.Owing? || s.consumer == Gone ==> s.q.closed)
    && (s.stopper.Owes? || s.stopper == Settled ==> s.q.closed)
    && (s.done <==> s.stopper != Running)
  }

  predicate Inv(s: System) {
    Conserved(s) && Ordered(s) && Bounded(s) && Awake(s) && Shutting(s)
  }

  lemma InitialInv(limit: nat)
    ensures Inv(Initial(limit))
  {
  }

  lemma MapSizes<V>(m: map<nat, V>, k: nat, v: V)
    ensures k in m ==> |m - {k}| == |m| - 1 && |m[k := v]| == |m|
    ensures k !in m ==> |m[k := v]| == |m| + 1
  {
    if k in m {
      assert m.Keys == (m - {k}).Keys + {k};
      assert m[k := v].Keys == m.Keys;
    } else {
      assert m[k := v].Keys == m.Keys + {k};
    }
  }

  lemma ProducerConserves(s: System, k: nat, move: ProducerMove)
    requires Conserved(s) && (s.direct ==> s.q.items == [])
    ensures Conserved(ProducerStep(s, k, move))
  {
    if move.Count? {
      MapSizes(s.producers, k, Counted(move.pk));
    } else if k in s.producers {
      MapSizes(s.producers, k, Offering(s.producers[k].pk));
      MapSizes(s.producers, k, Refused(s.producers[k].pk));
    }
  }

  lemma ProducerOrders(s: System, k: nat, move: ProducerMove)
    requires Ordered(s) && Bounded(s)
    ensures Ordered(ProducerStep(s, k, move))
  {
    var t := ProducerStep(s, k, move);
    if t.q != s.q {
      assert t.accepted == s.taken + s.discarded + (s.q.items + [s.producers[k].pk]);
    } else if t.taken != s.taken {
      assert s.direct && s.accepted == s.taken;
    }
  }

  lemma ProducerRest(s: System, k: nat, move: ProducerMove)
    requires Bounded(s) && Awake(s) && Shutting(s)
    ensures var t := ProducerStep(s, k, move); Bounded(t) && Awake(t) && Shutting(t)
  {
  }

  lemma LockInv(s: System)
    requires Inv(s) && s.consumer == Locking
    ensures Inv(LockStep(s))
  {
    var t := LockStep(s);
    if t.taken != s.taken {
      assert s.q.items == [s.q.items[0]] + s.q.items[1..];
      assert s.taken + s.q.items == t.taken + t.q.items;
      assert s.discarded == [] && t.taken + t.discarded == t.taken && s.taken + s.discarded == s.taken;
    }
  }

  lemma ConsumerInv(s: System, move: ConsumerMove)
    requires Inv(s)
    ensures Inv(ConsumerStep(s, move))
  {
    match move
    case Lock => if s.consumer == Locking { LockInv(s); }
    case LeaveClose => assert s.taken + s.discarded + s.q.items == s.taken + (s.discarded + s.q.items);
    case _ =>
  }

  lemma StopInv(s: System, move: StopMove)
    requires Inv(s)
    ensures Inv(StopStep(s, move))
  {
    assert s.taken + s.discarded + s.q.items == s.taken + (s.discarded + s.q.items);
  }

  lemma StepInv(s: System, a: Action)
    requires Inv(s)
    ensures Inv(Step(s, a))
  {
    match a
    case Publish(k, move) =>
      ProducerConserves(s, k, move);
      ProducerOrders(s, k, move);
      ProducerRest(s, k, move);
    case Consume(move) => ConsumerInv(s, move);
    case Stop(move) => StopInv(s, move);
  }

  lemma {:induction false} RunInv(s: System, actions: seq<Action>)
    requires Inv(s)
    ensures Inv(Run(s, actions))
    decreases |actions|
  {
    if actions != [] {
      StepInv(s, actions[0]);
      RunInv(Step(s, actions[0]), actions[1..]);
    }
  }

  // ---------------------------------------------------------------- what every run keeps

  /** In every interleaving the queue is a bounded first-in first-out queue: what the consumer has
      taken is a prefix of what was accepted, the rest is still queued unless a close dropped it, and
      capacity is never exceeded. */
  lemma FifoInEveryRun(limit: nat, actions: seq<Action>)
    ensures var s := Run(Initial(limit), actions);
            && s.taken <= s.accepted
            && (!s.q.closed ==> s.accepted == s.taken + s.q.items)
            && s.accepted == s.taken + s.discarded + s.q.items
            && |s.q.items| <= s.q.limit
  {
    InitialInv(limit);
    RunInv(Initial(limit), actions);
    var s := Run(Initial(limit), actions);
    assert s.accepted == s.taken + (s.discarded + s.q.items);
  }

  /** In every interleaving the pending-write counter equals queued plus in-hand plus mid-publish
      packets, plus those a close has just dropped and is about to subtract. */
  lemma PendingCount(limit: nat, actions: seq<Action>)
    ensures var s := Run(Initial(limit), actions);
            && s.qty == |s.q.items| + OnHand(s.consumer) + |s.producers| + Debts(s)
            && (s.consumer == Gone && s.producers == map[] && !s.stopper.Owes? ==> s.qty == 0)
  {
    InitialInv(limit);
    RunInv(Initial(limit), actions);
  }

  ghost predicate ConsumerCanMove(s: System) {
    exists move :: ConsumerStep(s, move).consumer != s.consumer
  }

  /** A sleeping consumer never misses a push: it is stuck only after leaving, or asleep on an open,
      empty queue that nobody has asked to stop. */
  lemma NoMissedWakeup(limit: nat, actions: seq<Action>)
    ensures var s := Run(Initial(limit), actions);
            ConsumerCanMove(s) <==>
            !(s.consumer == Gone || (s.consumer == Waiting && s.q.items == [] && !s.q.token && !s.q.closed && !s.done))
  {
    InitialInv(limit);
    RunInv(Initial(limit), actions);
    Moves(Run(Initial(limit), actions));
  }

  lemma Moves(s: System)
    requires Awake(s) && Bounded(s)
    ensures ConsumerCanMove(s) <==>
            !(s.consumer == Gone || (s.consumer == Waiting && s.q.items == [] && !s.q.token && !s.q.closed && !s.done))
  {
    var move := match s.consumer
      case Check => Enter
      case Locking => Lock
      case Waiting => if s.done then SeeDone else Wake
      case InHand(_) => Write
      case Written => Settle
      case Leaving => LeaveClose
      case Owing(_) => LeavePay
      case Gone => Enter;
    var after := ConsumerStep(s, move).consumer;
  }

  /** In every interleaving a publisher's push on a buffered queue is accepted exactly while the queue is open and has
      room, and is refused otherwise. */
  lemma AcceptedWhileRoom(limit: nat, actions: seq<Action>, k: nat)
    requires limit > 0 && var s := Run(Initial(limit), actions); k in s.producers && s.producers[k].Counted?
    ensures var s := Run(Initial(limit), actions);
            var t, pk := Step(s, Publish(k, TryPush)), s.producers[k].pk;
            if !s.q.closed && |s.q.items| < limit
            then t.accepted == s.accepted + [pk] && t.q.items == s.q.items + [pk] && k !in t.producers
            else t.accepted == s.accepted && t.q == s.q && k in t.producers && t.producers[k] == Refused(pk)
  {
    InitialInv(limit);
    RunInv(Initial(limit), actions);
    RunLimit(Initial(limit), actions);
  }

  lemma {:induction false} RunLimit(s: System, actions: seq<Action>)
    ensures Run(s, actions).q.limit == s.q.limit && Run(s, actions).direct == s.direct
    decreases |actions|
  {
    if actions != [] { RunLimit(Step(s, actions[0]), actions[1..]); }
  }

  /** An unbuffered queue hands a packet over exactly when the consumer sleeps in pop. */
  lemma HandedOver(s: System, k: nat)
    requires k in s.producers && s.producers[k].Offering?
    ensures var t := Step(s, Publish(k, Hand));
            if s.consumer == Waiting
            then t.consumer == InHand(s.producers[k].pk) && t.taken == s.taken + [s.producers[k].pk] && k !in t.producers
            else t == s
  {
  }
}
