/**
 What the session handlers keep: quotas stay in bounds, a failure that lets a shared
 delivery fall back to another member leaves no trace, and a QoS 2 message is fanned out
 once per PUBREL.
 */
module ClientSessionTheorems {
  import opened DeliveryStatus
  import opened PacketIds
  import opened TopicAliases
  import opened ClientSession

  // ---------------------------------------------------------------- quotas

  predicate QuotasOk(s: Session) {
    0 <= s.sendQuota <= s.maximumSendQuota && 0 <= s.receiveQuota <= s.maximumReceiveQuota
  }

  lemma HandOverQuotas(s: Session, a: Attempt, id: nat)
    requires QuotasOk(s)
    ensures QuotasOk(HandOver(s, a, id).0)
  {
  }

  lemma DeliverQuotas(s: Session, a: Attempt)
    requires QuotasOk(s)
    ensures QuotasOk(Deliver(s, a).0)
  {
    HandOverQuotas(s, a, 0);
    HandOverQuotas(Reserved(s, a).(sendQuota := Lower(s.sendQuota)), a, NewId(s));
  }

  lemma HandleQuotas(s: Session, pk: Received, maximumQos: nat)
    requires QuotasOk(s)
    ensures QuotasOk(Handle(s, pk, maximumQos).0)
  {
  }

  /** Over every run both quotas stay between 0 and their maximum. */
  lemma {:induction false} QuotasInEveryRun(s: Session, inputs: seq<Input>, maximumQos: nat)
    requires QuotasOk(s)
    ensures QuotasOk(Run(s, inputs, maximumQos).0)
    decreases |inputs|
  {
    if inputs != [] {
      if inputs[0].ToClient? {
        DeliverQuotas(s, inputs[0].attempt);
      } else {
        HandleQuotas(s, inputs[0].pk, maximumQos);
      }
      QuotasInEveryRun(Step(s, inputs[0], maximumQos).0, inputs[1..], maximumQos);
    }
  }

  // ---------------------------------------------------------------- rollback of a shared attempt

  /** The persistence hook is asked, and fails. */
  predicate PersistenceFails(s: Session, a: Attempt) {
    Reserves(s, a) && a.persist.Failed?
  }

  /** The allocated id is free, so storing under it and deleting it again changes nothing. */
  lemma FreshId(s: Session, a: Attempt)
    requires Reserves(s, a)
    ensures NewId(s) !in s.outbound && 1 <= NewId(s) <= MAX_ID
    ensures Reserved(s, a).outbound - {NewId(s)} == s.outbound
  {
  }

  lemma UndoRestores(s: Session, t: Session, id: nat, cleanup: Status, code: Code)
    requires QuotasOk(s) && id in t.outbound && t.outbound - {id} == s.outbound
    requires t.sendQuota == Lower(s.sendQuota) && t.maximumSendQuota == s.maximumSendQuota
    requires s.sendQuota == 0 ==> s.maximumSendQuota == 0
    ensures var u := Undo(t, id, cleanup, code).0; u.outbound == s.outbound && u.sendQuota == s.sendQuota && u.pending == t.pending
  {
  }

  /** A shared attempt that fails with a fallback-eligible error leaves the outbound map and the
      pending-write count as they were; it leaves the send quota as it was exactly when the error is
      not one the persistence hook returned with quota below its maximum. */
  lemma SafeFailureRollsBack(s: Session, a: Attempt, known: bool)
    requires QuotasOk(s) && Safe(DeliverShared(s, a, known).1)
    ensures var t := DeliverShared(s, a, known).0;
            && t.outbound == s.outbound && t.inbound == s.inbound && t.pending == s.pending
            && (t.sendQuota == s.sendQuota <==> !(known && PersistenceFails(s, a) && s.sendQuota < s.maximumSendQuota))
  {
    if known && !a.echo {
      DeliverRollsBack(s, a.(shared := true));
      assert DeliveryQos(a.(shared := true)) == DeliveryQos(a);
    }
  }

  lemma DeliverRollsBack(s: Session, a: Attempt)
    requires QuotasOk(s) && a.shared && Safe(Deliver(s, a).1)
    ensures var t := Deliver(s, a).0;
            && t.outbound == s.outbound && t.inbound == s.inbound && t.pending == s.pending
            && (t.sendQuota == s.sendQuota <==> !(PersistenceFails(s, a) && s.sendQuota < s.maximumSendQuota))
  {
    if Reserves(s, a) {
      FreshId(s, a);
      var id, stored := NewId(s), Reserved(s, a);
      if !a.persist.Failed? {
        var counted := stored.(sendQuota := Lower(s.sendQuota));
        if !(s.sendQuota == 0 && s.maximumSendQuota > 0) {
          var (aliases, alias, _) := SetAlias(s.aliases, a.topic);
          var back := counted.(aliases := if alias > 0 then DeleteAlias(aliases, a.topic, alias) else aliases);
          UndoRestores(s, counted, id, a.cleanup, Disconnected);
          UndoRestores(s, back, id, a.cleanup, PendingWritesExceeded);
        }
      }
    }
  }

  /** The failed attempt got as far as a refused enqueue, which reserves an alias and takes it back. */
  predicate EnqueueRefused(s: Session, a: Attempt, known: bool) {
    && known && !a.echo && a.allowed && !a.offline
    && (DeliveryQos(a) == 0 || Reserves(s, a))
  }

  /** The alias table after reserving for a topic and taking the number back. */
  function AliasTakenBack(aliases: Outbound, topic: string): Outbound {
    var (reserved, alias, _) := SetAlias(aliases, topic);
    if alias > 0 then DeleteAlias(reserved, topic, alias) else reserved
  }

  /** When the persistence hook returns no fallback-eligible code, a safe failure leaves exactly this behind:
      the id cursor has moved to the id that was tried, and a refused enqueue has cost the topic its alias. */
  lemma SafeFailureLeaves(s: Session, a: Attempt, known: bool)
    requires QuotasOk(s) && Safe(DeliverShared(s, a, known).1) && !Safe(a.persist)
    ensures DeliverShared(s, a, known).0 ==
            s.(packetId := if known && Reserves(s, a) then NewId(s) else s.packetId,
               aliases := if EnqueueRefused(s, a, known) then AliasTakenBack(s.aliases, a.topic) else s.aliases)
  {
    SafeFailureRollsBack(s, a, known);
    if known && !a.echo { assert DeliveryQos(a.(shared := true)) == DeliveryQos(a); }
  }

  /** Taking the number back forgets the topic's alias, and the number is not issued again. */
  lemma AliasTakenBackMeans(aliases: Outbound, topic: string)
    requires forall t :: t in aliases.table ==> aliases.table[t] > 0
    ensures var after := AliasTakenBack(aliases, topic);
            && after.table == (if aliases.maximum > 0 then aliases.table - {topic} else aliases.table)
            && aliases.cursor <= after.cursor <= aliases.cursor + 1
  {
    var after := AliasTakenBack(aliases, topic);
    if aliases.maximum > 0 && topic !in aliases.table {
      assert aliases.table - {topic} == aliases.table;
      assert aliases.table[topic := aliases.cursor + 1] - {topic} == aliases.table;
    }
  }

  /** An attempt that reaches the persistence hook. */
  predicate AsksHook(a: Attempt) {
    !a.echo && a.allowed && DeliveryQos(a) > 0
  }

  /** A hook error that wraps a fallback-eligible code raises the quota. On a session allowing one message in
      flight: one message is accepted and uses the quota up; the next, a shared attempt, fails in the hook and
      gives the quota back although the first message is still unacknowledged. */
  lemma PersistenceErrorRaisesQuota(first: Attempt, second: Attempt, receiveMaximum: nat, maximumQos: nat)
    requires AsksHook(first) && first.maximumInflight > 0 && first.persist.Ok? && !first.offline && first.room
    requires AsksHook(second) && second.maximumInflight > 1 && Safe(second.persist)
    ensures var s := Run(Fresh(false, 1, receiveMaximum, 0), [ToClient(first)], maximumQos).0;
            var t := DeliverShared(s, second, true);
            && s.outbound != map[] && s.sendQuota == 0
            && Safe(t.1) && t.0.outbound == s.outbound && t.0.sendQuota == 1
  {
    var start := Fresh(false, 1, receiveMaximum, 0);
    assert IdAt(0, 0) == 1 && 1 !in start.outbound.Keys && NewId(start) == 1;
    var s := Deliver(start, first).0;
    assert s.outbound.Keys == {1} && s.sendQuota == 0 && s.packetId == 1;
    RunOne(start, ToClient(first), maximumQos);
    assert IdAt(1, 0) == 2 && 2 !in s.outbound.Keys;
    assert Reserves(s, second.(shared := true));
    FreshId(s, second.(shared := true));
  }

  lemma RunOne(s: Session, a: Input, maximumQos: nat)
    ensures Run(s, [a], maximumQos) == Step(s, a, maximumQos)
  {
    var (s1, e1) := Step(s, a, maximumQos);
    assert [a][1..] == [] && e1 + [] == e1;
    assert Run(s1, [], maximumQos) == (s1, []);
  }

  /** An accepted delivery adds at most one row, under an id that was free, and changes no other. */
  lemma AcceptedAddsOneRow(s: Session, a: Attempt)
    requires Deliver(s, a).1 == Ok
    ensures var t := Deliver(s, a).0;
            || t.outbound == s.outbound
            || (NewId(s) !in s.outbound && NewId(s) in t.outbound && t.outbound - {NewId(s)} == s.outbound)
  {
    if Reserves(s, a) { FreshId(s, a); }
  }

  // ---------------------------------------------------------------- one fan-out per PUBREL

  /** Reads a log: no second fan-out of a QoS 2 publish with this id before a PUBREL for it. */
  predicate Alternates(log: seq<Event>, id: nat, open: bool) {
    if log == [] then true
    else if log[0] == FannedOut(id, 2) then !open && Alternates(log[1..], id, true)
    else if log[0] == Released(id) then Alternates(log[1..], id, false)
    else Alternates(log[1..], id, open)
  }

  /** The quality of service left of a QoS 2 publish after the server's maximum and the hook. */
  function LeftOfTwo(hook: Hook, maximumQos: nat): nat {
    HookQos(Min(2, maximumQos), hook)
  }

  /** A QoS 2 publish that is fanned out is still a QoS 2 publish. */
  predicate StaysTwo(input: Input, maximumQos: nat) {
    (&& input.FromClient? && input.pk.Publish? && input.pk.qos == 2 && !input.pk.hook.Ignore?
     && GoesOn(input.pk.hook, input.pk.v5, Min(2, maximumQos)))
    ==> LeftOfTwo(input.pk.hook, maximumQos) == 2
  }

  predicate AllStayTwo(inputs: seq<Input>, maximumQos: nat) {
    forall i :: 0 <= i < |inputs| ==> StaysTwo(inputs[i], maximumQos)
  }

  /** A fanned-out QoS 2 publish waits for its PUBREL. */
  predicate Waits(s: Session, id: nat) {
    id in s.inbound && s.inbound[id] == Pubrec
  }

  /** The log reader's flag after one event. */
  function Next(e: Event, id: nat, open: bool): bool {
    if e == FannedOut(id, 2) then true else if e == Released(id) then false else open
  }

  /** One step, as the log reader sees it: what happened first is of no interest, what happened last is a
      permitted fan-out, a PUBREL, or neither. */
  lemma StepAlternates(s: Session, input: Input, maximumQos: nat, id: nat, open: bool)
    requires !s.inline && StaysTwo(input, maximumQos) && (open ==> Waits(s, id))
    ensures var (t, events) := Step(s, input, maximumQos);
            && !t.inline && |events| <= 2 && (|events| == 2 ==> events[0].Retained?)
            && (events == [] ==> open ==> Waits(t, id))
            && (events != [] ==> var e := events[|events| - 1];
                                 (e == FannedOut(id, 2) ==> !open) && (Next(e, id, open) ==> Waits(t, id)))
  {
    if input.ToClient? {
      DeliverInbound(s, input.attempt);
    } else if input.pk.Publish? {
      PublishAlternates(s, input.pk, maximumQos, id, open);
    }
  }

  lemma PublishAlternates(s: Session, pk: Received, maximumQos: nat, id: nat, open: bool)
    requires pk.Publish? && !s.inline && StaysTwo(FromClient(pk, 0), maximumQos) && (open ==> Waits(s, id))
    ensures var (t, events, _) := ReceivePublish(s, pk, maximumQos);
            && !t.inline && |events| <= 2 && (|events| == 2 ==> events[0].Retained?)
            && (events == [] ==> open ==> Waits(t, id))
            && (events != [] ==> var e := events[|events| - 1];
                                 (e == FannedOut(id, 2) ==> !open) && (Next(e, id, open) ==> Waits(t, id)))
  {
  }

  lemma DeliverInbound(s: Session, a: Attempt)
    ensures Deliver(s, a).0.inbound == s.inbound && Deliver(s, a).0.inline == s.inline
  {
    HandOverInbound(s, a, 0);
    HandOverInbound(Reserved(s, a).(sendQuota := Lower(s.sendQuota)), a, NewId(s));
  }

  lemma HandOverInbound(s: Session, a: Attempt, id: nat)
    ensures HandOver(s, a, id).0.inbound == s.inbound && HandOver(s, a, id).0.inline == s.inline
  {
  }

  lemma {:induction false} RunAlternates(s: Session, inputs: seq<Input>, maximumQos: nat, id: nat, open: bool)
    requires !s.inline && AllStayTwo(inputs, maximumQos) && (open ==> Waits(s, id))
    ensures Alternates(Run(s, inputs, maximumQos).1, id, open)
    decreases |inputs|
  {
    if inputs != [] {
      assert StaysTwo(inputs[0], maximumQos);
      StepAlternates(s, inputs[0], maximumQos, id, open);
      var (s1, events) := Step(s, inputs[0], maximumQos);
      var log, more := Run(s, inputs, maximumQos).1, Run(s1, inputs[1..], maximumQos).1;
      assert log == events + more;
      var open' := if events == [] then open else Next(events[|events| - 1], id, open);
      RunAlternates(s1, inputs[1..], maximumQos, id, open');
      if |events| == 0 {
        assert log == more;
      } else if |events| == 1 {
        assert log[1..] == more;
      } else {
        assert log[1..][1..] == more;
      }
    }
  }

  /** What the reader's answer means: between any two such fan-outs lies a PUBREL. */
  lemma {:induction false} AlternatesMeans(log: seq<Event>, id: nat, open: bool, i: nat, j: nat)
    requires Alternates(log, id, open) && i < j < |log| && log[i] == FannedOut(id, 2) && log[j] == FannedOut(id, 2)
    ensures exists k :: i < k < j && log[k] == Released(id)
    decreases |log|
  {
    if i > 0 {
      var open' := if log[0] == FannedOut(id, 2) then true else if log[0] == Released(id) then false else open;
      AlternatesMeans(log[1..], id, open', i - 1, j - 1);
      var k :| i - 1 < k < j - 1 && log[1..][k] == Released(id);
      assert log[k + 1] == Released(id);
    } else {
      var k := ReleasedBefore(log[1..], id, j - 1);
      assert log[k + 1] == Released(id);
    }
  }

  lemma {:induction false} ReleasedBefore(log: seq<Event>, id: nat, j: nat) returns (k: nat)
    requires Alternates(log, id, true) && j < |log| && log[j] == FannedOut(id, 2)
    ensures k < j && log[k] == Released(id)
    decreases |log|
  {
    if log[0] == Released(id) {
      k := 0;
    } else {
      k := ReleasedBefore(log[1..], id, j - 1);
      k := k + 1;
    }
  }

  /** Over every run of a session that is not inline, in which every fanned-out QoS 2 publish stays one, a
      PUBREL for the id lies between any two fan-outs of QoS 2 publishes carrying it, whatever flows in the
      other direction are interleaved. */
  lemma OneFanOutPerPubrel(s: Session, inputs: seq<Input>, maximumQos: nat, id: nat, i: nat, j: nat)
    requires !s.inline && AllStayTwo(inputs, maximumQos)
    requires var log := Run(s, inputs, maximumQos).1;
             i < j < |log| && log[i] == FannedOut(id, 2) && log[j] == FannedOut(id, 2)
    ensures exists k :: i < k < j && Run(s, inputs, maximumQos).1[k] == Released(id)
  {
    RunAlternates(s, inputs, maximumQos, id, false);
    AlternatesMeans(Run(s, inputs, maximumQos).1, id, false, i, j);
  }

  // ---------------------------------------------------------------- exactly when

  /** A publish the client repeats; protocol version 3, so that even a refused one goes on. */
  function Again(id: nat, hook: Hook): Input {
    FromClient(Received.Publish(id, 2, false, true, true, false, true, hook, true), 0)
  }

  lemma RunTwo(s: Session, a: Input, b: Input, maximumQos: nat)
    ensures var (s1, e1) := Step(s, a, maximumQos); var (s2, e2) := Step(s1, b, maximumQos);
            Run(s, [a, b], maximumQos) == (s2, e1 + e2)
  {
    var (s1, e1) := Step(s, a, maximumQos);
    assert [a, b][1..] == [b];
    RunOne(s1, b, maximumQos);
  }

  /** Lowered by the maximum or by the hook, or on the inline client, a repeated publish is fanned out twice. */
  lemma LoweredRepeats(inline: bool, receiveMaximum: nat, id: nat, hook: Hook, maximumQos: nat)
    requires receiveMaximum > 1 && !hook.Reject? && !hook.Ignore? && (inline || LeftOfTwo(hook, maximumQos) != 2)
    ensures var log := Run(Fresh(inline, 0, receiveMaximum, 0), [Again(id, hook), Again(id, hook)], maximumQos).1;
            log == [FannedOut(id, 2), FannedOut(id, 2)] && !Alternates(log, id, false)
  {
    var s, a := Fresh(inline, 0, receiveMaximum, 0), Again(id, hook);
    RunTwo(s, a, a, maximumQos);
    LoweredOnce(s, id, hook, maximumQos);
    LoweredOnce(Step(s, a, maximumQos).0, id, hook, maximumQos);
    var log := [FannedOut(id, 2), FannedOut(id, 2)];
    assert log[1..] == [FannedOut(id, 2)];
  }

  lemma LoweredOnce(s: Session, id: nat, hook: Hook, maximumQos: nat)
    requires s.inbound == map[] && s.receiveQuota > 0 && s.outbound == map[] && !hook.Reject? && !hook.Ignore?
    requires s.inline || LeftOfTwo(hook, maximumQos) != 2
    ensures var (t, events) := Step(s, Again(id, hook), maximumQos);
            && t.inline == s.inline && t.inbound == map[] && t.receiveQuota >= s.receiveQuota - 1 && t.outbound == map[]
            && events == [FannedOut(id, 2)]
  {
  }

  predicate HooksAmong(inputs: seq<Input>, answers: set<Hook>) {
    forall i :: 0 <= i < |inputs| && inputs[i].FromClient? && inputs[i].pk.Publish? ==> inputs[i].pk.hook in answers
  }

  /** Every answer that lets a QoS 2 publish through leaves it at QoS 2, on a session that is not inline. */
  predicate TwoStaysTwo(inline: bool, answers: set<Hook>, maximumQos: nat) {
    forall hook :: hook in answers && !hook.Reject? && !hook.Ignore? ==> !inline && LeftOfTwo(hook, maximumQos) == 2
  }

  /** For a server maximum and a set of answers its publish hooks may give, the rule holds of every run exactly
      when QoS 2 stays QoS 2 through both and the session is not the inline one. */
  lemma PubrelRuleIff(inline: bool, receiveMaximum: nat, id: nat, answers: set<Hook>, maximumQos: nat)
    requires receiveMaximum > 1
    ensures (forall inputs :: HooksAmong(inputs, answers) ==>
              Alternates(Run(Fresh(inline, 0, receiveMaximum, 0), inputs, maximumQos).1, id, false))
            <==> TwoStaysTwo(inline, answers, maximumQos)
  {
    var s := Fresh(inline, 0, receiveMaximum, 0);
    if TwoStaysTwo(inline, answers, maximumQos) {
      forall inputs | HooksAmong(inputs, answers) ensures Alternates(Run(s, inputs, maximumQos).1, id, false) {
        RuleHolds(s, inputs, maximumQos, id, answers);
      }
    } else {
      var hook :| hook in answers && !hook.Reject? && !hook.Ignore? && !(!inline && LeftOfTwo(hook, maximumQos) == 2);
      LoweredRepeats(inline, receiveMaximum, id, hook, maximumQos);
      assert HooksAmong([Again(id, hook), Again(id, hook)], answers);
    }
  }

  lemma RuleHolds(s: Session, inputs: seq<Input>, maximumQos: nat, id: nat, answers: set<Hook>)
    requires TwoStaysTwo(s.inline, answers, maximumQos) && HooksAmong(inputs, answers)
    ensures Alternates(Run(s, inputs, maximumQos).1, id, false)
  {
    if s.inline {
      NothingFansOut(s, inputs, maximumQos, id);
    } else {
      RunAlternates(s, inputs, maximumQos, id, false);
    }
  }

  /** When every answer stops a publish, nothing is fanned out. */
  lemma {:induction false} NothingFansOut(s: Session, inputs: seq<Input>, maximumQos: nat, id: nat)
    requires s.inline
    requires forall i :: 0 <= i < |inputs| && inputs[i].FromClient? && inputs[i].pk.Publish? ==>
               inputs[i].pk.hook.Reject? || inputs[i].pk.hook.Ignore?
    ensures Alternates(Run(s, inputs, maximumQos).1, id, false)
    decreases |inputs|
  {
    if inputs != [] {
      var (s1, events) := Step(s, inputs[0], maximumQos);
      var log, more := Run(s, inputs, maximumQos).1, Run(s1, inputs[1..], maximumQos).1;
      if inputs[0].ToClient? { DeliverInbound(s, inputs[0].attempt); }
      NothingFansOut(s1, inputs[1..], maximumQos, id);
      assert log == events + more;
      assert |events| <= 1 && (events != [] ==> events[0].Released?);
      if events == [] {
        assert log == more;
      } else {
        assert log[1..] == more;
      }
    }
  }
}
