/**
 What each shared attempt carries: the client's ordinary subscription with those of every
 group planned for it merged in, or the groups' alone when it has no ordinary one.
 */
module SharedAttempts {
  import opened DeliveryStatus
  import opened Subscriptions
  import opened SharedPlanner
  import opened SharedPlannerSafety
  import opened SharedPlannerTheorems

  /** The client's subscriptions in those of the filters it is a member of. */
  ghost function GroupSubs(shared: map<Filter, map<Client, Subscription>>, c: Client, fs: seq<Filter>): set<Subscription> {
    set f | f in fs && f in shared && c in shared[f] :: shared[f][c]
  }

  ghost predicate InGroup(shared: map<Filter, map<Client, Subscription>>, c: Client, fs: seq<Filter>, f: Filter) {
    f in fs && f in shared && c in shared[f]
  }

  ghost predicate OnlyGroup(shared: map<Filter, map<Client, Subscription>>, c: Client, fs: seq<Filter>, f: Filter) {
    forall g :: InGroup(shared, c, fs, g) ==> g == f
  }

  /** Merged onto the ordinary subscription; without a group it is that subscription. */
  ghost predicate WithOrdinary(sub: Subscription, ordinary: Subscription, groups: set<Subscription>) {
    MergedOnto(sub, ordinary, groups) && (groups == {} ==> sub == ordinary) && (groups != {} ==> sub.identifiers != map[])
  }

  /** Without an ordinary subscription: the one group's own, or the merge of several. */
  ghost predicate FromGroups(sub: Subscription, shared: map<Filter, map<Client, Subscription>>, c: Client, fs: seq<Filter>) {
    && (forall f :: InGroup(shared, c, fs, f) ==>
          if OnlyGroup(shared, c, fs, f) then sub == shared[f][c]
          else Combines(sub, GroupSubs(shared, c, fs)))
    && ((forall f :: !InGroup(shared, c, fs, f)) ==> sub == NO_SUBSCRIPTION)
  }

  /** The attempt carries what the client's filters call for, and its outcome is that of this very call. */
  ghost predicate AttemptOk(w: World, a: Attempt, fs: seq<Filter>) {
    && a.status == w.attempt(a.client, a.sub)
    && (if a.client in w.subscriptions then WithOrdinary(a.sub, w.subscriptions[a.client], GroupSubs(w.shared, a.client, fs))
        else FromGroups(a.sub, w.shared, a.client, fs))
  }

  // ---------------------------------------------------------------- the merge

  lemma GroupSubsStep(shared: map<Filter, map<Client, Subscription>>, c: Client, fs: seq<Filter>)
    requires fs != [] && fs[0] in shared
    ensures GroupSubs(shared, c, fs) == (if c in shared[fs[0]] then {shared[fs[0]][c]} else {}) + GroupSubs(shared, c, fs[1..])
  {
    assert fs == [fs[0]] + fs[1..];
    forall f ensures f in fs <==> f == fs[0] || f in fs[1..] { }
    forall s ensures s in GroupSubs(shared, c, fs) <==> (c in shared[fs[0]] && s == shared[fs[0]][c]) || s in GroupSubs(shared, c, fs[1..]) {
      if c in shared[fs[0]] && s == shared[fs[0]][c] { assert fs[0] in fs; }
    }
  }

  /** Merging onto what is already a merge. */
  lemma {:induction false} MergeOntoBase(w: World, c: Client, sub: Subscription, base: Subscription, more: set<Subscription>, fs: seq<Filter>)
    requires (forall f :: f in fs ==> f in w.shared) && MergedOnto(sub, base, more)
    ensures var out, groups := MergeFilters(w, c, sub, true, fs), GroupSubs(w.shared, c, fs);
            && MergedOnto(out, base, more + groups)
            && (groups == {} ==> out == sub) && (groups != {} || sub.identifiers != map[] ==> out.identifiers != map[])
    decreases |fs|
  {
    var groups := GroupSubs(w.shared, c, fs);
    if fs == [] {
      assert more + groups == more;
    } else {
      GroupSubsStep(w.shared, c, fs);
      if c in w.shared[fs[0]] {
        var n := w.shared[fs[0]][c];
        OntoMore(sub, base, more, n);
        MergeOntoBase(w, c, Merge(sub, n), base, more + {n}, fs[1..]);
        assert more + {n} + GroupSubs(w.shared, c, fs[1..]) == more + groups && n in groups;
      } else {
        MergeOntoBase(w, c, sub, base, more, fs[1..]);
        assert GroupSubs(w.shared, c, fs[1..]) == groups;
      }
    }
  }

  /** Without an ordinary subscription the first group's is the base. */
  lemma {:induction false} MergeGroups(w: World, c: Client, fs: seq<Filter>)
    requires (forall f :: f in fs ==> f in w.shared) && Distinct(fs)
    ensures FromGroups(MergeFilters(w, c, NO_SUBSCRIPTION, false, fs), w.shared, c, fs)
    decreases |fs|
  {
    if fs != [] {
      var rest := fs[1..];
      var out := MergeFilters(w, c, NO_SUBSCRIPTION, false, fs);
      assert fs[0] !in rest && forall f :: f in fs <==> f == fs[0] || f in rest;
      GroupSubsStep(w.shared, c, fs);
      if c in w.shared[fs[0]] {
        var first := w.shared[fs[0]][c];
        OntoItself(first);
        MergeOntoBase(w, c, first, first, {}, rest);
        var more := GroupSubs(w.shared, c, rest);
        assert {} + more == more && GroupSubs(w.shared, c, fs) == more + {first};
        assert more != {} ==> CombinesOnto(out, GroupSubs(w.shared, c, fs), first, more);
        GroupsAfterFirst(w.shared, c, fs, out);
      } else {
        MergeGroups(w, c, rest);
        assert GroupSubs(w.shared, c, rest) == GroupSubs(w.shared, c, fs);
        assert forall f :: InGroup(w.shared, c, fs, f) <==> InGroup(w.shared, c, rest, f);
        assert forall f :: OnlyGroup(w.shared, c, fs, f) <==> OnlyGroup(w.shared, c, rest, f);
      }
    }
  }

  lemma OnlyFirst(shared: map<Filter, map<Client, Subscription>>, c: Client, fs: seq<Filter>)
    requires Distinct(fs) && fs != [] && fs[0] in shared && c in shared[fs[0]]
    ensures InGroup(shared, c, fs, fs[0])
    ensures forall f :: InGroup(shared, c, fs, f) ==> (OnlyGroup(shared, c, fs, f) <==> GroupSubs(shared, c, fs[1..]) == {})
    ensures forall f :: InGroup(shared, c, fs, f) && OnlyGroup(shared, c, fs, f) ==> f == fs[0]
  {
    var more := GroupSubs(shared, c, fs[1..]);
    assert InGroup(shared, c, fs, fs[0]);
    forall g | InGroup(shared, c, fs, g) && g != fs[0] ensures more != {} {
      assert shared[g][c] in more;
    }
    if more != {} {
      var s :| s in more;
      var g :| g in fs[1..] && g in shared && c in shared[g] && shared[g][c] == s;
      assert InGroup(shared, c, fs, g) && g != fs[0];
    }
  }

  lemma GroupsAfterFirst(shared: map<Filter, map<Client, Subscription>>, c: Client, fs: seq<Filter>, out: Subscription)
    requires Distinct(fs) && fs != [] && fs[0] in shared && c in shared[fs[0]]
    requires GroupSubs(shared, c, fs[1..]) == {} ==> out == shared[fs[0]][c]
    requires GroupSubs(shared, c, fs[1..]) != {} ==> Combines(out, GroupSubs(shared, c, fs))
    ensures FromGroups(out, shared, c, fs)
  {
    OnlyFirst(shared, c, fs);
  }

  lemma EffectiveMeans(w: World, a: Attempt, fs: seq<Filter>)
    requires (forall f :: f in fs ==> f in w.shared) && Distinct(fs)
    requires a.sub == EffectiveSub(w, a.client, fs) && a.status == w.attempt(a.client, a.sub)
    ensures AttemptOk(w, a, fs)
  {
    if a.client in w.subscriptions {
      var ordinary, groups := w.subscriptions[a.client], GroupSubs(w.shared, a.client, fs);
      OntoItself(ordinary);
      MergeOntoBase(w, a.client, ordinary, ordinary, {}, fs);
      assert {} + groups == groups;
    } else {
      MergeGroups(w, a.client, fs);
    }
  }

  // ---------------------------------------------------------------- whole runs

  ghost predicate AttemptsOk(w: World, s: State) {
    forall i :: 0 <= i < |s.log| ==> s.log[i].client in s.attempted && AttemptOk(w, s.log[i], PlanOf(s.plan, s.log[i].client))
  }

  /** Once attempted, a client gets no further filter. */
  lemma {:induction false} AdvanceAllPlans(s: State, fs: seq<Filter>, c: Client)
    requires (forall f :: f in fs ==> f in s.groups) && c in s.attempted
    ensures PlanOf(AdvanceAll(s, fs).plan, c) == PlanOf(s.plan, c)
    decreases |fs|
  {
    if fs != [] {
      AdvanceOneOthers(s, fs[0]);
      AdvanceAllPlans(AdvanceOne(s, fs[0]), fs[1..], c);
    }
  }

  lemma StepPlans(w: World, initial: Client, initialStatus: Status, s: State, c: Client)
    requires s.queue != [] && PlanInGroups(w, s) && s.queue[0] !in s.attempted && (c in s.attempted || c == s.queue[0])
    ensures PlanOf(Step(w, initial, initialStatus, s).plan, c) == PlanOf(s.plan, c)
  {
    var client := s.queue[0];
    var fs := PlanOf(s.plan, client);
    var sub := EffectiveSub(w, client, fs);
    var status := OutcomeFor(w, initial, initialStatus, client, sub);
    var r := Recorded(s, status, if client == initial then s.log else s.log + [Attempt(client, sub, status)]);
    AdvanceAllPlans(r, fs, c);
  }

  lemma StepAttempts(w: World, initial: Client, initialStatus: Status, s: State)
    requires Good(w, s) && s.queue != [] && PlanInGroups(w, s) && AttemptsOk(w, s)
    ensures AttemptsOk(w, Step(w, initial, initialStatus, s))
  {
    var c, t := s.queue[0], Step(w, initial, initialStatus, s);
    assert c in s.queue;
    StepRecords(w, initial, initialStatus, s);
    forall i | 0 <= i < |t.log| ensures t.log[i].client in t.attempted && AttemptOk(w, t.log[i], PlanOf(t.plan, t.log[i].client)) {
      if i < |s.log| {
        assert t.log[i] == s.log[i];
        StepPlans(w, initial, initialStatus, s, s.log[i].client);
      } else {
        StepPlans(w, initial, initialStatus, s, c);
        HeadPlan(w, s);
        EffectiveMeans(w, t.log[i], PlanOf(s.plan, c));
      }
    }
  }

  lemma HeadPlan(w: World, s: State)
    requires Good(w, s) && s.queue != []
    ensures Distinct(PlanOf(s.plan, s.queue[0])) && forall f :: f in PlanOf(s.plan, s.queue[0]) ==> f in w.shared
  {
    forall f | f in PlanOf(s.plan, s.queue[0]) ensures f in w.shared { assert Holds(s, s.queue[0], f); }
  }

  lemma {:induction false} RunAttempts(w: World, initial: Client, initialStatus: Status, s: State)
    requires Good(w, s) && AttemptsOk(w, s)
    ensures AttemptsOk(w, Run(w, initial, initialStatus, s))
    decreases Measure(w, s)
  {
    if s.queue != [] {
      StepGood(w, initial, initialStatus, s);
      StepAttempts(w, initial, initialStatus, s);
      RunAttempts(w, initial, initialStatus, Step(w, initial, initialStatus, s));
    }
  }

  /** In every run, every attempt carries exactly the subscriptions of the filters its client ends up planned for. */
  lemma AttemptsCarryPlan(w: World, initial: Client, initialStatus: Status, i: nat)
    requires ValidOrders(w) && i < |Final(w, initial, initialStatus).log|
    ensures var t := Final(w, initial, initialStatus); AttemptOk(w, t.log[i], PlanOf(t.plan, t.log[i].client))
  {
    InitialGood(w);
    RunAttempts(w, initial, initialStatus, Initial(w));
  }

  // ---------------------------------------------------------------- what the plan starts with is kept

  lemma {:induction false} AdvanceAllHolds(s: State, fs: seq<Filter>, c: Client, f: Filter)
    requires forall g :: g in fs ==> g in s.groups
    ensures Holds(s, c, f) ==> Holds(AdvanceAll(s, fs), c, f)
    ensures c in s.queued ==> c in AdvanceAll(s, fs).queued
    decreases |fs|
  {
    if fs != [] {
      AdvanceOneOthers(s, fs[0]);
      AdvanceAllHolds(AdvanceOne(s, fs[0]), fs[1..], c, f);
    }
  }

  lemma StepHolds(w: World, initial: Client, initialStatus: Status, s: State, c: Client, f: Filter)
    requires s.queue != [] && PlanInGroups(w, s)
    ensures Holds(s, c, f) ==> Holds(Step(w, initial, initialStatus, s), c, f)
    ensures c in s.queued ==> c in Step(w, initial, initialStatus, s).queued
  {
    var client := s.queue[0];
    var fs := PlanOf(s.plan, client);
    var sub := EffectiveSub(w, client, fs);
    var status := OutcomeFor(w, initial, initialStatus, client, sub);
    AdvanceAllHolds(Recorded(s, status, if client == initial then s.log else s.log + [Attempt(client, sub, status)]), fs, c, f);
  }

  lemma {:induction false} RunHolds(w: World, initial: Client, initialStatus: Status, s: State, c: Client, f: Filter)
    requires Good(w, s)
    ensures Holds(s, c, f) ==> Holds(Run(w, initial, initialStatus, s), c, f)
    ensures c in s.queued ==> c in Run(w, initial, initialStatus, s).queued
    decreases Measure(w, s)
  {
    if s.queue != [] {
      StepGood(w, initial, initialStatus, s);
      StepHolds(w, initial, initialStatus, s, c, f);
      RunHolds(w, initial, initialStatus, Step(w, initial, initialStatus, s), c, f);
    }
  }

  /** Every selected client is attempted, with the groups it was selected for among its filters. */
  lemma SelectedAttempted(w: World, initial: Client, initialStatus: Status, c: Client, f: Filter)
    requires ValidOrders(w) && c in w.selected
    ensures var t := Final(w, initial, initialStatus);
            c in t.attempted && (f in w.shared && Selected(w, f) == c ==> f in PlanOf(t.plan, c))
  {
    InitialGood(w);
    InitialHolds(w);
    RunHolds(w, initial, initialStatus, Initial(w), c, f);
    FinalGood(w, initial, initialStatus);
  }

  // ---------------------------------------------------------------- the order of the attempts

  lemma {:induction false} AdvanceAllQueue(s: State, fs: seq<Filter>)
    requires forall f :: f in fs ==> f in s.groups
    ensures s.queue <= AdvanceAll(s, fs).queue
    decreases |fs|
  {
    if fs != [] {
      assert s.queue <= AdvanceOne(s, fs[0]).queue;
      AdvanceAllQueue(AdvanceOne(s, fs[0]), fs[1..]);
    }
  }

  /** A turn takes the head off the queue and adds new clients behind the others. */
  lemma StepQueue(w: World, initial: Client, initialStatus: Status, s: State)
    requires s.queue != [] && PlanInGroups(w, s)
    ensures s.queue[1..] <= Step(w, initial, initialStatus, s).queue
  {
    var client := s.queue[0];
    var fs := PlanOf(s.plan, client);
    var sub := EffectiveSub(w, client, fs);
    var status := OutcomeFor(w, initial, initialStatus, client, sub);
    AdvanceAllQueue(Recorded(s, status, if client == initial then s.log else s.log + [Attempt(client, sub, status)]), fs);
  }

  function Clients(log: seq<Attempt>): (clients: seq<Client>)
    ensures |clients| == |log| && forall i :: 0 <= i < |log| ==> clients[i] == log[i].client
  {
    seq(|log|, i requires 0 <= i < |log| => log[i].client)
  }

  /** The clients attempted so far, then those waiting. */
  function Order(s: State): seq<Client> {
    Clients(s.log) + s.queue
  }

  lemma StepOrder(w: World, s: State)
    requires Good(w, s) && s.queue != [] && PlanInGroups(w, s) && "" !in Universe(w)
    ensures Order(s) <= Order(Step(w, "", Ok, s))
  {
    assert s.queue[0] in s.queue && s.queue[0] in Universe(w);
    StepRecords(w, "", Ok, s);
    StepQueue(w, "", Ok, s);
    OrderExtends(s, Step(w, "", Ok, s));
  }

  lemma OrderExtends(s: State, t: State)
    requires s.queue != [] && |t.log| == |s.log| + 1 && s.log <= t.log && t.log[|s.log|].client == s.queue[0] && s.queue[1..] <= t.queue
    ensures Order(s) <= Order(t)
  {
    assert Clients(t.log) == Clients(s.log) + [s.queue[0]];
    HeadMoves(Clients(s.log), s.queue, t.queue);
  }

  lemma HeadMoves(done: seq<Client>, queue: seq<Client>, later: seq<Client>)
    requires queue != [] && queue[1..] <= later
    ensures done + queue <= done + [queue[0]] + later
  {
    assert queue == [queue[0]] + queue[1..];
    assert later == queue[1..] + later[|queue| - 1..];
    assert done + [queue[0]] + later == done + queue + later[|queue| - 1..];
  }

  lemma {:induction false} RunOrder(w: World, s: State)
    requires Good(w, s) && "" !in Universe(w)
    ensures Order(s) <= Order(Run(w, "", Ok, s))
    decreases Measure(w, s)
  {
    if s.queue != [] {
      StepGood(w, "", Ok, s);
      StepOrder(w, s);
      RunOrder(w, Step(w, "", Ok, s));
    }
  }

  /** Clients are attempted in the order they are queued, the selected members first. */
  lemma SelectedFirst(w: World, i: nat)
    requires ValidOrders(w) && "" !in Universe(w) && i < |w.queueOrder|
    ensures var t := Final(w, "", Ok); i < |t.log| && t.log[i].client == w.queueOrder[i]
  {
    InitialGood(w);
    var s := Initial(w);
    RunOrder(w, s);
    assert Order(s) == w.queueOrder && Order(Final(w, "", Ok)) == Clients(Final(w, "", Ok).log);
  }
}
