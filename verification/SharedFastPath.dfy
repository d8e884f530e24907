/**
 The single-client fast path of the shared delivery, and the proof that it
 attempts and accepts exactly what the general planner would.
 */
module SharedFastPath {
  import opened DeliveryStatus
  import opened Subscriptions
  import opened SharedPlanner
  import opened SharedPlannerSafety
  import opened SharedPlannerTheorems

  /** Clients the publish has dealt with, and the publish calls made, in order. */
  datatype Delivery = Delivery(clients: set<Client>, log: seq<Attempt>)

  /** One client is selected for every group, is a member of each, and has a merged subscription. */
  predicate FastApplies(w: World, c: Client) {
    && w.selected == {c}
    && |w.selectedGroups| == |w.shared| > 0
    && (forall f :: f in w.selectedGroups ==> w.selectedGroups[f] == c && f in w.shared && c in w.shared[f])
    && c in w.subscriptions
  }

  ghost function General(w: World): Delivery
    requires ValidOrders(w)
  {
    var t := Final(w, "", Ok);
    Delivery(t.attempted.Keys, t.log)
  }

  /** publishSharedToSubscribers once the fast-path client is known; `order` is the order in which it
      ranges over the selected groups, which need not be the planner's. */
  ghost function Fast(w: World, c: Client, order: seq<Filter>): Delivery
    requires ValidOrders(w) && FastApplies(w, c) && Enumerates(order, w.selectedGroups.Keys)
  {
    var sub := MergeFilters(w, c, w.subscriptions[c], true, order);
    var status := w.attempt(c, sub);
    var first := [Attempt(c, sub, status)];
    if !Safe(status) then Delivery({c}, first)
    else
      var t := Final(w, c, status);
      Delivery(t.attempted.Keys, first + t.log)
  }

  lemma {:induction false} SubsetSameSize(a: set<Filter>, b: set<Filter>)
    requires a <= b && |a| == |b|
    ensures a == b
  {
    assert |b - a| == |b| - |a|;
  }

  lemma {:induction false} AllSelectedPlan(w: World, c: Client, fs: seq<Filter>)
    requires forall f :: f in fs ==> Selected(w, f) == c
    ensures PlanOf(InitialPlan(w, fs), c) == fs
    decreases |fs|
  {
    if fs != [] {
      AllSelectedPlan(w, c, fs[..|fs| - 1]);
      assert fs == fs[..|fs| - 1] + [fs[|fs| - 1]];
    }
  }

  lemma SingletonOrder(order: seq<Client>, c: Client)
    requires Enumerates(order, {c})
    ensures order == [c]
  {
    assert c in order;
    assert order[0] in order && order[|order| - 1] in order;
  }

  lemma FastPlan(w: World, c: Client)
    requires ValidOrders(w) && FastApplies(w, c)
    ensures PlanOf(InitialPlan(w, w.filterOrder), c) == w.filterOrder
    ensures w.queueOrder == [c]
  {
    SubsetSameSize(w.selectedGroups.Keys, w.shared.Keys);
    assert forall f :: f in w.filterOrder ==> f in w.selectedGroups.Keys;
    AllSelectedPlan(w, c, w.filterOrder);
    SingletonOrder(w.queueOrder, c);
  }

  // ---------------------------------------------------------------- the merge does not depend on the order

  /** Members are listed under their own filter, as the query lists them. */
  ghost predicate KeyedByFilter(shared: map<Filter, map<Client, Subscription>>) {
    forall f, c :: f in shared && c in shared[f] ==> shared[f][c].filter == f
  }

  ghost predicate MemberOfAll(w: World, c: Client, fs: seq<Filter>) {
    forall f :: f in fs ==> f in w.shared && c in w.shared[f]
  }

  lemma {:induction false} MergeToFront(w: World, c: Client, sub: Subscription, fs: seq<Filter>, k: nat)
    requires KeyedByFilter(w.shared) && MemberOfAll(w, c, fs) && k < |fs| && Distinct(fs)
    ensures MemberOfAll(w, c, fs[..k] + fs[k + 1..])
    ensures MergeFilters(w, c, sub, true, fs) == MergeFilters(w, c, Merge(sub, w.shared[fs[k]][c]), true, fs[..k] + fs[k + 1..])
    decreases k
  {
    var less := fs[..k] + fs[k + 1..];
    if k == 0 {
      assert less == fs[1..];
    } else {
      var first, kth := w.shared[fs[0]][c], w.shared[fs[k]][c];
      MergeToFront(w, c, Merge(sub, first), fs[1..], k - 1);
      assert fs[1..][..k - 1] + fs[1..][k..] == less[1..];
      MergeCommutes(sub, first, kth);
    }
  }

  lemma HasFirst(fs: seq<Filter>)
    requires fs != []
    ensures fs[0] in fs
  {
  }

  /** Any two orders of the same filters merge to the same subscription. */
  lemma {:induction false} MergeOrderFree(w: World, c: Client, sub: Subscription, fs: seq<Filter>, gs: seq<Filter>)
    requires KeyedByFilter(w.shared) && MemberOfAll(w, c, fs) && MemberOfAll(w, c, gs)
    requires Distinct(fs) && Distinct(gs) && forall f :: f in fs <==> f in gs
    ensures MergeFilters(w, c, sub, true, fs) == MergeFilters(w, c, sub, true, gs)
    decreases |gs|
  {
    if gs == [] {
      if fs != [] {
        HasFirst(fs);
        assert false;
      }
    } else {
      assert gs[0] in fs;
      var k :| 0 <= k < |fs| && fs[k] == gs[0];
      MergeToFront(w, c, sub, fs, k);
      WithoutOne(fs, gs, k);
      MergeOrderFree(w, c, Merge(sub, w.shared[gs[0]][c]), fs[..k] + fs[k + 1..], gs[1..]);
    }
  }

  lemma WithoutOne(fs: seq<Filter>, gs: seq<Filter>, k: nat)
    requires Distinct(fs) && Distinct(gs) && (forall f :: f in fs <==> f in gs) && gs != [] && k < |fs| && fs[k] == gs[0]
    ensures var less := fs[..k] + fs[k + 1..]; Distinct(less) && Distinct(gs[1..]) && forall f :: f in less <==> f in gs[1..]
  {
    var less := fs[..k] + fs[k + 1..];
    forall f ensures f in less <==> f in fs && f != fs[k] {
      if f in fs && f != fs[k] {
        var i :| 0 <= i < |fs| && fs[i] == f;
        assert less[if i < k then i else i - 1] == f;
      }
    }
    assert forall f :: f in gs[1..] <==> f in gs && f != gs[0];
  }

  // ---------------------------------------------------------------- the log is write-only

  lemma {:induction false} AdvanceAllLog(s: State, fs: seq<Filter>, log: seq<Attempt>)
    requires forall f :: f in fs ==> f in s.groups
    ensures AdvanceAll(s.(log := log), fs) == AdvanceAll(s, fs).(log := log)
    decreases |fs|
  {
    if fs != [] {
      assert AdvanceOne(s.(log := log), fs[0]) == AdvanceOne(s, fs[0]).(log := log);
      AdvanceAllLog(AdvanceOne(s, fs[0]), fs[1..], log);
    }
  }

  lemma ConcludeLog(s: State, c: Client, fs: seq<Filter>, status: Status, log: seq<Attempt>)
    requires forall f :: f in fs ==> f in s.groups
    ensures Conclude(s.(log := log), c, fs, status) == Conclude(s, c, fs, status).(log := log)
    ensures Conclude(s, c, fs, status).log == s.log
  {
    AdvanceAllLog(s, fs, log);
    AdvanceAllKeeps(s, fs);
  }

  /** With the initial client already attempted, its stored result is never consulted again. */
  lemma StepForgetsInitial(w: World, c: Client, status: Status, s: State, pre: seq<Attempt>)
    requires s.queue != [] && PlanInGroups(w, s) && s.queue[0] !in s.attempted
    requires s.queue[0] != c && s.queue[0] != ""
    ensures var t := Step(w, c, status, s);
            Step(w, "", Ok, s.(log := pre + s.log)) == t.(log := pre + t.log)
  {
    var h := s.queue[0];
    var fs := PlanOf(s.plan, h);
    var sub := EffectiveSub(w, h, fs);
    var st := w.attempt(h, sub);
    var entry := [Attempt(h, sub, st)];
    assert pre + (s.log + entry) == pre + s.log + entry;
    ConcludeLog(Recorded(s, st, s.log + entry), h, fs, st, pre + s.log + entry);
  }

  lemma {:induction false} RunForgetsInitial(w: World, c: Client, status: Status, s: State, pre: seq<Attempt>)
    requires Good(w, s) && c in s.attempted && "" !in Universe(w)
    ensures Good(w, s.(log := pre + s.log))
    ensures var t := Run(w, c, status, s);
            Run(w, "", Ok, s.(log := pre + s.log)) == t.(log := pre + t.log)
    decreases Measure(w, s)
  {
    var u := s.(log := pre + s.log);
    GoodIgnoresLog(w, s, u);
    if s.queue != [] {
      StepGood(w, c, status, s);
      StepGood(w, "", Ok, u);
      assert s.queue[0] in s.queue && s.queue[0] in Universe(w);
      StepForgetsInitial(w, c, status, s, pre);
      StepRecords(w, c, status, s);
      RunForgetsInitial(w, c, status, Step(w, c, status, s), pre);
    }
  }

  lemma GoodIgnoresLog(w: World, s: State, u: State)
    requires Good(w, s) && u == s.(log := u.log)
    ensures Good(w, u)
  {
    assert forall c, f :: Holds(u, c, f) <==> Holds(s, c, f);
    assert forall c :: Spent(u, c) <==> Spent(s, c);
    forall f | f in w.shared ensures FilterInv(w, u, f) {
      assert FilterInv(w, s, f);
      if s.groups[f].delivered {
        var c :| c in s.accepted && (Holds(s, c, f) || c in s.groups[f].candidates);
        assert c in u.accepted && (Holds(u, c, f) || c in u.groups[f].candidates);
      }
    }
  }

  /** Reusing a result equal to what the attempt would return changes only the log. */
  lemma StepReusesResult(w: World, c: Client, s: State)
    requires s.queue == [c] && PlanInGroups(w, s) && c !in s.attempted && c != "" && s.log == []
    ensures var sub := EffectiveSub(w, c, PlanOf(s.plan, c));
            var status := w.attempt(c, sub);
            Step(w, "", Ok, s) == Step(w, c, status, s).(log := [Attempt(c, sub, status)])
  {
    var fs := PlanOf(s.plan, c);
    var sub := EffectiveSub(w, c, fs);
    var status := w.attempt(c, sub);
    assert s.log + [Attempt(c, sub, status)] == [Attempt(c, sub, status)];
    ConcludeLog(Recorded(s, status, []), c, fs, status, [Attempt(c, sub, status)]);
  }

  /** For the same orders and outcomes, the fast path makes the same publish calls in the same
      order and claims the same clients as the general planner, whatever order it merges in. */
  lemma FastPathRefines(w: World, c: Client, order: seq<Filter>)
    requires ValidOrders(w) && FastApplies(w, c) && "" !in Universe(w)
    requires KeyedByFilter(w.shared) && Enumerates(order, w.selectedGroups.Keys)
    ensures Fast(w, c, order) == General(w)
  {
    assert c in Universe(w);
    InitialGood(w);
    FastPlan(w, c);
    SubsetSameSize(w.selectedGroups.Keys, w.shared.Keys);
    MergeOrderFree(w, c, w.subscriptions[c], order, w.filterOrder);
    FastFromState(w, c, Initial(w));
  }

  lemma FastFromState(w: World, c: Client, s: State)
    requires Good(w, s) && s.queue == [c] && s.log == [] && s.attempted == map[] && "" !in Universe(w) && c in Universe(w)
    requires PlanOf(s.plan, c) == w.filterOrder && c in w.subscriptions
    requires forall f :: f in w.filterOrder ==> f in w.shared
    ensures var sub := MergeFilters(w, c, w.subscriptions[c], true, w.filterOrder);
            var status := w.attempt(c, sub);
            var first := [Attempt(c, sub, status)];
            var t, u := Run(w, c, status, s), Run(w, "", Ok, s);
            && u.attempted == t.attempted && u.log == first + t.log
            && (!Safe(status) ==> u.attempted.Keys == {c} && u.log == first)
  {
    var sub := MergeFilters(w, c, w.subscriptions[c], true, w.filterOrder);
    var status := w.attempt(c, sub);
    var first := [Attempt(c, sub, status)];
    StepGood(w, c, status, s);
    StepGood(w, "", Ok, s);
    var t := Step(w, c, status, s);
    StepReusesResult(w, c, s);
    StepRecords(w, c, status, s);
    assert first + t.log == first;
    RunForgetsInitial(w, c, status, t, first);
    if !Safe(status) { assert t.queue == []; }
  }
}
