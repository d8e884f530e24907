/**
 Safety of the shared planner: invariants every step keeps, from any selection.
 A client *holds* a filter when the plan lists the filter for it; a holder is
 *spent* once its attempt failed safely. Each group has at most one unspent holder.
 */
module SharedPlannerSafety {
  import opened DeliveryStatus
  import opened Subscriptions
  import opened SharedPlanner

  predicate Holds(s: State, c: Client, f: Filter) {
    Lists(s.plan, c, f)
  }

  predicate Spent(s: State, c: Client) {
    c in s.attempted && Safe(s.attempted[c])
  }

  /** The group lists each member of the filter once, and its cursor is in range. */
  ghost predicate GroupOk(g: Group, members: set<Client>) {
    Enumerates(g.candidates, members) && g.cursor <= |g.candidates|
  }

  ghost predicate GroupsOk(w: World, s: State) {
    && s.groups.Keys == w.shared.Keys
    && (forall f :: f in s.groups ==> GroupOk(s.groups[f], w.shared[f].Keys))
  }

  /** The queue holds, once each, exactly the queued clients not yet attempted. */
  ghost predicate QueueOk(s: State) {
    && Distinct(s.queue)
    && (forall c :: c in s.queue <==> c in s.queued && c !in s.attempted)
    && s.attempted.Keys <= s.queued
    && (forall c :: c in s.accepted <==> c in s.attempted && s.attempted[c].Ok?)
  }

  /** No client lists a filter twice, and every listed filter is a group. */
  ghost predicate PlanOk(s: State) {
    && (forall c :: c in s.plan ==> Distinct(s.plan[c]))
    && (forall c, f :: Holds(s, c, f) ==> f in s.groups)
  }

  ghost predicate Frame(w: World, s: State) {
    GroupsOk(w, s) && QueueOk(s) && PlanOk(s)
  }

  /** At most one holder of the group is unspent. */
  ghost predicate OneToken(s: State, f: Filter) {
    forall c1, c2 :: Holds(s, c1, f) && Holds(s, c2, f) && c1 != c2 ==> Spent(s, c1) || Spent(s, c2)
  }

  /** Holders lie behind the cursor. */
  ghost predicate HoldersBehind(s: State, f: Filter)
    requires f in s.groups
  {
    var g := s.groups[f];
    forall c, i :: Holds(s, c, f) && g.cursor <= i < |g.candidates| ==> g.candidates[i] != c
  }

  /** Every candidate behind the cursor was planned, or was passed over with a failed attempt. */
  ghost predicate BehindUsed(s: State, f: Filter)
    requires f in s.groups
  {
    var g := s.groups[f];
    forall i :: 0 <= i < g.cursor && i < |g.candidates| && !g.delivered ==>
                  Holds(s, g.candidates[i], f) || (g.candidates[i] in s.attempted && g.candidates[i] !in s.accepted)
  }

  ghost predicate DeliveredByAccepted(w: World, s: State, f: Filter)
    requires f in s.groups && f in w.shared
  {
    s.groups[f].delivered ==> exists c :: c in s.accepted && (Holds(s, c, f) || c in s.groups[f].candidates)
  }

  ghost predicate FilterInv(w: World, s: State, f: Filter)
    requires f in s.groups && f in w.shared
  {
    OneToken(s, f) && HoldersBehind(s, f) && BehindUsed(s, f) && DeliveredByAccepted(w, s, f)
  }

  ghost predicate Inv(w: World, s: State) {
    Frame(w, s) && forall f :: f in w.shared ==> FilterInv(w, s, f)
  }

  /** Every holder of the group is spent: it needs another candidate. */
  ghost predicate Idle(s: State, f: Filter) {
    forall c :: Holds(s, c, f) ==> Spent(s, c)
  }

  // ---------------------------------------------------------------- advancing one group

  /** What an advance of f leaves alone. */
  lemma AdvanceOneOthers(s: State, f: Filter)
    requires f in s.groups
    ensures var t := AdvanceOne(s, f);
            && t.groups.Keys == s.groups.Keys
            && (forall h :: h in s.groups && h != f ==> t.groups[h] == s.groups[h])
            && t.groups[f].candidates == s.groups[f].candidates
            && t.attempted == s.attempted && t.accepted == s.accepted && t.log == s.log
            && (forall c, h :: h != f ==> (Holds(t, c, h) <==> Holds(s, c, h)))
            && (forall c :: Holds(s, c, f) ==> Holds(t, c, f))
            && (forall c :: c in s.attempted ==> PlanOf(t.plan, c) == PlanOf(s.plan, c))
            && s.queued <= t.queued
  {
  }

  lemma AdvanceOneGroups(w: World, s: State, f: Filter)
    requires GroupsOk(w, s) && f in s.groups
    ensures GroupsOk(w, AdvanceOne(s, f))
  {
    AdvanceOneOthers(s, f);
    assert GroupOk(AdvanceOne(s, f).groups[f], w.shared[f].Keys);
  }

  lemma AdvanceOneQueue(s: State, f: Filter)
    requires QueueOk(s) && f in s.groups
    ensures QueueOk(AdvanceOne(s, f))
  {
    var t := AdvanceOne(s, f);
    if t.queue != s.queue {
      var next := t.queue[|s.queue|];
      assert t.queue == s.queue + [next] && t.queued == s.queued + {next} && next !in s.queued;
    }
  }

  lemma AdvanceOnePlan(s: State, f: Filter)
    requires PlanOk(s) && f in s.groups && Idle(s, f)
    ensures PlanOk(AdvanceOne(s, f))
  {
    AdvanceOneOthers(s, f);
    var t := AdvanceOne(s, f);
    forall c | c in t.plan ensures Distinct(t.plan[c]) {
      if t.plan[c] != PlanOf(s.plan, c) { assert !Holds(s, c, f); }
    }
  }

  lemma AdvanceOneFrame(w: World, s: State, f: Filter)
    requires Frame(w, s) && f in s.groups && Idle(s, f)
    ensures Frame(w, AdvanceOne(s, f))
  {
    AdvanceOneGroups(w, s, f);
    AdvanceOneQueue(s, f);
    AdvanceOnePlan(s, f);
  }

  /** The advanced group regains its invariant. */
  lemma AdvanceOneFilter(w: World, s: State, f: Filter)
    requires Frame(w, s) && f in s.groups && Idle(s, f) && FilterInv(w, s, f)
    ensures FilterInv(w, AdvanceOne(s, f), f)
  {
    AdvanceOneOthers(s, f);
    AdvanceOneToken(w, s, f);
    AdvanceOneBehind(w, s, f);
    AdvanceOneUsed(w, s, f);
    AdvanceOneDelivered(w, s, f);
  }

  lemma AdvanceOneToken(w: World, s: State, f: Filter)
    requires f in s.groups && Idle(s, f)
    ensures OneToken(AdvanceOne(s, f), f)
  {
    AdvanceOneOthers(s, f);
    var t := AdvanceOne(s, f);
    forall c1, c2 | Holds(t, c1, f) && Holds(t, c2, f) && c1 != c2 ensures Spent(t, c1) || Spent(t, c2) {
      assert Holds(s, c1, f) || Holds(s, c2, f);
    }
  }

  lemma AdvanceOneBehind(w: World, s: State, f: Filter)
    requires GroupsOk(w, s) && f in s.groups && HoldersBehind(s, f)
    ensures HoldersBehind(AdvanceOne(s, f), f)
  {
    AdvanceOneOthers(s, f);
    assert GroupOk(s.groups[f], w.shared[f].Keys);
    var t := AdvanceOne(s, f);
    var g, h := s.groups[f], t.groups[f];
    forall c, i | Holds(t, c, f) && h.cursor <= i < |h.candidates| ensures h.candidates[i] != c {
      if !Holds(s, c, f) { assert c == g.candidates[h.cursor - 1]; } else { assert g.cursor <= i; }
    }
  }

  lemma AdvanceOneUsed(w: World, s: State, f: Filter)
    requires GroupsOk(w, s) && f in s.groups && BehindUsed(s, f)
    ensures BehindUsed(AdvanceOne(s, f), f)
  {
    AdvanceOneOthers(s, f);
    assert GroupOk(s.groups[f], w.shared[f].Keys);
    var t := AdvanceOne(s, f);
    var g, h := s.groups[f], t.groups[f];
    forall i | 0 <= i < h.cursor && i < |h.candidates| && !h.delivered
      ensures Holds(t, h.candidates[i], f) || (h.candidates[i] in t.attempted && h.candidates[i] !in t.accepted)
    {
      if i < g.cursor { assert Holds(s, g.candidates[i], f) || g.candidates[i] in s.attempted; }
    }
  }

  lemma AdvanceOneDelivered(w: World, s: State, f: Filter)
    requires f in s.groups && f in w.shared && DeliveredByAccepted(w, s, f)
    ensures DeliveredByAccepted(w, AdvanceOne(s, f), f)
  {
    AdvanceOneOthers(s, f);
    var t := AdvanceOne(s, f);
    if s.groups[f].delivered {
      var c :| c in s.accepted && (Holds(s, c, f) || c in s.groups[f].candidates);
      assert c in t.accepted && (Holds(t, c, f) || c in t.groups[f].candidates);
    } else if t.groups[f].delivered {
      var k := t.groups[f].cursor - 1;
      assert t.groups[f].candidates[k] in t.accepted;
    }
  }

  /** The other groups keep theirs. */
  lemma AdvanceOneKeepsFilter(w: World, s: State, f: Filter, h: Filter)
    requires f in s.groups && h in s.groups && h in w.shared && f != h && FilterInv(w, s, h)
    ensures FilterInv(w, AdvanceOne(s, f), h)
    ensures Idle(s, h) ==> Idle(AdvanceOne(s, f), h)
  {
    AdvanceOneOthers(s, f);
    var t := AdvanceOne(s, f);
    assert t.groups[h] == s.groups[h];
    if s.groups[h].delivered {
      var c :| c in s.accepted && (Holds(s, c, h) || c in s.groups[h].candidates);
      assert c in t.accepted && (Holds(t, c, h) || c in t.groups[h].candidates);
    }
  }

  /** Advancing all filters of a spent client restores the invariant. */
  lemma {:induction false} AdvanceAllInv(w: World, s: State, fs: seq<Filter>)
    requires Inv(w, s) && Distinct(fs)
    requires forall f :: f in fs ==> f in s.groups && Idle(s, f)
    ensures Inv(w, AdvanceAll(s, fs))
    decreases |fs|
  {
    if fs != [] {
      var f, t := fs[0], AdvanceOne(s, fs[0]);
      AdvanceOneFrame(w, s, f);
      forall h | h in w.shared ensures FilterInv(w, t, h) {
        if h == f { AdvanceOneFilter(w, s, f); } else { AdvanceOneKeepsFilter(w, s, f, h); }
      }
      forall h | h in fs[1..] ensures h in t.groups && Idle(t, h) {
        AdvanceOneKeepsFilter(w, s, f, h);
      }
      AdvanceAllInv(w, t, fs[1..]);
    }
  }

  // ---------------------------------------------------------------- steps

  ghost predicate StepPre(w: World, s: State) {
    Inv(w, s) && s.queue != []
  }

  lemma RecordedFilter(w: World, s: State, status: Status, log: seq<Attempt>, f: Filter)
    requires Inv(w, s) && s.queue != [] && f in w.shared && s.queue[0] !in s.attempted
    ensures FilterInv(w, Recorded(s, status, log), f)
    ensures Safe(status) && Holds(s, s.queue[0], f) ==> Idle(Recorded(s, status, log), f)
  {
    var t := Recorded(s, status, log);
    assert FilterInv(w, s, f);
    assert t.groups[f] == s.groups[f];
    assert forall c, h :: Holds(t, c, h) <==> Holds(s, c, h);
    assert forall c :: Spent(s, c) ==> Spent(t, c);
    if s.groups[f].delivered {
      var c :| c in s.accepted && (Holds(s, c, f) || c in s.groups[f].candidates);
      assert c in t.accepted && (Holds(t, c, f) || c in t.groups[f].candidates);
    }
  }

  lemma RecordedFrame(w: World, s: State, status: Status, log: seq<Attempt>)
    requires Frame(w, s) && s.queue != [] && status.Failed?
    ensures Frame(w, Recorded(s, status, log))
  {
    var t := Recorded(s, status, log);
    assert s.queue == [s.queue[0]] + s.queue[1..];
    assert forall c, h :: Holds(t, c, h) <==> Holds(s, c, h);
  }

  /** A failed attempt, safe or not. */
  lemma FailedStepInv(w: World, s: State, status: Status, log: seq<Attempt>)
    requires Inv(w, s) && s.queue != [] && s.queue[0] !in s.attempted && status.Failed?
    ensures Inv(w, Recorded(s, status, log))
    ensures Safe(status) ==> forall f :: Holds(s, s.queue[0], f) ==> Idle(Recorded(s, status, log), f)
  {
    RecordedFrame(w, s, status, log);
    forall f | f in w.shared ensures FilterInv(w, Recorded(s, status, log), f) {
      RecordedFilter(w, s, status, log, f);
    }
    if Safe(status) {
      forall f | Holds(s, s.queue[0], f) ensures Idle(Recorded(s, status, log), f) {
        RecordedFilter(w, s, status, log, f);
      }
    }
  }

  /** An accepted attempt: its planned groups become delivered. */
  lemma AcceptedStepInv(w: World, s: State, log: seq<Attempt>)
    requires Inv(w, s) && s.queue != [] && s.queue[0] !in s.attempted
    ensures var t := Recorded(s, Ok, log);
            Inv(w, t.(accepted := s.accepted + {s.queue[0]},
                      groups := MarkDelivered(s.groups, PlanOf(s.plan, s.queue[0]))))
  {
    var client := s.queue[0];
    var r := Recorded(s, Ok, log);
    var t := r.(accepted := s.accepted + {client}, groups := MarkDelivered(s.groups, PlanOf(s.plan, client)));
    assert s.queue == [client] + s.queue[1..];
    assert forall c, h :: Holds(t, c, h) <==> Holds(s, c, h);
    assert QueueOk(t);
    assert PlanOk(t);
    assert GroupsOk(w, t) by {
      forall f | f in t.groups ensures GroupOk(t.groups[f], w.shared[f].Keys) {
        assert GroupOk(s.groups[f], w.shared[f].Keys);
      }
    }
    forall f | f in w.shared ensures FilterInv(w, t, f) {
      RecordedFilter(w, s, Ok, log, f);
      AcceptedFilter(w, s, r, t, f);
    }
  }

  lemma AcceptedFilter(w: World, s: State, r: State, t: State, f: Filter)
    requires s.queue != [] && s.queue[0] !in s.attempted && f in w.shared && f in r.groups && FilterInv(w, r, f)
    requires r.groups == s.groups && r.plan == s.plan && r.accepted == s.accepted
    requires t == r.(accepted := s.accepted + {s.queue[0]}, groups := MarkDelivered(s.groups, PlanOf(s.plan, s.queue[0])))
    requires f in t.groups && forall c :: c in s.accepted <==> c in s.attempted && s.attempted[c].Ok?
    requires r.attempted == s.attempted[s.queue[0] := Ok]
    requires Inv(w, s)
    ensures FilterInv(w, t, f)
  {
    var client := s.queue[0];
    assert forall c, h :: Holds(t, c, h) <==> Holds(r, c, h);
    assert forall c :: Spent(t, c) <==> Spent(r, c);
    assert FilterInv(w, s, f);
    if r.groups[f].delivered {
      var c :| c in r.accepted && (Holds(r, c, f) || c in r.groups[f].candidates);
      assert c in t.accepted && (Holds(t, c, f) || c in t.groups[f].candidates);
    } else if t.groups[f].delivered {
      assert client in t.accepted && Holds(t, client, f);
    }
    var g := t.groups[f];
    forall i | 0 <= i < g.cursor && i < |g.candidates| && !g.delivered
      ensures Holds(t, g.candidates[i], f) || (g.candidates[i] in t.attempted && g.candidates[i] !in t.accepted)
    {
      assert Holds(s, g.candidates[i], f) || (g.candidates[i] in s.attempted && g.candidates[i] !in s.accepted);
    }
  }

  lemma StepInv(w: World, initial: Client, initialStatus: Status, s: State)
    requires StepPre(w, s)
    ensures PlanInGroups(w, s)
    ensures Inv(w, Step(w, initial, initialStatus, s))
  {
    var client := s.queue[0];
    assert PlanInGroups(w, s) by {
      forall c, f | c in s.plan && f in s.plan[c] ensures f in s.groups { assert Holds(s, c, f); }
    }
    assert client !in s.attempted;
    var fs := PlanOf(s.plan, client);
    var sub := EffectiveSub(w, client, fs);
    var status := OutcomeFor(w, initial, initialStatus, client, sub);
    var log := if client == initial then s.log else s.log + [Attempt(client, sub, status)];
    if status.Ok? {
      AcceptedStepInv(w, s, log);
    } else {
      FailedStepInv(w, s, status, log);
      if Safe(status) {
        forall f | f in fs ensures f in s.groups && Idle(Recorded(s, status, log), f) {
          assert Holds(s, client, f);
        }
        AdvanceAllInv(w, Recorded(s, status, log), fs);
      }
    }
  }

  // ---------------------------------------------------------------- termination and whole runs

  /** Every client the planner can ever queue. */
  function Universe(w: World): set<Client> {
    w.selected + set f, c | f in w.shared && c in w.shared[f] :: c
  }

  /** Queue length plus the clients never queued so far. */
  function Measure(w: World, s: State): nat {
    |s.queue| + |Universe(w) - s.queued|
  }

  lemma AdvanceOneMeasure(w: World, s: State, f: Filter)
    requires GroupsOk(w, s) && f in s.groups && s.queued <= Universe(w)
    ensures AdvanceOne(s, f).queued <= Universe(w)
    ensures Measure(w, AdvanceOne(s, f)) == Measure(w, s)
  {
    var t := AdvanceOne(s, f);
    assert GroupOk(s.groups[f], w.shared[f].Keys);
    if t.queued != s.queued {
      var next := t.queue[|s.queue|];
      assert next in w.shared[f];
      OneMore(Universe(w), s.queued, next);
    }
  }

  lemma OneMore(all: set<Client>, queued: set<Client>, next: Client)
    requires next in all && next !in queued
    ensures |all - (queued + {next})| == |all - queued| - 1
  {
    assert all - queued == (all - (queued + {next})) + {next};
  }

  lemma {:induction false} AdvanceAllMeasure(w: World, s: State, fs: seq<Filter>)
    requires GroupsOk(w, s) && s.queued <= Universe(w)
    requires forall f :: f in fs ==> f in s.groups
    ensures AdvanceAll(s, fs).queued <= Universe(w)
    ensures Measure(w, AdvanceAll(s, fs)) == Measure(w, s)
    decreases |fs|
  {
    if fs != [] {
      AdvanceOneGroups(w, s, fs[0]);
      AdvanceOneMeasure(w, s, fs[0]);
      AdvanceAllMeasure(w, AdvanceOne(s, fs[0]), fs[1..]);
    }
  }

  /** Recording the head's attempt takes it off the queue. */
  lemma RecordedMeasure(w: World, s: State, status: Status, log: seq<Attempt>)
    requires s.queue != []
    ensures Measure(w, Recorded(s, status, log)) == Measure(w, s) - 1
  {
  }

  lemma ConcludeMeasure(w: World, r: State, client: Client, fs: seq<Filter>, status: Status)
    requires GroupsOk(w, r) && r.queued <= Universe(w) && forall f :: f in fs ==> f in r.groups
    ensures Conclude(r, client, fs, status).queued <= Universe(w)
    ensures Measure(w, Conclude(r, client, fs, status)) == Measure(w, r)
  {
    if Safe(status) {
      AdvanceAllMeasure(w, r, fs);
    }
  }

  lemma StepMeasure(w: World, initial: Client, initialStatus: Status, s: State)
    requires s.queue != [] && s.queue[0] !in s.attempted && GroupsOk(w, s)
    requires s.queued <= Universe(w) && PlanInGroups(w, s)
    ensures Step(w, initial, initialStatus, s).queued <= Universe(w)
    ensures Measure(w, Step(w, initial, initialStatus, s)) < Measure(w, s)
  {
    var client := s.queue[0];
    var fs := PlanOf(s.plan, client);
    var sub := EffectiveSub(w, client, fs);
    var status := OutcomeFor(w, initial, initialStatus, client, sub);
    var log := if client == initial then s.log else s.log + [Attempt(client, sub, status)];
    RecordedMeasure(w, s, status, log);
    ConcludeMeasure(w, Recorded(s, status, log), client, fs, status);
  }

  ghost predicate Good(w: World, s: State) {
    Inv(w, s) && s.queued <= Universe(w)
  }

  /** What a good state says of one group. */
  lemma GoodAt(w: World, s: State, f: Filter)
    requires Good(w, s) && f in w.shared
    ensures f in s.groups && FilterInv(w, s, f) && GroupOk(s.groups[f], w.shared[f].Keys) && QueueOk(s)
  {
  }

  lemma StepGood(w: World, initial: Client, initialStatus: Status, s: State)
    requires Good(w, s) && s.queue != []
    ensures PlanInGroups(w, s)
    ensures Good(w, Step(w, initial, initialStatus, s))
    ensures Measure(w, Step(w, initial, initialStatus, s)) < Measure(w, s)
  {
    StepInv(w, initial, initialStatus, s);
    assert s.queue[0] in s.queue;
    StepMeasure(w, initial, initialStatus, s);
  }

  /** The worklist loop to exhaustion. */
  ghost function Run(w: World, initial: Client, initialStatus: Status, s: State): (t: State)
    requires Good(w, s)
    ensures Good(w, t) && t.queue == []
    decreases Measure(w, s)
  {
    if s.queue == [] then s
    else
      StepGood(w, initial, initialStatus, s);
      Run(w, initial, initialStatus, Step(w, initial, initialStatus, s))
  }

  // ---------------------------------------------------------------- the initial state

  lemma {:induction false} InitialPlanHolds(w: World, fs: seq<Filter>)
    requires Distinct(fs)
    ensures forall c :: c in InitialPlan(w, fs) ==> Distinct(InitialPlan(w, fs)[c])
    ensures forall c, f :: Lists(InitialPlan(w, fs), c, f) <==> f in fs && Selected(w, f) == c
    decreases |fs|
  {
    if fs != [] {
      var rest, f := fs[..|fs| - 1], fs[|fs| - 1];
      assert fs == rest + [f];
      InitialPlanHolds(w, rest);
      var p, q, c := InitialPlan(w, rest), InitialPlan(w, fs), Selected(w, f);
      assert q == p[c := PlanOf(p, c) + [f]];
      assert !Lists(p, c, f);
      forall d, h ensures Lists(q, d, h) <==> h in fs && Selected(w, h) == d {
        assert h in fs <==> h in rest || h == f;
        assert Lists(q, d, h) <==> Lists(p, d, h) || (d == c && h == f);
      }
    }
  }

  lemma CandidatesEnumerate(order: seq<Client>, chosen: Client, members: set<Client>)
    requires Enumerates(order, members)
    ensures Enumerates(Candidates(order, chosen), members)
    ensures chosen in members ==> |order| > 0 && Candidates(order, chosen)[0] == chosen
  {
    var k := IndexOf(order, chosen);
    var cs := Candidates(order, chosen);
    if k < |order| {
      assert cs[0] == order[k] && (k > 0 ==> cs[k] == order[0]);
      assert forall i :: 0 < i < |order| && i != k ==> cs[i] == order[i];
      forall x ensures x in cs <==> x in order {
        if x in order {
          var i :| 0 <= i < |order| && order[i] == x;
          assert cs[if i == k then 0 else if i == 0 then k else i] == x;
        }
      }
    }
  }

  lemma InitialHolds(w: World)
    requires ValidOrders(w)
    ensures PlanOk(Initial(w))
    ensures forall c, f :: Holds(Initial(w), c, f) <==> f in w.shared && c == Selected(w, f)
  {
    InitialPlanHolds(w, w.filterOrder);
  }

  lemma InitialGroupsOk(w: World)
    requires ValidOrders(w)
    ensures GroupsOk(w, Initial(w))
  {
    forall f | f in w.shared ensures GroupOk(Initial(w).groups[f], w.shared[f].Keys) {
      CandidatesEnumerate(w.memberOrder[f], Selected(w, f), w.shared[f].Keys);
    }
  }

  lemma InitialFrame(w: World)
    requires ValidOrders(w)
    ensures Frame(w, Initial(w))
  {
    InitialHolds(w);
    InitialGroupsOk(w);
  }

  lemma InitialGood(w: World)
    requires ValidOrders(w)
    ensures Good(w, Initial(w))
  {
    InitialFrame(w);
    InitialHolds(w);
    forall f | f in w.shared ensures FilterInv(w, Initial(w), f) {
      InitialFilter(w, Initial(w), f);
    }
  }

  lemma InitialFilter(w: World, s: State, f: Filter)
    requires ValidOrders(w) && f in w.shared && s == Initial(w)
    requires Frame(w, s) && forall c, h :: Holds(s, c, h) <==> h in w.shared && c == Selected(w, h)
    ensures FilterInv(w, s, f)
  {
    assert GroupOk(s.groups[f], w.shared[f].Keys);
    CandidatesEnumerate(w.memberOrder[f], Selected(w, f), w.shared[f].Keys);
  }
}
