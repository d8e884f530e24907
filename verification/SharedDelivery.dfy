/**
 The publish path's imperative code around shared subscriptions: selection,
 the fallback worklist with its mutable maps, the fast path, and the publish that
 skips ordinary delivery to every client the shared path already dealt with.
 */
module SharedDelivery {
  import opened DeliveryStatus
  import opened Subscriptions
  import opened SharedPlanner
  import opened SharedPlannerSafety
  import opened SharedPlannerTheorems
  import opened SharedAttempts
  import opened SharedFastPath

  /** One run of Go's `range` over a map's keys: any order, each key once. */
  method Range<T(==,!new)>(keys: set<T>) returns (order: seq<T>)
    ensures Enumerates(order, keys)
  {
    order := [];
    var rest := keys;
    while rest != {}
      invariant rest <= keys
      invariant Distinct(order)
      invariant forall x :: x in order <==> x in keys && x !in rest
      decreases rest
    {
      var x :| x in rest;
      rest := rest - {x};
      order := order + [x];
    }
  }

  /** A client's subscriptions in the groups it was chosen for. */
  ghost function ChosenSubs(shared: map<Filter, map<Client, Subscription>>, groups: map<Filter, Client>, c: Client): set<Subscription> {
    set f | f in groups && groups[f] == c && f in shared && c in shared[f] :: shared[f][c]
  }

  /** Each selected client carries the merge of the subscriptions it was chosen for. */
  ghost predicate SelectedMerged(selected: map<Client, Subscription>, shared: map<Filter, map<Client, Subscription>>, groups: map<Filter, Client>) {
    forall c :: c in selected ==> Combines(selected[c], ChosenSubs(shared, groups, c))
  }

  /** One client's part of choosing c for f. */
  lemma SelectedMore(selected: map<Client, Subscription>, shared: map<Filter, map<Client, Subscription>>,
                     groups: map<Filter, Client>, f: Filter, c: Client, d: Client)
    requires f !in groups && f in shared && c in shared[f] && (forall g :: g in groups ==> groups[g] in selected)
    requires d in selected ==> Combines(selected[d], ChosenSubs(shared, groups, d))
    ensures var cls := if c in selected then selected[c] else shared[f][c];
            var after := selected[c := Merge(cls, shared[f][c])];
            d in after ==> Combines(after[d], ChosenSubs(shared, groups[f := c], d))
  {
    var sub, chosen := shared[f][c], ChosenSubs(shared, groups, d);
    ChosenMore(shared, groups, f, c, d);
    if d != c {
      assert chosen + {} == chosen;
    } else if c in selected {
      CombinesMore(selected[c], chosen, sub);
    } else {
      CombinesOne(sub);
      assert chosen == {} && {} + {sub} == {sub};
    }
  }

  lemma ChosenMore(shared: map<Filter, map<Client, Subscription>>, groups: map<Filter, Client>, f: Filter, c: Client, d: Client)
    requires f !in groups && f in shared && c in shared[f]
    ensures ChosenSubs(shared, groups[f := c], d) == ChosenSubs(shared, groups, d) + if d == c then {shared[f][c]} else {}
  {
    var groups' := groups[f := c];
    forall s | s in ChosenSubs(shared, groups, d) ensures s in ChosenSubs(shared, groups', d) {
      var g :| g in groups && groups[g] == d && g in shared && d in shared[g] && s == shared[g][d];
      assert g in groups' && groups'[g] == d;
    }
    if d == c { assert f in groups' && groups'[f] == c; }
  }

  /** Every seen group with a member has chosen one, and nobody else is selected. */
  ghost predicate ChoicesOk(shared: map<Filter, map<Client, Subscription>>, seen: set<Filter>, selected: set<Client>, groups: map<Filter, Client>) {
    && (forall f :: f in groups <==> f in seen && f in shared && shared[f] != map[])
    && (forall f :: f in groups ==> groups[f] in shared[f] && groups[f] in selected)
    && (forall c :: c in selected ==> ChosenForSome(groups, c))
  }

  ghost predicate ChosenForSome(groups: map<Filter, Client>, c: Client) {
    exists f :: f in groups && groups[f] == c
  }

  lemma ChoicesMore(shared: map<Filter, map<Client, Subscription>>, seen: set<Filter>, selected: set<Client>, groups: map<Filter, Client>, f: Filter, c: Client)
    requires ChoicesOk(shared, seen, selected, groups) && f !in seen && f in shared && c in shared[f]
    ensures ChoicesOk(shared, seen + {f}, selected + {c}, groups[f := c])
  {
    var groups' := groups[f := c];
    assert shared[f] != map[];
    forall d | d in selected + {c} ensures ChosenForSome(groups', d) {
      if d == c {
        assert f in groups' && groups'[f] == c;
      } else {
        assert ChosenForSome(groups, d);
        var g :| g in groups && groups[g] == d;
        assert g in groups' && groups'[g] == d;
      }
    }
  }

  lemma ChoicesSkip(shared: map<Filter, map<Client, Subscription>>, seen: set<Filter>, selected: set<Client>, groups: map<Filter, Client>, f: Filter)
    requires ChoicesOk(shared, seen, selected, groups) && f in shared && shared[f] == map[]
    ensures ChoicesOk(shared, seen + {f}, selected, groups)
  {
  }

  lemma ChosenIffAny(shared: map<Filter, map<Client, Subscription>>, selected: set<Client>, groups: map<Filter, Client>)
    requires ChoicesOk(shared, shared.Keys, selected, groups)
    ensures AnyMember(shared) <==> |groups| > 0
  {
    if AnyMember(shared) {
      var f :| f in shared && shared[f] != map[];
      assert f in groups;
    }
    if |groups| > 0 {
      var f :| f in groups;
      assert f in shared && shared[f] != map[];
    }
  }

  lemma MergedMore(shared: map<Filter, map<Client, Subscription>>, selected: map<Client, Subscription>, groups: map<Filter, Client>, f: Filter, c: Client)
    requires SelectedMerged(selected, shared, groups) && (forall g :: g in groups ==> groups[g] in selected)
    requires f !in groups && f in shared && c in shared[f]
    ensures var cls := if c in selected then selected[c] else shared[f][c];
            SelectedMerged(selected[c := Merge(cls, shared[f][c])], shared, groups[f := c])
  {
    var cls := if c in selected then selected[c] else shared[f][c];
    var after := selected[c := Merge(cls, shared[f][c])];
    forall d | d in after ensures Combines(after[d], ChosenSubs(shared, groups[f := c], d)) {
      SelectedMore(selected, shared, groups, f, c, d);
    }
  }

  ghost predicate SelectionOk(shared: map<Filter, map<Client, Subscription>>, seen: set<Filter>,
                              selected: map<Client, Subscription>, groups: map<Filter, Client>) {
    ChoicesOk(shared, seen, selected.Keys, groups) && SelectedMerged(selected, shared, groups)
  }

  lemma SelectionMore(shared: map<Filter, map<Client, Subscription>>, seen: set<Filter>, selected: map<Client, Subscription>,
                      groups: map<Filter, Client>, f: Filter, c: Client)
    requires SelectionOk(shared, seen, selected, groups) && f in shared && f !in seen && c in shared[f]
    ensures var cls := if c in selected then selected[c] else shared[f][c];
            SelectionOk(shared, seen + {f}, selected[c := Merge(cls, shared[f][c])], groups[f := c])
  {
    var cls := if c in selected then selected[c] else shared[f][c];
    assert selected[c := Merge(cls, shared[f][c])].Keys == selected.Keys + {c};
    ChoicesMore(shared, seen, selected.Keys, groups, f, c);
    MergedMore(shared, selected, groups, f, c);
  }

  /** One group's turn: any member, merged into what it was already selected with. */
  method Choose(shared: map<Filter, map<Client, Subscription>>, f: Filter, selected: map<Client, Subscription>,
                groups: map<Filter, Client>, ghost seen: set<Filter>)
    returns (selected': map<Client, Subscription>, groups': map<Filter, Client>)
    requires SelectionOk(shared, seen, selected, groups) && f in shared && f !in seen
    ensures SelectionOk(shared, seen + {f}, selected', groups')
  {
    selected', groups' := selected, groups;
    if shared[f] != map[] {
      var client :| client in shared[f];
      var cls := if client in selected then selected[client] else shared[f][client];
      SelectionMore(shared, seen, selected, groups, f, client);
      groups' := groups[f := client];
      selected' := selected[client := Merge(cls, shared[f][client])];
    } else {
      ChoicesSkip(shared, seen, selected.Keys, groups, f);
    }
  }

  /** Subscribers.SelectShared: one member per non-empty group. */
  method SelectShared(shared: map<Filter, map<Client, Subscription>>)
    returns (selected: map<Client, Subscription>, groups: map<Filter, Client>)
    ensures SelectionOk(shared, shared.Keys, selected, groups)
  {
    selected, groups := map[], map[];
    ghost var seen: set<Filter> := {};
    var rest := shared.Keys;
    while rest != {}
      invariant rest !! seen && rest + seen == shared.Keys && SelectionOk(shared, seen, selected, groups)
      decreases rest
    {
      var f :| f in rest;
      rest := rest - {f};
      selected, groups := Choose(shared, f, selected, groups, seen);
      seen := seen + {f};
    }
    assert seen == shared.Keys;
  }

  /** The candidate list of one group, with the selected member swapped to the front. */
  method BuildGroup(w: World, f: Filter) returns (g: Group)
    requires f in w.memberOrder && Distinct(w.memberOrder[f])
    ensures g == InitialGroup(w, f)
  {
    var order, chosen := w.memberOrder[f], Selected(w, f);
    var candidates: seq<Client> := [];
    var selectedIndex: int := -1;
    for i := 0 to |order|
      invariant candidates == order[..i]
      invariant -1 <= selectedIndex < i
      invariant selectedIndex == -1 ==> chosen !in order[..i]
      invariant selectedIndex >= 0 ==> order[selectedIndex] == chosen
    {
      candidates := candidates + [order[i]];
      assert candidates == order[..i + 1];
      if order[i] == chosen { selectedIndex := |candidates| - 1; }
    }
    assert candidates == order;
    IndexUnique(order, chosen, selectedIndex);
    if selectedIndex > 0 {
      candidates := candidates[selectedIndex := candidates[0]][0 := candidates[selectedIndex]];
      selectedIndex := 0;
    }
    g := Group(candidates, if selectedIndex == 0 then 1 else 0, false);
  }

  lemma IndexUnique(order: seq<Client>, c: Client, k: int)
    requires Distinct(order) && -1 <= k < |order|
    requires k == -1 ==> c !in order
    requires k >= 0 ==> order[k] == c
    ensures k == -1 ==> IndexOf(order, c) == |order|
    ensures k >= 0 ==> IndexOf(order, c) == k
  {
  }

  method MergePlanned(w: World, c: Client, fs: seq<Filter>) returns (sub: Subscription)
    requires forall f :: f in fs ==> f in w.shared
    ensures sub == EffectiveSub(w, c, fs)
  {
    var exists_ := c in w.subscriptions;
    sub := if exists_ then w.subscriptions[c] else NO_SUBSCRIPTION;
    for i := 0 to |fs|
      invariant MergeFilters(w, c, sub, exists_, fs[i..]) == EffectiveSub(w, c, fs)
    {
      assert fs[i..][1..] == fs[i + 1..];
      if c in w.shared[fs[i]] {
        sub := if exists_ then Merge(sub, w.shared[fs[i]][c]) else w.shared[fs[i]][c];
        exists_ := true;
      }
    }
  }

  /** The fallback loop over the filters of a client whose attempt failed safely. */
  method FallBack(s: State, fs: seq<Filter>) returns (t: State)
    requires forall f :: f in fs ==> f in s.groups
    ensures t == AdvanceAll(s, fs)
  {
    t := s;
    for i := 0 to |fs|
      invariant t.groups.Keys == s.groups.Keys
      invariant AdvanceAll(t, fs[i..]) == AdvanceAll(s, fs)
    {
      var f := fs[i];
      assert fs[i..][1..] == fs[i + 1..];
      t := AdvanceCursor(t, f);
    }
  }

  /** The inner loop: walk the cursor until a candidate is planned, found accepted, or none is left. */
  method AdvanceCursor(s: State, f: Filter) returns (t: State)
    requires f in s.groups
    ensures t == AdvanceOne(s, f)
  {
    t := s;
    var g := s.groups[f];
    var cursor := g.cursor;
    while cursor < |g.candidates|
      invariant NextUsable(g.candidates, cursor, s.attempted.Keys, s.accepted) == NextUsable(g.candidates, g.cursor, s.attempted.Keys, s.accepted)
    {
      var next := g.candidates[cursor];
      if next in s.accepted {
        return s.(groups := s.groups[f := g.(cursor := cursor + 1, delivered := true)]);
      }
      if next in s.attempted {
        cursor := cursor + 1;
        continue;
      }
      t := s.(groups := s.groups[f := g.(cursor := cursor + 1)], plan := s.plan[next := PlanOf(s.plan, next) + [f]]);
      if next !in s.queued {
        t := t.(queued := s.queued + {next}, queue := s.queue + [next]);
      }
      return;
    }
    t := s.(groups := s.groups[f := g.(cursor := cursor)]);
  }

  lemma GroupsSnoc(w: World, fs: seq<Filter>, f: Filter)
    requires forall g :: g in fs + [f] ==> g in w.memberOrder
    ensures forall g :: g in fs ==> g in w.memberOrder
    ensures f in w.memberOrder && InitialGroups(w, fs + [f]) == InitialGroups(w, fs)[f := InitialGroup(w, f)]
  {
    assert f in fs + [f];
    forall g | g in fs ensures g in w.memberOrder { assert g in fs + [f]; }
  }

  lemma PlanSnoc(w: World, fs: seq<Filter>, f: Filter)
    ensures InitialPlan(w, fs + [f]) == InitialPlan(w, fs)[Selected(w, f) := PlanOf(InitialPlan(w, fs), Selected(w, f)) + [f]]
  {
    assert (fs + [f])[..|fs|] == fs;
  }

  /** The groups and the plan over the filters in order. */
  method BuildGroups(w: World, fs: seq<Filter>) returns (groups: map<Filter, Group>, plan: map<Client, seq<Filter>>)
    requires forall f :: f in fs ==> f in w.memberOrder && Distinct(w.memberOrder[f])
    ensures groups == InitialGroups(w, fs) && plan == InitialPlan(w, fs)
  {
    groups, plan := map[], map[];
    for i := 0 to |fs|
      invariant groups == InitialGroups(w, fs[..i]) && plan == InitialPlan(w, fs[..i])
    {
      var f := fs[i];
      assert fs[..i + 1] == fs[..i] + [f];
      GroupsSnoc(w, fs[..i], f);
      PlanSnoc(w, fs[..i], f);
      var g := BuildGroup(w, f);
      groups := groups[f := g];
      plan := plan[Selected(w, f) := PlanOf(plan, Selected(w, f)) + [f]];
    }
    assert fs[..|fs|] == fs;
  }

  /** The planner's variables before the first attempt. */
  method BuildPlan(w: World) returns (s: State)
    requires ValidOrders(w)
    ensures s == Initial(w)
  {
    var groups, plan := BuildGroups(w, w.filterOrder);
    s := State(groups, plan, map[], {}, (set c | c in w.queueOrder), w.queueOrder, []);
  }

  /** publishSharedWithFallback: returns the planner's final variables. */
  method PublishSharedWithFallback(w: World, initial: Client, initialStatus: Status) returns (s: State)
    requires ValidOrders(w)
    ensures s == Final(w, initial, initialStatus)
  {
    s := BuildPlan(w);
    InitialGood(w);
    while |s.queue| > 0
      invariant Good(w, s)
      invariant Run(w, initial, initialStatus, s) == Final(w, initial, initialStatus)
      decreases Measure(w, s)
    {
      StepGood(w, initial, initialStatus, s);
      s := PlannerStep(w, initial, initialStatus, s);
    }
  }

  /** One turn of the worklist loop. */
  method PlannerStep(w: World, initial: Client, initialStatus: Status, s: State) returns (t: State)
    requires s.queue != [] && PlanInGroups(w, s)
    ensures t == Step(w, initial, initialStatus, s)
  {
    var client := s.queue[0];
    t := s.(queue := s.queue[1..]);
    if client in s.attempted { return; }
    var fs := PlanOf(s.plan, client);
    var sub := MergePlanned(w, client, fs);
    var status: Status;
    if client == initial {
      status := initialStatus;
      t := t.(attempted := s.attempted[client := status]);
    } else {
      status := w.attempt(client, sub);
      t := t.(attempted := s.attempted[client := status], log := s.log + [Attempt(client, sub, status)]);
    }
    if status.Ok? {
      var marked := s.groups;
      for i := 0 to |fs|
        invariant marked == MarkDelivered(s.groups, fs[..i])
      {
        assert fs[..i + 1] == fs[..i] + [fs[i]];
        marked := marked[fs[i] := marked[fs[i]].(delivered := true)];
      }
      assert fs[..|fs|] == fs;
      t := t.(accepted := s.accepted + {client}, groups := marked);
      return;
    }
    if !IsSafeFailure(status.error) { return; }
    t := FallBack(t, fs);
  }

  /** publishSharedToSubscribers: the fast path when one client serves every group, else the planner. */
  method PublishSharedToSubscribers(w: World) returns (d: Delivery)
    requires ValidOrders(w) && "" !in Universe(w) && KeyedByFilter(w.shared)
    ensures d == General(w)
  {
    if |w.selected| == 1 && |w.selectedGroups| == |w.shared| {
      var client :| client in w.selected;
      OneElement(w.selected, client);
      var allSelected := |w.shared| > 0;
      var order := Range(w.selectedGroups.Keys);
      for i := 0 to |order|
        invariant allSelected ==> |w.shared| > 0 && forall f :: f in order[..i] ==>
                                    w.selectedGroups[f] == client && f in w.shared && client in w.shared[f]
      {
        var f := order[i];
        if w.selectedGroups[f] != client || f !in w.shared || client !in w.shared[f] {
          allSelected := false;
          break;
        }
      }
      if allSelected && client in w.subscriptions {
        assert order[..|order|] == order;
        assert FastApplies(w, client);
        d := PublishFast(w, client);
        return;
      }
    }
    var s := PublishSharedWithFallback(w, "", Ok);
    d := Delivery(s.attempted.Keys, s.log);
  }

  lemma OneElement(s: set<Client>, c: Client)
    requires c in s && |s| == 1
    ensures s == {c}
  {
    assert |s - {c}| == 0;
  }

  /** The fast path's merge over every selected group, in an order of its own. */
  method FastSub(w: World, client: Client, order: seq<Filter>) returns (sub: Subscription)
    requires FastApplies(w, client) && forall f :: f in order ==> f in w.shared
    ensures sub == MergeFilters(w, client, w.subscriptions[client], true, order)
  {
    sub := w.subscriptions[client];
    for i := 0 to |order|
      invariant MergeFilters(w, client, sub, true, order[i..])
             == MergeFilters(w, client, w.subscriptions[client], true, order)
    {
      FastPlanMember(w, client, order[i]);
      assert order[i..][1..] == order[i + 1..];
      sub := Merge(sub, w.shared[order[i]][client]);
    }
  }

  method PublishFast(w: World, client: Client) returns (d: Delivery)
    requires ValidOrders(w) && FastApplies(w, client) && KeyedByFilter(w.shared) && "" !in Universe(w)
    ensures d == General(w)
  {
    var order := Range(w.selectedGroups.Keys);
    FastPathRefines(w, client, order);
    var sub := FastSub(w, client, order);
    var status := w.attempt(client, sub);
    if status.Ok? || !IsSafeFailure(status.error) {
      return Delivery({client}, [Attempt(client, sub, status)]);
    }
    var s := PublishSharedWithFallback(w, client, status);
    d := Delivery(s.attempted.Keys, [Attempt(client, sub, status)] + s.log);
  }

  lemma FastPlanMember(w: World, c: Client, f: Filter)
    requires FastApplies(w, c) && f in w.shared
    ensures c in w.shared[f]
  {
    SubsetSameSize(w.selectedGroups.Keys, w.shared.Keys);
    assert f in w.selectedGroups.Keys;
  }

  /** The client belongs to some shared group. */
  ghost predicate Member(shared: map<Filter, map<Client, Subscription>>, c: Client) {
    exists f :: f in shared && c in shared[f]
  }

  /** Each selected client's subscription merged into its ordinary one, or into itself. */
  function MergedSelected(subscriptions: map<Client, Subscription>, selected: map<Client, Subscription>): map<Client, Subscription> {
    map c | c in subscriptions.Keys + selected.Keys ::
      if c !in selected then subscriptions[c]
      else Merge(if c in subscriptions then subscriptions[c] else selected[c], selected[c])
  }

  /** Subscribers.MergeSharedSelected: selected clients also appear among the ordinary ones. */
  method MergeSharedSelected(subscriptions: map<Client, Subscription>, selected: map<Client, Subscription>)
    returns (merged: map<Client, Subscription>)
    ensures merged == MergedSelected(subscriptions, selected)
  {
    merged := subscriptions;
    var rest := selected.Keys;
    while rest != {}
      invariant rest <= selected.Keys
      invariant merged.Keys == subscriptions.Keys + (selected.Keys - rest)
      invariant forall c :: c in merged ==>
                  merged[c] == if c in rest || c !in selected then subscriptions[c]
                               else Merge(if c in subscriptions then subscriptions[c] else selected[c], selected[c])
      decreases rest
    {
      var c :| c in rest;
      rest := rest - {c};
      var cls := if c in merged then merged[c] else selected[c];
      merged := merged[c := Merge(cls, selected[c])];
    }
  }

  // ---------------------------------------------------------------- one publish

  /** A publish tried on a client, with the subscription it is made for. */
  datatype Call = Call(client: Client, sub: Subscription)

  ghost predicate Called(calls: seq<Call>, c: Client) {
    exists i :: 0 <= i < |calls| && calls[i].client == c
  }

  ghost predicate CalledOnce(calls: seq<Call>) {
    forall i, j :: 0 <= i < j < |calls| ==> calls[i].client != calls[j].client
  }

  /** These clients were called, once each. */
  ghost predicate CalledExactly(calls: seq<Call>, clients: set<Client>) {
    CalledOnce(calls) && forall c :: Called(calls, c) <==> c in clients
  }

  lemma CalledMore(calls: seq<Call>, call: Call)
    ensures forall c :: Called(calls + [call], c) <==> Called(calls, c) || c == call.client
    ensures CalledOnce(calls) && !Called(calls, call.client) ==> CalledOnce(calls + [call])
  {
    var all := calls + [call];
    assert all[|calls|] == call;
    forall c | Called(calls, c) ensures Called(all, c) {
      var i :| 0 <= i < |calls| && calls[i].client == c;
      assert all[i].client == c;
    }
  }

  /** From position n on: a known client that the shared path has not dealt with, and its entry. */
  ghost predicate OrdinaryFrom(calls: seq<Call>, n: int, subs: map<Client, Subscription>, known: set<Client>, clients: set<Client>)
    requires 0 <= n
  {
    forall i :: n <= i < |calls| ==>
      && calls[i].client in subs && calls[i].client in known && calls[i].client !in clients
      && calls[i].sub == subs[calls[i].client]
  }

  /** The ordinary loop: every known matching client the shared path has not dealt with. */
  method PublishOrdinary(merged: map<Client, Subscription>, known: set<Client>, clients: set<Client>, shared: seq<Call>)
    returns (calls: seq<Call>)
    requires CalledExactly(shared, clients)
    ensures CalledOnce(calls) && shared <= calls && OrdinaryFrom(calls, |shared|, merged, known, clients)
    ensures forall c :: c in merged && c in known ==> Called(calls, c)
  {
    calls := shared;
    var rest := merged.Keys;
    while rest != {}
      invariant rest <= merged.Keys && shared <= calls && CalledOnce(calls)
      invariant OrdinaryFrom(calls, |shared|, merged, known, clients)
      invariant forall c :: Called(calls, c) <==> c in clients || (c in merged && c !in rest && c in known)
      decreases rest
    {
      var id :| id in rest;
      rest := rest - {id};
      if id !in clients && id in known {
        CalledMore(calls, Call(id, merged[id]));
        calls := calls + [Call(id, merged[id])];
      }
    }
  }

  /** The world of one publish: these groups, some order, and a selection SelectShared made. */
  ghost predicate WorldOf(w: World, shared: map<Filter, map<Client, Subscription>>, attempt: (Client, Subscription) -> Status) {
    && w.shared == shared && w.attempt == attempt
    && ValidOrders(w) && ConsistentSelection(w) && "" !in Universe(w)
  }

  /** The calls start with the planner's attempts, in order. */
  ghost predicate StartsWith(calls: seq<Call>, log: seq<Attempt>) {
    |log| <= |calls| && forall i :: 0 <= i < |log| ==> calls[i] == Call(log[i].client, log[i].sub)
  }

  /** A shared call carries the client's ordinary subscription with those of its groups merged in; without an
      ordinary one, the merge of its groups', a single group's unchanged unless it was the selected member. */
  ghost predicate CarriesGroups(call: Call, shared: map<Filter, map<Client, Subscription>>, subscriptions: map<Client, Subscription>,
                                selected: set<Client>, fs: seq<Filter>) {
    var c, groups := call.client, GroupSubs(shared, call.client, fs);
    && groups != {}
    && (if c in subscriptions then MergedOnto(call.sub, subscriptions[c], groups) && call.sub.identifiers != map[]
        else if c in selected then Combines(call.sub, groups)
        else FromGroups(call.sub, shared, c, fs))
  }

  /** How the shared part of the publish ended: the planner ran on exactly these groups; every attempt carried the
      subscriptions of the groups planned for its client; every group is delivered, stopped on an ambiguous
      member, or exhausted. */
  ghost predicate SharedOutcome(w: World, shared: map<Filter, map<Client, Subscription>>, subscriptions: map<Client, Subscription>,
                                attempt: (Client, Subscription) -> Status, calls: seq<Call>) {
    && WorldOf(w, shared, attempt)
    && var t := Final(w, "", Ok);
    && StartsWith(calls, t.log)
    && (forall i :: 0 <= i < |t.log| ==> AttemptGoes(w, t, subscriptions, t.log[i]))
    && (forall f :: f in shared ==> f in t.groups && Settled(w, t, f))
  }

  ghost predicate AttemptGoes(w: World, t: State, subscriptions: map<Client, Subscription>, a: Attempt) {
    && a.status == w.attempt(a.client, a.sub)
    && CarriesGroups(Call(a.client, a.sub), w.shared, subscriptions, w.selected, PlanOf(t.plan, a.client))
  }

  /** How many calls the shared part made. */
  ghost function SharedCalls(w: World): nat {
    if AnyMember(w.shared) && ValidOrders(w) then |Final(w, "", Ok).log| else 0
  }

  /** Stands in when no planner runs. */
  function NoWorld(shared: map<Filter, map<Client, Subscription>>, attempt: (Client, Subscription) -> Status): World {
    World(shared, {}, map[], map[], [], map[], [], attempt)
  }

  /** Some group has a member. */
  ghost predicate AnyMember(shared: map<Filter, map<Client, Subscription>>) {
    exists f :: f in shared && shared[f] != map[]
  }

  /** One publish: nobody is called twice; the shared groups come first and are settled; then every known ordinary
      subscriber not among them is called, with exactly its own subscription. */
  ghost predicate Published(w: World, shared: map<Filter, map<Client, Subscription>>, subscriptions: map<Client, Subscription>,
                            known: set<Client>, attempt: (Client, Subscription) -> Status, calls: seq<Call>) {
    && CalledOnce(calls) && w.shared == shared
    && (AnyMember(shared) ==> SharedOutcome(w, shared, subscriptions, attempt, calls))
    && OrdinaryFrom(calls, SharedCalls(w), subscriptions, known, {})
    && (forall c :: c in subscriptions && c in known ==> Called(calls, c))
  }

  /** Each inline subscription's handler ran once, with that subscription. */
  ghost predicate HandledAll(handled: seq<(int, Subscription)>, inline: map<int, Subscription>) {
    Distinct(handled) && forall id, sub :: (id, sub) in handled <==> id in inline && inline[id] == sub
  }

  method RunHandlers(inline: map<int, Subscription>) returns (handled: seq<(int, Subscription)>)
    ensures HandledAll(handled, inline)
  {
    handled := [];
    var order := Range(inline.Keys);
    for i := 0 to |order|
      invariant Distinct(handled)
      invariant forall id, sub :: (id, sub) in handled <==> id in order[..i] && id in inline && inline[id] == sub
    {
      assert forall id :: id in order[..i + 1] <==> id in order[..i] || id == order[i];
      assert order[i] !in order[..i];
      handled := handled + [(order[i], inline[order[i]])];
    }
    assert order[..|order|] == order;
  }

  /**
   publishToSubscribers after the selection hook: shared groups first, then the inline handlers, then
   every other matching client that is known. `calls` lists the publishes tried, `handled` the inline
   subscriptions whose handler ran.
   */
  method PublishToSubscribers(shared: map<Filter, map<Client, Subscription>>, subscriptions: map<Client, Subscription>,
                              inline: map<int, Subscription>, known: set<Client>, attempt: (Client, Subscription) -> Status)
    returns (calls: seq<Call>, handled: seq<(int, Subscription)>, w: World)
    requires KeyedByFilter(shared) && forall f :: f in shared ==> "" !in shared[f]
    ensures Published(w, shared, subscriptions, known, attempt, calls) && HandledAll(handled, inline)
  {
    var merged, first, clients;
    merged, first, clients, w := SharedStage(shared, subscriptions, attempt);
    handled := RunHandlers(inline);
    calls := PublishOrdinary(merged, known, clients, first);
    if AnyMember(shared) { OutcomeKept(w, shared, subscriptions, attempt, first, calls); }
  }

  /** Selection and shared delivery. A client it did not call has no other entry than its ordinary one. */
  method SharedStage(shared: map<Filter, map<Client, Subscription>>, subscriptions: map<Client, Subscription>,
                     attempt: (Client, Subscription) -> Status)
    returns (merged: map<Client, Subscription>, first: seq<Call>, clients: set<Client>, w: World)
    requires KeyedByFilter(shared) && forall f :: f in shared ==> "" !in shared[f]
    ensures CalledExactly(first, clients) && |first| == SharedCalls(w)
    ensures OthersKept(merged, subscriptions, clients)
    ensures w.shared == shared && (AnyMember(shared) ==> SharedOutcome(w, shared, subscriptions, attempt, first))
  {
    w := NoWorld(shared, attempt);
    merged, first, clients := subscriptions, [], {};
    if shared != map[] {
      var selected, groups := SelectShared(shared);
      ChosenIffAny(shared, selected.Keys, groups);
      merged := MergeSharedSelected(subscriptions, selected);
      if |groups| > 0 {
        w := BuildWorld(shared, selected, groups, merged, attempt);
        first, clients := RunPlanner(w, subscriptions, selected);
      } else {
        NobodySelected(selected, groups);
      }
    }
  }

  /** Apart from the clients the shared path dealt with, the entries are the ordinary ones. */
  ghost predicate OthersKept(merged: map<Client, Subscription>, subscriptions: map<Client, Subscription>, clients: set<Client>) {
    && subscriptions.Keys <= merged.Keys
    && forall c :: c in merged && c !in clients ==> c in subscriptions && merged[c] == subscriptions[c]
  }

  lemma NobodySelected(selected: map<Client, Subscription>, groups: map<Filter, Client>)
    requires groups == map[] && forall c :: c in selected ==> ChosenForSome(groups, c)
    ensures selected == map[]
  {
    assert forall c :: !ChosenForSome(groups, c);
  }

  lemma SelectedAreMembers(shared: map<Filter, map<Client, Subscription>>, selected: set<Client>, groups: map<Filter, Client>)
    requires ChoicesOk(shared, shared.Keys, selected, groups)
    ensures forall c :: c in selected ==> Member(shared, c)
  {
    forall c | c in selected ensures Member(shared, c) {
      assert ChosenForSome(groups, c);
      var f :| f in groups && groups[f] == c;
      assert f in shared && c in shared[f];
    }
  }

  /** Iteration orders for every group. */
  method MemberOrders(shared: map<Filter, map<Client, Subscription>>)
    returns (filterOrder: seq<Filter>, memberOrder: map<Filter, seq<Client>>)
    ensures Enumerates(filterOrder, shared.Keys) && memberOrder.Keys == shared.Keys
    ensures forall f :: f in shared ==> Enumerates(memberOrder[f], shared[f].Keys)
  {
    filterOrder := Range(shared.Keys);
    memberOrder := map[];
    for i := 0 to |filterOrder|
      invariant memberOrder.Keys == set f | f in filterOrder[..i]
      invariant forall f :: f in memberOrder ==> f in shared && Enumerates(memberOrder[f], shared[f].Keys)
    {
      var members := Range(shared[filterOrder[i]].Keys);
      assert forall f :: f in filterOrder[..i + 1] <==> f in filterOrder[..i] || f == filterOrder[i];
      memberOrder := memberOrder[filterOrder[i] := members];
    }
    assert filterOrder[..|filterOrder|] == filterOrder;
  }

  lemma SelectionConsistent(w: World)
    requires ChoicesOk(w.shared, w.shared.Keys, w.selected, w.selectedGroups)
    ensures ConsistentSelection(w)
  {
    forall c | c in w.selected ensures exists f :: f in w.selectedGroups && w.selectedGroups[f] == c {
      assert ChosenForSome(w.selectedGroups, c);
    }
  }

  lemma NoEmptyId(w: World)
    requires (forall f :: f in w.shared ==> "" !in w.shared[f]) && forall c :: c in w.selected ==> Member(w.shared, c)
    ensures "" !in Universe(w)
  {
    forall c | c in w.selected ensures c != "" {
      assert Member(w.shared, c);
    }
  }

  lemma WorldHolds(w: World, shared: map<Filter, map<Client, Subscription>>, attempt: (Client, Subscription) -> Status)
    requires w.shared == shared && w.attempt == attempt && ValidOrders(w)
    requires ChoicesOk(shared, shared.Keys, w.selected, w.selectedGroups) && forall f :: f in shared ==> "" !in shared[f]
    ensures WorldOf(w, shared, attempt) && forall c :: c in w.selected ==> Member(shared, c)
  {
    SelectedAreMembers(shared, w.selected, w.selectedGroups);
    SelectionConsistent(w);
    NoEmptyId(w);
  }

  /** The subscription an attempt is made with, in terms of the client's own subscriptions. */
  lemma AttemptMeans(w: World, subscriptions: map<Client, Subscription>, selected: map<Client, Subscription>, i: nat)
    requires WorldOf(w, w.shared, w.attempt) && i < |Final(w, "", Ok).log|
    requires w.selected == selected.Keys && w.subscriptions == MergedSelected(subscriptions, selected)
    requires SelectedMerged(selected, w.shared, w.selectedGroups)
    ensures var t := Final(w, "", Ok); AttemptGoes(w, t, subscriptions, t.log[i])
  {
    var t := Final(w, "", Ok);
    var a := t.log[i];
    var c := a.client;
    var fs := PlanOf(t.plan, c);
    AttemptsCarryPlan(w, "", Ok, i);
    AttemptHasGroup(w, i);
    if c in selected {
      ChosenPlanned(w, c);
      SelectedCarries(a.sub, w.shared, subscriptions, selected, w.selectedGroups, c, fs);
    }
  }

  lemma AttemptHasGroup(w: World, i: nat)
    requires WorldOf(w, w.shared, w.attempt) && i < |Final(w, "", Ok).log|
    ensures var t := Final(w, "", Ok); GroupSubs(w.shared, t.log[i].client, PlanOf(t.plan, t.log[i].client)) != {}
  {
    var t := Final(w, "", Ok);
    FinalProgress(w, "", Ok);
    FinalGood(w, "", Ok);
    NoClientAttemptedTwice(w, "", Ok);
    assert t.log[i].client in t.attempted && t.log[i].client in t.queued;
    AttemptedHasGroup(w, t, t.log[i].client);
  }

  lemma AttemptedHasGroup(w: World, t: State, c: Client)
    requires ConsistentSelection(w) && "" !in Universe(w) && c in t.queued && c in Universe(w)
    requires QueuedPlanned(t) && HoldersMembers(w, t) && PlanOk(t) && t.groups.Keys == w.shared.Keys
    ensures GroupSubs(w.shared, c, PlanOf(t.plan, c)) != {}
  {
    var f :| Holds(t, c, f);
    assert f in t.groups && f in w.shared && c in w.shared[f];
    assert w.shared[f][c] in GroupSubs(w.shared, c, PlanOf(t.plan, c));
  }

  lemma ChosenPlanned(w: World, c: Client)
    requires WorldOf(w, w.shared, w.attempt) && c in w.selected
    ensures ChosenSubs(w.shared, w.selectedGroups, c) <= GroupSubs(w.shared, c, PlanOf(Final(w, "", Ok).plan, c))
  {
    forall f | f in w.selectedGroups && w.selectedGroups[f] == c && f in w.shared && c in w.shared[f]
      ensures f in PlanOf(Final(w, "", Ok).plan, c)
    {
      SelectedAttempted(w, "", Ok, c, f);
    }
  }

  /** A selected client: its entry already holds the merge of the groups it was chosen for. */
  lemma SelectedCarries(sub: Subscription, shared: map<Filter, map<Client, Subscription>>, subscriptions: map<Client, Subscription>,
                        selected: map<Client, Subscription>, groups: map<Filter, Client>, c: Client, fs: seq<Filter>)
    requires c in selected && Combines(selected[c], ChosenSubs(shared, groups, c))
    requires ChosenSubs(shared, groups, c) <= GroupSubs(shared, c, fs) != {}
    requires WithOrdinary(sub, MergedSelected(subscriptions, selected)[c], GroupSubs(shared, c, fs))
    ensures CarriesGroups(Call(c, sub), shared, subscriptions, selected.Keys, fs)
  {
    var chosen, all, sel := ChosenSubs(shared, groups, c), GroupSubs(shared, c, fs), selected[c];
    var first, more :| CombinesOnto(sel, chosen, first, more);
    if c in subscriptions {
      MergedEntry(sub, subscriptions[c], sel, first, chosen, all);
    } else {
      SelfEntry(sub, sel, first, more, all);
    }
  }

  lemma SelfEntry(sub: Subscription, sel: Subscription, first: Subscription, more: set<Subscription>, all: set<Subscription>)
    requires MergedOnto(sub, Merge(sel, sel), all) && MergedOnto(sel, first, more) && more + {first} <= all && sub.identifiers != map[]
    ensures Combines(sub, all)
  {
    ComesFromMore(sel, first, more + {first}, all);
    MergeComesFrom(sel, first, sel, first, all);
    MergeLists(sel, sel);
    assert all + {first} == all;
    OntoThrough(sub, Merge(sel, sel), first, all);
    assert CombinesOnto(sub, all, first, all);
  }

  lemma MergedEntry(sub: Subscription, ordinary: Subscription, sel: Subscription, first: Subscription, chosen: set<Subscription>, all: set<Subscription>)
    requires MergedOnto(sub, Merge(ordinary, sel), all) && ComesFrom(sel, first, chosen) && chosen <= all
    ensures MergedOnto(sub, ordinary, all)
  {
    var from := all + {ordinary};
    FromItself(ordinary);
    ComesFromMore(ordinary, ordinary, {ordinary}, from);
    ComesFromMore(sel, first, chosen, from);
    MergeComesFrom(ordinary, ordinary, sel, first, from);
    MergeLists(ordinary, sel);
    OntoThrough(sub, Merge(ordinary, sel), ordinary, all);
  }

  lemma OutcomeHolds(w: World, subscriptions: map<Client, Subscription>, selected: map<Client, Subscription>, calls: seq<Call>)
    requires WorldOf(w, w.shared, w.attempt) && StartsWith(calls, Final(w, "", Ok).log)
    requires w.selected == selected.Keys && w.subscriptions == MergedSelected(subscriptions, selected)
    requires SelectedMerged(selected, w.shared, w.selectedGroups)
    ensures SharedOutcome(w, w.shared, subscriptions, w.attempt, calls)
  {
    forall f | f in w.shared ensures f in Final(w, "", Ok).groups && Settled(w, Final(w, "", Ok), f) {
      EveryGroupSettled(w, "", Ok, f);
    }
    forall i | 0 <= i < |Final(w, "", Ok).log| ensures AttemptGoes(w, Final(w, "", Ok), subscriptions, Final(w, "", Ok).log[i]) {
      AttemptMeans(w, subscriptions, selected, i);
    }
  }

  /** A call of the shared part is made for a group its client belongs to. */
  lemma CallHasGroup(w: World, subscriptions: map<Client, Subscription>, attempt: (Client, Subscription) -> Status, calls: seq<Call>, i: nat)
    returns (f: Filter)
    requires SharedOutcome(w, w.shared, subscriptions, attempt, calls) && i < |Final(w, "", Ok).log|
    ensures i < |calls| && f in w.shared && calls[i].client in w.shared[f]
  {
    var t := Final(w, "", Ok);
    assert AttemptGoes(w, t, subscriptions, t.log[i]);
    var s :| s in GroupSubs(w.shared, t.log[i].client, PlanOf(t.plan, t.log[i].client));
    f :| f in w.shared && t.log[i].client in w.shared[f] && s == w.shared[f][t.log[i].client];
  }

  lemma OutcomeKept(w: World, shared: map<Filter, map<Client, Subscription>>, subscriptions: map<Client, Subscription>,
                    attempt: (Client, Subscription) -> Status, first: seq<Call>, calls: seq<Call>)
    requires SharedOutcome(w, shared, subscriptions, attempt, first) && first <= calls
    ensures SharedOutcome(w, shared, subscriptions, attempt, calls)
  {
  }

  /** What the shared part leaves: its calls, its clients, and how it ended. */
  ghost predicate PartDone(w: World, subscriptions: map<Client, Subscription>, calls: seq<Call>, clients: set<Client>) {
    && CalledExactly(calls, clients) && |calls| == SharedCalls(w)
    && SharedOutcome(w, w.shared, subscriptions, w.attempt, calls)
    && OthersKept(w.subscriptions, subscriptions, clients)
  }

  /** The shared part of one publish. */
  method RunPlanner(w: World, ghost subscriptions: map<Client, Subscription>, ghost selected: map<Client, Subscription>)
    returns (calls: seq<Call>, clients: set<Client>)
    requires WorldOf(w, w.shared, w.attempt) && AnyMember(w.shared) && KeyedByFilter(w.shared)
    requires w.selected == selected.Keys && w.subscriptions == MergedSelected(subscriptions, selected)
    requires SelectedMerged(selected, w.shared, w.selectedGroups)
    ensures PartDone(w, subscriptions, calls, clients)
  {
    var d := PublishSharedToSubscribers(w);
    clients := d.clients;
    calls := CallsOf(d.log);
    PartHolds(w, subscriptions, selected, d, calls);
  }

  method BuildWorld(shared: map<Filter, map<Client, Subscription>>, selected: map<Client, Subscription>, groups: map<Filter, Client>,
                    merged: map<Client, Subscription>, attempt: (Client, Subscription) -> Status) returns (w: World)
    requires ChoicesOk(shared, shared.Keys, selected.Keys, groups) && forall f :: f in shared ==> "" !in shared[f]
    ensures WorldOf(w, shared, attempt) && w.selected == selected.Keys && w.selectedGroups == groups && w.subscriptions == merged
  {
    var filterOrder, memberOrder := MemberOrders(shared);
    var queueOrder := Range(selected.Keys);
    w := World(shared, selected.Keys, groups, merged, filterOrder, memberOrder, queueOrder, attempt);
    WorldHolds(w, shared, attempt);
  }

  function CallsOf(log: seq<Attempt>): (calls: seq<Call>)
    ensures |calls| == |log| && forall i :: 0 <= i < |calls| ==> calls[i] == Call(log[i].client, log[i].sub)
  {
    seq(|log|, i requires 0 <= i < |log| => Call(log[i].client, log[i].sub))
  }

  lemma CallCount(w: World, d: Delivery, calls: seq<Call>)
    requires ValidOrders(w) && AnyMember(w.shared) && d == General(w)
    requires |calls| == |d.log| && forall i :: 0 <= i < |calls| ==> calls[i] == Call(d.log[i].client, d.log[i].sub)
    ensures |calls| == SharedCalls(w) && StartsWith(calls, Final(w, "", Ok).log)
  {
  }

  lemma PartHolds(w: World, subscriptions: map<Client, Subscription>, selected: map<Client, Subscription>, d: Delivery, calls: seq<Call>)
    requires WorldOf(w, w.shared, w.attempt) && AnyMember(w.shared) && d == General(w)
    requires w.selected == selected.Keys && w.subscriptions == MergedSelected(subscriptions, selected)
    requires SelectedMerged(selected, w.shared, w.selectedGroups)
    requires |calls| == |d.log| && forall i :: 0 <= i < |calls| ==> calls[i] == Call(d.log[i].client, d.log[i].sub)
    ensures PartDone(w, subscriptions, calls, d.clients)
  {
    CallCount(w, d, calls);
    DeliveryClients(w, d, calls);
    OutcomeHolds(w, subscriptions, selected, calls);
    SelectedDealtWith(w, subscriptions, selected, d);
  }

  lemma SelectedDealtWith(w: World, subscriptions: map<Client, Subscription>, selected: map<Client, Subscription>, d: Delivery)
    requires ValidOrders(w) && d == General(w) && w.selected == selected.Keys
    ensures OthersKept(MergedSelected(subscriptions, selected), subscriptions, d.clients)
  {
    forall c | c in selected ensures c in d.clients { SelectedAttempted(w, "", Ok, c, ""); }
  }

  lemma DeliveryClients(w: World, d: Delivery, calls: seq<Call>)
    requires ValidOrders(w) && d == General(w) && "" !in Universe(w)
    requires |calls| == |d.log| && forall i :: 0 <= i < |calls| ==> calls[i] == Call(d.log[i].client, d.log[i].sub)
    ensures CalledExactly(calls, d.clients)
  {
    NoClientAttemptedTwice(w, "", Ok);
    FinalUniverse(w);
    forall c ensures Called(calls, c) <==> c in d.clients {
      if Called(calls, c) {
        var i :| 0 <= i < |calls| && calls[i].client == c;
        assert d.log[i].client == c;
      }
      if c in d.clients {
        assert c in Universe(w);
        var i :| 0 <= i < |d.log| && d.log[i].client == c;
        assert calls[i].client == c;
      }
    }
  }

  lemma FinalUniverse(w: World)
    requires ValidOrders(w)
    ensures Final(w, "", Ok).attempted.Keys <= Universe(w)
  {
    InitialGood(w);
  }
}
