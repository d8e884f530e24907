/**
 The shared-subscription delivery planner: a worklist over overlapping shared
 groups that attempts each client at most once and falls back to another member
 of a group only after a failure that is known not to have delivered.

 Go's random map iteration orders and the outcome of each attempt are inputs of
 the model (`World`), so every result holds for all of them.
 */
module SharedPlanner {
  import opened DeliveryStatus
  import opened Subscriptions

  datatype World = World(
    shared: map<Filter, map<Client, Subscription>>,
    selected: set<Client>,
    selectedGroups: map<Filter, Client>,
    subscriptions: map<Client, Subscription>,
    filterOrder: seq<Filter>,
    memberOrder: map<Filter, seq<Client>>,
    queueOrder: seq<Client>,
    attempt: (Client, Subscription) -> Status)

  ghost predicate Distinct<T>(s: seq<T>) {
    forall i, j :: 0 <= i < j < |s| ==> s[i] != s[j]
  }

  /** `order` lists every element of `elems` exactly once: one run of `range`. */
  ghost predicate Enumerates<T(!new)>(order: seq<T>, elems: set<T>) {
    Distinct(order) && (forall x :: x in order <==> x in elems)
  }

  ghost predicate ValidOrders(w: World) {
    && Enumerates(w.filterOrder, w.shared.Keys)
    && w.memberOrder.Keys == w.shared.Keys
    && (forall f :: f in w.shared ==> Enumerates(w.memberOrder[f], w.shared[f].Keys))
    && Enumerates(w.queueOrder, w.selected)
  }

  /** What SelectShared establishes: every non-empty group selects one of its members,
      and the selected clients are exactly those choices. */
  ghost predicate ConsistentSelection(w: World) {
    && w.selectedGroups.Keys <= w.shared.Keys
    && (forall f :: f in w.selectedGroups ==> w.selectedGroups[f] in w.shared[f] && w.selectedGroups[f] in w.selected)
    && (forall f :: f in w.shared && f !in w.selectedGroups ==> w.shared[f] == map[])
    && (forall c :: c in w.selected ==> exists f :: f in w.selectedGroups && w.selectedGroups[f] == c)
  }

  datatype Group = Group(candidates: seq<Client>, cursor: nat, delivered: bool)

  datatype Attempt = Attempt(client: Client, sub: Subscription, status: Status)

  /** The planner's variables. `attempted` also records the outcome, `log` the real publish calls. */
  datatype State = State(
    groups: map<Filter, Group>,
    plan: map<Client, seq<Filter>>,
    attempted: map<Client, Status>,
    accepted: set<Client>,
    queued: set<Client>,
    queue: seq<Client>,
    log: seq<Attempt>)

  // ---------------------------------------------------------------- initial state

  function Selected(w: World, f: Filter): Client {
    if f in w.selectedGroups then w.selectedGroups[f] else ""
  }

  function IndexOf(s: seq<Client>, c: Client): (i: nat)
    ensures i <= |s|
    ensures i < |s| ==> s[i] == c
    ensures i == |s| ==> c !in s
  {
    if s == [] then 0 else if s[0] == c then 0 else 1 + IndexOf(s[1..], c)
  }

  /** The group's members with the selected one moved to the front. */
  function Candidates(order: seq<Client>, chosen: Client): seq<Client> {
    var k := IndexOf(order, chosen);
    if k < |order| then order[k := order[0]][0 := chosen] else order
  }

  function PlanOf(plan: map<Client, seq<Filter>>, c: Client): seq<Filter> {
    if c in plan then plan[c] else []
  }

  predicate Lists(plan: map<Client, seq<Filter>>, c: Client, f: Filter) {
    c in plan && f in plan[c]
  }

  function InitialGroup(w: World, f: Filter): Group
    requires f in w.memberOrder
  {
    Group(Candidates(w.memberOrder[f], Selected(w, f)), if Selected(w, f) in w.memberOrder[f] then 1 else 0, false)
  }

  function InitialGroups(w: World, fs: seq<Filter>): map<Filter, Group>
    requires forall f :: f in fs ==> f in w.memberOrder
  {
    map f | f in fs :: InitialGroup(w, f)
  }

  function InitialPlan(w: World, fs: seq<Filter>): map<Client, seq<Filter>> {
    if fs == [] then map[]
    else
      var p := InitialPlan(w, fs[..|fs| - 1]);
      var f := fs[|fs| - 1];
      p[Selected(w, f) := PlanOf(p, Selected(w, f)) + [f]]
  }

  function Initial(w: World): State
    requires forall f :: f in w.filterOrder ==> f in w.memberOrder
  {
    State(InitialGroups(w, w.filterOrder), InitialPlan(w, w.filterOrder), map[], {},
          (set c | c in w.queueOrder), w.queueOrder, [])
  }

  // ---------------------------------------------------------------- one step

  /** The client's ordinary subscription merged with each filter planned for it. */
  function MergeFilters(w: World, c: Client, sub: Subscription, exists_: bool, fs: seq<Filter>): Subscription
    requires forall f :: f in fs ==> f in w.shared
    decreases |fs|
  {
    if fs == [] then sub
    else if c !in w.shared[fs[0]] then MergeFilters(w, c, sub, exists_, fs[1..])
    else
      var m := w.shared[fs[0]][c];
      MergeFilters(w, c, if exists_ then Merge(sub, m) else m, true, fs[1..])
  }

  function EffectiveSub(w: World, c: Client, fs: seq<Filter>): Subscription
    requires forall f :: f in fs ==> f in w.shared
  {
    if c in w.subscriptions then MergeFilters(w, c, w.subscriptions[c], true, fs)
    else MergeFilters(w, c, NO_SUBSCRIPTION, false, fs)
  }

  /** First index from i on whose candidate is not a failed attempt: the cursor loop's stopping point. */
  function NextUsable(candidates: seq<Client>, i: nat, attempted: set<Client>, accepted: set<Client>): (k: nat)
    ensures i <= |candidates| ==> i <= k <= |candidates|
    ensures forall j :: i <= j < k && j < |candidates| ==> candidates[j] in attempted && candidates[j] !in accepted
    ensures k < |candidates| ==> candidates[k] in accepted || candidates[k] !in attempted
    decreases |candidates| - i
  {
    if i >= |candidates| then i
    else if candidates[i] in accepted || candidates[i] !in attempted then i
    else NextUsable(candidates, i + 1, attempted, accepted)
  }

  /** Move one group's cursor past failed members; plan the next untried one, or stop at one that accepted. */
  function AdvanceOne(s: State, f: Filter): State
    requires f in s.groups
  {
    var g := s.groups[f];
    var k := NextUsable(g.candidates, g.cursor, s.attempted.Keys, s.accepted);
    if k >= |g.candidates| then s.(groups := s.groups[f := g.(cursor := k)])
    else
      var next := g.candidates[k];
      if next in s.accepted then s.(groups := s.groups[f := g.(cursor := k + 1, delivered := true)])
      else
        var s1 := s.(groups := s.groups[f := g.(cursor := k + 1)],
                     plan := s.plan[next := PlanOf(s.plan, next) + [f]]);
        if next in s.queued then s1
        else s1.(queued := s.queued + {next}, queue := s.queue + [next])
  }

  function AdvanceAll(s: State, fs: seq<Filter>): State
    requires forall f :: f in fs ==> f in s.groups
    decreases |fs|
  {
    if fs == [] then s else AdvanceAll(AdvanceOne(s, fs[0]), fs[1..])
  }

  function MarkDelivered(groups: map<Filter, Group>, fs: seq<Filter>): map<Filter, Group> {
    map f | f in groups :: if f in fs then groups[f].(delivered := true) else groups[f]
  }

  /** The planned filters of every client are groups: what indexing `groups[filter]` needs. */
  ghost predicate PlanInGroups(w: World, s: State) {
    && s.groups.Keys == w.shared.Keys
    && (forall c, f :: c in s.plan && f in s.plan[c] ==> f in s.groups)
  }

  /** Outcome of the client at the head of the queue: the initial client's earlier result is reused. */
  function OutcomeFor(w: World, initial: Client, initialStatus: Status, c: Client, sub: Subscription): Status {
    if c == initial then initialStatus else w.attempt(c, sub)
  }

  /** The state once the head client's attempt is recorded, before its outcome is acted on. */
  function Recorded(s: State, status: Status, log: seq<Attempt>): State
    requires s.queue != []
  {
    s.(queue := s.queue[1..], attempted := s.attempted[s.queue[0] := status], log := log)
  }

  /** Act on an outcome: mark the planned groups, stop, or move them to other candidates. */
  function Conclude(s: State, client: Client, fs: seq<Filter>, status: Status): State
    requires forall f :: f in fs ==> f in s.groups
  {
    if status.Ok? then s.(accepted := s.accepted + {client}, groups := MarkDelivered(s.groups, fs))
    else if !IsSafeFailure(status.error) then s
    else AdvanceAll(s, fs)
  }

  function Step(w: World, initial: Client, initialStatus: Status, s: State): State
    requires s.queue != [] && PlanInGroups(w, s)
  {
    var client := s.queue[0];
    if client in s.attempted then s.(queue := s.queue[1..])
    else
      var fs := PlanOf(s.plan, client);
      var sub := EffectiveSub(w, client, fs);
      var status := OutcomeFor(w, initial, initialStatus, client, sub);
      var log := if client == initial then s.log else s.log + [Attempt(client, sub, status)];
      Conclude(Recorded(s, status, log), client, fs, status)
  }
}
