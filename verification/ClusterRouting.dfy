/**
 One publish across the cluster: the publishing node picks one member node per shared
 filter, tells every node which filters are its own, each node drops the others, and the
 planner of each node delivers to at most one member.
 */
module ClusterRouting {
  import opened DeliveryStatus
  import opened Subscriptions
  import opened TopicIndex
  import opened TopicMatching
  import opened TopicQuery
  import Planner = SharedPlanner
  import Safety = SharedPlannerSafety
  import Theorems = SharedPlannerTheorems
  import FastPath = SharedFastPath
  import Delivery = SharedDelivery
  import opened TopicTrie

  /** Nodes are the clients of the cluster's routing index. */
  type Node = Client

  /** A filter list; absent when the publisher has no per-filter plan. */
  datatype Filters = Unplanned | Planned(list: seq<Filter>)

  /** The node chosen per shared filter; absent with a registry that makes no such plan. */
  datatype Plan = NoPlan | Plan(chosen: map<Filter, Node>)

  // ---------------------------------------------------------------- the publishing node

  /** The list a node is given under a plan. */
  ghost predicate Own(plan: Plan, node: Node, filters: Filters) {
    && (plan.NoPlan? <==> filters.Unplanned?)
    && (plan.Plan? ==> Planner.Distinct(filters.list) && forall f :: f in filters.list <==> f in plan.chosen && plan.chosen[f] == node)
  }

  /** The filters assigned to one node. */
  method SharedFiltersForNode(plan: Plan, node: Node) returns (filters: Filters)
    ensures Own(plan, node, filters)
  {
    if plan.NoPlan? {
      return Unplanned;
    }
    var selected, list := plan.chosen, [];
    var order := Delivery.Range(selected.Keys);
    for i := 0 to |order|
      invariant Planner.Distinct(list)
      invariant forall f :: f in list <==> f in order[..i] && selected[f] == node
    {
      assert forall f :: f in order[..i + 1] <==> f in order[..i] || f == order[i];
      assert order[i] !in order[..i];
      if selected[order[i]] == node {
        list := list + [order[i]];
      }
    }
    assert order[..|order|] == order;
    return Planned(list);
  }

  /** Live targets and offline owners; each node once, unless there is no offline owner to merge in. */
  method FanOutPlan(live: seq<Node>, offline: seq<Node>) returns (out: seq<Node>)
    ensures Planner.Distinct(live) || offline != [] ==> Planner.Distinct(out)
    ensures forall n :: n in out <==> n in live || n in offline
  {
    if |offline| == 0 {
      return live;
    }
    out := AddUnseen([], live);
    out := AddUnseen(out, offline);
  }

  method AddUnseen(start: seq<Node>, more: seq<Node>) returns (out: seq<Node>)
    requires Planner.Distinct(start)
    ensures Planner.Distinct(out)
    ensures forall n :: n in out <==> n in start || n in more
  {
    out := start;
    for i := 0 to |more|
      invariant Planner.Distinct(out)
      invariant forall n :: n in out <==> n in start || n in more[..i]
    {
      assert forall n :: n in more[..i + 1] <==> n in more[..i] || n == more[i];
      if more[i] !in out {
        out := out + [more[i]];
      }
    }
    assert more[..|more|] == more;
  }

  datatype Forward = Forward(node: Node, filters: Filters)

  /** The targets other than the publisher, in order. */
  function Others(nodes: seq<Node>, self: Node): seq<Node> {
    if nodes == [] then []
    else
      var front, last := Others(nodes[..|nodes| - 1], self), nodes[|nodes| - 1];
      if last == self then front else front + [last]
  }

  lemma {:induction false} OthersMeaning(nodes: seq<Node>, self: Node)
    ensures forall n :: n in Others(nodes, self) <==> n in nodes && n != self
    ensures Planner.Distinct(nodes) ==> Planner.Distinct(Others(nodes, self))
    decreases |nodes|
  {
    if nodes != [] {
      var front, last := nodes[..|nodes| - 1], nodes[|nodes| - 1];
      OthersMeaning(front, self);
      assert nodes == front + [last];
      if Planner.Distinct(nodes) {
        assert Planner.Distinct(front) && last !in front;
      }
    }
  }

  /** One message per listed target other than the publisher, carrying that node's own filters. */
  method ForwardTargets(self: Node, nodes: seq<Node>, plan: Plan) returns (sent: seq<Forward>)
    ensures |sent| == |Others(nodes, self)|
    ensures forall i :: 0 <= i < |sent| ==> sent[i].node == Others(nodes, self)[i] && Own(plan, sent[i].node, sent[i].filters)
  {
    sent := [];
    for k := 0 to |nodes|
      invariant |sent| == |Others(nodes[..k], self)|
      invariant forall i :: 0 <= i < |sent| ==> sent[i].node == Others(nodes[..k], self)[i] && Own(plan, sent[i].node, sent[i].filters)
    {
      assert nodes[..k + 1][..k] == nodes[..k];
      if nodes[k] == self {
        continue;
      }
      var filters := SharedFiltersForNode(plan, nodes[k]);
      sent := sent + [Forward(nodes[k], filters)];
    }
    assert nodes[..|nodes|] == nodes;
  }

  /** The node is told the filter is its own, by the local list or by its message. */
  ghost predicate Told(self: Node, local: Filters, sent: seq<Forward>, n: Node, f: Filter) {
    || (n == self && local.Planned? && f in local.list)
    || exists i :: 0 <= i < |sent| && sent[i].node == n && sent[i].filters.Planned? && f in sent[i].filters.list
  }

  /** Every message has a target of its own, other than the publisher, and a filter list. */
  ghost predicate OneMessageEach(self: Node, local: Filters, sent: seq<Forward>) {
    && local.Planned? && (forall i :: 0 <= i < |sent| ==> sent[i].node != self && sent[i].filters.Planned?)
    && (forall i, j :: 0 <= i < j < |sent| ==> sent[i].node != sent[j].node)
  }

  /** At most one node is told a filter, and it is a member of it. */
  ghost predicate TellsOneMember(m: Index, topic: string, self: Node, local: Filters, sent: seq<Forward>) {
    && (forall n, f :: Told(self, local, sent, n, f) ==> FindsShared(m, topic, f, n))
    && (forall n1, n2, f :: Told(self, local, sent, n1, f) && Told(self, local, sent, n2, f) ==> n1 == n2)
  }

  /** Every found filter is told to some node, and to the publisher when it is a member; every other node with
      an ordinary match or an offline session gets a message. */
  ghost predicate TellsAll(m: Index, topic: string, self: Node, offline: seq<Node>, local: Filters, sent: seq<Forward>) {
    && (forall f, c :: FindsShared(m, topic, f, c) ==> exists n :: Told(self, local, sent, n, f))
    && (forall f :: self != "" && FindsShared(m, topic, f, self) ==> Told(self, local, sent, self, f))
    && (forall n :: n != self && (Finds(m, topic, n) || n in offline) ==> exists i :: 0 <= i < |sent| && sent[i].node == n)
  }

  lemma ToldIff(shared: map<Filter, Node>, self: Node, targets: seq<Node>, local: Filters, sent: seq<Forward>, n: Node, f: Filter)
    requires Own(Plan(shared), self, local) && |sent| == |Others(targets, self)|
    requires forall i :: 0 <= i < |sent| ==> sent[i].node == Others(targets, self)[i] && Own(Plan(shared), sent[i].node, sent[i].filters)
    ensures Told(self, local, sent, n, f) <==> f in shared && shared[f] == n && (n == self || n in targets)
  {
    OthersMeaning(targets, self);
    if f in shared && shared[f] == n && n != self && n in targets {
      assert n in Others(targets, self);
      var i :| 0 <= i < |sent| && Others(targets, self)[i] == n;
      assert sent[i].node == n && f in sent[i].filters.list;
    }
    if i :| 0 <= i < |sent| && sent[i].node == n && sent[i].filters.Planned? && f in sent[i].filters.list {
      assert Others(targets, self)[i] in Others(targets, self);
    }
  }

  lemma AssignmentHolds(m: Index, topic: string, self: Node, nodes: set<Node>, shared: map<Filter, Node>,
                        offline: seq<Node>, targets: seq<Node>, local: Filters, sent: seq<Forward>)
    requires ChosenFor(m, topic, self, shared) && TargetsFor(m, topic, self, nodes, shared)
    requires forall n :: n in targets <==> n in nodes || n in offline
    requires Own(Plan(shared), self, local) && |sent| == |Others(targets, self)|
    requires forall i :: 0 <= i < |sent| ==> sent[i].node == Others(targets, self)[i] && Own(Plan(shared), sent[i].node, sent[i].filters)
    ensures TellsOneMember(m, topic, self, local, sent) && TellsAll(m, topic, self, offline, local, sent)
  {
    forall n, f ensures Told(self, local, sent, n, f) <==> f in shared && shared[f] == n {
      ToldIff(shared, self, targets, local, sent, n, f);
      if f in shared && shared[f] == n && n != self { assert n in nodes; }
    }
    forall f, c | FindsShared(m, topic, f, c) ensures exists n :: Told(self, local, sent, n, f) {
      assert Told(self, local, sent, shared[f], f);
    }
    OthersMeaning(targets, self);
    forall n | n != self && (Finds(m, topic, n) || n in offline) ensures exists i :: 0 <= i < |sent| && sent[i].node == n {
      assert n in nodes || n in offline;
      assert n in Others(targets, self);
      var i :| 0 <= i < |sent| && Others(targets, self)[i] == n;
      assert sent[i].node == n;
    }
  }

  /** The publishing node's part: route, list its own filters, and forward the rest when it has a forwarder. */
  method ForwardToClusterSubscribers(routing: Trie, topic: string, self: Node, offline: seq<Node>, forwarder: bool)
    returns (local: Filters, sent: seq<Forward>)
    requires routing.Valid()
    ensures OneMessageEach(self, local, sent)
    ensures TellsOneMember(routing.Model(), topic, self, local, sent)
    ensures forwarder ==> TellsAll(routing.Model(), topic, self, offline, local, sent)
    ensures !forwarder ==> sent == []
  {
    var nodes, shared := SubscriberRoutingPlan(routing, topic, self);
    var live := Delivery.Range(nodes);
    var targets := FanOutPlan(live, offline);
    local := SharedFiltersForNode(Plan(shared), self);
    if !forwarder {
      LocalOnly(routing.Model(), topic, self, shared, local);
      return local, [];
    }
    sent := ForwardTargets(self, targets, Plan(shared));
    AssignmentHolds(routing.Model(), topic, self, nodes, shared, offline, targets, local, sent);
    MessagesDistinct(self, targets, Plan(shared), local, sent);
  }

  /** Without messages only the local list tells anything. */
  lemma LocalOnly(m: Index, topic: string, self: Node, shared: map<Filter, Node>, local: Filters)
    requires ChosenFor(m, topic, self, shared) && Own(Plan(shared), self, local)
    ensures TellsOneMember(m, topic, self, local, [])
  {
  }

  lemma MessagesDistinct(self: Node, targets: seq<Node>, plan: Plan, local: Filters, sent: seq<Forward>)
    requires plan.Plan? && Own(plan, self, local) && |sent| == |Others(targets, self)| && Planner.Distinct(targets)
    requires forall i :: 0 <= i < |sent| ==> sent[i].node == Others(targets, self)[i] && Own(plan, sent[i].node, sent[i].filters)
    ensures OneMessageEach(self, local, sent)
  {
    OthersMeaning(targets, self);
    forall i | 0 <= i < |sent| ensures sent[i].node != self && sent[i].filters.Planned? {
      assert Others(targets, self)[i] in Others(targets, self);
    }
  }

  // ---------------------------------------------------------------- every receiving node

  predicate Allows(filters: Filters, f: Filter) {
    filters.Unplanned? || f in filters.list
  }

  function LiveMembers(members: map<Client, Subscription>, live: set<Client>): map<Client, Subscription> {
    map c | c in members && c in live :: members[c]
  }

  predicate Keeps(shared: map<Filter, map<Client, Subscription>>, filters: Filters, live: set<Client>, f: Filter)
    requires f in shared
  {
    Allows(filters, f) && LiveMembers(shared[f], live) != map[]
  }

  /** The allowed filters with a connected member, with exactly their connected members. */
  function LiveShared(shared: map<Filter, map<Client, Subscription>>, filters: Filters, live: set<Client>): map<Filter, map<Client, Subscription>> {
    map f | f in shared && Keeps(shared, filters, live, f) :: LiveMembers(shared[f], live)
  }

  /** The query result the selection hook edits in place. */
  class Selection {
    var subscriptions: map<Client, Subscription>
    var shared: map<Filter, map<Client, Subscription>>

    constructor (subscriptions: map<Client, Subscription>, shared: map<Filter, map<Client, Subscription>>)
      ensures this.subscriptions == subscriptions && this.shared == shared
    {
      this.subscriptions, this.shared := subscriptions, shared;
    }

    /** OnSelectSubscribers: in a cluster, disconnected clients and shared filters of other nodes are dropped. */
    method OnSelectSubscribers(clustered: bool, filters: Filters, live: set<Client>, offlineStore: bool)
      modifies this
      ensures !clustered ==> subscriptions == old(subscriptions) && shared == old(shared)
      ensures clustered ==> subscriptions == if offlineStore then LiveMembers(old(subscriptions), live) else old(subscriptions)
      ensures clustered ==> shared == LiveShared(old(shared), filters, live)
    {
      if !clustered {
        return;
      }
      if offlineStore {
        DropDisconnected(live);
      }
      DropForeign(filters, live);
    }

    method DropForeign(filters: Filters, live: set<Client>)
      modifies `shared
      ensures shared == LiveShared(old(shared), filters, live)
    {
      ghost var was := shared;
      var rest := shared.Keys;
      while rest != {}
        invariant rest <= was.Keys
        invariant forall f :: f in shared <==> f in was && (f in rest || Keeps(was, filters, live, f))
        invariant forall f :: f in shared ==> shared[f] == if f in rest then was[f] else LiveMembers(was[f], live)
        decreases rest
      {
        var f :| f in rest;
        rest := rest - {f};
        if !Allows(filters, f) {
          shared := shared - {f};
          continue;
        }
        var members := Connected(shared[f], live);
        if |members| == 0 {
          shared := shared - {f};
        } else {
          shared := shared[f := members];
        }
      }
    }

    method DropDisconnected(live: set<Client>)
      modifies `subscriptions
      ensures subscriptions == LiveMembers(old(subscriptions), live)
    {
      subscriptions := Connected(subscriptions, live);
    }
  }

  /** The members left after deleting every client that is not connected. */
  method Connected(members: map<Client, Subscription>, live: set<Client>) returns (out: map<Client, Subscription>)
    ensures out == LiveMembers(members, live)
  {
    out := members;
    var order := Delivery.Range(members.Keys);
    for i := 0 to |order|
      invariant forall c :: c in out <==> c in members && (c in order[..i] ==> c in live)
      invariant forall c :: c in out ==> out[c] == members[c]
    {
      assert forall c :: c in order[..i + 1] <==> c in order[..i] || c == order[i];
      if order[i] !in live {
        out := out - {order[i]};
      }
    }
    assert order[..|order|] == order;
  }

  /** No client id in the index is empty. */
  ghost predicate NamesClients(m: Index) {
    forall p, g :: p in m && g in m[p].shared ==> "" !in m[p].shared[g]
  }

  /** The entries the hook leaves of what a query answers: with an offline store only connected clients'. */
  ghost predicate KeptFrom(kept: map<Client, Subscription>, finds: Client -> bool, answers: (Client, Subscription) -> bool,
                           live: set<Client>, offlineStore: bool) {
    && (forall c :: c in kept <==> finds(c) && (offlineStore ==> c in live))
    && (forall c :: c in kept ==> answers(c, kept[c]))
  }

  ghost function Finder(m: Index, topic: string): Client -> bool {
    c => Finds(m, topic, c)
  }

  ghost function Answerer(m: Index, topic: string): (Client, Subscription) -> bool {
    (c, sub) => AnswersFor(m, topic, c, sub)
  }

  /** The ordinary entries of a node's publish: what its index finds, each combining all that count for the client. */
  ghost predicate OrdinaryOf(m: Index, topic: string, live: set<Client>, offlineStore: bool, ordinary: map<Client, Subscription>) {
    KeptFrom(ordinary, Finder(m, topic), Answerer(m, topic), live, offlineStore)
  }

  ghost predicate WantsOrdinary(m: Index, topic: string, live: set<Client>, offlineStore: bool, c: Client) {
    Finds(m, topic, c) && (offlineStore ==> c in live)
  }

  ghost predicate WantsShared(m: Index, topic: string, filters: Filters, live: set<Client>, f: Filter, c: Client) {
    Allows(filters, f) && FindsShared(m, topic, f, c) && c in live
  }

  /** The groups the node's publish works on: its own filters with the connected members its index finds, each
      with a subscription found for it. */
  ghost predicate GroupsOf(m: Index, topic: string, filters: Filters, live: set<Client>, shared: SharedFound) {
    && (forall f :: f in shared ==> Allows(filters, f))
    && (forall f, c :: In(shared, f, c) <==> WantsShared(m, topic, filters, live, f, c))
    && (forall f, c :: In(shared, f, c) ==> FindsSharedSub(m, topic, f, c, shared[f][c]))
  }

  /** The calls reach every known ordinary match, and nobody but ordinary matches and members of its filters. */
  ghost predicate Reaches(m: Index, topic: string, filters: Filters, site: Site, calls: seq<Delivery.Call>) {
    && (forall c :: WantsOrdinary(m, topic, site.live, site.offlineStore, c) && c in site.known ==> Delivery.Called(calls, c))
    && (forall c :: Delivery.Called(calls, c) ==>
          WantsOrdinary(m, topic, site.live, site.offlineStore, c) || exists f :: WantsShared(m, topic, filters, site.live, f, c))
  }

  /** Every inline subscriber found is handled once, with a subscription found for it. */
  ghost predicate HandlesInline(m: Index, topic: string, handled: seq<(int, Subscription)>) {
    && (forall i, j :: 0 <= i < j < |handled| ==> handled[i].0 != handled[j].0)
    && (forall id, sub :: (id, sub) in handled ==> FindsInline(m, topic, id, sub))
    && (forall id, sub :: FindsInline(m, topic, id, sub) ==> exists other :: (id, other) in handled)
  }

  /** A node as a publish finds it: connected clients, known clients, and how attempts on them end. */
  datatype Site = Site(live: set<Client>, known: set<Client>, offlineStore: bool, attempt: (Client, Subscription) -> Status)

  /** What the node's publish did: the groups are its own and each was settled, every ordinary match was called
      with its own subscription, and every inline handler ran. */
  ghost predicate Served(m: Index, topic: string, filters: Filters, site: Site, done: Done) {
    && GroupsOf(m, topic, filters, site.live, done.w.shared)
    && Reaches(m, topic, filters, site, done.calls) && HandlesInline(m, topic, done.handled)
    && PublishedFor(m, topic, site, done)
  }

  ghost predicate PublishedFor(m: Index, topic: string, site: Site, done: Done) {
    exists ordinary :: OrdinaryOf(m, topic, site.live, site.offlineStore, ordinary)
                       && Delivery.Published(done.w, done.w.shared, ordinary, site.known, site.attempt, done.calls)
  }

  /** The calls a node made and the handlers it ran; `w` is what its planner worked on. */
  datatype Done = Done(w: Planner.World, calls: seq<Delivery.Call>, handled: seq<(int, Subscription)>)

  lemma LiveSharedFacts(m: Index, topic: string, shared: SharedFound, filters: Filters, live: set<Client>)
    requires SharedAnswer(m, topic, shared) && NamesClients(m)
    ensures var kept := LiveShared(shared, filters, live);
            && FastPath.KeyedByFilter(kept) && (forall f :: f in kept ==> "" !in kept[f])
            && GroupsOf(m, topic, filters, live, kept)
  {
    var kept: SharedFound := LiveShared(shared, filters, live);
    LiveSharedIn(shared, filters, live);
    forall f, c | f in kept && c in kept[f] ensures kept[f][c].filter == f && c != "" && FindsSharedSub(m, topic, f, c, kept[f][c]) {
      assert In(kept, f, c) && In(shared, f, c);
      var p :| Hit(m, topic, p, true) && Offers(At(m, p), f, c);
    }
  }

  lemma LiveSharedIn(shared: SharedFound, filters: Filters, live: set<Client>)
    ensures var kept := LiveShared(shared, filters, live);
            forall f, c :: In(kept, f, c) <==> Allows(filters, f) && In(shared, f, c) && c in live
  {
    forall f, c | Allows(filters, f) && In(shared, f, c) && c in live ensures In(LiveShared(shared, filters, live), f, c) {
      assert c in LiveMembers(shared[f], live);
    }
  }

  lemma LiveOrdinary(m: Index, topic: string, subs: map<Client, Subscription>, live: set<Client>, offlineStore: bool)
    requires OrdinaryAnswer(m, topic, subs)
    ensures OrdinaryOf(m, topic, live, offlineStore, if offlineStore then LiveMembers(subs, live) else subs)
  {
    assert KeptFrom(subs, Finder(m, topic), Answerer(m, topic), live, false);
    KeptLive(subs, Finder(m, topic), Answerer(m, topic), live);
  }

  lemma KeptLive(subs: map<Client, Subscription>, finds: Client -> bool, answers: (Client, Subscription) -> bool, live: set<Client>)
    requires KeptFrom(subs, finds, answers, live, false)
    ensures KeptFrom(LiveMembers(subs, live), finds, answers, live, true)
  {
  }

  lemma InlineHandled(m: Index, topic: string, inline: map<int, Subscription>, handled: seq<(int, Subscription)>)
    requires InlineAnswer(m, topic, inline) && Delivery.HandledAll(handled, inline)
    ensures HandlesInline(m, topic, handled)
  {
    forall i, j | 0 <= i < j < |handled| ensures handled[i].0 != handled[j].0 {
      assert (handled[i].0, handled[i].1) in handled && (handled[j].0, handled[j].1) in handled;
    }
    forall id, sub | FindsInline(m, topic, id, sub) ensures exists other :: (id, other) in handled {
      assert (id, inline[id]) in handled;
    }
  }

  lemma CallsReach(m: Index, topic: string, filters: Filters, site: Site, ordinary: map<Client, Subscription>, w: Planner.World,
                   calls: seq<Delivery.Call>)
    requires OrdinaryOf(m, topic, site.live, site.offlineStore, ordinary) && GroupsOf(m, topic, filters, site.live, w.shared)
    requires Delivery.Published(w, w.shared, ordinary, site.known, site.attempt, calls)
    ensures Reaches(m, topic, filters, site, calls)
  {
    forall c | Delivery.Called(calls, c)
      ensures WantsOrdinary(m, topic, site.live, site.offlineStore, c) || exists f :: WantsShared(m, topic, filters, site.live, f, c)
    {
      var i :| 0 <= i < |calls| && calls[i].client == c;
      if i < Delivery.SharedCalls(w) {
        var f := Delivery.CallHasGroup(w, ordinary, site.attempt, calls, i);
        assert In(w.shared, f, c);
      }
    }
  }

  /** Groups the planner can work on: keyed by filter, with no nameless client. */
  ghost predicate Workable(shared: SharedFound) {
    FastPath.KeyedByFilter(shared) && forall f :: f in shared ==> "" !in shared[f]
  }

  /** The query on the node's own index, and what the hook leaves of it. */
  method SelectOnNode(index: Trie, topic: string, filters: Filters, site: Site, ghost m: Index)
    returns (shared: SharedFound, ordinary: map<Client, Subscription>, inline: map<int, Subscription>)
    requires index.Valid() && index.Model() == m && NamesClients(m)
    ensures Workable(shared) && GroupsOf(m, topic, filters, site.live, shared)
    ensures OrdinaryOf(m, topic, site.live, site.offlineStore, ordinary) && InlineAnswer(m, topic, inline)
  {
    var subs, found;
    subs, found, inline := Subscribers(index, topic);
    LiveSharedFacts(m, topic, found, filters, site.live);
    LiveOrdinary(m, topic, subs, site.live, site.offlineStore);
    var selection := new Selection(subs, found);
    selection.OnSelectSubscribers(true, filters, site.live, site.offlineStore);
    shared, ordinary := selection.shared, selection.subscriptions;
  }

  /** A node's part: query its own index, let the hook drop what is not its own, and publish. */
  method PublishOnNode(index: Trie, topic: string, filters: Filters, site: Site, ghost m: Index) returns (done: Done)
    requires index.Valid() && index.Model() == m && NamesClients(m)
    ensures Served(m, topic, filters, site, done)
  {
    var shared, ordinary, inline := SelectOnNode(index, topic, filters, site, m);
    var calls, handled, w := Delivery.PublishToSubscribers(shared, ordinary, inline, site.known, site.attempt);
    done := Done(w, calls, handled);
    NodeServed(m, topic, filters, site, ordinary, inline, done);
  }

  lemma NodeServed(m: Index, topic: string, filters: Filters, site: Site, ordinary: map<Client, Subscription>,
                   inline: map<int, Subscription>, done: Done)
    requires OrdinaryOf(m, topic, site.live, site.offlineStore, ordinary) && GroupsOf(m, topic, filters, site.live, done.w.shared)
    requires InlineAnswer(m, topic, inline) && Delivery.HandledAll(done.handled, inline)
    requires Delivery.Published(done.w, done.w.shared, ordinary, site.known, site.attempt, done.calls)
    ensures Served(m, topic, filters, site, done)
  {
    CallsReach(m, topic, filters, site, ordinary, done.w, done.calls);
    InlineHandled(m, topic, inline, done.handled);
  }

  // ---------------------------------------------------------------- across the cluster

  /** The clients planned for a filter that accepted it on this node, or may have. */
  ghost function Takes(n: Node, w: Planner.World): set<(Node, Client, Filter)> {
    if !Delivery.AnyMember(w.shared) || !Planner.ValidOrders(w) then {}
    else
      var t := Theorems.Final(w, "", Ok);
      set c, f | c in t.plan && f in t.plan[c] && Theorems.Taker(t, c) :: (n, c, f)
  }

  lemma TakesFacts(m: Index, topic: string, filters: Filters, site: Site, n: Node, done: Done, a: (Node, Client, Filter))
    requires Served(m, topic, filters, site, done) && a in Takes(n, done.w)
    ensures a.0 == n && WantsShared(m, topic, filters, site.live, a.2, a.1)
  {
    Theorems.TakerIsMember(done.w, "", Ok, a.2, a.1);
    assert In(done.w.shared, a.2, a.1);
  }

  lemma TakesOnce(n: Node, w: Planner.World, a: (Node, Client, Filter), b: (Node, Client, Filter))
    requires a in Takes(n, w) && b in Takes(n, w) && a.2 == b.2
    ensures a == b
  {
    Theorems.AtMostOneTaker(w, "", Ok, a.2, a.1, b.1);
  }

  /** All nodes' takes. */
  ghost function AllTakes(done: map<Node, Done>): set<(Node, Client, Filter)> {
    set n, a | n in done && a in Takes(n, done[n].w) :: a
  }

  /** The run of one node, on its own index and for the filters it was told. */
  ghost predicate NodeRan(models: map<Node, Index>, topic: string, filters: Filters, sites: Node -> Site, done: map<Node, Done>, n: Node) {
    n in models && n in done && Served(models[n], topic, filters, sites(n), done[n])
  }

  /** Whether what a node did is a run of it for these filters. */
  ghost function Runs(models: map<Node, Index>, topic: string, sites: Node -> Site): (Node, Filters, Done) -> bool {
    (n, filters, done) => n in models && Served(models[n], topic, filters, sites(n), done)
  }

  /** The first k messages were handled: the publisher and every node whose message arrived have run, once each. */
  ghost predicate HandledBy(ran: (Node, Filters, Done) -> bool, self: Node, local: Filters, sent: seq<Forward>, k: int,
                            arrived: set<Node>, done: map<Node, Done>)
    requires 0 <= k <= |sent|
  {
    && self in done && ran(self, local, done[self])
    && (forall i :: 0 <= i < k ==> (sent[i].node in done <==> sent[i].node in arrived))
    && (forall i :: 0 <= i < k && sent[i].node in done ==> ran(sent[i].node, sent[i].filters, done[sent[i].node]))
    && (forall n :: n in done ==> n == self || exists i :: 0 <= i < k && sent[i].node == n)
  }

  /** The nodes that exist and are reached. */
  function Arrived(nodes: set<Node>, arrives: Node -> bool): set<Node> {
    set n | n in nodes && arrives(n)
  }

  ghost predicate Handled(models: map<Node, Index>, topic: string, self: Node, local: Filters, sent: seq<Forward>, k: int,
                          sites: Node -> Site, arrives: Node -> bool, done: map<Node, Done>)
    requires 0 <= k <= |sent|
  {
    HandledBy(Runs(models, topic, sites), self, local, sent, k, Arrived(models.Keys, arrives), done)
  }

  /** The whole publish: what the publisher sent, and what every reached node did with it. */
  ghost predicate ClusterRun(m: Index, models: map<Node, Index>, topic: string, self: Node, offline: seq<Node>,
                             local: Filters, sent: seq<Forward>, sites: Node -> Site, arrives: Node -> bool, done: map<Node, Done>) {
    && OneMessageEach(self, local, sent) && TellsOneMember(m, topic, self, local, sent) && TellsAll(m, topic, self, offline, local, sent)
    && Handled(models, topic, self, local, sent, |sent|, sites, arrives, done)
  }

  /** The node ran with a list of exactly the filters it was told. */
  lemma RanWith(m: Index, models: map<Node, Index>, topic: string, self: Node, offline: seq<Node>, local: Filters, sent: seq<Forward>,
                sites: Node -> Site, arrives: Node -> bool, done: map<Node, Done>, n: Node) returns (filters: Filters)
    requires ClusterRun(m, models, topic, self, offline, local, sent, sites, arrives, done) && n in done
    ensures NodeRan(models, topic, filters, sites, done, n)
    ensures forall f :: Allows(filters, f) ==> Told(self, local, sent, n, f)
  {
    if n == self {
      filters := local;
    } else {
      var i :| 0 <= i < |sent| && sent[i].node == n;
      filters := sent[i].filters;
    }
  }

  /** Cluster-wide, one publish is taken at most once on behalf of each shared filter: by one connected client
      of one node, which the routing index and that node's own index list for it. */
  lemma TakenOncePerFilter(m: Index, models: map<Node, Index>, topic: string, self: Node, offline: seq<Node>, local: Filters,
                           sent: seq<Forward>, sites: Node -> Site, arrives: Node -> bool, done: map<Node, Done>,
                           a: (Node, Client, Filter), b: (Node, Client, Filter))
    requires ClusterRun(m, models, topic, self, offline, local, sent, sites, arrives, done)
    requires a in AllTakes(done) && b in AllTakes(done) && a.2 == b.2
    ensures a == b && a.0 in models && a.1 in sites(a.0).live
    ensures FindsShared(m, topic, a.2, a.0) && FindsShared(models[a.0], topic, a.2, a.1)
  {
    var n1 :| n1 in done && a in Takes(n1, done[n1].w);
    var n2 :| n2 in done && b in Takes(n2, done[n2].w);
    var l1 := RanWith(m, models, topic, self, offline, local, sent, sites, arrives, done, n1);
    var l2 := RanWith(m, models, topic, self, offline, local, sent, sites, arrives, done, n2);
    TakesFacts(models[n1], topic, l1, sites(n1), n1, done[n1], a);
    TakesFacts(models[n2], topic, l2, sites(n2), n2, done[n2], b);
    assert Told(self, local, sent, n1, a.2) && Told(self, local, sent, n2, a.2);
    TakesOnce(n1, done[n1].w, a, b);
  }

  ghost predicate OncePerFilter(takes: set<(Node, Client, Filter)>) {
    forall a, b :: a in takes && b in takes && a.2 == b.2 ==> a == b
  }

  lemma HandledMore(ran: (Node, Filters, Done) -> bool, self: Node, local: Filters, sent: seq<Forward>, k: int,
                    arrived: set<Node>, done: map<Node, Done>, theirs: Done)
    requires 0 <= k < |sent| && OneMessageEach(self, local, sent)
    requires HandledBy(ran, self, local, sent, k, arrived, done)
    ensures sent[k].node !in arrived ==> HandledBy(ran, self, local, sent, k + 1, arrived, done)
    ensures sent[k].node in arrived && ran(sent[k].node, sent[k].filters, theirs) ==>
              HandledBy(ran, self, local, sent, k + 1, arrived, done[sent[k].node := theirs])
  {
    var n := sent[k].node;
    assert n !in done;
    var done' := done[n := theirs];
    forall q | q in done' ensures q == self || exists i :: 0 <= i < k + 1 && sent[i].node == q {
      if q == n { assert sent[k].node == q; }
    }
  }

  /**
   One publish across the cluster. The publisher routes on its copy of the routing index, publishes its own
   part, and sends one message per target; each target whose message arrives publishes its part on its own
   index. Subscriptions, connections, orders, outcomes and lost messages are arbitrary.
   */
  method PublishAcrossCluster(routing: Trie, indexes: map<Node, Trie>, topic: string, self: Node, offline: seq<Node>,
                              sites: Node -> Site, arrives: Node -> bool, ghost m: Index, ghost models: map<Node, Index>)
    returns (local: Filters, sent: seq<Forward>, done: map<Node, Done>)
    requires routing.Valid() && routing.Model() == m && self in indexes && StandFor(indexes, models)
    ensures ClusterRun(m, models, topic, self, offline, local, sent, sites, arrives, done)
    ensures OncePerFilter(AllTakes(done))
  {
    local, sent := ForwardToClusterSubscribers(routing, topic, self, offline, true);
    done := PublishEverywhere(indexes, topic, self, local, sent, sites, arrives, models);
    AllTakenOnce(m, models, topic, self, offline, local, sent, sites, arrives, done);
  }

  lemma AllTakenOnce(m: Index, models: map<Node, Index>, topic: string, self: Node, offline: seq<Node>, local: Filters, sent: seq<Forward>,
                     sites: Node -> Site, arrives: Node -> bool, done: map<Node, Done>)
    requires ClusterRun(m, models, topic, self, offline, local, sent, sites, arrives, done)
    ensures OncePerFilter(AllTakes(done))
  {
    forall a, b | a in AllTakes(done) && b in AllTakes(done) && a.2 == b.2 ensures a == b {
      TakenOncePerFilter(m, models, topic, self, offline, local, sent, sites, arrives, done, a, b);
    }
  }

  /** Each node's index is valid and stands for its model. */
  ghost predicate StandFor(indexes: map<Node, Trie>, models: map<Node, Index>)
    reads indexes.Values, set n, o | n in indexes && o in indexes[n].repr :: o
  {
    && models.Keys == indexes.Keys
    && forall n :: n in indexes ==> indexes[n].Valid() && indexes[n].Model() == models[n] && NamesClients(models[n])
  }

  /** The publisher's own part, then the part of every node whose message arrives. */
  method PublishEverywhere(indexes: map<Node, Trie>, topic: string, self: Node, local: Filters, sent: seq<Forward>,
                           sites: Node -> Site, arrives: Node -> bool, ghost models: map<Node, Index>)
    returns (done: map<Node, Done>)
    requires self in indexes && StandFor(indexes, models) && OneMessageEach(self, local, sent)
    ensures Handled(models, topic, self, local, sent, |sent|, sites, arrives, done)
  {
    var own := PublishPart(indexes, topic, self, local, sites, models);
    done := map[self := own];
    for i := 0 to |sent|
      invariant StandFor(indexes, models) && Handled(models, topic, self, local, sent, i, sites, arrives, done)
    {
      done := PublishNext(indexes, topic, self, local, sent, i, sites, arrives, models, done);
    }
  }

  /** One message: the part of its target, if it arrives. */
  method PublishNext(indexes: map<Node, Trie>, topic: string, ghost self: Node, ghost local: Filters, sent: seq<Forward>, i: nat,
                     sites: Node -> Site, arrives: Node -> bool, ghost models: map<Node, Index>, done: map<Node, Done>)
    returns (next: map<Node, Done>)
    requires i < |sent| && StandFor(indexes, models) && OneMessageEach(self, local, sent)
    requires Handled(models, topic, self, local, sent, i, sites, arrives, done)
    ensures Handled(models, topic, self, local, sent, i + 1, sites, arrives, next)
  {
    ghost var ran, arrived := Runs(models, topic, sites), Arrived(models.Keys, arrives);
    var n := sent[i].node;
    next := done;
    if n in indexes && arrives(n) {
      var theirs := PublishPart(indexes, topic, n, sent[i].filters, sites, models);
      HandledMore(ran, self, local, sent, i, arrived, done, theirs);
      next := done[n := theirs];
    } else {
      HandledMore(ran, self, local, sent, i, arrived, done, done[self]);
    }
  }

  method PublishPart(indexes: map<Node, Trie>, topic: string, n: Node, filters: Filters, sites: Node -> Site, ghost models: map<Node, Index>)
    returns (done: Done)
    requires n in indexes && StandFor(indexes, models)
    ensures Runs(models, topic, sites)(n, filters, done)
  {
    done := PublishOnNode(indexes[n], topic, filters, sites(n), models[n]);
  }
}
