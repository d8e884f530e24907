/** What every run of the failover loop keeps. */
module RedisFailoverTheorems {
  import opened NodeOrder
  import opened RedisFailover

  /** Neither a success of this primary nor a non-leader tick. */
  predicate Quiet(e: Event, p: Node) {
    e != NotLeader && e != Healthy(p)
  }

  predicate AllQuiet(events: seq<Event>, p: Node) {
    forall k :: 0 <= k < |events| ==> Quiet(events[k], p)
  }

  /** At i the window of p opened, and nothing up to n has closed it. */
  predicate OpenSince(log: seq<Event>, i: int, n: int, p: Node, since: int) {
    && 0 <= i < n <= |log| && log[i] == WindowOpened(p, since)
    && forall k :: i < k < n ==> Quiet(log[k], p)
  }

  /** Every window the node remembers was opened by a recorded failure and not closed since. */
  ghost predicate WindowsRecorded(s: State) {
    forall p :: p in s.missingSince ==> exists i :: OpenSince(s.log, i, |s.log|, p, s.missingSince[p])
  }

  /** The designation at j left its primary for a reason, and moved to the node that acknowledged. */
  ghost predicate JustifiedAt(log: seq<Event>, j: int, threshold: int)
    requires 0 <= j < |log|
  {
    log[j].Designate? && log[j].from.Some? ==>
      && j > 0 && log[j - 1] == Promote(log[j].to, true) && log[j].to != log[j].from.value
      && exists i, since :: OpenSince(log, i, j, log[j].from.value, since) && log[j].at - since > threshold
  }

  ghost predicate Justified(log: seq<Event>, threshold: int) {
    forall j :: 0 <= j < |log| ==> JustifiedAt(log, j, threshold)
  }

  predicate NoMoves(events: seq<Event>) {
    forall k :: 0 <= k < |events| ==> !(events[k].Designate? && events[k].from.Some?)
  }

  // ---------------------------------------------------------------- growing the log

  lemma OpenLonger(log: seq<Event>, more: seq<Event>, i: int, n: int, p: Node, since: int)
    requires OpenSince(log, i, n, p, since)
    ensures OpenSince(log + more, i, n, p, since)
    ensures n == |log| && AllQuiet(more, p) ==> OpenSince(log + more, i, |log + more|, p, since)
  {
  }

  lemma WindowsKept(s: State, more: seq<Event>, fewer: map<Node, int>)
    requires WindowsRecorded(s) && fewer.Keys <= s.missingSince.Keys
    requires forall p :: p in fewer ==> fewer[p] == s.missingSince[p] && AllQuiet(more, p)
    ensures WindowsRecorded(State(fewer, s.log + more))
  {
    forall p | p in fewer ensures exists i :: OpenSince(s.log + more, i, |s.log + more|, p, fewer[p]) {
      var i :| OpenSince(s.log, i, |s.log|, p, s.missingSince[p]);
      OpenLonger(s.log, more, i, |s.log|, p, s.missingSince[p]);
    }
  }

  lemma JustifiedKept(log: seq<Event>, more: seq<Event>, threshold: int)
    requires Justified(log, threshold) && NoMoves(more)
    ensures Justified(log + more, threshold)
  {
    var all := log + more;
    forall j | 0 <= j < |all| ensures JustifiedAt(all, j, threshold) {
      if j < |log| {
        assert JustifiedAt(log, j, threshold) && all[j] == log[j];
        if log[j].Designate? && log[j].from.Some? {
          var i, since :| OpenSince(log, i, j, log[j].from.value, since) && log[j].at - since > threshold;
          OpenLonger(log, more, i, j, log[j].from.value, since);
        }
      } else {
        assert all[j] == more[j - |log|];
      }
    }
  }

  // ---------------------------------------------------------------- one tick

  predicate OnlyReplicaCommands(events: seq<Event>) {
    forall k :: 0 <= k < |events| ==> events[k].ReplicaOf?
  }

  lemma {:induction false} ReplicasOnly(t: Tick, members: seq<Meta>, primary: Node, k: nat)
    ensures OnlyReplicaCommands(Replicas(t, members, primary, k))
    decreases |members| - k
  {
    if k < |members| { ReplicasOnly(t, members, primary, k + 1); }
  }

  lemma ConfigureOnly(t: Tick, members: seq<Meta>, primary: Node)
    ensures OnlyReplicaCommands(Configure(t, members, primary))
  {
    ReplicasOnly(t, members, primary, 0);
  }

  /** The node at this position is the one to ask: the first other than the dead primary that answers a
      ping, while this node still leads. */
  predicate FirstReachable(t: Tick, order: seq<Meta>, dead: Node, k: int, i: int) {
    && k <= i < |order| && 0 <= k && order[i].node != dead && t.ping(i) && t.stillLeader(i)
    && forall j :: k <= j < i ==> order[j].node == dead || !t.ping(j)
  }

  /** A promote command goes exactly to that node. */
  lemma {:induction false} SearchFinds(t: Tick, order: seq<Meta>, dead: Node, k: nat)
    ensures Search(t, order, dead, k).Some? <==> exists i :: FirstReachable(t, order, dead, k, i)
    ensures forall i :: FirstReachable(t, order, dead, k, i) ==> Search(t, order, dead, k) == Some((order[i].node, t.promote(i)))
    decreases |order| - k
  {
    if k < |order| {
      if order[k].node == dead || !t.ping(k) {
        SearchFinds(t, order, dead, k + 1);
        forall i ensures FirstReachable(t, order, dead, k, i) <==> FirstReachable(t, order, dead, k + 1, i) {
        }
        if Search(t, order, dead, k).Some? {
          var i :| FirstReachable(t, order, dead, k + 1, i);
          assert FirstReachable(t, order, dead, k, i);
        }
      } else {
        assert t.stillLeader(k) ==> FirstReachable(t, order, dead, k, k);
        assert forall i :: FirstReachable(t, order, dead, k, i) ==> i == k;
      }
    }
  }

  ghost predicate Inv(s: State, threshold: int) {
    WindowsRecorded(s) && Justified(s.log, threshold)
  }

  /** Logging events that neither close a window nor move the designation. */
  lemma NoteInv(s: State, more: seq<Event>, threshold: int)
    requires Inv(s, threshold) && NoMoves(more) && forall p :: AllQuiet(more, p)
    ensures Inv(Note(s, more), threshold)
  {
    WindowsKept(s, more, s.missingSince);
    JustifiedKept(s.log, more, threshold);
  }

  lemma FailoverInv(s: State, t: Tick, dead: Node, threshold: int)
    requires Inv(s, threshold) && dead in s.missingSince && t.now - s.missingSince[dead] > threshold
    ensures Inv(Failover(s, t, dead), threshold)
  {
    var order := ByNode(t.members);
    SearchFinds(t, order, dead, 0);
    match Search(t, order, dead, 0)
    case None =>
    case Some((node, acknowledged)) =>
      var s1 := Note(s, [Promote(node, acknowledged)]);
      NoteInv(s, [Promote(node, acknowledged)], threshold);
      if acknowledged && t.commit {
        var s2 := State(s1.missingSince - {dead}, s1.log + [Designate(Some(dead), node, t.now)]);
        MoveInv(s1, dead, node, t.now, threshold);
        ConfigureOnly(t, order, node);
        NoteInv(s2, Configure(t, order, node), threshold);
      }
  }

  lemma MoveInv(s: State, dead: Node, node: Node, now: int, threshold: int)
    requires Inv(s, threshold) && dead in s.missingSince && now - s.missingSince[dead] > threshold && node != dead
    requires s.log != [] && s.log[|s.log| - 1] == Promote(node, true)
    ensures Inv(State(s.missingSince - {dead}, s.log + [Designate(Some(dead), node, now)]), threshold)
  {
    var move := [Designate(Some(dead), node, now)];
    var log := s.log + move;
    WindowsKept(s, move, s.missingSince - {dead});
    var since := s.missingSince[dead];
    var i :| OpenSince(s.log, i, |s.log|, dead, since);
    OpenLonger(s.log, move, i, |s.log|, dead, since);
    assert JustifiedAt(log, |s.log|, threshold);
    forall j | 0 <= j < |log| ensures JustifiedAt(log, j, threshold) {
      if j < |s.log| {
        assert JustifiedAt(s.log, j, threshold) && log[j] == s.log[j];
        if log[j].Designate? && log[j].from.Some? {
          var i', since' :| OpenSince(s.log, i', j, log[j].from.value, since') && log[j].at - since' > threshold;
          OpenLonger(s.log, move, i', j, log[j].from.value, since');
        }
      }
    }
  }

  lemma BootstrapInv(s: State, t: Tick, self: Node, voters: nat, threshold: int)
    requires Inv(s, threshold)
    ensures Inv(Bootstrap(s, t, self, voters), threshold)
  {
    if t.members != [] && t.commit {
      var node := BootChoice(t.members, self);
      var s1 := Note(s, [Designate(None, node, t.now)]);
      NoteInv(s, [Designate(None, node, t.now)], threshold);
      ConfigureOnly(t, t.members, node);
      if voters > 1 {
        NoteInv(s1, Configure(t, t.members, node), threshold);
      } else {
        NoteInv(s1, [Promote(node, t.soleAck)], threshold);
      }
    }
  }

  lemma ReconcileInv(s: State, t: Tick, self: Node, threshold: int)
    requires Inv(s, threshold)
    ensures Inv(Reconcile(s, t, self, threshold), threshold)
  {
    if !t.leader {
      JustifiedKept(s.log, [NotLeader], threshold);
    } else if t.voters != None && t.current == None {
      BootstrapInv(s, t, self, t.voters.value, threshold);
    } else if t.voters != None && t.voters.value > 1 && t.leaderAfterPing {
      var primary := t.current.value;
      if Visible(t.members, primary) && t.pingPrimary {
        WindowsKept(s, [Healthy(primary)], s.missingSince - {primary});
        JustifiedKept(s.log, [Healthy(primary)], threshold);
        ConfigureOnly(t, t.members, primary);
        NoteInv(State(s.missingSince - {primary}, s.log + [Healthy(primary)]), Configure(t, t.members, primary), threshold);
      } else if primary !in s.missingSince {
        OpenInv(s, primary, t.now, threshold);
      } else if t.now - s.missingSince[primary] > threshold {
        FailoverInv(s, t, primary, threshold);
      }
    }
  }

  lemma OpenInv(s: State, p: Node, now: int, threshold: int)
    requires Inv(s, threshold) && p !in s.missingSince
    ensures Inv(State(s.missingSince[p := now], s.log + [WindowOpened(p, now)]), threshold)
  {
    var more := [WindowOpened(p, now)];
    JustifiedKept(s.log, more, threshold);
    WindowsKept(s, more, s.missingSince);
    assert OpenSince(s.log + more, |s.log|, |s.log + more|, p, now);
  }

  lemma {:induction false} RunInv(s: State, ticks: seq<Tick>, self: Node, threshold: int)
    requires Inv(s, threshold)
    ensures Inv(Run(s, ticks, self, threshold), threshold)
    decreases |ticks|
  {
    if ticks != [] {
      ReconcileInv(s, ticks[0], self, threshold);
      RunInv(Reconcile(s, ticks[0], self, threshold), ticks[1..], self, threshold);
    }
  }

  // ---------------------------------------------------------------- theorems

  /** In every run this node moves the designation away from a primary only when it recorded a failure of
      that primary more than the threshold before, with no recorded success and no non-leader tick since;
      and the designation moves only to the node that has just acknowledged its promotion. */
  lemma DesignationLeavesOnlyAfterFailure(ticks: seq<Tick>, self: Node, threshold: int, j: nat)
    requires var log := Run(START, ticks, self, threshold).log; j < |log| && log[j].Designate? && log[j].from.Some?
    ensures var log := Run(START, ticks, self, threshold).log;
            && j > 0 && log[j - 1] == Promote(log[j].to, true) && log[j].to != log[j].from.value
            && exists i, since :: OpenSince(log, i, j, log[j].from.value, since) && log[j].at - since > threshold
  {
    RunInv(START, ticks, self, threshold);
    assert JustifiedAt(Run(START, ticks, self, threshold).log, j, threshold);
  }

  /** Each tick only extends the log; it sends at most one promote command, and moves the designation at
      most once, away from the committed primary. */
  lemma OneAttemptPerTick(s: State, t: Tick, self: Node, threshold: int)
    ensures exists events :: AtMostOne(events, t) && Reconcile(s, t, self, threshold).log == s.log + events
  {
    if !t.leader {
      assert AtMostOne([NotLeader], t);
    } else if t.voters != None && t.current == None {
      OneBootstrap(s, t, self, t.voters.value);
    } else if t.voters != None && t.voters.value > 1 && t.leaderAfterPing {
      OneFailover(s, t, t.current.value);
      var primary := t.current.value;
      var commands := Configure(t, t.members, primary);
      ConfigureOnly(t, t.members, primary);
      assert AtMostOne([Healthy(primary)] + commands, t);
      assert s.log + [Healthy(primary)] + commands == s.log + ([Healthy(primary)] + commands);
      assert AtMostOne([WindowOpened(primary, t.now)], t);
      assert AtMostOne([], t) && s.log + [] == s.log;
    } else {
      assert AtMostOne([], t) && s.log + [] == s.log;
    }
  }

  predicate AtMostOne(events: seq<Event>, t: Tick) {
    && (forall i, j :: 0 <= i < |events| && 0 <= j < |events| && events[i].Promote? && events[j].Promote? ==> i == j)
    && (forall i, j :: 0 <= i < |events| && 0 <= j < |events| && events[i].Designate? && events[j].Designate? ==> i == j)
    && (forall i :: 0 <= i < |events| && events[i].Designate? ==> events[i].from == t.current)
  }

  lemma OneFailover(s: State, t: Tick, dead: Node)
    requires t.current == Some(dead)
    ensures exists events :: AtMostOne(events, t) && Failover(s, t, dead).log == s.log + events
  {
    var order := ByNode(t.members);
    match Search(t, order, dead, 0)
    case None => assert AtMostOne([], t) && s.log + [] == s.log;
    case Some((node, acknowledged)) =>
      var ask := [Promote(node, acknowledged)];
      assert AtMostOne(ask, t);
      if acknowledged && t.commit {
        var move := [Designate(Some(dead), node, t.now)];
        var commands := Configure(t, order, node);
        ConfigureOnly(t, order, node);
        assert AtMostOne(ask + move + commands, t);
        assert s.log + ask + move + commands == s.log + (ask + move + commands);
      }
  }

  lemma OneBootstrap(s: State, t: Tick, self: Node, voters: nat)
    requires t.current == None
    ensures exists events :: AtMostOne(events, t) && Bootstrap(s, t, self, voters).log == s.log + events
  {
    if t.members == [] || !t.commit {
      assert AtMostOne([], t) && s.log + [] == s.log;
    } else {
      var node := BootChoice(t.members, self);
      var first := [Designate(None, node, t.now)];
      var rest := if voters > 1 then Configure(t, t.members, node) else [Promote(node, t.soleAck)];
      ConfigureOnly(t, t.members, node);
      assert AtMostOne(first + rest, t);
      assert s.log + first + rest == s.log + (first + rest);
    }
  }

  // ---------------------------------------------------------------- the node asked

  /** The node asked to take over has the lowest name among the reachable ones. */
  lemma LowestReachableAsked(t: Tick, dead: Node, i: nat)
    requires var order := ByNode(t.members); FirstReachable(t, order, dead, 0, i)
    ensures var order := ByNode(t.members);
            && multiset(order) == multiset(t.members)
            && Search(t, order, dead, 0) == Some((order[i].node, t.promote(i)))
            && forall j :: 0 <= j < |order| && Before(order[j].node, order[i].node) && order[j].node != dead ==> !t.ping(j)
  {
    var order := ByNode(t.members);
    ByNodeSorts(t.members);
    SearchFinds(t, order, dead, 0);
    BeforeTotal(order[i].node, order[i].node);
  }

  /** The failover does not depend on the order in which the members are listed. */
  lemma CandidateOrderFree(s: State, t: Tick, members: seq<Meta>, dead: Node)
    requires Distinct(t.members) && multiset(members) == multiset(t.members)
    ensures Failover(s, t.(members := members), dead) == Failover(s, t, dead)
  {
    var order, u := ByNode(t.members), t.(members := members);
    ListingOrderFree(t.members, members);
    SameSearch(t, u, order, dead, 0);
    forall node ensures Configure(u, order, node) == Configure(t, order, node) {
      SameReplicas(t, u, order, node, 0);
    }
  }

  lemma {:induction false} SameSearch(t: Tick, u: Tick, order: seq<Meta>, dead: Node, k: nat)
    requires u == t.(members := u.members)
    ensures Search(u, order, dead, k) == Search(t, order, dead, k)
    decreases |order| - k
  {
    if k < |order| { SameSearch(t, u, order, dead, k + 1); }
  }

  lemma {:induction false} SameReplicas(t: Tick, u: Tick, order: seq<Meta>, node: Node, k: nat)
    requires u == t.(members := u.members)
    ensures Replicas(u, order, node, k) == Replicas(t, order, node, k)
    decreases |order| - k
  {
    if k < |order| { SameReplicas(t, u, order, node, k + 1); }
  }

  // ---------------------------------------------------------------- how long a window lives

  /** The tick learns that the primary answers, or moves the designation away from it. */
  ghost predicate Resolves(t: Tick, p: Node, since: int, threshold: int) {
    && t.voters.Some? && t.voters.value > 1 && t.current == Some(p) && t.leaderAfterPing
    && if Visible(t.members, p) && t.pingPrimary then true
       else t.now - since > threshold && t.commit && exists i :: FirstReachable(t, ByNode(t.members), p, 0, i) && t.promote(i)
  }

  /** A failure window keeps its date until a tick starts without leadership or resolves it. Losing
      leadership during a tick does not close it. */
  lemma WindowLivesUntil(s: State, t: Tick, self: Node, threshold: int, p: Node)
    requires p in s.missingSince
    ensures var after := Reconcile(s, t, self, threshold).missingSince;
            && (p in after <==> t.leader && !Resolves(t, p, s.missingSince[p], threshold))
            && (p in after ==> after[p] == s.missingSince[p])
  {
    if t.leader && t.voters.Some? && t.current.Some? {
      SearchFinds(t, ByNode(t.members), t.current.value, 0);
    }
  }

  /** A tick as a leader finds it: two voters, the primary p gone, q visible and willing. */
  function Gone(p: Node, q: Meta, now: int, leaderAfterPing: bool): Tick {
    Tick(true, Some(2), [q], Some(p), false, leaderAfterPing, now,
         k => true, k => true, k => true, true, a => true, k => true, true)
  }

  /** So a failover can rest on a failure seen in an earlier term: leadership is lost during the second
      tick and regained before the third, which acts on the window the first one opened. */
  lemma WindowOutlivesTerm(p: Node, q: Meta, self: Node, threshold: int, since: int, lost: int, now: int)
    requires p != q.node && now - since > threshold
    ensures var ticks := [Gone(p, q, since, true), Gone(p, q, lost, false), Gone(p, q, now, true)];
            Run(START, ticks, self, threshold).log
            == [WindowOpened(p, since), Promote(q.node, true), Designate(Some(p), q.node, now)]
  {
    var t0, t1, t2 := Gone(p, q, since, true), Gone(p, q, lost, false), Gone(p, q, now, true);
    var s1 := State(map[p := since], [WindowOpened(p, since)]);
    assert Reconcile(START, t0, self, threshold) == s1;
    assert Reconcile(s1, t1, self, threshold) == s1;
    assert ByNode([q]) == [q];
    ConfigureAlone(t2, q);
    RunThree(START, t0, t1, t2, self, threshold);
  }

  lemma ConfigureAlone(t: Tick, q: Meta)
    ensures Configure(t, [q], q.node) == []
  {
    assert Replicas(t, [q], q.node, 0) == Replicas(t, [q], q.node, 1);
  }

  lemma RunThree(s: State, a: Tick, b: Tick, c: Tick, self: Node, threshold: int)
    ensures Run(s, [a, b, c], self, threshold)
         == Reconcile(Reconcile(Reconcile(s, a, self, threshold), b, self, threshold), c, self, threshold)
  {
    var s1 := Reconcile(s, a, self, threshold);
    var s2 := Reconcile(s1, b, self, threshold);
    assert [a, b, c][1..] == [b, c] && [b, c][1..] == [c] && [c][1..] == [];
    assert Run(s1, [b, c], self, threshold) == Run(s2, [c], self, threshold);
    assert Run(s2, [c], self, threshold) == Run(Reconcile(s2, c, self, threshold), [], self, threshold);
  }

  // ---------------------------------------------------------------- who follows whom

  /** Leadership is lost before the command for the member at n, and not before. */
  predicate LostAt(t: Tick, members: seq<Meta>, primary: Node, n: int) {
    && 0 <= n <= |members|
    && (forall j :: 0 <= j < n ==> members[j].node == primary || t.replicaLeader(j))
    && (n < |members| ==> members[n].node != primary && !t.replicaLeader(n))
  }

  /** A command for every member other than the primary, in order. */
  function Commands(members: seq<Meta>, primary: Node): seq<Event> {
    if members == [] then []
    else
      var last := members[|members| - 1].node;
      Commands(members[..|members| - 1], primary) + if last == primary then [] else [ReplicaOf(last, primary)]
  }

  lemma {:induction false} ReplicasFrom(t: Tick, members: seq<Meta>, primary: Node, k: nat, n: nat)
    requires LostAt(t, members, primary, n) && k <= n
    ensures Commands(members[..k], primary) + Replicas(t, members, primary, k) == Commands(members[..n], primary)
    decreases n - k
  {
    if k < n {
      ReplicasFrom(t, members, primary, k + 1, n);
      assert members[..k + 1][..k] == members[..k];
    }
  }

  /** Every other listed core up to the loss of leadership, and nobody else, is told once to follow the primary;
      nobody is when the primary's address is missing or malformed. */
  lemma ConfigureTellsAll(t: Tick, members: seq<Meta>, primary: Node, n: nat)
    requires LostAt(t, members, primary, n)
    ensures var addr := AddrOf(members, primary);
            Configure(t, members, primary) == if addr == "" || !t.validAddr(addr) then [] else Commands(members[..n], primary)
  {
    assert members[..0] == [];
    ReplicasFrom(t, members, primary, 0, n);
  }

  lemma {:induction false} CommandsMean(members: seq<Meta>, primary: Node, e: Event)
    ensures e in Commands(members, primary) <==> exists m :: m in members && m.node != primary && e == ReplicaOf(m.node, primary)
    decreases |members|
  {
    if members != [] {
      var n := |members| - 1;
      CommandsMean(members[..n], primary, e);
      assert forall m :: m in members <==> m in members[..n] || m == members[n];
    }
  }

  /** The address used is that of the first member with the primary's name. */
  lemma {:induction false} AddrOfFirst(members: seq<Meta>, node: Node, i: nat)
    requires i < |members| && members[i].node == node && forall j :: 0 <= j < i ==> members[j].node != node
    ensures AddrOf(members, node) == members[i].addr
    decreases i
  {
    if i > 0 { AddrOfFirst(members[1..], node, i - 1); }
  }

  /** The first designation of a cluster: a visible node, this one whenever it is visible; then the others are told
      to follow it, or a sole core to be primary. Without a visible node or a commit nothing happens. */
  lemma BootstrapDesignates(s: State, t: Tick, self: Node, threshold: int)
    requires t.leader && t.voters.Some? && t.current == None
    ensures var after := Reconcile(s, t, self, threshold);
            && after.missingSince == s.missingSince
            && (t.members == [] || !t.commit ==> after == s)
            && (t.members != [] && t.commit ==> exists node :: Designated(s, t, self, node, after))
  {
    if t.members != [] && t.commit {
      assert Designated(s, t, self, BootChoice(t.members, self), Reconcile(s, t, self, threshold));
    }
  }

  ghost predicate Designated(s: State, t: Tick, self: Node, node: Node, after: State)
    requires t.voters.Some?
  {
    && Visible(t.members, node) && (Visible(t.members, self) ==> node == self)
    && after.log == s.log + [Designate(None, node, t.now)]
                    + if t.voters.value > 1 then Configure(t, t.members, node) else [Promote(node, t.soleAck)]
  }

  // ---------------------------------------------------------------- what a tick does

  /** The tick reaches the verdict on its primary: a leader throughout, with more than one voter and a designation. */
  predicate Judges(t: Tick, p: Node) {
    t.leader && t.voters.Some? && t.voters.value > 1 && t.current == Some(p) && t.leaderAfterPing
  }

  /** A window opens, dated now, exactly when the tick finds its primary absent or silent and none is open. */
  lemma WindowOpens(s: State, t: Tick, self: Node, threshold: int, p: Node)
    requires p !in s.missingSince
    ensures var after := Reconcile(s, t, self, threshold);
            && (p in after.missingSince <==> Judges(t, p) && !(Visible(t.members, p) && t.pingPrimary))
            && (p in after.missingSince ==> after.missingSince[p] == t.now && after.log == s.log + [WindowOpened(p, t.now)])
  {
  }

  /** A primary that answers has its success recorded, and the others are told to follow it. */
  lemma HealthyConfigures(s: State, t: Tick, self: Node, threshold: int, p: Node)
    requires Judges(t, p) && Visible(t.members, p) && t.pingPrimary
    ensures Reconcile(s, t, self, threshold).log == s.log + [Healthy(p)] + Configure(t, t.members, p)
  {
  }

  /** The outcome of asking the node at this position. */
  predicate ActsOn(s: State, t: Tick, p: Node, order: seq<Meta>, i: int, after: State)
    requires 0 <= i < |order|
  {
    var asked := s.log + [Promote(order[i].node, t.promote(i))];
    if t.promote(i) && t.commit
    then && after.log == asked + [Designate(Some(p), order[i].node, t.now)] + Configure(t, order, order[i].node)
         && after.missingSince == s.missingSince - {p}
    else after == State(s.missingSince, asked)
  }

  /** With the window past the threshold, the lowest-named reachable node is asked to take over; its acknowledgement
      and a commit move the designation and tell the others. Otherwise nothing happens in this tick. */
  lemma FailoverActs(s: State, t: Tick, self: Node, threshold: int, p: Node)
    requires Judges(t, p) && !(Visible(t.members, p) && t.pingPrimary)
    requires p in s.missingSince && t.now - s.missingSince[p] > threshold
    ensures var after := Reconcile(s, t, self, threshold);
            || after == s
            || exists i :: FirstReachable(t, ByNode(t.members), p, 0, i) && ActsOn(s, t, p, ByNode(t.members), i, after)
    ensures forall i :: FirstReachable(t, ByNode(t.members), p, 0, i) ==>
              ActsOn(s, t, p, ByNode(t.members), i, Reconcile(s, t, self, threshold))
  {
    var order := ByNode(t.members);
    SearchFinds(t, order, p, 0);
    assert Reconcile(s, t, self, threshold) == Failover(s, t, p);
    if Search(t, order, p, 0).Some? {
      var i :| FirstReachable(t, order, p, 0, i);
      assert FirstReachable(t, ByNode(t.members), p, 0, i) && ActsOn(s, t, p, ByNode(t.members), i, Reconcile(s, t, self, threshold));
    } else {
      assert Failover(s, t, p) == s;
    }
  }

  /** A tick that is not to judge leaves everything as it is: within the grace period, with one voter, with the voter
      count unknown, or with leadership lost during the ping. */
  lemma TickRests(s: State, t: Tick, self: Node, threshold: int)
    requires t.leader && (t.current.Some? || t.voters == None)
    requires t.voters.Some? && t.voters.value > 1 && t.leaderAfterPing ==>
               && !(Visible(t.members, t.current.value) && t.pingPrimary)
               && t.current.value in s.missingSince && t.now - s.missingSince[t.current.value] <= threshold
    ensures Reconcile(s, t, self, threshold) == s
  {
  }
}
