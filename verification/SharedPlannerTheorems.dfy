/**
 What a whole run of the shared planner guarantees: every group is delivered,
 stopped on an ambiguous member, or exhausted; no client is attempted twice; and
 acceptances never outnumber groups.
 */
module SharedPlannerTheorems {
  import opened DeliveryStatus
  import opened Subscriptions
  import opened SharedPlanner
  import opened SharedPlannerSafety

  // ---------------------------------------------------------------- the attempt log

  /** The log names each attempted client once, with its recorded outcome, and never the initial client. */
  ghost predicate LogOk(s: State, initial: Client) {
    && (forall i, j :: 0 <= i < j < |s.log| ==> s.log[i].client != s.log[j].client)
    && (forall i :: 0 <= i < |s.log| ==>
                      && s.log[i].client in s.attempted
                      && s.log[i].client != initial
                      && s.log[i].status == s.attempted[s.log[i].client])
    && (forall c :: c in s.attempted && c != initial ==> Logged(s.log, c))
  }

  ghost predicate Logged(log: seq<Attempt>, c: Client) {
    exists i :: 0 <= i < |log| && log[i].client == c
  }

  /** Advancing changes neither the log nor any outcome. */
  lemma {:induction false} AdvanceAllKeeps(s: State, fs: seq<Filter>)
    requires forall f :: f in fs ==> f in s.groups
    ensures AdvanceAll(s, fs).log == s.log
    ensures AdvanceAll(s, fs).attempted == s.attempted
    ensures AdvanceAll(s, fs).accepted == s.accepted
    decreases |fs|
  {
    if fs != [] { AdvanceAllKeeps(AdvanceOne(s, fs[0]), fs[1..]); }
  }

  /** One step records exactly the head client's outcome and logs it unless it was the initial client's. */
  lemma StepRecords(w: World, initial: Client, initialStatus: Status, s: State)
    requires s.queue != [] && s.queue[0] !in s.attempted && PlanInGroups(w, s)
    ensures var t := Step(w, initial, initialStatus, s);
            var c := s.queue[0];
            var sub := EffectiveSub(w, c, PlanOf(s.plan, c));
            var status := OutcomeFor(w, initial, initialStatus, c, sub);
            && t.attempted == s.attempted[c := status]
            && t.log == (if c == initial then s.log else s.log + [Attempt(c, sub, status)])
            && t.accepted == (if status.Ok? then s.accepted + {c} else s.accepted)
  {
    var c := s.queue[0];
    var fs := PlanOf(s.plan, c);
    var sub := EffectiveSub(w, c, fs);
    var status := OutcomeFor(w, initial, initialStatus, c, sub);
    if Safe(status) {
      AdvanceAllKeeps(Recorded(s, status, if c == initial then s.log else s.log + [Attempt(c, sub, status)]), fs);
    }
  }

  /** Recording one more outcome, logged unless it is the initial client's. */
  lemma LogExtends(s: State, t: State, initial: Client, a: Attempt)
    requires LogOk(s, initial) && a.client !in s.attempted && t.attempted == s.attempted[a.client := a.status]
    requires t.log == if a.client == initial then s.log else s.log + [a]
    ensures LogOk(t, initial)
  {
    if a.client != initial {
      assert forall i :: 0 <= i < |s.log| ==> t.log[i] == s.log[i] && s.log[i].client != a.client;
      assert t.log[|s.log|] == a && Logged(t.log, a.client);
      forall c | Logged(s.log, c) ensures Logged(t.log, c) {
        var i :| 0 <= i < |s.log| && s.log[i].client == c;
        assert t.log[i].client == c;
      }
    }
  }

  lemma StepLog(w: World, initial: Client, initialStatus: Status, s: State)
    requires s.queue != [] && s.queue[0] !in s.attempted && PlanInGroups(w, s) && LogOk(s, initial)
    ensures LogOk(Step(w, initial, initialStatus, s), initial)
  {
    StepRecords(w, initial, initialStatus, s);
    var c := s.queue[0];
    var sub := EffectiveSub(w, c, PlanOf(s.plan, c));
    LogExtends(s, Step(w, initial, initialStatus, s), initial, Attempt(c, sub, OutcomeFor(w, initial, initialStatus, c, sub)));
  }

  // ---------------------------------------------------------------- every group stays live

  /** An accepting holder delivers its groups. */
  ghost predicate AcceptedDelivers(s: State) {
    forall c, f :: Holds(s, c, f) && c in s.accepted && f in s.groups ==> s.groups[f].delivered
  }

  /** Holders are members, or the (memberless) group's initial selection. */
  ghost predicate HoldersMembers(w: World, s: State) {
    forall c, f :: Holds(s, c, f) && f in w.shared ==> c in w.shared[f] || c == Selected(w, f)
  }

  /** A queued client always has something planned for it. */
  ghost predicate QueuedPlanned(s: State) {
    forall c :: c in s.queued ==> exists f :: Holds(s, c, f)
  }

  ghost predicate Waiting(s: State, f: Filter) {
    exists c :: Holds(s, c, f) && c in s.queue
  }

  ghost predicate Stopped(s: State, f: Filter) {
    exists c :: Holds(s, c, f) && c in s.attempted && Ambiguous(s.attempted[c])
  }

  ghost predicate Spun(s: State, f: Filter)
    requires f in s.groups
  {
    s.groups[f].cursor == |s.groups[f].candidates| && Idle(s, f)
  }

  /** The group is finished one way or another, or a client is still queued for it. */
  ghost predicate Live(s: State, f: Filter)
    requires f in s.groups
  {
    s.groups[f].delivered || Stopped(s, f) || Waiting(s, f) || Spun(s, f)
  }

  ghost predicate Progress(w: World, s: State) {
    && AcceptedDelivers(s) && HoldersMembers(w, s) && QueuedPlanned(s)
    && forall f :: f in w.shared && f in s.groups && w.shared[f] != map[] ==> Live(s, f)
  }

  lemma AdvanceOneLive(w: World, s: State, f: Filter)
    requires Frame(w, s) && f in s.groups && Idle(s, f)
    ensures Live(AdvanceOne(s, f), f)
  {
    AdvanceOneOthers(s, f);
    AdvanceOneFrame(w, s, f);
    var t := AdvanceOne(s, f);
    var g := s.groups[f];
    assert GroupOk(g, w.shared[f].Keys);
    var k := NextUsable(g.candidates, g.cursor, s.attempted.Keys, s.accepted);
    if k < |g.candidates| && g.candidates[k] !in s.accepted {
      assert Holds(t, g.candidates[k], f) && g.candidates[k] in t.queue;
    } else if k == |g.candidates| {
      assert t.plan == s.plan && forall c :: Holds(t, c, f) ==> Holds(s, c, f) && Spent(s, c);
      assert Spun(t, f);
    }
  }

  lemma AdvanceOneKeepsLive(s: State, f: Filter, h: Filter)
    requires f in s.groups && h in s.groups && f != h && Live(s, h)
    ensures Live(AdvanceOne(s, f), h)
  {
    AdvanceOneOthers(s, f);
    var t := AdvanceOne(s, f);
    assert t.groups[h] == s.groups[h];
    if Stopped(s, h) {
      var c :| Holds(s, c, h) && c in s.attempted && Ambiguous(s.attempted[c]);
      assert Holds(t, c, h) && c in t.attempted && Ambiguous(t.attempted[c]);
    } else if Waiting(s, h) {
      var c :| Holds(s, c, h) && c in s.queue;
      assert Holds(t, c, h) && c in t.queue;
    }
  }

  lemma AdvanceOneProgress(w: World, s: State, f: Filter)
    requires Frame(w, s) && f in s.groups && Idle(s, f)
    requires AcceptedDelivers(s) && HoldersMembers(w, s) && QueuedPlanned(s)
    ensures var t := AdvanceOne(s, f); AcceptedDelivers(t) && HoldersMembers(w, t) && QueuedPlanned(t)
  {
    AdvanceOneOthers(s, f);
    var t := AdvanceOne(s, f);
    assert GroupOk(s.groups[f], w.shared[f].Keys);
    forall c, h | Holds(t, c, h) && !Holds(s, c, h) ensures h == f && c in w.shared[f] && c !in s.attempted {
    }
    forall c | c in t.queued ensures exists h :: Holds(t, c, h) {
      if c in s.queued {
        var h :| Holds(s, c, h);
        assert Holds(t, c, h);
      } else {
        assert Holds(t, c, f);
      }
    }
  }

  lemma {:induction false} AdvanceAllProgress(w: World, s: State, fs: seq<Filter>)
    requires Frame(w, s) && Distinct(fs)
    requires AcceptedDelivers(s) && HoldersMembers(w, s) && QueuedPlanned(s)
    requires forall f :: f in fs ==> f in s.groups && Idle(s, f)
    requires forall f :: f in s.groups && f !in fs && w.shared[f] != map[] ==> Live(s, f)
    ensures Progress(w, AdvanceAll(s, fs))
    decreases |fs|
  {
    if fs != [] {
      var f, t := fs[0], AdvanceOne(s, fs[0]);
      AdvanceOneOthers(s, f);
      AdvanceOneFrame(w, s, f);
      AdvanceOneProgress(w, s, f);
      forall h | h in fs[1..] ensures h in t.groups && Idle(t, h) {
        assert Idle(s, h);
        assert forall c :: Holds(t, c, h) ==> Holds(s, c, h);
      }
      forall h | h in t.groups && h !in fs[1..] && w.shared[h] != map[] ensures Live(t, h) {
        if h == f { AdvanceOneLive(w, s, f); } else { AdvanceOneKeepsLive(s, f, h); }
      }
      AdvanceAllProgress(w, t, fs[1..]);
    }
  }

  /** A group the head client does not hold is untouched by its attempt. */
  lemma RecordedLive(s: State, t: State, status: Status, f: Filter)
    requires s.queue != [] && QueueOk(s) && f in s.groups && f in t.groups && Live(s, f)
    requires t.plan == s.plan && t.queue == s.queue[1..] && t.groups[f].candidates == s.groups[f].candidates
    requires t.groups[f].cursor == s.groups[f].cursor && (s.groups[f].delivered ==> t.groups[f].delivered)
    requires t.attempted == s.attempted[s.queue[0] := status]
    requires !Holds(s, s.queue[0], f)
    ensures Live(t, f)
  {
    assert s.queue[0] in s.queue;
    assert forall c, h :: Holds(t, c, h) <==> Holds(s, c, h);
    if Stopped(s, f) {
      var c :| Holds(s, c, f) && c in s.attempted && Ambiguous(s.attempted[c]);
      assert Holds(t, c, f) && c in t.attempted && Ambiguous(t.attempted[c]);
    } else if Waiting(s, f) {
      var c :| Holds(s, c, f) && c in s.queue;
      assert c in s.queue[1..];
      assert Holds(t, c, f) && c in t.queue;
    }
  }

  lemma StepProgress(w: World, initial: Client, initialStatus: Status, s: State)
    requires Good(w, s) && s.queue != [] && Progress(w, s) && PlanInGroups(w, s)
    ensures Progress(w, Step(w, initial, initialStatus, s))
  {
    var client := s.queue[0];
    assert client in s.queue;
    var fs := PlanOf(s.plan, client);
    var sub := EffectiveSub(w, client, fs);
    var status := OutcomeFor(w, initial, initialStatus, client, sub);
    var log := if client == initial then s.log else s.log + [Attempt(client, sub, status)];
    var r := Recorded(s, status, log);
    if status.Ok? {
      AcceptedProgress(w, s, r, r.(accepted := s.accepted + {client}, groups := MarkDelivered(s.groups, fs)));
    } else if Safe(status) {
      SafeProgress(w, s, status, log);
    } else {
      AmbiguousProgress(w, s, status, log);
    }
  }

  lemma AcceptedProgress(w: World, s: State, r: State, t: State)
    requires QueueOk(s) && PlanOk(s) && s.queue != [] && Progress(w, s) && s.queue[0] !in s.attempted
    requires r == Recorded(s, Ok, r.log)
    requires t == r.(accepted := s.accepted + {s.queue[0]}, groups := MarkDelivered(s.groups, PlanOf(s.plan, s.queue[0])))
    ensures Progress(w, t)
  {
    assert forall c, h :: Holds(t, c, h) <==> Holds(s, c, h);
    assert forall f :: f in s.groups && Holds(s, s.queue[0], f) ==> t.groups[f].delivered;
    assert forall f :: f in s.groups && s.groups[f].delivered ==> t.groups[f].delivered;
    assert AcceptedDelivers(t);
    assert HoldersMembers(w, t);
    PlannedKept(s, t);
    forall f | f in w.shared && f in t.groups && w.shared[f] != map[] ensures Live(t, f) {
      assert Live(s, f);
      if !Holds(s, s.queue[0], f) { RecordedLive(s, t, Ok, f); }
    }
  }

  lemma PlannedKept(s: State, t: State)
    requires QueuedPlanned(s) && t.queued == s.queued && t.plan == s.plan
    ensures QueuedPlanned(t)
  {
    forall c | c in t.queued ensures exists f :: Holds(t, c, f) {
      var f :| Holds(s, c, f);
      assert Holds(t, c, f);
    }
  }

  lemma AmbiguousProgress(w: World, s: State, status: Status, log: seq<Attempt>)
    requires Good(w, s) && s.queue != [] && Progress(w, s) && s.queue[0] !in s.attempted && Ambiguous(status)
    ensures Progress(w, Recorded(s, status, log))
  {
    var t := Recorded(s, status, log);
    assert forall c, h :: Holds(t, c, h) <==> Holds(s, c, h);
    PlannedKept(s, t);
    forall f | f in w.shared && f in t.groups && w.shared[f] != map[] ensures Live(t, f) {
      if Holds(s, s.queue[0], f) {
        assert Holds(t, s.queue[0], f);
        assert Stopped(t, f);
      } else {
        RecordedLive(s, t, status, f);
      }
    }
  }

  lemma SafeProgress(w: World, s: State, status: Status, log: seq<Attempt>)
    requires Good(w, s) && s.queue != [] && Progress(w, s) && s.queue[0] !in s.attempted && Safe(status)
    requires forall f :: f in PlanOf(s.plan, s.queue[0]) ==> f in s.groups
    ensures Progress(w, AdvanceAll(Recorded(s, status, log), PlanOf(s.plan, s.queue[0])))
  {
    var client, t := s.queue[0], Recorded(s, status, log);
    var fs := PlanOf(s.plan, client);
    assert forall c, h :: Holds(t, c, h) <==> Holds(s, c, h);
    FailedStepInv(w, s, status, log);
    PlannedKept(s, t);
    forall f | f in fs ensures f in t.groups && Idle(t, f) { assert Holds(s, client, f); }
    forall f | f in t.groups && f !in fs && w.shared[f] != map[] ensures Live(t, f) { RecordedLive(s, t, status, f); }
    AdvanceAllProgress(w, t, fs);
  }

  lemma InitialLive(w: World, s: State, f: Filter)
    requires ConsistentSelection(w) && f in w.shared && w.shared[f] != map[] && f in s.groups
    requires s.queue == w.queueOrder && Enumerates(w.queueOrder, w.selected) && Holds(s, Selected(w, f), f)
    ensures Live(s, f)
  {
    assert f in w.selectedGroups;
    assert Selected(w, f) in s.queue;
    assert Waiting(s, f);
  }

  lemma InitialProgress(w: World)
    requires ValidOrders(w) && ConsistentSelection(w)
    ensures Progress(w, Initial(w))
  {
    var s := Initial(w);
    InitialHolds(w);
    assert QueuedPlanned(s) by {
      forall c | c in s.queued ensures exists f :: Holds(s, c, f) {
        var f :| f in w.selectedGroups && w.selectedGroups[f] == c;
        assert Holds(s, c, f);
      }
    }
    forall f | f in w.shared && f in s.groups && w.shared[f] != map[] ensures Live(s, f) {
      InitialLive(w, s, f);
    }
  }

  // ---------------------------------------------------------------- whole runs

  lemma {:induction false} RunLog(w: World, initial: Client, initialStatus: Status, s: State)
    requires Good(w, s) && LogOk(s, initial)
    ensures LogOk(Run(w, initial, initialStatus, s), initial)
    decreases Measure(w, s)
  {
    if s.queue != [] {
      StepGood(w, initial, initialStatus, s);
      assert s.queue[0] in s.queue;
      StepLog(w, initial, initialStatus, s);
      RunLog(w, initial, initialStatus, Step(w, initial, initialStatus, s));
    }
  }

  lemma {:induction false} RunProgress(w: World, initial: Client, initialStatus: Status, s: State)
    requires Good(w, s) && Progress(w, s)
    ensures Progress(w, Run(w, initial, initialStatus, s))
    decreases Measure(w, s)
  {
    if s.queue != [] {
      StepGood(w, initial, initialStatus, s);
      StepProgress(w, initial, initialStatus, s);
      RunProgress(w, initial, initialStatus, Step(w, initial, initialStatus, s));
    }
  }

  /** The planner's final state for one publish. */
  ghost function Final(w: World, initial: Client, initialStatus: Status): State
    requires ValidOrders(w)
  {
    InitialGood(w);
    Run(w, initial, initialStatus, Initial(w))
  }

  /** The client was attempted and may hold the message. */
  predicate Taker(s: State, c: Client) {
    c in s.attempted && !Safe(s.attempted[c])
  }

  lemma OneHolderLeft(s: State, f: Filter, c1: Client, c2: Client)
    requires OneToken(s, f) && Holds(s, c1, f) && Holds(s, c2, f) && !Spent(s, c1) && !Spent(s, c2)
    ensures c1 == c2
  {
  }

  /** In every reachable state, at most one client planned for a group has accepted it or may have. */
  lemma OneTakerAt(w: World, s: State, f: Filter, c1: Client, c2: Client)
    requires Good(w, s) && f in w.shared
    requires Holds(s, c1, f) && Taker(s, c1) && Holds(s, c2, f) && Taker(s, c2)
    ensures c1 == c2
  {
    GoodAt(w, s, f);
    OneHolderLeft(s, f, c1, c2);
  }

  /** Whatever the groups, orders and outcomes, at most one client planned for a filter ends up having
      accepted the publish, or possibly having accepted it. */
  lemma AtMostOneTaker(w: World, initial: Client, initialStatus: Status, f: Filter, c1: Client, c2: Client)
    requires ValidOrders(w)
    requires var t := Final(w, initial, initialStatus); Holds(t, c1, f) && Taker(t, c1) && Holds(t, c2, f) && Taker(t, c2)
    ensures f in w.shared && c1 == c2
  {
    var t := Final(w, initial, initialStatus);
    FinalGood(w, initial, initialStatus);
    assert f in t.groups;
    OneTakerAt(w, t, f, c1, c2);
  }

  lemma FinalGood(w: World, initial: Client, initialStatus: Status)
    requires ValidOrders(w)
    ensures var t := Final(w, initial, initialStatus); Good(w, t) && t.groups.Keys == w.shared.Keys && PlanOk(t)
  {
    InitialGood(w);
  }

  /** A client attempted for a group is a member of it. */
  lemma TakerIsMember(w: World, initial: Client, initialStatus: Status, f: Filter, c: Client)
    requires ValidOrders(w) && ConsistentSelection(w) && "" !in Universe(w)
    requires var t := Final(w, initial, initialStatus); Holds(t, c, f) && Taker(t, c)
    ensures f in w.shared && c in w.shared[f]
  {
    FinalProgress(w, initial, initialStatus);
    FinalGood(w, initial, initialStatus);
    var t := Final(w, initial, initialStatus);
    assert f in t.groups && c in t.queued && c in Universe(w);
    assert HoldersMembers(w, t);
  }

  /** No client is attempted twice, whatever the selection and the outcomes. */
  lemma NoClientAttemptedTwice(w: World, initial: Client, initialStatus: Status)
    requires ValidOrders(w)
    ensures var t := Final(w, initial, initialStatus);
            && (forall i, j :: 0 <= i < j < |t.log| ==> t.log[i].client != t.log[j].client)
            && (forall c :: c in t.attempted && c != initial <==> exists i :: 0 <= i < |t.log| && t.log[i].client == c)
            && (forall i :: 0 <= i < |t.log| ==> t.log[i].client != initial)
  {
    InitialGood(w);
    RunLog(w, initial, initialStatus, Initial(w));
  }

  lemma {:induction false} InjectionBound(s: State, cs: set<Client>, fs: set<Filter>)
    requires forall c :: c in cs ==> exists f :: f in fs && Holds(s, c, f)
    requires forall c, d, f :: c in cs && d in cs && Holds(s, c, f) && Holds(s, d, f) ==> c == d
    ensures |cs| <= |fs|
    decreases cs
  {
    if cs != {} {
      var c :| c in cs;
      var f :| f in fs && Holds(s, c, f);
      forall d | d in cs - {c} ensures exists h :: h in fs - {f} && Holds(s, d, h) {
        var h :| h in fs && Holds(s, d, h);
        assert h != f;
      }
      InjectionBound(s, cs - {c}, fs - {f});
    }
  }

  /** Acceptances never outnumber the groups. */
  lemma AcceptancesBounded(w: World, initial: Client, initialStatus: Status)
    requires ValidOrders(w) && ConsistentSelection(w)
    ensures |Final(w, initial, initialStatus).accepted| <= |w.shared|
  {
    FinalProgress(w, initial, initialStatus);
    var t := Final(w, initial, initialStatus);
    forall c | c in t.accepted ensures exists f :: f in w.shared.Keys && Holds(t, c, f) {
      assert c in t.queued;
      var f :| Holds(t, c, f);
      assert f in t.groups;
    }
    forall c, d, f | c in t.accepted && d in t.accepted && Holds(t, c, f) && Holds(t, d, f) ensures c == d {
      assert f in t.groups;
      OneTakerAt(w, t, f, c, d);
    }
    InjectionBound(t, t.accepted, w.shared.Keys);
  }

  ghost predicate Exhausted(w: World, t: State, f: Filter)
    requires f in w.shared
  {
    forall c :: c in w.shared[f] ==> c in t.attempted && !t.attempted[c].Ok?
  }

  /** The group has an accepting member, or stopped on an ambiguous failure of a member
      planned for it, or has had every member attempted and none accepted. */
  ghost predicate Settled(w: World, t: State, f: Filter)
    requires f in w.shared && f in t.groups
  {
    || (t.groups[f].delivered && exists c :: c in w.shared[f] && c in t.accepted)
    || (exists c :: c in w.shared[f] && Holds(t, c, f) && c in t.attempted && Ambiguous(t.attempted[c]))
    || Exhausted(w, t, f)
  }

  /** Every run ends with every group settled. */
  lemma EveryGroupSettled(w: World, initial: Client, initialStatus: Status, f: Filter)
    requires ValidOrders(w) && ConsistentSelection(w) && "" !in Universe(w) && f in w.shared
    ensures f in Final(w, initial, initialStatus).groups
    ensures Settled(w, Final(w, initial, initialStatus), f)
  {
    FinalProgress(w, initial, initialStatus);
    SettledAtEnd(w, Final(w, initial, initialStatus), f);
  }

  lemma FinalProgress(w: World, initial: Client, initialStatus: Status)
    requires ValidOrders(w) && ConsistentSelection(w)
    ensures var t := Final(w, initial, initialStatus); Good(w, t) && Progress(w, t) && t.queue == []
  {
    InitialGood(w);
    InitialProgress(w);
    RunProgress(w, initial, initialStatus, Initial(w));
  }

  lemma SettledAtEnd(w: World, t: State, f: Filter)
    requires Good(w, t) && Progress(w, t) && t.queue == []
    requires ConsistentSelection(w) && "" !in Universe(w) && f in w.shared
    ensures f in t.groups && Settled(w, t, f)
  {
    GoodAt(w, t, f);
    if w.shared[f] == map[] {
      MemberlessSettles(w, t, f);
    } else {
      ProgressAt(w, t, f);
      LiveSettles(w, t, f);
    }
  }

  lemma ProgressAt(w: World, t: State, f: Filter)
    requires Progress(w, t) && f in w.shared && f in t.groups && w.shared[f] != map[]
    ensures Live(t, f) && HoldersMembers(w, t)
  {
  }

  lemma MemberlessSettles(w: World, t: State, f: Filter)
    requires f in w.shared && f in t.groups && w.shared[f] == map[]
    ensures Settled(w, t, f)
  {
  }

  lemma LiveSettles(w: World, t: State, f: Filter)
    requires f in w.shared && w.shared[f] != map[] && f in t.groups && Live(t, f) && t.queue == []
    requires FilterInv(w, t, f) && GroupOk(t.groups[f], w.shared[f].Keys) && QueueOk(t)
    requires t.queued <= Universe(w) && HoldersMembers(w, t) && ConsistentSelection(w) && "" !in Universe(w)
    ensures Settled(w, t, f)
  {
    if t.groups[f].delivered {
      DeliveredHasMember(w, t, f);
    } else if Stopped(t, f) {
      StoppedHasMember(w, t, f);
    } else {
      ExhaustedWhenSpun(w, t, f);
    }
  }

  lemma StoppedHasMember(w: World, t: State, f: Filter)
    requires QueueOk(t) && t.queued <= Universe(w) && HoldersMembers(w, t) && "" !in Universe(w)
    requires f in w.shared && f in t.groups && Stopped(t, f) && ConsistentSelection(w)
    ensures Settled(w, t, f)
  {
    var c :| Holds(t, c, f) && c in t.attempted && Ambiguous(t.attempted[c]);
    assert c in Universe(w);
    assert c in w.shared[f];
  }

  lemma DeliveredHasMember(w: World, t: State, f: Filter)
    requires QueueOk(t) && t.queued <= Universe(w) && HoldersMembers(w, t) && "" !in Universe(w)
    requires f in w.shared && f in t.groups && t.groups[f].delivered && ConsistentSelection(w)
    requires DeliveredByAccepted(w, t, f) && GroupOk(t.groups[f], w.shared[f].Keys)
    ensures exists c :: c in w.shared[f] && c in t.accepted
  {
    var c :| c in t.accepted && (Holds(t, c, f) || c in t.groups[f].candidates);
    assert c in Universe(w);
    assert c in w.shared[f];
  }

  lemma ExhaustedWhenSpun(w: World, t: State, f: Filter)
    requires f in w.shared && f in t.groups && Spun(t, f) && BehindUsed(t, f) && !t.groups[f].delivered
    requires GroupOk(t.groups[f], w.shared[f].Keys) && QueueOk(t)
    ensures Exhausted(w, t, f)
  {
    forall c | c in w.shared[f] ensures c in t.attempted && !t.attempted[c].Ok? {
      assert c in t.groups[f].candidates;
      var i :| 0 <= i < |t.groups[f].candidates| && t.groups[f].candidates[i] == c;
      assert Holds(t, c, f) ==> Spent(t, c);
    }
  }
}
