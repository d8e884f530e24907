/** The session reconciler: one pass over the offline sessions, moving what has drifted from its owner. */
module Reconciler {
  import opened Placement

  /** An offline session and its filters. */
  datatype OfflineSession = OfflineSession(client: string, filters: seq<string>)

  /** Registered owners, by client and filter. */
  type Owners = map<(string, string), string>

  /** Each client's ranking of the nodes. */
  type Ranks = string -> Rank

  /** Where a client's filters belong. */
  function Target(ranks: Ranks, client: string, live: seq<string>): string
    requires live != []
  {
    OwnerOf(ranks(client), live)
  }

  ghost predicate Listed(sessions: seq<OfflineSession>, client: string, filter: string) {
    exists s :: s in sessions && s.client == client && filter in s.filters
  }

  /** Every listed filter is registered to its target. */
  ghost predicate Settled(owners: Owners, sessions: seq<OfflineSession>, ranks: Ranks, live: seq<string>)
    requires live != []
  {
    forall c, f :: Listed(sessions, c, f) ==> (c, f) in owners && owners[(c, f)] == Target(ranks, c, live)
  }

  /** How many of the Place calls in this range succeed. */
  ghost function Successes(placed: nat -> bool, lo: nat, hi: nat): nat
    decreases hi
  {
    if hi <= lo then 0 else Successes(placed, lo, hi - 1) + if placed(hi - 1) then 1 else 0
  }

  lemma {:induction false} SuccessesJoin(placed: nat -> bool, lo: nat, mid: nat, hi: nat)
    requires lo <= mid <= hi
    ensures Successes(placed, lo, mid) + Successes(placed, mid, hi) == Successes(placed, lo, hi)
    decreases hi
  {
    if mid < hi { SuccessesJoin(placed, lo, mid, hi - 1); }
  }

  lemma {:induction false} AllSucceed(placed: nat -> bool, lo: nat, hi: nat)
    requires lo <= hi
    ensures Successes(placed, lo, hi) <= hi - lo
    ensures Successes(placed, lo, hi) == hi - lo <==> forall k :: lo <= k < hi ==> placed(k)
    decreases hi
  {
    if lo < hi { AllSucceed(placed, lo, hi - 1); }
  }

  /** The filters a session's loop tried to move, one Place call each, starting with call number `start`. */
  ghost predicate Tried(owners: Owners, after: Owners, s: OfflineSession, owner: string, placed: nat -> bool, start: nat, tried: seq<string>) {
    && (forall j :: 0 <= j < |tried| ==> tried[j] in s.filters && !((s.client, tried[j]) in owners && owners[(s.client, tried[j])] == owner))
    && (forall j :: 0 <= j < |tried| && placed(start + j) ==> (s.client, tried[j]) in after && after[(s.client, tried[j])] == owner)
    && (forall k :: k in after && (k !in owners || after[k] != owners[k]) ==>
          k.0 == s.client && TriedWell(placed, start, tried, k.1))
  }

  /** The filter was tried, and the call succeeded. */
  ghost predicate TriedWell(placed: nat -> bool, start: nat, tried: seq<string>, f: string) {
    exists j :: 0 <= j < |tried| && tried[j] == f && placed(start + j)
  }

  lemma TriedMore(owners: Owners, after: Owners, s: OfflineSession, owner: string, placed: nat -> bool, start: nat, tried: seq<string>, f: string)
    requires Tried(owners, after, s, owner, placed, start, tried) && f in s.filters && owners.Keys <= after.Keys
    requires !((s.client, f) in owners && owners[(s.client, f)] == owner)
    ensures Tried(owners, if placed(start + |tried|) then after[(s.client, f) := owner] else after, s, owner, placed, start, tried + [f])
  {
    var all, ok := tried + [f], placed(start + |tried|);
    var after' := if ok then after[(s.client, f) := owner] else after;
    assert all[|tried|] == f;
    forall k | k in after' && (k !in owners || after'[k] != owners[k])
      ensures k.0 == s.client && TriedWell(placed, start, all, k.1)
    {
      if !(ok && k == (s.client, f)) {
        var j :| 0 <= j < |tried| && tried[j] == k.1 && placed(start + j);
        assert all[j] == k.1;
      }
    }
  }

  /** The inner loop, for one session. `placed(k)` is whether the k-th Place call of the pass succeeds. Every filter
      that is not where it belongs is tried, whatever became of the ones before it. */
  method ReconcileSession(owners: Owners, s: OfflineSession, owner: string, placed: nat -> bool, start: nat)
    returns (after: Owners, moved: nat, calls: nat, ghost tried: seq<string>)
    ensures calls == start + |tried| && moved == Successes(placed, start, calls) && Tried(owners, after, s, owner, placed, start, tried)
    ensures owners.Keys <= after.Keys && (moved == 0 ==> after == owners)
    ensures forall f :: f in s.filters ==> f in tried || ((s.client, f) in owners && owners[(s.client, f)] == owner)
    ensures moved <= calls - start
    ensures moved == calls - start ==> forall f :: f in s.filters ==> (s.client, f) in after && after[(s.client, f)] == owner
  {
    after, moved, calls, tried := owners, 0, start, [];
    for i := 0 to |s.filters|
      invariant calls == start + |tried| && moved == Successes(placed, start, calls) && Tried(owners, after, s, owner, placed, start, tried)
      invariant owners.Keys <= after.Keys && (moved == 0 ==> after == owners)
      invariant forall j :: 0 <= j < i ==>
                  s.filters[j] in tried || ((s.client, s.filters[j]) in owners && owners[(s.client, s.filters[j])] == owner)
    {
      var key := (s.client, s.filters[i]);
      KeptOrTried(owners, after, s, owner, placed, start, tried, s.filters[i]);
      if key in after && after[key] == owner {
        continue;
      }
      TriedMore(owners, after, s, owner, placed, start, tried, s.filters[i]);
      calls := calls + 1;
      tried := tried + [s.filters[i]];
      if placed(calls - 1) {
        after := after[key := owner];
        moved := moved + 1;
      }
    }
    AllSucceed(placed, start, calls);
    if moved == calls - start { AllMoved(owners, after, s, owner, placed, start, tried); }
  }

  /** When every call succeeded, every filter is where it belongs. */
  lemma AllMoved(owners: Owners, after: Owners, s: OfflineSession, owner: string, placed: nat -> bool, start: nat, tried: seq<string>)
    requires Tried(owners, after, s, owner, placed, start, tried) && owners.Keys <= after.Keys
    requires forall f :: f in s.filters ==> f in tried || ((s.client, f) in owners && owners[(s.client, f)] == owner)
    requires forall k :: start <= k < start + |tried| ==> placed(k)
    ensures forall f :: f in s.filters ==> (s.client, f) in after && after[(s.client, f)] == owner
  {
    forall f | f in s.filters ensures (s.client, f) in after && after[(s.client, f)] == owner {
      if f in tried {
        var j :| 0 <= j < |tried| && tried[j] == f;
        assert placed(start + j);
      } else {
        KeptOrTried(owners, after, s, owner, placed, start, tried, f);
      }
    }
  }

  lemma KeptOrTried(owners: Owners, after: Owners, s: OfflineSession, owner: string, placed: nat -> bool, start: nat, tried: seq<string>, f: string)
    requires Tried(owners, after, s, owner, placed, start, tried) && owners.Keys <= after.Keys
    ensures var key := (s.client, f);
            && (key in owners && owners[key] == owner ==> key in after && after[key] == owner)
            && (key in after && after[key] == owner ==> f in tried || (key in owners && owners[key] == owner))
  {
  }

  ghost predicate AtTarget(owners: Owners, ranks: Ranks, live: seq<string>, k: (string, string))
    requires live != []
  {
    k in owners && owners[k] == Target(ranks, k.0, live)
  }

  ghost predicate PlacedBy(placed: nat -> bool, log: seq<(string, string)>, k: (string, string)) {
    exists j :: 0 <= j < |log| && log[j] == k && placed(j)
  }

  /** A pass over these sessions with these Place calls: each call names a listed filter that was not where it belongs;
      a successful one has moved it there, and nothing else has moved; every listed filter was tried or is there. */
  ghost predicate Pass(owners: Owners, after: Owners, sessions: seq<OfflineSession>, ranks: Ranks, live: seq<string>,
                       placed: nat -> bool, log: seq<(string, string)>)
    requires live != []
  {
    && owners.Keys <= after.Keys
    && (forall j :: 0 <= j < |log| ==> Listed(sessions, log[j].0, log[j].1) && !AtTarget(owners, ranks, live, log[j]))
    && (forall j :: 0 <= j < |log| && placed(j) ==> AtTarget(after, ranks, live, log[j]))
    && (forall k :: k in after && (k !in owners || after[k] != owners[k]) ==> PlacedBy(placed, log, k))
    && (forall c, f :: Listed(sessions, c, f) ==> (c, f) in log || AtTarget(after, ranks, live, (c, f)))
  }

  ghost function Keys(client: string, filters: seq<string>): (keys: seq<(string, string)>)
    ensures |keys| == |filters| && forall j :: 0 <= j < |keys| ==> keys[j] == (client, filters[j])
  {
    seq(|filters|, j requires 0 <= j < |filters| => (client, filters[j]))
  }

  /** A session's loop never moves a filter away from where it belongs. */
  lemma TargetsKept(before: Owners, after: Owners, s: OfflineSession, ranks: Ranks, live: seq<string>, placed: nat -> bool,
                    start: nat, tried: seq<string>, k: (string, string))
    requires live != [] && Tried(before, after, s, Target(ranks, s.client, live), placed, start, tried) && before.Keys <= after.Keys
    requires AtTarget(before, ranks, live, k)
    ensures AtTarget(after, ranks, live, k)
  {
    assert after[k] != before[k] ==> TriedWell(placed, start, tried, k.1);
  }

  /** What was at its target when the pass started is still there, so no later call names it. */
  lemma StillThere(owners: Owners, after: Owners, sessions: seq<OfflineSession>, ranks: Ranks, live: seq<string>,
                   placed: nat -> bool, log: seq<(string, string)>, k: (string, string))
    requires live != [] && Pass(owners, after, sessions, ranks, live, placed, log) && AtTarget(owners, ranks, live, k)
    ensures AtTarget(after, ranks, live, k)
  {
    assert after[k] != owners[k] ==> PlacedBy(placed, log, k);
  }

  lemma PassCalls(owners: Owners, before: Owners, after: Owners, done: seq<OfflineSession>, s: OfflineSession, ranks: Ranks,
                  live: seq<string>, placed: nat -> bool, log: seq<(string, string)>, tried: seq<string>, j: nat)
    requires live != [] && Pass(owners, before, done, ranks, live, placed, log) && before.Keys <= after.Keys
    requires Tried(before, after, s, Target(ranks, s.client, live), placed, |log|, tried) && j < |log + Keys(s.client, tried)|
    ensures var k := (log + Keys(s.client, tried))[j];
            && Listed(done + [s], k.0, k.1) && !AtTarget(owners, ranks, live, k)
            && (placed(j) ==> AtTarget(after, ranks, live, k))
  {
    var k := (log + Keys(s.client, tried))[j];
    if j < |log| {
      assert Listed(done, k.0, k.1);
      var t :| t in done && t.client == k.0 && k.1 in t.filters;
      assert t in done + [s];
      if placed(j) { TargetsKept(before, after, s, ranks, live, placed, |log|, tried, k); }
    } else {
      assert k == (s.client, tried[j - |log|]) && s in done + [s];
      if AtTarget(owners, ranks, live, k) { StillThere(owners, before, done, ranks, live, placed, log, k); }
    }
  }

  lemma PassMoves(owners: Owners, before: Owners, after: Owners, done: seq<OfflineSession>, s: OfflineSession, ranks: Ranks,
                  live: seq<string>, placed: nat -> bool, log: seq<(string, string)>, tried: seq<string>, k: (string, string))
    requires live != [] && Pass(owners, before, done, ranks, live, placed, log)
    requires Tried(before, after, s, Target(ranks, s.client, live), placed, |log|, tried)
    requires k in after && (k !in owners || after[k] != owners[k])
    ensures PlacedBy(placed, log + Keys(s.client, tried), k)
  {
    var all := log + Keys(s.client, tried);
    if k in before && after[k] == before[k] {
      var j :| 0 <= j < |log| && log[j] == k && placed(j);
      assert all[j] == k;
    } else {
      var j :| 0 <= j < |tried| && tried[j] == k.1 && placed(|log| + j);
      assert all[|log| + j] == k;
    }
  }

  lemma PassAttends(before: Owners, after: Owners, done: seq<OfflineSession>, s: OfflineSession, ranks: Ranks, live: seq<string>,
                    placed: nat -> bool, log: seq<(string, string)>, tried: seq<string>, c: string, f: string)
    requires live != [] && (Listed(done, c, f) ==> (c, f) in log || AtTarget(before, ranks, live, (c, f)))
    requires Tried(before, after, s, Target(ranks, s.client, live), placed, |log|, tried) && before.Keys <= after.Keys
    requires forall g :: g in s.filters ==> g in tried || AtTarget(before, ranks, live, (s.client, g))
    requires Listed(done + [s], c, f)
    ensures (c, f) in log + Keys(s.client, tried) || AtTarget(after, ranks, live, (c, f))
  {
    var t :| t in done + [s] && t.client == c && f in t.filters;
    if AtTarget(before, ranks, live, (c, f)) {
      TargetsKept(before, after, s, ranks, live, placed, |log|, tried, (c, f));
    } else if t in done {
      assert Listed(done, c, f);
    } else {
      var j :| 0 <= j < |tried| && tried[j] == f;
      assert (log + Keys(s.client, tried))[|log| + j] == (c, f);
    }
  }

  lemma PassMore(owners: Owners, before: Owners, after: Owners, done: seq<OfflineSession>, s: OfflineSession, ranks: Ranks,
                 live: seq<string>, placed: nat -> bool, log: seq<(string, string)>, tried: seq<string>)
    requires live != [] && Pass(owners, before, done, ranks, live, placed, log) && before.Keys <= after.Keys
    requires Tried(before, after, s, Target(ranks, s.client, live), placed, |log|, tried)
    requires forall g :: g in s.filters ==> g in tried || AtTarget(before, ranks, live, (s.client, g))
    ensures Pass(owners, after, done + [s], ranks, live, placed, log + Keys(s.client, tried))
  {
    var all := log + Keys(s.client, tried);
    forall j | 0 <= j < |all|
      ensures Listed(done + [s], all[j].0, all[j].1) && !AtTarget(owners, ranks, live, all[j])
      ensures placed(j) ==> AtTarget(after, ranks, live, all[j])
    {
      PassCalls(owners, before, after, done, s, ranks, live, placed, log, tried, j);
    }
    forall k | k in after && (k !in owners || after[k] != owners[k]) ensures PlacedBy(placed, all, k) {
      PassMoves(owners, before, after, done, s, ranks, live, placed, log, tried, k);
    }
    forall c, f | Listed(done + [s], c, f) ensures (c, f) in all || AtTarget(after, ranks, live, (c, f)) {
      PassAttends(before, after, done, s, ranks, live, placed, log, tried, c, f);
    }
  }

  /** ReconcileOnce. `live` is empty when no edge node is up; `inventoryOk` is false when the inventory
      cannot be read; `placed(k)` is whether the k-th Place call, for `log[k]`, succeeds. */
  method ReconcileOnce(owners: Owners, sessions: seq<OfflineSession>, ranks: Ranks, live: seq<string>,
                       inventoryOk: bool, placed: nat -> bool)
    returns (after: Owners, moved: nat, calls: nat, ghost log: seq<(string, string)>)
    ensures calls == |log| && moved == Successes(placed, 0, calls)
    ensures live == [] || !inventoryOk ==> after == owners && calls == 0
    ensures live != [] && inventoryOk ==> Pass(owners, after, sessions, ranks, live, placed, log)
    ensures live != [] && inventoryOk && moved == calls ==> Settled(after, sessions, ranks, live)
    ensures live != [] && inventoryOk && Settled(owners, sessions, ranks, live) ==> calls == 0 && after == owners
  {
    after, moved, calls, log := owners, 0, 0, [];
    if |live| == 0 || !inventoryOk {
      return;
    }
    for i := 0 to |sessions|
      invariant calls == |log| && moved == Successes(placed, 0, calls)
      invariant Pass(owners, after, sessions[..i], ranks, live, placed, log)
    {
      var s := sessions[i];
      var owner, found := Owner(ranks(s.client), live);
      if !found {
        continue;
      }
      var before, done := after, calls;
      var more;
      ghost var tried;
      after, more, calls, tried := ReconcileSession(before, s, owner, placed, done);
      SuccessesJoin(placed, 0, done, calls);
      PassMore(owners, before, after, sessions[..i], s, ranks, live, placed, log, tried);
      assert sessions[..i] + [s] == sessions[..i + 1];
      log := log + Keys(s.client, tried);
      moved := moved + more;
    }
    assert sessions[..|sessions|] == sessions;
    AllSucceed(placed, 0, calls);
    PassSettles(owners, after, sessions, ranks, live, placed, log);
  }

  /** A pass whose calls all succeeded leaves everything where it belongs; one that finds it so makes no call. */
  lemma PassSettles(owners: Owners, after: Owners, sessions: seq<OfflineSession>, ranks: Ranks, live: seq<string>,
                    placed: nat -> bool, log: seq<(string, string)>)
    requires live != [] && Pass(owners, after, sessions, ranks, live, placed, log)
    ensures (forall k :: 0 <= k < |log| ==> placed(k)) ==> Settled(after, sessions, ranks, live)
    ensures Settled(owners, sessions, ranks, live) ==> log == [] && after == owners
  {
    if forall k :: 0 <= k < |log| ==> placed(k) {
      forall c, f | Listed(sessions, c, f) ensures AtTarget(after, ranks, live, (c, f)) {
        if (c, f) in log {
          var j :| 0 <= j < |log| && log[j] == (c, f);
          assert placed(j);
        }
      }
    }
    if log != [] { CalledUnsettled(owners, sessions, ranks, live, log); }
    assert log == [] ==> forall k :: !PlacedBy(placed, log, k);
  }

  lemma CalledUnsettled(owners: Owners, sessions: seq<OfflineSession>, ranks: Ranks, live: seq<string>, log: seq<(string, string)>)
    requires live != [] && log != []
    requires forall j :: 0 <= j < |log| ==> Listed(sessions, log[j].0, log[j].1) && !AtTarget(owners, ranks, live, log[j])
    ensures !Settled(owners, sessions, ranks, live)
  {
    assert Listed(sessions, log[0].0, log[0].1);
  }

  /** A pass in which every placement succeeds leaves the next one nothing to place. */
  method ReconcileTwice(owners: Owners, sessions: seq<OfflineSession>, ranks: Ranks, live: seq<string>, placed: nat -> bool)
    returns (first: Owners, second: Owners, again: nat)
    requires forall k :: placed(k)
    ensures again == 0 && second == first
  {
    var moved, calls, unused;
    ghost var log, more;
    first, moved, calls, log := ReconcileOnce(owners, sessions, ranks, live, true, placed);
    AllSucceed(placed, 0, calls);
    second, unused, again, more := ReconcileOnce(first, sessions, ranks, live, true, placed);
  }
}
