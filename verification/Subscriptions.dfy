/** Subscription records and how the server merges those of one client. */
module Subscriptions {

  type Client = string
  type Filter = string

  datatype Subscription = Subscription(
    filter: string, identifier: int, identifiers: map<string, int>, qos: nat, noLocal: bool)

  /** The zero value of the Go struct. */
  const NO_SUBSCRIPTION := Subscription("", 0, map[], 0, false)

  function Merge(s: Subscription, n: Subscription): Subscription {
    var ids := if s.identifiers == map[] then map[s.filter := s.identifier] else s.identifiers;
    s.(identifiers := if n.identifier > 0 then ids[n.filter := n.identifier] else ids,
       qos := if n.qos > s.qos then n.qos else s.qos,
       noLocal := s.noLocal || n.noLocal)
  }

  // ---------------------------------------------------------------- what merging keeps

  /** The identifiers a subscription carries: its list, or its own when it has none. */
  function Ids(s: Subscription): map<string, int> {
    if s.identifiers == map[] then map[s.filter := s.identifier] else s.identifiers
  }

  /** The subscription carries this identifier for this filter, as its own or in its list. */
  ghost predicate Gives(s: Subscription, filter: string, identifier: int) {
    || (s.filter == filter && s.identifier == identifier)
    || (filter in s.identifiers && s.identifiers[filter] == identifier)
  }

  ghost predicate GivenBySome(from: set<Subscription>, filter: string, identifier: int) {
    exists s :: s in from && Gives(s, filter, identifier)
  }

  ghost predicate SomeQos(from: set<Subscription>, qos: nat) {
    exists s :: s in from && s.qos == qos
  }

  ghost predicate SomeNoLocal(from: set<Subscription>) {
    exists s :: s in from && s.noLocal
  }

  /** Everything in `sub` comes from these subscriptions, and its filter from the base. */
  ghost predicate ComesFrom(sub: Subscription, base: Subscription, from: set<Subscription>) {
    && base in from && sub.filter == base.filter && sub.identifier == base.identifier
    && SomeQos(from, sub.qos) && (sub.noLocal ==> SomeNoLocal(from))
    && (forall k :: k in Ids(sub) ==> GivenBySome(from, k, Ids(sub)[k]))
  }

  /** `sub` asks for no less than one subscription, and lists its identifier. */
  ghost predicate Includes(sub: Subscription, s: Subscription) {
    s.qos <= sub.qos && (s.noLocal ==> sub.noLocal) && (s.identifier > 0 ==> s.filter in Ids(sub))
  }

  /** It asks for no less than the base and lists all of its identifiers. */
  ghost predicate Extends(sub: Subscription, base: Subscription) {
    base.qos <= sub.qos && (base.noLocal ==> sub.noLocal) && Ids(base).Keys <= Ids(sub).Keys
  }

  /** `sub` is the base with the others merged in: the highest quality of service, no-local when any asks for it,
      all identifiers of the base and every other's own. */
  ghost predicate MergedOnto(sub: Subscription, base: Subscription, more: set<Subscription>) {
    ComesFrom(sub, base, more + {base}) && Extends(sub, base) && forall s :: s in more ==> Includes(sub, s)
  }

  /** `sub` is the merge of these subscriptions of one client, onto one of them, with a list of identifiers. */
  ghost predicate Combines(sub: Subscription, from: set<Subscription>) {
    sub.identifiers != map[] && exists base, more :: CombinesOnto(sub, from, base, more)
  }

  ghost predicate CombinesOnto(sub: Subscription, from: set<Subscription>, base: Subscription, more: set<Subscription>) {
    from == more + {base} && MergedOnto(sub, base, more)
  }

  lemma MergeLists(s: Subscription, n: Subscription)
    ensures Merge(s, n).identifiers != map[]
    ensures Ids(Merge(s, n)) == if n.identifier > 0 then Ids(s)[n.filter := n.identifier] else Ids(s)
  {
    assert s.identifiers == map[] ==> s.filter in Ids(s);
    assert n.filter in Ids(s)[n.filter := n.identifier];
  }

  lemma FromItself(s: Subscription)
    ensures ComesFrom(s, s, {s})
  {
    assert s in {s};
    forall k | k in Ids(s) ensures GivenBySome({s}, k, Ids(s)[k]) { assert Gives(s, k, Ids(s)[k]); }
  }

  /** Nothing merged in yet. */
  lemma OntoItself(s: Subscription)
    ensures MergedOnto(s, s, {})
  {
    FromItself(s);
    assert {} + {s} == {s};
  }

  lemma ComesFromMore(sub: Subscription, base: Subscription, from: set<Subscription>, all: set<Subscription>)
    requires ComesFrom(sub, base, from) && from <= all
    ensures ComesFrom(sub, base, all)
  {
    forall k | k in Ids(sub) ensures GivenBySome(all, k, Ids(sub)[k]) {
      var s :| s in from && Gives(s, k, Ids(sub)[k]);
      assert s in all;
    }
  }

  /** Merging two that come from `from` gives one that does. */
  lemma MergeComesFrom(a: Subscription, base: Subscription, b: Subscription, other: Subscription, from: set<Subscription>)
    requires ComesFrom(a, base, from) && ComesFrom(b, other, from)
    ensures ComesFrom(Merge(a, b), base, from)
  {
    MergeLists(a, b);
    var m := Merge(a, b);
    forall k | k in Ids(m) ensures GivenBySome(from, k, Ids(m)[k]) {
      if k == b.filter && b.identifier > 0 { assert Gives(other, k, b.identifier); }
    }
  }

  lemma OntoMore(sub: Subscription, base: Subscription, more: set<Subscription>, n: Subscription)
    requires MergedOnto(sub, base, more)
    ensures MergedOnto(Merge(sub, n), base, more + {n}) && Merge(sub, n).identifiers != map[]
  {
    var from := more + {n} + {base};
    MergeLists(sub, n);
    FromItself(n);
    ComesFromMore(sub, base, more + {base}, from);
    ComesFromMore(n, n, {n}, from);
    MergeComesFrom(sub, base, n, n, from);
    forall s | s in more + {n} ensures Includes(Merge(sub, n), s) {
      if s in more { assert Includes(sub, s); }
    }
  }

  lemma CombinesOne(s: Subscription)
    ensures Combines(Merge(s, s), {s})
  {
    OntoItself(s);
    OntoMore(s, s, {}, s);
    assert {} + {s} == {s} && {s} == {s} + {s};
    assert CombinesOnto(Merge(s, s), {s}, s, {s});
  }

  lemma CombinesMore(sub: Subscription, from: set<Subscription>, n: Subscription)
    requires Combines(sub, from)
    ensures Combines(Merge(sub, n), from + {n})
  {
    var base, more :| CombinesOnto(sub, from, base, more);
    OntoMore(sub, base, more, n);
    assert from + {n} == more + {n} + {base};
    assert CombinesOnto(Merge(sub, n), from + {n}, base, more + {n});
  }

  /** Two stages in one: the others were merged onto `mid`, which came from the base and some of them. */
  lemma OntoThrough(sub: Subscription, mid: Subscription, base: Subscription, more: set<Subscription>)
    requires MergedOnto(sub, mid, more) && ComesFrom(mid, base, more + {base}) && Extends(mid, base)
    ensures MergedOnto(sub, base, more)
  {
    var from := more + {base};
    forall k | k in Ids(sub) ensures GivenBySome(from, k, Ids(sub)[k]) {
      var s :| s in more + {mid} && Gives(s, k, Ids(sub)[k]);
      if s == mid { GivenThrough(mid, base, from, k, Ids(sub)[k]); } else { assert s in from; }
    }
    var s :| s in more + {mid} && s.qos == sub.qos;
    if s != mid { assert s in from; }
  }

  lemma GivenThrough(mid: Subscription, base: Subscription, from: set<Subscription>, k: string, id: int)
    requires ComesFrom(mid, base, from) && Gives(mid, k, id)
    ensures GivenBySome(from, k, id)
  {
    if mid.filter == k && mid.identifier == id {
      assert Gives(base, k, id);
    } else {
      assert k in Ids(mid) && Ids(mid)[k] == id;
    }
  }

  /** Merging two further subscriptions under different filters commutes. */
  lemma MergeCommutes(sub: Subscription, a: Subscription, b: Subscription)
    requires a.filter != b.filter
    ensures Merge(Merge(sub, a), b) == Merge(Merge(sub, b), a)
  {
    var ids := if sub.identifiers == map[] then map[sub.filter := sub.identifier] else sub.identifiers;
    assert ids != map[] by { if sub.identifiers == map[] { assert sub.filter in ids; } }
    assert a.filter in ids[a.filter := a.identifier] && b.filter in ids[b.filter := b.identifier];
  }
}
