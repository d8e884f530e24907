/**
 The in-place trie: particles with parent pointers and child maps, changed by loops that
 walk down, create, and trim upwards. `Model` is the flat index it stands for; every
 method is specified by the operation of `TopicOperations` on that index.
 */
module TopicTrie {
  import opened Subscriptions
  import opened TopicLevels
  import opened TopicIndex
  import opened TopicOperations

  lemma ChildInjective(p: Path, k: string, q: Path, l: string)
    requires Child(p, k) == Child(q, l)
    ensures p == q && k == l
  {
    assert Parent(Child(p, k)) == p && Parent(Child(q, l)) == q;
  }

  class Particle {
    const key: string
    const parent: Particle?
    ghost const path: Path
    var children: map<string, Particle>
    var entry: Entry

    constructor (key: string, parent: Particle?, ghost path: Path)
      ensures this.key == key && this.parent == parent && this.path == path
      ensures children == map[] && entry == EMPTY
    {
      this.key, this.parent, this.path, children, entry := key, parent, path, map[], EMPTY;
    }
  }

  /** SharedSubscriptions.Len: members over all groups. */
  function SharedLen(shared: map<string, map<Client, Subscription>>): nat {
    |set g, c | g in shared && c in shared[g] :: (g, c)|
  }

  lemma SharedLenZero(shared: map<string, map<Client, Subscription>>)
    requires forall g :: g in shared ==> shared[g] != map[]
    ensures SharedLen(shared) == 0 <==> shared == map[]
  {
    var members := set g, c | g in shared && c in shared[g] :: (g, c);
    if shared == map[] {
      assert members == {};
    } else {
      var g :| g in shared;
      var c :| c in shared[g];
      assert (g, c) in members;
    }
  }

  // ---------------------------------------------------------------- what holds at each particle

  /** Names a particle to apply the invariants at. */
  ghost predicate Look(n: Particle) {
    true
  }

  /** The particle is the one at its address, and its share groups are not empty. */
  ghost predicate Placed(n: Particle, held: Entry, at: map<Path, Particle>) {
    && n.path in at && at[n.path] == n
    && forall g :: g in held.shared ==> held.shared[g] != map[]
  }

  /** Child pointers lead to the particles one level down. */
  ghost predicate ChildrenOk(n: Particle, children: map<string, Particle>, repr: set<Particle>) {
    forall k :: k in children ==> children[k] in repr && children[k].parent == n && children[k].key == k
  }

  /** Parent pointers lead one level up, where the particle is listed under its key. */
  ghost predicate ParentOk(n: Particle, up: Particle, siblings: map<string, Particle>) {
    n.path == Child(up.path, n.key) && n.key in siblings && siblings[n.key] == n
  }

  // ---------------------------------------------------------------- the trie

  class Trie {
    const root: Particle
    ghost var repr: set<Particle>
    ghost var at: map<Path, Particle>

    /** The flat index the particles stand for. */
    ghost function Model(): Index
      requires Rooted()
      reads this, repr
    {
      map p | p in at :: at[p].entry
    }

    ghost predicate Valid()
      reads this, repr
    {
      Rooted() && Mirrored() && Downward() && Upward()
    }

    ghost predicate Rooted()
      reads this
    {
      && root in repr && root.path == [] && root.parent == null
      && (forall p :: p in at ==> at[p] in repr && at[p].path == p)
    }

    /** Each particle is the one at its address; share groups are never empty. */
    ghost predicate Mirrored()
      reads this, repr
    {
      forall n {:trigger Look(n)} :: Look(n) && n in repr ==> Placed(n, n.entry, at)
    }

    /** Child pointers lead to the particles one level down. */
    ghost predicate Downward()
      reads this, repr
    {
      forall n {:trigger Look(n)} :: Look(n) && n in repr ==> ChildrenOk(n, n.children, repr)
    }

    /** Parent pointers lead one level up, where the particle is listed under its key. */
    ghost predicate Upward()
      reads this, repr
    {
      forall n {:trigger Look(n)} :: Look(n) && n in repr && n != root ==>
        n.parent != null && n.parent in repr && ParentOk(n, n.parent, n.parent.children)
    }

    constructor ()
      ensures Valid() && Model() == START && fresh(repr)
    {
      root := new Particle("", null, []);
      new;
      repr := {root};
      at := map[[] := root];
    }

    // -------------------------------------------------------------- pointers and addresses

    lemma ChildIff(n: Particle, k: string)
      requires Valid() && n in repr
      ensures k in n.children <==> Child(n.path, k) in Model()
      ensures k in n.children ==> n.children[k] in repr && n.children[k].path == Child(n.path, k)
    {
      assert Look(n);
      if k in n.children {
        assert Look(n.children[k]);
      }
      if Child(n.path, k) in Model() {
        var c := at[Child(n.path, k)];
        assert Look(c) && c != root;
        ChildInjective(n.path, k, c.parent.path, c.key);
        assert Look(c.parent);
      }
    }

    lemma ModelClosed()
      requires Valid()
      ensures Closed(Model())
    {
      assert Look(root);
      forall p | p in Model() && p != [] ensures Parent(p) in Model() {
        assert Look(at[p]) && Look(at[p].parent);
      }
    }

    lemma HasChildIff(n: Particle)
      requires Valid() && n in repr
      ensures HasChild(Model(), n.path) <==> n.children != map[]
    {
      if n.children != map[] {
        var k :| k in n.children;
        ChildIff(n, k);
        assert Parent(Child(n.path, k)) == n.path;
      }
      if HasChild(Model(), n.path) {
        var q :| q in Model() && q != [] && Parent(q) == n.path;
        assert Look(n) && Look(at[q]) && Look(at[q].parent);
      }
    }

    /** The child of a particle, created when it is missing. */
    method ChildOf(n: Particle, k: string) returns (c: Particle)
      requires Valid() && n in repr
      modifies this, n`children
      ensures Valid() && old(repr) <= repr && fresh(repr - old(repr)) && c in repr && c.path == Child(n.path, k)
      ensures Model() == if c.path in old(Model()) then old(Model()) else old(Model())[c.path := EMPTY]
    {
      ChildIff(n, k);
      if k in n.children {
        c := n.children[k];
      } else {
        c := new Particle(k, n, Child(n.path, k));
        Link(n, c);
      }
    }

    /** Hang a new particle under its parent. */
    method Link(n: Particle, c: Particle)
      requires Valid() && n in repr && c !in repr && c.parent == n && c.path == Child(n.path, c.key) && c.path !in Model()
      requires c.key !in n.children && c.children == map[] && c.entry == EMPTY
      modifies this, n`children
      ensures Valid() && repr == old(repr) + {c} && Model() == old(Model())[c.path := EMPTY]
    {
      PlacesAfter(c);
      DownAfter(n, c);
      UpAfter(n, c);
      n.children := n.children[c.key := c];
      repr := repr + {c};
      at := at[c.path := c];
    }

    /** The addresses as they will be. */
    lemma PlacesAfter(c: Particle)
      requires Rooted() && Mirrored() && c.path !in at
      ensures forall a {:trigger Look(a)} :: Look(a) && a in repr ==> a.path != c.path && Placed(a, a.entry, at[c.path := c])
    {
    }

    /** The child pointers as they will be. */
    lemma DownAfter(n: Particle, c: Particle)
      requires Downward() && n in repr && c.parent == n
      ensures forall a {:trigger Look(a)} :: Look(a) && a in repr ==>
                ChildrenOk(a, if a == n then a.children[c.key := c] else a.children, repr + {c})
    {
    }

    /** The parent pointers as they will be. */
    lemma UpAfter(n: Particle, c: Particle)
      requires Upward() && n in repr && c.key !in n.children
      ensures forall a {:trigger Look(a)} :: Look(a) && a in repr && a != root ==>
                a.parent != null && a.parent in repr
                && ParentOk(a, a.parent, if a.parent == n then n.children[c.key := c] else a.parent.children)
    {
    }

    /** Unlink a childless particle from its parent. */
    method RemoveLeaf(n: Particle)
      requires Valid() && n in repr && n.parent != null && n.children == map[]
      modifies this, n.parent`children
      ensures Valid() && repr == old(repr) - {n} && n.parent in repr
      ensures Model() == old(Model()) - {n.path} && n.path == Child(n.parent.path, n.key)
    {
      assert Look(n) && Look(n.parent);
      n.parent.children := n.parent.children - {n.key};
      repr := repr - {n};
      at := at - {n.path};
    }

    /** Replace what a particle stores. */
    method Store(n: Particle, e: Entry)
      requires Valid() && n in repr && forall g :: g in e.shared ==> e.shared[g] != map[]
      modifies n`entry
      ensures Valid() && Model() == old(Model())[n.path := e] && n.entry == e
    {
      assert Look(n);
      n.entry := e;
    }

    // -------------------------------------------------------------- walking

    /** Walk down the levels of a filter, creating the particles that are missing. */
    method Set(path: Path) returns (n: Particle)
      requires Valid()
      modifies this, repr
      ensures Valid() && fresh(repr - old(repr)) && n in repr
      ensures n.path == path && Model() == Ensure(old(Model()), path)
    {
      n := root;
      assert Look(root);
      for i := 0 to |path|
        invariant Valid() && fresh(repr - old(repr)) && n in repr
        invariant n.path == path[..i] && Model() == Ensure(old(Model()), path[..i])
      {
        TakeStep(path, i);
        EnsureChild(old(Model()), path[..i], path[i]);
        n := ChildOf(n, path[i]);
      }
      assert path[..|path|] == path;
    }

    /** Walk down the levels of a filter as far as they exist. */
    method Seek(path: Path) returns (r: Particle?)
      requires Valid()
      ensures r == null <==> path !in Model()
      ensures r != null ==> r in repr && r.path == path
    {
      var n := root;
      for i := 0 to |path|
        invariant Valid() && n in repr && n.path == path[..i]
      {
        TakeStep(path, i);
        ChildIff(n, path[i]);
        if path[i] !in n.children {
          ModelClosed();
          if path in Model() { PrefixIn(Model(), path[..i + 1], path); }
          return null;
        }
        n := n.children[path[i]];
      }
      assert path[..|path|] == path && Look(n);
      return n;
    }

    /** Remove empty leaves from a particle upwards. */
    method TrimFrom(start: Particle)
      requires Valid() && start in repr
      modifies this, repr
      ensures Valid() && repr <= old(repr) && Model() == Trim(old(Model()), start.path)
    {
      var n: Particle := start;
      while n.parent != null && n.entry.retainPath == "" && |n.children| + |n.entry.subs| + SharedLen(n.entry.shared) + |n.entry.inline| == 0
        invariant Valid() && n in repr && repr <= old(repr)
        invariant Trim(Model(), n.path) == Trim(old(Model()), start.path)
        decreases |n.path|
      {
        LeafIff(n);
        assert Look(n);
        RemoveLeaf(n);
        n := n.parent;
      }
      LeafIff(n);
    }

    /** The loop's test is the flat index's. */
    lemma LeafIff(n: Particle)
      requires Valid() && n in repr
      ensures n.parent == null <==> n.path == []
      ensures n.entry.retainPath == "" && |n.children| + |n.entry.subs| + SharedLen(n.entry.shared) + |n.entry.inline| == 0
          <==> At(Model(), n.path) == EMPTY && !HasChild(Model(), n.path)
      ensures |n.children| == 0 ==> n.children == map[]
    {
      assert Look(n);
      HasChildIff(n);
      SharedLenZero(n.entry.shared);
    }

    // -------------------------------------------------------------- operations

    method Subscribe(client: Client, sub: Subscription) returns (isNew: bool)
      requires Valid()
      modifies this, repr
      ensures Valid() && fresh(repr - old(repr)) && Model() == Apply(old(Model()), Op.Subscribe(client, sub))
      ensures isNew <==> client !in Holders(old(Model()), sub.filter)
    {
      var shared, group, path := Locate(sub.filter);
      isNew := AddAt(path, shared, group, client, sub);
    }

    method AddAt(path: Path, shared: bool, group: string, client: Client, sub: Subscription) returns (isNew: bool)
      requires Valid()
      modifies this, repr
      ensures Valid() && fresh(repr - old(repr)) && path in Ensure(old(Model()), path)
      ensures var m := Ensure(old(Model()), path);
              Model() == m[path := if shared then AddShared(m[path], group, client, sub)
                                   else m[path].(subs := m[path].subs[client := sub])]
      ensures var e := At(old(Model()), path); isNew <==> client !in if shared then Members(e.shared, group) else e.subs
    {
      var n := Set(path);
      EnsureKeeps(old(Model()), path);
      SameEntry(n);
      if shared {
        isNew := client !in Members(n.entry.shared, group);
        Store(n, AddShared(n.entry, group, client, sub));
      } else {
        isNew := client !in n.entry.subs;
        Store(n, n.entry.(subs := n.entry.subs[client := sub]));
      }
    }

    method Unsubscribe(filter: string, client: Client) returns (found: bool)
      requires Valid()
      modifies this, repr
      ensures Valid() && fresh(repr - old(repr)) && Model() == Apply(old(Model()), Op.Unsubscribe(filter, client))
      ensures found <==> AddressOf(filter) in old(Model())
    {
      var shared, group, path := Locate(filter);
      found := RemoveAt(path, shared, group, client);
    }

    method RemoveAt(path: Path, shared: bool, group: string, client: Client) returns (found: bool)
      requires Valid()
      modifies this, repr
      ensures Valid() && repr <= old(repr) && (found <==> path in old(Model()))
      ensures !found ==> Model() == old(Model())
      ensures found ==> var e := old(Model())[path];
              Model() == Trim(old(Model())[path := if shared then DeleteShared(e, group, client)
                                                   else e.(subs := e.subs - {client})], path)
    {
      var n := Seek(path);
      if n == null {
        return false;
      }
      SameEntry(n);
      if shared {
        Store(n, DeleteShared(n.entry, group, client));
      } else {
        Store(n, n.entry.(subs := n.entry.subs - {client}));
      }
      TrimFrom(n);
      return true;
    }

    method InlineSubscribe(id: int, sub: Subscription) returns (isNew: bool)
      requires Valid()
      modifies this, repr
      ensures Valid() && fresh(repr - old(repr)) && Model() == Apply(old(Model()), Op.InlineSubscribe(id, sub))
      ensures isNew <==> id !in At(old(Model()), PathFrom(sub.filter, 0)).inline
    {
      var path := Levels(sub.filter, 0);
      var n := Set(path);
      EnsureKeeps(old(Model()), path);
      SameEntry(n);
      isNew := id !in n.entry.inline;
      Store(n, n.entry.(inline := n.entry.inline[id := sub]));
    }

    method InlineUnsubscribe(id: int, filter: string) returns (found: bool)
      requires Valid()
      modifies this, repr
      ensures Valid() && fresh(repr - old(repr)) && Model() == Apply(old(Model()), Op.InlineUnsubscribe(id, filter))
      ensures found <==> PathFrom(filter, 0) in old(Model())
    {
      var path := Levels(filter, 0);
      found := InlineRemoveAt(path, id);
    }

    method InlineRemoveAt(path: Path, id: int) returns (found: bool)
      requires Valid()
      modifies this, repr
      ensures Valid() && repr <= old(repr) && (found <==> path in old(Model()))
      ensures !found ==> Model() == old(Model())
      ensures found ==> var e := old(Model())[path].(inline := old(Model())[path].inline - {id});
              Model() == if e.inline == map[] then Trim(old(Model())[path := e], path) else old(Model())[path := e]
    {
      var n := Seek(path);
      if n == null {
        return false;
      }
      SameEntry(n);
      Store(n, n.entry.(inline := n.entry.inline - {id}));
      if |n.entry.inline| == 0 {
        TrimFrom(n);
      }
      return true;
    }

    /** RetainMessage's effect on the addresses. */
    method Retain(topic: string, payload: bool)
      requires Valid()
      modifies this, repr
      ensures Valid() && fresh(repr - old(repr)) && Model() == Apply(old(Model()), Op.Retain(topic, payload))
    {
      var path := Levels(topic, 0);
      RetainAt(path, topic, payload);
    }

    method RetainAt(path: Path, topic: string, payload: bool)
      requires Valid()
      modifies this, repr
      ensures Valid() && fresh(repr - old(repr)) && path in Ensure(old(Model()), path)
      ensures var m := Ensure(old(Model()), path);
              var m1 := m[path := m[path].(retainPath := if payload then topic else "")];
              Model() == if payload then m1 else Trim(m1, path)
    {
      var n := Set(path);
      EnsureKeeps(old(Model()), path);
      SameEntry(n);
      if payload {
        Store(n, n.entry.(retainPath := topic));
      } else {
        Store(n, n.entry.(retainPath := ""));
        TrimFrom(n);
      }
    }

    // -------------------------------------------------------------- the topic walk

    /** scanSubscribers from one particle: the entries gathered, in order, and where they are;
        inline subscriptions are gathered from a list of their own. */
    method Scan(t: Path, d: nat, n: Particle)
      returns (hits: seq<Entry>, inlineHits: seq<Entry>, ghost spots: seq<Path>, ghost inlineSpots: seq<Path>)
      requires Valid() && n in repr && d < |t|
      ensures Listing(Model(), spots, hits) && Listing(Model(), inlineSpots, inlineHits)
      ensures forall p :: p in spots <==> Gathers(Model(), n.path, t[d..], p, true)
      ensures forall p :: p in inlineSpots <==> Gathers(Model(), n.path, t[d..], p, false)
      decreases |t| - d, 1
    {
      hits, inlineHits, spots, inlineSpots := ScanVia(t, d, n, t[d]);
      var hits', inlineHits';
      ghost var spots', inlineSpots';
      hits', inlineHits', spots', inlineSpots' := ScanVia(t, d, n, "+");
      hits, inlineHits, spots, inlineSpots := hits + hits', inlineHits + inlineHits', spots + spots', inlineSpots + inlineSpots';
      ChildIff(n, "#");
      if "#" in n.children {
        var wild := n.children["#"];
        SameEntry(wild);
        hits, inlineHits := hits + [wild.entry], inlineHits + [wild.entry];
        spots, inlineSpots := spots + [wild.path], inlineSpots + [wild.path];
      }
    }

    /** The part of the scan that goes through one child. */
    method ScanVia(t: Path, d: nat, n: Particle, key: string)
      returns (hits: seq<Entry>, inlineHits: seq<Entry>, ghost spots: seq<Path>, ghost inlineSpots: seq<Path>)
      requires Valid() && n in repr && d < |t|
      ensures Listing(Model(), spots, hits) && Listing(Model(), inlineSpots, inlineHits)
      ensures forall p :: p in spots <==> GathersVia(Model(), n.path, t[d..], p, true, key)
      ensures forall p :: p in inlineSpots <==> GathersVia(Model(), n.path, t[d..], p, false, key)
      decreases |t| - d, 0
    {
      hits, inlineHits, spots, inlineSpots := [], [], [], [];
      ChildIff(n, key);
      if key in n.children {
        var c := n.children[key];
        if d + 1 < |t| {
          hits, inlineHits, spots, inlineSpots := Scan(t, d + 1, c);
          assert t[d..][1..] == t[d + 1..];
        } else {
          SameEntry(c);
          hits, inlineHits, spots, inlineSpots := [c.entry], [c.entry], [c.path], [c.path];
          ChildIff(c, "#");
          if "#" in c.children && key != "+" {
            var wild := c.children["#"];
            SameEntry(wild);
            hits, inlineHits := hits + [wild.entry], inlineHits + [c.entry];
            spots, inlineSpots := spots + [wild.path], inlineSpots + [c.path];
          }
        }
      }
    }

    lemma SameEntry(n: Particle)
      requires Valid() && n in repr
      ensures n.path in Model() && Model()[n.path] == n.entry
      ensures forall g :: g in n.entry.shared ==> n.entry.shared[g] != map[]
    {
      assert Look(n);
    }
  }

  /** The entries found at a list of addresses. */
  ghost predicate Listing(m: Index, spots: seq<Path>, hits: seq<Entry>) {
    |spots| == |hits| && forall i :: 0 <= i < |spots| ==> spots[i] in m && m[spots[i]] == hits[i]
  }

  /** Where a filter's subscriptions live: the share prefix and group are not part of the address. */
  method Locate(filter: string) returns (shared: bool, group: string, path: Path)
    ensures shared == IsShared(filter) && (shared ==> group == GroupOf(filter)) && path == AddressOf(filter)
  {
    var prefix, more := IsolateParticle(filter, 0);
    shared := FoldsToShare(prefix);
    group, more := IsolateParticle(filter, 1);
    path := Levels(filter, if shared then 2 else 0);
  }

  /** The clients holding a filter. */
  function Holders(m: Index, filter: string): map<Client, Subscription> {
    var e := At(m, AddressOf(filter));
    if IsShared(filter) then Members(e.shared, GroupOf(filter)) else e.subs
  }

  /** A subscription is there under its filter until the client takes it back; the other holders keep theirs. */
  lemma HoldersFollow(m: Index, c: Client, sub: Subscription)
    requires Closed(m)
    ensures Holders(Apply(m, Op.Subscribe(c, sub)), sub.filter) == Holders(m, sub.filter)[c := sub]
    ensures Holders(Apply(m, Op.Unsubscribe(sub.filter, c)), sub.filter) == Holders(m, sub.filter) - {c}
  {
    ApplyTouchesOne(m, Op.Subscribe(c, sub));
    ApplyTouchesOne(m, Op.Unsubscribe(sub.filter, c));
  }

  /** The same for an inline subscription and its identifier. */
  lemma InlineFollows(m: Index, id: int, sub: Subscription)
    requires Closed(m)
    ensures var p := PathFrom(sub.filter, 0);
            && At(Apply(m, Op.InlineSubscribe(id, sub)), p).inline == At(m, p).inline[id := sub]
            && At(Apply(m, Op.InlineUnsubscribe(id, sub.filter)), p).inline == At(m, p).inline - {id}
  {
    ApplyTouchesOne(m, Op.InlineSubscribe(id, sub));
    ApplyTouchesOne(m, Op.InlineUnsubscribe(id, sub.filter));
  }

  /** Unsubscribe answers true whenever the filter's address exists: also to a client that never subscribed,
      for whom it changes nobody's subscription. */
  lemma UnsubscribeStranger(c: Client, d: Client, sub: Subscription)
    requires c != d
    ensures var m := Apply(START, Op.Subscribe(c, sub));
            && AddressOf(sub.filter) in m && d !in Holders(m, sub.filter)
            && Holders(Apply(m, Op.Unsubscribe(sub.filter, d)), sub.filter) == Holders(m, sub.filter) == map[c := sub]
  {
    var m := Apply(START, Op.Subscribe(c, sub));
    ApplyTouchesOne(START, Op.Subscribe(c, sub));
    ApplyTouchesOne(m, Op.Unsubscribe(sub.filter, d));
    EnsureKeeps(START, AddressOf(sub.filter));
    var e := At(START, AddressOf(sub.filter));
    assert e == EMPTY;
  }

  lemma TakeStep<T>(s: seq<T>, j: nat)
    requires j < |s|
    ensures s[..j + 1] == s[..j] + [s[j]]
  {
  }

  /** The levels a walk visits, isolated one by one. */
  method Levels(filter: string, d: nat) returns (path: Path)
    ensures path == PathFrom(filter, d)
  {
    var i, hasNext, key := d, true, "";
    ghost var parts, all := Split(filter), PathFrom(filter, d);
    path := [];
    while hasNext
      invariant d <= i <= d + |all| && path == all[..i - d] && hasNext == (i < d + |all|)
      decreases d + |all| - i
    {
      key, hasNext := IsolateParticle(filter, i);
      assert key == all[i - d] && hasNext == (i + 1 < d + |all|);
      TakeStep(all, i - d);
      path := path + [key];
      i := i + 1;
    }
  }

  lemma EnsureChild(m: Index, p: Path, k: string)
    ensures Ensure(m, Child(p, k)) == var m1 := Ensure(m, p); if Child(p, k) in m1 then m1 else m1[Child(p, k) := EMPTY]
  {
    assert Parent(Child(p, k)) == p;
  }
}
