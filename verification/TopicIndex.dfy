/**
 The subscription index as a flat map from trie addresses to their entries: what the
 in-place trie of `TopicTrie` stands for, how each operation changes it, and which
 addresses a topic walk gathers from.
 */
module TopicIndex {
  import opened Subscriptions
  import opened TopicLevels

  /** What one particle stores besides its children. */
  datatype Entry = Entry(
    subs: map<Client, Subscription>,
    shared: map<string, map<Client, Subscription>>,
    inline: map<int, Subscription>,
    retainPath: string)

  const EMPTY := Entry(map[], map[], map[], "")

  type Index = map<Path, Entry>

  function Parent(p: Path): Path
    requires p != []
  {
    p[..|p| - 1]
  }

  function Child(p: Path, k: string): Path {
    p + [k]
  }

  function At(m: Index, p: Path): Entry {
    if p in m then m[p] else EMPTY
  }

  predicate HasChild(m: Index, p: Path) {
    exists q :: q in m && q != [] && Parent(q) == p
  }

  /** Every address has its parent: the map is a tree. */
  ghost predicate Closed(m: Index) {
    [] in m && forall p :: p in m && p != [] ==> Parent(p) in m
  }

  /** No useless address: every one but the root stores something or leads to one that does. */
  ghost predicate Tidy(m: Index) {
    forall p :: p in m && p != [] ==> m[p] != EMPTY || HasChild(m, p)
  }

  // ---------------------------------------------------------------- creating and trimming addresses

  /** `set`: every prefix of the path exists. */
  function Ensure(m: Index, p: Path): Index
    decreases |p|
  {
    var m1 := if p == [] then m else Ensure(m, Parent(p));
    if p in m1 then m1 else m1[p := EMPTY]
  }

  /** `trim`: remove empty leaves from p upwards. */
  function Trim(m: Index, p: Path): Index
    decreases |p|
  {
    if p == [] || p !in m || m[p] != EMPTY || HasChild(m, p) then m
    else Trim(m - {p}, Parent(p))
  }

  lemma {:induction false} EnsureKeeps(m: Index, p: Path)
    ensures p in Ensure(m, p) && m.Keys <= Ensure(m, p).Keys
    ensures forall q :: At(Ensure(m, p), q) == At(m, q)
    ensures Closed(m) ==> Closed(Ensure(m, p))
    decreases |p|
  {
    if p != [] {
      EnsureKeeps(m, Parent(p));
    }
  }

  /** Trimming never loses an entry, and keeps the tree closed. */
  lemma {:induction false} TrimKeeps(m: Index, p: Path)
    requires Closed(m)
    ensures Closed(Trim(m, p)) && Trim(m, p).Keys <= m.Keys
    ensures forall q :: At(Trim(m, p), q) == At(m, q)
    decreases |p|
  {
    if !(p == [] || p !in m || m[p] != EMPTY || HasChild(m, p)) {
      var m1 := m - {p};
      assert Closed(m1) by {
        forall q | q in m1 && q != [] ensures Parent(q) in m1 { assert q in m; }
      }
      TrimKeeps(m1, Parent(p));
    }
  }

  /** Everything but the spot being trimmed is useful. */
  ghost predicate TidyExcept(m: Index, p: Path) {
    forall q :: q in m && q != [] && q != p ==> m[q] != EMPTY || HasChild(m, q)
  }

  /** Trimming restores tidiness. */
  lemma {:induction false} TrimTidies(m: Index, p: Path)
    requires Closed(m) && TidyExcept(m, p)
    ensures Tidy(Trim(m, p))
    decreases |p|
  {
    if !(p == [] || p !in m || m[p] != EMPTY || HasChild(m, p)) {
      var m1 := m - {p};
      assert Closed(m1) by {
        forall q | q in m1 && q != [] ensures Parent(q) in m1 { assert q in m; }
      }
      forall q | q in m1 && q != [] && q != Parent(p) ensures m1[q] != EMPTY || HasChild(m1, q) {
        if m[q] == EMPTY {
          var c :| c in m && c != [] && Parent(c) == q;
          assert c in m1;
        }
      }
      TrimTidies(m1, Parent(p));
    }
  }

  lemma {:induction false} EnsureTidyExcept(m: Index, p: Path)
    requires Tidy(m)
    ensures TidyExcept(Ensure(m, p), p)
    decreases |p|
  {
    EnsureKeeps(m, p);
    if p != [] {
      var m1 := Ensure(m, Parent(p));
      EnsureKeeps(m, Parent(p));
      EnsureTidyExcept(m, Parent(p));
      var m2 := Ensure(m, p);
      forall q | q in m2 && q != [] && q != p ensures m2[q] != EMPTY || HasChild(m2, q) {
        assert q in m1;
        if q == Parent(p) {
          assert p in m2;
        } else if m1[q] == EMPTY {
          var c :| c in m1 && c != [] && Parent(c) == q;
          assert c in m2;
        }
      }
    }
  }

  /** In a tidy index every address lies on the way to a stored entry. */
  lemma {:induction false} TidyReaches(m: Index, p: Path) returns (q: Path)
    requires Tidy(m) && p in m && p != []
    ensures q in m && p <= q && m[q] != EMPTY
    decreases |m|
  {
    if m[p] != EMPTY {
      q := p;
    } else {
      var c :| c in m && c != [] && Parent(c) == p;
      assert p <= c;
      q := DeepestBelow(m, c);
    }
  }

  lemma {:induction false} DeepestBelow(m: Index, p: Path) returns (q: Path)
    requires Tidy(m) && p in m && p != []
    ensures q in m && p <= q && m[q] != EMPTY
    decreases |Longer(m, |p|)|
  {
    if m[p] != EMPTY {
      q := p;
    } else {
      var c :| c in m && c != [] && Parent(c) == p;
      assert p <= c && c in Longer(m, |p|) && c !in Longer(m, |c|);
      SmallerSet(Longer(m, |c|), Longer(m, |p|), c);
      q := DeepestBelow(m, c);
    }
  }

  function Longer(m: Index, n: nat): set<Path> {
    set q | q in m && |q| > n
  }

  lemma SmallerSet(a: set<Path>, b: set<Path>, x: Path)
    requires a <= b && x in b && x !in a
    ensures |a| < |b|
  {
    assert b == a + (b - a) && |b| == |a| + |b - a|;
  }

  // ---------------------------------------------------------------- the walk

  /**
   Does the walk for topic levels t, standing at address `at`, gather from address p?
   `parentHash` is whether a `#` child of the topic's own literal level is gathered too.
   */
  predicate Gathers(m: Index, at: Path, t: Path, p: Path, parentHash: bool)
    requires t != []
    decreases |t|
  {
    || GathersVia(m, at, t, p, parentHash, t[0])
    || GathersVia(m, at, t, p, parentHash, "+")
    || (p == Child(at, "#") && p in m)
  }

  predicate GathersVia(m: Index, at: Path, t: Path, p: Path, parentHash: bool, key: string)
    requires t != []
    decreases |t|, 0
  {
    var c := Child(at, key);
    && c in m
    && if |t| > 1 then Gathers(m, c, t[1..], p, parentHash)
       else p == c || (parentHash && key != "+" && p == Child(c, "#") && p in m)
  }

  /** The final `#` would have to match the level above it, which the walk does not gather. */
  predicate ParentLevel(f: Path, t: Path, parentHash: bool) {
    && |f| >= 2 && f[|f| - 1] == "#" && |t| == |f| - 1
    && (parentHash ==> f[|f| - 2] == "+")
  }

  /** The walk gathers below its address only. */
  lemma {:induction false} GathersBelow(m: Index, at: Path, t: Path, p: Path, ph: bool)
    requires t != [] && Gathers(m, at, t, p, ph)
    ensures at <= p && |at| < |p| && p in m
    decreases |t|
  {
    if !(p == Child(at, "#") && p in m) {
      var key := if GathersVia(m, at, t, p, ph, t[0]) then t[0] else "+";
      assert GathersVia(m, at, t, p, ph, key);
      if |t| > 1 { GathersBelow(m, Child(at, key), t[1..], p, ph); }
    }
  }

  /** Walking from an address matches exactly what follows it, except at the parent level. */
  lemma {:induction false} GathersIff(m: Index, at: Path, t: Path, r: Path, ph: bool)
    requires Closed(m) && t != [] && WildcardFree(t) && r != []
    ensures Gathers(m, at, t, at + r, ph) <==> at + r in m && LevelsMatch(r, t) && !ParentLevel(r, t, ph)
    decreases |t|
  {
    var p := at + r;
    if |r| == 1 {
      GathersShort(m, at, t, r, ph);
    } else {
      assert p != Child(at, "#") by { assert |p| == |at| + |r|; }
      assert at + r == Child(at, r[0]) + r[1..];
      if p in m { PrefixIn(m, Child(at, r[0]), p); }
      GathersViaOnly(m, at, t, r, ph);
      if |t| > 1 {
        GathersIff(m, Child(at, r[0]), t[1..], r[1..], ph);
        ParentLevelTail(r, t, ph);
      } else {
        GathersLast(m, at, t, r, ph);
      }
    }
  }

  lemma {:induction false} PrefixIn(m: Index, q: Path, p: Path)
    requires Closed(m) && p in m && q <= p
    ensures q in m
    decreases |p|
  {
    if q != p { PrefixIn(m, q, Parent(p)); }
  }

  /** Only the branch through the address's own next level can reach it. */
  lemma GathersViaOnly(m: Index, at: Path, t: Path, r: Path, ph: bool)
    requires t != [] && |r| >= 2
    ensures var p := at + r;
            Gathers(m, at, t, p, ph) <==> (r[0] == t[0] || r[0] == "+") && GathersVia(m, at, t, p, ph, r[0])
  {
    var p := at + r;
    forall key | GathersVia(m, at, t, p, ph, key) ensures key == r[0] {
      var c := Child(at, key);
      if |t| > 1 {
        GathersBelow(m, c, t[1..], p, ph);
        assert c[|at|] == p[|at|];
      } else {
        assert p[|at|] == r[0];
        assert p == c || p == Child(c, "#");
      }
    }
    assert p != Child(at, "#") by { assert |p| == |at| + |r|; }
  }

  lemma GathersShort(m: Index, at: Path, t: Path, r: Path, ph: bool)
    requires t != [] && WildcardFree(t) && |r| == 1
    ensures Gathers(m, at, t, at + r, ph) <==> at + r in m && LevelsMatch(r, t) && !ParentLevel(r, t, ph)
  {
    var p := at + r;
    forall key | GathersVia(m, at, t, p, ph, key) ensures |t| == 1 && p == Child(at, key) {
      if |t| > 1 { GathersBelow(m, Child(at, key), t[1..], p, ph); }
    }
    assert p[|at|] == r[0];
    assert Child(at, "#") == p <==> r[0] == "#";
    assert forall key :: Child(at, key) == p <==> r[0] == key;
    assert LevelsMatch(r, t) <==> r[0] == "#" || ((r[0] == "+" || r[0] == t[0]) && |t| == 1);
  }

  lemma ParentLevelTail(r: Path, t: Path, ph: bool)
    requires |r| >= 2 && |t| > 1
    ensures ParentLevel(r, t, ph) <==> ParentLevel(r[1..], t[1..], ph)
  {
  }

  lemma GathersLast(m: Index, at: Path, t: Path, r: Path, ph: bool)
    requires |t| == 1 && WildcardFree(t) && |r| >= 2
    requires at + r in m ==> Child(at, r[0]) in m
    requires Gathers(m, at, t, at + r, ph) <==> (r[0] == t[0] || r[0] == "+") && GathersVia(m, at, t, at + r, ph, r[0])
    ensures Gathers(m, at, t, at + r, ph) <==> at + r in m && LevelsMatch(r, t) && !ParentLevel(r, t, ph)
  {
    var p, c := at + r, Child(at, r[0]);
    assert p != c by { assert |p| == |at| + |r|; }
    assert p == Child(c, "#") <==> r[1..] == ["#"] by {
      assert p == c + r[1..];
      if p == Child(c, "#") { assert p[|c|..] == ["#"] && p[|c|..] == r[1..]; }
    }
    assert LevelsMatch(r[1..], []) <==> r[1..] == ["#"];
    assert t[1..] == [];
    assert r[0] == "#" ==> !LevelsMatch(r, t);
  }
}
