/** Core nodes with a co-located Redis, and their order by name. */
module NodeOrder {

  type Node = string

  /** A core node with a co-located Redis. */
  datatype Meta = Meta(node: Node, addr: string)

  /** Names compare character by character; a proper prefix comes first. */
  predicate Before(a: Node, b: Node) {
    if b == "" then false
    else if a == "" then true
    else if a[0] != b[0] then a[0] < b[0]
    else Before(a[1..], b[1..])
  }

  lemma {:induction false} BeforeTotal(a: Node, b: Node)
    ensures !Before(a, a) && !(Before(a, b) && Before(b, a))
    ensures Before(a, b) || Before(b, a) || a == b
  {
    if a != "" && b != "" {
      BeforeTotal(a[1..], b[1..]);
      assert a == [a[0]] + a[1..] && b == [b[0]] + b[1..];
    } else if a != "" {
      BeforeTotal(a[1..], b);
    }
  }

  lemma {:induction false} BeforeTransitive(a: Node, b: Node, c: Node)
    requires Before(a, b) && Before(b, c)
    ensures Before(a, c)
  {
    if a != "" && a[0] == b[0] && b[0] == c[0] {
      BeforeTransitive(a[1..], b[1..], c[1..]);
    }
  }

  predicate InOrder(members: seq<Meta>) {
    forall i, j :: 0 <= i < j < |members| ==> !Before(members[j].node, members[i].node)
  }

  predicate Distinct(members: seq<Meta>) {
    forall i, j :: 0 <= i < j < |members| ==> members[i].node != members[j].node
  }

  function Insert(m: Meta, rest: seq<Meta>): seq<Meta> {
    if rest == [] || !Before(rest[0].node, m.node) then [m] + rest else [rest[0]] + Insert(m, rest[1..])
  }

  /** The members sorted by name. */
  function ByNode(members: seq<Meta>): seq<Meta> {
    if members == [] then [] else Insert(members[0], ByNode(members[1..]))
  }

  /** Putting a member in front of later ones keeps the order. */
  lemma FrontInOrder(m: Meta, rest: seq<Meta>)
    requires InOrder(rest) && forall k :: k in rest ==> !Before(k.node, m.node)
    ensures InOrder([m] + rest)
  {
    var s := [m] + rest;
    forall i, j | 0 <= i < j < |s| ensures !Before(s[j].node, s[i].node) {
      assert s[j] == rest[j - 1];
      if i > 0 { assert s[i] == rest[i - 1]; }
    }
  }

  lemma {:induction false} InsertAdds(m: Meta, rest: seq<Meta>)
    ensures multiset(Insert(m, rest)) == multiset(rest) + multiset{m}
  {
    if rest != [] && Before(rest[0].node, m.node) {
      InsertAdds(m, rest[1..]);
      assert rest == [rest[0]] + rest[1..];
    }
  }

  lemma {:induction false} InsertKeeps(m: Meta, rest: seq<Meta>)
    requires InOrder(rest)
    ensures InOrder(Insert(m, rest))
  {
    if rest != [] && Before(rest[0].node, m.node) {
      InsertKeeps(m, rest[1..]);
      InsertAdds(m, rest[1..]);
      BeforeTotal(rest[0].node, m.node);
      forall k | k in Insert(m, rest[1..]) ensures !Before(k.node, rest[0].node) {
        assert k in multiset(Insert(m, rest[1..]));
      }
      FrontInOrder(rest[0], Insert(m, rest[1..]));
    } else {
      forall k | k in rest ensures !Before(k.node, m.node) {
        BeforeTotal(k.node, k.node);
        NotBefore(k.node, rest[0].node, m.node);
      }
      FrontInOrder(m, rest);
    }
  }

  lemma NotBefore(a: Node, b: Node, c: Node)
    requires !Before(a, b) && !Before(b, c)
    ensures !Before(a, c)
  {
    BeforeTotal(a, b);
    BeforeTotal(b, c);
    BeforeTotal(a, c);
    if Before(a, c) {
      if Before(c, b) { BeforeTransitive(a, c, b); }
    }
  }

  lemma {:induction false} ByNodeSorts(members: seq<Meta>)
    ensures InOrder(ByNode(members)) && multiset(ByNode(members)) == multiset(members)
  {
    if members != [] {
      ByNodeSorts(members[1..]);
      InsertKeeps(members[0], ByNode(members[1..]));
      InsertAdds(members[0], ByNode(members[1..]));
      assert members == [members[0]] + members[1..];
    }
  }

  /** There is one way to sort members with distinct names, so any sorting routine gives the same list. */
  lemma {:induction false} OneOrder(a: seq<Meta>, b: seq<Meta>)
    requires InOrder(a) && InOrder(b) && multiset(a) == multiset(b) && Distinct(a)
    ensures a == b
  {
    SameLength(a, b);
    if a != [] {
      assert a[0] in multiset(a) && b[0] in multiset(b);
      FirstAgree(a, b);
      TailBag(a);
      TailBag(b);
      OneOrder(a[1..], b[1..]);
      assert a == [a[0]] + a[1..] && b == [b[0]] + b[1..];
    }
  }

  lemma SameLength(a: seq<Meta>, b: seq<Meta>)
    requires multiset(a) == multiset(b)
    ensures |a| == |b|
  {
    assert |multiset(a)| == |a| && |multiset(b)| == |b|;
  }

  lemma TailBag(s: seq<Meta>)
    requires s != []
    ensures multiset(s[1..]) == multiset(s) - multiset{s[0]}
  {
    assert s == [s[0]] + s[1..];
  }

  lemma FirstAgree(a: seq<Meta>, b: seq<Meta>)
    requires InOrder(a) && InOrder(b) && Distinct(a) && a != [] && b != [] && a[0] in b && b[0] in a
    ensures a[0] == b[0]
  {
    var i :| 0 <= i < |a| && a[i] == b[0];
    var j :| 0 <= j < |b| && b[j] == a[0];
    if i > 0 {
      BeforeTotal(a[0].node, a[i].node);
    }
  }

  /** The order in which the members are listed does not matter. */
  lemma ListingOrderFree(a: seq<Meta>, b: seq<Meta>)
    requires multiset(a) == multiset(b) && Distinct(a)
    ensures ByNode(a) == ByNode(b)
  {
    ByNodeSorts(a);
    ByNodeSorts(b);
    DistinctKept(a, ByNode(a));
    OneOrder(ByNode(a), ByNode(b));
  }

  lemma {:induction false} DistinctKept(a: seq<Meta>, b: seq<Meta>)
    requires multiset(a) == multiset(b) && Distinct(a)
    ensures Distinct(b)
  {
    forall i, j | 0 <= i < j < |b| ensures b[i].node != b[j].node {
      TwoPlaces(b, i, j);
      assert b[i] in multiset(a) && b[j] in multiset(a);
      var k :| 0 <= k < |a| && a[k] == b[i];
      var l :| 0 <= l < |a| && a[l] == b[j];
      if k == l {
        assert multiset(a)[a[k]] >= 2;
        OnePlace(a, k);
        assert false;
      }
    }
  }

  lemma TwoPlaces(s: seq<Meta>, i: nat, j: nat)
    requires i < j < |s|
    ensures s[i] == s[j] ==> multiset(s)[s[i]] >= 2
  {
    assert s == s[..j] + [s[j]] + s[j + 1..];
    assert s[i] in s[..j];
  }

  lemma OnePlace(s: seq<Meta>, k: nat)
    requires k < |s| && Distinct(s)
    ensures multiset(s)[s[k]] == 1
  {
    assert s == s[..k] + [s[k]] + s[k + 1..];
    assert s[k] !in s[..k] && s[k] !in s[k + 1..];
  }
}
