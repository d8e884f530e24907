/**
 Rendezvous placement of offline sessions: the owner of a client is its highest-ranked node.
 The FNV-1a hash of a string is a parameter; the finalizer is modelled bit by bit.
 */
module Placement {

  import opened Words

  type Hash = string -> Word

  // ---------------------------------------------------------------- the finalizer

  function Mix(x: Word): Word {
    ShiftXor(Multiply(ShiftXor(Multiply(ShiftXor(x, 30), FACTOR1), 27), FACTOR2), 31)
  }

  /** Each step undone, in reverse order. */
  function Unmix(y: Word): Word {
    Unshift(Multiply(Unshift(Multiply(Unshift(y, 31), INVERSE2), 27), INVERSE1), 30)
  }

  lemma MultiplyUndone1(x: Word)
    ensures Multiply(Multiply(x, FACTOR1), INVERSE1) == x && Multiply(Multiply(x, INVERSE1), FACTOR1) == x
  {
    ValueBound(x);
    Residue1(Value(x));
    ValueOfProduct(x, FACTOR1);
    ValueOfProduct(x, INVERSE1);
    BitsOfValue(x);
  }

  lemma MultiplyUndone2(x: Word)
    ensures Multiply(Multiply(x, FACTOR2), INVERSE2) == x && Multiply(Multiply(x, INVERSE2), FACTOR2) == x
  {
    ValueBound(x);
    Residue2(Value(x));
    ValueOfProduct(x, FACTOR2);
    ValueOfProduct(x, INVERSE2);
    BitsOfValue(x);
  }

  /** The finalizer is a bijection on 64-bit words. */
  lemma MixBijective(x: Word)
    ensures Unmix(Mix(x)) == x && Mix(Unmix(x)) == x
  {
    MixThenUnmix(x);
    UnmixThenMix(x);
  }

  lemma MixThenUnmix(x: Word)
    ensures Unmix(Mix(x)) == x
  {
    var a := ShiftXor(x, 30);
    var b := Multiply(a, FACTOR1);
    var c := ShiftXor(b, 27);
    var d := Multiply(c, FACTOR2);
    ShiftUndone(d, 31);
    MultiplyUndone2(c);
    ShiftUndone(b, 27);
    MultiplyUndone1(a);
    ShiftUndone(x, 30);
  }

  lemma UnmixThenMix(y: Word)
    ensures Mix(Unmix(y)) == y
  {
    var d := Unshift(y, 31);
    var c := Multiply(d, INVERSE2);
    var b := Unshift(c, 27);
    var a := Multiply(b, INVERSE1);
    ShiftUndone(a, 30);
    MultiplyUndone1(b);
    ShiftUndone(c, 27);
    MultiplyUndone2(d);
    ShiftUndone(y, 31);
  }

  function Score(fnv: Hash, client: string, node: string): nat {
    Value(Mix(Xor(fnv(client), fnv(node))))
  }

  /** Two nodes tie for a client exactly when their hashes collide. */
  lemma TieIffCollision(fnv: Hash, client: string, n1: string, n2: string)
    ensures Score(fnv, client, n1) == Score(fnv, client, n2) <==> fnv(n1) == fnv(n2)
  {
    var x1, x2 := Xor(fnv(client), fnv(n1)), Xor(fnv(client), fnv(n2));
    SameValue(Mix(x1), Mix(x2));
    MixThenUnmix(x1);
    MixThenUnmix(x2);
    XorCancels(fnv(client), fnv(n1), fnv(n2));
  }

  /** A client and a node weigh alike in the score. */
  lemma ScoreSymmetric(fnv: Hash, a: string, b: string)
    ensures Score(fnv, a, b) == Score(fnv, b, a)
  {
    assert Xor(fnv(a), fnv(b)) == Xor(fnv(b), fnv(a));
  }

  /** Undoing the finalizer on a score gives back how the two hashes differ. */
  lemma ScoreUndone(fnv: Hash, client: string, node: string)
    ensures Unmix(Bits(Score(fnv, client, node), WIDTH)) == Xor(fnv(client), fnv(node))
  {
    var x := Xor(fnv(client), fnv(node));
    BitsOfValue(Mix(x));
    MixThenUnmix(x);
  }

  // ---------------------------------------------------------------- the owner

  /** How one client scores the nodes. */
  type Rank = string -> nat

  function RankFor(fnv: Hash, client: string): Rank {
    n => Score(fnv, client, n)
  }

  /** The first of the highest-ranked nodes. */
  function OwnerOf(rank: Rank, nodes: seq<string>): string
    requires nodes != []
  {
    if |nodes| == 1 then nodes[0]
    else
      var best, last := OwnerOf(rank, nodes[..|nodes| - 1]), nodes[|nodes| - 1];
      if rank(last) > rank(best) then last else best
  }

  method Owner(rank: Rank, nodes: seq<string>) returns (owner: string, found: bool)
    ensures found <==> nodes != []
    ensures found ==> owner == OwnerOf(rank, nodes)
  {
    if |nodes| == 0 {
      return "", false;
    }
    var best, bestScore := "", 0;
    for i := 0 to |nodes|
      invariant i > 0 ==> best == OwnerOf(rank, nodes[..i]) && bestScore == rank(best)
    {
      var score := rank(nodes[i]);
      assert nodes[..i + 1][..i] == nodes[..i];
      if i == 0 || score > bestScore {
        best, bestScore := nodes[i], score;
      }
    }
    assert nodes[..|nodes|] == nodes;
    return best, true;
  }

  /** The owner is a listed node, and none ranks higher. */
  lemma {:induction false} OwnerHighest(rank: Rank, nodes: seq<string>)
    requires nodes != []
    ensures OwnerOf(rank, nodes) in nodes
    ensures forall n :: n in nodes ==> rank(n) <= rank(OwnerOf(rank, nodes))
    ensures exists i :: FirstAt(rank, nodes, OwnerOf(rank, nodes), i)
    decreases |nodes|
  {
    var n := |nodes| - 1;
    if n == 0 {
      assert FirstAt(rank, nodes, OwnerOf(rank, nodes), 0);
    } else {
      OwnerHighest(rank, nodes[..n]);
      assert nodes == nodes[..n] + [nodes[n]];
      var i :| FirstAt(rank, nodes[..n], OwnerOf(rank, nodes[..n]), i);
      assert FirstAt(rank, nodes, OwnerOf(rank, nodes), if OwnerOf(rank, nodes) == OwnerOf(rank, nodes[..n]) then i else n);
    }
  }

  /** The node is listed there, behind lower-ranked ones only. */
  ghost predicate FirstAt(rank: Rank, nodes: seq<string>, node: string, i: int) {
    0 <= i < |nodes| && nodes[i] == node && forall j :: 0 <= j < i ==> rank(nodes[j]) < rank(node)
  }

  /** No two different listed nodes rank alike. */
  ghost predicate NoTies(rank: Rank, nodes: seq<string>) {
    forall a, b :: a in nodes && b in nodes && rank(a) == rank(b) ==> a == b
  }

  /** No two different listed nodes have the same hash. */
  ghost predicate NoCollisions(fnv: Hash, nodes: seq<string>) {
    forall a, b :: a in nodes && b in nodes && fnv(a) == fnv(b) ==> a == b
  }

  lemma NoCollisionsNoTies(fnv: Hash, client: string, nodes: seq<string>)
    ensures NoCollisions(fnv, nodes) <==> NoTies(RankFor(fnv, client), nodes)
  {
    var rank := RankFor(fnv, client);
    forall a, b ensures rank(a) == rank(b) <==> fnv(a) == fnv(b) {
      TieIffCollision(fnv, client, a, b);
    }
  }

  /** Without collisions a change of the node list moves only the sessions whose owner left or whose new
      owner just joined; a mere reordering moves none. */
  lemma MinimalDisruption(fnv: Hash, client: string, before: seq<string>, after: seq<string>)
    requires before != [] && after != [] && NoCollisions(fnv, before + after)
    ensures var rank := RankFor(fnv, client);
            var o, o' := OwnerOf(rank, before), OwnerOf(rank, after);
            && (o == o' || o !in after || o' !in before)
            && (SameNodes(before, after) ==> o == o')
  {
    var rank := RankFor(fnv, client);
    NoCollisionsNoTies(fnv, client, before + after);
    OwnerHighest(rank, before);
    OwnerHighest(rank, after);
    assert OwnerOf(rank, before) in before + after && OwnerOf(rank, after) in before + after;
  }

  ghost predicate SameNodes(a: seq<string>, b: seq<string>) {
    forall n :: n in a <==> n in b
  }

  function OwnerIn(rank: Rank, nodes: seq<string>): string {
    if nodes == [] then "" else OwnerOf(rank, nodes)
  }

  /** Another node ranks as high as the owner. */
  ghost predicate TiedAtTop(rank: Rank, nodes: seq<string>) {
    exists a :: a in nodes && a != OwnerIn(rank, nodes) && rank(a) == rank(OwnerIn(rank, nodes))
  }

  /** Listing a top node first makes it the owner. */
  lemma {:induction false} FirstWins(rank: Rank, n: string, rest: seq<string>)
    requires forall m :: m in rest ==> rank(m) <= rank(n)
    ensures OwnerOf(rank, [n] + rest) == n
    decreases |rest|
  {
    if rest != [] {
      var shorter := rest[..|rest| - 1];
      FirstWins(rank, n, shorter);
      assert ([n] + rest)[..|rest|] == [n] + shorter;
      assert ([n] + rest)[|rest|] == rest[|rest| - 1];
    }
  }

  /** The owner depends only on which nodes are listed exactly when no other node ties with it. */
  lemma OrderIrrelevantIff(rank: Rank, nodes: seq<string>)
    requires nodes != []
    ensures (forall other :: SameNodes(nodes, other) ==> OwnerIn(rank, other) == OwnerIn(rank, nodes))
            <==> !TiedAtTop(rank, nodes)
  {
    OwnerHighest(rank, nodes);
    if TiedAtTop(rank, nodes) {
      var a :| a in nodes && a != OwnerIn(rank, nodes) && rank(a) == rank(OwnerIn(rank, nodes));
      FirstWins(rank, a, nodes);
      assert SameNodes(nodes, [a] + nodes);
    } else {
      forall other | SameNodes(nodes, other) ensures OwnerIn(rank, other) == OwnerIn(rank, nodes) {
        assert nodes[0] in other;
        OwnerHighest(rank, other);
      }
    }
  }
}
