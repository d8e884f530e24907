/**
 The two packet-id allocators: the live client's in-memory search and the offline
 queue's search inside Redis. Both walk the ids 1..65535 cyclically from the last
 one issued; both are proved against the same specification.
 */
module PacketIds {

  const MAX_ID: nat := 65535

  /** The id visited `offset` places after the cursor. */
  function IdAt(cursor: nat, offset: nat): (id: nat)
    ensures 1 <= id <= MAX_ID
  {
    (cursor + offset) % MAX_ID + 1
  }

  /** The first offset from o on whose id is free, or MAX_ID when there is none. */
  function FreeOffset(occupied: set<nat>, cursor: nat, o: nat): (k: nat)
    requires o <= MAX_ID
    ensures o <= k <= MAX_ID
    ensures k < MAX_ID ==> IdAt(cursor, k) !in occupied
    ensures forall j :: o <= j < k ==> IdAt(cursor, j) in occupied
    decreases MAX_ID - o
  {
    if o == MAX_ID then MAX_ID
    else if IdAt(cursor, o) !in occupied then o
    else FreeOffset(occupied, cursor, o + 1)
  }

  /** Every id is visited: the offset at which it comes up. */
  lemma EveryIdVisited(cursor: nat, id: nat) returns (o: nat)
    requires 1 <= id <= MAX_ID
    ensures o < MAX_ID && IdAt(cursor, o) == id
  {
    o := (id - 1 + (MAX_ID - cursor % MAX_ID)) % MAX_ID;
    ModSplit(cursor, o);
    ModShift(cursor % MAX_ID, id - 1);
  }

  lemma ModSplit(a: nat, b: nat)
    ensures (a + b) % MAX_ID == (a % MAX_ID + b) % MAX_ID
  {
    var q := a / MAX_ID;
    assert a == q * MAX_ID + a % MAX_ID;
    ModMultiple(q, a % MAX_ID + b);
  }

  lemma {:induction false} ModMultiple(q: nat, r: nat)
    ensures (q * MAX_ID + r) % MAX_ID == r % MAX_ID
    decreases q
  {
    if q > 0 {
      ModMultiple(q - 1, r);
      assert q * MAX_ID + r == ((q - 1) * MAX_ID + r) + MAX_ID;
    }
  }

  lemma ModShift(r: nat, x: nat)
    requires r < MAX_ID && x < MAX_ID
    ensures (r + (x + (MAX_ID - r)) % MAX_ID) % MAX_ID == x
  {
    if x >= r {
      assert (x + (MAX_ID - r)) % MAX_ID == x - r;
    } else {
      assert (x + (MAX_ID - r)) % MAX_ID == x + MAX_ID - r;
    }
  }

  /** The search fails exactly when every id 1..65535 is occupied. */
  lemma ExhaustedIffFull(occupied: set<nat>, cursor: nat)
    ensures FreeOffset(occupied, cursor, 0) == MAX_ID <==> forall id :: 1 <= id <= MAX_ID ==> id in occupied
  {
    if FreeOffset(occupied, cursor, 0) == MAX_ID {
      forall id | 1 <= id <= MAX_ID ensures id in occupied {
        var o := EveryIdVisited(cursor, id);
      }
    }
  }

  /** Cursors that agree modulo the id range search alike. */
  lemma {:induction false} SameSearch(occupied: set<nat>, c1: nat, c2: nat, o: nat)
    requires c1 % MAX_ID == c2 % MAX_ID && o <= MAX_ID
    ensures FreeOffset(occupied, c1, o) == FreeOffset(occupied, c2, o)
    ensures forall j: nat :: IdAt(c1, j) == IdAt(c2, j)
    decreases MAX_ID - o
  {
    forall j: nat ensures IdAt(c1, j) == IdAt(c2, j) {
      ModSplit(c1, j);
      ModSplit(c2, j);
    }
    if o < MAX_ID { SameSearch(occupied, c1, c2, o + 1); }
  }

  /** The first free id when counting up from the cursor and starting again at 1 behind the last. */
  ghost predicate FirstAfter(occupied: set<nat>, cursor: nat, id: nat) {
    && 1 <= id <= MAX_ID && id !in occupied
    && (if id > cursor then forall j :: cursor < j < id ==> j in occupied
        else (forall j :: cursor < j <= MAX_ID ==> j in occupied) && (forall j :: 1 <= j < id ==> j in occupied))
  }

  /** The offset at which an id comes up. */
  function OffsetOf(cursor: nat, id: nat): nat
    requires cursor <= MAX_ID && 1 <= id <= MAX_ID
  {
    if id > cursor then id - cursor - 1 else MAX_ID - cursor + id - 1
  }

  lemma AtOffset(cursor: nat, id: nat)
    requires cursor <= MAX_ID && 1 <= id <= MAX_ID
    ensures OffsetOf(cursor, id) < MAX_ID && IdAt(cursor, OffsetOf(cursor, id)) == id
  {
    if id <= cursor { assert (MAX_ID + (id - 1)) % MAX_ID == id - 1; }
  }

  lemma OffsetBack(cursor: nat, k: nat)
    requires cursor <= MAX_ID && k < MAX_ID
    ensures OffsetOf(cursor, IdAt(cursor, k)) == k
  {
    if cursor + k >= MAX_ID { assert (cursor + k) % MAX_ID == cursor + k - MAX_ID; }
  }

  lemma FreeOffsetFirst(occupied: set<nat>, cursor: nat)
    requires cursor <= MAX_ID && FreeOffset(occupied, cursor, 0) < MAX_ID
    ensures FirstAfter(occupied, cursor, IdAt(cursor, FreeOffset(occupied, cursor, 0)))
  {
    var k := FreeOffset(occupied, cursor, 0);
    OffsetBack(cursor, k);
    forall j | 1 <= j <= MAX_ID && OffsetOf(cursor, j) < k ensures j in occupied {
      AtOffset(cursor, j);
    }
  }

  /** Client.NextPacketID: returns the new cursor, or 0 when no id is free. */
  method NextPacketId(occupied: set<nat>, cursor: nat) returns (id: nat)
    requires cursor <= MAX_ID
    ensures id == LiveNext(occupied, cursor)
    ensures id == 0 <==> forall j :: 1 <= j <= MAX_ID ==> j in occupied
    ensures id != 0 ==> FirstAfter(occupied, cursor, id)
  {
    id := SearchId(occupied, cursor);
    ExhaustedIffFull(occupied, cursor);
    if id != 0 { FreeOffsetFirst(occupied, cursor); }
  }

  /** The id the live client takes next, or 0. */
  function LiveNext(occupied: set<nat>, cursor: nat): nat {
    var k := FreeOffset(occupied, cursor, 0);
    if k == MAX_ID then 0 else IdAt(cursor, k)
  }

  method SearchId(occupied: set<nat>, cursor: nat) returns (id: nat)
    requires cursor <= MAX_ID
    ensures id == LiveNext(occupied, cursor)
  {
    var i, started, overflowed := cursor, cursor, false;
    ghost var checked: nat := 0;
    while true
      invariant !overflowed ==> started <= i <= MAX_ID && checked == i - started
      invariant overflowed ==> 0 <= i <= started && checked == MAX_ID - started + i
      invariant FreeOffset(occupied, cursor, checked) == FreeOffset(occupied, cursor, 0)
      decreases !overflowed, MAX_ID - i
    {
      if overflowed && i == started { return 0; }
      if i >= MAX_ID {
        overflowed := true;
        i := 0;
        continue;
      }
      i := i + 1;
      NextInLine(cursor, i, overflowed, checked);
      if i !in occupied { return i; }
      checked := checked + 1;
    }
  }

  lemma NextInLine(cursor: nat, i: nat, overflowed: bool, checked: nat)
    requires 1 <= i <= MAX_ID && cursor <= MAX_ID
    requires !overflowed ==> cursor < i && checked == i - 1 - cursor
    requires overflowed ==> i <= cursor && checked == MAX_ID - cursor + (i - 1)
    ensures checked < MAX_ID && IdAt(cursor, checked) == i
  {
    if overflowed { assert (i - 1 + MAX_ID) % MAX_ID == i - 1; }
  }

  /** The id a counter value stands for. */
  function CounterId(next: nat): (id: nat)
    requires next > 0
    ensures 1 <= id <= MAX_ID
  {
    (next - 1) % MAX_ID + 1
  }

  /** From matching cursors both allocators pick the same id, and the counters keep matching. */
  lemma AllocatorsAgree(occupied: set<nat>, cursor: nat, counter: nat)
    requires cursor <= MAX_ID && cursor % MAX_ID == counter % MAX_ID
    ensures FreeOffset(occupied, cursor, 0) == FreeOffset(occupied, counter, 0)
    ensures var k := FreeOffset(occupied, counter, 0);
            k < MAX_ID ==> CounterId(counter + k + 1) == LiveNext(occupied, cursor) && CounterId(counter + k + 1) !in occupied
    ensures forall n: nat :: n > 0 ==> CounterId(n) % MAX_ID == n % MAX_ID
  {
    SameSearch(occupied, cursor, counter, 0);
    forall n: nat | n > 0 ensures CounterId(n) % MAX_ID == n % MAX_ID {
      ModSplit(n - 1, 1);
    }
  }

  /** The ids 1..n. */
  function Ids(n: nat): (ids: set<nat>)
    ensures forall x :: x in ids <==> 1 <= x <= n
    ensures |ids| == n
  {
    if n == 0 then {} else Ids(n - 1) + {n}
  }

  /** Counting: a set of valid ids at least as large as the range is the whole range. */
  lemma FullByCount(ids: set<nat>, id: nat)
    requires forall x :: x in ids ==> 1 <= x <= MAX_ID
    requires |ids| >= MAX_ID && 1 <= id <= MAX_ID
    ensures id in ids
  {
    if id !in ids {
      SubsetSize(ids, Ids(MAX_ID) - {id});
    }
  }

  lemma SubsetSize(a: set<nat>, b: set<nat>)
    requires a <= b
    ensures |a| <= |b|
  {
    assert b == a + (b - a);
    assert |b| == |a| + |b - a|;
  }
}
