/**
 The outbound packet queue: a ring buffer that grows on demand, with a one-slot wakeup
 channel, proved to be a bounded first-in first-out queue.
 */
module PacketQueue {

  /** A pointer to a packet. */
  type Packet = nat

  const INITIAL_SIZE := 16

  // ---------------------------------------------------------------- the bounded queue it stands for

  /** Waiting packets, capacity, whether closed, and whether the wakeup slot holds a token. */
  datatype Fifo = Fifo(items: seq<Packet>, limit: nat, closed: bool, token: bool)

  predicate Refuses(q: Fifo) {
    q.closed || |q.items| == q.limit
  }

  function Push(q: Fifo, pk: Packet): Fifo {
    if Refuses(q) then q else q.(items := q.items + [pk], token := q.token || q.items == [])
  }

  /** Take the oldest packet; draining the queue also takes a stale token. */
  function Take(q: Fifo): Fifo
    requires q.items != []
  {
    q.(items := q.items[1..], token := q.token && |q.items| > 1)
  }

  datatype Popped = Stopped | Item(pk: Packet) | Empty

  function Pop(q: Fifo): (Popped, Fifo) {
    if q.closed then (Stopped, q) else if q.items != [] then (Item(q.items[0]), Take(q)) else (Empty, q)
  }

  function Shut(q: Fifo): Fifo {
    q.(items := [], closed := true)
  }

  // ---------------------------------------------------------------- ring arithmetic

  datatype Slot = Nil | Ptr(pk: Packet)

  function Next(k: nat, len: nat): nat {
    if k < len then k else k - len
  }

  /** Indices wrap at most once. */
  method Modulo(a: nat, len: nat) returns (k: nat)
    requires 0 < len && a < 2 * len
    ensures k == Next(a, len) && k < len
  {
    k := a % len;
    assert a == (a / len) * len + k;
    assert a / len == if a < len then 0 else 1;
  }

  /** The i-th packet sits i slots after the head, continuing at the start of the buffer. */
  ghost predicate Holds(buf: seq<Slot>, head: nat, items: seq<Packet>) {
    forall i :: 0 <= i < |items| && Next(head + i, |buf|) < |buf| ==> buf[Next(head + i, |buf|)] == Ptr(items[i])
  }

  /** Every other slot holds nothing, so delivered packets are not retained. */
  ghost predicate Clear(buf: seq<Slot>, head: nat, size: nat) {
    forall j :: 0 <= j < |buf| && !(head <= j < head + size) && !(j < head + size - |buf|) ==> buf[j].Nil?
  }

  ghost predicate Ring(buf: seq<Slot>, head: nat, items: seq<Packet>) {
    |items| <= |buf| && (head == 0 || head < |buf|) && Holds(buf, head, items) && Clear(buf, head, |items|)
  }

  /** Storing behind the last packet appends it. */
  lemma RingPush(buf: seq<Slot>, head: nat, items: seq<Packet>, pk: Packet)
    requires Ring(buf, head, items) && |items| < |buf|
    ensures Next(head + |items|, |buf|) < |buf| && Ring(buf[Next(head + |items|, |buf|) := Ptr(pk)], head, items + [pk])
  {
  }

  /** Clearing the head slot removes the first packet. */
  lemma RingPop(buf: seq<Slot>, head: nat, items: seq<Packet>)
    requires Ring(buf, head, items) && items != []
    ensures head < |buf| && buf[head] == Ptr(items[0])
    ensures Ring(buf[head := Nil], Next(head + 1, |buf|), items[1..])
  {
    assert Next(head + 0, |buf|) == head;
    var after, head', rest := buf[head := Nil], Next(head + 1, |buf|), items[1..];
    forall i | 0 <= i < |rest| ensures after[Next(head' + i, |buf|)] == Ptr(rest[i]) {
      assert Next(head' + i, |buf|) == Next(head + (i + 1), |buf|) != head;
    }
  }

  /** A full ring laid out from its head is the same queue. */
  lemma RingUnrolled(buf: seq<Slot>, head: nat, items: seq<Packet>, bigger: seq<Slot>)
    requires Ring(buf, head, items) && |items| == |buf| <= |bigger|
    requires bigger[..|buf|] == buf[head..] + buf[..head] && forall j :: |buf| <= j < |bigger| ==> bigger[j].Nil?
    ensures Ring(bigger, 0, items)
  {
    forall i | 0 <= i < |items| ensures bigger[i] == Ptr(items[i]) {
      assert bigger[i] == bigger[..|buf|][i] == buf[Next(head + i, |buf|)];
    }
  }

  // ---------------------------------------------------------------- the ring buffer

  class Queue {
    var buf: array<Slot>
    var head: nat
    var size: nat
    const limit: nat
    var closed: bool
    /** The one-slot wakeup channel holds a token. */
    var ready: bool

    /** The waiting packets, oldest first. */
    ghost var items: seq<Packet>

    ghost predicate Valid()
      reads this, buf
    {
      && Ring(buf[..], head, items) && size == |items|
      && buf.Length <= limit && (closed ==> buf.Length == 0)
    }

    ghost function Abstract(): Fifo
      reads this
    {
      Fifo(items, limit, closed, ready)
    }

    constructor (limit: nat)
      ensures Valid() && fresh(buf) && Abstract() == Fifo([], limit, false, false)
    {
      buf := new Slot[0];
      head, size, closed, ready, items := 0, 0, false, false, [];
      this.limit := limit;
    }

    /** The capacity to grow to: 16, then double, never more than the limit. */
    function Grown(): (capacity: nat)
      requires Valid() && size == buf.Length && size < limit
      reads this, buf
      ensures size < capacity <= limit
      ensures capacity == var wanted := if buf.Length == 0 then 16 else 2 * buf.Length; if wanted > limit then limit else wanted
    {
      var wanted := if buf.Length == 0 then INITIAL_SIZE else if buf.Length <= limit / 2 then buf.Length * 2 else limit;
      if wanted > limit then limit else wanted
    }

    /** Move a full buffer to the front of a larger one. */
    method Grow()
      requires Valid() && size == buf.Length && size < limit && !closed
      modifies this
      ensures Valid() && fresh(buf) && size < buf.Length && !closed
      ensures buf.Length == old(Grown()) && Abstract() == old(Abstract()) && size == old(size)
    {
      var capacity := Grown();
      var bigger := new Slot[capacity](_ => Nil);
      Unroll(buf, head, bigger);
      RingUnrolled(buf[..], head, items, bigger[..]);
      buf, head := bigger, 0;
    }

    /** `receiver` is whether the consumer waits in pop: an unbuffered queue hands the packet to it or refuses. */
    method TryPush(pk: Packet, receiver: bool) returns (ok: bool)
      requires Valid()
      modifies this, buf
      ensures Valid() && (buf == old(buf) || fresh(buf))
      ensures limit == 0 ==> ok == (!closed && receiver) && Abstract() == old(Abstract())
      ensures limit > 0 ==> Abstract() == Push(old(Abstract()), pk) && ok == (!old(closed) && |old(items)| < limit)
      ensures limit > 0 ==> items == if ok then old(items) + [pk] else old(items)
    {
      if closed {
        return false;
      }
      if limit == 0 {
        return receiver;
      }
      if size == limit {
        return false;
      }
      if size == buf.Length {
        Grow();
      }
      Append(pk);
      return true;
    }

    /** One slot is written; the others stay. */
    method SetSlot(k: nat, slot: Slot)
      requires k < buf.Length
      modifies buf
      ensures buf[..] == old(buf[..])[k := slot]
    {
      buf[k] := slot;
    }

    /** Store behind the last packet, and leave a token when the queue was empty. */
    method Append(pk: Packet)
      requires Valid() && !closed && size < buf.Length
      modifies `size, `ready, `items, buf
      ensures Valid() && Abstract() == Push(old(Abstract()), pk)
    {
      var k := Modulo(head + size, buf.Length);
      RingPush(buf[..], head, items, pk);
      AddTail(k, pk);
      if size == 1 {
        ready := true;
      }
    }

    method AddTail(k: nat, pk: Packet)
      requires size == |items| && k < buf.Length && Ring(buf[..][k := Ptr(pk)], head, items + [pk])
      modifies `size, `items, buf
      ensures Ring(buf[..], head, items) && items == old(items) + [pk] && size == |items|
    {
      SetSlot(k, Ptr(pk));
      size, items := size + 1, items + [pk];
    }

    /** One locked pass of pop over a non-empty queue. */
    method TakeFirst() returns (pk: Packet)
      requires Valid() && size > 0
      modifies this, buf
      ensures Valid() && (buf == old(buf) || fresh(buf))
      ensures pk == old(Abstract()).items[0] && Abstract() == Take(old(Abstract())) && (size == 0 ==> buf.Length <= 16)
    {
      pk := Advance();
      if size == 0 {
        Drained();
      }
    }

    method Advance() returns (pk: Packet)
      requires Valid() && size > 0
      modifies `head, `size, `items, buf
      ensures Valid() && size == old(size) - 1
      ensures pk == old(Abstract()).items[0] && Abstract() == old(Abstract()).(items := old(Abstract()).items[1..])
    {
      var next := Modulo(head + 1, buf.Length);
      RingPop(buf[..], head, items);
      pk := buf[head].pk;
      DropHead(next);
    }

    method DropHead(next: nat)
      requires items != [] && size == |items| && head < buf.Length && Ring(buf[..][head := Nil], next, items[1..])
      modifies `head, `size, `items, buf
      ensures Ring(buf[..], head, items) && items == old(items)[1..] && size == |items|
    {
      SetSlot(head, Nil);
      head, size, items := next, size - 1, items[1..];
    }

    /** Reset an emptied queue: reclaim a large buffer, and take a stale token. */
    method Drained()
      requires Valid() && size == 0
      modifies this
      ensures Valid() && (buf == old(buf) || fresh(buf)) && size == 0 && !ready && buf.Length <= 16
      ensures Abstract() == old(Abstract()).(token := false)
    {
      head := 0;
      if buf.Length > INITIAL_SIZE {
        buf := new Slot[0];
      }
      ready := false;
    }

    /** The part of pop that runs under the lock. */
    method PopLocked() returns (r: Popped)
      requires Valid()
      modifies this, buf
      ensures Valid() && (buf == old(buf) || fresh(buf))
      ensures (r, Abstract()) == Pop(old(Abstract()))
    {
      if closed {
        return Stopped;
      }
      if size > 0 {
        var pk := TakeFirst();
        return Item(pk);
      }
      return Empty;
    }

    method Close() returns (n: nat)
      requires Valid()
      modifies this
      ensures Valid() && fresh(buf)
      ensures n == |old(Abstract()).items| && Abstract() == Shut(old(Abstract()))
    {
      n := size;
      closed, buf, head, size, items := true, new Slot[0], 0, 0, [];
    }
  }

  /** The two copies of a growing ring: the tail first, then what had wrapped. */
  method Unroll(src: array<Slot>, head: nat, dst: array<Slot>)
    requires src != dst && src.Length <= dst.Length && head <= src.Length
    requires forall j :: 0 <= j < dst.Length ==> dst[j] == Nil
    modifies dst
    ensures dst[..src.Length] == src[head..] + src[..head]
    ensures forall j :: src.Length <= j < dst.Length ==> dst[j] == Nil
  {
    var n := src.Length - head;
    for i := 0 to n
      invariant forall j :: 0 <= j < i ==> dst[j] == src[head + j]
      invariant forall j :: i <= j < dst.Length ==> dst[j] == Nil
    {
      dst[i] := src[head + i];
    }
    for i := 0 to head
      invariant forall j :: 0 <= j < n ==> dst[j] == src[head + j]
      invariant forall j :: 0 <= j < i ==> dst[n + j] == src[j]
      invariant forall j :: n + i <= j < dst.Length ==> dst[j] == Nil
    {
      dst[n + i] := src[i];
    }
    assert forall j :: n <= j < src.Length ==> dst[j] == dst[n + (j - n)];
  }
}
