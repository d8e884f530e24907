/**
 The index operations on the flat map, proved to keep it a tidy tree and to agree with a
 plain list of (client, filter) subscriptions; and what a topic query finds.
 */
module TopicOperations {
  import opened Subscriptions
  import opened TopicLevels
  import opened TopicIndex

  // ---------------------------------------------------------------- addresses of filters

  /** Simple Unicode folding restricted to what can fold to a letter of "$share". */
  function Fold(c: char): char {
    if 'A' <= c <= 'Z' then (c as int - 'A' as int + 'a' as int) as char
    else if c == '\U{017F}' then 's' else c
  }

  predicate FoldsToShare(s: string) {
    |s| == 6 && Fold(s[0]) == '$' && Fold(s[1]) == 's' && Fold(s[2]) == 'h' && Fold(s[3]) == 'a'
    && Fold(s[4]) == 'r' && Fold(s[5]) == 'e'
  }

  predicate IsShared(filter: string) {
    FoldsToShare(Split(filter)[0])
  }

  /** The levels isolateParticle yields from depth d on. */
  function PathFrom(filter: string, d: nat): Path {
    var parts := Split(filter);
    if d < |parts| then parts[d..] else [parts[|parts| - 1]]
  }

  function GroupOf(filter: string): string {
    var parts := Split(filter);
    if 1 < |parts| then parts[1] else parts[0]
  }

  function AddressOf(filter: string): Path {
    if IsShared(filter) then PathFrom(filter, 2) else PathFrom(filter, 0)
  }

  // ---------------------------------------------------------------- operations

  datatype Op =
    | Subscribe(client: Client, sub: Subscription)
    | Unsubscribe(filter: string, client: Client)
    | InlineSubscribe(id: int, sub: Subscription)
    | InlineUnsubscribe(id: int, filter: string)
    | Retain(topic: string, payload: bool)

  function Members(shared: map<string, map<Client, Subscription>>, g: string): map<Client, Subscription> {
    if g in shared then shared[g] else map[]
  }

  function AddShared(e: Entry, g: string, c: Client, sub: Subscription): Entry {
    e.(shared := e.shared[g := Members(e.shared, g)[c := sub]])
  }

  function DeleteShared(e: Entry, g: string, c: Client): Entry {
    var members := Members(e.shared, g) - {c};
    e.(shared := if members == map[] then e.shared - {g} else e.shared[g := members])
  }

  function Subscribed(e: Entry, c: Client, sub: Subscription): Entry {
    if IsShared(sub.filter) then AddShared(e, GroupOf(sub.filter), c, sub) else e.(subs := e.subs[c := sub])
  }

  function Unsubscribed(e: Entry, filter: string, c: Client): Entry {
    if IsShared(filter) then DeleteShared(e, GroupOf(filter), c) else e.(subs := e.subs - {c})
  }

  function Apply(m: Index, op: Op): Index {
    match op
    case Subscribe(c, sub) =>
      var p := AddressOf(sub.filter);
      EnsureKeeps(m, p);
      var m1 := Ensure(m, p);
      m1[p := Subscribed(m1[p], c, sub)]
    case Unsubscribe(filter, c) =>
      var p := AddressOf(filter);
      if p !in m then m else Trim(m[p := Unsubscribed(m[p], filter, c)], p)
    case InlineSubscribe(id, sub) =>
      var p := PathFrom(sub.filter, 0);
      EnsureKeeps(m, p);
      var m1 := Ensure(m, p);
      m1[p := m1[p].(inline := m1[p].inline[id := sub])]
    case InlineUnsubscribe(id, filter) =>
      var p := PathFrom(filter, 0);
      if p !in m then m
      else
        var m1 := m[p := m[p].(inline := m[p].inline - {id})];
        if m1[p].inline == map[] then Trim(m1, p) else m1
    case Retain(topic, payload) =>
      var p := PathFrom(topic, 0);
      EnsureKeeps(m, p);
      var m1 := Ensure(m, p);
      if payload then m1[p := m1[p].(retainPath := topic)]
      else Trim(m1[p := m1[p].(retainPath := "")], p)
  }

  const START: Index := map[[] := EMPTY]

  function Run(m: Index, ops: seq<Op>): Index
    decreases |ops|
  {
    if ops == [] then m else Run(Apply(m, ops[0]), ops[1..])
  }

  /** A retained message names a topic. */
  predicate ValidOp(op: Op) {
    op.Retain? && op.payload ==> op.topic != ""
  }

  // ---------------------------------------------------------------- entries after an operation

  lemma PutClosed(m: Index, p: Path, e: Entry)
    requires Closed(m) && p in m
    ensures Closed(m[p := e])
  {
  }

  lemma PutTidyExcept(m: Index, p: Path, e: Entry)
    requires TidyExcept(m, p) && p in m
    ensures TidyExcept(m[p := e], p)
    ensures e != EMPTY ==> Tidy(m[p := e])
  {
    var m1 := m[p := e];
    forall q | q in m1 && q != [] && q != p ensures m1[q] != EMPTY || HasChild(m1, q) {
      if m[q] == EMPTY {
        var c :| c in m && c != [] && Parent(c) == q;
        assert c in m1;
      }
    }
  }

  /** Each operation changes the entry of its own address and no other, and keeps the tree closed. */
  lemma ApplyTouchesOne(m: Index, op: Op)
    requires Closed(m)
    ensures Closed(Apply(m, op))
    ensures forall q :: q != OpAddress(op) ==> At(Apply(m, op), q) == At(m, q)
    ensures At(Apply(m, op), OpAddress(op)) == OpEntry(At(m, OpAddress(op)), op)
  {
    var p := OpAddress(op);
    EnsureKeeps(m, p);
    match op
    case Subscribe(c, sub) => PutClosed(Ensure(m, p), p, Subscribed(At(m, p), c, sub));
    case Unsubscribe(filter, c) =>
      if p in m {
        PutClosed(m, p, Unsubscribed(m[p], filter, c));
        TrimKeeps(m[p := Unsubscribed(m[p], filter, c)], p);
      }
    case InlineSubscribe(id, sub) =>
    case InlineUnsubscribe(id, filter) =>
      if p in m { TrimKeeps(m[p := m[p].(inline := m[p].inline - {id})], p); }
    case Retain(topic, payload) =>
      TrimKeeps(Ensure(m, p)[p := Ensure(m, p)[p].(retainPath := "")], p);
  }

  function OpAddress(op: Op): Path {
    match op
    case Subscribe(_, sub) => AddressOf(sub.filter)
    case Unsubscribe(filter, _) => AddressOf(filter)
    case InlineSubscribe(_, sub) => PathFrom(sub.filter, 0)
    case InlineUnsubscribe(_, filter) => PathFrom(filter, 0)
    case Retain(topic, _) => PathFrom(topic, 0)
  }

  /** The new entry, as if addresses always existed. */
  function OpEntry(e: Entry, op: Op): Entry {
    match op
    case Subscribe(c, sub) => Subscribed(e, c, sub)
    case Unsubscribe(filter, c) => Unsubscribed(e, filter, c)
    case InlineSubscribe(id, sub) => e.(inline := e.inline[id := sub])
    case InlineUnsubscribe(id, _) => e.(inline := e.inline - {id})
    case Retain(topic, payload) => e.(retainPath := if payload then topic else "")
  }

  lemma {:induction false} ApplyTidy(m: Index, op: Op)
    requires Closed(m) && Tidy(m) && ValidOp(op)
    ensures Tidy(Apply(m, op))
  {
    var p := OpAddress(op);
    EnsureKeeps(m, p);
    EnsureTidyExcept(m, p);
    var m1 := Ensure(m, p);
    match op
    case Subscribe(c, sub) =>
      SubscribedNotEmpty(m1[p], c, sub);
      PutTidyExcept(m1, p, Subscribed(m1[p], c, sub));
    case Unsubscribe(filter, c) =>
      if p in m {
        PutTidyExcept(m, p, Unsubscribed(m[p], filter, c));
        TrimTidies(m[p := Unsubscribed(m[p], filter, c)], p);
      }
    case InlineSubscribe(id, sub) =>
      assert id in m1[p].inline[id := sub];
      PutTidyExcept(m1, p, m1[p].(inline := m1[p].inline[id := sub]));
    case InlineUnsubscribe(id, filter) =>
      if p in m {
        var e := m[p].(inline := m[p].inline - {id});
        PutTidyExcept(m, p, e);
        if e.inline == map[] { TrimTidies(m[p := e], p); }
      }
    case Retain(topic, payload) =>
      var e := m1[p].(retainPath := if payload then topic else "");
      PutTidyExcept(m1, p, e);
      if !payload { TrimTidies(m1[p := e], p); }
  }

  lemma SubscribedNotEmpty(e: Entry, c: Client, sub: Subscription)
    ensures Subscribed(e, c, sub) != EMPTY
  {
    if IsShared(sub.filter) {
      assert GroupOf(sub.filter) in Subscribed(e, c, sub).shared;
    } else {
      assert c in Subscribed(e, c, sub).subs;
    }
  }
}
