/**
 Topic aliases: the broker's table for packets it sends, the receiver's table that undoes
 the compression, and the proof that every run of publishes can be undone.
 */
module TopicAliases {

  // ---------------------------------------------------------------- the tables

  /** The sender's table: topics with their numbers, and the highest number issued. */
  datatype Outbound = Outbound(table: map<string, nat>, cursor: nat, maximum: nat)

  function SetAlias(a: Outbound, topic: string): (Outbound, nat, bool) {
    if a.maximum == 0 then (a, 0, false)
    else if topic in a.table then (a, a.table[topic], true)
    else if a.cursor + 1 > a.maximum then (a, 0, false)
    else (a.(table := a.table[topic := a.cursor + 1], cursor := a.cursor + 1), a.cursor + 1, false)
  }

  /** Remove an alias only while the topic still has that number. */
  function DeleteAlias(a: Outbound, topic: string, id: nat): Outbound {
    if topic in a.table && a.table[topic] == id then a.(table := a.table - {topic}) else a
  }

  /** The receiver's answer: an empty topic asks for the registered one. */
  function Lookup(r: map<nat, string>, id: nat): string {
    if id in r then r[id] else ""
  }

  function Resolve(r: map<nat, string>, maximum: nat, id: nat, topic: string): (map<nat, string>, string) {
    if maximum == 0 then (r, topic)
    else if topic == "" then (r, Lookup(r, id))
    else (r[id := topic], topic)
  }

  class OutboundTopicAliases {
    var internal: map<string, nat>
    var cursor: nat
    const maximum: nat

    function View(): Outbound
      reads this
    {
      Outbound(internal, cursor, maximum)
    }

    constructor (maximum: nat)
      ensures View() == Outbound(map[], 0, maximum)
    {
      internal, cursor, this.maximum := map[], 0, maximum;
    }

    method Set(topic: string) returns (alias: nat, existed: bool)
      modifies this
      ensures (View(), alias, existed) == SetAlias(old(View()), topic)
      ensures alias > 0 ==> topic in internal && internal[topic] == alias
    {
      if maximum == 0 {
        return 0, false;
      }
      if topic in internal {
        return internal[topic], true;
      }
      var i := cursor;
      if i + 1 > maximum {
        return 0, false;
      }
      internal := internal[topic := i + 1];
      cursor := i + 1;
      return i + 1, false;
    }

    method Delete(topic: string, id: nat)
      modifies this
      ensures View() == DeleteAlias(old(View()), topic, id)
      ensures topic in internal ==> internal[topic] != id
    {
      if topic in internal && internal[topic] == id {
        internal := internal - {topic};
      }
    }
  }

  class InboundTopicAliases {
    var internal: map<nat, string>
    const maximum: nat

    constructor (maximum: nat)
      ensures internal == map[] && this.maximum == maximum
    {
      internal, this.maximum := map[], maximum;
    }

    method Set(id: nat, topic: string) returns (resolved: string)
      modifies this
      ensures (internal, resolved) == Resolve(old(internal), maximum, id, topic)
      ensures maximum > 0 && topic == "" && id !in old(internal) ==> resolved == ""
    {
      if maximum == 0 {
        return topic;
      }
      if topic == "" {
        return Lookup(internal, id);
      }
      internal := internal[id := topic];
      return topic;
    }
  }

  // ---------------------------------------------------------------- a run of publishes

  /** A publish to one client, and whether the enqueue succeeded. */
  datatype Publish = Publish(topic: string, enqueued: bool)

  /** What goes on the wire; alias 0 is no alias. */
  datatype Wire = Wire(topic: string, alias: nat)

  function WireFor(a: Outbound, topic: string): Wire {
    var (_, alias, existed) := SetAlias(a, topic);
    Wire(if alias > 0 && existed then "" else topic, alias)
  }

  /** The sender's table after one publish: a failed enqueue takes the alias back. */
  function After(a: Outbound, p: Publish): Outbound {
    var (a1, alias, _) := SetAlias(a, p.topic);
    if p.enqueued || alias == 0 then a1 else DeleteAlias(a1, p.topic, alias)
  }

  /** The packets enqueued in a run, and the topics they stand for. */
  function Wires(a: Outbound, ps: seq<Publish>): seq<Wire>
    decreases |ps|
  {
    if ps == [] then []
    else (if ps[0].enqueued then [WireFor(a, ps[0].topic)] else []) + Wires(After(a, ps[0]), ps[1..])
  }

  function Topics(ps: seq<Publish>): seq<string> {
    if ps == [] then [] else (if ps[0].enqueued then [ps[0].topic] else []) + Topics(ps[1..])
  }

  /** The receiver handles one packet. */
  function Receive(r: map<nat, string>, maximum: nat, w: Wire): (map<nat, string>, string) {
    if w.alias > 0 then Resolve(r, maximum, w.alias, w.topic) else (r, w.topic)
  }

  function Replay(r: map<nat, string>, maximum: nat, ws: seq<Wire>): seq<string>
    decreases |ws|
  {
    if ws == [] then []
    else var (r1, topic) := Receive(r, maximum, ws[0]); [topic] + Replay(r1, maximum, ws[1..])
  }

  // ---------------------------------------------------------------- the round trip

  /** Every alias the sender relies on is one the receiver can resolve. */
  predicate InStep(a: Outbound, r: map<nat, string>) {
    && (forall t :: t in a.table ==> 1 <= a.table[t] <= a.cursor && Lookup(r, a.table[t]) == t)
    && (forall n :: n in r ==> n <= a.cursor)
    && a.cursor <= a.maximum
  }

  lemma StepRoundTrip(a: Outbound, r: map<nat, string>, p: Publish)
    requires InStep(a, r)
    ensures var w := WireFor(a, p.topic);
            var (r1, topic) := Receive(r, a.maximum, w);
            && InStep(After(a, p), if p.enqueued then r1 else r)
            && topic == p.topic && w.alias <= a.maximum && After(a, p).maximum == a.maximum
  {
  }

  /** Replaying the enqueued packets through the receiver's table recovers every topic, in order. */
  lemma {:induction false} AliasRoundTrip(a: Outbound, r: map<nat, string>, ps: seq<Publish>)
    requires InStep(a, r)
    ensures Replay(r, a.maximum, Wires(a, ps)) == Topics(ps)
    ensures forall i :: 0 <= i < |Wires(a, ps)| ==> Wires(a, ps)[i].alias <= a.maximum
    decreases |ps|
  {
    if ps != [] {
      var p := ps[0];
      StepRoundTrip(a, r, p);
      var w := WireFor(a, p.topic);
      var (r1, topic) := Receive(r, a.maximum, w);
      AliasRoundTrip(After(a, p), if p.enqueued then r1 else r, ps[1..]);
      if p.enqueued {
        assert Wires(a, ps)[1..] == Wires(After(a, p), ps[1..]);
      } else {
        assert Wires(a, ps) == Wires(After(a, p), ps[1..]);
      }
    }
  }

  lemma FreshConnectionRoundTrip(maximum: nat, ps: seq<Publish>)
    ensures Replay(map[], maximum, Wires(Outbound(map[], 0, maximum), ps)) == Topics(ps)
  {
    AliasRoundTrip(Outbound(map[], 0, maximum), map[], ps);
  }

  // ---------------------------------------------------------------- numbers are never shared

  /** The numbers the publishes of a run were given, enqueued or not; 0 is none. */
  function Numbers(a: Outbound, ps: seq<Publish>): (ns: seq<nat>)
    ensures |ns| == |ps|
    decreases |ps|
  {
    if ps == [] then [] else [WireFor(a, ps[0].topic).alias] + Numbers(After(a, ps[0]), ps[1..])
  }

  /** Every number issued so far belongs to one topic, including topics that lost it again. */
  ghost predicate Owned(a: Outbound, owner: map<nat, string>) {
    && (forall t :: t in a.table ==> a.table[t] in owner && owner[a.table[t]] == t)
    && (forall n :: n in owner <==> 1 <= n <= a.cursor)
    && a.cursor <= a.maximum
  }

  function Own(a: Outbound, owner: map<nat, string>, topic: string): map<nat, string> {
    var alias := WireFor(a, topic).alias;
    if alias > 0 then owner[alias := topic] else owner
  }

  lemma OwnKeeps(a: Outbound, owner: map<nat, string>, p: Publish)
    requires Owned(a, owner)
    ensures Owned(After(a, p), Own(a, owner, p.topic))
    ensures forall n :: n in owner ==> n in Own(a, owner, p.topic) && Own(a, owner, p.topic)[n] == owner[n]
    ensures var alias := WireFor(a, p.topic).alias; alias <= a.maximum
    ensures After(a, p).maximum == a.maximum
  {
  }

  lemma {:induction false} NumbersOwned(a: Outbound, owner: map<nat, string>, ps: seq<Publish>) returns (final: map<nat, string>)
    requires Owned(a, owner)
    ensures forall n :: n in owner ==> n in final && final[n] == owner[n]
    ensures forall i :: 0 <= i < |ps| && Numbers(a, ps)[i] > 0 ==>
              var n := Numbers(a, ps)[i]; n <= a.maximum && n in final && final[n] == ps[i].topic
    decreases |ps|
  {
    if ps == [] {
      final := owner;
    } else {
      OwnKeeps(a, owner, ps[0]);
      final := NumbersOwned(After(a, ps[0]), Own(a, owner, ps[0].topic), ps[1..]);
    }
  }

  /** Over every run on a connection, each number lies in 1..maximum and is never given to two topics. */
  lemma NumbersNeverShared(maximum: nat, ps: seq<Publish>, i: nat, j: nat)
    requires i < |ps| && j < |ps|
    ensures var ns := Numbers(Outbound(map[], 0, maximum), ps);
            && ns[i] <= maximum
            && (ns[i] > 0 && ns[i] == ns[j] ==> ps[i].topic == ps[j].topic)
  {
    var final := NumbersOwned(Outbound(map[], 0, maximum), map[], ps);
  }

  // ---------------------------------------------------------------- numbers are used

  lemma {:induction false} NumberedUnlessFull(a: Outbound, ps: seq<Publish>, i: nat, issued: set<nat>)
    requires i < |ps| && a.cursor <= a.maximum && (forall t :: t in a.table ==> a.table[t] > 0)
    requires forall n :: 1 <= n <= a.cursor ==> n in issued
    ensures Numbers(a, ps)[i] == 0 ==> forall n :: 1 <= n <= a.maximum ==> n in issued || n in Numbers(a, ps)[..i]
    decreases |ps|
  {
    var ns := Numbers(a, ps);
    if i > 0 {
      var a1 := After(a, ps[0]);
      NumberedUnlessFull(a1, ps[1..], i - 1, issued + {ns[0]});
      assert ns[1..] == Numbers(a1, ps[1..]) && ns[..i] == [ns[0]] + ns[1..][..i - 1];
    }
  }

  /** Over every run on a connection, a publish goes without a number only when all of them were issued before. */
  lemma NumbersUsed(maximum: nat, ps: seq<Publish>, i: nat)
    requires i < |ps|
    ensures var ns := Numbers(Outbound(map[], 0, maximum), ps); ns[i] == 0 ==> forall n :: 1 <= n <= maximum ==> n in ns[..i]
  {
    NumberedUnlessFull(Outbound(map[], 0, maximum), ps, i, {});
  }

  /** The sender's table after a run. */
  function AfterAll(a: Outbound, ps: seq<Publish>): Outbound
    decreases |ps|
  {
    if ps == [] then a else AfterAll(After(a, ps[0]), ps[1..])
  }

  lemma {:induction false} AliasStays(a: Outbound, ps: seq<Publish>, topic: string)
    requires topic in a.table && a.maximum > 0 && forall i :: 0 <= i < |ps| && ps[i].topic == topic ==> ps[i].enqueued
    ensures var b := AfterAll(a, ps); topic in b.table && b.table[topic] == a.table[topic] && b.maximum == a.maximum
    decreases |ps|
  {
    if ps != [] { AliasStays(After(a, ps[0]), ps[1..], topic); }
  }

  /** Once a topic was sent with a number, later packets carry the number alone, until an enqueue of it fails. */
  lemma AliasReplacesTopic(a: Outbound, topic: string, ps: seq<Publish>)
    requires WireFor(a, topic).alias > 0 && (forall t :: t in a.table ==> a.table[t] > 0)
    requires forall i :: 0 <= i < |ps| && ps[i].topic == topic ==> ps[i].enqueued
    ensures WireFor(AfterAll(After(a, Publish(topic, true)), ps), topic) == Wire("", WireFor(a, topic).alias)
  {
    AliasStays(After(a, Publish(topic, true)), ps, topic);
  }

  /** Taking back a number the topic no longer has changes nothing; its own goes, and no other topic's. */
  lemma DeleteOnlyOwn(a: Outbound, topic: string, id: nat)
    ensures var b := DeleteAlias(a, topic, id);
            && b.cursor == a.cursor && b.maximum == a.maximum
            && (forall t :: t in b.table <==> t in a.table && !(t == topic && a.table[t] == id))
            && (forall t :: t in b.table ==> b.table[t] == a.table[t])
  {
  }

  /** The receiver keeps no aliases when it allows none; otherwise a topic is registered for later packets, and an
      empty one stands for what was registered last. */
  lemma ResolveMeans(r: map<nat, string>, maximum: nat, id: nat, topic: string)
    ensures var (after, resolved) := Resolve(r, maximum, id, topic);
            && (maximum == 0 ==> after == r && resolved == topic)
            && (maximum > 0 && topic != "" ==> resolved == topic && Resolve(after, maximum, id, "").1 == topic)
            && (maximum > 0 && topic == "" ==> after == r && (id in r ==> resolved == r[id]) && (id !in r ==> resolved == ""))
            && (forall n :: n != id ==> (n in after <==> n in r) && (n in r ==> after[n] == r[n]))
  {
  }
}
