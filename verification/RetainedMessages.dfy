/**
 Retained messages: the packets an index stores by topic, tied to the addresses that keep a
 retained topic's particles alive.
 */
module RetainedMessages {
  import opened Subscriptions
  import opened TopicLevels
  import opened TopicIndex
  import opened TopicOperations
  import opened TopicTrie

  datatype Packet = Packet(topic: string, payload: seq<bv8>, retain: bool)

  /** A stored packet has a payload and is marked at its topic's address, and every mark is a stored packet's. */
  ghost predicate Stored(m: Index, retained: map<string, Packet>) {
    && (forall t :: t in retained ==> StoredAt(m, t, retained[t]))
    && (forall p :: Marked(At(m, p), p, retained))
  }

  ghost predicate StoredAt(m: Index, t: string, pk: Packet) {
    pk.topic == t && pk.payload != [] && At(m, Split(t)).retainPath == t
  }

  ghost predicate Marked(e: Entry, p: Path, retained: map<string, Packet>) {
    e.retainPath != "" ==> e.retainPath in retained && Split(e.retainPath) == p
  }

  /** The stored packets after a message. */
  function Keep(retained: map<string, Packet>, pk: Packet): map<string, Packet> {
    if pk.payload != [] then retained[pk.topic := pk] else retained - {pk.topic}
  }

  lemma PayloadsKept(m: Index, retained: map<string, Packet>)
    requires Stored(m, retained)
    ensures forall t :: t in retained ==> retained[t].payload != []
  {
    assert forall t :: t in retained ==> StoredAt(m, t, retained[t]);
  }

  lemma MessageStored(m: Index, retained: map<string, Packet>, pk: Packet)
    requires Closed(m) && Stored(m, retained)
    ensures Stored(Apply(m, Op.Retain(pk.topic, pk.payload != [])), Keep(retained, pk))
  {
    var op := Op.Retain(pk.topic, pk.payload != []);
    var m', kept := Apply(m, op), Keep(retained, pk);
    ApplyTouchesOne(m, op);
    forall t | t in kept ensures StoredAt(m', t, kept[t]) {
      if t != pk.topic {
        assert StoredAt(m, t, retained[t]);
        if Split(t) == Split(pk.topic) { SplitInjective(t, pk.topic); }
      }
    }
    forall p ensures Marked(At(m', p), p, kept) {
      assert Marked(At(m, p), p, retained);
    }
  }

  /** Subscriptions come and go without touching what is retained. */
  lemma SubscriptionStored(m: Index, retained: map<string, Packet>, op: Op)
    requires Closed(m) && Stored(m, retained) && !op.Retain?
    ensures Stored(Apply(m, op), retained)
  {
    ApplyTouchesOne(m, op);
    forall t | t in retained ensures StoredAt(Apply(m, op), t, retained[t]) {
      assert StoredAt(m, t, retained[t]);
    }
    forall p ensures Marked(At(Apply(m, op), p), p, retained) {
      assert Marked(At(m, p), p, retained);
    }
  }

  // ---------------------------------------------------------------- the index with its store

  class TopicsIndex {
    const trie: Trie
    var retained: map<string, Packet>

    ghost predicate Valid()
      reads this, trie, trie.repr
    {
      trie.Valid() && Stored(trie.Model(), retained)
    }

    constructor ()
      ensures Valid() && fresh(trie) && fresh(trie.repr) && trie.Model() == START && retained == map[]
    {
      trie := new Trie();
      retained := map[];
    }

    /** Store a message, or with an empty payload release the topic's. The answer is 1 for a stored message
        and -1 for a released one; a second release in a row answers 0. */
    method RetainMessage(pk: Packet) returns (out: int)
      requires Valid()
      modifies this, trie, trie.repr
      ensures Valid() && fresh(trie.repr - old(trie.repr))
      ensures trie.Model() == Apply(old(trie.Model()), Op.Retain(pk.topic, pk.payload != []))
      ensures retained == Keep(old(retained), pk)
      ensures out == 1 <==> pk.topic in retained
      ensures out == -1 <==> pk.payload == [] && pk.topic in old(retained) && old(retained)[pk.topic].retain
      ensures -1 <= out <= 1
    {
      ghost var m := trie.Model();
      trie.ModelClosed();
      MessageStored(m, retained, pk);
      PayloadsKept(m, retained);
      out := Remember(pk);
      trie.Retain(pk.topic, |pk.payload| > 0);
    }

    /** The part that changes the stored packets. */
    method Remember(pk: Packet) returns (out: int)
      requires forall t :: t in retained ==> retained[t].payload != []
      modifies `retained
      ensures retained == Keep(old(retained), pk) && -1 <= out <= 1
      ensures out == 1 <==> pk.topic in retained
      ensures out == -1 <==> pk.payload == [] && pk.topic in old(retained) && old(retained)[pk.topic].retain
    {
      if |pk.payload| > 0 {
        retained := retained[pk.topic := pk];
        return 1;
      }
      out := 0;
      if pk.topic in retained && |retained[pk.topic].payload| > 0 && retained[pk.topic].retain {
        out := -1;
      }
      retained := retained - {pk.topic};
    }
  }

  // ---------------------------------------------------------------- runs

  datatype Change = Message(pk: Packet) | Subscription(op: Op)

  /** Only messages retain. */
  predicate Proper(c: Change) {
    c.Subscription? ==> !c.op.Retain?
  }

  /** The stored packets after a run, by the messages alone. */
  function KeepAll(retained: map<string, Packet>, changes: seq<Change>): map<string, Packet>
    decreases |changes|
  {
    if changes == [] then retained
    else KeepAll(if changes[0].Message? then Keep(retained, changes[0].pk) else retained, changes[1..])
  }

  function OpOf(c: Change): Op {
    match c
    case Message(pk) => Op.Retain(pk.topic, pk.payload != [])
    case Subscription(op) => op
  }

  function RunChanges(m: Index, changes: seq<Change>): Index
    decreases |changes|
  {
    if changes == [] then m else RunChanges(Apply(m, OpOf(changes[0])), changes[1..])
  }

  lemma {:induction false} RunStored(m: Index, retained: map<string, Packet>, changes: seq<Change>)
    requires Closed(m) && Stored(m, retained) && forall i :: 0 <= i < |changes| ==> Proper(changes[i])
    ensures Stored(RunChanges(m, changes), KeepAll(retained, changes))
    decreases |changes|
  {
    if changes != [] {
      var c := changes[0];
      assert Proper(c);
      ApplyTouchesOne(m, OpOf(c));
      if c.Message? {
        MessageStored(m, retained, c.pk);
        RunStored(Apply(m, OpOf(c)), Keep(retained, c.pk), changes[1..]);
      } else {
        SubscriptionStored(m, retained, c.op);
        RunStored(Apply(m, OpOf(c)), retained, changes[1..]);
      }
    }
  }

  /** In every run a topic that is not empty is marked at its address exactly when a packet is stored for it. */
  lemma MarkedIffStored(changes: seq<Change>, topic: string)
    requires topic != "" && forall i :: 0 <= i < |changes| ==> Proper(changes[i])
    ensures topic in KeepAll(map[], changes) <==> At(RunChanges(START, changes), Split(topic)).retainPath == topic
  {
    assert Stored(START, map[]);
    RunStored(START, map[], changes);
    var m, retained := RunChanges(START, changes), KeepAll(map[], changes);
    assert topic in retained ==> StoredAt(m, topic, retained[topic]);
    assert Marked(At(m, Split(topic)), Split(topic), retained);
  }

  /** This is the last message for the topic. */
  ghost predicate LastFor(changes: seq<Change>, topic: string, i: int) {
    && 0 <= i < |changes| && changes[i].Message? && changes[i].pk.topic == topic
    && forall j :: i < j < |changes| && changes[j].Message? ==> changes[j].pk.topic != topic
  }

  ghost predicate NoneFor(changes: seq<Change>, topic: string) {
    forall j :: 0 <= j < |changes| && changes[j].Message? ==> changes[j].pk.topic != topic
  }

  /** What is stored for a topic is its last message, unless that one was empty; without one it stays as it was. */
  lemma {:induction false} StoresLast(retained: map<string, Packet>, changes: seq<Change>, topic: string)
    ensures forall i :: LastFor(changes, topic, i) ==>
              var kept, pk := KeepAll(retained, changes), changes[i].pk;
              (topic in kept <==> pk.payload != []) && (topic in kept ==> kept[topic] == pk)
    ensures NoneFor(changes, topic) ==>
              var kept := KeepAll(retained, changes);
              (topic in kept <==> topic in retained) && (topic in kept ==> kept[topic] == retained[topic])
    decreases |changes|
  {
    if changes != [] {
      var first, rest := changes[0], changes[1..];
      var retained' := if first.Message? then Keep(retained, first.pk) else retained;
      StoresLast(retained', rest, topic);
      forall i | LastFor(changes, topic, i)
        ensures i > 0 ==> LastFor(rest, topic, i - 1)
        ensures i == 0 ==> NoneFor(rest, topic)
      {
      }
    }
  }
}
