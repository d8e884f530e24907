/**
 The trie walk against flat matching: after any operations, a topic query finds exactly
 the held filters that the flat matcher accepts, up to two differences stated here.
 */
module TopicMatching {
  import opened Subscriptions
  import opened TopicLevels
  import opened TopicIndex
  import opened TopicOperations

  // ---------------------------------------------------------------- the plain list of subscriptions

  /** (client, filter levels) -> subscription for ordinary filters, and the shared and inline slots.
      Levels name the filter: splitting is injective. */
  datatype Held = Held(
    ordinary: map<(Client, Path), Subscription>,
    shared: map<(Client, string, Path), Subscription>,
    inline: map<(int, Path), Subscription>)

  const NONE := Held(map[], map[], map[])

  function Record(h: Held, op: Op): Held {
    match op
    case Subscribe(c, sub) =>
      if IsShared(sub.filter) then h.(shared := h.shared[(c, GroupOf(sub.filter), AddressOf(sub.filter)) := sub])
      else h.(ordinary := h.ordinary[(c, Split(sub.filter)) := sub])
    case Unsubscribe(filter, c) =>
      if IsShared(filter) then h.(shared := h.shared - {(c, GroupOf(filter), AddressOf(filter))})
      else h.(ordinary := h.ordinary - {(c, Split(filter))})
    case InlineSubscribe(id, sub) => h.(inline := h.inline[(id, PathFrom(sub.filter, 0)) := sub])
    case InlineUnsubscribe(id, filter) => h.(inline := h.inline - {(id, PathFrom(filter, 0))})
    case Retain(_, _) => h
  }

  function RecordAll(h: Held, ops: seq<Op>): Held
    decreases |ops|
  {
    if ops == [] then h else RecordAll(Record(h, ops[0]), ops[1..])
  }

  // ---------------------------------------------------------------- the index agrees with the list

  /** One address stores exactly the held subscriptions that live there. */
  ghost predicate OrdinaryAt(e: Entry, h: Held, p: Path) {
    && (forall c :: c in e.subs <==> (c, p) in h.ordinary)
    && (forall c :: (c, p) in h.ordinary ==> e.subs[c] == h.ordinary[(c, p)])
  }

  ghost predicate SharedAt(e: Entry, h: Held, p: Path) {
    && (forall g :: g in e.shared ==> e.shared[g] != map[])
    && (forall c, g :: c in Members(e.shared, g) <==> (c, g, p) in h.shared)
    && (forall c, g :: (c, g, p) in h.shared ==> Members(e.shared, g)[c] == h.shared[(c, g, p)])
  }

  ghost predicate InlineAt(e: Entry, h: Held, p: Path) {
    && (forall i :: i in e.inline <==> (i, p) in h.inline)
    && (forall i :: (i, p) in h.inline ==> e.inline[i] == h.inline[(i, p)])
  }

  ghost predicate HeldOk(h: Held) {
    && (forall c, p :: (c, p) in h.ordinary ==>
          !IsShared(h.ordinary[(c, p)].filter) && Split(h.ordinary[(c, p)].filter) == p)
    && (forall c, g, p :: (c, g, p) in h.shared ==>
          IsShared(h.shared[(c, g, p)].filter) && GroupOf(h.shared[(c, g, p)].filter) == g
          && AddressOf(h.shared[(c, g, p)].filter) == p)
  }

  ghost predicate Agrees(m: Index, h: Held) {
    Closed(m) && HeldOk(h) && OrdinaryAgrees(m, h) && SharedAgrees(m, h) && InlineAgrees(m, h)
  }

  ghost predicate OrdinaryAgrees(m: Index, h: Held) {
    forall p :: OrdinaryAt(At(m, p), h, p)
  }

  ghost predicate SharedAgrees(m: Index, h: Held) {
    forall p :: SharedAt(At(m, p), h, p)
  }

  ghost predicate InlineAgrees(m: Index, h: Held) {
    forall p :: InlineAt(At(m, p), h, p)
  }

  lemma OrdinaryAdded(e: Entry, h: Held, p: Path, c: Client, sub: Subscription)
    requires OrdinaryAt(e, h, p)
    ensures OrdinaryAt(e.(subs := e.subs[c := sub]), h.(ordinary := h.ordinary[(c, p) := sub]), p)
    ensures OrdinaryAt(e.(subs := e.subs - {c}), h.(ordinary := h.ordinary - {(c, p)}), p)
  {
  }

  lemma OrdinaryElsewhere(e: Entry, h: Held, p: Path, q: Path, c: Client, sub: Subscription)
    requires OrdinaryAt(e, h, p) && p != q
    ensures OrdinaryAt(e, h.(ordinary := h.ordinary[(c, q) := sub]), p)
    ensures OrdinaryAt(e, h.(ordinary := h.ordinary - {(c, q)}), p)
  {
  }

  lemma OrdinarySame(e: Entry, e': Entry, h: Held, h': Held, p: Path)
    requires OrdinaryAt(e, h, p) && e'.subs == e.subs && h'.ordinary == h.ordinary
    ensures OrdinaryAt(e', h', p)
  {
  }

  lemma AddressOrdinary(filter: string)
    requires !IsShared(filter)
    ensures AddressOf(filter) == Split(filter)
  {
  }

  lemma RecordOrdinary(e: Entry, h: Held, p: Path, op: Op)
    requires OrdinaryAt(e, h, p)
    ensures OrdinaryAt(if p == OpAddress(op) then OpEntry(e, op) else e, Record(h, op), p)
  {
    var e', h' := if p == OpAddress(op) then OpEntry(e, op) else e, Record(h, op);
    if op.Subscribe? && !IsShared(op.sub.filter) {
      AddressOrdinary(op.sub.filter);
      if p == OpAddress(op) {
        OrdinaryAdded(e, h, p, op.client, op.sub);
      } else {
        OrdinaryElsewhere(e, h, p, OpAddress(op), op.client, op.sub);
      }
    } else if op.Unsubscribe? && !IsShared(op.filter) {
      AddressOrdinary(op.filter);
      if p == OpAddress(op) {
        OrdinaryAdded(e, h, p, op.client, NO_SUBSCRIPTION);
      } else {
        OrdinaryElsewhere(e, h, p, OpAddress(op), op.client, NO_SUBSCRIPTION);
      }
    } else {
      assert e'.subs == e.subs && h'.ordinary == h.ordinary;
      OrdinarySame(e, e', h, h', p);
    }
  }

  lemma MembersAdded(e: Entry, g0: string, c: Client, sub: Subscription, g: string)
    ensures Members(AddShared(e, g0, c, sub).shared, g)
         == if g == g0 then Members(e.shared, g)[c := sub] else Members(e.shared, g)
  {
  }

  lemma MembersDeleted(e: Entry, g0: string, c: Client, g: string)
    ensures Members(DeleteShared(e, g0, c).shared, g)
         == if g == g0 then Members(e.shared, g) - {c} else Members(e.shared, g)
  {
  }

  lemma SharedAdded(e: Entry, h: Held, p: Path, g0: string, c: Client, sub: Subscription)
    requires SharedAt(e, h, p)
    ensures SharedAt(AddShared(e, g0, c, sub), h.(shared := h.shared[(c, g0, p) := sub]), p)
  {
    var e' := AddShared(e, g0, c, sub);
    assert c in e'.shared[g0];
    forall g ensures Members(e'.shared, g) == if g == g0 then Members(e.shared, g)[c := sub] else Members(e.shared, g) {
      MembersAdded(e, g0, c, sub, g);
    }
  }

  lemma SharedDeleted(e: Entry, h: Held, p: Path, g0: string, c: Client)
    requires SharedAt(e, h, p)
    ensures SharedAt(DeleteShared(e, g0, c), h.(shared := h.shared - {(c, g0, p)}), p)
  {
    var e' := DeleteShared(e, g0, c);
    forall g ensures Members(e'.shared, g) == if g == g0 then Members(e.shared, g) - {c} else Members(e.shared, g) {
      MembersDeleted(e, g0, c, g);
    }
  }

  lemma SharedElsewhere(e: Entry, h: Held, p: Path, q: Path, g: string, c: Client, sub: Subscription)
    requires SharedAt(e, h, p) && p != q
    ensures SharedAt(e, h.(shared := h.shared[(c, g, q) := sub]), p)
    ensures SharedAt(e, h.(shared := h.shared - {(c, g, q)}), p)
  {
  }

  lemma SharedSame(e: Entry, e': Entry, h: Held, h': Held, p: Path)
    requires SharedAt(e, h, p) && e'.shared == e.shared && h'.shared == h.shared
    ensures SharedAt(e', h', p)
  {
  }

  lemma RecordShared(e: Entry, h: Held, p: Path, op: Op)
    requires SharedAt(e, h, p)
    ensures SharedAt(if p == OpAddress(op) then OpEntry(e, op) else e, Record(h, op), p)
  {
    var e', h' := if p == OpAddress(op) then OpEntry(e, op) else e, Record(h, op);
    if op.Subscribe? && IsShared(op.sub.filter) {
      if p == OpAddress(op) {
        SharedAdded(e, h, p, GroupOf(op.sub.filter), op.client, op.sub);
      } else {
        SharedElsewhere(e, h, p, OpAddress(op), GroupOf(op.sub.filter), op.client, op.sub);
      }
    } else if op.Unsubscribe? && IsShared(op.filter) {
      if p == OpAddress(op) {
        SharedDeleted(e, h, p, GroupOf(op.filter), op.client);
      } else {
        SharedElsewhere(e, h, p, OpAddress(op), GroupOf(op.filter), op.client, NO_SUBSCRIPTION);
      }
    } else {
      assert e'.shared == e.shared && h'.shared == h.shared;
      SharedSame(e, e', h, h', p);
    }
  }

  lemma InlineChanged(e: Entry, h: Held, p: Path, q: Path, id: int, sub: Subscription)
    requires InlineAt(e, h, p)
    ensures p == q ==> InlineAt(e.(inline := e.inline[id := sub]), h.(inline := h.inline[(id, q) := sub]), p)
    ensures p == q ==> InlineAt(e.(inline := e.inline - {id}), h.(inline := h.inline - {(id, q)}), p)
    ensures p != q ==> InlineAt(e, h.(inline := h.inline[(id, q) := sub]), p) && InlineAt(e, h.(inline := h.inline - {(id, q)}), p)
  {
  }

  lemma InlineSame(e: Entry, e': Entry, h: Held, h': Held, p: Path)
    requires InlineAt(e, h, p) && e'.inline == e.inline && h'.inline == h.inline
    ensures InlineAt(e', h', p)
  {
  }

  lemma RecordInline(e: Entry, h: Held, p: Path, op: Op)
    requires InlineAt(e, h, p)
    ensures InlineAt(if p == OpAddress(op) then OpEntry(e, op) else e, Record(h, op), p)
  {
    var e', h' := if p == OpAddress(op) then OpEntry(e, op) else e, Record(h, op);
    if op.InlineSubscribe? {
      InlineChanged(e, h, p, OpAddress(op), op.id, op.sub);
    } else if op.InlineUnsubscribe? {
      InlineChanged(e, h, p, OpAddress(op), op.id, NO_SUBSCRIPTION);
    } else {
      assert e'.inline == e.inline && h'.inline == h.inline;
      InlineSame(e, e', h, h', p);
    }
  }

  lemma RecordHeldOk(h: Held, op: Op)
    requires HeldOk(h)
    ensures HeldOk(Record(h, op))
  {
  }

  lemma ApplyAgrees(m: Index, h: Held, op: Op)
    requires Agrees(m, h)
    ensures Agrees(Apply(m, op), Record(h, op))
  {
    ApplyTouchesOne(m, op);
    RecordHeldOk(h, op);
    var m' := Apply(m, op);
    forall p ensures OrdinaryAt(At(m', p), Record(h, op), p) && SharedAt(At(m', p), Record(h, op), p)
                     && InlineAt(At(m', p), Record(h, op), p)
    {
      assert At(m', p) == if p == OpAddress(op) then OpEntry(At(m, p), op) else At(m, p);
      RecordOrdinary(At(m, p), h, p, op);
      RecordShared(At(m, p), h, p, op);
      RecordInline(At(m, p), h, p, op);
    }
  }

  lemma StartAgrees()
    ensures Agrees(START, NONE)
  {
    assert forall p :: At(START, p) == EMPTY;
  }

  lemma {:induction false} RunAgrees(m: Index, h: Held, ops: seq<Op>)
    requires Agrees(m, h)
    ensures Agrees(Run(m, ops), RecordAll(h, ops))
    decreases |ops|
  {
    if ops != [] {
      ApplyAgrees(m, h, ops[0]);
      RunAgrees(Apply(m, ops[0]), Record(h, ops[0]), ops[1..]);
    }
  }

  lemma {:induction false} RunTidy(m: Index, ops: seq<Op>)
    requires Closed(m) && Tidy(m) && forall i :: 0 <= i < |ops| ==> ValidOp(ops[i])
    ensures Closed(Run(m, ops)) && Tidy(Run(m, ops))
    decreases |ops|
  {
    if ops != [] {
      ApplyTouchesOne(m, ops[0]);
      ApplyTidy(m, ops[0]);
      RunTidy(Apply(m, ops[0]), ops[1..]);
    }
  }

  /** After any operations the index holds no address that does not lead to something stored. */
  lemma NoDeadAddresses(ops: seq<Op>, p: Path) returns (q: Path)
    requires (forall i :: 0 <= i < |ops| ==> ValidOp(ops[i])) && p in Run(START, ops) && p != []
    ensures p <= q && At(Run(START, ops), q) != EMPTY
  {
    RunTidy(START, ops);
    q := TidyReaches(Run(START, ops), p);
  }

  // ---------------------------------------------------------------- queries

  /** gatherSubscriptions skips top-level wildcards for `$` topics, by the filter's first character. */
  predicate SkipsDollar(filter: string, topic: string)
    requires topic != ""
  {
    filter != "" && topic[0] == '$' && filter[0] in {'+', '#'}
  }

  /** A query gathers from this address. */
  predicate Hit(m: Index, topic: string, p: Path, parentHash: bool) {
    Gathers(m, [], Split(topic), p, parentHash)
  }

  /** The ordinary clients a query returns. */
  ghost predicate Finds(m: Index, topic: string, c: Client) {
    topic != "" && exists p :: Hit(m, topic, p, true) && c in At(m, p).subs && !SkipsDollar(At(m, p).subs[c].filter, topic)
  }

  ghost predicate FindsShared(m: Index, topic: string, filter: string, c: Client) {
    topic != "" && exists p :: Hit(m, topic, p, true) && Offers(At(m, p), filter, c)
  }

  /** One address holds the client as a member of some group, under that full filter. */
  ghost predicate Offers(e: Entry, filter: string, c: Client) {
    exists g :: g in e.shared && c in e.shared[g] && e.shared[g][c].filter == filter
  }

  ghost predicate FindsInline(m: Index, topic: string, id: int, sub: Subscription) {
    topic != "" && exists p :: Hit(m, topic, p, false) && id in At(m, p).inline && At(m, p).inline[id] == sub
  }

  /** What the flat matcher answers. */
  ghost predicate FlatMatch(filter: string, topic: string) {
    filter == topic || (!DollarBlocked(Split(filter), Split(topic)) && LevelsMatch(Split(filter), Split(topic)))
  }

  /** A filter whose last two levels are `+/#`, at the level of the `+`. */
  predicate PlusHashParent(filter: string, topic: string) {
    ParentLevel(Split(filter), Split(topic), true)
  }

  /** Both `$` rules agree on filters whose levels match. */
  lemma DollarRulesAgree(filter: string, topic: string)
    requires topic != "" && LevelsMatch(Split(filter), Split(topic))
    ensures SkipsDollar(filter, topic) <==> DollarBlocked(Split(filter), Split(topic))
  {
    FirstLevel(filter);
    FirstLevel(topic);
    var f, t := Split(filter)[0], Split(topic)[0];
    assert f == "+" || f == "#" || f == t;
  }

  /** The client holds a filter the flat matcher accepts, other than `.../+/#` at its parent level. */
  ghost predicate HoldsOrdinary(h: Held, topic: string, c: Client, f: string) {
    (c, Split(f)) in h.ordinary && FlatMatch(f, topic) && !PlusHashParent(f, topic)
  }

  ghost predicate MatchesOrdinary(h: Held, topic: string, c: Client) {
    topic != "" && exists f :: HoldsOrdinary(h, topic, c, f)
  }

  lemma GathersFromRoot(m: Index, t: Path, p: Path, ph: bool)
    requires Closed(m) && t != [] && WildcardFree(t)
    ensures Gathers(m, [], t, p, ph) <==> p != [] && p in m && LevelsMatch(p, t) && !ParentLevel(p, t, ph)
  {
    if p == [] {
      if Gathers(m, [], t, p, ph) { GathersBelow(m, [], t, p, ph); }
    } else {
      GathersIff(m, [], t, p, ph);
      assert [] + p == p;
    }
  }

  /** After any operations, a query for a wildcard-free topic finds exactly the clients
      holding an ordinary filter the flat matcher accepts, except `.../+/#` at its parent level. */
  lemma WalkAgreesWithFlatMatch(ops: seq<Op>, topic: string, c: Client)
    requires WildcardFree(Split(topic))
    ensures Finds(Run(START, ops), topic, c) <==> MatchesOrdinary(RecordAll(NONE, ops), topic, c)
  {
    StartAgrees();
    RunAgrees(START, NONE, ops);
    QueryAgrees(Run(START, ops), RecordAll(NONE, ops), topic, c);
  }

  lemma QueryAgrees(m: Index, h: Held, topic: string, c: Client)
    requires Agrees(m, h) && WildcardFree(Split(topic))
    ensures Finds(m, topic, c) <==> MatchesOrdinary(h, topic, c)
  {
    if Finds(m, topic, c) {
      var p :| Hit(m, topic, p, true) && c in At(m, p).subs && !SkipsDollar(At(m, p).subs[c].filter, topic);
      GathersFromRoot(m, Split(topic), p, true);
      assert OrdinaryAt(At(m, p), h, p);
      var f := h.ordinary[(c, p)].filter;
      assert Split(f) == p;
      DollarRulesAgree(f, topic);
      assert HoldsOrdinary(h, topic, c, f);
    }
    if f :| topic != "" && HoldsOrdinary(h, topic, c, f) {
      var p := Split(f);
      if f == topic { FlatMatchConcrete(f, topic); }
      assert OrdinaryAt(At(m, p), h, p);
      SplitInjective(f, h.ordinary[(c, p)].filter);
      GathersFromRoot(m, Split(topic), p, true);
      DollarRulesAgree(f, topic);
      assert c in At(m, p).subs && Hit(m, topic, p, true);
    }
  }

  /** The exception is real: `+/#` is held and flatly matches `a`, and the walk misses it. */
  lemma PlusHashMissed(c: Client, sub: Subscription)
    requires sub.filter == "+/#"
    ensures FlatMatch("+/#", "a") && PlusHashParent("+/#", "a") && !Finds(Run(START, [Subscribe(c, sub)]), "a", c)
  {
    var ops := [Subscribe(c, sub)];
    SplitHash('+');
    assert RecordAll(NONE, ops) == RecordAll(Record(NONE, ops[0]), ops[1..]);
    assert !IsShared("+/#");
    WalkAgreesWithFlatMatch(ops, "a", c);
    forall f | (c, Split(f)) in RecordAll(NONE, ops).ordinary ensures f == "+/#" {
      SplitInjective(f, "+/#");
    }
  }

  lemma SplitHash(k: char)
    requires k != '/'
    ensures Split([k, '/', '#']) == [[k], "#"] && Split([k]) == [[k]] && Split("a") == ["a"]
  {
    var filter := [k, '/', '#'];
    SplitAt(filter, 1);
    assert filter[2..] == "#" && filter[..1] == [k];
    SplitAt("#", 1);
    SplitAt([k], 1);
    SplitAt("a", 1);
  }

  /** The client holds a shared filter whose levels behind the group prefix match the topic. */
  ghost predicate HoldsShared(h: Held, topic: string, filter: string, c: Client, g: string, p: Path) {
    (c, g, p) in h.shared && h.shared[(c, g, p)].filter == filter && p != []
    && LevelsMatch(p, Split(topic)) && !ParentLevel(p, Split(topic), true)
  }

  ghost predicate MatchesShared(h: Held, topic: string, filter: string, c: Client) {
    topic != "" && exists g, p :: HoldsShared(h, topic, filter, c, g, p)
  }

  lemma OffersHeld(e: Entry, h: Held, p: Path, filter: string, c: Client)
    requires SharedAt(e, h, p)
    ensures Offers(e, filter, c) <==> exists g :: (c, g, p) in h.shared && h.shared[(c, g, p)].filter == filter
  {
    if Offers(e, filter, c) {
      var g :| g in e.shared && c in e.shared[g] && e.shared[g][c].filter == filter;
      assert c in Members(e.shared, g);
    }
    if g :| (c, g, p) in h.shared && h.shared[(c, g, p)].filter == filter {
      assert c in Members(e.shared, g);
    }
  }

  /** Shared filters: the filter behind the group prefix is matched without the `$` rule. */
  lemma SharedWalk(ops: seq<Op>, topic: string, filter: string, c: Client)
    requires WildcardFree(Split(topic))
    ensures FindsShared(Run(START, ops), topic, filter, c) <==> MatchesShared(RecordAll(NONE, ops), topic, filter, c)
  {
    StartAgrees();
    RunAgrees(START, NONE, ops);
    SharedQuery(Run(START, ops), RecordAll(NONE, ops), topic, filter, c);
  }

  lemma SharedQuery(m: Index, h: Held, topic: string, filter: string, c: Client)
    requires Closed(m) && SharedAgrees(m, h) && WildcardFree(Split(topic))
    ensures FindsShared(m, topic, filter, c) <==> MatchesShared(h, topic, filter, c)
  {
    var t := Split(topic);
    if FindsShared(m, topic, filter, c) {
      var p :| Hit(m, topic, p, true) && Offers(At(m, p), filter, c);
      GathersFromRoot(m, t, p, true);
      OffersHeld(At(m, p), h, p, filter, c);
      var g :| (c, g, p) in h.shared && h.shared[(c, g, p)].filter == filter;
      assert HoldsShared(h, topic, filter, c, g, p);
    }
    if g, p :| topic != "" && HoldsShared(h, topic, filter, c, g, p) {
      OffersHeld(At(m, p), h, p, filter, c);
      assert Offers(At(m, p), filter, c) && p in m;
      GathersFromRoot(m, t, p, true);
      assert Hit(m, topic, p, true);
    }
  }

  ghost predicate HoldsInline(h: Held, topic: string, id: int, sub: Subscription, p: Path) {
    (id, p) in h.inline && h.inline[(id, p)] == sub && p != []
    && LevelsMatch(p, Split(topic)) && !ParentLevel(p, Split(topic), false)
  }

  ghost predicate MatchesInline(h: Held, topic: string, id: int, sub: Subscription) {
    topic != "" && exists p :: HoldsInline(h, topic, id, sub, p)
  }

  /** Inline subscriptions: a final `#` is never found at its parent level, whatever precedes it. */
  lemma InlineWalk(ops: seq<Op>, topic: string, id: int, sub: Subscription)
    requires WildcardFree(Split(topic))
    ensures FindsInline(Run(START, ops), topic, id, sub) <==> MatchesInline(RecordAll(NONE, ops), topic, id, sub)
  {
    StartAgrees();
    RunAgrees(START, NONE, ops);
    InlineQuery(Run(START, ops), RecordAll(NONE, ops), topic, id, sub);
  }

  lemma InlineQuery(m: Index, h: Held, topic: string, id: int, sub: Subscription)
    requires Closed(m) && InlineAgrees(m, h) && WildcardFree(Split(topic))
    ensures FindsInline(m, topic, id, sub) <==> MatchesInline(h, topic, id, sub)
  {
    var t := Split(topic);
    if FindsInline(m, topic, id, sub) {
      var p :| Hit(m, topic, p, false) && id in At(m, p).inline && At(m, p).inline[id] == sub;
      GathersFromRoot(m, t, p, false);
      assert InlineAt(At(m, p), h, p);
      assert HoldsInline(h, topic, id, sub, p);
    }
    if p :| topic != "" && HoldsInline(h, topic, id, sub, p) {
      assert InlineAt(At(m, p), h, p);
      assert id in At(m, p).inline && p in m;
      GathersFromRoot(m, t, p, false);
      assert Hit(m, topic, p, false);
    }
  }

  /** For an inline subscription the parent level is missed even behind a name: `a/#` is not found at `a`. */
  lemma InlineHashMissed(id: int, sub: Subscription)
    requires sub.filter == "a/#"
    ensures FlatMatch("a/#", "a") && !PlusHashParent("a/#", "a")
    ensures !FindsInline(Run(START, [InlineSubscribe(id, sub)]), "a", id, sub)
  {
    var ops := [InlineSubscribe(id, sub)];
    SplitHash('a');
    assert RecordAll(NONE, ops) == RecordAll(Record(NONE, ops[0]), ops[1..]);
    InlineWalk(ops, "a", id, sub);
  }

  lemma RecordTwo(a: Op, b: Op)
    ensures RecordAll(NONE, [a, b]) == Record(Record(NONE, a), b)
  {
    var h1, both, last := Record(NONE, a), [a, b], [b];
    assert both[1..] == last && last[1..] == [];
    assert RecordAll(NONE, both) == RecordAll(h1, last);
    assert RecordAll(h1, last) == RecordAll(Record(h1, b), []);
  }

  /** The `$` rule really differs: for a topic starting with `$`, a shared `#` is found and an ordinary one is not. */
  lemma SharedIgnoresDollarRule(c: Client, shared: Subscription, plain: Subscription, topic: string)
    requires IsShared(shared.filter) && AddressOf(shared.filter) == ["#"] && Split(plain.filter) == ["#"]
    requires topic != "" && topic[0] == '$' && WildcardFree(Split(topic))
    ensures var m := Run(START, [Subscribe(c, shared), Subscribe(c, plain)]);
            FindsShared(m, topic, shared.filter, c) && !Finds(m, topic, c)
  {
    var ops := [Subscribe(c, shared), Subscribe(c, plain)];
    RecordTwo(ops[0], ops[1]);
    SharedWalk(ops, topic, shared.filter, c);
    WalkAgreesWithFlatMatch(ops, topic, c);
    TwoFilters(c, shared, plain, topic);
  }

  lemma TwoFilters(c: Client, shared: Subscription, plain: Subscription, topic: string)
    requires IsShared(shared.filter) && AddressOf(shared.filter) == ["#"] && Split(plain.filter) == ["#"]
    requires topic != "" && topic[0] == '$' && WildcardFree(Split(topic))
    ensures var h := Record(Record(NONE, Subscribe(c, shared)), Subscribe(c, plain));
            MatchesShared(h, topic, shared.filter, c) && !MatchesOrdinary(h, topic, c)
  {
    var h := Record(Record(NONE, Subscribe(c, shared)), Subscribe(c, plain));
    assert HoldsShared(h, topic, shared.filter, c, GroupOf(shared.filter), ["#"]);
    FirstLevel(topic);
    forall f | (c, Split(f)) in h.ordinary ensures !FlatMatch(f, topic) {
      assert Split(f) == ["#"];
    }
  }

  // ---------------------------------------------------------------- the group prefix, as offline code splits it

  datatype Parsed = NotShared | Shared(group: string, underlying: string)

  /** SharedFilter: cut at the first two '/'. */
  function SharedFilter(filter: string): Parsed {
    var k := Slash(filter);
    if k == |filter| then NotShared
    else
      var rest := filter[k + 1..];
      var j := Slash(rest);
      if j == |rest| || !FoldsToShare(filter[..k]) || j == 0 || j + 1 == |rest| then NotShared
      else Shared(rest[..j], rest[j + 1..])
  }

  lemma EmptySplit(s: string)
    ensures Split(s) == [""] <==> s == ""
  {
    JoinSplit(s);
    if s == "" { SplitAt(s, 0); }
  }

  lemma PartsOf(filter: string, prefix: string, group: string, under: string)
    requires Split(filter) == [prefix, group] + Split(under)
    ensures IsShared(filter) <==> FoldsToShare(prefix)
    ensures |Split(filter)| >= 3 && GroupOf(filter) == group && PathFrom(filter, 2) == Split(under)
  {
    assert Split(filter)[2..] == Split(under);
  }

  lemma TwoCuts(filter: string, k: nat, rest: string, j: nat)
    requires k == Slash(filter) < |filter| && rest == filter[k + 1..] && j == Slash(rest) < |rest|
    ensures Split(filter) == [filter[..k], rest[..j]] + Split(rest[j + 1..])
  {
    SplitAt(filter, k);
    SplitAt(rest, j);
    Regroup(filter[..k], rest[..j], Split(rest[j + 1..]));
  }

  lemma Regroup<T>(a: T, b: T, c: seq<T>)
    ensures [a] + ([b] + c) == [a, b] + c
  {
  }

  /** Offline code and the trie see the same group and the same underlying filter; offline code also
      refuses an empty group or an empty underlying filter. */
  lemma SharedFilterAgrees(filter: string)
    ensures SharedFilter(filter).Shared? ==>
            && IsShared(filter) && GroupOf(filter) == SharedFilter(filter).group
            && AddressOf(filter) == Split(SharedFilter(filter).underlying)
    ensures SharedFilter(filter).Shared? <==>
            IsShared(filter) && |Split(filter)| >= 3 && GroupOf(filter) != "" && AddressOf(filter) != [""]
  {
    var k := Slash(filter);
    SplitStep(filter);
    if k < |filter| {
      var rest := filter[k + 1..];
      SplitStep(rest);
      if Slash(rest) < |rest| {
        var j := Slash(rest);
        TwoCuts(filter, k, rest, j);
        PartsOf(filter, filter[..k], rest[..j], rest[j + 1..]);
        EmptySplit(rest[j + 1..]);
      }
    }
  }

  /** Cutting at the first '/'. */
  lemma {:induction false} SplitAt(s: string, k: nat)
    requires k <= |s| && (forall i :: 0 <= i < k ==> s[i] != '/') && (k < |s| ==> s[k] == '/')
    ensures Split(s) == if k == |s| then [s] else [s[..k]] + Split(s[k + 1..])
  {
    assert Slash(s) == k;
  }

  /** The `$` rule in plain words: a topic starting with `$` is matched only by a filter whose first level names its
      own, and any other topic by every filter whose levels match. */
  lemma DollarRule(filter: string, topic: string)
    requires topic != "" && filter != topic
    ensures FlatMatch(filter, topic) <==>
            LevelsMatch(Split(filter), Split(topic)) && (topic[0] == '$' ==> Split(filter)[0] == Split(topic)[0])
  {
    FirstLevel(topic);
    if LevelsMatch(Split(filter), Split(topic)) && topic[0] == '$' {
      assert Split(topic)[0] != "" && Split(topic)[0][0] == '$';
    }
  }

  /** The share prefix is recognised whatever the case of its letters; U+017F folds to `s`. */
  lemma ShareFolds(s: string)
    ensures FoldsToShare(s) <==>
            && |s| == 6 && s[0] == '$' && s[1] in "sS\U{017F}" && s[2] in "hH" && s[3] in "aA" && s[4] in "rR" && s[5] in "eE"
  {
    if |s| == 6 {
      forall i | 0 <= i < 6 ensures 'A' <= s[i] <= 'Z' ==> 'a' <= Fold(s[i]) <= 'z' { }
    }
  }
}
