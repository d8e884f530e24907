/**
 What a topic query returns: the full answer with merged subscriptions, and the answer with
 node identifiers only that the cluster routes by, both gathered by loops over the entries
 the walk visits.
 */
module TopicQuery {
  import opened Subscriptions
  import opened TopicLevels
  import opened TopicIndex
  import opened TopicMatching
  import opened TopicTrie

  type SharedFound = map<Filter, map<Client, Subscription>>

  // ---------------------------------------------------------------- ordinary subscriptions

  /** The client's subscription at one address counts for the topic. */
  predicate Counts(topic: string, subs: map<Client, Subscription>, c: Client)
    requires topic != ""
  {
    c in subs && !SkipsDollar(subs[c].filter, topic)
  }

  /** gatherSubscriptions on one entry. */
  function GatherOne(topic: string, subs: map<Client, Subscription>, acc: map<Client, Subscription>): map<Client, Subscription>
    requires topic != ""
  {
    map c | c in acc.Keys + subs.Keys && (c in acc || Counts(topic, subs, c)) ::
      if Counts(topic, subs, c) then Merge(if c in acc then acc[c] else subs[c], subs[c]) else acc[c]
  }

  function GatherAll(topic: string, hits: seq<Entry>): map<Client, Subscription>
    requires topic != ""
  {
    if hits == [] then map[] else GatherOne(topic, hits[|hits| - 1].subs, GatherAll(topic, hits[..|hits| - 1]))
  }

  method GatherSubscriptions(topic: string, subs: map<Client, Subscription>, acc: map<Client, Subscription>)
    returns (out: map<Client, Subscription>)
    requires topic != ""
    ensures out == GatherOne(topic, subs, acc)
  {
    out := acc;
    var rest := subs.Keys;
    while rest != {}
      invariant rest <= subs.Keys
      invariant forall c :: c in out <==> c in acc || (c !in rest && Counts(topic, subs, c))
      invariant forall c :: c in out ==>
        out[c] == if c !in rest && Counts(topic, subs, c) then Merge(if c in acc then acc[c] else subs[c], subs[c]) else acc[c]
      decreases rest
    {
      var c :| c in rest;
      rest := rest - {c};
      if !SkipsDollar(subs[c].filter, topic) {
        var cls := if c in out then out[c] else subs[c];
        out := out[c := Merge(cls, subs[c])];
      }
    }
  }

  /** A visited entry counts for the client. */
  ghost predicate CountsAt(topic: string, hits: seq<Entry>, i: int, c: Client)
    requires topic != ""
  {
    0 <= i < |hits| && Counts(topic, hits[i].subs, c)
  }

  /** What the client holds at the visited entries that count. */
  ghost function CountedSubs(topic: string, hits: seq<Entry>, c: Client): set<Subscription>
    requires topic != ""
  {
    set i | 0 <= i < |hits| && Counts(topic, hits[i].subs, c) :: hits[i].subs[c]
  }

  lemma CountedMore(topic: string, hits: seq<Entry>, c: Client)
    requires topic != "" && hits != []
    ensures var n, rest := |hits| - 1, hits[..|hits| - 1];
            CountedSubs(topic, hits, c) ==
            CountedSubs(topic, rest, c) + if Counts(topic, hits[n].subs, c) then {hits[n].subs[c]} else {}
  {
    var n, rest := |hits| - 1, hits[..|hits| - 1];
    assert forall i :: 0 <= i < n ==> rest[i] == hits[i];
    forall s | s in CountedSubs(topic, hits, c)
      ensures s in CountedSubs(topic, rest, c) || (Counts(topic, hits[n].subs, c) && s == hits[n].subs[c])
    {
      var i :| 0 <= i < |hits| && Counts(topic, hits[i].subs, c) && s == hits[i].subs[c];
      if i < n { assert rest[i].subs[c] in CountedSubs(topic, rest, c); }
    }
    forall s | s in CountedSubs(topic, rest, c) ensures s in CountedSubs(topic, hits, c) {
      var i :| 0 <= i < n && Counts(topic, rest[i].subs, c) && s == rest[i].subs[c];
      assert hits[i].subs[c] in CountedSubs(topic, hits, c);
    }
  }

  lemma CountedIff(topic: string, hits: seq<Entry>, c: Client)
    requires topic != ""
    ensures CountedSubs(topic, hits, c) != {} <==> exists i :: CountsAt(topic, hits, i, c)
  {
    if i :| CountsAt(topic, hits, i, c) {
      assert hits[i].subs[c] in CountedSubs(topic, hits, c);
    }
    if s :| s in CountedSubs(topic, hits, c) {
      var i :| 0 <= i < |hits| && Counts(topic, hits[i].subs, c) && s == hits[i].subs[c];
      assert CountsAt(topic, hits, i, c);
    }
  }

  /** One entry's effect on one client. */
  lemma GatherStep(topic: string, subs: map<Client, Subscription>, acc: map<Client, Subscription>, from: set<Subscription>, c: Client)
    requires topic != "" && (c in acc <==> from != {}) && (c in acc ==> Combines(acc[c], from))
    ensures var out, all := GatherOne(topic, subs, acc), from + if Counts(topic, subs, c) then {subs[c]} else {};
            (c in out <==> all != {}) && (c in out ==> Combines(out[c], all))
  {
    if Counts(topic, subs, c) {
      assert subs[c] in from + {subs[c]};
      if c in acc {
        CombinesMore(acc[c], from, subs[c]);
      } else {
        CombinesOne(subs[c]);
        assert from + {subs[c]} == {subs[c]};
      }
    } else {
      assert from + {} == from;
    }
  }

  /** The result has the client exactly when some entry counts, with the merge of all that do. */
  lemma {:induction false} GatherAllMeaning(topic: string, hits: seq<Entry>, c: Client)
    requires topic != ""
    ensures c in GatherAll(topic, hits) <==> CountedSubs(topic, hits, c) != {}
    ensures c in GatherAll(topic, hits) ==> Combines(GatherAll(topic, hits)[c], CountedSubs(topic, hits, c))
  {
    if hits != [] {
      var n, rest := |hits| - 1, hits[..|hits| - 1];
      GatherAllMeaning(topic, rest, c);
      CountedMore(topic, hits, c);
      GatherStep(topic, hits[n].subs, GatherAll(topic, rest), CountedSubs(topic, rest, c), c);
    }
  }

  // ---------------------------------------------------------------- shared subscriptions

  predicate In(acc: SharedFound, f: Filter, c: Client) {
    f in acc && c in acc[f]
  }

  /** Members are listed under their own filter, and no filter is listed without members. */
  ghost predicate Keyed(acc: SharedFound) {
    && (forall f, c :: In(acc, f, c) ==> acc[f][c].filter == f)
    && (forall f :: f in acc ==> acc[f] != map[])
  }

  predicate HasMember(members: map<Client, Subscription>, f: Filter, c: Client) {
    c in members && members[c].filter == f
  }

  /** The subscription stored is the one that was there, or the member's. */
  ghost predicate OldOrMember(out: SharedFound, acc: SharedFound, members: map<Client, Subscription>, f: Filter, c: Client)
    requires In(out, f, c)
  {
    (In(acc, f, c) && out[f][c] == acc[f][c]) || (HasMember(members, f, c) && out[f][c] == members[c])
  }

  /** The entry offers this very subscription. */
  ghost predicate Offered(e: Entry, f: Filter, c: Client, sub: Subscription) {
    sub.filter == f && exists g :: g in e.shared && c in e.shared[g] && e.shared[g][c] == sub
  }

  /** The subscription stored is the one that was there, or the entry's. */
  ghost predicate OldOrOffered(out: SharedFound, acc: SharedFound, e: Entry, f: Filter, c: Client)
    requires In(out, f, c)
  {
    (In(acc, f, c) && out[f][c] == acc[f][c]) || Offered(e, f, c, out[f][c])
  }

  /** One member stored under its filter. */
  method AddMember(acc: SharedFound, c: Client, sub: Subscription) returns (out: SharedFound)
    requires Keyed(acc)
    ensures Keyed(out) && In(out, sub.filter, c) && out[sub.filter][c] == sub
    ensures forall f, d :: (f, d) != (sub.filter, c) ==> (In(out, f, d) <==> In(acc, f, d)) && (In(acc, f, d) ==> out[f][d] == acc[f][d])
  {
    var row := if sub.filter in acc then acc[sub.filter] else map[];
    assert c in row[c := sub];
    out := acc[sub.filter := row[c := sub]];
  }

  method GatherGroup(members: map<Client, Subscription>, acc: SharedFound) returns (out: SharedFound)
    requires Keyed(acc)
    ensures Keyed(out) && (forall f, c :: In(out, f, c) ==> OldOrMember(out, acc, members, f, c))
    ensures forall f, c :: In(out, f, c) <==> In(acc, f, c) || HasMember(members, f, c)
  {
    out := acc;
    var rest := members.Keys;
    while rest != {}
      invariant rest <= members.Keys && Keyed(out)
      invariant forall f, c :: In(out, f, c) ==> OldOrMember(out, acc, members, f, c)
      invariant forall f, c :: In(out, f, c) <==> In(acc, f, c) || (c !in rest && HasMember(members, f, c))
      decreases rest
    {
      var c :| c in rest;
      rest := rest - {c};
      out := AddMember(out, c, members[c]);
    }
  }

  method GatherShared(e: Entry, acc: SharedFound) returns (out: SharedFound)
    requires Keyed(acc)
    ensures Keyed(out) && (forall f, c :: In(out, f, c) ==> OldOrOffered(out, acc, e, f, c))
    ensures forall f, c :: In(out, f, c) <==> In(acc, f, c) || Offers(e, f, c)
  {
    out := acc;
    var rest := e.shared.Keys;
    while rest != {}
      invariant rest <= e.shared.Keys && Keyed(out)
      invariant forall f, c :: In(out, f, c) ==> OldOrOffered(out, acc, e, f, c)
      invariant forall f, c :: In(out, f, c) <==> In(acc, f, c) || OffersBut(e, rest, f, c)
      decreases rest
    {
      var g :| g in rest;
      var before, out0 := rest, out;
      rest := rest - {g};
      out := GatherGroup(e.shared[g], out);
      forall f, c | In(out, f, c) ensures OldOrOffered(out, acc, e, f, c) {
        assert OldOrMember(out, out0, e.shared[g], f, c);
      }
      forall f, c ensures In(out, f, c) <==> In(acc, f, c) || OffersBut(e, rest, f, c) {
        OffersButOne(e, before, g, f, c);
      }
    }
  }

  ghost predicate OffersBut(e: Entry, rest: set<string>, f: Filter, c: Client) {
    exists g :: g in e.shared && g !in rest && HasMember(e.shared[g], f, c)
  }

  lemma OffersButOne(e: Entry, rest: set<string>, g: string, f: Filter, c: Client)
    requires g in rest && rest <= e.shared.Keys
    ensures OffersBut(e, rest - {g}, f, c) <==> OffersBut(e, rest, f, c) || HasMember(e.shared[g], f, c)
  {
    if OffersBut(e, rest, f, c) {
      var h :| h in e.shared && h !in rest && HasMember(e.shared[h], f, c);
      assert h !in rest - {g};
    }
  }

  // ---------------------------------------------------------------- over all visited entries

  ghost predicate OffersAt(hits: seq<Entry>, i: int, f: Filter, c: Client) {
    0 <= i < |hits| && Offers(hits[i], f, c)
  }

  ghost predicate OfferedAt(hits: seq<Entry>, i: int, f: Filter, c: Client, sub: Subscription) {
    0 <= i < |hits| && Offered(hits[i], f, c, sub)
  }

  method GatherEntries(topic: string, hits: seq<Entry>) returns (subs: map<Client, Subscription>, shared: SharedFound)
    requires topic != ""
    ensures subs == GatherAll(topic, hits) && Keyed(shared)
    ensures forall f, c :: In(shared, f, c) ==> exists i :: OfferedAt(hits, i, f, c, shared[f][c])
    ensures forall f, c :: In(shared, f, c) <==> exists i :: OffersAt(hits, i, f, c)
  {
    subs, shared := map[], map[];
    for n := 0 to |hits|
      invariant subs == GatherAll(topic, hits[..n]) && Keyed(shared)
      invariant forall f, c :: In(shared, f, c) ==> exists i :: OfferedAt(hits, i, f, c, shared[f][c])
      invariant forall f, c :: In(shared, f, c) <==> exists i :: i < n && OffersAt(hits, i, f, c)
    {
      assert hits[..n + 1][..n] == hits[..n];
      subs := GatherSubscriptions(topic, hits[n].subs, subs);
      var before := shared;
      shared := GatherShared(hits[n], shared);
      forall f, c | In(shared, f, c) ensures exists i :: OfferedAt(hits, i, f, c, shared[f][c]) {
        assert OldOrOffered(shared, before, hits[n], f, c);
        if Offered(hits[n], f, c, shared[f][c]) { assert OfferedAt(hits, n, f, c, shared[f][c]); }
      }
      assert forall f, c :: Offers(hits[n], f, c) <==> OffersAt(hits, n, f, c);
    }
    assert hits[..|hits|] == hits;
  }

  ghost predicate InlineIn(hits: seq<Entry>, i: int, id: int, sub: Subscription) {
    0 <= i < |hits| && id in hits[i].inline && hits[i].inline[id] == sub
  }

  method GatherInline(hits: seq<Entry>) returns (inline: map<int, Subscription>)
    ensures forall id :: id in inline ==> exists i :: InlineIn(hits, i, id, inline[id])
    ensures forall id, i, sub :: InlineIn(hits, i, id, sub) ==> id in inline
  {
    inline := map[];
    for n := 0 to |hits|
      invariant forall id :: id in inline ==> exists i :: InlineIn(hits, i, id, inline[id])
      invariant forall id, i, sub :: i < n && InlineIn(hits, i, id, sub) ==> id in inline
    {
      var before := inline;
      inline := inline + hits[n].inline;
      forall id | id in inline ensures exists i :: InlineIn(hits, i, id, inline[id]) {
        if id in hits[n].inline {
          assert InlineIn(hits, n, id, inline[id]);
        } else {
          assert inline[id] == before[id];
        }
      }
    }
  }

  // ---------------------------------------------------------------- the full query

  /** The addresses visited are the query's hits. */
  ghost predicate Visits(m: Index, topic: string, spots: seq<Path>, hits: seq<Entry>, parentHash: bool) {
    Listing(m, spots, hits) && forall p :: p in spots <==> Hit(m, topic, p, parentHash)
  }

  lemma VisitedFinds(m: Index, topic: string, spots: seq<Path>, hits: seq<Entry>, c: Client)
    requires topic != "" && Visits(m, topic, spots, hits, true)
    ensures (exists i :: CountsAt(topic, hits, i, c)) <==> Finds(m, topic, c)
  {
    if i :| CountsAt(topic, hits, i, c) {
      assert spots[i] in spots && Hit(m, topic, spots[i], true);
    }
    if Finds(m, topic, c) {
      var p :| Hit(m, topic, p, true) && c in At(m, p).subs && !SkipsDollar(At(m, p).subs[c].filter, topic);
      var i :| 0 <= i < |spots| && spots[i] == p;
      assert CountsAt(topic, hits, i, c);
    }
  }

  lemma VisitedShared(m: Index, topic: string, spots: seq<Path>, hits: seq<Entry>, f: Filter, c: Client)
    requires topic != "" && Visits(m, topic, spots, hits, true)
    ensures (exists i :: OffersAt(hits, i, f, c)) <==> FindsShared(m, topic, f, c)
  {
    if i :| OffersAt(hits, i, f, c) {
      assert spots[i] in spots && Hit(m, topic, spots[i], true);
    }
    if FindsShared(m, topic, f, c) {
      var p :| Hit(m, topic, p, true) && Offers(At(m, p), f, c);
      var i :| 0 <= i < |spots| && spots[i] == p;
      assert OffersAt(hits, i, f, c);
    }
  }

  /** The query finds this very subscription. */
  ghost predicate FindsSharedSub(m: Index, topic: string, f: Filter, c: Client, sub: Subscription) {
    topic != "" && exists p :: Hit(m, topic, p, true) && Offered(At(m, p), f, c, sub)
  }

  lemma VisitedSharedSub(m: Index, topic: string, spots: seq<Path>, hits: seq<Entry>, i: int, f: Filter, c: Client, sub: Subscription)
    requires topic != "" && Visits(m, topic, spots, hits, true) && OfferedAt(hits, i, f, c, sub)
    ensures FindsSharedSub(m, topic, f, c, sub)
  {
    assert spots[i] in spots && Hit(m, topic, spots[i], true);
  }

  lemma VisitedInline(m: Index, topic: string, spots: seq<Path>, hits: seq<Entry>, id: int, sub: Subscription)
    requires topic != "" && Visits(m, topic, spots, hits, false)
    ensures (exists i :: InlineIn(hits, i, id, sub)) <==> FindsInline(m, topic, id, sub)
  {
    if i :| InlineIn(hits, i, id, sub) {
      assert spots[i] in spots && Hit(m, topic, spots[i], false);
    }
    if FindsInline(m, topic, id, sub) {
      var p :| Hit(m, topic, p, false) && id in At(m, p).inline && At(m, p).inline[id] == sub;
      var i :| 0 <= i < |spots| && spots[i] == p;
      assert InlineIn(hits, i, id, sub);
    }
  }

  /** The scan from the root. */
  method Walk(trie: Trie, topic: string)
    returns (hits: seq<Entry>, inlineHits: seq<Entry>, ghost spots: seq<Path>, ghost inlineSpots: seq<Path>)
    requires trie.Valid() && topic != ""
    ensures Visits(trie.Model(), topic, spots, hits, true)
    ensures Visits(trie.Model(), topic, inlineSpots, inlineHits, false)
  {
    var t := Levels(topic, 0);
    assert t == Split(topic) && t[0..] == t;
    hits, inlineHits, spots, inlineSpots := trie.Scan(t, 0, trie.root);
  }

  /** What the client holds at the addresses the query counts. */
  ghost function FoundSubs(m: Index, topic: string, c: Client): set<Subscription>
    requires topic != ""
  {
    set p | p in m && Hit(m, topic, p, true) && Counts(topic, m[p].subs, c) :: m[p].subs[c]
  }

  lemma VisitedSubs(m: Index, topic: string, spots: seq<Path>, hits: seq<Entry>, c: Client)
    requires topic != "" && Visits(m, topic, spots, hits, true)
    ensures FoundSubs(m, topic, c) == CountedSubs(topic, hits, c)
  {
    forall s | s in FoundSubs(m, topic, c) ensures s in CountedSubs(topic, hits, c) {
      var p :| p in m && Hit(m, topic, p, true) && Counts(topic, m[p].subs, c) && s == m[p].subs[c];
      var i :| 0 <= i < |spots| && spots[i] == p;
      assert hits[i].subs[c] in CountedSubs(topic, hits, c);
    }
    forall s | s in CountedSubs(topic, hits, c) ensures s in FoundSubs(m, topic, c) {
      var i :| 0 <= i < |hits| && Counts(topic, hits[i].subs, c) && s == hits[i].subs[c];
      assert spots[i] in spots && Hit(m, topic, spots[i], true);
    }
  }

  method Subscribers(trie: Trie, topic: string)
    returns (subs: map<Client, Subscription>, shared: SharedFound, inline: map<int, Subscription>)
    requires trie.Valid()
    ensures OrdinaryAnswer(trie.Model(), topic, subs) && SharedAnswer(trie.Model(), topic, shared)
    ensures InlineAnswer(trie.Model(), topic, inline)
  {
    subs, shared, inline := map[], map[], map[];
    if topic == "" {
      NothingFound(trie.Model());
    } else {
      var hits, inlineHits;
      ghost var spots, inlineSpots;
      hits, inlineHits, spots, inlineSpots := Walk(trie, topic);
      subs, shared, inline := Collect(topic, hits, inlineHits, trie.Model(), spots, inlineSpots);
    }
  }

  /** Exactly the clients the query finds, each with the merge of everything found for it. */
  ghost predicate OrdinaryAnswer(m: Index, topic: string, subs: map<Client, Subscription>) {
    && (forall c :: c in subs <==> Finds(m, topic, c))
    && (forall c :: c in subs ==> AnswersFor(m, topic, c, subs[c]))
  }

  /** The subscription combines everything found for the client. */
  ghost predicate AnswersFor(m: Index, topic: string, c: Client, sub: Subscription) {
    topic != "" && Combines(sub, FoundSubs(m, topic, c))
  }

  ghost predicate SharedAnswer(m: Index, topic: string, shared: SharedFound) {
    && Keyed(shared) && (forall f, c :: In(shared, f, c) <==> FindsShared(m, topic, f, c))
    && (forall f, c :: In(shared, f, c) ==> FindsSharedSub(m, topic, f, c, shared[f][c]))
  }

  /** Every inline identifier found, with one of the subscriptions found for it. */
  ghost predicate InlineAnswer(m: Index, topic: string, inline: map<int, Subscription>) {
    && (forall id :: id in inline ==> FindsInline(m, topic, id, inline[id]))
    && (forall id, sub :: FindsInline(m, topic, id, sub) ==> id in inline)
  }

  /** The empty topic finds nothing. */
  lemma NothingFound(m: Index)
    ensures OrdinaryAnswer(m, "", map[]) && SharedAnswer(m, "", map[]) && InlineAnswer(m, "", map[])
  {
  }

  method Collect(topic: string, hits: seq<Entry>, inlineHits: seq<Entry>,
                 ghost m: Index, ghost spots: seq<Path>, ghost inlineSpots: seq<Path>)
    returns (subs: map<Client, Subscription>, shared: SharedFound, inline: map<int, Subscription>)
    requires topic != "" && Visits(m, topic, spots, hits, true) && Visits(m, topic, inlineSpots, inlineHits, false)
    ensures OrdinaryAnswer(m, topic, subs) && SharedAnswer(m, topic, shared) && InlineAnswer(m, topic, inline)
  {
    subs, shared := GatherEntries(topic, hits);
    inline := GatherInline(inlineHits);
    assert OrdinaryAnswer(m, topic, subs) by {
      OrdinaryGathered(m, topic, spots, hits);
    }
    forall f, c ensures In(shared, f, c) <==> FindsShared(m, topic, f, c) {
      VisitedShared(m, topic, spots, hits, f, c);
    }
    forall f, c | In(shared, f, c) ensures FindsSharedSub(m, topic, f, c, shared[f][c]) {
      var i :| OfferedAt(hits, i, f, c, shared[f][c]);
      VisitedSharedSub(m, topic, spots, hits, i, f, c, shared[f][c]);
    }
    forall id | id in inline ensures FindsInline(m, topic, id, inline[id]) {
      VisitedInline(m, topic, inlineSpots, inlineHits, id, inline[id]);
    }
    forall id, sub | FindsInline(m, topic, id, sub) ensures id in inline {
      VisitedInline(m, topic, inlineSpots, inlineHits, id, sub);
      var i :| InlineIn(inlineHits, i, id, sub);
    }
  }

  lemma OrdinaryGathered(m: Index, topic: string, spots: seq<Path>, hits: seq<Entry>)
    requires topic != "" && Visits(m, topic, spots, hits, true)
    ensures OrdinaryAnswer(m, topic, GatherAll(topic, hits))
  {
    var subs := GatherAll(topic, hits);
    forall c ensures c in subs <==> Finds(m, topic, c) {
      GatherAllMeaning(topic, hits, c);
      CountedIff(topic, hits, c);
      VisitedFinds(m, topic, spots, hits, c);
    }
    forall c | c in subs ensures AnswersFor(m, topic, c, subs[c]) {
      GatherAllMeaning(topic, hits, c);
      VisitedSubs(m, topic, spots, hits, c);
    }
  }

  // ---------------------------------------------------------------- the routing query

  /** routingSharedChoice: the local member, or the first other member met. */
  datatype Choice = Local | Remote(client: Client)

  /** The choices after meeting these (filter, member) pairs. */
  ghost predicate ChoicesFor(choices: map<Filter, Choice>, met: set<(Filter, Client)>, local: Client) {
    && (forall f, c :: (f, c) in met ==> f in choices)
    && (forall f :: f in choices ==> match choices[f]
          case Local => local != "" && (f, local) in met
          case Remote(c) => (f, c) in met && !(local != "" && (f, local) in met))
  }

  method RouteGroup(members: map<Client, Subscription>, local: Client, choices: map<Filter, Choice>, ghost met: set<(Filter, Client)>)
    returns (out: map<Filter, Choice>, ghost met': set<(Filter, Client)>)
    requires ChoicesFor(choices, met, local)
    ensures ChoicesFor(out, met', local)
    ensures forall f, c :: (f, c) in met' <==> (f, c) in met || HasMember(members, f, c)
  {
    out, met' := choices, met;
    var rest := members.Keys;
    while rest != {}
      invariant rest <= members.Keys && ChoicesFor(out, met', local)
      invariant forall f, c :: (f, c) in met' <==> (f, c) in met || (c !in rest && HasMember(members, f, c))
      decreases rest
    {
      var c :| c in rest;
      rest := rest - {c};
      var f := members[c].filter;
      if local != "" && c == local {
        out := out[f := Local];
      } else if f !in out {
        out := out[f := Remote(c)];
      }
      met' := met' + {(f, c)};
    }
  }

  method RouteShared(e: Entry, local: Client, choices: map<Filter, Choice>, ghost met: set<(Filter, Client)>)
    returns (out: map<Filter, Choice>, ghost met': set<(Filter, Client)>)
    requires ChoicesFor(choices, met, local)
    ensures ChoicesFor(out, met', local)
    ensures forall f, c :: (f, c) in met' <==> (f, c) in met || Offers(e, f, c)
  {
    out, met' := choices, met;
    var rest := e.shared.Keys;
    while rest != {}
      invariant rest <= e.shared.Keys && ChoicesFor(out, met', local)
      invariant forall f, c :: (f, c) in met' <==> (f, c) in met || OffersBut(e, rest, f, c)
      decreases rest
    {
      var g :| g in rest;
      var before := rest;
      rest := rest - {g};
      out, met' := RouteGroup(e.shared[g], local, out, met');
      forall f, c ensures (f, c) in met' <==> (f, c) in met || OffersBut(e, rest, f, c) {
        OffersButOne(e, before, g, f, c);
      }
    }
  }

  /** gatherSubscriptions in routing mode: identifiers only. */
  function RouteNodes(topic: string, subs: map<Client, Subscription>): set<Client>
    requires topic != ""
  {
    set c | c in subs && !SkipsDollar(subs[c].filter, topic)
  }

  method RouteEntries(topic: string, hits: seq<Entry>, local: Client)
    returns (nodes: set<Client>, choices: map<Filter, Choice>, ghost met: set<(Filter, Client)>)
    requires topic != ""
    ensures forall c :: c in nodes <==> exists i :: CountsAt(topic, hits, i, c)
    ensures ChoicesFor(choices, met, local)
    ensures forall f, c :: (f, c) in met <==> exists i :: OffersAt(hits, i, f, c)
  {
    nodes, choices, met := {}, map[], {};
    for n := 0 to |hits|
      invariant forall c :: c in nodes <==> exists i :: i < n && CountsAt(topic, hits, i, c)
      invariant ChoicesFor(choices, met, local)
      invariant forall f, c :: (f, c) in met <==> exists i :: i < n && OffersAt(hits, i, f, c)
    {
      nodes := nodes + RouteNodes(topic, hits[n].subs);
      choices, met := RouteShared(hits[n], local, choices, met);
      assert forall c :: c in RouteNodes(topic, hits[n].subs) <==> CountsAt(topic, hits, n, c);
      assert forall f, c :: Offers(hits[n], f, c) <==> OffersAt(hits, n, f, c);
    }
  }

  /** One member node per found shared filter, the local one whenever it is a member. */
  ghost predicate ChosenFor(m: Index, topic: string, local: Client, shared: map<Filter, Client>) {
    && (forall f, c :: FindsShared(m, topic, f, c) ==> f in shared)
    && (forall f :: f in shared ==> FindsShared(m, topic, f, shared[f]))
    && (forall f :: f in shared && local != "" && FindsShared(m, topic, f, local) ==> shared[f] == local)
  }

  /** The targets: every node with an ordinary match, and every chosen node but the local one. */
  ghost predicate TargetsFor(m: Index, topic: string, local: Client, nodes: set<Client>, shared: map<Filter, Client>) {
    forall c :: c in nodes <==> Finds(m, topic, c) || ((local == "" || c != local) && exists f :: f in shared && shared[f] == c)
  }

  function ChosenClient(choice: Choice, local: Client): Client {
    if choice.Local? then local else choice.client
  }

  /** SubscriberRoutingPlan. */
  method SubscriberRoutingPlan(trie: Trie, topic: string, local: Client)
    returns (nodes: set<Client>, shared: map<Filter, Client>)
    requires trie.Valid()
    ensures ChosenFor(trie.Model(), topic, local, shared) && TargetsFor(trie.Model(), topic, local, nodes, shared)
  {
    nodes, shared := {}, map[];
    if topic != "" {
      var hits, inlineHits;
      ghost var spots, inlineSpots;
      hits, inlineHits, spots, inlineSpots := Walk(trie, topic);
      nodes, shared := PlanFrom(topic, hits, local, trie.Model(), spots);
    }
  }

  method AddRemote(ordinary: set<Client>, choices: map<Filter, Choice>) returns (nodes: set<Client>)
    ensures forall c :: c in nodes <==> c in ordinary || exists f :: f in choices && choices[f] == Remote(c)
  {
    nodes := ordinary;
    var rest := choices.Keys;
    while rest != {}
      invariant rest <= choices.Keys
      invariant forall c :: c in nodes <==> c in ordinary || exists f :: f in choices && f !in rest && choices[f] == Remote(c)
      decreases rest
    {
      var f :| f in rest;
      rest := rest - {f};
      if choices[f].Remote? {
        nodes := nodes + {choices[f].client};
      }
    }
  }

  method PlanFrom(topic: string, hits: seq<Entry>, local: Client, ghost m: Index, ghost spots: seq<Path>)
    returns (nodes: set<Client>, shared: map<Filter, Client>)
    requires topic != "" && Visits(m, topic, spots, hits, true)
    ensures ChosenFor(m, topic, local, shared) && TargetsFor(m, topic, local, nodes, shared)
  {
    var ordinary, choices;
    ghost var met;
    ordinary, choices, met := RouteEntries(topic, hits, local);
    forall f, c ensures (f, c) in met <==> FindsShared(m, topic, f, c) {
      VisitedShared(m, topic, spots, hits, f, c);
    }
    forall c ensures c in ordinary <==> Finds(m, topic, c) {
      VisitedFinds(m, topic, spots, hits, c);
    }
    shared := map f | f in choices :: ChosenClient(choices[f], local);
    nodes := AddRemote(ordinary, choices);
    assert ChosenFor(m, topic, local, shared);
    forall c ensures c in nodes <==> Finds(m, topic, c) || ((local == "" || c != local) && exists f :: f in shared && shared[f] == c) {
      ChosenRemote(choices, met, local, c);
    }
  }

  /** A node is some filter's remote choice exactly when it is chosen and not the local one. */
  lemma ChosenRemote(choices: map<Filter, Choice>, met: set<(Filter, Client)>, local: Client, c: Client)
    requires ChoicesFor(choices, met, local)
    ensures var shared := map f | f in choices :: ChosenClient(choices[f], local);
            (exists f :: f in choices && choices[f] == Remote(c)) <==>
            ((local == "" || c != local) && exists f :: f in shared && shared[f] == c)
  {
    var shared := map f | f in choices :: ChosenClient(choices[f], local);
    if f :| f in choices && choices[f] == Remote(c) {
      assert f in shared && shared[f] == c;
    }
    if f :| f in shared && shared[f] == c && (local == "" || c != local) {
      assert f in choices;
    }
  }
}
