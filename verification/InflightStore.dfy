/**
 One client's persisted inflight hash in Redis: numeric fields under schema 1,
 directional fields under schema 2, and the field-by-field migration between them.
 Field names are modelled by their parsed form; `in:7`, `out:7` and `7` are distinct.
 */
module InflightStore {
  import opened PacketIds

  const LEGACY: nat := 1
  const DIRECTIONAL: nat := 2

  datatype Direction = In | Out

  datatype PacketType = Publish | Puback | Pubrec | Pubrel | Pubcomp

  datatype Message = Message(kind: PacketType, id: nat, body: string)

  datatype Field = Numeric(id: nat) | Directional(dir: Direction, id: nat)

  type Hash = map<Field, Message>

  /** The direction of stored state: acknowledgements the server owes are inbound state. */
  function DirOf(kind: PacketType): Direction {
    if kind in {Puback, Pubrec, Pubcomp} then In else Out
  }

  /** inflightFieldKey. */
  function FieldKey(m: Message): Field {
    Directional(DirOf(m.kind), m.id)
  }

  /** The field a writer uses under a schema. */
  function WriteField(schema: nat, m: Message): Field {
    if schema == DIRECTIONAL then FieldKey(m) else Numeric(m.id)
  }

  /** inflightCompletionFieldKey / inflightDroppedFieldKey: what a delete removes besides the numeric field. */
  function DeleteField(m: Message, dropped: bool): Field {
    if dropped then Directional(if m.kind == Publish then Out else In, m.id)
    else Directional(if m.kind == Pubrel then In else Out, m.id)
  }

  function DeleteFields(schema: nat, m: Message, dropped: bool): set<Field> {
    if schema == DIRECTIONAL then {DeleteField(m, dropped), Numeric(m.id)} else {Numeric(m.id)}
  }

  /** Every row sits under a field naming its own id, and a directional field its own direction. */
  ghost predicate WellFormed(h: Hash) {
    forall f :: f in h ==>
                  && 1 <= f.id <= MAX_ID
                  && h[f].id == f.id
                  && (f.Directional? ==> f == FieldKey(h[f]))
  }

  ghost predicate OnlyNumeric(h: Hash) {
    forall f :: f in h ==> f.Numeric?
  }

  // ---------------------------------------------------------------- free-id search over the hash

  /** A field blocks its id: the numeric one always, the outbound one once fields are directional. */
  predicate Reserves(f: Field, schema: nat) {
    f.Numeric? || (schema != LEGACY && f.dir == Out)
  }

  function Occupied(h: Hash, schema: nat): set<nat> {
    set f | f in h && Reserves(f, schema) :: f.id
  }

  lemma OccupiedIff(h: Hash, schema: nat, id: nat)
    ensures id in Occupied(h, schema) <==> Numeric(id) in h || (schema != LEGACY && Directional(Out, id) in h)
  {
    if Numeric(id) in h { assert Reserves(Numeric(id), schema); }
    if schema != LEGACY && Directional(Out, id) in h { assert Reserves(Directional(Out, id), schema); }
  }

  /** The next counter the script returns, or 0. */
  function NextOffline(h: Hash, counter: nat, schema: nat): nat {
    if schema == LEGACY && |h| >= MAX_ID then 0
    else
      var k := FreeOffset(Occupied(h, schema), counter, 0);
      if k == MAX_ID then 0 else counter + k + 1
  }

  /** The id is blocked by a row the schema looks at. */
  predicate Blocked(h: Hash, schema: nat, id: nat) {
    Numeric(id) in h || (schema != LEGACY && Directional(Out, id) in h)
  }

  /** The next position after the counter, within one round, whose id is free: every one passed over is blocked. */
  ghost predicate FirstFreeAfter(h: Hash, counter: nat, schema: nat, next: nat) {
    && counter < next <= counter + MAX_ID && !Blocked(h, schema, CounterId(next))
    && forall n :: counter < n < next ==> Blocked(h, schema, CounterId(n))
  }

  lemma NextOfflineFirst(h: Hash, counter: nat, schema: nat)
    requires NextOffline(h, counter, schema) != 0
    ensures FirstFreeAfter(h, counter, schema, NextOffline(h, counter, schema))
  {
    var occupied, next := Occupied(h, schema), NextOffline(h, counter, schema);
    forall n | counter < n < next ensures Blocked(h, schema, CounterId(n)) {
      assert CounterId(n) == IdAt(counter, n - counter - 1);
      OccupiedIff(h, schema, CounterId(n));
    }
    OccupiedIff(h, schema, CounterId(next));
  }

  /** From matching cursors and the same blocked ids, the script and the live client choose the same id; the
      counters match again afterwards. */
  lemma OfflineAgreesWithLive(h: Hash, counter: nat, schema: nat, occupied: set<nat>, cursor: nat)
    requires cursor <= MAX_ID && cursor % MAX_ID == counter % MAX_ID && forall id :: id in occupied <==> Blocked(h, schema, id)
    requires !(schema == LEGACY && |h| >= MAX_ID)
    ensures var next, id := NextOffline(h, counter, schema), LiveNext(occupied, cursor);
            && (next == 0 <==> id == 0)
            && (next != 0 ==> CounterId(next) == id && id % MAX_ID == next % MAX_ID)
  {
    forall id: nat ensures id in Occupied(h, schema) <==> id in occupied { OccupiedIff(h, schema, id); }
    assert Occupied(h, schema) == occupied;
    AllocatorsAgree(occupied, cursor, counter);
  }

  /** nextOfflinePacketCounterScript. */
  method NextOfflinePacketCounter(h: Hash, counter: nat, schema: nat) returns (next: nat)
    ensures next == NextOffline(h, counter, schema) && (next != 0 ==> FirstFreeAfter(h, counter, schema, next))
  {
    next := SearchCounter(h, counter, schema);
    if next != 0 { NextOfflineFirst(h, counter, schema); }
  }

  method SearchCounter(h: Hash, counter: nat, schema: nat) returns (next: nat)
    ensures next == NextOffline(h, counter, schema)
  {
    if schema == LEGACY && |h| >= MAX_ID { return 0; }
    for offset := 0 to MAX_ID
      invariant FreeOffset(Occupied(h, schema), counter, offset) == FreeOffset(Occupied(h, schema), counter, 0)
    {
      var id := IdAt(counter, offset);
      OccupiedIff(h, schema, id);
      var blocked := if schema == LEGACY then Numeric(id) in h else Directional(Out, id) in h || Numeric(id) in h;
      if !blocked { return counter + offset + 1; }
    }
    next := 0;
  }

  /** A returned counter names an id free in both field forms the schema looks at. */
  lemma NextOfflineFree(h: Hash, counter: nat, schema: nat)
    requires NextOffline(h, counter, schema) != 0
    ensures var id := CounterId(NextOffline(h, counter, schema));
            Numeric(id) !in h && (schema != LEGACY ==> Directional(Out, id) !in h)
  {
    OccupiedIff(h, schema, CounterId(NextOffline(h, counter, schema)));
  }

  /** Every id has a numeric row. */
  ghost predicate NumericFull(h: Hash) {
    forall id :: 1 <= id <= MAX_ID ==> Numeric(id) in h
  }

  /** What the legacy search answers, exactly: it fails on 65535 rows of any kind, or when every id is taken. */
  lemma LegacyExhaustedIff(h: Hash, counter: nat)
    ensures NextOffline(h, counter, LEGACY) == 0 <==> |h| >= MAX_ID || NumericFull(h)
  {
    ExhaustedIffFull(Occupied(h, LEGACY), counter);
    forall id: nat ensures id in Occupied(h, LEGACY) <==> Numeric(id) in h { OccupiedIff(h, LEGACY, id); }
  }

  /** With only numeric rows the HLEN shortcut is sound: the search reports exhaustion
      exactly when no id is free. */
  lemma LegacyExhaustedIffFull(h: Hash, counter: nat)
    requires WellFormed(h) && OnlyNumeric(h)
    ensures NextOffline(h, counter, LEGACY) == 0 <==> NumericFull(h)
  {
    LegacyExhaustedIff(h, counter);
    if |h| >= MAX_ID {
      NumericCount(h);
      forall id | 1 <= id <= MAX_ID ensures Numeric(id) in h {
        FullByCount(Occupied(h, LEGACY), id);
        OccupiedIff(h, LEGACY, id);
      }
    }
  }

  /** There is a hash of n inbound rows and nothing else. */
  lemma {:induction false} InboundRows(n: nat) returns (h: Hash)
    requires n <= MAX_ID
    ensures |h| == n && WellFormed(h)
    ensures forall f :: f in h <==> f.Directional? && f.dir == In && 1 <= f.id <= n
    decreases n
  {
    h := map[];
    if n > 0 {
      h := InboundRows(n - 1);
      h := h[Directional(In, n) := Message(Pubrec, n, "")];
    }
  }

  /** The shortcut answers wrongly exactly for a hash of at least 65535 rows in which some numeric field is free:
      rows of the other form make up the count. */
  lemma ShortcutWrongIff(h: Hash, counter: nat)
    ensures !(NextOffline(h, counter, LEGACY) == 0 <==> NumericFull(h)) <==> |h| >= MAX_ID && !NumericFull(h)
  {
    LegacyExhaustedIff(h, counter);
  }

  /** Such a hash exists: 65535 inbound rows. */
  lemma ForeignRowsWitness() returns (h: Hash)
    ensures WellFormed(h) && |h| >= MAX_ID && Numeric(1) !in h
  {
    h := InboundRows(MAX_ID);
  }

  /** Under schema 2 there is no shortcut: exhaustion means every id is held by a numeric or outbound row. */
  lemma DirectionalExhaustedIffFull(h: Hash, counter: nat)
    ensures NextOffline(h, counter, DIRECTIONAL) == 0 <==> forall id :: 1 <= id <= MAX_ID ==> Blocked(h, DIRECTIONAL, id)
  {
    ExhaustedIffFull(Occupied(h, DIRECTIONAL), counter);
    forall id: nat ensures id in Occupied(h, DIRECTIONAL) <==> Blocked(h, DIRECTIONAL, id) {
      OccupiedIff(h, DIRECTIONAL, id);
    }
  }

  lemma NumericFullIff(h: Hash)
    ensures NumericFull(h) <==> forall id :: 1 <= id <= MAX_ID ==> Blocked(h, LEGACY, id)
  {
    assert forall id :: Blocked(h, LEGACY, id) <==> Numeric(id) in h;
  }

  lemma {:induction false} NumericCount(h: Hash)
    requires OnlyNumeric(h)
    ensures |Occupied(h, LEGACY)| == |h|
    decreases |h|
  {
    if h != map[] {
      var f :| f in h;
      var g := h - {f};
      assert h.Keys == g.Keys + {f};
      NumericCount(g);
      assert Occupied(h, LEGACY) == Occupied(g, LEGACY) + {f.id} by {
        assert Reserves(f, LEGACY);
        forall id ensures id in Occupied(h, LEGACY) <==> id in Occupied(g, LEGACY) + {f.id} {
          OccupiedIff(h, LEGACY, id);
          OccupiedIff(g, LEGACY, id);
        }
      }
      OccupiedIff(g, LEGACY, f.id);
    }
  }

  // ---------------------------------------------------------------- the logical view

  type ViewKey = (Direction, nat)

  function KeyOf(m: Message): ViewKey {
    (DirOf(m.kind), m.id)
  }

  /** The row a reader takes for a logical key: the directional one wins over the numeric one. */
  function Row(h: Hash, k: ViewKey): Message
    requires Directional(k.0, k.1) in h || Numeric(k.1) in h
  {
    if Directional(k.0, k.1) in h then h[Directional(k.0, k.1)] else h[Numeric(k.1)]
  }

  /** The logical (direction, id) -> message contents, whatever mix of fields holds them. */
  function View(h: Hash): map<ViewKey, Message> {
    map k | k in (set f | f in h :: KeyOf(h[f])) && (Directional(k.0, k.1) in h || Numeric(k.1) in h) :: Row(h, k)
  }

  lemma ViewKeys(h: Hash, k: ViewKey)
    requires WellFormed(h)
    ensures k in View(h) <==> Directional(k.0, k.1) in h || (Numeric(k.1) in h && DirOf(h[Numeric(k.1)].kind) == k.0)
    ensures k in View(h) ==> View(h)[k] == Row(h, k)
  {
    if Directional(k.0, k.1) in h { assert KeyOf(h[Directional(k.0, k.1)]) == k; }
    if Numeric(k.1) in h && DirOf(h[Numeric(k.1)].kind) == k.0 { assert KeyOf(h[Numeric(k.1)]) == k; }
  }

  /** migrateLegacyInflightFieldScript: atomic for one field; an existing directional row wins. */
  function MigrateField(h: Hash, f: Field, target: Field): Hash {
    if f !in h then h
    else (if target in h then h else h[target := h[f]]) - {f}
  }

  /** Migrating one field changes no logical row. */
  lemma MigrationPreservesView(h: Hash, f: Field)
    requires WellFormed(h) && f in h && f.Numeric?
    ensures WellFormed(MigrateField(h, f, FieldKey(h[f])))
    ensures View(MigrateField(h, f, FieldKey(h[f]))) == View(h)
  {
    var g := MigrateField(h, f, FieldKey(h[f]));
    forall k ensures k in View(g) <==> k in View(h)
      ensures k in View(h) ==> View(g)[k] == View(h)[k]
    {
      ViewKeys(h, k);
      ViewKeys(g, k);
    }
  }

  /** A row inserted at an id free in both outbound forms adds exactly its own logical row. */
  lemma InsertExtendsView(h: Hash, f: Field, m: Message)
    requires WellFormed(h) && m.kind == Publish && 1 <= m.id <= MAX_ID
    requires Numeric(m.id) !in h && Directional(Out, m.id) !in h && f in {Numeric(m.id), Directional(Out, m.id)}
    ensures WellFormed(h[f := m])
    ensures (Out, m.id) !in View(h)
    ensures View(h[f := m]) == View(h)[(Out, m.id) := m]
  {
    var g := h[f := m];
    ViewKeys(h, (Out, m.id));
    forall k ensures k in View(g) <==> k in View(h) || k == (Out, m.id)
      ensures k in View(h) ==> View(g)[k] == View(h)[k]
    {
      ViewKeys(h, k);
      ViewKeys(g, k);
    }
    ViewKeys(g, (Out, m.id));
  }

  /** An enqueue whose id was found free neither shadows a row that is still numeric nor is
      shadowed by one, also in a partly migrated hash. */
  lemma EnqueueExtendsView(h: Hash, counter: nat, schema: nat, m: Message)
    requires WellFormed(h) && schema in {LEGACY, DIRECTIONAL} && (schema == LEGACY ==> OnlyNumeric(h))
    requires NextOffline(h, counter, schema) != 0
    requires m.kind == Publish && m.id == CounterId(NextOffline(h, counter, schema))
    ensures WriteField(schema, m) !in h && WellFormed(h[WriteField(schema, m) := m])
    ensures (Out, m.id) !in View(h)
    ensures View(h[WriteField(schema, m) := m]) == View(h)[(Out, m.id) := m]
  {
    NextOfflineFree(h, counter, schema);
    InsertExtendsView(h, WriteField(schema, m), m);
  }

  /** A whole undisturbed migration pass: same logical rows, no numeric field left. */
  method MigrateLegacyInflightFields(h: Hash) returns (g: Hash)
    requires WellFormed(h)
    ensures WellFormed(g) && View(g) == View(h)
    ensures forall f :: f in g ==> f.Directional?
  {
    g := h;
    var rows := h;
    var todo := h.Keys;
    while todo != {}
      invariant WellFormed(g) && View(g) == View(h)
      invariant todo <= h.Keys
      invariant forall f :: f in g && f.Numeric? ==> f in todo && g[f] == h[f]
      decreases todo
    {
      var f :| f in todo;
      todo := todo - {f};
      if f.Directional? { continue; }
      if f in g { MigrationPreservesView(g, f); }
      g := MigrateField(g, f, FieldKey(rows[f]));
    }
  }

  /** After a full pass the hash is literally its view: one directional field per logical row. */
  lemma MigratedHashIsView(g: Hash, k: ViewKey)
    requires WellFormed(g) && forall f :: f in g ==> f.Directional?
    ensures k in View(g) <==> Directional(k.0, k.1) in g
    ensures k in View(g) ==> View(g)[k] == g[Directional(k.0, k.1)]
  {
    ViewKeys(g, k);
  }
}
