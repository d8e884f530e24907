/** What the fenced writes, inserts and deletes, a migration turn and the activation do to the logical rows. */
module RedisMutations {
  import opened PacketIds
  import opened InflightStore
  import opened RedisProtocol
  import opened RedisProtocolProofs
  import opened RedisProtocolTheorems
  import opened RedisOutcomes

  /** The direction whose row a delete is meant for. */
  function DeleteDir(m: Message, dropped: bool): Direction {
    DeleteField(m, dropped).dir
  }

  /** A written row is the one a reader takes for its logical key. */
  lemma WriteShows(h: Hash, schema: nat, m: Message)
    requires HashOk(schema, h) && schema in {LEGACY, DIRECTIONAL} && ValidMessage(m)
    ensures Shows(h, h[WriteField(schema, m) := m], m)
  {
    var g := h[WriteField(schema, m) := m];
    ViewKeys(g, KeyOf(m));
    forall k: ViewKey | k.1 != m.id ensures (k in View(g) <==> k in View(h)) && (k in View(h) ==> View(g)[k] == View(h)[k]) {
      ViewKeys(g, k);
      ViewKeys(h, k);
    }
  }

  /** Of the deleted id's logical rows only a directional one of the other direction stays; no other id is touched. */
  lemma DeleteRemoves(h: Hash, schema: nat, m: Message, dropped: bool, k: ViewKey)
    requires WellFormed(h)
    ensures var g := h - DeleteFields(schema, m, dropped);
            && (k in View(g) <==>
                  k in View(h) && (k.1 == m.id ==> Directional(k.0, k.1) in h && !(schema == DIRECTIONAL && k.0 == DeleteDir(m, dropped))))
            && (k in View(g) ==> View(g)[k] == View(h)[k])
  {
    var g := h - DeleteFields(schema, m, dropped);
    assert WellFormed(g);
    ViewKeys(g, k);
    ViewKeys(h, k);
  }

  /** Dropping a stored packet removes its own row, except for a PUBREL stored under its directional field: the
      drop looks for it among the inbound rows. */
  lemma DropRemovesOwnIff(h: Hash, m: Message)
    requires WellFormed(h) && KeyOf(m) in View(h)
    ensures KeyOf(m) !in View(h - DeleteFields(DIRECTIONAL, m, true)) <==> m.kind != Pubrel || FieldKey(m) !in h
  {
    DeleteRemoves(h, DIRECTIONAL, m, true, KeyOf(m));
  }

  // ---------------------------------------------------------------- in every run

  /** The process is about to run its script under the schema in force. */
  ghost predicate AboutToMutate(s: System, pid: Pid) {
    && pid in s.workers && s.workers[pid].node in s.mode && s.workers[pid].proc.Trying?
    && s.workers[pid].proc.schema == Schema(s.redis)
  }

  ghost predicate OthersSame(r: Redis, r': Redis, c: Client) {
    (forall d :: d != c ==> Rows(r', d) == Rows(r, d)) && r'.counters == r.counters && r'.dedup == r.dedup && r'.marker == r.marker
  }

  /** What the script leaves behind: a write shows its message; an insert does so only where nothing was, and
      otherwise changes nothing; a delete removes the row it is meant for. */
  ghost predicate Mutated(r: Redis, r': Redis, c: Client, op: Mutation, o: Outcome) {
    var h, g := Rows(r, c), Rows(r', c);
    && OthersSame(r, r', c)
    && match op
       case Write(m) => o == Applied && Shows(h, g, m)
       case Insert(m) =>
         if WriteField(Schema(r), m) in h then o == IdInUse && g == h else o == Applied && Shows(h, g, m)
       case Delete(m, dropped) => o == Applied && Removed(h, g, Schema(r), m, dropped)
  }

  ghost predicate Shows(h: Hash, g: Hash, m: Message) {
    && KeyOf(m) in View(g) && View(g)[KeyOf(m)] == m
    && forall k: ViewKey :: k.1 != m.id ==> (k in View(g) <==> k in View(h)) && (k in View(h) ==> View(g)[k] == View(h)[k])
  }

  ghost predicate Removed(h: Hash, g: Hash, schema: nat, m: Message, dropped: bool) {
    && (schema == LEGACY ==> forall k: ViewKey :: k in View(g) ==> k.1 != m.id)
    && (schema == DIRECTIONAL ==> (DeleteDir(m, dropped), m.id) !in View(g))
    && (forall k: ViewKey :: k.1 != m.id ==> (k in View(g) <==> k in View(h)))
    && (forall k: ViewKey :: k in View(g) ==> k in View(h) && View(g)[k] == View(h)[k])
  }

  lemma ScriptMutates(r: Redis, c: Client, op: Mutation)
    requires StoreOk(r) && ValidMessage(op.m)
    ensures var (r', p) := Fenced(r, c, op, Schema(r)); p.Finished? && Mutated(r, r', c, op, p.outcome)
  {
    match op
    case Write(m) => PutLeaves(r, c, m);
    case Insert(m) => PutLeaves(r, c, m);
    case Delete(m, dropped) =>
      DeleteLeaves(r, c, m, dropped);
      assert OthersSame(r, Remove(r, c, DeleteFields(Schema(r), m, dropped)), c);
  }

  lemma PutLeaves(r: Redis, c: Client, m: Message)
    requires StoreOk(r) && ValidMessage(m)
    ensures var r' := Put(r, c, WriteField(Schema(r), m), m); OthersSame(r, r', c) && Shows(Rows(r, c), Rows(r', c), m)
  {
    assert HashOk(Schema(r), Rows(r, c));
    WriteShows(Rows(r, c), Schema(r), m);
    assert Rows(Put(r, c, WriteField(Schema(r), m), m), c) == Rows(r, c)[WriteField(Schema(r), m) := m];
  }

  lemma DeleteLeaves(r: Redis, c: Client, m: Message, dropped: bool)
    requires StoreOk(r)
    ensures Removed(Rows(r, c), Rows(r, c) - DeleteFields(Schema(r), m, dropped), Schema(r), m, dropped)
    ensures Rows(Remove(r, c, DeleteFields(Schema(r), m, dropped)), c) == Rows(r, c) - DeleteFields(Schema(r), m, dropped)
  {
    var h, fields := Rows(r, c), DeleteFields(Schema(r), m, dropped);
    assert HashOk(Schema(r), h);
    if fields !! h.Keys { assert h - fields == h; }
    forall k: ViewKey ensures k in View(h - fields) <==>
                     k in View(h) && (k.1 == m.id ==> Directional(k.0, k.1) in h && !(Schema(r) == DIRECTIONAL && k.0 == DeleteDir(m, dropped)))
      ensures k in View(h - fields) ==> View(h - fields)[k] == View(h)[k]
    {
      DeleteRemoves(h, Schema(r), m, dropped, k);
    }
  }

  /** In every run a fenced script under the schema in force does what its operation says. */
  lemma MutationApplies(start: System, actions: seq<Action>, pid: Pid)
    requires Initial(start) && AboutToMutate(Run(start, actions), pid)
    ensures var s := Run(start, actions);
            var p, t := s.workers[pid].proc, Step(s, Turn(pid));
            && pid in t.workers && t.workers[pid].proc.Finished?
            && Mutated(s.redis, t.redis, p.client, p.op, t.workers[pid].proc.outcome)
  {
    var s := Run(start, actions);
    InitialInv(start);
    RunInv(start, actions);
    var p := s.workers[pid].proc;
    assert ProcOk(s.redis, p);
    ScriptMutates(s.redis, p.client, p.op);
  }

  /** In every run a migration turn takes the numeric field it has come to out of the hash, leaving its message
      under the directional field unless a row was there already. */
  lemma MigrationMoves(start: System, actions: seq<Action>, pid: Pid)
    requires Initial(start) && var s := Run(start, actions);
             && pid in s.workers && s.workers[pid].node in s.mode && s.workers[pid].proc.Migrating? && s.workers[pid].proc.todo != []
    ensures var s := Run(start, actions);
            var p, t := s.workers[pid].proc, Step(s, Turn(pid));
            var f, h, g := p.todo[0].0, Rows(s.redis, p.client), Rows(t.redis, p.client);
            && f !in g && g.Keys <= h.Keys + {FieldKey(p.todo[0].1)}
            && (f in h ==> FieldKey(h[f]) in g && (FieldKey(h[f]) !in h ==> g[FieldKey(h[f])] == h[f]))
            && t.workers[pid].proc == Migrating(p.client, p.todo[1..])
  {
    var s := Run(start, actions);
    InitialInv(start);
    RunInv(start, actions);
    assert ProcOk(s.redis, s.workers[pid].proc);
  }

  /** The activation sets the marker and touches no row. */
  lemma ActivationSets(s: System, pid: Pid)
    requires pid in s.workers && s.workers[pid].node in s.mode && s.workers[pid].proc.Activating?
    ensures var t := Step(s, Turn(pid));
            && t.redis.marker == Set(DIRECTIONAL) && t.redis.hashes == s.redis.hashes
            && t.cache[s.workers[pid].node] == DIRECTIONAL && t.workers[pid].proc == Finished(Applied)
  {
  }

  /** A node is allowed to activate exactly when it chooses the schema itself and the marker says 1. */
  lemma ActivationStarts(s: System, pid: Pid, node: Node)
    requires CanSpawn(s, pid, node)
    ensures var t := Step(s, SpawnActivate(pid, node));
            && pid in t.workers && t.redis == s.redis
            && t.workers[pid].proc == (if s.mode[node] == AUTO && s.redis.marker == Set(LEGACY) then Activating else Finished(NotActivated))
  {
  }

  /** PUBACK, PUBREC and PUBCOMP complete what the server sent; PUBREL completes what the client sent. */
  lemma CompletionRemoves(h: Hash, m: Message)
    requires WellFormed(h) && m.kind != Publish
    ensures var g := h - DeleteFields(DIRECTIONAL, m, false); (if m.kind == Pubrel then In else Out, m.id) !in View(g)
  {
    DeleteRemoves(h, DIRECTIONAL, m, false, (if m.kind == Pubrel then In else Out, m.id));
  }

  /** One turn of a process that tries under the schema in force. */
  lemma TryTurn(s: System, pid: Pid, n: nat)
    requires Inv(s) && AboutToMutate(s, pid) && n > 0
    ensures var p, t := s.workers[pid].proc, Run(s, Turns(pid, n));
            && pid in t.workers && t.workers[pid].proc.Finished?
            && Mutated(s.redis, t.redis, p.client, p.op, t.workers[pid].proc.outcome)
  {
    var p, t := s.workers[pid].proc, Step(s, Turn(pid));
    assert ProcOk(s.redis, p);
    ScriptMutates(s.redis, p.client, p.op);
    assert Turns(pid, n)[1..] == Turns(pid, n - 1);
    FinishedRests(t, pid, n - 1);
  }

  /** A rejected process takes the schema in force and tries again. */
  lemma RejectedTurns(s: System, pid: Pid, n: nat)
    requires Inv(s) && pid in s.workers && s.workers[pid].node in s.mode && s.mode[s.workers[pid].node] == AUTO && n > 1
    requires s.workers[pid].proc.Trying? && s.workers[pid].proc.try == 0 && s.workers[pid].proc.schema != Schema(s.redis)
    ensures var t := Step(Step(s, Turn(pid)), Turn(pid));
            && Run(s, Turns(pid, n)) == Run(t, Turns(pid, n - 2)) && Inv(t) && t.redis == s.redis && AboutToMutate(t, pid)
            && t.workers[pid].proc.op == s.workers[pid].proc.op && t.workers[pid].proc.client == s.workers[pid].proc.client
  {
    StepInv(s, Turn(pid));
    StepInv(Step(s, Turn(pid)), Turn(pid));
    assert Turns(pid, n)[1..] == Turns(pid, n - 1) && Turns(pid, n - 1)[1..] == Turns(pid, n - 2);
  }

  /** In every run a write, insert or delete that nobody disturbs is carried out within three turns, unless the node's
      fixed mode is not the schema in force. */
  lemma MutationAlone(start: System, actions: seq<Action>, pid: Pid)
    requires Initial(start)
    requires var s := Run(start, actions); pid in s.workers && s.workers[pid].proc.Trying? && s.workers[pid].proc.try == 0
    ensures var s := Run(start, actions);
            var p, t := s.workers[pid].proc, Run(s, Turns(pid, 3));
            && pid in t.workers && t.workers[pid].proc.Finished?
            && (if FixedElsewhere(s, s.workers[pid].node) then t.workers[pid].proc.outcome == ModeConflict && t.redis == s.redis
                else Mutated(s.redis, t.redis, p.client, p.op, t.workers[pid].proc.outcome))
  {
    InitialInv(start);
    RunInv(start, actions);
    RunFits(start, actions);
    MutationAloneFrom(Run(start, actions), pid);
  }

  lemma MutationAloneFrom(s: System, pid: Pid)
    requires Inv(s) && AllFit(s) && pid in s.workers && s.workers[pid].proc.Trying? && s.workers[pid].proc.try == 0
    ensures var p, t := s.workers[pid].proc, Run(s, Turns(pid, 3));
            && pid in t.workers && t.workers[pid].proc.Finished?
            && (if FixedElsewhere(s, s.workers[pid].node) then t.workers[pid].proc.outcome == ModeConflict && t.redis == s.redis
                else Mutated(s.redis, t.redis, p.client, p.op, t.workers[pid].proc.outcome))
  {
    var p := s.workers[pid].proc;
    assert WorkerFits(s, pid);
    if p.schema == Schema(s.redis) {
      TryTurn(s, pid, 3);
    } else if s.mode[s.workers[pid].node] != AUTO {
      var t := Step(s, Turn(pid));
      assert Turns(pid, 3)[1..] == Turns(pid, 2);
      FinishedRests(t, pid, 2);
    } else {
      RejectedTurns(s, pid, 3);
      TryTurn(Step(Step(s, Turn(pid)), Turn(pid)), pid, 1);
    }
  }

  /** Ending a session forgets the client's rows and its counter and nothing else. */
  lemma SessionForgotten(s: System, c: Client)
    ensures var r, t := s.redis, Step(s, EndSession(c)).redis;
            && Rows(t, c) == map[] && CounterOf(t, c) == 0 && t.dedup == r.dedup && t.marker == r.marker
            && forall d :: d != c ==> Rows(t, d) == Rows(r, d) && CounterOf(t, d) == CounterOf(r, d)
  {
  }

  /** A node starts exactly with a mode that is automatic or the schema in force, and caches that schema. */
  lemma NodeStarts(s: System, node: Node, wanted: nat)
    requires node !in s.mode
    ensures var t := Step(s, StartNode(node, wanted));
            && (node in t.mode <==> wanted == AUTO || (wanted in {LEGACY, DIRECTIONAL} && wanted == Schema(s.redis)))
            && (node in t.mode ==> t.mode[node] == wanted && node in t.cache && t.cache[node] == Schema(s.redis))
  {
  }
}
