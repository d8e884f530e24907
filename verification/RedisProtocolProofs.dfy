/**
 Rely/guarantee proof of the Redis protocol. Every step, whoever takes it, changes Redis
 only as `Guarantee` allows; what each process has read so far is stable under that; so
 the invariant holds in every interleaving.
 */
module RedisProtocolProofs {
  import opened PacketIds
  import opened InflightStore
  import opened RedisProtocol

  // ---------------------------------------------------------------- the guarantee

  /** Versions only grow, and a key whose version stood still kept its value
      (a dedup marker may silently expire). */
  ghost predicate Versioned(r: Redis, r': Redis) {
    && (forall k :: Ver(r, k) <= Ver(r', k))
    && (Ver(r, MarkerKey) == Ver(r', MarkerKey) ==> r.marker == r'.marker)
    && (forall c :: Ver(r, HashKey(c)) == Ver(r', HashKey(c)) ==> Rows(r, c) == Rows(r', c))
    && (forall c :: Ver(r, CounterKey(c)) == Ver(r', CounterKey(c)) ==> CounterOf(r, c) == CounterOf(r', c))
    && (forall p: PublishId, c :: Ver(r, DedupKey(p, c)) == Ver(r', DedupKey(p, c)) && (p, c) in r'.dedup ==> (p, c) in r.dedup)
  }

  /** No numeric row appears or changes. */
  ghost predicate NoNewNumeric(r: Redis, r': Redis) {
    forall c, f :: f in Rows(r', c) && f.Numeric? ==> f in Rows(r, c) && Rows(r, c)[f] == Rows(r', c)[f]
  }

  /** The schema only moves 1 -> 2, and from then on numeric rows only disappear. */
  ghost predicate Guarantee(r: Redis, r': Redis) {
    && Versioned(r, r')
    && Schema(r) <= Schema(r')
    && (Schema(r) == DIRECTIONAL ==> NoNewNumeric(r, r'))
  }

  ghost predicate HashOk(schema: nat, h: Hash) {
    WellFormed(h) && (schema == LEGACY ==> OnlyNumeric(h))
  }

  ghost predicate StoreOk(r: Redis) {
    forall c :: HashOk(Schema(r), Rows(r, c))
  }

  lemma GuaranteeRefl(r: Redis)
    ensures Guarantee(r, r)
  {
  }

  lemma PutRowsGuarantee(r: Redis, c: Client, h: Hash)
    requires Schema(r) == DIRECTIONAL ==>
               forall f :: f in h && f.Numeric? ==> f in Rows(r, c) && Rows(r, c)[f] == h[f]
    ensures Guarantee(r, PutRows(r, c, h))
    ensures StoreOk(r) && HashOk(Schema(r), h) ==> StoreOk(PutRows(r, c, h))
  {
    var r' := PutRows(r, c, h);
    assert forall d :: Rows(r', d) == if d == c then h else Rows(r, d);
  }

  /** A write under the schema in force. */
  lemma PutGuarantee(r: Redis, c: Client, m: Message)
    requires StoreOk(r) && ValidMessage(m)
    ensures Guarantee(r, Put(r, c, WriteField(Schema(r), m), m))
    ensures StoreOk(Put(r, c, WriteField(Schema(r), m), m))
  {
    assert HashOk(Schema(r), Rows(r, c));
    PutRowsGuarantee(r, c, Rows(r, c)[WriteField(Schema(r), m) := m]);
  }

  lemma RemoveGuarantee(r: Redis, c: Client, fs: set<Field>)
    requires StoreOk(r)
    ensures Guarantee(r, Remove(r, c, fs)) && StoreOk(Remove(r, c, fs))
  {
    assert HashOk(Schema(r), Rows(r, c));
    PutRowsGuarantee(r, c, Rows(r, c) - fs);
  }

  lemma SetCounterGuarantee(r: Redis, c: Client, n: nat)
    requires StoreOk(r)
    ensures Guarantee(r, SetCounter(r, c, n)) && StoreOk(SetCounter(r, c, n))
  {
    var r' := SetCounter(r, c, n);
    assert forall d :: Rows(r', d) == Rows(r, d);
  }

  lemma SetDedupGuarantee(r: Redis, p: PublishId, c: Client)
    requires StoreOk(r)
    ensures Guarantee(r, SetDedup(r, p, c)) && StoreOk(SetDedup(r, p, c))
  {
    var r' := SetDedup(r, p, c);
    assert forall d :: Rows(r', d) == Rows(r, d);
  }

  /** The marker is set to 1 only when absent and to 2 at any time. */
  lemma SetMarkerGuarantee(r: Redis, schema: nat)
    requires StoreOk(r) && (schema == DIRECTIONAL || (schema == LEGACY && r.marker.Absent?))
    ensures Guarantee(r, SetMarker(r, schema)) && StoreOk(SetMarker(r, schema))
  {
    var r' := SetMarker(r, schema);
    assert forall d :: Rows(r', d) == Rows(r, d);
    forall c ensures HashOk(Schema(r'), Rows(r', c)) { assert HashOk(Schema(r), Rows(r, c)); }
  }

  lemma ExpireGuarantee(r: Redis, p: PublishId, c: Client, touch: bool)
    requires StoreOk(r)
    ensures var r1 := r.(dedup := r.dedup - {(p, c)});
            var r' := if touch then Touch(r1, DedupKey(p, c)) else r1;
            Guarantee(r, r') && StoreOk(r')
  {
    var r1 := r.(dedup := r.dedup - {(p, c)});
    var r' := if touch then Touch(r1, DedupKey(p, c)) else r1;
    assert forall d :: Rows(r', d) == Rows(r, d);
  }

  lemma DropCounterGuarantee(r: Redis, c: Client)
    requires StoreOk(r)
    ensures var r' := Touch(r.(counters := r.counters - {c}), CounterKey(c));
            Guarantee(r, r') && StoreOk(r')
  {
    var r' := Touch(r.(counters := r.counters - {c}), CounterKey(c));
    assert forall d :: Rows(r', d) == Rows(r, d);
    assert forall d :: d != c ==> CounterOf(r', d) == CounterOf(r, d);
  }

  lemma MigrateGuarantee(r: Redis, c: Client, f: Field)
    requires StoreOk(r) && Schema(r) == DIRECTIONAL && f.Numeric? && f in Rows(r, c)
    ensures var r' := PutRows(r, c, MigrateField(Rows(r, c), f, FieldKey(Rows(r, c)[f])));
            Guarantee(r, r') && StoreOk(r')
  {
    var h := Rows(r, c);
    assert HashOk(Schema(r), h);
    MigrationPreservesView(h, f);
    PutRowsGuarantee(r, c, MigrateField(h, f, FieldKey(h[f])));
  }

  lemma {:induction false} GuaranteeTrans(a: Redis, b: Redis, c: Redis)
    requires Guarantee(a, b) && Guarantee(b, c)
    ensures Guarantee(a, c)
  {
    forall k ensures Ver(a, k) <= Ver(c, k) { assert Ver(a, k) <= Ver(b, k) && Ver(b, k) <= Ver(c, k); }
    forall d | Ver(a, HashKey(d)) == Ver(c, HashKey(d)) ensures Rows(a, d) == Rows(c, d) {
      assert Ver(a, HashKey(d)) <= Ver(b, HashKey(d)) <= Ver(c, HashKey(d));
    }
    forall d | Ver(a, CounterKey(d)) == Ver(c, CounterKey(d)) ensures CounterOf(a, d) == CounterOf(c, d) {
      assert Ver(a, CounterKey(d)) <= Ver(b, CounterKey(d)) <= Ver(c, CounterKey(d));
    }
    forall p: PublishId, d | Ver(a, DedupKey(p, d)) == Ver(c, DedupKey(p, d)) && (p, d) in c.dedup ensures (p, d) in a.dedup {
      assert Ver(a, DedupKey(p, d)) <= Ver(b, DedupKey(p, d)) <= Ver(c, DedupKey(p, d));
    }
    assert Ver(a, MarkerKey) <= Ver(b, MarkerKey) <= Ver(c, MarkerKey);
    if Schema(a) == DIRECTIONAL { NoNewNumericTrans(a, b, c); }
  }

  lemma NoNewNumericTrans(a: Redis, b: Redis, c: Redis)
    requires NoNewNumeric(a, b) && NoNewNumeric(b, c)
    ensures NoNewNumeric(a, c)
  {
    forall d, f | f in Rows(c, d) && f.Numeric? ensures f in Rows(a, d) && Rows(a, d)[f] == Rows(c, d)[f] {
      assert f in Rows(b, d) && Rows(b, d)[f] == Rows(c, d)[f];
    }
  }

  // ---------------------------------------------------------------- what a process knows

  ghost predicate Seen(r: Redis, job: Job, w: Watched) {
    && w.marker <= Ver(r, MarkerKey)
    && w.hash <= Ver(r, HashKey(job.client))
    && w.counter <= Ver(r, CounterKey(job.client))
    && w.dedup <= Ver(r, DedupKey(job.pub, job.client))
  }

  ghost predicate KnowsSchema(r: Redis, w: Watched, schema: nat) {
    schema in {LEGACY, DIRECTIONAL} && (Ver(r, MarkerKey) == w.marker ==> Schema(r) == schema)
  }

  ghost predicate KnowsUndelivered(r: Redis, job: Job, w: Watched) {
    job.pub != NO_PUBLISH_ID && Ver(r, DedupKey(job.pub, job.client)) == w.dedup ==> (job.pub, job.client) !in r.dedup
  }

  ghost predicate KnowsCounter(r: Redis, job: Job, w: Watched, counter: nat) {
    Ver(r, CounterKey(job.client)) == w.counter ==> CounterOf(r, job.client) == counter
  }

  ghost predicate KnowsFree(r: Redis, job: Job, w: Watched, schema: nat, counter: nat, next: nat) {
    next > 0 && (Ver(r, HashKey(job.client)) == w.hash ==> NextOffline(Rows(r, job.client), counter, schema) == next)
  }

  ghost predicate TryOk(r: Redis, op: Mutation, try: nat, schema: nat) {
    && schema in {LEGACY, DIRECTIONAL} && (schema == DIRECTIONAL ==> Schema(r) == DIRECTIONAL)
    && ValidMessage(op.m) && try < 2 && (try == 1 ==> schema == DIRECTIONAL)
  }

  ghost predicate MigratingOk(r: Redis, c: Client, todo: seq<(Field, Message)>) {
    && Schema(r) == DIRECTIONAL
    && forall i :: 0 <= i < |todo| ==>
                     && todo[i].0.Numeric?
                     && (todo[i].0 in Rows(r, c) ==> Rows(r, c)[todo[i].0] == todo[i].1)
  }

  /** What a process has read is still true of every watched key that was not touched. */
  ghost predicate ProcOk(r: Redis, p: Proc) {
    match p
    case Starting(_, _) => true
    case Watching(job, _, w) => Seen(r, job, w)
    case HasSchema(job, _, w, schema) => Seen(r, job, w) && KnowsSchema(r, w, schema)
    case NotDelivered(job, _, w, schema) => Seen(r, job, w) && KnowsSchema(r, w, schema) && KnowsUndelivered(r, job, w)
    case HasCounter(job, _, w, schema, counter) =>
      Seen(r, job, w) && KnowsSchema(r, w, schema) && KnowsUndelivered(r, job, w) && KnowsCounter(r, job, w, counter)
    case Ready(job, _, w, schema, counter, next) =>
      && Seen(r, job, w) && KnowsSchema(r, w, schema) && KnowsUndelivered(r, job, w)
      && KnowsCounter(r, job, w, counter) && KnowsFree(r, job, w, schema, counter, next)
    case Trying(_, op, try, schema) => TryOk(r, op, try, schema)
    case Rejected(_, op, try) => try == 0 && ValidMessage(op.m) && Schema(r) == DIRECTIONAL
    case Activating => true
    case Migrating(c, todo) => MigratingOk(r, c, todo)
    case Finished(o) => o != ChangedRepeatedly
  }

  /** Other processes' steps never invalidate it. */
  lemma ProcStable(r: Redis, r': Redis, p: Proc)
    requires Guarantee(r, r') && ProcOk(r, p)
    ensures ProcOk(r', p)
  {
    if p.Watching? || p.HasSchema? || p.NotDelivered? || p.HasCounter? || p.Ready? {
      var job, w := p.job, p.watched;
      assert Ver(r, MarkerKey) <= Ver(r', MarkerKey);
      assert Ver(r, HashKey(job.client)) <= Ver(r', HashKey(job.client));
      assert Ver(r, CounterKey(job.client)) <= Ver(r', CounterKey(job.client));
      assert Ver(r, DedupKey(job.pub, job.client)) <= Ver(r', DedupKey(job.pub, job.client));
    }
  }

  // ---------------------------------------------------------------- the invariant

  ghost predicate CacheOk(s: System) {
    forall n :: n in s.mode ==>
                  && n in s.cache
                  && s.mode[n] in {AUTO, LEGACY, DIRECTIONAL}
                  && s.cache[n] in {LEGACY, DIRECTIONAL}
                  && (s.cache[n] == DIRECTIONAL || s.mode[n] == DIRECTIONAL ==> Schema(s.redis) == DIRECTIONAL)
  }

  ghost predicate WorkersOk(s: System) {
    forall pid :: pid in s.workers ==> s.workers[pid].node in s.mode && ProcOk(s.redis, s.workers[pid].proc)
  }

  /** At most one committed enqueue per publish and client while its marker lives. */
  ghost predicate LiveOk(s: System) {
    forall p: PublishId, c :: p != NO_PUBLISH_ID ==> Live(s, p, c) <= 1 && (Live(s, p, c) == 1 ==> (p, c) in s.redis.dedup)
  }

  ghost predicate Inv(s: System) {
    StoreOk(s.redis) && CacheOk(s) && WorkersOk(s) && LiveOk(s)
  }

  lemma InitialInv(s: System)
    requires Initial(s)
    ensures Inv(s)
  {
    forall c ensures HashOk(Schema(s.redis), Rows(s.redis, c)) {
      if c in s.redis.hashes { assert WellFormed(s.redis.hashes[c]); }
    }
  }

  /** The other processes after one process moved to p and Redis to r'. */
  lemma WorkersAfter(s: System, t: System, pid: Pid)
    requires WorkersOk(s) && Guarantee(s.redis, t.redis)
    requires pid in t.workers && t.workers[pid].node in t.mode && ProcOk(t.redis, t.workers[pid].proc)
    requires forall q :: q in t.workers && q != pid ==> q in s.workers && t.workers[q] == s.workers[q]
    requires s.mode.Keys <= t.mode.Keys
    ensures WorkersOk(t)
  {
    forall q | q in t.workers ensures t.workers[q].node in t.mode && ProcOk(t.redis, t.workers[q].proc) {
      if q != pid { ProcStable(s.redis, t.redis, s.workers[q].proc); }
    }
  }

  lemma WorkersKept(s: System, t: System)
    requires WorkersOk(s) && Guarantee(s.redis, t.redis) && s.mode.Keys <= t.mode.Keys
    requires forall q :: q in t.workers ==> q in s.workers && t.workers[q] == s.workers[q]
    ensures WorkersOk(t)
  {
    forall q | q in t.workers ensures t.workers[q].node in t.mode && ProcOk(t.redis, t.workers[q].proc) {
      ProcStable(s.redis, t.redis, s.workers[q].proc);
    }
  }

  // ---------------------------------------------------------------- enqueue

  /** EXEC with nothing touched: the read schema, marker absence and free id are still facts. */
  lemma ReadyFacts(r: Redis, p: Proc)
    requires p.Ready? && ProcOk(r, p) && Unchanged(r, p.job, p.watched)
    ensures p.schema == Schema(r) && p.next > 0 && p.counter == CounterOf(r, p.job.client)
    ensures NextOffline(Rows(r, p.job.client), p.counter, p.schema) == p.next
    ensures p.job.pub != NO_PUBLISH_ID ==> (p.job.pub, p.job.client) !in r.dedup
  {
  }

  lemma CommitGuarantee(r: Redis, job: Job, next: nat)
    requires StoreOk(r) && next > 0
    ensures Guarantee(r, Commit(r, job, Schema(r), next)) && StoreOk(Commit(r, job, Schema(r), next))
  {
    var m := OfflineMessage(job, CounterId(next));
    var r1 := SetCounter(r, job.client, next);
    SetCounterGuarantee(r, job.client, next);
    var r2 := Put(r1, job.client, WriteField(Schema(r1), m), m);
    PutGuarantee(r1, job.client, m);
    GuaranteeTrans(r, r1, r2);
    if job.pub != NO_PUBLISH_ID {
      SetDedupGuarantee(r2, job.pub, job.client);
      GuaranteeTrans(r, r2, SetDedup(r2, job.pub, job.client));
    }
  }

  lemma ReadStepOk(r: Redis, mode: nat, p: Proc)
    requires ProcOk(r, p) && !p.Ready?
    ensures ProcOk(r, ReadStep(r, mode, p))
  {
  }

  lemma EnqueueReads(s: System, pid: Pid)
    requires Inv(s) && pid in s.workers && !s.workers[pid].proc.Ready?
    requires s.workers[pid].node in s.mode
    ensures EnqueueTurn(s, pid).redis == s.redis && EnqueueTurn(s, pid).live == s.live
    ensures Inv(EnqueueTurn(s, pid))
  {
    var t, w := EnqueueTurn(s, pid), s.workers[pid];
    GuaranteeRefl(s.redis);
    assert ProcOk(s.redis, w.proc);
    ReadStepOk(s.redis, s.mode[w.node], w.proc);
    WorkersAfter(s, t, pid);
    LiveKept(s, t);
  }

  lemma EnqueueAborts(s: System, pid: Pid)
    requires Inv(s) && pid in s.workers && s.workers[pid].node in s.mode
    requires s.workers[pid].proc.Ready? && !Unchanged(s.redis, s.workers[pid].proc.job, s.workers[pid].proc.watched)
    ensures EnqueueTurn(s, pid).redis == s.redis
    ensures Inv(EnqueueTurn(s, pid))
  {
    var t := EnqueueTurn(s, pid);
    GuaranteeRefl(s.redis);
    WorkersAfter(s, t, pid);
  }

  lemma EnqueueCommits(s: System, pid: Pid)
    requires Inv(s) && pid in s.workers && s.workers[pid].node in s.mode
    requires s.workers[pid].proc.Ready? && Unchanged(s.redis, s.workers[pid].proc.job, s.workers[pid].proc.watched)
    ensures Guarantee(s.redis, EnqueueTurn(s, pid).redis)
    ensures Inv(EnqueueTurn(s, pid))
  {
    var p := s.workers[pid].proc;
    assert ProcOk(s.redis, p);
    ReadyFacts(s.redis, p);
    CommitGuarantee(s.redis, p.job, p.next);
    CommitSystem(s, pid, p.job, CounterId(p.next), Commit(s.redis, p.job, p.schema, p.next));
  }

  lemma CommitSystem(s: System, pid: Pid, job: Job, id: nat, r: Redis)
    requires Inv(s) && pid in s.workers
    requires Guarantee(s.redis, r) && StoreOk(r) && s.redis.dedup <= r.dedup
    requires job.pub != NO_PUBLISH_ID ==> (job.pub, job.client) !in s.redis.dedup && (job.pub, job.client) in r.dedup
    ensures Inv(SetProc(s, pid, Finished(Queued(id)))
                .(redis := r, live := s.live[(job.pub, job.client) := Live(s, job.pub, job.client) + 1]))
  {
    var t := SetProc(s, pid, Finished(Queued(id)))
             .(redis := r, live := s.live[(job.pub, job.client) := Live(s, job.pub, job.client) + 1]);
    WorkersAfter(s, t, pid);
    CommitLive(s, t, job);
    assert CacheOk(t);
  }

  lemma CommitLive(s: System, t: System, job: Job)
    requires LiveOk(s) && s.redis.dedup <= t.redis.dedup
    requires job.pub != NO_PUBLISH_ID ==>
               (job.pub, job.client) !in s.redis.dedup && (job.pub, job.client) in t.redis.dedup
    requires t.live == s.live[(job.pub, job.client) := Live(s, job.pub, job.client) + 1]
    ensures LiveOk(t)
  {
    forall q: PublishId, c | q != NO_PUBLISH_ID
      ensures Live(t, q, c) <= 1 && (Live(t, q, c) == 1 ==> (q, c) in t.redis.dedup)
    {
      assert Live(s, q, c) <= 1 && (Live(s, q, c) == 1 ==> (q, c) in s.redis.dedup);
    }
  }

  // ---------------------------------------------------------------- fenced mutations

  lemma FencedGuarantee(r: Redis, c: Client, op: Mutation)
    requires StoreOk(r) && ValidMessage(op.m)
    ensures Guarantee(r, Fenced(r, c, op, Schema(r)).0) && StoreOk(Fenced(r, c, op, Schema(r)).0)
    ensures Fenced(r, c, op, Schema(r)).0.dedup == r.dedup
    ensures Fenced(r, c, op, Schema(r)).1.Finished? && Fenced(r, c, op, Schema(r)).1.outcome != ChangedRepeatedly
  {
    GuaranteeRefl(r);
    match op
    case Write(m) => PutGuarantee(r, c, m);
    case Insert(m) => PutGuarantee(r, c, m);
    case Delete(m, dropped) => RemoveGuarantee(r, c, DeleteFields(Schema(r), m, dropped));
  }

  lemma LiveKept(s: System, t: System)
    requires LiveOk(s) && t.live == s.live && s.redis.dedup <= t.redis.dedup
    ensures LiveOk(t)
  {
    forall q: PublishId, c | q != NO_PUBLISH_ID
      ensures Live(t, q, c) <= 1 && (Live(t, q, c) == 1 ==> (q, c) in t.redis.dedup)
    {
      assert Live(s, q, c) <= 1 && (Live(s, q, c) == 1 ==> (q, c) in s.redis.dedup);
    }
  }

  lemma MutationTurnInv(s: System, pid: Pid)
    requires Inv(s) && pid in s.workers && s.workers[pid].node in s.mode
    requires s.workers[pid].proc.Trying? || s.workers[pid].proc.Rejected?
    ensures Guarantee(s.redis, MutationTurn(s, pid).redis)
    ensures Inv(MutationTurn(s, pid))
  {
    var w := s.workers[pid];
    var t := MutationTurn(s, pid);
    assert ProcOk(s.redis, w.proc);
    GuaranteeRefl(s.redis);
    if w.proc.Trying? && Schema(s.redis) == w.proc.schema {
      FencedGuarantee(s.redis, w.proc.client, w.proc.op);
    }
    assert t.workers == s.workers[pid := t.workers[pid]];
    WorkersAfter(s, t, pid);
    LiveKept(s, t);
  }

  // ---------------------------------------------------------------- activation and migration

  lemma OtherTurnInv(s: System, pid: Pid)
    requires Inv(s) && pid in s.workers && s.workers[pid].node in s.mode
    requires s.workers[pid].proc.Activating? || s.workers[pid].proc.Migrating?
    ensures Guarantee(s.redis, OtherTurn(s, pid).redis)
    ensures Inv(OtherTurn(s, pid))
  {
    var w := s.workers[pid];
    var t := OtherTurn(s, pid);
    assert ProcOk(s.redis, w.proc);
    GuaranteeRefl(s.redis);
    if w.proc.Activating? {
      SetMarkerGuarantee(s.redis, DIRECTIONAL);
    } else {
      MigrateTurn(s.redis, w.proc.client, w.proc.todo);
    }
    assert t.workers == s.workers[pid := t.workers[pid]];
    WorkersAfter(s, t, pid);
    LiveKept(s, t);
  }

  /** A migration step uses a target computed from an old read, which is still right. */
  lemma MigrateTurn(r: Redis, c: Client, todo: seq<(Field, Message)>)
    requires StoreOk(r) && MigratingOk(r, c, todo)
    ensures todo != [] ==>
              var h := Rows(r, c);
              var r' := if todo[0].0 in h then PutRows(r, c, MigrateField(h, todo[0].0, FieldKey(todo[0].1))) else r;
              && Guarantee(r, r') && StoreOk(r') && r'.dedup == r.dedup
              && MigratingOk(r', c, todo[1..])
  {
    GuaranteeRefl(r);
    if todo != [] && todo[0].0 in Rows(r, c) {
      MigrateGuarantee(r, c, todo[0].0);
      var r' := PutRows(r, c, MigrateField(Rows(r, c), todo[0].0, FieldKey(todo[0].1)));
      assert NoNewNumeric(r, r');
    }
  }

  // ---------------------------------------------------------------- the environment

  lemma SpawnInv(s: System, t: System, pid: Pid, w: Worker)
    requires Inv(s) && pid !in s.workers && w.node in s.mode && ProcOk(s.redis, w.proc)
    requires t == s.(workers := s.workers[pid := w], cache := t.cache) && CacheOk(t)
    ensures Inv(t)
  {
    GuaranteeRefl(s.redis);
    WorkersAfter(s, t, pid);
  }

  lemma SpawnMutationInv(s: System, pid: Pid, node: Node, client: Client, op: Mutation)
    requires Inv(s)
    ensures var t := Environment(s, SpawnMutation(pid, node, client, op)); t.redis == s.redis && Inv(t)
  {
    var t := Environment(s, SpawnMutation(pid, node, client, op));
    if CanSpawn(s, pid, node) && t != s {
      assert s.mode[node] in {AUTO, LEGACY, DIRECTIONAL} && s.cache[node] in {LEGACY, DIRECTIONAL};
      SpawnInv(s, t, pid, t.workers[pid]);
    }
  }

  lemma SpawnsInv(s: System, a: Action)
    requires Inv(s) && (a.SpawnEnqueue? || a.SpawnActivate? || a.SpawnMigrate?)
    ensures Environment(s, a).redis == s.redis && Inv(Environment(s, a))
  {
    var t := Environment(s, a);
    if CanSpawn(s, a.pid, a.node) && t != s {
      assert s.cache[a.node] == DIRECTIONAL ==> Schema(s.redis) == DIRECTIONAL;
      SpawnInv(s, t, a.pid, t.workers[a.pid]);
    }
  }

  lemma RedisOnlyInv(s: System, t: System)
    requires Inv(s) && t == s.(redis := t.redis, live := t.live)
    requires Guarantee(s.redis, t.redis) && StoreOk(t.redis) && LiveOk(t)
    ensures Inv(t)
  {
    WorkersKept(s, t);
  }

  lemma EndSessionInv(s: System, c: Client)
    requires Inv(s)
    ensures Guarantee(s.redis, Environment(s, EndSession(c)).redis) && Inv(Environment(s, EndSession(c)))
  {
    var r := s.redis;
    GuaranteeRefl(r);
    var r1 := if c in r.hashes then PutRows(r, c, map[]) else r;
    PutRowsGuarantee(r, c, map[]);
    var t := Environment(s, EndSession(c));
    if c in r.counters {
      DropCounterGuarantee(r1, c);
      GuaranteeTrans(r, r1, t.redis);
    }
    LiveKept(s, t);
    RedisOnlyInv(s, t);
  }

  lemma StartNodeInv(s: System, node: Node, wanted: nat)
    requires Inv(s)
    ensures var t := Environment(s, StartNode(node, wanted)); t.redis == s.redis && Inv(t)
  {
    GuaranteeRefl(s.redis);
    WorkersKept(s, Environment(s, StartNode(node, wanted)));
  }

  lemma CrashInv(s: System, pid: Pid)
    requires Inv(s)
    ensures var t := Environment(s, Crash(pid)); t.redis == s.redis && Inv(t)
  {
    GuaranteeRefl(s.redis);
    WorkersKept(s, Environment(s, Crash(pid)));
  }

  lemma MarksInv(s: System, a: Action)
    requires Inv(s) && (a.OperatorMarks? || a.MarkDelivered?)
    ensures Guarantee(s.redis, Environment(s, a).redis) && Inv(Environment(s, a))
  {
    var t := Environment(s, a);
    GuaranteeRefl(s.redis);
    if t.redis != s.redis {
      if a.OperatorMarks? {
        SetMarkerGuarantee(s.redis, LEGACY);
      } else {
        SetDedupGuarantee(s.redis, a.pub, a.client);
      }
    }
    LiveKept(s, t);
    RedisOnlyInv(s, t);
  }

  lemma EnvironmentInv(s: System, a: Action)
    requires Inv(s)
    ensures Guarantee(s.redis, Environment(s, a).redis) && Inv(Environment(s, a))
  {
    GuaranteeRefl(s.redis);
    match a
    case StartNode(node, wanted) => StartNodeInv(s, node, wanted);
    case SpawnEnqueue(_, _, _) => SpawnsInv(s, a);
    case SpawnMutation(pid, node, client, op) => SpawnMutationInv(s, pid, node, client, op);
    case SpawnActivate(_, _) => SpawnsInv(s, a);
    case SpawnMigrate(_, _, _, _) => SpawnsInv(s, a);
    case Turn(_) =>
    case Crash(pid) => CrashInv(s, pid);
    case OperatorMarks => MarksInv(s, a);
    case ExpireDedup(p, c, touch) => ExpireInv(s, p, c, touch);
    case MarkDelivered(p, c) => MarksInv(s, a);
    case EndSession(c) => EndSessionInv(s, c);
  }

  lemma ExpireInv(s: System, p: PublishId, c: Client, touch: bool)
    requires Inv(s)
    ensures var t := Environment(s, ExpireDedup(p, c, touch)); Guarantee(s.redis, t.redis) && Inv(t)
  {
    var t := Environment(s, ExpireDedup(p, c, touch));
    GuaranteeRefl(s.redis);
    ExpireGuarantee(s.redis, p, c, touch);
    forall q: PublishId, d | q != NO_PUBLISH_ID
      ensures Live(t, q, d) <= 1 && (Live(t, q, d) == 1 ==> (q, d) in t.redis.dedup)
    {
      assert Live(s, q, d) <= 1 && (Live(s, q, d) == 1 ==> (q, d) in s.redis.dedup);
    }
    RedisOnlyInv(s, t);
  }

  /** Every step of every process keeps the invariant and the guarantee. */
  lemma StepInv(s: System, a: Action)
    requires Inv(s)
    ensures Guarantee(s.redis, Step(s, a).redis) && Inv(Step(s, a))
  {
    GuaranteeRefl(s.redis);
    if !a.Turn? {
      EnvironmentInv(s, a);
    } else if a.pid in s.workers && s.workers[a.pid].node in s.mode {
      var p := s.workers[a.pid].proc;
      if p.Trying? || p.Rejected? {
        MutationTurnInv(s, a.pid);
      } else if p.Activating? || p.Migrating? {
        OtherTurnInv(s, a.pid);
      } else if !p.Ready? {
        EnqueueReads(s, a.pid);
      } else if Unchanged(s.redis, p.job, p.watched) {
        EnqueueCommits(s, a.pid);
      } else {
        EnqueueAborts(s, a.pid);
      }
    }
  }
}
