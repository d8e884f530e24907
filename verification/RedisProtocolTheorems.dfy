/** The Redis protocol's guarantees, for every interleaving of every set of processes. */
module RedisProtocolTheorems {
  import opened PacketIds
  import opened InflightStore
  import opened RedisProtocol
  import opened RedisProtocolProofs

  lemma {:induction false} RunInv(s: System, actions: seq<Action>)
    requires Inv(s)
    ensures Inv(Run(s, actions)) && Guarantee(s.redis, Run(s, actions).redis)
    decreases |actions|
  {
    GuaranteeRefl(s.redis);
    if actions != [] {
      StepInv(s, actions[0]);
      RunInv(Step(s, actions[0]), actions[1..]);
      GuaranteeTrans(s.redis, Step(s, actions[0]).redis, Run(s, actions).redis);
    }
  }

  /** The process is about to EXEC and no watched key was touched: this turn commits. */
  ghost predicate AboutToCommit(s: System, pid: Pid) {
    && pid in s.workers && s.workers[pid].node in s.mode
    && s.workers[pid].proc.Ready? && s.workers[pid].proc.next > 0
    && Unchanged(s.redis, s.workers[pid].proc.job, s.workers[pid].proc.watched)
  }

  /** The step added one previously absent row to the job's client and changed no other row of any
      client; the logical row is new too; the counter moved to the id's position; and the dedup
      marker, absent until now, is set. */
  ghost predicate OneRowAdded(s: System, t: System, pid: Pid)
    requires AboutToCommit(s, pid)
  {
    var p := s.workers[pid].proc;
    var m := Message(Publish, CounterId(p.next), p.job.body);
    var f := WriteField(Schema(s.redis), m);
    var h := Rows(s.redis, p.job.client);
    && pid in t.workers && t.workers[pid].proc == Finished(Queued(m.id))
    && f !in h && Rows(t.redis, p.job.client) == h[f := m]
    && (forall c :: c != p.job.client ==> Rows(t.redis, c) == Rows(s.redis, c))
    && (Out, m.id) !in View(h) && View(Rows(t.redis, p.job.client)) == View(h)[(Out, m.id) := m]
    && CounterOf(s.redis, p.job.client) < CounterOf(t.redis, p.job.client) == p.next
    && (p.job.pub != NO_PUBLISH_ID ==>
          (p.job.pub, p.job.client) !in s.redis.dedup && (p.job.pub, p.job.client) in t.redis.dedup)
  }

  /** In every run, a committing enqueue adds exactly one row. */
  lemma CommitAddsOneRow(start: System, actions: seq<Action>, pid: Pid)
    requires Initial(start) && AboutToCommit(Run(start, actions), pid)
    ensures OneRowAdded(Run(start, actions), Step(Run(start, actions), Turn(pid)), pid)
  {
    InitialInv(start);
    RunInv(start, actions);
    CommitFrom(Run(start, actions), pid);
  }

  lemma CommitFrom(s: System, pid: Pid)
    requires Inv(s) && AboutToCommit(s, pid)
    ensures OneRowAdded(s, Step(s, Turn(pid)), pid)
  {
    var p := s.workers[pid].proc;
    assert ProcOk(s.redis, p);
    ReadyFacts(s.redis, p);
    CommitTurn(s, pid);
    CommitValues(s.redis, p.job, p.schema, p.next);
  }

  /** The turn is the transaction. */
  lemma CommitTurn(s: System, pid: Pid)
    requires AboutToCommit(s, pid)
    ensures var p, t := s.workers[pid].proc, Step(s, Turn(pid));
            && t.redis == Commit(s.redis, p.job, p.schema, p.next)
            && pid in t.workers && t.workers[pid].proc == Finished(Queued(CounterId(p.next)))
  {
  }

  lemma CommitValues(r: Redis, job: Job, schema: nat, next: nat)
    requires StoreOk(r) && schema == Schema(r) && next > 0 && NextOffline(Rows(r, job.client), CounterOf(r, job.client), schema) == next
    ensures var m := OfflineMessage(job, CounterId(next));
            var f, h, rows := WriteField(schema, m), Rows(r, job.client), Rows(Commit(r, job, schema, next), job.client);
            && f !in h && rows == h[f := m]
            && (Out, m.id) !in View(h) && View(rows) == View(h)[(Out, m.id) := m]
            && (forall c :: c != job.client ==> Rows(Commit(r, job, schema, next), c) == Rows(r, c))
            && CounterOf(r, job.client) < CounterOf(Commit(r, job, schema, next), job.client) == next
            && (job.pub != NO_PUBLISH_ID ==> (job.pub, job.client) in Commit(r, job, schema, next).dedup)
  {
    var m := OfflineMessage(job, CounterId(next));
    var h := Rows(r, job.client);
    assert HashOk(Schema(r), h);
    EnqueueExtendsView(h, CounterOf(r, job.client), schema, m);
    CommitRows(r, job, schema, next);
  }

  lemma CommitRows(r: Redis, job: Job, schema: nat, next: nat)
    requires next > 0
    ensures var m := OfflineMessage(job, CounterId(next));
            var r' := Commit(r, job, schema, next);
            && Rows(r', job.client) == Rows(r, job.client)[WriteField(schema, m) := m]
            && (forall c :: c != job.client ==> Rows(r', c) == Rows(r, c))
            && CounterOf(r', job.client) == next
            && (job.pub != NO_PUBLISH_ID ==> (job.pub, job.client) in r'.dedup)
  {
  }

  /** Over any run from a fresh start at most one enqueue commits per publish and client while the
      dedup marker lives. */
  lemma AtMostOneCommitPerPublish(s: System, actions: seq<Action>, p: PublishId, c: Client)
    requires Initial(s) && p != NO_PUBLISH_ID
    ensures var t := Run(s, actions); Live(t, p, c) <= 1 && (Live(t, p, c) == 1 ==> (p, c) in t.redis.dedup)
  {
    InitialInv(s);
    RunInv(s, actions);
    assert LiveOk(Run(s, actions));
  }

  /** Only a commit of that publish for that client raises the count, by one. */
  lemma OnlyCommitsCount(s: System, a: Action, p: PublishId, c: Client)
    requires Inv(s) && Live(Step(s, a), p, c) > Live(s, p, c)
    ensures a.Turn? && AboutToCommit(s, a.pid)
    ensures s.workers[a.pid].proc.job.pub == p && s.workers[a.pid].proc.job.client == c
    ensures Live(Step(s, a), p, c) == Live(s, p, c) + 1
  {
    if a.Turn? && a.pid in s.workers { assert ProcOk(s.redis, s.workers[a.pid].proc); }
  }

  /** Once the marker is 2 it stays 2, and no step of any process, however stale its cached
      schema, ever adds or changes a numeric field. */
  lemma ActivationFences(s: System, before: seq<Action>, after: seq<Action>)
    requires Initial(s) && Schema(Run(s, before).redis) == DIRECTIONAL
    ensures var t := Run(s, before);
            Schema(Run(t, after).redis) == DIRECTIONAL && NoNewNumeric(t.redis, Run(t, after).redis)
  {
    InitialInv(s);
    RunInv(s, before);
    RunInv(Run(s, before), after);
  }

  /** Before activation no hash holds a directional field, so the HLEN shortcut only ever counts
      numeric rows. */
  lemma LegacyHashesNumeric(s: System, actions: seq<Action>, c: Client)
    requires Initial(s) && Schema(Run(s, actions).redis) == LEGACY
    ensures OnlyNumeric(Rows(Run(s, actions).redis, c)) && WellFormed(Rows(Run(s, actions).redis, c))
  {
    InitialInv(s);
    RunInv(s, actions);
    assert HashOk(LEGACY, Rows(Run(s, actions).redis, c));
  }

  /** So in every run, while schema 1 is in force, the search fails exactly when no id is free: the hashes on which
      the shortcut errs never arise before activation. */
  lemma ShortcutSoundInEveryRun(s: System, actions: seq<Action>, c: Client)
    requires Initial(s) && Schema(Run(s, actions).redis) == LEGACY
    ensures var r := Run(s, actions).redis;
            NextOffline(Rows(r, c), CounterOf(r, c), LEGACY) == 0 <==> NumericFull(Rows(r, c))
  {
    LegacyHashesNumeric(s, actions, c);
    var r := Run(s, actions).redis;
    LegacyExhaustedIffFull(Rows(r, c), CounterOf(r, c));
  }

  /** The two-attempt retry loops never give up with "changed repeatedly". */
  lemma NeverChangedRepeatedly(s: System, actions: seq<Action>, pid: Pid)
    requires Initial(s) && pid in Run(s, actions).workers
    ensures Run(s, actions).workers[pid].proc != Finished(ChangedRepeatedly)
  {
    InitialInv(s);
    RunInv(s, actions);
    assert ProcOk(Run(s, actions).redis, Run(s, actions).workers[pid].proc);
  }

  /** No migration step, in any interleaving, changes any client's logical rows. */
  lemma MigrationStepPreservesViews(start: System, actions: seq<Action>, pid: Pid, c: Client)
    requires Initial(start)
    requires var s := Run(start, actions); pid in s.workers && s.workers[pid].node in s.mode && s.workers[pid].proc.Migrating?
    ensures var s := Run(start, actions); View(Rows(Step(s, Turn(pid)).redis, c)) == View(Rows(s.redis, c))
  {
    InitialInv(start);
    RunInv(start, actions);
    MigrationFrom(Run(start, actions), pid, c);
  }

  lemma MigrationFrom(s: System, pid: Pid, c: Client)
    requires Inv(s) && pid in s.workers && s.workers[pid].node in s.mode && s.workers[pid].proc.Migrating?
    ensures View(Rows(Step(s, Turn(pid)).redis, c)) == View(Rows(s.redis, c))
  {
    var p := s.workers[pid].proc;
    assert ProcOk(s.redis, p);
    if p.todo != [] && p.todo[0].0 in Rows(s.redis, p.client) {
      assert HashOk(Schema(s.redis), Rows(s.redis, p.client));
      MigrationPreservesView(Rows(s.redis, p.client), p.todo[0].0);
    }
  }
}
