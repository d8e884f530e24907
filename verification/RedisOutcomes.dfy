/**
 Why a process ends the way it does, in every interleaving, and what an enqueue that nobody
 disturbs achieves.
 */
module RedisOutcomes {
  import opened PacketIds
  import opened InflightStore
  import opened RedisProtocol
  import opened RedisProtocolProofs
  import opened RedisProtocolTheorems

  // ---------------------------------------------------------------- nodes with a fixed mode

  /** What a process of a node started with this mode can be doing; an enqueue has attempts left until it starts over. */
  predicate Fits(mode: nat, p: Proc) {
    match p
    case Starting(_, attempt) => attempt <= MAX_ATTEMPTS
    case Watching(_, attempt, _) => attempt < MAX_ATTEMPTS
    case HasSchema(_, attempt, _, _) => attempt < MAX_ATTEMPTS
    case NotDelivered(_, attempt, _, _) => attempt < MAX_ATTEMPTS
    case HasCounter(_, attempt, _, _, _) => attempt < MAX_ATTEMPTS
    case Ready(_, attempt, _, _, _, _) => attempt < MAX_ATTEMPTS
    case Trying(_, _, _, schema) => mode != AUTO ==> schema == mode
    case Rejected(_, _, _) => mode == AUTO
    case Activating => mode == AUTO
    case _ => true
  }

  /** A node with a fixed mode never caches another schema. */
  ghost predicate CachesFit(s: System) {
    forall n :: n in s.mode ==> n in s.cache && (s.mode[n] != AUTO ==> s.cache[n] == s.mode[n])
  }

  ghost predicate WorkerFits(s: System, pid: Pid)
    requires pid in s.workers
  {
    s.workers[pid].node in s.mode && Fits(s.mode[s.workers[pid].node], s.workers[pid].proc)
  }

  ghost predicate AllFit(s: System) {
    CachesFit(s) && forall pid :: pid in s.workers ==> WorkerFits(s, pid)
  }

  lemma OneMoves(s: System, t: System, pid: Pid)
    requires AllFit(s) && CachesFit(t) && s.mode.Keys <= t.mode.Keys && forall n :: n in s.mode ==> t.mode[n] == s.mode[n]
    requires forall q :: q in t.workers && q != pid ==> q in s.workers && t.workers[q] == s.workers[q]
    requires pid in t.workers ==> WorkerFits(t, pid)
    ensures AllFit(t)
  {
    forall q | q in t.workers ensures WorkerFits(t, q) {
      if q != pid { assert WorkerFits(s, q); }
    }
  }

  lemma EnqueueFits(s: System, pid: Pid)
    requires AllFit(s) && pid in s.workers && s.workers[pid].node in s.mode
    requires var p := s.workers[pid].proc; !p.Trying? && !p.Rejected? && !p.Activating? && !p.Migrating?
    ensures AllFit(EnqueueTurn(s, pid))
  {
    assert WorkerFits(s, pid);
    OneMoves(s, EnqueueTurn(s, pid), pid);
  }

  lemma MutationFits(s: System, pid: Pid)
    requires AllFit(s) && pid in s.workers && s.workers[pid].node in s.mode
    ensures AllFit(MutationTurn(s, pid))
  {
    assert WorkerFits(s, pid);
    var t := MutationTurn(s, pid);
    if s.workers[pid].proc.Trying? {
      TryingFits(s, pid);
    } else if s.workers[pid].proc.Rejected? {
      assert t.workers == s.workers[pid := t.workers[pid]];
      OneMoves(s, t, pid);
    }
  }

  lemma TryingFits(s: System, pid: Pid)
    requires AllFit(s) && pid in s.workers && s.workers[pid].node in s.mode && s.workers[pid].proc.Trying?
    ensures AllFit(MutationTurn(s, pid))
  {
    var t := MutationTurn(s, pid);
    assert t.workers == s.workers[pid := t.workers[pid]] && t.cache == s.cache && t.mode == s.mode;
    OneMoves(s, t, pid);
  }

  lemma OtherFits(s: System, pid: Pid)
    requires AllFit(s) && pid in s.workers && s.workers[pid].node in s.mode
    ensures AllFit(OtherTurn(s, pid))
  {
    assert WorkerFits(s, pid);
    OneMoves(s, OtherTurn(s, pid), pid);
  }

  lemma SpawnFits(s: System, a: Action)
    requires AllFit(s) && (a.SpawnEnqueue? || a.SpawnActivate? || a.SpawnMigrate?)
    ensures AllFit(Environment(s, a))
  {
    var t := Environment(s, a);
    if t != s { OneMoves(s, t, a.pid); }
  }

  lemma SpawnMutationFits(s: System, a: Action)
    requires AllFit(s) && a.SpawnMutation?
    ensures AllFit(Environment(s, a))
  {
    var t := Environment(s, a);
    if t != s {
      assert t.workers == s.workers[a.pid := t.workers[a.pid]] && t.mode == s.mode;
      OneMoves(s, t, a.pid);
    }
  }

  lemma EnvironmentFits(s: System, a: Action)
    requires AllFit(s)
    ensures AllFit(Environment(s, a))
  {
    if a.SpawnEnqueue? || a.SpawnActivate? || a.SpawnMigrate? {
      SpawnFits(s, a);
    } else if a.SpawnMutation? {
      SpawnMutationFits(s, a);
    } else if a.Crash? {
      OneMoves(s, Environment(s, a), a.pid);
    } else {
      forall q | q in Environment(s, a).workers ensures WorkerFits(Environment(s, a), q) { assert WorkerFits(s, q); }
    }
  }

  lemma StepFits(s: System, a: Action)
    requires AllFit(s)
    ensures AllFit(Step(s, a))
  {
    if !a.Turn? {
      EnvironmentFits(s, a);
    } else if a.pid in s.workers && s.workers[a.pid].node in s.mode {
      var p := s.workers[a.pid].proc;
      if p.Trying? || p.Rejected? {
        MutationFits(s, a.pid);
      } else if p.Activating? || p.Migrating? {
        OtherFits(s, a.pid);
      } else {
        EnqueueFits(s, a.pid);
      }
    }
  }

  lemma {:induction false} RunFits(s: System, actions: seq<Action>)
    requires AllFit(s)
    ensures AllFit(Run(s, actions))
    decreases |actions|
  {
    if actions != [] {
      StepFits(s, actions[0]);
      RunFits(Step(s, actions[0]), actions[1..]);
    }
  }

  // ---------------------------------------------------------------- why a process ends

  /** The process's next turn ends it with this outcome. */
  ghost predicate EndsAs(s: System, pid: Pid, o: Outcome) {
    && pid in s.workers && !s.workers[pid].proc.Finished?
    && pid in Step(s, Turn(pid)).workers && Step(s, Turn(pid)).workers[pid].proc == Finished(o)
  }

  /** No id is free under the schema. */
  ghost predicate NoneFree(h: Hash, schema: nat) {
    forall id :: 1 <= id <= MAX_ID ==> Blocked(h, schema, id)
  }

  /** The count shortcut, used by an enqueue that read schema 1 before the activation. */
  ghost predicate StaleCount(r: Redis, schema: nat, h: Hash) {
    schema == LEGACY && Schema(r) == DIRECTIONAL && |h| >= MAX_ID
  }

  ghost predicate FixedElsewhere(s: System, node: Node) {
    node in s.mode && s.mode[node] != AUTO && s.mode[node] != Schema(s.redis)
  }

  /** The grounds for an outcome. */
  ghost predicate Grounds(s: System, pid: Pid, o: Outcome)
    requires pid in s.workers
  {
    var r, p, node := s.redis, s.workers[pid].proc, s.workers[pid].node;
    match o
    case Queued(id) => AboutToCommit(s, pid) && id == CounterId(p.next)
    case Duplicate => p.HasSchema? && p.job.pub != NO_PUBLISH_ID && (p.job.pub, p.job.client) in r.dedup
    case QuotaReached =>
      p.HasCounter? && (NoneFree(Rows(r, p.job.client), p.schema) || StaleCount(r, p.schema, Rows(r, p.job.client)))
    case Contention => p.Starting? && p.attempt == MAX_ATTEMPTS
    case Applied => (p.Trying? && p.schema == Schema(r) && !Refused(r, p)) || p.Activating?
    case IdInUse => p.Trying? && p.schema == Schema(r) && Refused(r, p)
    case ModeConflict => (p.Watching? || p.Trying?) && FixedElsewhere(s, node)
    case Migrated => p.Migrating? && p.todo == []
    case ChangedRepeatedly => false
    case NotActivated => false
  }

  /** An insert whose field is taken. */
  ghost predicate Refused(r: Redis, p: Proc)
    requires p.Trying?
  {
    p.op.Insert? && WriteField(p.schema, p.op.m) in Rows(r, p.client)
  }

  lemma QuotaIff(r: Redis, p: Proc)
    requires StoreOk(r) && p.HasCounter? && ProcOk(r, p)
    ensures NextOffline(Rows(r, p.job.client), p.counter, p.schema) == 0
       <==> NoneFree(Rows(r, p.job.client), p.schema) || StaleCount(r, p.schema, Rows(r, p.job.client))
  {
    var h := Rows(r, p.job.client);
    assert HashOk(Schema(r), h);
    if p.schema == DIRECTIONAL {
      DirectionalExhaustedIffFull(h, p.counter);
    } else {
      LegacyExhaustedIff(h, p.counter);
      NumericFullIff(h);
      if Schema(r) == LEGACY { LegacyExhaustedIffFull(h, p.counter); }
    }
  }

  /** A read ends the enqueue on these grounds. */
  lemma ReadEnds(r: Redis, mode: nat, p: Proc, o: Outcome)
    requires StoreOk(r) && ProcOk(r, p) && Fits(mode, p)
    requires p.Starting? || p.Watching? || p.HasSchema? || p.NotDelivered? || p.HasCounter?
    ensures ReadStep(r, mode, p) == Finished(o) <==>
            || (o == Contention && p.Starting? && p.attempt == MAX_ATTEMPTS)
            || (o == ModeConflict && p.Watching? && mode != AUTO && mode != Schema(r))
            || (o == Duplicate && p.HasSchema? && p.job.pub != NO_PUBLISH_ID && (p.job.pub, p.job.client) in r.dedup)
            || (o == QuotaReached && p.HasCounter?
                && (NoneFree(Rows(r, p.job.client), p.schema) || StaleCount(r, p.schema, Rows(r, p.job.client))))
  {
    if p.HasCounter? { QuotaIff(r, p); }
  }

  lemma EnqueueEnds(s: System, pid: Pid, o: Outcome)
    requires Inv(s) && AllFit(s) && pid in s.workers
    requires var p := s.workers[pid].proc; !p.Trying? && !p.Rejected? && !p.Activating? && !p.Migrating? && !p.Finished?
    ensures EndsAs(s, pid, o) <==> Grounds(s, pid, o)
  {
    var p := s.workers[pid].proc;
    assert ProcOk(s.redis, p) && WorkerFits(s, pid);
    if !p.Ready? { ReadEnds(s.redis, s.mode[s.workers[pid].node], p, o); }
  }

  lemma TryingEnds(s: System, pid: Pid, o: Outcome)
    requires Inv(s) && AllFit(s) && pid in s.workers && s.workers[pid].proc.Trying?
    ensures EndsAs(s, pid, o) <==> Grounds(s, pid, o)
  {
    var p := s.workers[pid].proc;
    assert WorkerFits(s, pid);
    if Schema(s.redis) == p.schema {
      assert Step(s, Turn(pid)).workers[pid].proc == Fenced(s.redis, p.client, p.op, p.schema).1;
    }
  }

  lemma RejectedEnds(s: System, pid: Pid, o: Outcome)
    requires Inv(s) && pid in s.workers && s.workers[pid].proc.Rejected?
    ensures !EndsAs(s, pid, o) && !Grounds(s, pid, o)
  {
    assert ProcOk(s.redis, s.workers[pid].proc);
  }

  lemma OtherEnds(s: System, pid: Pid, o: Outcome)
    requires AllFit(s) && pid in s.workers && (s.workers[pid].proc.Activating? || s.workers[pid].proc.Migrating?)
    ensures EndsAs(s, pid, o) <==> Grounds(s, pid, o)
  {
    assert WorkerFits(s, pid);
  }

  /** In every run, a process's turn ends it with an outcome exactly on these grounds. */
  lemma EndsIff(start: System, actions: seq<Action>, pid: Pid, o: Outcome)
    requires Initial(start) && var s := Run(start, actions); pid in s.workers && !s.workers[pid].proc.Finished?
    ensures EndsAs(Run(start, actions), pid, o) <==> Grounds(Run(start, actions), pid, o)
  {
    InitialInv(start);
    RunInv(start, actions);
    RunFits(start, actions);
    EndsFrom(Run(start, actions), pid, o);
  }

  lemma EndsFrom(s: System, pid: Pid, o: Outcome)
    requires Inv(s) && AllFit(s) && pid in s.workers && !s.workers[pid].proc.Finished?
    ensures EndsAs(s, pid, o) <==> Grounds(s, pid, o)
  {
    var p := s.workers[pid].proc;
    if p.Trying? {
      TryingEnds(s, pid, o);
    } else if p.Rejected? {
      RejectedEnds(s, pid, o);
    } else if p.Activating? || p.Migrating? {
      OtherEnds(s, pid, o);
    } else {
      EnqueueEnds(s, pid, o);
    }
  }

  // ---------------------------------------------------------------- contention

  predicate Enqueueing(p: Proc) {
    p.Starting? || p.Watching? || p.HasSchema? || p.NotDelivered? || p.HasCounter? || p.Ready?
  }

  /** The action is an EXEC of this process that aborts. */
  ghost predicate Aborts(s: System, a: Action, pid: Pid) {
    && a == Turn(pid) && pid in s.workers && s.workers[pid].node in s.mode && s.workers[pid].proc.Ready?
    && !Unchanged(s.redis, s.workers[pid].proc.job, s.workers[pid].proc.watched)
  }

  /** The process's aborted EXECs since it was last spawned. */
  ghost function AbortCount(s: System, actions: seq<Action>, pid: Pid): nat
    decreases |actions|
  {
    if actions == [] then 0
    else
      var before, last := actions[..|actions| - 1], actions[|actions| - 1];
      if pid !in Run(s, before).workers then 0
      else AbortCount(s, before, pid) + if Aborts(Run(s, before), last, pid) then 1 else 0
  }

  lemma {:induction false} RunSnoc(s: System, actions: seq<Action>)
    requires actions != []
    ensures Run(s, actions) == Step(Run(s, actions[..|actions| - 1]), actions[|actions| - 1])
    decreases |actions|
  {
    if |actions| == 1 {
      assert actions[1..] == [] && actions[..0] == [];
    } else {
      RunSnoc(Step(s, actions[0]), actions[1..]);
      assert actions[1..][..|actions| - 2] == actions[..|actions| - 1][1..];
    }
  }

  lemma EnqueueAttempt(s: System, pid: Pid)
    requires Inv(s) && pid in s.workers && s.workers[pid].node in s.mode && Enqueueing(s.workers[pid].proc)
    ensures var p, t := s.workers[pid].proc, EnqueueTurn(s, pid);
            pid in t.workers && (Enqueueing(t.workers[pid].proc) ==>
              t.workers[pid].proc.attempt == p.attempt + if Aborts(s, Turn(pid), pid) then 1 else 0)
  {
    assert ProcOk(s.redis, s.workers[pid].proc);
  }

  lemma MutationNeverEnqueues(s: System, pid: Pid)
    requires pid in s.workers && s.workers[pid].node in s.mode && !Enqueueing(s.workers[pid].proc)
    ensures pid in MutationTurn(s, pid).workers && !Enqueueing(MutationTurn(s, pid).workers[pid].proc)
    ensures pid in OtherTurn(s, pid).workers && !Enqueueing(OtherTurn(s, pid).workers[pid].proc)
  {
  }

  lemma TurnAttempt(s: System, pid: Pid)
    requires Inv(s) && pid in s.workers
    requires pid in Step(s, Turn(pid)).workers && Enqueueing(Step(s, Turn(pid)).workers[pid].proc)
    ensures var p, q := s.workers[pid].proc, Step(s, Turn(pid)).workers[pid].proc;
            Enqueueing(p) && q.attempt == p.attempt + if Aborts(s, Turn(pid), pid) then 1 else 0
  {
    if Enqueueing(s.workers[pid].proc) { EnqueueAttempt(s, pid); } else { MutationNeverEnqueues(s, pid); }
  }

  lemma OtherTurnKeeps(s: System, a: Action, pid: Pid)
    requires a.Turn? && a.pid != pid
    ensures pid in Step(s, a).workers <==> pid in s.workers
    ensures pid in s.workers ==> Step(s, a).workers[pid] == s.workers[pid]
  {
  }

  lemma OtherAttempt(s: System, a: Action, pid: Pid)
    requires a != Turn(pid) && pid in Step(s, a).workers && Enqueueing(Step(s, a).workers[pid].proc)
    ensures pid in s.workers ==> Step(s, a).workers[pid] == s.workers[pid]
    ensures pid !in s.workers ==> Step(s, a).workers[pid].proc.attempt == 0
  {
    if a.Turn? { OtherTurnKeeps(s, a, pid); }
  }

  lemma {:induction false} AttemptsCounted(start: System, actions: seq<Action>, pid: Pid)
    requires Initial(start) && var s := Run(start, actions); pid in s.workers && Enqueueing(s.workers[pid].proc)
    ensures Run(start, actions).workers[pid].proc.attempt == AbortCount(start, actions, pid)
    decreases |actions|
  {
    if actions != [] {
      var before, last := actions[..|actions| - 1], actions[|actions| - 1];
      var u := Run(start, before);
      RunSnoc(start, actions);
      InitialInv(start);
      RunInv(start, before);
      if last == Turn(pid) {
        TurnAttempt(u, pid);
        AttemptsCounted(start, before, pid);
      } else {
        OtherAttempt(u, last, pid);
        if pid in u.workers { AttemptsCounted(start, before, pid); }
      }
    }
  }

  /** In every run an enqueue gives up for contention only after exactly 32 aborted EXECs of its own. */
  lemma ContentionAfterAborts(start: System, actions: seq<Action>, pid: Pid)
    requires Initial(start) && EndsAs(Run(start, actions), pid, Contention)
    ensures AbortCount(start, actions, pid) == 32
  {
    EndsIff(start, actions, pid, Contention);
    AttemptsCounted(start, actions, pid);
  }

  // ---------------------------------------------------------------- an enqueue that nobody disturbs

  /** How an enqueue ends when it is left alone. */
  ghost function AloneOutcome(r: Redis, mode: nat, job: Job): Outcome {
    var next := NextOffline(Rows(r, job.client), CounterOf(r, job.client), Schema(r));
    if !ModeAllows(mode, Schema(r)) then ModeConflict
    else if job.pub != NO_PUBLISH_ID && (job.pub, job.client) in r.dedup then Duplicate
    else if next == 0 then QuotaReached
    else Queued(CounterId(next))
  }

  ghost function AloneRedis(r: Redis, mode: nat, job: Job): Redis {
    var next := NextOffline(Rows(r, job.client), CounterOf(r, job.client), Schema(r));
    if AloneOutcome(r, mode, job).Queued? then Commit(r, job, Schema(r), next) else r
  }

  function Turns(pid: Pid, n: nat): (actions: seq<Action>)
    ensures |actions| == n && forall i :: 0 <= i < n ==> actions[i] == Turn(pid)
  {
    seq(n, i => Turn(pid))
  }

  /** Once finished, a process stays as it is, and so does Redis. */
  lemma {:induction false} FinishedRests(s: System, pid: Pid, n: nat)
    requires pid in s.workers && s.workers[pid].node in s.mode && s.workers[pid].proc.Finished?
    ensures var t := Run(s, Turns(pid, n)); t.redis == s.redis && pid in t.workers && t.workers[pid] == s.workers[pid]
    decreases n
  {
    if n > 0 {
      var t := Step(s, Turn(pid));
      assert Turns(pid, n)[1..] == Turns(pid, n - 1);
      FinishedRests(t, pid, n - 1);
    }
  }

  /** One read of an enqueue: only this process and the node's cache change. */
  lemma OneRead(s: System, pid: Pid, n: nat)
    requires n > 0 && pid in s.workers && s.workers[pid].node in s.mode && Enqueueing(s.workers[pid].proc) && !s.workers[pid].proc.Ready?
    ensures var t := Step(s, Turn(pid)); var w := s.workers[pid];
            && t.redis == s.redis && t.mode == s.mode && pid in t.workers
            && t.workers[pid] == Worker(w.node, ReadStep(s.redis, s.mode[w.node], w.proc))
            && Run(s, Turns(pid, n)) == Run(t, Turns(pid, n - 1))
  {
    assert Turns(pid, n)[1..] == Turns(pid, n - 1);
  }

  lemma LastTurn(s: System, pid: Pid)
    requires pid in s.workers && s.workers[pid].node in s.mode && s.workers[pid].proc.Ready?
    requires var p := s.workers[pid].proc; p.next > 0 && p.watched == Watch(s.redis, p.job)
    ensures var t, p := Run(s, Turns(pid, 1)), s.workers[pid].proc;
            && t.redis == Commit(s.redis, p.job, p.schema, p.next)
            && pid in t.workers && t.workers[pid].proc == Finished(Queued(CounterId(p.next)))
  {
    assert Turns(pid, 1)[1..] == [] && Turns(pid, 1)[0] == Turn(pid);
    assert Run(s, Turns(pid, 1)) == Run(Step(s, Turn(pid)), []);
  }

  /** From the counter read on. */
  lemma AloneFromCounter(s: System, pid: Pid, job: Job)
    requires pid in s.workers && s.workers[pid].node in s.mode && ModeAllows(s.mode[s.workers[pid].node], Schema(s.redis))
    requires s.workers[pid].proc == NotDelivered(job, 0, Watch(s.redis, job), Schema(s.redis))
    requires job.pub != NO_PUBLISH_ID ==> (job.pub, job.client) !in s.redis.dedup
    ensures var t, mode := Run(s, Turns(pid, 3)), s.mode[s.workers[pid].node];
            && t.redis == AloneRedis(s.redis, mode, job)
            && pid in t.workers && t.workers[pid].proc == Finished(AloneOutcome(s.redis, mode, job))
  {
    OneRead(s, pid, 3);
    var s1 := Step(s, Turn(pid));
    OneRead(s1, pid, 2);
    var s2 := Step(s1, Turn(pid));
    if s2.workers[pid].proc.Finished? { FinishedRests(s2, pid, 1); } else { LastTurn(s2, pid); }
  }

  /** Six turns in a row end the enqueue. */
  lemma EnqueueAlone(s: System, pid: Pid, job: Job)
    requires pid in s.workers && s.workers[pid].node in s.mode && s.workers[pid].proc == Starting(job, 0)
    ensures var t, mode := Run(s, Turns(pid, 6)), s.mode[s.workers[pid].node];
            && t.redis == AloneRedis(s.redis, mode, job)
            && pid in t.workers && t.workers[pid].proc == Finished(AloneOutcome(s.redis, mode, job))
  {
    OneRead(s, pid, 6);
    var s1 := Step(s, Turn(pid));
    OneRead(s1, pid, 5);
    var s2 := Step(s1, Turn(pid));
    if s2.workers[pid].proc.Finished? {
      FinishedRests(s2, pid, 4);
    } else {
      OneRead(s2, pid, 4);
      var s3 := Step(s2, Turn(pid));
      if s3.workers[pid].proc.Finished? { FinishedRests(s3, pid, 3); } else { AloneFromCounter(s3, pid, job); }
    }
  }

  /** The row of a queued message: at the first free id after the counter, under the field of the schema. */
  ghost predicate QueuedRow(r: Redis, r': Redis, job: Job, id: nat) {
    var m, h := Message(Publish, id, job.body), Rows(r, job.client);
    && FirstFreeAfter(h, CounterOf(r, job.client), Schema(r), CounterOf(r', job.client)) && id == CounterId(CounterOf(r', job.client))
    && WriteField(Schema(r), m) !in h && Rows(r', job.client) == h[WriteField(Schema(r), m) := m]
    && (job.pub != NO_PUBLISH_ID ==> (job.pub, job.client) in r'.dedup)
  }

  /** The mode a node was started with. */
  function ModeOf(s: System, node: Node): nat {
    if node in s.mode then s.mode[node] else AUTO
  }

  /** In every run, an enqueue left alone queues its message exactly when the node's mode allows the schema in
      force, the publish has not been delivered to the client, and some id is free. */
  lemma QueuedIff(start: System, actions: seq<Action>, pid: Pid, job: Job)
    requires Initial(start)
    requires var s := Run(start, actions); pid in s.workers && s.workers[pid].proc == Starting(job, 0)
    ensures var s := Run(start, actions);
            var t, mode, h := Run(s, Turns(pid, 6)), ModeOf(s, s.workers[pid].node), Rows(s.redis, job.client);
            && pid in t.workers && t.workers[pid].proc.Finished?
            && ((exists id :: t.workers[pid].proc == Finished(Queued(id)) && QueuedRow(s.redis, t.redis, job, id))
                <==> && (mode == AUTO || mode == Schema(s.redis))
                     && (job.pub == NO_PUBLISH_ID || (job.pub, job.client) !in s.redis.dedup)
                     && !NoneFree(h, Schema(s.redis)))
            && (!t.workers[pid].proc.outcome.Queued? ==> t.redis == s.redis)
  {
    var s := Run(start, actions);
    InitialInv(start);
    RunInv(start, actions);
    var r, mode := s.redis, ModeOf(s, s.workers[pid].node);
    EnqueueAlone(s, pid, job);
    SearchIff(r, job.client);
    if AloneOutcome(r, mode, job).Queued? {
      CommitQueues(r, job);
    }
  }

  lemma SearchIff(r: Redis, c: Client)
    requires StoreOk(r)
    ensures NextOffline(Rows(r, c), CounterOf(r, c), Schema(r)) == 0 <==> NoneFree(Rows(r, c), Schema(r))
  {
    var h := Rows(r, c);
    assert HashOk(Schema(r), h);
    if Schema(r) == DIRECTIONAL {
      DirectionalExhaustedIffFull(h, CounterOf(r, c));
    } else {
      LegacyExhaustedIffFull(h, CounterOf(r, c));
      NumericFullIff(h);
    }
  }

  lemma CommitQueues(r: Redis, job: Job)
    requires StoreOk(r) && NextOffline(Rows(r, job.client), CounterOf(r, job.client), Schema(r)) != 0
    ensures var next := NextOffline(Rows(r, job.client), CounterOf(r, job.client), Schema(r));
            QueuedRow(r, Commit(r, job, Schema(r), next), job, CounterId(next))
  {
    var next := NextOffline(Rows(r, job.client), CounterOf(r, job.client), Schema(r));
    NextOfflineFirst(Rows(r, job.client), CounterOf(r, job.client), Schema(r));
    CommitValues(r, job, Schema(r), next);
  }
}
