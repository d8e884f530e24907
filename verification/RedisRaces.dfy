/** A run in which an enqueue is refused for lack of ids although one is free: the activation overtakes it. */
module RedisRaces {
  import opened PacketIds
  import opened InflightStore
  import opened RedisProtocol
  import opened RedisProtocolProofs
  import opened RedisProtocolTheorems
  import opened RedisOutcomes

  lemma {:induction false} RunAppend(s: System, first: seq<Action>, then_: seq<Action>)
    ensures Run(s, first + then_) == Run(Run(s, first), then_)
    decreases |first|
  {
    if first == [] {
      assert first + then_ == then_;
    } else {
      RunAppend(Step(s, first[0]), first[1..], then_);
      assert (first + then_)[1..] == first[1..] + then_;
    }
  }

  lemma RunBoth(s: System, a: Action, b: Action)
    ensures Run(s, [a, b]) == Step(Step(s, a), b)
  {
    assert [a, b][1..] == [b] && [b][1..] == [];
    assert Run(Step(s, a), [b]) == Run(Step(Step(s, a), b), []);
  }

  /** A hash with a numeric row for every id from 2 to n. */
  lemma {:induction false} NumericRows(n: nat) returns (h: Hash)
    requires 1 <= n <= MAX_ID
    ensures |h| == n - 1 && WellFormed(h) && OnlyNumeric(h)
    ensures forall f :: f in h <==> f.Numeric? && 2 <= f.id <= n
    decreases n
  {
    h := map[];
    if n > 1 {
      h := NumericRows(n - 1);
      h := h[Numeric(n) := Message(Publish, n, "")];
    }
  }

  const NODE: Node := 0
  const ENQUEUE: Pid := 0
  const ACTIVATE: Pid := 1
  const WRITE: Pid := 2

  /** A store under schema 1 with one client's rows. */
  function Store(c: Client, h: Hash): System {
    System(Redis(Set(LEGACY), map[c := h], map[], {}, map[]), map[], map[], map[], map[])
  }

  /** A node starts, and its enqueue reads schema, marker and counter. */
  function Reading(job: Job): seq<Action> {
    [StartNode(NODE, AUTO), SpawnEnqueue(ENQUEUE, NODE, job)] + Turns(ENQUEUE, 4)
  }

  lemma ReadingReaches(c: Client, h: Hash, job: Job)
    requires job.client == c
    ensures var s := Run(Store(c, h), Reading(job));
            && s.redis == Store(c, h).redis && s.mode == map[NODE := AUTO] && s.cache == map[NODE := LEGACY]
            && s.workers == map[ENQUEUE := Worker(NODE, HasCounter(job, 0, Watch(s.redis, job), LEGACY, 0))]
  {
    var s0 := Store(c, h);
    RunAppend(s0, [StartNode(NODE, AUTO), SpawnEnqueue(ENQUEUE, NODE, job)], Turns(ENQUEUE, 4));
    RunBoth(s0, StartNode(NODE, AUTO), SpawnEnqueue(ENQUEUE, NODE, job));
    var s2 := Run(s0, [StartNode(NODE, AUTO), SpawnEnqueue(ENQUEUE, NODE, job)]);
    assert s2 == System(s0.redis, map[NODE := AUTO], map[NODE := LEGACY], map[ENQUEUE := Worker(NODE, Starting(job, 0))], map[]);
    FourReads(s2, job);
  }

  lemma FourReads(s: System, job: Job)
    requires s.mode == map[NODE := AUTO] && s.cache == map[NODE := LEGACY] && s.redis.dedup == {} && Schema(s.redis) == LEGACY
    requires s.workers == map[ENQUEUE := Worker(NODE, Starting(job, 0))] && s.redis.counters == map[]
    ensures var t := Run(s, Turns(ENQUEUE, 4));
            && t.redis == s.redis && t.mode == s.mode && t.cache == s.cache
            && t.workers == map[ENQUEUE := Worker(NODE, HasCounter(job, 0, Watch(s.redis, job), LEGACY, 0))]
  {
    FirstReads(s, job);
    LastReads(s.(workers := map[ENQUEUE := Worker(NODE, HasSchema(job, 0, Watch(s.redis, job), LEGACY))]), job, Watch(s.redis, job));
  }

  lemma FirstReads(s: System, job: Job)
    requires s.mode == map[NODE := AUTO] && s.cache == map[NODE := LEGACY] && Schema(s.redis) == LEGACY
    requires s.workers == map[ENQUEUE := Worker(NODE, Starting(job, 0))]
    ensures Run(s, Turns(ENQUEUE, 4))
         == Run(s.(workers := map[ENQUEUE := Worker(NODE, HasSchema(job, 0, Watch(s.redis, job), LEGACY))]), Turns(ENQUEUE, 2))
  {
    var w := Watch(s.redis, job);
    StartTurn(s, job);
    OneRead(s, ENQUEUE, 4);
    var s1 := s.(workers := map[ENQUEUE := Worker(NODE, Watching(job, 0, w))]);
    SchemaTurn(s1, job, w);
    OneRead(s1, ENQUEUE, 3);
  }

  lemma StartTurn(s: System, job: Job)
    requires s.mode == map[NODE := AUTO] && s.workers == map[ENQUEUE := Worker(NODE, Starting(job, 0))]
    ensures Step(s, Turn(ENQUEUE)) == s.(workers := map[ENQUEUE := Worker(NODE, Watching(job, 0, Watch(s.redis, job)))])
  {
    assert MAX_ATTEMPTS > 0 && ReadStep(s.redis, AUTO, Starting(job, 0)) == Watching(job, 0, Watch(s.redis, job));
  }

  lemma SchemaTurn(s: System, job: Job, w: Watched)
    requires s.mode == map[NODE := AUTO] && s.cache == map[NODE := LEGACY] && Schema(s.redis) == LEGACY
    requires s.workers == map[ENQUEUE := Worker(NODE, Watching(job, 0, w))]
    ensures Step(s, Turn(ENQUEUE)) == s.(workers := map[ENQUEUE := Worker(NODE, HasSchema(job, 0, w, LEGACY))])
  {
    assert s.cache[NODE := LEGACY] == s.cache;
  }

  lemma LastReads(s: System, job: Job, w: Watched)
    requires s.mode == map[NODE := AUTO] && s.redis.dedup == {} && s.redis.counters == map[]
    requires s.workers == map[ENQUEUE := Worker(NODE, HasSchema(job, 0, w, LEGACY))]
    ensures Run(s, Turns(ENQUEUE, 2)) == s.(workers := map[ENQUEUE := Worker(NODE, HasCounter(job, 0, w, LEGACY, 0))])
  {
    OneRead(s, ENQUEUE, 2);
    var s1 := s.(workers := map[ENQUEUE := Worker(NODE, NotDelivered(job, 0, w, LEGACY))]);
    assert Step(s, Turn(ENQUEUE)) == s1;
    OneRead(s1, ENQUEUE, 1);
    var s2 := s.(workers := map[ENQUEUE := Worker(NODE, HasCounter(job, 0, w, LEGACY, 0))]);
    assert Step(s1, Turn(ENQUEUE)) == s2;
    assert Run(s2, Turns(ENQUEUE, 0)) == s2;
  }

  lemma Activates(s: System)
    requires s.mode == map[NODE := AUTO] && NODE in s.cache && s.redis.marker == Set(LEGACY) && s.workers.Keys == {ENQUEUE}
    ensures Run(s, [SpawnActivate(ACTIVATE, NODE), Turn(ACTIVATE)])
         == s.(redis := SetMarker(s.redis, DIRECTIONAL), cache := s.cache[NODE := DIRECTIONAL],
               workers := s.workers[ACTIVATE := Worker(NODE, Finished(Applied))])
  {
    RunBoth(s, SpawnActivate(ACTIVATE, NODE), Turn(ACTIVATE));
    assert Step(s, SpawnActivate(ACTIVATE, NODE)) == s.(workers := s.workers[ACTIVATE := Worker(NODE, Activating)]);
  }

  lemma Writes(s: System, c: Client, m: Message)
    requires s.mode == map[NODE := AUTO] && NODE in s.cache && s.cache[NODE] == DIRECTIONAL == Schema(s.redis) && WRITE !in s.workers
    requires ValidMessage(m)
    ensures Run(s, [SpawnMutation(WRITE, NODE, c, Write(m)), Turn(WRITE)])
         == s.(redis := Put(s.redis, c, FieldKey(m), m), workers := s.workers[WRITE := Worker(NODE, Finished(Applied))])
  {
    RunBoth(s, SpawnMutation(WRITE, NODE, c, Write(m)), Turn(WRITE));
    assert Step(s, SpawnMutation(WRITE, NODE, c, Write(m)))
        == s.(workers := s.workers[WRITE := Worker(NODE, Trying(c, Write(m), 0, DIRECTIONAL))]);
  }

  /** Schema 2 is activated, and an acknowledgement owed to the client is stored under it. */
  lemma ActivateAndWrite(s: System, c: Client, m: Message)
    requires s.mode == map[NODE := AUTO] && NODE in s.cache && s.redis.marker == Set(LEGACY) && s.workers.Keys == {ENQUEUE}
    requires ValidMessage(m) && DirOf(m.kind) == In
    ensures var t := Run(Run(s, [SpawnActivate(ACTIVATE, NODE), Turn(ACTIVATE)]), [SpawnMutation(WRITE, NODE, c, Write(m)), Turn(WRITE)]);
            && Schema(t.redis) == DIRECTIONAL && Rows(t.redis, c) == Rows(s.redis, c)[Directional(In, m.id) := m]
            && ENQUEUE in t.workers && t.workers[ENQUEUE] == s.workers[ENQUEUE]
  {
    Activates(s);
    var s1 := Run(s, [SpawnActivate(ACTIVATE, NODE), Turn(ACTIVATE)]);
    Writes(s1, c, m);
  }

  /** The state in which the shortcut refuses. */
  lemma StaleRefused(s: System, c: Client, h: Hash, m: Message)
    requires Inv(s) && AllFit(s) && Schema(s.redis) == DIRECTIONAL && ENQUEUE in s.workers
    requires s.workers[ENQUEUE].proc.HasCounter? && s.workers[ENQUEUE].proc.schema == LEGACY && s.workers[ENQUEUE].proc.job.client == c
    requires (forall f :: f in h <==> f.Numeric? && 2 <= f.id <= MAX_ID) && |h| == MAX_ID - 1
    requires Rows(s.redis, c) == h[Directional(In, 7) := m]
    ensures EndsAs(s, ENQUEUE, QuotaReached) && !Blocked(Rows(s.redis, c), LEGACY, 1) && !Blocked(Rows(s.redis, c), DIRECTIONAL, 1)
  {
    assert |h[Directional(In, 7) := m]| == MAX_ID;
    assert StaleCount(s.redis, LEGACY, Rows(s.redis, c));
    EndsFrom(s, ENQUEUE, QuotaReached);
  }

  /** The enqueue read schema 1; before it asks for an id, schema 2 is activated and an inbound row brings the
      hash to 65535 rows. The count shortcut refuses it, with id 1 free under either schema. */
  lemma RefusedWithFreeId(job: Job) returns (start: System, actions: seq<Action>)
    ensures Initial(start) && EndsAs(Run(start, actions), ENQUEUE, QuotaReached)
    ensures var h := Rows(Run(start, actions).redis, job.client); !Blocked(h, LEGACY, 1) && !Blocked(h, DIRECTIONAL, 1)
  {
    var c, m := job.client, Message(Pubrec, 7, "");
    var h := NumericRows(MAX_ID);
    start := Store(c, h);
    var activate, write := [SpawnActivate(ACTIVATE, NODE), Turn(ACTIVATE)], [SpawnMutation(WRITE, NODE, c, Write(m)), Turn(WRITE)];
    actions := Reading(job) + activate + write;
    ReadingReaches(c, h, job);
    var s := Run(start, Reading(job));
    RunAppend(start, Reading(job), activate);
    RunAppend(start, Reading(job) + activate, write);
    ActivateAndWrite(s, c, m);
    InitialInv(start);
    RunInv(start, actions);
    RunFits(start, actions);
    StaleRefused(Run(start, actions), c, h, m);
  }
}
