/**
 Processes of any number of gateway nodes working on the same Redis: offline enqueues
 (WATCH / read / EXEC), schema-fenced writes, inserts and deletes with their retry loops,
 schema activation, and field migration. Every Redis command is one step; steps of
 different processes interleave in any order, and a process may stop at any point.
 */
module RedisProtocol {
  import opened PacketIds
  import opened InflightStore

  type Client = string
  type Node = nat
  type Pid = nat
  /** 0 stands for uuid.Nil: no deduplication. */
  type PublishId = nat

  const NO_PUBLISH_ID: nat := 0
  const AUTO: nat := 0
  const MAX_ATTEMPTS: nat := 32

  datatype Key = MarkerKey | HashKey(c: Client) | CounterKey(c: Client) | DedupKey(p: PublishId, c: Client)

  datatype Marker = Absent | Set(schema: nat)

  datatype Redis = Redis(
    marker: Marker,
    hashes: map<Client, Hash>,
    counters: map<Client, nat>,
    dedup: set<(PublishId, Client)>,
    versions: map<Key, nat>)

  function Ver(r: Redis, k: Key): nat {
    if k in r.versions then r.versions[k] else 0
  }

  function Touch(r: Redis, k: Key): Redis {
    r.(versions := r.versions[k := Ver(r, k) + 1])
  }

  function Rows(r: Redis, c: Client): Hash {
    if c in r.hashes then r.hashes[c] else map[]
  }

  function CounterOf(r: Redis, c: Client): nat {
    if c in r.counters then r.counters[c] else 0
  }

  /** An absent marker means schema 1. */
  function Schema(r: Redis): nat {
    if r.marker.Set? && r.marker.schema == DIRECTIONAL then DIRECTIONAL else LEGACY
  }

  // ---------------------------------------------------------------- commands that write

  function PutRows(r: Redis, c: Client, h: Hash): Redis {
    Touch(r.(hashes := r.hashes[c := h]), HashKey(c))
  }

  function Put(r: Redis, c: Client, f: Field, m: Message): Redis {
    PutRows(r, c, Rows(r, c)[f := m])
  }

  /** HDEL touches the key only if it removed something. */
  function Remove(r: Redis, c: Client, fs: set<Field>): Redis {
    if fs !! Rows(r, c).Keys then r else PutRows(r, c, Rows(r, c) - fs)
  }

  function SetCounter(r: Redis, c: Client, n: nat): Redis {
    Touch(r.(counters := r.counters[c := n]), CounterKey(c))
  }

  function SetDedup(r: Redis, p: PublishId, c: Client): Redis {
    Touch(r.(dedup := r.dedup + {(p, c)}), DedupKey(p, c))
  }

  function SetMarker(r: Redis, schema: nat): Redis {
    Touch(r.(marker := Set(schema)), MarkerKey)
  }

  // ---------------------------------------------------------------- processes

  datatype Job = Job(pub: PublishId, client: Client, body: string)

  /** Versions recorded by WATCH. */
  datatype Watched = Watched(marker: nat, hash: nat, counter: nat, dedup: nat)

  /** What the fenced loop writes or deletes. */
  datatype Mutation = Write(m: Message) | Insert(m: Message) | Delete(m: Message, dropped: bool)

  datatype Proc =
    | Starting(job: Job, attempt: nat)
    | Watching(job: Job, attempt: nat, watched: Watched)
    | HasSchema(job: Job, attempt: nat, watched: Watched, schema: nat)
    | NotDelivered(job: Job, attempt: nat, watched: Watched, schema: nat)
    | HasCounter(job: Job, attempt: nat, watched: Watched, schema: nat, counter: nat)
    | Ready(job: Job, attempt: nat, watched: Watched, schema: nat, counter: nat, next: nat)
    | Trying(client: Client, op: Mutation, try: nat, schema: nat)
    | Rejected(client: Client, op: Mutation, try: nat)
    | Activating
    | Migrating(client: Client, todo: seq<(Field, Message)>)
    | Finished(outcome: Outcome)

  datatype Outcome =
    | Queued(id: nat)
    | Duplicate
    | QuotaReached
    | Contention
    | Applied
    | IdInUse
    | ModeConflict
    | ChangedRepeatedly
    | NotActivated
    | Migrated

  datatype Worker = Worker(node: Node, proc: Proc)

  /** `live` counts the enqueues committed for a publish and client since its dedup marker last expired. */
  datatype System = System(
    redis: Redis,
    mode: map<Node, nat>,
    cache: map<Node, nat>,
    workers: map<Pid, Worker>,
    live: map<(PublishId, Client), nat>)

  function Live(s: System, p: PublishId, c: Client): nat {
    if (p, c) in s.live then s.live[(p, c)] else 0
  }

  /** validateIFMSchema. */
  predicate ModeAllows(mode: nat, schema: nat) {
    mode == AUTO || mode == schema
  }

  function OfflineMessage(job: Job, id: nat): Message {
    Message(Publish, id, job.body)
  }

  function Watch(r: Redis, job: Job): Watched {
    Watched(Ver(r, MarkerKey), Ver(r, HashKey(job.client)), Ver(r, CounterKey(job.client)),
            Ver(r, DedupKey(job.pub, job.client)))
  }

  /** EXEC aborts when a watched key was touched. */
  predicate Unchanged(r: Redis, job: Job, w: Watched) {
    && Ver(r, MarkerKey) == w.marker
    && Ver(r, HashKey(job.client)) == w.hash
    && Ver(r, CounterKey(job.client)) == w.counter
    && (job.pub != NO_PUBLISH_ID ==> Ver(r, DedupKey(job.pub, job.client)) == w.dedup)
  }

  /** The transaction's three writes. */
  function Commit(r: Redis, job: Job, schema: nat, next: nat): Redis
    requires next > 0
  {
    var m := OfflineMessage(job, CounterId(next));
    var r1 := SetCounter(r, job.client, next);
    var r2 := Put(r1, job.client, WriteField(schema, m), m);
    if job.pub != NO_PUBLISH_ID then SetDedup(r2, job.pub, job.client) else r2
  }

  /** The fenced scripts: nothing happens unless the marker equals the caller's schema. */
  function Fenced(r: Redis, c: Client, op: Mutation, schema: nat): (Redis, Proc) {
    match op
    case Write(m) => (Put(r, c, WriteField(schema, m), m), Finished(Applied))
    case Insert(m) =>
      if WriteField(schema, m) in Rows(r, c) then (r, Finished(IdInUse))
      else (Put(r, c, WriteField(schema, m), m), Finished(Applied))
    case Delete(m, dropped) => (Remove(r, c, DeleteFields(schema, m, dropped)), Finished(Applied))
  }

  // ---------------------------------------------------------------- steps

  datatype Action =
    | StartNode(node: Node, wanted: nat)
    | SpawnEnqueue(pid: Pid, node: Node, job: Job)
    | SpawnMutation(pid: Pid, node: Node, client: Client, op: Mutation)
    | SpawnActivate(pid: Pid, node: Node)
    | SpawnMigrate(pid: Pid, node: Node, client: Client, order: seq<(Field, Message)>)
    | Turn(pid: Pid)
    | Crash(pid: Pid)
    | OperatorMarks
    | ExpireDedup(pub: PublishId, client: Client, touch: bool)
    | MarkDelivered(pub: PublishId, client: Client)
    | EndSession(client: Client)

  function SetProc(s: System, pid: Pid, p: Proc): System
    requires pid in s.workers
  {
    s.(workers := s.workers[pid := s.workers[pid].(proc := p)])
  }

  function SetCache(s: System, node: Node, schema: nat): System {
    s.(cache := s.cache[node := schema])
  }

  predicate ValidMessage(m: Message) {
    1 <= m.id <= MAX_ID
  }

  predicate CanSpawn(s: System, pid: Pid, node: Node) {
    pid !in s.workers && node in s.mode && node in s.cache
  }

  /** The numeric rows of a hash, in some order: what the migration loop iterates over. */
  ghost predicate ListsNumeric(order: seq<(Field, Message)>, h: Hash) {
    forall i :: 0 <= i < |order| ==> order[i].0.Numeric? && order[i].0 in h && h[order[i].0] == order[i].1
  }

  /** The enqueue's reads, one command each: marker, dedup marker, counter, free-id script. */
  function ReadStep(r: Redis, mode: nat, p: Proc): Proc {
    match p
    case Starting(job, attempt) =>
      if attempt < MAX_ATTEMPTS then Watching(job, attempt, Watch(r, job)) else Finished(Contention)
    case Watching(job, attempt, w) =>
      if !ModeAllows(mode, Schema(r)) then Finished(ModeConflict) else HasSchema(job, attempt, w, Schema(r))
    case HasSchema(job, attempt, w, schema) =>
      if job.pub != NO_PUBLISH_ID && (job.pub, job.client) in r.dedup then Finished(Duplicate)
      else NotDelivered(job, attempt, w, schema)
    case NotDelivered(job, attempt, w, schema) => HasCounter(job, attempt, w, schema, CounterOf(r, job.client))
    case HasCounter(job, attempt, w, schema, counter) =>
      var next := NextOffline(Rows(r, job.client), counter, schema);
      if next == 0 then Finished(QuotaReached) else Ready(job, attempt, w, schema, counter, next)
    case _ => p
  }

  /** One command of an enqueue; at Ready it is EXEC, which aborts and retries if a watched key was touched. */
  function EnqueueTurn(s: System, pid: Pid): System
    requires pid in s.workers && s.workers[pid].node in s.mode
  {
    var r, node, p := s.redis, s.workers[pid].node, s.workers[pid].proc;
    if !p.Ready? then
      var t := SetProc(s, pid, ReadStep(r, s.mode[node], p));
      if p.Watching? && ModeAllows(s.mode[node], Schema(r)) then SetCache(t, node, Schema(r)) else t
    else if p.next == 0 || !Unchanged(r, p.job, p.watched) then SetProc(s, pid, Starting(p.job, p.attempt + 1))
    else
      SetProc(s, pid, Finished(Queued(CounterId(p.next))))
      .(redis := Commit(r, p.job, p.schema, p.next),
        live := s.live[(p.job.pub, p.job.client) := Live(s, p.job.pub, p.job.client) + 1])
  }

  /** One command of the fenced two-attempt loop. */
  function MutationTurn(s: System, pid: Pid): System
    requires pid in s.workers && s.workers[pid].node in s.mode
  {
    var r, w := s.redis, s.workers[pid];
    match w.proc
    case Trying(client, op, try, schema) =>
      if Schema(r) == schema then
        var (r', p) := Fenced(r, client, op, schema);
        SetProc(s, pid, p).(redis := r')
      else if s.mode[w.node] != AUTO then SetProc(s, pid, Finished(ModeConflict))
      else SetProc(s, pid, Rejected(client, op, try))
    case Rejected(client, op, try) =>
      SetProc(SetCache(s, w.node, Schema(r)), pid,
              if try + 1 < 2 then Trying(client, op, try + 1, Schema(r)) else Finished(ChangedRepeatedly))
    case _ => s
  }

  function OtherTurn(s: System, pid: Pid): System
    requires pid in s.workers
  {
    var r, w := s.redis, s.workers[pid];
    match w.proc
    case Activating => SetProc(SetCache(s, w.node, DIRECTIONAL), pid, Finished(Applied)).(redis := SetMarker(r, DIRECTIONAL))
    case Migrating(client, todo) =>
      if todo == [] then SetProc(s, pid, Finished(Migrated))
      else
        var (f, m) := todo[0];
        var h := Rows(r, client);
        SetProc(s, pid, Migrating(client, todo[1..]))
        .(redis := if f in h then PutRows(r, client, MigrateField(h, f, FieldKey(m))) else r)
    case _ => s
  }

  /** Actions other than a process's own turn. */
  ghost function Environment(s: System, a: Action): System {
    var r := s.redis;
    match a
    case StartNode(node, wanted) =>
      if node in s.mode || wanted > DIRECTIONAL || !ModeAllows(wanted, Schema(r)) then s
      else SetCache(s.(mode := s.mode[node := wanted]), node, Schema(r))
    case SpawnEnqueue(pid, node, job) =>
      if !CanSpawn(s, pid, node) then s else s.(workers := s.workers[pid := Worker(node, Starting(job, 0))])
    case SpawnMutation(pid, node, client, op) =>
      if !CanSpawn(s, pid, node) || !ValidMessage(op.m) then s
      else if op.Insert? then
        if op.m.kind != Publish then s
        else if s.mode[node] != AUTO then
          s.(workers := s.workers[pid := Worker(node, Trying(client, op, 0, s.mode[node]))])
        else
          SetCache(s, node, Schema(r)).(workers := s.workers[pid := Worker(node, Trying(client, op, 0, Schema(r)))])
      else s.(workers := s.workers[pid := Worker(node, Trying(client, op, 0, s.cache[node]))])
    case SpawnActivate(pid, node) =>
      if !CanSpawn(s, pid, node) then s
      else if s.mode[node] != AUTO || r.marker != Set(LEGACY) then
        s.(workers := s.workers[pid := Worker(node, Finished(NotActivated))])
      else s.(workers := s.workers[pid := Worker(node, Activating)])
    case SpawnMigrate(pid, node, client, order) =>
      if !CanSpawn(s, pid, node) || s.cache[node] != DIRECTIONAL || !ListsNumeric(order, Rows(r, client)) then s
      else s.(workers := s.workers[pid := Worker(node, Migrating(client, order))])
    case Crash(pid) => s.(workers := s.workers - {pid})
    case OperatorMarks => if r.marker.Absent? then s.(redis := SetMarker(r, LEGACY)) else s
    case ExpireDedup(p, c, touch) =>
      if (p, c) !in r.dedup then s
      else
        var r1 := r.(dedup := r.dedup - {(p, c)});
        s.(redis := if touch then Touch(r1, DedupKey(p, c)) else r1, live := s.live[(p, c) := 0])
    case MarkDelivered(p, c) =>
      if p == NO_PUBLISH_ID || (p, c) in r.dedup then s else s.(redis := SetDedup(r, p, c))
    case EndSession(c) =>
      var r1 := if c in r.hashes then PutRows(r, c, map[]) else r;
      s.(redis := if c in r.counters then Touch(r1.(counters := r1.counters - {c}), CounterKey(c)) else r1)
    case Turn(_) => s
  }

  ghost function Step(s: System, a: Action): System {
    if a.Turn? then
      if a.pid in s.workers && s.workers[a.pid].node in s.mode then
        var p := s.workers[a.pid].proc;
        if p.Trying? || p.Rejected? then MutationTurn(s, a.pid)
        else if p.Activating? || p.Migrating? then OtherTurn(s, a.pid)
        else EnqueueTurn(s, a.pid)
      else s
    else Environment(s, a)
  }

  ghost function Run(s: System, actions: seq<Action>): System
    decreases |actions|
  {
    if actions == [] then s else Run(Step(s, actions[0]), actions[1..])
  }

  /** A fresh process group over any well-formed legacy or migrated store. */
  ghost predicate Initial(s: System) {
    && s.mode == map[] && s.cache == map[] && s.workers == map[] && s.live == map[]
    && (forall c :: c in s.redis.hashes ==> WellFormed(s.redis.hashes[c]))
    && (Schema(s.redis) == LEGACY ==> forall c :: c in s.redis.hashes ==> OnlyNumeric(s.redis.hashes[c]))
  }
}
