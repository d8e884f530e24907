/**
 The Redis primary failover loop of one core node: a timed step machine that probes the
 designated primary, keeps a failure window for it, and promotes another node when the
 window has lasted too long. What the cluster and Redis answer during a tick is an input.
 */
module RedisFailover {
  import opened NodeOrder

  datatype Option<T> = None | Some(value: T)

  /** What a tick finds: leadership, raft voters, visible cores, the committed designation, the clock,
      and the answers to the calls it makes, numbered by position in the list it walks. */
  datatype Tick = Tick(
    leader: bool, voters: Option<nat>, members: seq<Meta>, current: Option<Node>,
    pingPrimary: bool, leaderAfterPing: bool, now: int,
    ping: nat -> bool, stillLeader: nat -> bool, promote: nat -> bool,
    commit: bool, validAddr: string -> bool, replicaLeader: nat -> bool, soleAck: bool)

  /** The calls and observations of a run, in order. */
  datatype Event =
    | NotLeader
    | Healthy(primary: Node)
    | WindowOpened(primary: Node, since: int)
    | Promote(node: Node, acknowledged: bool)
    | Designate(from: Option<Node>, to: Node, at: int)
    | ReplicaOf(node: Node, primary: Node)

  // ---------------------------------------------------------------- one tick

  function AddrOf(members: seq<Meta>, node: Node): string {
    if members == [] then "" else if members[0].node == node then members[0].addr else AddrOf(members[1..], node)
  }

  predicate Visible(members: seq<Meta>, node: Node) {
    exists m :: m in members && m.node == node
  }

  /** ensureReplicasConfigured from position k on. */
  function Replicas(t: Tick, members: seq<Meta>, primary: Node, k: nat): seq<Event>
    decreases |members| - k
  {
    if k >= |members| then []
    else if members[k].node == primary then Replicas(t, members, primary, k + 1)
    else if !t.replicaLeader(k) then []
    else [ReplicaOf(members[k].node, primary)] + Replicas(t, members, primary, k + 1)
  }

  function Configure(t: Tick, members: seq<Meta>, primary: Node): seq<Event> {
    var addr := AddrOf(members, primary);
    if addr == "" || !t.validAddr(addr) then [] else Replicas(t, members, primary, 0)
  }

  /** failoverRedisPrimary's search from position k on: the promote command sent, if any. */
  function Search(t: Tick, order: seq<Meta>, dead: Node, k: nat): Option<(Node, bool)>
    decreases |order| - k
  {
    if k >= |order| then None
    else if order[k].node == dead || !t.ping(k) then Search(t, order, dead, k + 1)
    else if !t.stillLeader(k) then None
    else Some((order[k].node, t.promote(k)))
  }

  /** The failure windows, and what has happened. */
  datatype State = State(missingSince: map<Node, int>, log: seq<Event>)

  function Note(s: State, events: seq<Event>): State {
    s.(log := s.log + events)
  }

  function Failover(s: State, t: Tick, dead: Node): State {
    var order := ByNode(t.members);
    match Search(t, order, dead, 0)
    case None => s
    case Some((node, false)) => Note(s, [Promote(node, false)])
    case Some((node, true)) =>
      var s1 := Note(s, [Promote(node, true)]);
      if !t.commit then s1
      else Note(State(s1.missingSince - {dead}, s1.log + [Designate(Some(dead), node, t.now)]), Configure(t, order, node))
  }

  /** The node bootstrap designates: itself when visible, else the first. */
  function BootChoice(members: seq<Meta>, self: Node): Node
    requires members != []
  {
    if Visible(members, self) then self else members[0].node
  }

  function Bootstrap(s: State, t: Tick, self: Node, voters: nat): State {
    if t.members == [] || !t.commit then s
    else
      var node := BootChoice(t.members, self);
      var s1 := Note(s, [Designate(None, node, t.now)]);
      if voters > 1 then Note(s1, Configure(t, t.members, node)) else Note(s1, [Promote(node, t.soleAck)])
  }

  /** reconcileRedisPrimary. */
  function Reconcile(s: State, t: Tick, self: Node, threshold: int): State {
    if !t.leader then State(map[], s.log + [NotLeader])
    else if t.voters == None then s
    else if t.current == None then Bootstrap(s, t, self, t.voters.value)
    else if t.voters.value <= 1 then s
    else
      var primary := t.current.value;
      var healthy := Visible(t.members, primary) && t.pingPrimary;
      if !t.leaderAfterPing then s
      else if healthy
      then Note(State(s.missingSince - {primary}, s.log + [Healthy(primary)]), Configure(t, t.members, primary))
      else if primary !in s.missingSince
      then State(s.missingSince[primary := t.now], s.log + [WindowOpened(primary, t.now)])
      else if t.now - s.missingSince[primary] <= threshold then s
      else Failover(s, t, primary)
  }

  function Run(s: State, ticks: seq<Tick>, self: Node, threshold: int): State
    decreases |ticks|
  {
    if ticks == [] then s else Run(Reconcile(s, ticks[0], self, threshold), ticks[1..], self, threshold)
  }

  const START := State(map[], [])
}
