/**
 The per-client enqueue lock of one node: a map of reference-counted one-slot channels.
 The registration and the deregistration are critical sections; taking the token,
 giving up on a cancelled context and giving the token back are separate steps, so
 goroutines interleave between them.
 */
module OfflineLock {

  type Client = string
  type Pid = nat
  type LockId = nat

  /** One offlineClientLock object: its reference count and whether the token is taken. */
  datatype Lock = Lock(refs: int, taken: bool)

  datatype Phase = Waiting | Holding | Leaving

  /** A goroutine inside lockOfflineClient, or holding or returning the lock. */
  datatype Proc = Proc(client: Client, lock: LockId, phase: Phase)

  /** `table` is offlineLocks, `heap` every lock object ever allocated. */
  datatype State = State(table: map<Client, LockId>, heap: map<LockId, Lock>, next: LockId, procs: map<Pid, Proc>)

  datatype Action =
    | Register(pid: Pid, client: Client)
    | Acquire(pid: Pid)
    | Cancel(pid: Pid)
    | ReturnToken(pid: Pid)
    | Deregister(pid: Pid)

  predicate InPhase(s: State, pid: Pid, phase: Phase) {
    pid in s.procs && s.procs[pid].phase == phase && s.procs[pid].lock in s.heap
  }

  predicate Enabled(s: State, a: Action) {
    match a
    case Register(pid, client) => pid !in s.procs && (client in s.table ==> s.table[client] in s.heap)
    case Acquire(pid) => InPhase(s, pid, Waiting) && !s.heap[s.procs[pid].lock].taken
    case Cancel(pid) => InPhase(s, pid, Waiting)
    case ReturnToken(pid) => InPhase(s, pid, Holding) && s.heap[s.procs[pid].lock].taken
    case Deregister(pid) => InPhase(s, pid, Leaving)
  }

  function Step(s: State, a: Action): State
    requires Enabled(s, a)
  {
    match a
    case Register(pid, client) =>
      var s1 := if client in s.table then s
                else s.(table := s.table[client := s.next], heap := s.heap[s.next := Lock(0, false)], next := s.next + 1);
      var l := s1.table[client];
      s1.(heap := s1.heap[l := s1.heap[l].(refs := s1.heap[l].refs + 1)],
          procs := s1.procs[pid := Proc(client, l, Waiting)])
    case Acquire(pid) => SetTaken(s, pid, true, Holding)
    case Cancel(pid) => s.(procs := s.procs[pid := s.procs[pid].(phase := Leaving)])
    case ReturnToken(pid) => SetTaken(s, pid, false, Leaving)
    case Deregister(pid) =>
      var p := s.procs[pid];
      var refs := s.heap[p.lock].refs - 1;
      s.(heap := s.heap[p.lock := s.heap[p.lock].(refs := refs)],
         table := if refs == 0 then s.table - {p.client} else s.table,
         procs := s.procs - {pid})
  }

  function SetTaken(s: State, pid: Pid, taken: bool, phase: Phase): State
    requires pid in s.procs && s.procs[pid].lock in s.heap
  {
    var l := s.procs[pid].lock;
    s.(heap := s.heap[l := s.heap[l].(taken := taken)], procs := s.procs[pid := s.procs[pid].(phase := phase)])
  }

  /** Goroutines that reference a lock object. */
  function Users(s: State, l: LockId): set<Pid> {
    set p | p in s.procs && s.procs[p].lock == l
  }

  // ---------------------------------------------------------------- invariant

  /** Every goroutine uses its client's current lock; different clients have different locks. */
  ghost predicate TableOk(s: State) {
    && (forall p :: p in s.procs ==> s.procs[p].client in s.table && s.table[s.procs[p].client] == s.procs[p].lock)
    && (forall c :: c in s.table ==> s.table[c] in s.heap)
    && (forall c, d :: c in s.table && d in s.table && s.table[c] == s.table[d] ==> c == d)
    && (forall l :: l in s.heap ==> l < s.next)
  }

  /** The reference count counts the goroutines, and an entry in the table has some. */
  ghost predicate RefsOk(s: State) {
    && (forall l :: l in s.heap ==> s.heap[l].refs == |Users(s, l)|)
    && (forall c :: c in s.table ==> s.table[c] in s.heap && s.heap[s.table[c]].refs > 0)
  }

  predicate Holder(s: State, p: Pid, l: LockId) {
    p in s.procs && s.procs[p].phase == Holding && s.procs[p].lock == l
  }

  ghost predicate Held(s: State, l: LockId) {
    exists p :: Holder(s, p, l)
  }

  /** The token is taken exactly while one goroutine holds the lock. */
  ghost predicate TokenOk(s: State) {
    && (forall p, l :: Holder(s, p, l) ==> l in s.heap && s.heap[l].taken)
    && (forall p, q, l :: Holder(s, p, l) && Holder(s, q, l) ==> p == q)
    && (forall l :: l in s.heap && s.heap[l].taken ==> Held(s, l))
  }

  ghost predicate Inv(s: State) {
    TableOk(s) && RefsOk(s) && TokenOk(s)
  }

  lemma HeldKept(s: State, t: State, l: LockId)
    requires Held(s, l) && forall p :: Holder(s, p, l) ==> Holder(t, p, l)
    ensures Held(t, l)
  {
    var p :| Holder(s, p, l);
    assert Holder(t, p, l);
  }

  // ---------------------------------------------------------------- register

  lemma RegisterTable(s: State, pid: Pid, client: Client)
    requires TableOk(s) && Enabled(s, Register(pid, client))
    ensures TableOk(Step(s, Register(pid, client)))
  {
  }

  lemma RegisterRefs(s: State, pid: Pid, client: Client)
    requires TableOk(s) && RefsOk(s) && Enabled(s, Register(pid, client))
    ensures RefsOk(Step(s, Register(pid, client)))
  {
    var t := Step(s, Register(pid, client));
    var l := t.procs[pid].lock;
    NewLockUnused(s, l);
    assert Users(t, l) == Users(s, l) + {pid};
    forall k | k in t.heap ensures t.heap[k].refs == |Users(t, k)| {
      if k != l { assert Users(t, k) == Users(s, k); }
    }
  }

  lemma NewLockUnused(s: State, l: LockId)
    requires TableOk(s)
    ensures l !in s.heap ==> Users(s, l) == {}
  {
    if Users(s, l) != {} {
      var p :| p in Users(s, l);
      assert s.table[s.procs[p].client] == l;
    }
  }

  lemma RegisterToken(s: State, pid: Pid, client: Client)
    requires TableOk(s) && TokenOk(s) && Enabled(s, Register(pid, client))
    ensures TokenOk(Step(s, Register(pid, client)))
  {
    var t := Step(s, Register(pid, client));
    assert forall p, l :: Holder(t, p, l) <==> Holder(s, p, l);
    forall l | l in t.heap && t.heap[l].taken ensures Held(t, l) {
      assert l in s.heap && s.heap[l].taken;
      HeldKept(s, t, l);
    }
  }

  // ---------------------------------------------------------------- token and phases

  lemma UsersKept(s: State, t: State)
    requires RefsOk(s) && t.table == s.table && t.heap.Keys == s.heap.Keys && t.procs.Keys == s.procs.Keys
    requires forall p :: p in s.procs ==> t.procs[p].lock == s.procs[p].lock
    requires forall l :: l in s.heap ==> t.heap[l].refs == s.heap[l].refs
    ensures RefsOk(t)
  {
    forall l | l in t.heap ensures t.heap[l].refs == |Users(t, l)| { assert Users(t, l) == Users(s, l); }
  }

  lemma PhaseStep(s: State, pid: Pid, taken: bool, phase: Phase)
    requires TableOk(s) && RefsOk(s) && pid in s.procs && s.procs[pid].lock in s.heap
    ensures TableOk(SetTaken(s, pid, taken, phase)) && RefsOk(SetTaken(s, pid, taken, phase))
  {
    UsersKept(s, SetTaken(s, pid, taken, phase));
  }

  lemma AcquireToken(s: State, pid: Pid)
    requires TokenOk(s) && Enabled(s, Acquire(pid))
    ensures TokenOk(Step(s, Acquire(pid)))
  {
    var t, k := Step(s, Acquire(pid)), s.procs[pid].lock;
    assert forall p, l :: Holder(t, p, l) <==> Holder(s, p, l) || (p == pid && l == k);
    forall l | l in t.heap && t.heap[l].taken ensures Held(t, l) {
      if l == k { assert Holder(t, pid, l); } else { HeldKept(s, t, l); }
    }
  }

  lemma ReturnTokenOk(s: State, pid: Pid)
    requires TokenOk(s) && Enabled(s, ReturnToken(pid))
    ensures TokenOk(Step(s, ReturnToken(pid)))
  {
    var t, k := Step(s, ReturnToken(pid)), s.procs[pid].lock;
    assert Holder(s, pid, k);
    assert forall p, l :: Holder(t, p, l) <==> Holder(s, p, l) && p != pid;
    forall l | l in t.heap && t.heap[l].taken ensures Held(t, l) { HeldKept(s, t, l); }
  }

  lemma CancelInv(s: State, pid: Pid)
    requires Inv(s) && Enabled(s, Cancel(pid))
    ensures Inv(Step(s, Cancel(pid)))
  {
    var t := Step(s, Cancel(pid));
    UsersKept(s, t);
    TokenKept(s, t);
  }

  lemma TokenKept(s: State, t: State)
    requires TokenOk(s) && t.heap.Keys == s.heap.Keys && forall l :: l in s.heap ==> t.heap[l].taken == s.heap[l].taken
    requires forall p, l :: Holder(t, p, l) <==> Holder(s, p, l)
    ensures TokenOk(t)
  {
    forall l | l in t.heap && t.heap[l].taken ensures Held(t, l) { HeldKept(s, t, l); }
  }

  // ---------------------------------------------------------------- deregister

  lemma DeregisterRefs(s: State, pid: Pid)
    requires TableOk(s) && RefsOk(s) && Enabled(s, Deregister(pid))
    ensures RefsOk(Step(s, Deregister(pid)))
    ensures var t, l := Step(s, Deregister(pid)), s.procs[pid].lock;
            t.heap[l].refs == 0 ==> forall q :: q in t.procs ==> t.procs[q].lock != l
  {
    var t, p := Step(s, Deregister(pid)), s.procs[pid];
    assert Users(t, p.lock) == Users(s, p.lock) - {pid};
    assert pid in Users(s, p.lock);
    forall l | l in t.heap ensures t.heap[l].refs == |Users(t, l)| {
      if l != p.lock { assert Users(t, l) == Users(s, l); }
    }
    if t.heap[p.lock].refs == 0 {
      forall q | q in t.procs ensures t.procs[q].lock != p.lock { assert q !in Users(t, p.lock); }
    }
  }

  lemma DeregisterTable(s: State, pid: Pid)
    requires TableOk(s) && RefsOk(s) && Enabled(s, Deregister(pid))
    ensures TableOk(Step(s, Deregister(pid)))
  {
    DeregisterRefs(s, pid);
  }

  lemma DeregisterToken(s: State, pid: Pid)
    requires TokenOk(s) && Enabled(s, Deregister(pid))
    ensures TokenOk(Step(s, Deregister(pid)))
  {
    TokenKept(s, Step(s, Deregister(pid)));
  }

  lemma DeregisterInv(s: State, pid: Pid)
    requires Inv(s) && Enabled(s, Deregister(pid))
    ensures Inv(Step(s, Deregister(pid)))
  {
    DeregisterTable(s, pid);
    DeregisterRefs(s, pid);
    DeregisterToken(s, pid);
  }

  lemma RegisterInv(s: State, pid: Pid, client: Client)
    requires Inv(s) && Enabled(s, Register(pid, client))
    ensures Inv(Step(s, Register(pid, client)))
  {
    RegisterTable(s, pid, client);
    RegisterRefs(s, pid, client);
    RegisterToken(s, pid, client);
  }

  lemma TokenStepInv(s: State, a: Action)
    requires Inv(s) && Enabled(s, a) && (a.Acquire? || a.ReturnToken?)
    ensures Inv(Step(s, a))
  {
    if a.Acquire? {
      PhaseStep(s, a.pid, true, Holding);
      AcquireToken(s, a.pid);
    } else {
      PhaseStep(s, a.pid, false, Leaving);
      ReturnTokenOk(s, a.pid);
    }
  }

  lemma StepInv(s: State, a: Action)
    requires Inv(s) && Enabled(s, a)
    ensures Inv(Step(s, a))
  {
    match a
    case Register(pid, client) => RegisterInv(s, pid, client);
    case Acquire(_) => TokenStepInv(s, a);
    case Cancel(pid) => CancelInv(s, pid);
    case ReturnToken(_) => TokenStepInv(s, a);
    case Deregister(pid) => DeregisterInv(s, pid);
  }

  /** A run: actions that are not enabled (a blocked send, an unknown goroutine) do not happen. */
  function Run(s: State, actions: seq<Action>): State
    decreases |actions|
  {
    if actions == [] then s
    else Run(if Enabled(s, actions[0]) then Step(s, actions[0]) else s, actions[1..])
  }

  const START: State := State(map[], map[], 0, map[])

  lemma {:induction false} RunInv(s: State, actions: seq<Action>)
    requires Inv(s)
    ensures Inv(Run(s, actions))
    decreases |actions|
  {
    if actions != [] {
      if Enabled(s, actions[0]) { StepInv(s, actions[0]); }
      RunInv(if Enabled(s, actions[0]) then Step(s, actions[0]) else s, actions[1..]);
    }
  }

  lemma Reachable(actions: seq<Action>)
    ensures Inv(Run(START, actions))
  {
    assert Inv(START);
    RunInv(START, actions);
  }

  /** In every interleaving, including cancelled waiters, at most one goroutine holds a client's lock. */
  lemma MutualExclusion(actions: seq<Action>, p: Pid, q: Pid)
    requires var s := Run(START, actions);
             && p in s.procs && q in s.procs && s.procs[p].phase == Holding && s.procs[q].phase == Holding
             && s.procs[p].client == s.procs[q].client
    ensures p == q
  {
    Reachable(actions);
    var s := Run(START, actions);
    assert Holder(s, p, s.procs[p].lock) && Holder(s, q, s.procs[p].lock);
  }

  /** The map holds an entry for a client exactly while some goroutine waits for, holds or is
      returning its lock. */
  lemma EntryExactlyWhileUsed(actions: seq<Action>, c: Client)
    ensures var s := Run(START, actions);
            c in s.table <==> exists p :: p in s.procs && s.procs[p].client == c
  {
    Reachable(actions);
    var s := Run(START, actions);
    if c in s.table {
      assert |Users(s, s.table[c])| > 0;
      var p :| p in Users(s, s.table[c]);
      assert p in s.procs && s.procs[p].client == c;
    }
  }

  /** Some goroutine of the client holds its lock. */
  ghost predicate ClientHeld(s: State, c: Client) {
    exists q :: q in s.procs && s.procs[q].phase == Holding && s.procs[q].client == c
  }

  /** Returning the token never blocks, and a waiter is blocked only while another goroutine of the
      same client holds the lock. */
  lemma OnlyHoldersBlock(actions: seq<Action>, p: Pid)
    requires p in Run(START, actions).procs
    ensures var s := Run(START, actions);
            && (s.procs[p].phase == Holding ==> Enabled(s, ReturnToken(p)))
            && (s.procs[p].phase == Leaving ==> Enabled(s, Deregister(p)))
            && (s.procs[p].phase == Waiting ==> (Enabled(s, Acquire(p)) <==> !ClientHeld(s, s.procs[p].client)))
  {
    Reachable(actions);
    BlockedOnlyByHolder(Run(START, actions), p);
  }

  lemma BlockedOnlyByHolder(s: State, p: Pid)
    requires Inv(s) && p in s.procs
    ensures s.procs[p].lock in s.heap && (s.procs[p].phase == Holding ==> s.heap[s.procs[p].lock].taken)
    ensures s.heap[s.procs[p].lock].taken <==> ClientHeld(s, s.procs[p].client)
  {
    var l := s.procs[p].lock;
    if s.procs[p].phase == Holding { assert Holder(s, p, l); }
    if s.heap[l].taken {
      assert Held(s, l);
      var q :| Holder(s, q, l);
      assert s.procs[q].client == s.procs[p].client;
    }
    if ClientHeld(s, s.procs[p].client) {
      var q :| q in s.procs && s.procs[q].phase == Holding && s.procs[q].client == s.procs[p].client;
      assert Holder(s, q, l);
    }
  }
}
