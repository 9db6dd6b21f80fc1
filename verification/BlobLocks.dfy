/** Advisory locks are taken in one global order, so transactions never wait in a circle. */
module BlobLocks {
  import opened Orders
  import opened BlobModel

  /** Tenants before digests, each in ascending order. */
  predicate Before(a: LockKey, b: LockKey) {
    match (a, b)
    case (Tenant(x), Tenant(y)) => x < y
    case (Tenant(_), Blob(_)) => true
    case (Blob(_), Tenant(_)) => false
    case (Blob(x), Blob(y)) => x < y
  }

  ghost predicate Rising(plan: seq<LockKey>) {
    forall i, j :: 0 <= i < j < |plan| ==> Before(plan[i], plan[j])
  }

  ghost predicate TxOrdered(tx: Tx) {
    Rising(tx.plan) && tx.taken <= |tx.plan| && (tx.Registrar? ==> tx.checked <= |tx.regs|)
  }

  /** A lock in use is among those its holder has taken. */
  ghost predicate LockTaken(s: State, k: LockKey)
    requires k in s.locks
  {
    s.locks[k] in s.txs && s.txs[s.locks[k]].taken <= |s.txs[s.locks[k]].plan|
    && k in s.txs[s.locks[k]].plan[..s.txs[s.locks[k]].taken]
  }

  ghost predicate Ordered(s: State) {
    && (forall t :: t in s.txs ==> TxOrdered(s.txs[t]))
    && (forall k :: k in s.locks ==> LockTaken(s, k))
  }

  lemma RegistrarPlanRises(tenant: Option<nat>, regs: seq<Registration>)
    ensures Rising(RegistrarPlan(tenant, regs))
  {
    var digests := Ascending(Digests(regs));
    assert StrictlyAscending(digests);
    var plan, offset := RegistrarPlan(tenant, regs), if tenant.Some? then 1 else 0;
    forall i, j | 0 <= i < j < |plan| ensures Before(plan[i], plan[j]) {
      assert plan[j] == Blob(digests[j - offset]);
      assert i >= offset ==> plan[i] == Blob(digests[i - offset]);
    }
  }

  /** Only a transaction's own steps move its locks. */
  lemma OthersKeep(s: State, s': State)
    requires Ordered(s) && forall t :: t in s'.txs ==> TxOrdered(s'.txs[t])
    requires forall k :: k in s'.locks ==> k in s.locks && s'.locks[k] == s.locks[k] && s.locks[k] in s'.txs
    requires forall t :: t in s'.txs && t in s.txs ==>
               s'.txs[t].plan == s.txs[t].plan && s'.txs[t].taken == s.txs[t].taken
    ensures Ordered(s')
  {
    forall k | k in s'.locks ensures LockTaken(s', k) {
      assert LockTaken(s, k);
    }
  }

  /** An acquired lock joins the ones taken before it. */
  lemma AcquireKeeps(w: World, s: State, t: nat)
    requires Ordered(s) && Enabled(w, s, Acquire(t))
    ensures Ordered(Apply(w, s, Acquire(t)))
  {
    var s', tx := Apply(w, s, Acquire(t)), s.txs[t];
    assert TxOrdered(tx);
    assert tx.plan[..tx.taken + 1] == tx.plan[..tx.taken] + [tx.plan[tx.taken]];
    forall k | k in s'.locks ensures LockTaken(s', k) {
      assert k in s.locks ==> LockTaken(s, k);
    }
  }

  /** A step other than an acquisition moves no plan and takes no lock. */
  lemma NoLockMoves(w: World, s: State, a: Action)
    requires Ordered(s) && Enabled(w, s, a) && !a.Acquire?
    ensures var s' := Apply(w, s, a);
            && (forall k :: k in s'.locks ==> k in s.locks && s'.locks[k] == s.locks[k] && s.locks[k] in s'.txs)
            && (forall t :: t in s'.txs && t in s.txs ==>
                  s'.txs[t].plan == s.txs[t].plan && s'.txs[t].taken == s.txs[t].taken)
  {
    forall k | k in s.locks ensures s.locks[k] in s.txs { assert LockTaken(s, k); }
  }

  lemma TxsStayOrdered(w: World, s: State, a: Action, t: nat)
    requires Ordered(s) && Enabled(w, s, a) && !a.Acquire? && t in Apply(w, s, a).txs
    ensures TxOrdered(Apply(w, s, a).txs[t])
  {
    if a.BeginRegistrar? { RegistrarPlanRises(a.tenant, a.regs); }
    if t in s.txs { assert TxOrdered(s.txs[t]); }
  }

  lemma StepKeeps(w: World, s: State, a: Action)
    requires Ordered(s) && Enabled(w, s, a)
    ensures Ordered(Apply(w, s, a))
  {
    if a.Acquire? {
      AcquireKeeps(w, s, a.t);
    } else {
      var s' := Apply(w, s, a);
      forall t | t in s'.txs ensures TxOrdered(s'.txs[t]) { TxsStayOrdered(w, s, a, t); }
      NoLockMoves(w, s, a);
      OthersKeep(s, s');
    }
  }

  lemma {:induction false} RunKeeps(w: World, states: seq<State>, actions: seq<Action>, i: nat)
    requires IsRun(w, states, actions) && i < |states|
    ensures Ordered(states[i])
  {
    if i > 0 {
      RunKeeps(w, states, actions, i - 1);
      StepKeeps(w, states[i - 1], actions[i - 1]);
    }
  }

  // ---------------------------------------------------------------- waiting

  function Needs(s: State, t: nat): LockKey
    requires Blocked(s, t)
  {
    s.txs[t].plan[s.txs[t].taken]
  }

  predicate WaitsFor(s: State, t: nat, u: nat) {
    Blocked(s, t) && s.locks[Needs(s, t)] == u
  }

  /** A chain of waits climbs the lock order. */
  lemma {:induction false} ChainRises(s: State, ts: seq<nat>)
    requires Ordered(s) && |ts| >= 2 && Blocked(s, ts[0]) && Blocked(s, ts[|ts| - 1])
    requires forall i :: 0 <= i < |ts| - 1 ==> WaitsFor(s, ts[i], ts[i + 1])
    ensures Before(Needs(s, ts[0]), Needs(s, ts[|ts| - 1]))
  {
    assert WaitsFor(s, ts[0], ts[1]) && LockTaken(s, Needs(s, ts[0])) && TxOrdered(s.txs[ts[1]]);
    var held := s.txs[ts[1]].plan[..s.txs[ts[1]].taken];
    var i :| 0 <= i < |held| && held[i] == Needs(s, ts[0]);
    if |ts| > 2 {
      assert WaitsFor(s, ts[1], ts[2]);
      ChainRises(s, ts[1..]);
    }
  }

  /** No circle of transactions waits, in any state of any run. */
  lemma NeverDeadlocked(w: World, states: seq<State>, actions: seq<Action>, i: nat, ts: seq<nat>)
    requires IsRun(w, states, actions) && i < |states| && |ts| >= 2
    requires forall j :: 0 <= j < |ts| - 1 ==> WaitsFor(states[i], ts[j], ts[j + 1])
    ensures ts[0] != ts[|ts| - 1]
  {
    RunKeeps(w, states, actions, i);
    assert WaitsFor(states[i], ts[0], ts[1]);
    if Blocked(states[i], ts[|ts| - 1]) {
      ChainRises(states[i], ts);
    }
  }

  lemma {:induction false} FurthestWaiter(s: State, ts: set<nat>) returns (t: nat)
    requires ts != {} && forall u :: u in ts ==> Blocked(s, u)
    ensures t in ts && forall u :: u in ts ==> !Before(Needs(s, t), Needs(s, u))
  {
    t :| t in ts;
    if ts != {t} {
      var v := FurthestWaiter(s, ts - {t});
      if Before(Needs(s, t), Needs(s, v)) { t := v; }
    }
  }

  /** While transactions are open, one of them can take a step of its own other than giving up. */
  lemma SomeoneAdvances(w: World, states: seq<State>, actions: seq<Action>, i: nat) returns (a: Action)
    requires IsRun(w, states, actions) && i < |states| && states[i].txs != map[]
    ensures (a.Acquire? || a.Check? || a.Commit? || a.Recheck? || a.Erase? || a.Finish?) && Enabled(w, states[i], a)
  {
    RunKeeps(w, states, actions, i);
    var s := states[i];
    var t :| t in s.txs;
    if forall u :: u in s.txs ==> Blocked(s, u) {
      t := FurthestWaiter(s, s.txs.Keys);
    }
    if Blocked(s, t) { t :| t in s.txs && !Blocked(s, t); }
    var tx := s.txs[t];
    assert TxOrdered(tx);
    if !AllLocked(tx) { a := Acquire(t); }
    else if tx.Registrar? { a := if tx.checked < |tx.regs| then Check(t) else Commit(t, map[]); }
    else { a := match tx.phase case Checking => Recheck(t) case Cleared => Erase(t) case Erased => Finish(t); }
  }
}
