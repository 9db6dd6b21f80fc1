/** Safety of blob registration against erasure over every run, and exactly when it holds. */
module BlobSafety {
  import opened Orders
  import opened BlobModel

  ghost predicate Holds(s: State, t: nat, k: LockKey) {
    k in s.locks && s.locks[k] == t
  }

  /** The plan names the lock of every digest the transaction is about. */
  ghost predicate PlanCovers(tx: Tx) {
    match tx
    case Registrar(plan, _, regs, _) => forall i :: 0 <= i < |regs| ==> Blob(regs[i].ref.digest) in plan
    case Eraser(plan, _, ref, _) => Blob(ref.digest) in plan
  }

  ghost predicate TxOk(w: World, s: State, t: nat, tx: Tx) {
    && PlanCovers(tx)
    && tx.taken <= |tx.plan|
    && (forall i :: 0 <= i < tx.taken ==> Holds(s, t, tx.plan[i]))
    && match tx
       case Registrar(_, _, regs, checked) =>
         && checked <= |regs| && (checked > 0 ==> AllLocked(tx))
         && (forall i :: 0 <= i < |regs| ==> w.Allows(regs[i]))
         && (forall i :: 0 <= i < checked ==> Present(s.objects, regs[i].ref))
       case Eraser(_, _, ref, phase) =>
         && ref in w.refs
         && (!phase.Checking? ==> AllLocked(tx) && !Referenced(s.rows, ref))
  }

  ghost predicate Inv(w: World, s: State) {
    && Safe(s)
    && (forall id :: id in s.rows ==> s.rows[id] in w.refs)
    && s.items <= w.refs
    && (forall d :: d in s.objects ==> d in w.sizes && s.objects[d] == w.sizes[d])
    && (forall t :: t in s.txs ==> TxOk(w, s, t, s.txs[t]))
    && (forall k :: k in s.locks ==> s.locks[k] in s.txs)
  }

  // ---------------------------------------------------------------- locks exclude

  lemma RegistrarPlanCovers(tenant: Option<nat>, regs: seq<Registration>, i: nat)
    requires i < |regs|
    ensures Blob(regs[i].ref.digest) in RegistrarPlan(tenant, regs)
  {
    var d := regs[i].ref.digest;
    assert d in Digests(regs);
    var digests := Ascending(Digests(regs));
    assert d in digests;
    var j :| 0 <= j < |digests| && digests[j] == d;
    assert BlobLocks(digests)[j] == Blob(d);
  }

  /** A registrar that has started checking holds the lock of each of its digests. */
  lemma RegistrarHolds(w: World, s: State, t: nat, i: nat)
    requires t in s.txs && TxOk(w, s, t, s.txs[t]) && s.txs[t].Registrar? && AllLocked(s.txs[t]) && i < |s.txs[t].regs|
    ensures Holds(s, t, Blob(s.txs[t].regs[i].ref.digest))
  {
    var plan := s.txs[t].plan;
    var j :| 0 <= j < |plan| && plan[j] == Blob(s.txs[t].regs[i].ref.digest);
    assert Holds(s, t, plan[j]);
  }

  lemma EraserHolds(w: World, s: State, t: nat)
    requires t in s.txs && TxOk(w, s, t, s.txs[t]) && s.txs[t].Eraser? && AllLocked(s.txs[t])
    ensures Holds(s, t, Blob(s.txs[t].ref.digest))
  {
    var plan := s.txs[t].plan;
    var j :| 0 <= j < |plan| && plan[j] == Blob(s.txs[t].ref.digest);
    assert Holds(s, t, plan[j]);
  }

  // ---------------------------------------------------------------- steps

  /** A transaction that keeps its locks stays in order, if what it relies on is still so. */
  lemma TxKeeps(w: World, s: State, s': State, u: nat, tx: Tx)
    requires TxOk(w, s, u, tx)
    requires forall k :: Holds(s, u, k) ==> Holds(s', u, k)
    requires tx.Registrar? ==> forall i :: 0 <= i < tx.checked ==> Present(s'.objects, tx.regs[i].ref)
    requires tx.Eraser? && !tx.phase.Checking? ==> !Referenced(s'.rows, tx.ref)
    ensures TxOk(w, s', u, tx)
  {
    forall i | 0 <= i < tx.taken ensures Holds(s', u, tx.plan[i]) {
      assert Holds(s, u, tx.plan[i]);
    }
  }

  /** The end of a transaction takes nothing from the others. */
  lemma EndKeeps(w: World, s: State, t: nat)
    requires Safe(s) && s.items <= w.refs && (forall d :: d in s.objects ==> d in w.sizes && s.objects[d] == w.sizes[d])
    requires forall id :: id in s.rows ==> s.rows[id] in w.refs
    requires forall u :: u in s.txs && u != t ==> TxOk(w, s, u, s.txs[u])
    requires forall k :: k in s.locks ==> s.locks[k] in s.txs
    ensures Inv(w, Ended(s, t))
  {
    var s' := Ended(s, t);
    forall u | u in s'.txs ensures TxOk(w, s', u, s'.txs[u]) {
      TxKeeps(w, s, s', u, s.txs[u]);
    }
  }

  /** More objects hurt nobody. */
  lemma StoreKeeps(w: World, s: State, b: Bytes)
    requires Inv(w, s) && w.Holds(b)
    ensures Inv(w, s.(objects := Stored(s.objects, b)))
  {
    var s' := s.(objects := Stored(s.objects, b));
    forall u | u in s'.txs ensures TxOk(w, s', u, s'.txs[u]) {
      TxKeeps(w, s, s', u, s.txs[u]);
    }
  }

  lemma BeginKeeps(w: World, s: State, a: Action)
    requires Inv(w, s) && Enabled(w, s, a) && (a.BeginRegistrar? || a.BeginEraser?)
    ensures Inv(w, Apply(w, s, a))
  {
    var s' := Apply(w, s, a);
    if a.BeginRegistrar? {
      forall i | 0 <= i < |a.regs| ensures Blob(a.regs[i].ref.digest) in RegistrarPlan(a.tenant, a.regs) {
        RegistrarPlanCovers(a.tenant, a.regs, i);
      }
    }
    forall u | u in s'.txs ensures TxOk(w, s', u, s'.txs[u]) {
      if u in s.txs { TxKeeps(w, s, s', u, s.txs[u]); }
    }
  }

  lemma AcquireKeeps(w: World, s: State, t: nat)
    requires Inv(w, s) && Enabled(w, s, Acquire(t))
    ensures Inv(w, Apply(w, s, Acquire(t)))
  {
    var s', tx := Apply(w, s, Acquire(t)), s.txs[t];
    forall u | u in s'.txs ensures TxOk(w, s', u, s.txs[u]) {
      TxKeeps(w, s, s', u, s.txs[u]);
    }
    assert Holds(s', t, tx.plan[tx.taken]);
    assert TxOk(w, s', t, s'.txs[t]);
  }

  /** A check that succeeds leaves the object present, whichever way it succeeds: bytes that hash to
      the referenced digest are the object's bytes. */
  lemma CheckStores(w: World, s: State, t: nat)
    requires Inv(w, s) && Enabled(w, s, Check(t))
    ensures var c := Checked(s.objects, s.txs[t].regs[s.txs[t].checked]);
            && Inv(w, s.(objects := c.0))
            && (c.1 ==> Present(c.0, s.txs[t].regs[s.txs[t].checked].ref))
  {
    var reg := s.txs[t].regs[s.txs[t].checked];
    assert TxOk(w, s, t, s.txs[t]) && w.Allows(reg);
    if !Present(s.objects, reg.ref) && reg.held.Some? {
      StoreKeeps(w, s, reg.held.value);
    } else {
      assert s.(objects := s.objects) == s;
    }
  }

  lemma CheckFails(w: World, s: State, t: nat)
    requires Inv(w, s) && t in s.txs
    ensures Inv(w, Ended(s, t))
  {
    EndKeeps(w, s, t);
  }

  lemma CheckKeeps(w: World, s: State, t: nat)
    requires Inv(w, s) && Enabled(w, s, Check(t))
    ensures Inv(w, Apply(w, s, Check(t)))
  {
    CheckStores(w, s, t);
    var c := Checked(s.objects, s.txs[t].regs[s.txs[t].checked]);
    var mid := s.(objects := c.0);
    if c.1 {
      CheckedKeeps(w, mid, t);
    } else {
      CheckFails(w, mid, t);
    }
  }

  lemma CheckedKeeps(w: World, s: State, t: nat)
    requires Inv(w, s) && t in s.txs && s.txs[t].Registrar? && AllLocked(s.txs[t]) && s.txs[t].checked < |s.txs[t].regs|
    requires Present(s.objects, s.txs[t].regs[s.txs[t].checked].ref)
    ensures Inv(w, s.(txs := s.txs[t := s.txs[t].(checked := s.txs[t].checked + 1)]))
  {
    var s' := s.(txs := s.txs[t := s.txs[t].(checked := s.txs[t].checked + 1)]);
    forall u | u in s'.txs ensures TxOk(w, s', u, s.txs[u]) {
      TxKeeps(w, s, s', u, s.txs[u]);
    }
    assert TxOk(w, s', t, s'.txs[t]);
  }

  /** A commit adds rows whose objects were proved present under locks it still holds; no eraser that
      already cleared one of those digests can exist beside it. */
  lemma CommitKeeps(w: World, s: State, t: nat, placed: map<nat, nat>)
    requires Inv(w, s) && Enabled(w, s, Commit(t, placed))
    ensures Inv(w, Apply(w, s, Commit(t, placed)))
  {
    var regs := s.txs[t].regs;
    var mid := s.(rows := Inserted(s.rows, regs, placed));
    assert TxOk(w, s, t, s.txs[t]);
    forall u | u in mid.txs && u != t ensures TxOk(w, mid, u, mid.txs[u]) {
      if s.txs[u].Eraser? && !s.txs[u].phase.Checking? { ClearedStays(w, s, t, u, placed); }
      TxKeeps(w, s, mid, u, s.txs[u]);
    }
    EndKeeps(w, mid, t);
  }

  lemma ClearedStays(w: World, s: State, t: nat, u: nat, placed: map<nat, nat>)
    requires Inv(w, s) && Enabled(w, s, Commit(t, placed))
    requires u in s.txs && s.txs[u].Eraser? && !s.txs[u].phase.Checking?
    ensures !Referenced(Inserted(s.rows, s.txs[t].regs, placed), s.txs[u].ref)
  {
    assert TxOk(w, s, t, s.txs[t]) && TxOk(w, s, u, s.txs[u]);
    EraserHolds(w, s, u);
    forall i | 0 <= i < |s.txs[t].regs| ensures s.txs[t].regs[i].ref.digest != s.txs[u].ref.digest {
      RegistrarHolds(w, s, t, i);
    }
    var rows' := Inserted(s.rows, s.txs[t].regs, placed);
    forall id | id in rows' ensures rows'[id] != s.txs[u].ref {
      if id in placed { assert rows'[id] == s.txs[t].regs[placed[id]].ref; }
    }
  }

  lemma RecheckKeeps(w: World, s: State, t: nat)
    requires Inv(w, s) && Enabled(w, s, Recheck(t))
    ensures Inv(w, Apply(w, s, Recheck(t)))
  {
    if Referenced(s.rows, s.txs[t].ref) {
      FinishKeeps(w, s, t);
    } else {
      var s' := Apply(w, s, Recheck(t));
      forall u | u in s'.txs ensures TxOk(w, s', u, s.txs[u]) {
        TxKeeps(w, s, s', u, s.txs[u]);
      }
      assert TxOk(w, s', t, s'.txs[t]);
    }
  }

  /** Erasing a cleared digest touches no committed row: the re-check excluded the row with this very
      reference, and agreement on the media type excludes any other. */
  lemma EraseSparesRows(w: World, s: State, t: nat, id: nat)
    requires OneMediaType(w) && Inv(w, s) && t in s.txs && s.txs[t].Eraser? && !s.txs[t].phase.Checking?
    requires Erasable(s.objects, s.txs[t].ref) && id in s.rows
    ensures s.rows[id].digest != s.txs[t].ref.digest
  {
    assert TxOk(w, s, t, s.txs[t]);
    assert Present(s.objects, s.rows[id]) && s.rows[id] in w.refs && s.rows[id] != s.txs[t].ref;
  }

  /** Nor a registration that is already checked: its transaction holds the digest's lock. */
  lemma EraseSparesChecked(w: World, s: State, t: nat, u: nat, i: nat)
    requires Inv(w, s) && t in s.txs && s.txs[t].Eraser? && !s.txs[t].phase.Checking?
    requires u in s.txs && s.txs[u].Registrar? && i < s.txs[u].checked
    ensures i < |s.txs[u].regs| && s.txs[u].regs[i].ref.digest != s.txs[t].ref.digest
  {
    assert TxOk(w, s, t, s.txs[t]) && TxOk(w, s, u, s.txs[u]);
    EraserHolds(w, s, t);
    RegistrarHolds(w, s, u, i);
  }

  lemma EraseSparesTx(w: World, s: State, t: nat, u: nat)
    requires Inv(w, s) && Enabled(w, s, Erase(t)) && Erasable(s.objects, s.txs[t].ref) && u in s.txs
    ensures TxOk(w, Apply(w, s, Erase(t)), u, s.txs[u])
  {
    var s' := Apply(w, s, Erase(t));
    assert TxOk(w, s, u, s.txs[u]);
    forall i | s.txs[u].Registrar? && 0 <= i < s.txs[u].checked ensures Present(s'.objects, s.txs[u].regs[i].ref) {
      EraseSparesChecked(w, s, t, u, i);
    }
    TxKeeps(w, s, s', u, s.txs[u]);
  }

  lemma EraseKeeps(w: World, s: State, t: nat)
    requires OneMediaType(w) && Inv(w, s) && Enabled(w, s, Erase(t))
    ensures Inv(w, Apply(w, s, Erase(t)))
  {
    if !Erasable(s.objects, s.txs[t].ref) {
      EndKeeps(w, s, t);
    } else {
      var s' := Apply(w, s, Erase(t));
      forall id | id in s'.rows ensures Present(s'.objects, s'.rows[id]) {
        EraseSparesRows(w, s, t, id);
      }
      forall u | u in s'.txs ensures TxOk(w, s', u, s.txs[u]) { EraseSparesTx(w, s, t, u); }
      assert TxOk(w, s', t, s'.txs[t]);
    }
  }

  lemma FinishKeeps(w: World, s: State, t: nat)
    requires Inv(w, s) && t in s.txs && s.txs[t].Eraser?
    ensures Inv(w, Ended(s.(items := s.items - {s.txs[t].ref}), t))
  {
    var mid := s.(items := s.items - {s.txs[t].ref});
    forall u | u in mid.txs ensures TxOk(w, mid, u, mid.txs[u]) {
      TxKeeps(w, s, mid, u, s.txs[u]);
    }
    EndKeeps(w, mid, t);
  }

  lemma DeleteKeeps(w: World, s: State, ids: set<nat>)
    requires Inv(w, s)
    ensures Inv(w, Apply(w, s, DeleteRows(ids)))
  {
    var s' := Apply(w, s, DeleteRows(ids));
    forall u | u in s'.txs ensures TxOk(w, s', u, s'.txs[u]) {
      TxKeeps(w, s, s', u, s.txs[u]);
    }
  }

  lemma StepKeeps(w: World, s: State, a: Action)
    requires OneMediaType(w) && Inv(w, s) && Enabled(w, s, a)
    ensures Inv(w, Apply(w, s, a))
  {
    match a
    case Store(bytes) => StoreKeeps(w, s, bytes);
    case BeginRegistrar(_, _, _) => BeginKeeps(w, s, a);
    case BeginEraser(_, _, _) => BeginKeeps(w, s, a);
    case Acquire(t) => AcquireKeeps(w, s, t);
    case Check(t) => CheckKeeps(w, s, t);
    case Commit(t, placed) => CommitKeeps(w, s, t, placed);
    case Recheck(t) => RecheckKeeps(w, s, t);
    case Erase(t) => EraseKeeps(w, s, t);
    case Finish(t) => FinishKeeps(w, s, t);
    case Abort(t) => EndKeeps(w, s, t);
    case DeleteRows(ids) => DeleteKeeps(w, s, ids);
  }

  lemma {:induction false} RunKeeps(w: World, states: seq<State>, actions: seq<Action>, i: nat)
    requires OneMediaType(w) && IsRun(w, states, actions) && i < |states|
    ensures Inv(w, states[i])
  {
    if i > 0 {
      RunKeeps(w, states, actions, i - 1);
      StepKeeps(w, states[i - 1], actions[i - 1]);
    }
  }

  // ---------------------------------------------------------------- exactly when

  ghost predicate Reachable(w: World, s: State) {
    exists states, actions :: IsRun(w, states, actions) && states[|actions|] == s
  }

  lemma ReachableInv(w: World, s: State)
    requires OneMediaType(w) && Reachable(w, s)
    ensures Inv(w, s)
  {
    var states, actions :| IsRun(w, states, actions) && states[|actions|] == s;
    RunKeeps(w, states, actions, |actions|);
  }

  lemma Step(w: World, s: State, a: Action)
    requires Reachable(w, s) && Enabled(w, s, a)
    ensures Reachable(w, Apply(w, s, a))
  {
    var states, actions :| IsRun(w, states, actions) && states[|actions|] == s;
    ExtendRun(w, states, actions, a);
  }

  lemma ExtendRun(w: World, states: seq<State>, actions: seq<Action>, a: Action)
    requires IsRun(w, states, actions) && Enabled(w, states[|actions|], a)
    ensures Reachable(w, Apply(w, states[|actions|], a))
  {
    var states', actions' := states + [Apply(w, states[|actions|], a)], actions + [a];
    forall i | 0 <= i < |actions'|
      ensures Enabled(w, states'[i], actions'[i]) && states'[i + 1] == Apply(w, states'[i], actions'[i])
    {
      if i < |actions| {
        assert states'[i] == states[i] && actions'[i] == actions[i] && states'[i + 1] == states[i + 1];
      }
    }
    assert IsRun(w, states', actions') && states'[|actions'|] == Apply(w, states[|actions|], a);
  }

  /** Every run keeps every committed reference readable. */
  ghost predicate AlwaysSafe(w: World) {
    forall s :: Reachable(w, s) ==> Safe(s)
  }

  /** Two committed rows that name one object under different media types. */
  function TwoNames(e: Ref, r: Ref): State {
    State(map[e.digest := e.length], map[0 := e, 1 := r], {}, map[], map[])
  }

  lemma SinglePlan(a: Registration, b: Registration)
    requires a.ref.digest == b.ref.digest
    ensures RegistrarPlan(None, [a, b]) == [Blob(a.ref.digest)]
  {
    var regs := [a, b];
    assert Digests(regs) == {a.ref.digest} by {
      assert regs[0] == a && regs[1] == b;
    }
    AscendingUnique([a.ref.digest], Ascending(Digests(regs)));
  }

  /** The registrar of both names, once it holds the one lock and has checked `n` of them. */
  function Registering(e: Ref, r: Ref, n: nat): State {
    State(map[e.digest := e.length], map[], {}, map[Blob(e.digest) := 0],
          map[0 := Registrar([Blob(e.digest)], 1, [Registration(e, None), Registration(r, None)], n)])
  }

  lemma RegisteringStarts(w: World, e: Ref, r: Ref)
    requires e in w.refs && r in w.refs && e.digest == r.digest && w.Storable(e)
    ensures Reachable(w, Registering(e, r, 0))
  {
    var regs, plan := [Registration(e, None), Registration(r, None)], [Blob(e.digest)];
    SinglePlan(regs[0], regs[1]);
    var none: seq<Action> := [];
    assert IsRun(w, [INIT], none) && [INIT][|none|] == INIT;
    Step(w, INIT, Store(Bytes(e.digest, e.length)));
    var s1 := State(map[e.digest := e.length], map[], {}, map[], map[]);
    assert Apply(w, INIT, Store(Bytes(e.digest, e.length))) == s1;
    Step(w, s1, BeginRegistrar(0, None, regs));
    var s2 := s1.(txs := map[0 := Registrar(plan, 0, regs, 0)]);
    assert Apply(w, s1, BeginRegistrar(0, None, regs)) == s2;
    RegisteringAcquires(w, e, r, s2);
  }

  lemma RegisteringAcquires(w: World, e: Ref, r: Ref, s: State)
    requires Reachable(w, s)
    requires s == State(map[e.digest := e.length], map[], {}, map[],
                        map[0 := Registrar([Blob(e.digest)], 0, [Registration(e, None), Registration(r, None)], 0)])
    ensures Reachable(w, Registering(e, r, 0))
  {
    Step(w, s, Acquire(0));
    assert Apply(w, s, Acquire(0)) == Registering(e, r, 0);
  }

  lemma TwoNamesReachable(w: World, e: Ref, r: Ref)
    requires e in w.refs && r in w.refs && e.digest == r.digest && w.Storable(e) && w.Storable(r)
    ensures Reachable(w, TwoNames(e, r))
  {
    RegisteringStarts(w, e, r);
    Step(w, Registering(e, r, 0), Check(0));
    assert Apply(w, Registering(e, r, 0), Check(0)) == Registering(e, r, 1);
    Step(w, Registering(e, r, 1), Check(0));
    assert Apply(w, Registering(e, r, 1), Check(0)) == Registering(e, r, 2);
    Step(w, Registering(e, r, 2), Commit(0, map[0 := 0, 1 := 1]));
    assert Apply(w, Registering(e, r, 2), Commit(0, map[0 := 0, 1 := 1])) == TwoNames(e, r);
  }

  /** The eraser of the one name beside the row of the other, holding both its locks. */
  function Erasing(e: Ref, r: Ref, phase: Phase): State {
    State(map[e.digest := e.length], map[1 := r], {e}, map[Tenant(0) := 0, Blob(e.digest) := 0],
          map[0 := Eraser([Tenant(0), Blob(e.digest)], 2, e, phase)])
  }

  function Listed(e: Ref, r: Ref): State {
    State(map[e.digest := e.length], map[1 := r], {e}, map[], map[])
  }

  lemma DeletionLists(w: World, e: Ref, r: Ref)
    requires e != r && Reachable(w, TwoNames(e, r))
    ensures Reachable(w, Listed(e, r))
  {
    var s := TwoNames(e, r);
    Step(w, s, DeleteRows({0}));
    assert s.rows - {0} == map[1 := r];
    assert !Referenced(map[1 := r], e);
    assert Apply(w, s, DeleteRows({0})).items == {e};
  }

  lemma ErasingStarts(w: World, e: Ref, r: Ref)
    requires Reachable(w, Listed(e, r))
    ensures Reachable(w, Erasing(e, r, Checking))
  {
    var s1 := Listed(e, r);
    Step(w, s1, BeginEraser(0, 0, e));
    var s2 := s1.(txs := map[0 := Eraser(EraserPlan(0, e), 0, e, Checking)]);
    assert Apply(w, s1, BeginEraser(0, 0, e)) == s2;
    ErasingAcquires(w, e, r, s2);
  }

  lemma ErasingAcquires(w: World, e: Ref, r: Ref, s2: State)
    requires s2 == Listed(e, r).(txs := map[0 := Eraser(EraserPlan(0, e), 0, e, Checking)]) && Reachable(w, s2)
    ensures Reachable(w, Erasing(e, r, Checking))
  {
    Step(w, s2, Acquire(0));
    var s3 := s2.(locks := map[Tenant(0) := 0], txs := map[0 := Eraser(EraserPlan(0, e), 1, e, Checking)]);
    assert Apply(w, s2, Acquire(0)) == s3;
    Step(w, s3, Acquire(0));
    assert Apply(w, s3, Acquire(0)) == Erasing(e, r, Checking);
  }

  /** The re-check compares whole references, so the row under the other media type does not save
      the object it shares. */
  lemma OtherNameDangles(w: World, e: Ref, r: Ref)
    requires e != r && e.digest == r.digest && Reachable(w, TwoNames(e, r))
    ensures !AlwaysSafe(w)
  {
    DeletionLists(w, e, r);
    ErasingStarts(w, e, r);
    var s0 := Erasing(e, r, Checking);
    assert !Referenced(s0.rows, e);
    Step(w, s0, Recheck(0));
    assert Apply(w, s0, Recheck(0)) == Erasing(e, r, Cleared);
    Step(w, Erasing(e, r, Cleared), Erase(0));
    var s := Apply(w, Erasing(e, r, Cleared), Erase(0));
    assert 1 in s.rows && !Present(s.objects, s.rows[1]);
  }

  /** No run ever leaves a committed row without its object, exactly when references to one object
      agree on its media type. */
  lemma SafeExactlyWhen(w: World)
    ensures AlwaysSafe(w) <==> OneMediaType(w)
  {
    if OneMediaType(w) {
      forall s | Reachable(w, s) ensures Safe(s) { ReachableInv(w, s); }
    } else {
      var e, r :| e in w.refs && r in w.refs && e.digest == r.digest && w.Storable(e) && w.Storable(r) && e != r;
      TwoNamesReachable(w, e, r);
      OtherNameDangles(w, e, r);
    }
  }
}
