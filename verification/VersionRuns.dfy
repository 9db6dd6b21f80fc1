/** What every run of imports, reparses and deletions keeps of the shared records. */
module VersionRuns {
  import opened VersionModel

  // ---------------------------------------------------------------- the version invariant

  ghost predicate ObservationOk(s: State, k: Sighting)
    requires k in s.obs
  {
    && k.source in s.exports && k.entity in s.rows
    && s.obs[k] in KeptOf(s.versions, k.entity)
    && Showing(k.source, k.entity, s.obs[k]) in s.shown
  }

  ghost predicate RowOk(s: State, x: Entity)
    requires x in s.rows
  {
    s.rows[x].digest in KeptOf(s.versions, x) && s.rows[x].header == s.rows[x].digest.header
  }

  ghost predicate AllNamed(s: State, x: Entity) {
    forall d :: d in KeptOf(s.versions, x) ==> Named(s.obs, x, d)
  }

  /** An observed record's current content is a kept snapshot, every snapshot is named by a live
      export's observation, and every observation has its record and its snapshot. */
  ghost predicate Versioned(s: State) {
    && s.versions.Keys == s.rows.Keys
    && (forall k :: k in s.obs ==> ObservationOk(s, k))
    && (forall x :: x in s.rows ==> RowOk(s, x))
    && (forall x :: x in s.rows ==> AllNamed(s, x))
  }

  // ---------------------------------------------------------------- presenting

  lemma PresentKeepsNames(s: State, e: nat, x: Entity, c: Content, y: Entity)
    requires Versioned(s) && y in Presented(s, e, x, c).rows
    ensures AllNamed(Presented(s, e, x, c), y)
  {
    var s' := Presented(s, e, x, c);
    assert s'.obs[Sighting(e, x)] == c;
    if y != x {
      assert AllNamed(s, y) && KeptOf(s'.versions, y) == KeptOf(s.versions, y);
      forall d | d in KeptOf(s.versions, y) ensures Named(s'.obs, y, d) { StillNamed(s.obs, e, x, c, y, d); }
    } else {
      forall d | d in KeptOf(s'.versions, y) ensures Named(s'.obs, y, d) {
        if d == c { assert Sighting(e, x) in s'.obs; }
      }
    }
  }

  lemma StillNamed(obs: map<Sighting, Content>, e: nat, x: Entity, c: Content, y: Entity, d: Content)
    requires y != x && Named(obs, y, d)
    ensures Named(obs[Sighting(e, x) := c], y, d)
  {
    var obs' := obs[Sighting(e, x) := c];
    var k :| k in obs && k.entity == y && obs[k] == d;
    assert k in obs' && obs'[k] == d;
  }

  lemma PresentKeepsObservation(s: State, e: nat, x: Entity, c: Content, k: Sighting)
    requires Versioned(s) && e in s.exports && k in Presented(s, e, x, c).obs
    ensures ObservationOk(Presented(s, e, x, c), k)
  {
    var s' := Presented(s, e, x, c);
    if k != Sighting(e, x) {
      assert ObservationOk(s, k);
      assert s'.obs[k] == s.obs[k];
      assert Named(s'.obs, k.entity, s.obs[k]);
    } else {
      assert x in s.rows ==> RowOk(s, x);
    }
  }

  lemma PresentKeepsRow(s: State, e: nat, x: Entity, c: Content, y: Entity)
    requires Versioned(s) && y in Presented(s, e, x, c).rows
    ensures RowOk(Presented(s, e, x, c), y)
  {
    if y in s.rows { assert RowOk(s, y); }
  }

  lemma PresentVersioned(s: State, e: nat, x: Entity, c: Content)
    requires Versioned(s) && e in s.exports
    ensures Versioned(Presented(s, e, x, c))
  {
    var s' := Presented(s, e, x, c);
    forall y | y in s'.rows ensures AllNamed(s', y) && RowOk(s', y) {
      PresentKeepsNames(s, e, x, c, y);
      PresentKeepsRow(s, e, x, c, y);
    }
    forall k | k in s'.obs ensures ObservationOk(s', k) { PresentKeepsObservation(s, e, x, c, k); }
  }

  // ---------------------------------------------------------------- removal

  /** After the removal a record that stays is still observed, but may keep a version nobody names. */
  ghost predicate CutOk(s: State) {
    && s.versions.Keys == s.rows.Keys
    && (forall k :: k in s.obs ==> ObservationOk(s, k))
    && (forall x :: x in s.rows ==> RowOk(s, x))
    && (forall x :: x in s.rows ==> Retained(s.obs, {}, x))
  }

  lemma CutObservation(s: State, p: Plan, k: Sighting)
    requires Versioned(s) && UpToDate(s, p) && k in Cut(s, p).obs
    ensures ObservationOk(Cut(s, p), k)
  {
    assert ObservationOk(s, k);
    assert Retained(s.obs, p.exports, k.entity);
    assert k.entity !in p.doomed * s.rows.Keys;
  }

  lemma CutRow(s: State, p: Plan, x: Entity)
    requires Versioned(s) && UpToDate(s, p) && x in Cut(s, p).rows
    ensures RowOk(Cut(s, p), x) && Retained(Cut(s, p).obs, {}, x)
  {
    assert RowOk(s, x);
    assert x !in Doomed(s, p.exports);
    var k :| k in s.obs && k.entity == x && k.source !in p.exports;
    assert k in Cut(s, p).obs;
  }

  lemma CutKeeps(s: State, p: Plan)
    requires Versioned(s) && UpToDate(s, p)
    ensures CutOk(Cut(s, p))
  {
    var t := Cut(s, p);
    forall k | k in t.obs ensures ObservationOk(t, k) { CutObservation(s, p, k); }
    forall x | x in t.rows ensures RowOk(t, x) && Retained(t.obs, {}, x) { CutRow(s, p, x); }
  }

  /** The versions held for an observed record are what live exports named, and there is one. */
  lemma HeldIsNamed(s: State, x: Entity)
    requires CutOk(s) && x in s.rows
    ensures var held := Held(s.exports, s.obs, KeptOf(s.versions, x), x);
            && held != []
            && forall i :: 0 <= i < |held| ==>
                 exists k :: k in s.obs && k.entity == x && s.obs[k] == held[i]
  {
    var vs := KeptOf(s.versions, x);
    var es := Arrival(s.exports, Observers(s.exports, s.obs, vs, x));
    var k :| k in s.obs && k.entity == x;
    assert ObservationOk(s, k);
    assert k.source in Observers(s.exports, s.obs, vs, x) by { assert k == Sighting(k.source, x); }
    assert k.source in es;
    var held := Held(s.exports, s.obs, vs, x);
    forall i | 0 <= i < |held| ensures exists k :: k in s.obs && k.entity == x && s.obs[k] == held[i] {
      assert es[i] in es;
      assert Sighting(es[i], x) in s.obs && s.obs[Sighting(es[i], x)] == held[i];
    }
  }

  lemma StaleRow(s: State, x: Entity)
    requires CutOk(s) && x in s.rows && Stale(s.versions, s.obs, x)
    ensures RowOk(Rebuilt(s), x)
  {
    HeldIsNamed(s, x);
    var held := Held(s.exports, s.obs, KeptOf(s.versions, x), x);
    var newest := held[|held| - 1];
    var k :| k in s.obs && k.entity == x && s.obs[k] == newest;
    assert ObservationOk(s, k);
    assert Named(s.obs, x, newest);
    assert Rebuilt(s).rows[x] == Restored(x, s.rows[x].history, held);
  }

  lemma RebuiltNames(s: State, x: Entity)
    requires CutOk(s) && x in s.rows
    ensures AllNamed(Rebuilt(s), x)
  {
  }

  lemma RebuiltRow(s: State, x: Entity)
    requires CutOk(s) && x in s.rows
    ensures RowOk(Rebuilt(s), x) && AllNamed(Rebuilt(s), x)
  {
    RebuiltNames(s, x);
    if Stale(s.versions, s.obs, x) {
      StaleRow(s, x);
    } else {
      assert RowOk(s, x);
      assert Rebuilt(s).rows[x] == s.rows[x] && KeptOf(Rebuilt(s).versions, x) == KeptOf(s.versions, x);
    }
  }

  lemma RebuiltVersioned(s: State)
    requires CutOk(s)
    ensures Versioned(Rebuilt(s))
  {
    var t := Rebuilt(s);
    forall x | x in t.rows ensures RowOk(t, x) && AllNamed(t, x) { RebuiltRow(s, x); }
    forall k | k in t.obs ensures ObservationOk(t, k) {
      assert ObservationOk(s, k);
      assert Named(s.obs, k.entity, s.obs[k]);
    }
  }

  // ---------------------------------------------------------------- runs

  /** The parts of the state the version invariant does not read. */
  lemma VersionedFrame(s: State, s': State)
    requires Versioned(s) && s'.obs == s.obs && s'.versions == s.versions && s'.rows == s.rows && s'.shown == s.shown
    requires s.exports.Keys <= s'.exports.Keys
    ensures Versioned(s')
  {
    forall k | k in s'.obs ensures ObservationOk(s', k) { assert ObservationOk(s, k); }
    forall x | x in s'.rows ensures RowOk(s', x) && AllNamed(s', x) { assert RowOk(s, x) && AllNamed(s, x); }
  }

  lemma RemoveVersioned(w: set<Showing>, s: State, r: nat)
    requires Versioned(s) && r in s.plans && UpToDate(s, s.plans[r])
    ensures Versioned(Apply(w, s, RemoveRows(r)))
  {
    CutKeeps(s, s.plans[r]);
    RebuiltVersioned(Cut(s, s.plans[r]));
    VersionedFrame(Rebuilt(Cut(s, s.plans[r])), Apply(w, s, RemoveRows(r)));
  }

  /** Every import, reparse and plan keeps the version invariant, and so does every row removal whose
      plan is up to date. */
  lemma StepKeeps(w: set<Showing>, s: State, a: Action)
    requires Versioned(s) && Enabled(w, s, a) && Allowed(WhileCurrent, s, a)
    ensures Versioned(Apply(w, s, a))
  {
    match a
    case Receive(e, at) => VersionedFrame(s, Apply(w, s, a));
    case Present(e, x, c) => PresentVersioned(s, e, x, c);
    case PlanDeletion(r, scope) => VersionedFrame(s, Apply(w, s, a));
    case RemoveRows(r) => RemoveVersioned(w, s, r);
  }

  lemma {:induction false} RunVersioned(w: set<Showing>, states: seq<State>, actions: seq<Action>, i: nat)
    requires IsRun(w, WhileCurrent, states, actions) && i < |states|
    ensures Versioned(states[i])
  {
    if i > 0 {
      RunVersioned(w, states, actions, i - 1);
      StepKeeps(w, states[i - 1], actions[i - 1]);
    }
  }

  /** In every run of imports, reparses and deletions whose plans are up to date when they are carried
      out, however they interleave, the version invariant holds. */
  lemma VersionsInEveryRun(w: set<Showing>, s: State)
    requires Reachable(w, WhileCurrent, s)
    ensures Versioned(s)
  {
    var states, actions :| IsRun(w, WhileCurrent, states, actions) && states[|actions|] == s;
    RunVersioned(w, states, actions, |actions|);
  }

  /** So after a removal a record none of whose snapshots lost its name still holds what a retained
      export presented, and needs no restoring. */
  lemma NothingStaleNothingLost(w: set<Showing>, s: State, r: nat, x: Entity)
    requires Reachable(w, WhileCurrent, s) && r in s.plans && UpToDate(s, s.plans[r])
    requires x in Cut(s, s.plans[r]).rows && !Stale(Cut(s, s.plans[r]).versions, Cut(s, s.plans[r]).obs, x)
    ensures exists k :: k in s.obs && k.entity == x && k.source in s.exports && k.source !in s.plans[r].exports
                        && s.obs[k] == s.rows[x].digest
  {
    VersionsInEveryRun(w, s);
    var t := Cut(s, s.plans[r]);
    CutKeeps(s, s.plans[r]);
    assert RowOk(t, x);
    assert Named(t.obs, x, s.rows[x].digest);
    var k :| k in t.obs && k.entity == x && t.obs[k] == s.rows[x].digest;
    assert ObservationOk(s, k);
  }

  // ---------------------------------------------------------------- exactly when a removal is safe

  /** A record that stays without an observer is not versioned. */
  lemma OrphanBreaks(s: State, p: Plan, x: Entity)
    requires Versioned(s) && x in s.rows && x !in p.doomed && x in Doomed(s, p.exports)
    ensures !Versioned(Rebuilt(Cut(s, p)))
  {
    var t := Rebuilt(Cut(s, p));
    assert x in t.rows;
    forall d ensures !Named(t.obs, x, d) {
      forall k | k in t.obs ensures k.entity != x { assert k in s.obs && k.source !in p.exports; }
    }
    if RowOk(t, x) { assert !AllNamed(t, x); }
  }

  /** An observation whose record went is not versioned. */
  lemma DanglingBreaks(s: State, p: Plan, x: Entity)
    requires Versioned(s) && x in s.rows && x in p.doomed && x !in Doomed(s, p.exports)
    ensures !Versioned(Rebuilt(Cut(s, p)))
  {
    var t := Rebuilt(Cut(s, p));
    assert x !in t.rows;
    var k :| k in s.obs && k.entity == x && k.source !in p.exports;
    assert k in t.obs && !ObservationOk(t, k);
  }

  /** A row removal keeps the version invariant exactly when its plan is up to date: the records it
      dooms are those that no export outside its scope observes now. */
  lemma RemovalSafeExactlyWhen(s: State, p: Plan)
    requires Versioned(s)
    ensures Versioned(Rebuilt(Cut(s, p))) <==> UpToDate(s, p)
  {
    if UpToDate(s, p) {
      CutKeeps(s, p);
      RebuiltVersioned(Cut(s, p));
    } else if x :| x in s.rows && x !in p.doomed && x in Doomed(s, p.exports) {
      OrphanBreaks(s, p, x);
    } else {
      var x :| x in p.doomed * s.rows.Keys && x !in Doomed(s, p.exports);
      DanglingBreaks(s, p, x);
    }
  }
}
