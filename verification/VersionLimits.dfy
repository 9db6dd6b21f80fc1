/** Exactly when a deletion leaves only retained content, and what a plan that is out of date breaks. */
module VersionLimits {
  import opened VersionModel
  import opened VersionReplay
  import opened VersionRuns
  import opened VersionContent

  // ---------------------------------------------------------------- beginnings of runs

  /** Exports received and nothing presented yet. */
  ghost predicate Fresh(s: State, ids: set<nat>) {
    s == INIT.(exports := s.exports, used := ids) && s.exports.Keys == ids
  }

  lemma {:induction false} Received(w: set<Showing>, d: Discipline, ids: set<nat>) returns (s: State)
    ensures Reachable(w, d, s) && Fresh(s, ids)
  {
    if ids == {} {
      ReachableInit(w, d);
      s := INIT;
    } else {
      var e :| e in ids;
      var t := Received(w, d, ids - {e});
      Step(w, d, t, Receive(e, 0));
      s := Apply(w, t, Receive(e, 0));
      assert ids - {e} + {e} == ids;
    }
  }

  lemma PresentStep(w: set<Showing>, d: Discipline, s: State, k: Showing)
    requires Reachable(w, d, s) && k in w && k.source in s.exports
    ensures Reachable(w, d, Presented(s, k.source, k.entity, k.content))
  {
    Step(w, d, s, Present(k.source, k.entity, k.content));
  }

  // ---------------------------------------------------------------- a leak

  ghost predicate AlwaysOnlyRetained(w: set<Showing>) {
    forall s :: Reachable(w, WhileExact, s) ==> OnlyRetained(s)
  }

  function Shown(s: State, k: Showing): State {
    Presented(s, k.source, k.entity, k.content)
  }

  /** Presenting more never takes parts out of a history. */
  lemma PartsStay(s: State, k: Showing, m: nat, p: Parts)
    requires k.entity in s.rows && k.entity.Conversation? && p in At(s.rows[k.entity].history, m)
    ensures k.entity in Shown(s, k).rows && p in At(Shown(s, k).rows[k.entity].history, m)
  {
    if !Unchanged(s.rows, k.entity, k.content) {
      DetailAt(s.rows[k.entity].history, k.content, m);
      WrittenHolds(At(s.rows[k.entity].history, m), At(k.content.messages, m));
    }
  }

  lemma FirstParts(s: State, k: Showing, m: nat, p: Parts)
    requires k.entity !in s.rows && k.entity.Conversation? && p in At(k.content.messages, m) && p != []
    ensures k.entity in Shown(s, k).rows && p in At(Shown(s, k).rows[k.entity].history, m)
  {
    DetailAt(map[], k.content, m);
    WrittenHolds([], At(k.content.messages, m));
  }

  /** The export has presented `a` and then `b`, the others `g` and `b`. */
  ghost predicate AllPresented(s: State, a: Showing, b: Showing, f: Showing, g: Showing) {
    && s.plans == map[] && s.exports.Keys == {a.source, f.source, g.source} && s.shown == {a, b, g, f}
    && s.obs.Keys == {Sighting(a.source, a.entity), Sighting(g.source, a.entity), Sighting(f.source, a.entity)}
    && s.obs[Sighting(a.source, a.entity)] == b.content && s.obs[Sighting(f.source, a.entity)] == b.content
    && (g.source != f.source ==> s.obs[Sighting(g.source, a.entity)] == g.content)
  }

  lemma ShownFacts(s: State, k: Showing)
    ensures var t := Shown(s, k);
            && t.exports == s.exports && t.plans == s.plans && t.shown == s.shown + {k}
            && t.obs == s.obs[Sighting(k.source, k.entity) := k.content]
  {
    assert k == Showing(k.source, k.entity, k.content);
  }

  function InTurn(s: State, a: Showing, b: Showing, f: Showing, g: Showing): State {
    Shown(Shown(Shown(Shown(s, a), b), g), f)
  }

  lemma InTurnPresented(s: State, a: Showing, b: Showing, f: Showing, g: Showing)
    requires Fresh(s, {a.source, f.source, g.source}) && Replaces(a, b, f, g)
    ensures AllPresented(InTurn(s, a, b, f, g), a, b, f, g)
  {
    InTurnFacts(s, a, b, f, g);
    PresentedFrom(s, InTurn(s, a, b, f, g), a, b, f, g);
  }

  /** `t` is `s` after the four are shown, as far as exports, plans and observations go. */
  ghost predicate Follows(s: State, t: State, a: Showing, b: Showing, f: Showing, g: Showing) {
    && t.exports == s.exports && t.plans == s.plans && t.shown == s.shown + {a} + {b} + {g} + {f}
    && t.obs == s.obs[Sighting(a.source, a.entity) := a.content][Sighting(b.source, b.entity) := b.content]
                     [Sighting(g.source, g.entity) := g.content][Sighting(f.source, f.entity) := f.content]
  }

  lemma InTurnFacts(s: State, a: Showing, b: Showing, f: Showing, g: Showing)
    ensures Follows(s, InTurn(s, a, b, f, g), a, b, f, g)
  {
    ShownFacts(s, a);
    ShownFacts(Shown(s, a), b);
    ShownFacts(Shown(Shown(s, a), b), g);
    ShownFacts(Shown(Shown(Shown(s, a), b), g), f);
  }

  lemma PresentedFrom(s: State, t: State, a: Showing, b: Showing, f: Showing, g: Showing)
    requires Fresh(s, {a.source, f.source, g.source}) && Replaces(a, b, f, g) && Follows(s, t, a, b, f, g)
    ensures AllPresented(t, a, b, f, g)
  {
  }

  lemma InTurnReachable(w: set<Showing>, s: State, a: Showing, b: Showing, f: Showing, g: Showing)
    requires Reachable(w, WhileExact, s) && Fresh(s, {a.source, f.source, g.source})
    requires a in w && b in w && f in w && g in w && a.source == b.source
    ensures Reachable(w, WhileExact, InTurn(s, a, b, f, g))
  {
    ShownFacts(s, a);
    ShownFacts(Shown(s, a), b);
    ShownFacts(Shown(Shown(s, a), b), g);
    PresentStep(w, WhileExact, s, a);
    PresentStep(w, WhileExact, Shown(s, a), b);
    PresentStep(w, WhileExact, Shown(Shown(s, a), b), g);
    PresentStep(w, WhileExact, Shown(Shown(Shown(s, a), b), g), f);
  }

  lemma InTurnParts(s: State, a: Showing, b: Showing, f: Showing, g: Showing, m: nat, p: Parts)
    requires s.rows == map[] && Replaces(a, b, f, g) && p in At(a.content.messages, m) && p != []
    ensures var t := InTurn(s, a, b, f, g); a.entity in t.rows && p in At(t.rows[a.entity].history, m)
  {
    FirstParts(s, a, m, p);
    PartsStay(Shown(s, a), b, m, p);
    PartsStay(Shown(Shown(s, a), b), g, m, p);
    PartsStay(Shown(Shown(Shown(s, a), b), g), f, m, p);
  }

  /** What the removal of one export leaves of the observations. */
  function Others(obs: map<Sighting, Content>, gone: nat): map<Sighting, Content> {
    map k | k in obs && k.source !in {gone} :: obs[k]
  }

  lemma NameStays(s: State, a: Showing, b: Showing, f: Showing, g: Showing, d: Content)
    requires AllPresented(s, a, b, f, g) && Replaces(a, b, f, g) && Named(s.obs, a.entity, d)
    ensures Named(Others(s.obs, a.source), a.entity, d)
  {
    var x, obs' := a.entity, Others(s.obs, a.source);
    var k :| k in s.obs && k.entity == x && s.obs[k] == d;
    if k.source == g.source {
      assert k in obs';
    } else {
      assert Sighting(f.source, x) in obs' && obs'[Sighting(f.source, x)] == d;
    }
  }

  lemma CutFacts(s: State, gone: nat, x: Entity)
    requires x in s.rows && Retained(s.obs, {gone}, x)
    ensures var t := Cut(s, PlanOf(s, {gone}));
            x in t.rows && t.obs == Others(s.obs, gone) && KeptOf(t.versions, x) == KeptOf(s.versions, x)
  {
  }

  /** With the replacing export gone, every snapshot still has its name. */
  lemma NothingIsStale(s: State, a: Showing, b: Showing, f: Showing, g: Showing)
    requires Versioned(s) && AllPresented(s, a, b, f, g) && Replaces(a, b, f, g) && a.entity in s.rows
    ensures var t := Cut(s, PlanOf(s, {a.source})); a.entity in t.rows && !Stale(t.versions, t.obs, a.entity)
  {
    var x := a.entity;
    assert Retained(s.obs, {a.source}, x) by { assert Sighting(f.source, x) in s.obs; }
    CutFacts(s, a.source, x);
    assert AllNamed(s, x);
    forall d | d in KeptOf(s.versions, x) ensures Named(Others(s.obs, a.source), x, d) {
      NameStays(s, a, b, f, g, d);
    }
  }

  lemma MessageStays(s: State, gone: set<nat>, g: Showing, m: nat)
    requires SightingsOk(s) && g in s.shown && g.source in s.exports && g.source !in gone
    requires g.entity.Conversation? && m in g.content.messages
    ensures MessageKey(g.entity, m) !in DoomedMessages(s, gone)
  {
    var k := MessageSighting(g.source, MessageKey(g.entity, m));
    assert k in s.seen;
    assert MessageRetained(s.seen, gone, k.key);
  }

  lemma LeakStays(s: State, a: Showing, b: Showing, f: Showing, g: Showing, m: nat, p: Parts)
    requires Versioned(s) && SightingsOk(s) && AllPresented(s, a, b, f, g) && Replaces(a, b, f, g)
    requires m in g.content.messages && a.entity in s.rows && p in At(s.rows[a.entity].history, m)
    ensures var t := Rebuilt(Cut(s, PlanOf(s, {a.source})));
            a.entity in t.rows && p in At(t.rows[a.entity].history, m)
  {
    NothingIsStale(s, a, b, f, g);
    MessageStays(s, {a.source}, g, m);
    CutHistory(s, PlanOf(s, {a.source}), a.entity, m, p);
    RebuiltRow(Cut(s, PlanOf(s, {a.source})), a.entity);
  }

  lemma CutHistory(s: State, plan: Plan, x: Entity, m: nat, p: Parts)
    requires x in s.rows && x in Cut(s, plan).rows && MessageKey(x, m) !in plan.messages
    requires p in At(s.rows[x].history, m)
    ensures p in At(Cut(s, plan).rows[x].history, m)
  {
  }

  lemma RebuiltRow(t: State, x: Entity)
    requires x in t.rows && !Stale(t.versions, t.obs, x)
    ensures x in Rebuilt(t).rows && Rebuilt(t).rows[x] == t.rows[x]
  {
  }

  /** Planning and carrying out a deletion with nothing in between. */
  lemma Deleted(w: set<Showing>, s: State, gone: set<nat>) returns (end: State)
    requires Reachable(w, WhileExact, s) && s.plans == map[] && gone <= s.exports.Keys
    ensures Reachable(w, WhileExact, end) && end.exports == s.exports - gone && end.shown == s.shown
    ensures end.rows == Rebuilt(Cut(s, PlanOf(s, gone))).rows
  {
    Step(w, WhileExact, s, PlanDeletion(0, gone));
    var t := s.(plans := map[0 := PlanOf(s, gone)]);
    assert Apply(w, s, PlanDeletion(0, gone)) == t;
    Step(w, WhileExact, t, RemoveRows(0));
    end := Apply(w, t, RemoveRows(0));
    SamePlan(s, t, gone);
  }

  lemma UnsaidIsNotRetained(s: State, x: Entity, m: nat, p: Parts)
    requires x in s.rows && p in At(s.rows[x].history, m) && !Says(s, x, m, p)
    ensures !OnlyRetained(s)
  {
    assert !HistoryOk(s, x);
  }

  lemma OnlyTwoSpeak(end: State, a: Showing, b: Showing, f: Showing, g: Showing, m: nat, p: Parts)
    requires Replaces(a, b, f, g) && end.shown == {a, b, g, f} && end.exports.Keys == {f.source, g.source}
    requires p !in At(b.content.messages, m) && p !in At(g.content.messages, m)
    ensures !Says(end, a.entity, m, p)
  {
    forall k | k in end.shown && k.source in end.exports ensures p !in At(k.content.messages, m) {
      assert k == f || k == g;
    }
  }

  lemma LeakFrom(w: set<Showing>, s: State, a: Showing, b: Showing, f: Showing, g: Showing, m: nat, p: Parts)
    requires Reachable(w, WhileExact, s) && AllPresented(s, a, b, f, g) && Replaces(a, b, f, g)
    requires m in g.content.messages
    requires a.entity in s.rows && p in At(s.rows[a.entity].history, m)
    requires p !in At(b.content.messages, m) && p !in At(g.content.messages, m)
    ensures !AlwaysOnlyRetained(w)
  {
    var end := Deleted(w, s, {a.source});
    assert end.exports.Keys == {f.source, g.source};
    OnlyTwoSpeak(end, a, b, f, g, m, p);
    LeakStaysInRuns(w, s, a, b, f, g, m, p);
    UnsaidIsNotRetained(end, a.entity, m, p);
  }

  lemma LeakStaysInRuns(w: set<Showing>, s: State, a: Showing, b: Showing, f: Showing, g: Showing, m: nat, p: Parts)
    requires Reachable(w, WhileExact, s) && AllPresented(s, a, b, f, g) && Replaces(a, b, f, g)
    requires m in g.content.messages && a.entity in s.rows && p in At(s.rows[a.entity].history, m)
    ensures var t := Rebuilt(Cut(s, PlanOf(s, {a.source})));
            a.entity in t.rows && p in At(t.rows[a.entity].history, m)
  {
    ReachableInv(w, s);
    LeakStays(s, a, b, f, g, m, p);
  }

  lemma LeakRemains(w: set<Showing>, a: Showing, b: Showing, f: Showing, g: Showing, m: nat, p: Parts)
    requires a in w && b in w && f in w && g in w && Replaces(a, b, f, g)
    requires p in At(a.content.messages, m) && p != [] && m in g.content.messages
    requires p !in At(b.content.messages, m) && p !in At(g.content.messages, m)
    ensures !AlwaysOnlyRetained(w)
  {
    var s := Received(w, WhileExact, {a.source, f.source, g.source});
    InTurnPresented(s, a, b, f, g);
    InTurnReachable(w, s, a, b, f, g);
    InTurnParts(s, a, b, f, g, m, p);
    LeakFrom(w, InTurn(s, a, b, f, g), a, b, f, g, m, p);
  }

  /** A plan does not depend on the plans there are, nor does what a removal leaves of the rows. */
  lemma SamePlan(s: State, t: State, gone: set<nat>)
    requires t == s.(plans := t.plans)
    ensures PlanOf(t, gone) == PlanOf(s, gone)
    ensures Rebuilt(Cut(t, PlanOf(s, gone))).rows == Rebuilt(Cut(s, PlanOf(s, gone))).rows
  {
    var c, d := Cut(t, PlanOf(s, gone)), Cut(s, PlanOf(s, gone));
    assert c == d.(plans := t.plans);
    forall x | x in d.rows ensures RestoredRow(c, x) == RestoredRow(d, x) {}
  }

  /** A deletion always leaves only what retained exports presented, exactly when no export replaces
      parts of a message that another export keeps, by content that yet another export hides. */
  lemma OnlyRetainedExactlyWhen(w: set<Showing>)
    ensures AlwaysOnlyRetained(w) <==> NoLeak(w)
  {
    if NoLeak(w) {
      forall s | Reachable(w, WhileExact, s) ensures OnlyRetained(s) { OnlyRetainedContent(w, s); }
    } else {
      var a, b, f, g :| a in w && b in w && f in w && g in w && Replaces(a, b, f, g)
                        && !Covers(a.content, b.content, g.content);
      var m, p :| p in At(a.content.messages, m) && p != [] && m in g.content.messages
                  && !(p in At(b.content.messages, m) || p in At(g.content.messages, m));
      LeakRemains(w, a, b, f, g, m, p);
    }
  }

  /** Initial imports: an export presents one content of each record. */
  ghost predicate Initial(w: set<Showing>) {
    forall a, b :: a in w && b in w && a.source == b.source && a.entity == b.entity ==> a == b
  }

  lemma InitialImportsNeverLeak(w: set<Showing>, s: State)
    requires Initial(w) && Reachable(w, WhileExact, s)
    ensures OnlyRetained(s)
  {
    assert NoLeak(w) by {
      forall a, b, f, g | a in w && b in w && f in w && g in w && Replaces(a, b, f, g)
        ensures Covers(a.content, b.content, g.content)
      {
        assert a == b;
      }
    }
    OnlyRetainedContent(w, s);
  }

  // ---------------------------------------------------------------- plans out of date

  lemma {:induction false} CurrentIsFree(w: set<Showing>, s: State)
    requires Reachable(w, WhileCurrent, s)
    ensures Reachable(w, Free, s)
  {
    var states, actions :| IsRun(w, WhileCurrent, states, actions) && states[|actions|] == s;
    assert IsRun(w, Free, states, actions);
  }

  /** A plan carried out while it is out of date breaks the version invariant. */
  lemma OutOfDateBreaks(w: set<Showing>, s: State, r: nat)
    requires Reachable(w, WhileCurrent, s) && r in s.plans && !UpToDate(s, s.plans[r])
    ensures Reachable(w, Free, Apply(w, s, RemoveRows(r))) && !Versioned(Apply(w, s, RemoveRows(r)))
  {
    VersionsInEveryRun(w, s);
    RemovalSafeExactlyWhen(s, s.plans[r]);
    CurrentIsFree(w, s);
    Step(w, Free, s, RemoveRows(r));
    var t, u := Rebuilt(Cut(s, s.plans[r])), Apply(w, s, RemoveRows(r));
    if Versioned(u) { VersionedFrame(u, t); }
  }

  /** Two exports have presented the record. */
  lemma TwoObservers(w: set<Showing>, k: Showing, l: Showing) returns (s: State)
    requires k in w && l in w && k.source != l.source && k.entity == l.entity
    ensures Reachable(w, WhileCurrent, s) && s.plans == map[] && k.entity in s.rows
    ensures s.obs == map[Sighting(k.source, k.entity) := k.content, Sighting(l.source, k.entity) := l.content]
    ensures s.exports.Keys == {k.source, l.source}
  {
    var s0 := Received(w, WhileCurrent, {k.source, l.source});
    PresentStep(w, WhileCurrent, s0, k);
    PresentStep(w, WhileCurrent, Shown(s0, k), l);
    s := Shown(Shown(s0, k), l);
  }

  /** Two plans made before either is carried out each count on the other's export: the record both
      share stays with no export to account for it. */
  lemma OverlappingPlansLeaveAnOrphan(w: set<Showing>, k: Showing, l: Showing) returns (s: State)
    requires k in w && l in w && k.source != l.source && k.entity == l.entity
    ensures Reachable(w, Free, s) && !Versioned(s)
    ensures k.entity in s.rows && forall o :: o in s.obs ==> o.entity != k.entity
  {
    var x := k.entity;
    var s0 := TwoObservers(w, k, l);
    var p, q := PlanOf(s0, {k.source}), PlanOf(s0, {l.source});
    assert Retained(s0.obs, {k.source}, x) by { assert Sighting(l.source, x) in s0.obs; }
    assert Retained(s0.obs, {l.source}, x) by { assert Sighting(k.source, x) in s0.obs; }
    Step(w, WhileCurrent, s0, PlanDeletion(0, {k.source}));
    var s1 := s0.(plans := map[0 := p]);
    assert Apply(w, s0, PlanDeletion(0, {k.source})) == s1;
    Step(w, WhileCurrent, s1, PlanDeletion(1, {l.source}));
    var s2 := s0.(plans := map[0 := p, 1 := q]);
    assert Apply(w, s1, PlanDeletion(1, {l.source})) == s2;
    PlanIsUpToDate(s0, {k.source});
    assert UpToDate(s2, p);
    Step(w, WhileCurrent, s2, RemoveRows(0));
    var s3 := Apply(w, s2, RemoveRows(0));
    assert x in s3.rows && s3.plans[1] == q;
    assert !Retained(s3.obs, {l.source}, x);
    assert x in Doomed(s3, q.exports) && x !in q.doomed;
    OutOfDateBreaks(w, s3, 1);
    s := Apply(w, s3, RemoveRows(1));
  }

  /** An import that presents a doomed record between the plan and its removal leaves an observation
      whose record is gone. */
  lemma LateImportLeavesADanglingObservation(w: set<Showing>, k: Showing, l: Showing) returns (s: State)
    requires k in w && l in w && k.source != l.source && k.entity == l.entity
    ensures Reachable(w, Free, s) && !Versioned(s)
    ensures k.entity !in s.rows && Sighting(l.source, k.entity) in s.obs
  {
    var x := k.entity;
    var s0 := Received(w, WhileCurrent, {k.source, l.source});
    PresentStep(w, WhileCurrent, s0, k);
    var s1 := Shown(s0, k);
    var p := PlanOf(s1, {k.source});
    Step(w, WhileCurrent, s1, PlanDeletion(0, {k.source}));
    var s2 := Apply(w, s1, PlanDeletion(0, {k.source}));
    assert !Retained(s1.obs, {k.source}, x);
    assert s2.plans == map[0 := p] && x in p.doomed;
    PresentStep(w, WhileCurrent, s2, l);
    var s3 := Shown(s2, l);
    assert Retained(s3.obs, {k.source}, x) by { assert Sighting(l.source, x) in s3.obs; }
    assert x in p.doomed * s3.rows.Keys && x !in Doomed(s3, p.exports);
    OutOfDateBreaks(w, s3, 0);
    s := Apply(w, s3, RemoveRows(0));
  }
}
