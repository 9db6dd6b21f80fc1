/** What content a deletion leaves: message rows, content parts and snapshots, over every run in which
    a plan is carried out alone. */
module VersionContent {
  import opened VersionModel
  import opened VersionReplay
  import opened VersionRuns

  // ---------------------------------------------------------------- observations of messages

  /** The export presented some content of the conversation that has the message. */
  ghost predicate Presents(shown: set<Showing>, k: MessageSighting) {
    exists g :: g in shown && g.source == k.source && g.entity == k.key.entity && k.key.message in g.content.messages
  }

  ghost predicate IsWatched(seen: set<MessageSighting>, key: MessageKey) {
    exists k :: k in seen && k.key == key
  }

  /** What a live export presents it is recorded to have seen, and nothing else. */
  ghost predicate SightingsOk(s: State) {
    && (forall k :: k in s.seen ==> k.source in s.exports && k.key.entity.Conversation? && Presents(s.shown, k))
    && (forall g, m :: g in s.shown && g.source in s.exports && g.entity.Conversation? && m in g.content.messages ==>
          MessageSighting(g.source, MessageKey(g.entity, m)) in s.seen)
  }

  /** The message rows are those some live export observes. */
  ghost predicate MessageRowsOk(s: State) {
    && (forall x, m :: x in s.rows && m in s.rows[x].history ==> IsWatched(s.seen, MessageKey(x, m)))
    && (forall k :: k in s.seen ==> k.key.entity in s.rows && k.key.message in s.rows[k.key.entity].history)
  }

  ghost predicate ShownOk(w: set<Showing>, s: State) {
    && s.shown <= w && s.exports.Keys <= s.used
    && (forall k :: k in s.shown ==> k.source in s.used)
    && (forall k :: k in s.shown && k.source in s.exports ==> Sighting(k.source, k.entity) in s.obs)
  }

  ghost predicate Inv(w: set<Showing>, s: State) {
    Versioned(s) && ShownOk(w, s) && SightingsOk(s) && MessageRowsOk(s)
  }

  // ---------------------------------------------------------------- presenting

  /** The messages of a conversation's current content have their rows. */
  lemma CurrentMessagesHaveRows(s: State, x: Entity, m: nat)
    requires Versioned(s) && SightingsOk(s) && MessageRowsOk(s) && x in s.rows && x.Conversation?
    requires m in s.rows[x].digest.messages
    ensures m in s.rows[x].history
  {
    assert RowOk(s, x) && AllNamed(s, x);
    var k :| k in s.obs && k.entity == x && s.obs[k] == s.rows[x].digest;
    assert ObservationOk(s, k);
    var g := Showing(k.source, x, s.obs[k]);
    assert g in s.shown && MessageSighting(g.source, MessageKey(g.entity, m)) in s.seen;
  }

  lemma WatchedIsAll(s: State, x: Entity, c: Content)
    requires Versioned(s) && SightingsOk(s) && MessageRowsOk(s) && x.Conversation?
    ensures Watched(s.rows, x, c) == c.messages.Keys
  {
    if Unchanged(s.rows, x, c) {
      forall m | m in c.messages ensures m in s.rows[x].history { CurrentMessagesHaveRows(s, x, m); }
    }
  }

  lemma PresentSightings(s: State, e: nat, x: Entity, c: Content)
    requires Versioned(s) && SightingsOk(s) && MessageRowsOk(s) && e in s.exports
    ensures SightingsOk(Presented(s, e, x, c))
  {
    var s' := Presented(s, e, x, c);
    if x.Conversation? { WatchedIsAll(s, x, c); }
    forall k | k in s'.seen ensures k.source in s'.exports && k.key.entity.Conversation? && Presents(s'.shown, k) {
      if k in s.seen {
        var g :| g in s.shown && g.source == k.source && g.entity == k.key.entity
            && k.key.message in g.content.messages;
        assert g in s'.shown;
      } else {
        assert Showing(e, x, c) in s'.shown;
      }
    }
  }

  lemma PresentMessageRows(s: State, e: nat, x: Entity, c: Content)
    requires MessageRowsOk(s) && SightingsOk(s)
    ensures MessageRowsOk(Presented(s, e, x, c))
  {
    var s' := Presented(s, e, x, c);
    forall y, m | y in s'.rows && m in s'.rows[y].history ensures IsWatched(s'.seen, MessageKey(y, m)) {
      PresentedRowIsWatched(s, e, x, c, y, m);
    }
    forall k | k in s'.seen ensures k.key.entity in s'.rows && k.key.message in s'.rows[k.key.entity].history {
      SeenMessageHasRow(s, e, x, c, k);
    }
  }

  lemma PresentedRowIsWatched(s: State, e: nat, x: Entity, c: Content, y: Entity, m: nat)
    requires MessageRowsOk(s)
    requires y in Presented(s, e, x, c).rows && m in Presented(s, e, x, c).rows[y].history
    ensures IsWatched(Presented(s, e, x, c).seen, MessageKey(y, m))
  {
    var seen := Presented(s, e, x, c).seen;
    if y in s.rows && m in s.rows[y].history {
      var k :| k in s.seen && k.key == MessageKey(y, m);
      assert k in seen;
    } else {
      assert y == x && m in Watched(s.rows, x, c);
      assert MessageSighting(e, MessageKey(x, m)) in seen;
    }
  }

  predicate HasRow(rows: map<Entity, Row>, key: MessageKey) {
    key.entity in rows && key.message in rows[key.entity].history
  }

  lemma SeenMessageHasRow(s: State, e: nat, x: Entity, c: Content, k: MessageSighting)
    requires k in Presented(s, e, x, c).seen
    requires k in s.seen ==> k.key.entity.Conversation? && HasRow(s.rows, k.key)
    ensures HasRow(Presented(s, e, x, c).rows, k.key)
  {
    var y, m, rows := k.key.entity, k.key.message, Presented(s, e, x, c).rows;
    if k in s.seen {
      assert y.Conversation? && y in s.rows && m in s.rows[y].history;
    } else {
      assert y == x && m in Watched(s.rows, x, c);
    }
    if y == x && !Unchanged(s.rows, x, c) {
      RewrittenKeeps(s.rows, x, c, m);
      assert rows[x] == Rewritten(s.rows, x, c);
    } else {
      assert y in s.rows && rows[y] == s.rows[y];
    }
  }

  /** Writing a conversation again drops no message row and makes one for each message presented. */
  lemma RewrittenKeeps(rows: map<Entity, Row>, x: Entity, c: Content, m: nat)
    requires x.Conversation? && (m in c.messages || (x in rows && m in rows[x].history))
    ensures m in Rewritten(rows, x, c).history
  {
  }

  lemma PresentShown(w: set<Showing>, s: State, e: nat, x: Entity, c: Content)
    requires ShownOk(w, s) && e in s.exports && Showing(e, x, c) in w
    ensures ShownOk(w, Presented(s, e, x, c))
  {
    var s' := Presented(s, e, x, c);
    assert s'.exports == s.exports && s'.used == s.used;
  }

  lemma PresentKeeps(w: set<Showing>, s: State, e: nat, x: Entity, c: Content)
    requires Inv(w, s) && e in s.exports && Showing(e, x, c) in w
    ensures Inv(w, Presented(s, e, x, c))
  {
    PresentVersioned(s, e, x, c);
    PresentShown(w, s, e, x, c);
    PresentSightings(s, e, x, c);
    PresentMessageRows(s, e, x, c);
  }

  // ---------------------------------------------------------------- removal

  lemma PlanIsUpToDate(s: State, gone: set<nat>)
    ensures UpToDate(s, PlanOf(s, gone))
  {
    assert Doomed(s, gone) * s.rows.Keys == Doomed(s, gone);
  }

  lemma CutSightings(s: State, p: Plan)
    requires SightingsOk(s)
    ensures SightingsOk(Cut(s, p))
  {
    var t := Cut(s, p);
    forall k | k in t.seen ensures Presents(t.shown, k) { assert Presents(s.shown, k); }
  }

  /** A message row stays exactly when an export outside the scope observes it. */
  lemma CutMessageRows(w: set<Showing>, s: State, gone: set<nat>)
    requires ShownOk(w, s) && SightingsOk(s) && MessageRowsOk(s)
    ensures MessageRowsOk(Cut(s, PlanOf(s, gone)))
  {
    var p := PlanOf(s, gone);
    var t := Cut(s, p);
    forall x, m | x in t.rows && m in t.rows[x].history ensures IsWatched(t.seen, MessageKey(x, m)) {
      var k :| k in s.seen && k.key == MessageKey(x, m);
      if k.source in gone {
        assert MessageRetained(s.seen, gone, k.key);
        var l :| l in s.seen && l.key == k.key && l.source !in gone;
        assert l in t.seen;
      } else {
        assert k in t.seen;
      }
    }
    forall k | k in t.seen ensures k.key.entity in t.rows && k.key.message in t.rows[k.key.entity].history {
      assert Presents(s.shown, k);
      assert Sighting(k.source, k.key.entity) in s.obs;
      assert Retained(s.obs, gone, k.key.entity);
      assert MessageRetained(s.seen, gone, k.key);
      assert MessageKey(k.key.entity, k.key.message) == k.key;
    }
  }

  lemma RebuiltMessageRows(s: State)
    requires CutOk(s) && SightingsOk(s) && MessageRowsOk(s)
    ensures MessageRowsOk(Rebuilt(s))
  {
    var t := Rebuilt(s);
    forall x, m | x in t.rows && m in t.rows[x].history ensures IsWatched(t.seen, MessageKey(x, m)) {
      RebuiltMessage(s, x, m);
    }
    forall k | k in t.seen ensures k.key.entity in t.rows && k.key.message in t.rows[k.key.entity].history {
      var x := k.key.entity;
      var held := Held(s.exports, s.obs, KeptOf(s.versions, x), x);
      ReplayRows(Emptied(s.rows[x].history), held, k.key.message);
    }
  }

  lemma NamedMessageIsWatched(s: State, x: Entity, k: Sighting, m: nat)
    requires SightingsOk(s) && k in s.obs && ObservationOk(s, k) && k.entity == x
             && x.Conversation? && m in s.obs[k].messages
    ensures IsWatched(s.seen, MessageKey(x, m))
  {
    var g := Showing(k.source, x, s.obs[k]);
    assert g in s.shown && MessageSighting(g.source, MessageKey(g.entity, m)) in s.seen;
  }

  lemma RestoredMessage(s: State, x: Entity, held: seq<Content>, m: nat)
    requires CutOk(s) && SightingsOk(s) && MessageRowsOk(s) && x in s.rows && x.Conversation?
    requires held == Held(s.exports, s.obs, KeptOf(s.versions, x), x)
    requires m in Replayed(Emptied(s.rows[x].history), held)
    ensures IsWatched(s.seen, MessageKey(x, m))
  {
    ReplayRows(Emptied(s.rows[x].history), held, m);
    if i :| 0 <= i < |held| && m in held[i].messages {
      HeldIsNamed(s, x);
      var k :| k in s.obs && k.entity == x && s.obs[k] == held[i];
      NamedMessageIsWatched(s, x, k, m);
    }
  }

  lemma RebuiltMessage(s: State, x: Entity, m: nat)
    requires CutOk(s) && SightingsOk(s) && MessageRowsOk(s) && x in s.rows && m in Rebuilt(s).rows[x].history
    ensures IsWatched(s.seen, MessageKey(x, m))
  {
    var held := Held(s.exports, s.obs, KeptOf(s.versions, x), x);
    if Stale(s.versions, s.obs, x) && held != [] {
      assert Rebuilt(s).rows[x] == Restored(x, s.rows[x].history, held);
      RestoredMessage(s, x, held, m);
    }
  }

  /** A state but for its plans. */
  lemma PlansAside(w: set<Showing>, s: State, plans: map<nat, Plan>)
    requires Versioned(s) && ShownOk(w, s) && SightingsOk(s) && MessageRowsOk(s)
    ensures var s' := s.(plans := plans); Versioned(s') && ShownOk(w, s') && SightingsOk(s') && MessageRowsOk(s')
  {
    VersionedFrame(s, s.(plans := plans));
  }

  lemma RemoveKeeps(w: set<Showing>, s: State, r: nat)
    requires Inv(w, s) && r in s.plans && Exact(s, s.plans[r])
    ensures Inv(w, Apply(w, s, RemoveRows(r)))
  {
    var p := s.plans[r];
    PlanIsUpToDate(s, p.exports);
    CutKeeps(s, p);
    CutSightings(s, p);
    CutMessageRows(w, s, p.exports);
    RebuiltVersioned(Cut(s, p));
    RebuiltMessageRows(Cut(s, p));
    PlansAside(w, Rebuilt(Cut(s, p)), s.plans - {r});
  }

  // ---------------------------------------------------------------- runs

  lemma StepKeepsInv(w: set<Showing>, s: State, a: Action)
    requires Inv(w, s) && Enabled(w, s, a) && Allowed(WhileExact, s, a)
    ensures Inv(w, Apply(w, s, a))
  {
    match a
    case Receive(e, at) => VersionedFrame(s, Apply(w, s, a));
    case Present(e, x, c) => PresentKeeps(w, s, e, x, c);
    case PlanDeletion(r, scope) => PlansAside(w, s, s.plans[r := PlanOf(s, scope)]);
    case RemoveRows(r) => RemoveKeeps(w, s, r);
  }

  lemma {:induction false} RunKeeps(w: set<Showing>, states: seq<State>, actions: seq<Action>, i: nat)
    requires IsRun(w, WhileExact, states, actions) && i < |states|
    ensures Inv(w, states[i])
  {
    if i > 0 {
      RunKeeps(w, states, actions, i - 1);
      StepKeepsInv(w, states[i - 1], actions[i - 1]);
    }
  }

  lemma ReachableInv(w: set<Showing>, s: State)
    requires Reachable(w, WhileExact, s)
    ensures Inv(w, s)
  {
    var states, actions :| IsRun(w, WhileExact, states, actions) && states[|actions|] == s;
    RunKeeps(w, states, actions, |actions|);
  }

  // ---------------------------------------------------------------- only retained content

  /** A live export presented content of `x` in which message `m` has these parts. */
  ghost predicate Says(s: State, x: Entity, m: nat, p: Parts) {
    exists k :: k in s.shown && k.entity == x && k.source in s.exports && p in At(k.content.messages, m)
  }

  ghost predicate Holds(s: State, x: Entity, d: Content) {
    exists k :: k in s.shown && k.entity == x && k.source in s.exports && k.content == d
  }

  ghost predicate HistoryOk(s: State, x: Entity)
    requires x in s.rows
  {
    && (x.Project? ==> s.rows[x].history == map[])
    && forall m, p :: p in At(s.rows[x].history, m) ==> p != [] && Says(s, x, m, p)
  }

  ghost predicate HistoriesOk(s: State) {
    forall x :: x in s.rows ==> HistoryOk(s, x)
  }

  /** Each record's content, every snapshot and every content part is something a live export
      presented. */
  ghost predicate OnlyRetained(s: State) {
    && (forall x :: x in s.rows ==> Holds(s, x, s.rows[x].digest))
    && (forall x, d :: x in s.versions && d in s.versions[x] ==> Holds(s, x, d))
    && HistoriesOk(s)
  }

  lemma NamedIsHeld(s: State, x: Entity, d: Content)
    requires Versioned(s) && x in s.rows && d in KeptOf(s.versions, x)
    ensures Holds(s, x, d)
  {
    assert AllNamed(s, x);
    var k :| k in s.obs && k.entity == x && s.obs[k] == d;
    assert ObservationOk(s, k);
    assert Showing(k.source, x, d) in s.shown;
  }

  lemma HistoriesSuffice(s: State)
    requires Versioned(s) && HistoriesOk(s)
    ensures OnlyRetained(s)
  {
    forall x | x in s.rows ensures Holds(s, x, s.rows[x].digest) {
      assert RowOk(s, x);
      NamedIsHeld(s, x, s.rows[x].digest);
    }
    forall x, d | x in s.versions && d in s.versions[x] ensures Holds(s, x, d) {
      NamedIsHeld(s, x, d);
    }
  }

  /** One export replaces content `a` by `b`, another presents `b` too, and another still presents the
      conversation with content `g`. */
  ghost predicate Replaces(a: Showing, b: Showing, f: Showing, g: Showing) {
    && a.entity == b.entity == f.entity == g.entity && a.entity.Conversation?
    && a.source == b.source && f.source != a.source && g.source != a.source && f.content == b.content
  }

  /** The parts that `a` gives a message `g` has too are parts that `b` or `g` gives it. */
  ghost predicate Covers(a: Content, b: Content, g: Content) {
    forall m, p :: p in At(a.messages, m) && p != [] && m in g.messages ==>
        p in At(b.messages, m) || p in At(g.messages, m)
  }

  /** Where an export replaces content that others hide, what it replaced is covered, as far as its
      messages stay at all. */
  ghost predicate NoLeak(w: set<Showing>) {
    forall a, b, f, g :: a in w && b in w && f in w && g in w && Replaces(a, b, f, g) ==>
        Covers(a.content, b.content, g.content)
  }

  lemma PresentKeepsHistory(s: State, e: nat, x: Entity, c: Content, y: Entity)
    requires HistoriesOk(s) && e in s.exports && y in Presented(s, e, x, c).rows
    ensures HistoryOk(Presented(s, e, x, c), y)
  {
    var s' := Presented(s, e, x, c);
    assert y in s.rows ==> HistoryOk(s, y);
    forall m, p | p in At(s'.rows[y].history, m) ensures p != [] && Says(s', y, m, p) {
      if y in s.rows && p in At(s.rows[y].history, m) {
        var k :| k in s.shown && k.entity == y && k.source in s.exports && p in At(k.content.messages, m);
        assert k in s'.shown;
      } else {
        var h := if x in s.rows then s.rows[x].history else map[];
        DetailAt(h, c, m);
        WrittenHolds(At(h, m), At(c.messages, m));
        assert Showing(e, x, c) in s'.shown;
      }
    }
  }

  /** What a removed export said of a message that stays, of a record that is not stale, a retained
      export says. */
  lemma StillSaid(w: set<Showing>, s: State, p: Plan, a: Showing, m: nat, q: Parts)
    requires NoLeak(w) && Versioned(s) && ShownOk(w, s) && MessageRowsOk(Cut(s, p)) && SightingsOk(Cut(s, p))
    requires a in s.shown && a.source in s.exports && a.source in p.exports && a.entity.Conversation?
    requires a.entity in Cut(s, p).rows && !Stale(Cut(s, p).versions, Cut(s, p).obs, a.entity)
    requires m in Cut(s, p).rows[a.entity].history && q in At(a.content.messages, m) && q != []
    ensures Says(Cut(s, p), a.entity, m, q)
  {
    var t, x := Cut(s, p), a.entity;
    assert ObservationOk(s, Sighting(a.source, x));
    var b := Showing(a.source, x, s.obs[Sighting(a.source, x)]);
    assert Named(t.obs, x, b.content);
    var l :| l in t.obs && l.entity == x && t.obs[l] == b.content;
    assert ObservationOk(s, l);
    var f := Showing(l.source, x, b.content);
    assert f in t.shown && f.source in t.exports;
    assert IsWatched(t.seen, MessageKey(x, m));
    var k :| k in t.seen && k.key == MessageKey(x, m);
    assert Presents(t.shown, k);
    var g :| g in t.shown && g.source == k.source && g.entity == x && m in g.content.messages;
    assert Replaces(a, b, f, g);
    assert Covers(a.content, b.content, g.content);
  }

  lemma SurvivorKeepsHistory(w: set<Showing>, s: State, p: Plan, x: Entity)
    requires NoLeak(w) && Versioned(s) && ShownOk(w, s) && HistoriesOk(s)
    requires MessageRowsOk(Cut(s, p)) && SightingsOk(Cut(s, p))
    requires x in Cut(s, p).rows && !Stale(Cut(s, p).versions, Cut(s, p).obs, x)
    ensures HistoryOk(Cut(s, p), x)
  {
    var t := Cut(s, p);
    assert HistoryOk(s, x);
    forall m, q | q in At(t.rows[x].history, m) ensures q != [] && Says(t, x, m, q) {
      assert q in At(s.rows[x].history, m);
      var a :| a in s.shown && a.entity == x && a.source in s.exports && q in At(a.content.messages, m);
      if a.source in p.exports {
        StillSaid(w, s, p, a, m, q);
      } else {
        assert a in t.shown && a.source in t.exports;
      }
    }
  }

  lemma StaleHistory(s: State, x: Entity)
    requires CutOk(s) && x in s.rows && Stale(s.versions, s.obs, x)
    ensures HistoryOk(Rebuilt(s), x)
  {
    var t := Rebuilt(s);
    HeldIsNamed(s, x);
    var held := Held(s.exports, s.obs, KeptOf(s.versions, x), x);
    assert t.rows[x] == Restored(x, s.rows[x].history, held);
    forall m, q | q in At(t.rows[x].history, m) ensures q != [] && Says(t, x, m, q) {
      ReplayHolds(Emptied(s.rows[x].history), held, m);
      var i :| 0 <= i < |held| && q in At(held[i].messages, m);
      var k :| k in s.obs && k.entity == x && s.obs[k] == held[i];
      assert ObservationOk(s, k);
      assert Showing(k.source, x, held[i]) in t.shown;
    }
  }

  lemma RebuiltHistory(s: State, x: Entity)
    requires CutOk(s) && x in s.rows && (Stale(s.versions, s.obs, x) || HistoryOk(s, x))
    ensures HistoryOk(Rebuilt(s), x)
  {
    if Stale(s.versions, s.obs, x) {
      StaleHistory(s, x);
    } else {
      var t := Rebuilt(s);
      assert t.rows[x] == s.rows[x];
      forall m, q | q in At(t.rows[x].history, m) ensures q != [] && Says(t, x, m, q) {
        assert Says(s, x, m, q);
      }
    }
  }

  lemma RebuiltKeepsHistory(w: set<Showing>, s: State, p: Plan, x: Entity)
    requires NoLeak(w) && Inv(w, s) && HistoriesOk(s) && p == PlanOf(s, p.exports) && x in Cut(s, p).rows
    ensures HistoryOk(Rebuilt(Cut(s, p)), x)
  {
    PlanIsUpToDate(s, p.exports);
    CutKeeps(s, p);
    CutSightings(s, p);
    CutMessageRows(w, s, p.exports);
    if !Stale(Cut(s, p).versions, Cut(s, p).obs, x) { SurvivorKeepsHistory(w, s, p, x); }
    RebuiltHistory(Cut(s, p), x);
  }

  lemma PlansDoNotSpeak(s: State, s': State, x: Entity)
    requires x in s.rows && HistoryOk(s, x) && s'.rows == s.rows
             && s'.shown == s.shown && s.exports.Keys <= s'.exports.Keys
    ensures HistoryOk(s', x)
  {
    forall m, q | q in At(s'.rows[x].history, m) ensures q != [] && Says(s', x, m, q) {
      assert Says(s, x, m, q);
    }
  }

  lemma StepKeepsHistories(w: set<Showing>, s: State, a: Action)
    requires NoLeak(w) && Inv(w, s) && HistoriesOk(s) && Enabled(w, s, a) && Allowed(WhileExact, s, a)
    ensures HistoriesOk(Apply(w, s, a))
  {
    if a.RemoveRows? {
      RemovalKeepsHistories(w, s, a.request);
    } else {
      var s' := Apply(w, s, a);
      forall x | x in s'.rows ensures HistoryOk(s', x) {
        match a
        case Present(e, y, c) => PresentKeepsHistory(s, e, y, c, x);
        case _ => PlansDoNotSpeak(s, s', x);
      }
    }
  }

  lemma RemovalKeepsHistories(w: set<Showing>, s: State, r: nat)
    requires NoLeak(w) && Inv(w, s) && HistoriesOk(s) && r in s.plans && Exact(s, s.plans[r])
    ensures HistoriesOk(Apply(w, s, RemoveRows(r)))
  {
    var t := Rebuilt(Cut(s, s.plans[r]));
    var s' := t.(plans := s.plans - {r});
    assert Apply(w, s, RemoveRows(r)) == s';
    forall x | x in s'.rows ensures HistoryOk(s', x) {
      RebuiltKeepsHistory(w, s, s.plans[r], x);
      PlansDoNotSpeak(t, s', x);
    }
  }

  lemma {:induction false} RunKeepsHistories(w: set<Showing>, states: seq<State>, actions: seq<Action>, i: nat)
    requires NoLeak(w) && IsRun(w, WhileExact, states, actions) && i < |states|
    ensures HistoriesOk(states[i])
  {
    if i > 0 {
      RunKeepsHistories(w, states, actions, i - 1);
      RunKeeps(w, states, actions, i - 1);
      StepKeepsHistories(w, states[i - 1], actions[i - 1]);
    }
  }

  lemma OnlyRetainedContent(w: set<Showing>, s: State)
    requires NoLeak(w) && Reachable(w, WhileExact, s)
    ensures OnlyRetained(s)
  {
    var states, actions :| IsRun(w, WhileExact, states, actions) && states[|actions|] == s;
    RunKeeps(w, states, actions, |actions|);
    RunKeepsHistories(w, states, actions, |actions|);
    HistoriesSuffice(s);
  }
}
