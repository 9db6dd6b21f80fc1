/** The projects and conversations that one tenant's cumulative exports share: what each export
    presented, the snapshots kept, the rows, and how a deletion rebuilds the survivors.

    Contents are compared by digest, and a digest stands for the content it was computed from: a
    conversation's header and, for each provider message id, the parts of its occurrences in order. */
module VersionModel {
  type Parts = seq<nat>

  type History = map<nat, seq<Parts>>   // message id to its content-part revisions

  datatype Content = Content(header: nat, messages: map<nat, seq<Parts>>)

  datatype Entity = Project(id: nat) | Conversation(id: nat)

  datatype Row = Row(digest: Content, header: nat, history: History)

  datatype Sighting = Sighting(source: nat, entity: Entity)

  /** A message row of a conversation, and an export's observation of it. */
  datatype MessageKey = MessageKey(entity: Entity, message: nat)

  datatype MessageSighting = MessageSighting(source: nat, key: MessageKey)

  datatype Plan = Plan(exports: set<nat>, doomed: set<Entity>, messages: set<MessageKey>)

  /** An export, a record and a content it presents of it. */
  datatype Showing = Showing(source: nat, entity: Entity, content: Content)

  datatype State = State(
    exports: map<nat, nat>,                // live export to the time it was received
    used: set<nat>,                        // export ids ever given out
    obs: map<Sighting, Content>,           // export_entity_observations
    seen: set<MessageSighting>,            // the observations of messages
    versions: map<Entity, set<Content>>,   // entity_versions
    rows: map<Entity, Row>,                // a row's history has an entry for each message row
    plans: map<nat, Plan>,                 // deletions planned and not yet carried out
    shown: set<Showing>                    // everything ever presented
  )

  const INIT := State(map[], {}, map[], {}, map[], map[], map[], {})

  // ---------------------------------------------------------------- content parts

  function At(h: History, m: nat): seq<Parts> {
    if m in h then h[m] else []
  }

  /** `persist_parts`: a revision is added when the parts differ from the latest one. Parts that
      became empty insert no row, so they leave the history as it is. */
  function Written(h: seq<Parts>, p: Parts): seq<Parts> {
    if p == [] || (h != [] && h[|h| - 1] == p) then h else h + [p]
  }

  function WrittenAll(h: seq<Parts>, ps: seq<Parts>): seq<Parts>
    decreases |ps|
  {
    if ps == [] then h else Written(WrittenAll(h, ps[..|ps| - 1]), ps[|ps| - 1])
  }

  /** `persist_conversation_detail`, as far as content parts go. */
  function Detail(h: History, c: Content): History {
    map m | m in h.Keys + c.messages.Keys :: WrittenAll(At(h, m), At(c.messages, m))
  }

  // ---------------------------------------------------------------- presenting

  predicate Named(obs: map<Sighting, Content>, x: Entity, d: Content) {
    exists k :: k in obs && k.entity == x && obs[k] == d
  }

  /** `observe`: versions nobody names any more go, except the one being presented. */
  function Pruned(vs: set<Content>, obs: map<Sighting, Content>, x: Entity, c: Content): set<Content> {
    set d | d in vs && (d == c || Named(obs, x, d))
  }

  function KeptOf(versions: map<Entity, set<Content>>, x: Entity): set<Content> {
    if x in versions then versions[x] else {}
  }

  /** A project always takes the content; a conversation that already holds it is left alone. */
  predicate Unchanged(rows: map<Entity, Row>, x: Entity, c: Content) {
    x.Conversation? && x in rows && rows[x].digest == c
  }

  function Rewritten(rows: map<Entity, Row>, x: Entity, c: Content): Row {
    match x
    case Project(_) => Row(c, c.header, map[])
    case Conversation(_) => Row(c, c.header, Detail(if x in rows then rows[x].history else map[], c))
  }

  /** The messages an export is recorded to have seen: those it presents. Of content the row already
      holds, those that have a message row. */
  function Watched(rows: map<Entity, Row>, x: Entity, c: Content): set<nat> {
    if x.Project? then {}
    else if Unchanged(rows, x, c) then c.messages.Keys * rows[x].history.Keys
    else c.messages.Keys
  }

  function SightingsOf(e: nat, x: Entity, ms: set<nat>): set<MessageSighting> {
    set m | m in ms :: MessageSighting(e, MessageKey(x, m))
  }

  function Presented(s: State, e: nat, x: Entity, c: Content): State {
    var obs := s.obs[Sighting(e, x) := c];
    var kept := Pruned(KeptOf(s.versions, x), obs, x, c);
    var s' := s.(obs := obs, seen := s.seen + SightingsOf(e, x, Watched(s.rows, x, c)),
                 shown := s.shown + {Showing(e, x, c)});
    if Unchanged(s.rows, x, c)
    then s'.(versions := s.versions[x := kept])
    else s'.(versions := s.versions[x := kept + {c}], rows := s.rows[x := Rewritten(s.rows, x, c)])
  }

  // ---------------------------------------------------------------- deletion

  predicate Retained(obs: map<Sighting, Content>, gone: set<nat>, x: Entity) {
    exists k :: k in obs && k.entity == x && k.source !in gone
  }

  /** The records a plan removes: those no export outside the scope observes. */
  function Doomed(s: State, gone: set<nat>): set<Entity> {
    set x | x in s.rows && !Retained(s.obs, gone, x)
  }

  predicate MessageRetained(seen: set<MessageSighting>, gone: set<nat>, key: MessageKey) {
    exists k :: k in seen && k.key == key && k.source !in gone
  }

  /** The messages a plan removes: those it observes and no export outside the scope does. */
  function DoomedMessages(s: State, gone: set<nat>): set<MessageKey> {
    set k | k in s.seen && k.source in gone && !MessageRetained(s.seen, gone, k.key) :: k.key
  }

  function PlanOf(s: State, gone: set<nat>): Plan {
    Plan(gone, Doomed(s, gone), DoomedMessages(s, gone))
  }

  /** Order of arrival: received time, then export id. */
  predicate Earlier(exports: map<nat, nat>, a: nat, b: nat)
    requires a in exports && b in exports
  {
    exports[a] < exports[b] || (exports[a] == exports[b] && a < b)
  }

  ghost predicate InOrder(exports: map<nat, nat>, es: seq<nat>)
    requires forall e :: e in es ==> e in exports
  {
    forall i, j :: 0 <= i < j < |es| ==> Earlier(exports, es[i], es[j])
  }

  lemma {:induction false} FirstExists(exports: map<nat, nat>, es: set<nat>) returns (f: nat)
    requires es != {} && es <= exports.Keys
    ensures f in es && forall e :: e in es && e != f ==> Earlier(exports, f, e)
  {
    var a :| a in es;
    f := a;
    if es == {a} {
    } else {
      var rest := es - {a};
      var b := FirstExists(exports, rest);
      if Earlier(exports, b, a) { f := b; }
      assert forall e :: e in es ==> e == a || e in rest;
    }
  }

  ghost function Arrival(exports: map<nat, nat>, es: set<nat>): (r: seq<nat>)
    requires es <= exports.Keys
    ensures forall e :: e in r <==> e in es
    ensures InOrder(exports, r)
  {
    if es == {} then [] else
      FirstArrives(exports, es);
      var f :| f in es && forall e :: e in es && e != f ==> Earlier(exports, f, e);
      [f] + Arrival(exports, es - {f})
  }

  lemma FirstArrives(exports: map<nat, nat>, es: set<nat>)
    requires es != {} && es <= exports.Keys
    ensures exists f :: f in es && forall e :: e in es && e != f ==> Earlier(exports, f, e)
  {
    var f := FirstExists(exports, es);
  }

  function Observers(exports: map<nat, nat>, obs: map<Sighting, Content>, vs: set<Content>, x: Entity): set<nat> {
    set e | e in exports && Sighting(e, x) in obs && obs[Sighting(e, x)] in vs
  }

  /** `retained_versions`: what the observers presented, oldest export first. */
  ghost function Held(exports: map<nat, nat>, obs: map<Sighting, Content>, vs: set<Content>, x: Entity): seq<Content> {
    var es := Arrival(exports, Observers(exports, obs, vs, x));
    seq(|es|, i requires 0 <= i < |es| => assert es[i] in es; obs[Sighting(es[i], x)])
  }

  /** The history after the versions are written in turn, a repeat of the one before skipped. */
  function Replayed(h: History, held: seq<Content>): History
    decreases |held|
  {
    if held == [] then h
    else
      var before := Replayed(h, held[..|held| - 1]);
      if |held| > 1 && held[|held| - 2] == held[|held| - 1] then before else Detail(before, held[|held| - 1])
  }

  /** The message rows stay and their parts go. */
  function Emptied(h: History): History {
    map m | m in h :: []
  }

  function Restored(x: Entity, h: History, held: seq<Content>): Row
    requires held != []
  {
    var newest := held[|held| - 1];
    Row(newest, newest.header, if x.Project? then map[] else Replayed(Emptied(h), held))
  }

  /** A record is stale when it keeps a version no retained export names. */
  predicate Stale(versions: map<Entity, set<Content>>, obs: map<Sighting, Content>, x: Entity) {
    exists d :: d in KeptOf(versions, x) && !Named(obs, x, d)
  }

  function NamedOnly(vs: set<Content>, obs: map<Sighting, Content>, x: Entity): set<Content> {
    set d | d in vs && Named(obs, x, d)
  }

  function WithoutMessages(h: History, x: Entity, gone: set<MessageKey>): History {
    map m | m in h && MessageKey(x, m) !in gone :: h[m]
  }

  /** The row removal of a deletion: the exports, their observations, the doomed records and the
      doomed messages with their parts go. */
  function Cut(s: State, p: Plan): State {
    var rows := map x | x in s.rows && x !in p.doomed ::
      s.rows[x].(history := WithoutMessages(s.rows[x].history, x, p.messages));
    s.(exports := s.exports - p.exports,
       obs := map k | k in s.obs && k.source !in p.exports :: s.obs[k],
       seen := (set k | k in s.seen && k.source !in p.exports),
       rows := rows,
       versions := map x | x in s.versions && x in rows :: s.versions[x])
  }

  ghost function RestoredRow(s: State, x: Entity): Row
    requires x in s.rows
  {
    var held := Held(s.exports, s.obs, KeptOf(s.versions, x), x);
    if Stale(s.versions, s.obs, x) && held != [] then Restored(x, s.rows[x].history, held) else s.rows[x]
  }

  /** `restore_retained_versions` on what the removal left. */
  ghost function Rebuilt(s: State): State {
    s.(rows := map x | x in s.rows :: RestoredRow(s, x),
       versions := map x | x in s.versions ::
         if Stale(s.versions, s.obs, x) then NamedOnly(s.versions[x], s.obs, x) else s.versions[x])
  }

  // ---------------------------------------------------------------- steps

  datatype Action =
    | Receive(source: nat, at: nat)
    | Present(source: nat, entity: Entity, content: Content)
    | PlanDeletion(request: nat, scope: set<nat>)
    | RemoveRows(request: nat)

  ghost predicate Enabled(w: set<Showing>, s: State, a: Action) {
    match a
    case Receive(e, at) => e !in s.used
    case Present(e, x, c) => e in s.exports && Showing(e, x, c) in w
    case PlanDeletion(r, scope) => r !in s.plans && scope <= s.exports.Keys
    case RemoveRows(r) => r in s.plans
  }

  ghost function Apply(w: set<Showing>, s: State, a: Action): State
    requires Enabled(w, s, a)
  {
    match a
    case Receive(e, at) => s.(exports := s.exports[e := at], used := s.used + {e})
    case Present(e, x, c) => Presented(s, e, x, c)
    case PlanDeletion(r, scope) => s.(plans := s.plans[r := PlanOf(s, scope)])
    case RemoveRows(r) => Rebuilt(Cut(s, s.plans[r])).(plans := s.plans - {r})
  }

  /** A plan still names exactly the records that its removal leaves without an observer. */
  predicate UpToDate(s: State, p: Plan) {
    p.doomed * s.rows.Keys == Doomed(s, p.exports)
  }

  /** A plan is still the one that would be made now, of records and of messages: so it is, in
      particular, if nothing of the tenant commits between the plan and its row removal. */
  predicate Exact(s: State, p: Plan) {
    p == PlanOf(s, p.exports)
  }

  /** How steps may interleave: freely, but plans are carried out while exact, while up to date, or
      at any time. */
  datatype Discipline = WhileExact | WhileCurrent | Free

  predicate Allowed(d: Discipline, s: State, a: Action) {
    match d
    case WhileExact => a.RemoveRows? && a.request in s.plans ==> Exact(s, s.plans[a.request])
    case WhileCurrent => a.RemoveRows? && a.request in s.plans ==> UpToDate(s, s.plans[a.request])
    case Free => true
  }

  ghost predicate IsRun(w: set<Showing>, d: Discipline, states: seq<State>, actions: seq<Action>) {
    && |states| == |actions| + 1
    && states[0] == INIT
    && forall i :: 0 <= i < |actions| ==>
         Enabled(w, states[i], actions[i]) && Allowed(d, states[i], actions[i])
         && states[i + 1] == Apply(w, states[i], actions[i])
  }

  ghost predicate Reachable(w: set<Showing>, d: Discipline, s: State) {
    exists states, actions :: IsRun(w, d, states, actions) && states[|actions|] == s
  }

  lemma ReachableInit(w: set<Showing>, d: Discipline)
    ensures Reachable(w, d, INIT)
  {
    var none: seq<Action> := [];
    assert IsRun(w, d, [INIT], none) && [INIT][|none|] == INIT;
  }

  lemma Step(w: set<Showing>, d: Discipline, s: State, a: Action)
    requires Reachable(w, d, s) && Enabled(w, s, a) && Allowed(d, s, a)
    ensures Reachable(w, d, Apply(w, s, a))
  {
    var states, actions :| IsRun(w, d, states, actions) && states[|actions|] == s;
    ExtendRun(w, d, states, actions, a);
  }

  lemma ExtendRun(w: set<Showing>, d: Discipline, states: seq<State>, actions: seq<Action>, a: Action)
    requires IsRun(w, d, states, actions) && Enabled(w, states[|actions|], a) && Allowed(d, states[|actions|], a)
    ensures Reachable(w, d, Apply(w, states[|actions|], a))
  {
    var states', actions' := states + [Apply(w, states[|actions|], a)], actions + [a];
    forall i | 0 <= i < |actions'|
      ensures Enabled(w, states'[i], actions'[i]) && Allowed(d, states'[i], actions'[i])
      ensures states'[i + 1] == Apply(w, states'[i], actions'[i])
    {
      if i < |actions| {
        assert states'[i] == states[i] && actions'[i] == actions[i] && states'[i + 1] == states[i + 1];
      }
    }
    assert IsRun(w, d, states', actions') && states'[|actions'|] == Apply(w, states[|actions|], a);
  }
}
