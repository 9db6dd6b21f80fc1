/** The content-addressed store shared by every tenant, the rows that reference it, and the
    transactions that register and erase objects under advisory locks.

    An object is keyed by its digest alone; a reference also carries a media type and a length. A
    digest stands for the hex string, whose order is the numeric order. */
module BlobModel {
  import opened Orders

  datatype Ref = Ref(digest: nat, media: nat, length: nat)

  /** Bytes, as far as the protocol looks at them. */
  datatype Bytes = Bytes(digest: nat, length: nat)

  /** A blob a transaction is about to reference, and the bytes it still holds, if it can read them. */
  datatype Registration = Registration(ref: Ref, held: Option<Bytes>)

  datatype LockKey = Tenant(id: nat) | Blob(digest: nat)

  datatype Phase = Checking | Cleared | Erased

  datatype Tx =
    | Registrar(plan: seq<LockKey>, taken: nat, regs: seq<Registration>, checked: nat)
    | Eraser(plan: seq<LockKey>, taken: nat, ref: Ref, phase: Phase)

  /** What can occur in a run: the references registered, and the contents hashed. No two contents
      share a digest, so a digest fixes a length. */
  datatype World = World(refs: set<Ref>, sizes: map<nat, nat>) {
    predicate Holds(b: Bytes) { b.digest in sizes && sizes[b.digest] == b.length }

    predicate Storable(ref: Ref) { ref.digest in sizes && sizes[ref.digest] == ref.length }

    predicate Allows(reg: Registration) { reg.ref in refs && (reg.held.Some? ==> Holds(reg.held.value)) }
  }

  datatype State = State(
    objects: map<nat, nat>,          // digest to length
    rows: map<nat, Ref>,             // committed referencing rows
    items: set<Ref>,                 // durable erase items of deletions
    locks: map<LockKey, nat>,        // advisory lock to the transaction that holds it
    txs: map<nat, Tx>
  )

  const INIT := State(map[], map[], {}, map[], map[])

  // ---------------------------------------------------------------- the store

  /** `verify`: the object is there and has the referenced length. */
  predicate Present(objects: map<nat, nat>, ref: Ref) {
    ref.digest in objects && objects[ref.digest] == ref.length
  }

  /** `store`: an existing digest is never rewritten. */
  function Stored(objects: map<nat, nat>, b: Bytes): map<nat, nat> {
    if b.digest in objects then objects else objects[b.digest := b.length]
  }

  /** `erase`: an absent object is done, a length that does not match is refused. */
  predicate Erasable(objects: map<nat, nat>, ref: Ref) {
    ref.digest in objects ==> objects[ref.digest] == ref.length
  }

  // ---------------------------------------------------------------- locks

  function Digests(regs: seq<Registration>): set<nat> {
    set i | 0 <= i < |regs| :: regs[i].ref.digest
  }

  function BlobLocks(digests: seq<nat>): seq<LockKey> {
    seq(|digests|, i requires 0 <= i < |digests| => Blob(digests[i]))
  }

  /** The locks of a registration in the order it takes them: the tenant first, where the caller
      has one, then the digests, sorted and deduplicated. */
  ghost function RegistrarPlan(tenant: Option<nat>, regs: seq<Registration>): seq<LockKey> {
    var blobs := BlobLocks(Ascending(Digests(regs)));
    if tenant.Some? then [Tenant(tenant.value)] + blobs else blobs
  }

  function EraserPlan(owner: nat, ref: Ref): seq<LockKey> {
    [Tenant(owner), Blob(ref.digest)]
  }

  predicate Referenced(rows: map<nat, Ref>, ref: Ref) {
    exists id :: id in rows && rows[id] == ref
  }

  // ---------------------------------------------------------------- steps

  /** One check of a registrar: prove the object present or restore it from the held bytes. */
  function Checked(objects: map<nat, nat>, reg: Registration): (r: (map<nat, nat>, bool)) {
    if Present(objects, reg.ref) then (objects, true)
    else if reg.held.None? then (objects, false)
    else (Stored(objects, reg.held.value),
          reg.held.value.digest == reg.ref.digest && reg.held.value.length == reg.ref.length)
  }

  datatype Action =
    | Store(bytes: Bytes)
    | BeginRegistrar(t: nat, tenant: Option<nat>, regs: seq<Registration>)
    | BeginEraser(t: nat, owner: nat, ref: Ref)
    | Acquire(t: nat)
    | Check(t: nat)
    | Commit(t: nat, placed: map<nat, nat>)   // new row id to registration
    | Recheck(t: nat)
    | Erase(t: nat)
    | Finish(t: nat)
    | Abort(t: nat)
    | DeleteRows(ids: set<nat>)

  predicate AllLocked(tx: Tx) {
    tx.taken == |tx.plan|
  }

  /** Whether the next lock of `t` is held by another transaction. */
  predicate Blocked(s: State, t: nat) {
    t in s.txs && s.txs[t].taken < |s.txs[t].plan| && s.txs[t].plan[s.txs[t].taken] in s.locks
  }

  predicate Enabled(w: World, s: State, a: Action) {
    match a
    case Store(bytes) => w.Holds(bytes)
    case BeginRegistrar(t, tenant, regs) => t !in s.txs && forall i :: 0 <= i < |regs| ==> w.Allows(regs[i])
    case BeginEraser(t, owner, ref) => t !in s.txs && ref in s.items
    case Acquire(t) => t in s.txs && s.txs[t].taken < |s.txs[t].plan| && !Blocked(s, t)
    case Check(t) => t in s.txs && s.txs[t].Registrar? && AllLocked(s.txs[t]) && s.txs[t].checked < |s.txs[t].regs|
    case Commit(t, placed) =>
      && t in s.txs && s.txs[t].Registrar? && AllLocked(s.txs[t]) && s.txs[t].checked == |s.txs[t].regs|
      && forall id :: id in placed ==> id !in s.rows && placed[id] < |s.txs[t].regs|
    case Recheck(t) => t in s.txs && s.txs[t].Eraser? && AllLocked(s.txs[t]) && s.txs[t].phase.Checking?
    case Erase(t) => t in s.txs && s.txs[t].Eraser? && s.txs[t].phase.Cleared?
    case Finish(t) => t in s.txs && s.txs[t].Eraser? && s.txs[t].phase.Erased?
    case Abort(t) => t in s.txs
    case DeleteRows(ids) => true
  }

  /** The end of a transaction, either way: its locks go and the store keeps what was done to it. */
  function Ended(s: State, t: nat): State {
    s.(txs := s.txs - {t}, locks := map k | k in s.locks && s.locks[k] != t :: s.locks[k])
  }

  function Inserted(rows: map<nat, Ref>, regs: seq<Registration>, placed: map<nat, nat>): map<nat, Ref>
    requires forall id :: id in placed ==> placed[id] < |regs|
  {
    rows + map id | id in placed :: regs[placed[id]].ref
  }

  ghost function Apply(w: World, s: State, a: Action): State
    requires Enabled(w, s, a)
  {
    match a
    case Store(bytes) => s.(objects := Stored(s.objects, bytes))
    case BeginRegistrar(t, tenant, regs) => s.(txs := s.txs[t := Registrar(RegistrarPlan(tenant, regs), 0, regs, 0)])
    case BeginEraser(t, owner, ref) => s.(txs := s.txs[t := Eraser(EraserPlan(owner, ref), 0, ref, Checking)])
    case Acquire(t) =>
      var tx := s.txs[t];
      s.(locks := s.locks[tx.plan[tx.taken] := t], txs := s.txs[t := tx.(taken := tx.taken + 1)])
    case Check(t) =>
      var tx := s.txs[t];
      var c := Checked(s.objects, tx.regs[tx.checked]);
      if c.1 then s.(objects := c.0, txs := s.txs[t := tx.(checked := tx.checked + 1)])
      else Ended(s.(objects := c.0), t)
    case Commit(t, placed) => Ended(s.(rows := Inserted(s.rows, s.txs[t].regs, placed)), t)
    case Recheck(t) =>
      var tx := s.txs[t];
      if Referenced(s.rows, tx.ref) then Ended(s.(items := s.items - {tx.ref}), t)
      else s.(txs := s.txs[t := tx.(phase := Cleared)])
    case Erase(t) =>
      var tx := s.txs[t];
      if Erasable(s.objects, tx.ref)
      then s.(objects := s.objects - {tx.ref.digest}, txs := s.txs[t := tx.(phase := Erased)])
      else Ended(s, t)
    case Finish(t) => Ended(s.(items := s.items - {s.txs[t].ref}), t)
    case Abort(t) => Ended(s, t)
    case DeleteRows(ids) =>
      // phase A of a deletion: the rows go, and what nothing references any more is listed
      var rest := s.rows - ids;
      s.(rows := rest,
         items := s.items + set id | id in ids && id in s.rows && !Referenced(rest, s.rows[id]) :: s.rows[id])
  }

  ghost predicate IsRun(w: World, states: seq<State>, actions: seq<Action>) {
    && |states| == |actions| + 1
    && states[0] == INIT
    && forall i :: 0 <= i < |actions| ==>
         Enabled(w, states[i], actions[i]) && states[i + 1] == Apply(w, states[i], actions[i])
  }

  /** No committed row references a missing object. */
  ghost predicate Safe(s: State) {
    forall id :: id in s.rows ==> Present(s.objects, s.rows[id])
  }

  /** References to one stored object agree on its media type. */
  ghost predicate OneMediaType(w: World) {
    forall a, b :: a in w.refs && b in w.refs && a.digest == b.digest && w.Storable(a) && w.Storable(b) ==> a == b
  }
}
