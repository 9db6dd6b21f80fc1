/** The durable outbox, the broker stream it feeds, and the single pump that moves rows from one to
    the other while privacy deletions remove rows underneath it.

    A row's id stands for its envelope event id as well: the two are in bijection, and the broker's
    `Nats-Msg-Id` deduplication is keyed by it. The stream is a log that only grows; position `k` in
    it is the stream sequence `k`. */
module OutboxModel {
  import opened Orders

  /** The most sequences one erasure command may name. */
  const MAX_SEQUENCES_PER_COMMAND: nat := 500

  datatype Erasure = Erasure(owner: nat, sequences: seq<nat>)

  /** `Fact` stands for the seven content-bearing event types. */
  datatype Kind = Fact | Report | Tombstone | Command(erasure: Erasure)

  /** The deduplication key of an erasure command without its chunk index. */
  datatype Stem = OfDeletion(request: nat, owner: nat) | OfReconcile(event: nat)

  datatype Key = Key(stem: Stem, index: nat)

  datatype Row = Row(
    kind: Kind,
    owner: Option<nat>,
    account: Option<nat>,
    exportId: Option<nat>,
    key: Option<Key>,
    published: bool,
    undeliverable: bool,
    acknowledged: bool,
    seqs: set<nat>
  ) {
    /** Whether copies of this row carry content that a deletion must be able to erase. */
    predicate Tracked() {
      kind.Fact? && owner.Some?
    }

    /** Whether a deletion's inventory may list the row: an unacknowledged tombstone and an
        unpublished erasure command are the only record of what is still owed. */
    predicate Removable() {
      && !(kind.Tombstone? && !acknowledged)
      && !(kind.Command? && !published)
    }
  }

  datatype Message = Message(event: nat, kind: Kind, owner: Option<nat>)

  /** What the pump read of a row when it chose its batch. */
  datatype Candidate = Candidate(kind: Kind, owner: Option<nat>, account: Option<nat>) {
    predicate Tracked() {
      kind.Fact? && owner.Some?
    }
  }

  datatype Carried = Carried(owner: nat, account: Option<nat>, sequences: set<nat>)

  datatype Pump =
    | Idle
    | Locked(id: nat, candidate: Candidate)                  // the row lock is held, nothing sent
    | Acked(id: nat, candidate: Candidate, sequence: nat)    // the broker acknowledged a copy
    | Marked(id: nat, sequences: set<nat>)                   // marked inside the open transaction
    | Written(id: nat)                                       // committed, carry entry still there

  datatype Plan = Plan(account: nat, exports: set<nat>, ids: set<nat>)

  /** A deletion that has executed its `DELETE ... RETURNING` and not yet ended its transaction. */
  datatype Removal = Removal(doomed: set<nat>, facts: map<nat, set<nat>>)

  datatype Table = Table(rows: map<nat, Row>, next: nat)

  datatype State = State(
    table: Table,
    log: seq<Message>,
    carry: map<nat, Carried>,
    pump: Pump,
    batch: map<nat, Candidate>,
    plans: map<nat, Plan>,
    used: set<nat>,
    held: map<nat, Removal>
  )

  const INIT := State(Table(map[], 0), [], map[], Idle, map[], map[], {}, map[])

  // ---------------------------------------------------------------- the broker

  /** The sequence of the newest stored copy of `event`. */
  function LatestCopy(log: seq<Message>, event: nat): (r: Option<nat>)
    ensures r.Some? ==> r.value < |log| && log[r.value].event == event
    ensures r.Some? ==> forall k :: r.value < k < |log| ==> log[k].event != event
    ensures r.None? ==> forall k :: 0 <= k < |log| ==> log[k].event != event
  {
    if log == [] then None
    else if log[|log| - 1].event == event then Some(|log| - 1)
    else LatestCopy(log[..|log| - 1], event)
  }

  /** The stream after a publish and the acknowledged sequence: inside the duplicate window the
      broker stores nothing and answers with the copy it already holds. */
  function Deliver(log: seq<Message>, message: Message, window: bool): (r: (seq<Message>, nat))
    ensures log <= r.0 && r.1 < |r.0| && r.0[r.1].event == message.event
    ensures r.0 == log || (r.0 == log + [message] && r.1 == |log|)
    ensures window && LatestCopy(log, message.event).Some? ==> r == (log, LatestCopy(log, message.event).value)
  {
    if window && LatestCopy(log, message.event).Some? then
      (log, LatestCopy(log, message.event).value)
    else
      (log + [message], |log|)
  }

  // ---------------------------------------------------------------- erasure commands

  /** `sequences` cut into runs of at most `MAX_SEQUENCES_PER_COMMAND`, in order. */
  function Chunks(sequences: seq<nat>): (r: seq<seq<nat>>)
    decreases |sequences|
  {
    if sequences == [] then []
    else if |sequences| <= MAX_SEQUENCES_PER_COMMAND then [sequences]
    else [sequences[..MAX_SEQUENCES_PER_COMMAND]] + Chunks(sequences[MAX_SEQUENCES_PER_COMMAND..])
  }

  datatype Queued = Queued(key: Key, erasure: Erasure)

  /** The commands of one owner: one per chunk of the ascending sequences. */
  ghost function OwnerCommands(stem: Stem, owner: nat, sequences: set<nat>): seq<Queued> {
    var chunks := Chunks(Ascending(sequences));
    seq(|chunks|, i requires 0 <= i < |chunks| => Queued(Key(stem, i), Erasure(owner, chunks[i])))
  }

  /** The commands of a deletion, owner by owner. */
  ghost function DeletionCommands(request: nat, facts: map<nat, set<nat>>, owners: seq<nat>): seq<Queued>
    requires forall o :: o in owners ==> o in facts
  {
    if owners == [] then []
    else
      OwnerCommands(OfDeletion(request, owners[0]), owners[0], facts[owners[0]])
      + DeletionCommands(request, facts, owners[1..])
  }

  predicate HasKey(rows: map<nat, Row>, key: Key) {
    exists id :: id in rows && rows[id].key == Some(key)
  }

  function CommandRow(account: Option<nat>, q: Queued): Row {
    Row(Command(q.erasure), Some(q.erasure.owner), account, None, Some(q.key), false, false, false, {})
  }

  /** `INSERT ... ON CONFLICT (deduplication_key) DO NOTHING`. */
  function InsertCommand(t: Table, account: Option<nat>, q: Queued): Table {
    if HasKey(t.rows, q.key) then t
    else Table(t.rows[t.next := CommandRow(account, q)], t.next + 1)
  }

  function InsertCommands(t: Table, account: Option<nat>, qs: seq<Queued>): Table
    decreases |qs|
  {
    if qs == [] then t
    else InsertCommands(InsertCommand(t, account, qs[0]), account, qs[1..])
  }

  // ---------------------------------------------------------------- deletion

  ghost function Inventory(rows: map<nat, Row>, account: nat, exports: set<nat>, all: bool): set<nat> {
    set id | id in rows && rows[id].account == Some(account)
             && (all || (rows[id].exportId.Some? && rows[id].exportId.value in exports))
             && rows[id].Removable()
  }

  ghost function Doomed(rows: map<nat, Row>, plan: Plan): set<nat> {
    set id | id in rows && (id in plan.ids || (rows[id].exportId.Some? && rows[id].exportId.value in plan.exports))
  }

  ghost function OwnersOf(rows: map<nat, Row>, doomed: set<nat>): set<nat> {
    set id | id in doomed && id in rows && rows[id].Tracked() && rows[id].seqs != {} :: rows[id].owner.value
  }

  ghost function SequencesOf(rows: map<nat, Row>, doomed: set<nat>, owner: nat): set<nat> {
    set id, k | id in doomed && id in rows && rows[id].Tracked() && rows[id].owner.value == owner
                && k in rows[id].seqs :: k
  }

  /** The recorded stream sequences of the content-bearing facts among the doomed rows, by owner. */
  ghost function Collected(rows: map<nat, Row>, doomed: set<nat>): map<nat, set<nat>> {
    map o | o in OwnersOf(rows, doomed) :: SequencesOf(rows, doomed, o)
  }

  // ---------------------------------------------------------------- the pump

  /** `Carry::remember`: only the content-bearing facts of a known owner are carried. */
  function Remembered(carry: map<nat, Carried>, id: nat, c: Candidate, sequence: nat): map<nat, Carried> {
    if !c.Tracked() then carry
    else if id in carry then carry[id := carry[id].(sequences := carry[id].sequences + {sequence})]
    else carry[id := Carried(c.owner.value, c.account, {sequence})]
  }

  /** The sequences the row must record when its mark lands. */
  function Merged(carry: map<nat, Carried>, id: nat, c: Candidate, sequence: nat): set<nat> {
    if c.Tracked() then Remembered(carry, id, c, sequence)[id].sequences else {sequence}
  }

  function Mark(t: Table, id: nat, sequences: set<nat>): Table {
    if id in t.rows then
      t.(rows := t.rows[id := t.rows[id].(published := true, seqs := t.rows[id].seqs + sequences)])
    else t
  }

  predicate HeldByDeletion(s: State, id: nat) {
    exists r :: r in s.held && id in s.held[r].doomed
  }

  predicate HeldByPump(s: State, id: nat) {
    (s.pump.Locked? || s.pump.Acked? || s.pump.Marked?) && s.pump.id == id
  }

  // ---------------------------------------------------------------- steps

  datatype Action =
    // other writers
    | Enqueue(kind: Kind, owner: Option<nat>, account: Option<nat>, exportId: Option<nat>)
    | Acknowledge(id: nat)
    // deletions
    | PlanDeletion(request: nat, tenant: nat, exports: set<nat>, all: bool)
    | RemoveRows(request: nat)
    | CommitRemoval(request: nat)
    | AbortRemoval(request: nat)
    // the pump
    | StartPass(due: set<nat>)
    | MarkUndeliverable(id: nat)
    | Lock(id: nat)
    | Publish(window: bool)
    | Refuse
    | LoseAck(window: bool)
    | RememberAndMark(markLands: bool)
    | Commit
    | FailCommit(landed: bool)
    | Forget
    | Resend(id: nat, window: bool)
    | Reconcile(id: nat, reported: bool)
    | Crash(landed: bool)

  ghost predicate Enabled(s: State, a: Action) {
    match a
    case Enqueue(kind, owner, account, exportId) =>
      // a tombstone is bound to no export; erasure commands have their own writers
      !kind.Command? && (kind.Tombstone? ==> exportId.None?)
    case Acknowledge(id) =>
      id in s.table.rows && s.table.rows[id].kind.Tombstone? && !HeldByDeletion(s, id) && !HeldByPump(s, id)
    case PlanDeletion(request, tenant, exports, all) => request !in s.used
    case RemoveRows(request) =>
      // the statement waits for every row lock it meets
      && request in s.plans && request !in s.held
      && (forall id :: id in Doomed(s.table.rows, s.plans[request]) ==> !HeldByDeletion(s, id) && !HeldByPump(s, id))
    case CommitRemoval(request) => request in s.held && request in s.plans
    case AbortRemoval(request) => request in s.held
    case StartPass(due) => s.pump.Idle?
    case MarkUndeliverable(id) => s.pump.Idle? && id in s.table.rows && !HeldByDeletion(s, id)
    case Lock(id) =>
      // FOR UPDATE SKIP LOCKED
      s.pump.Idle? && id in s.table.rows && !s.table.rows[id].published && !s.table.rows[id].undeliverable
      && !HeldByDeletion(s, id)
    case Publish(window) => s.pump.Locked?
    case Refuse => s.pump.Locked?
    case LoseAck(window) => s.pump.Locked?
    case RememberAndMark(markLands) => s.pump.Acked?
    case Commit => s.pump.Marked?
    case FailCommit(landed) => s.pump.Marked?
    case Forget => s.pump.Written?
    case Resend(id, window) => s.pump.Idle? && id in s.batch
    case Reconcile(id, reported) => s.pump.Idle? && id in s.carry && id !in s.table.rows
    case Crash(landed) => true
  }

  ghost function Apply(s: State, a: Action): State
    requires Enabled(s, a)
  {
    match a
    case Enqueue(kind, owner, account, exportId) =>
      var row := Row(kind, owner, account, exportId, None, false, false, false, {});
      s.(table := Table(s.table.rows[s.table.next := row], s.table.next + 1))
    case Acknowledge(id) =>
      s.(table := s.table.(rows := s.table.rows[id := s.table.rows[id].(acknowledged := true, published := true)]))
    case PlanDeletion(request, tenant, exports, all) =>
      s.(plans := s.plans[request := Plan(tenant, exports, Inventory(s.table.rows, tenant, exports, all))],
         used := s.used + {request})
    case RemoveRows(request) =>
      var doomed := Doomed(s.table.rows, s.plans[request]);
      s.(held := s.held[request := Removal(doomed, Collected(s.table.rows, doomed))])
    case CommitRemoval(request) => AfterRemoval(s, request)
    case AbortRemoval(request) => s.(held := s.held - {request})
    case StartPass(due) => s.(batch := DueTombstones(s.table.rows, due))
    case MarkUndeliverable(id) =>
      if s.table.rows[id].published then s
      else s.(table := s.table.(rows := s.table.rows[id := s.table.rows[id].(undeliverable := true)]))
    case Lock(id) => s.(pump := Locked(id, CandidateOf(s.table.rows[id])))
    case Publish(window) =>
      var d := Deliver(s.log, Message(s.pump.id, s.pump.candidate.kind, s.pump.candidate.owner), window);
      s.(log := d.0, pump := Acked(s.pump.id, s.pump.candidate, d.1))
    case Refuse => s.(pump := Idle)
    case LoseAck(window) =>
      var d := Deliver(s.log, Message(s.pump.id, s.pump.candidate.kind, s.pump.candidate.owner), window);
      s.(log := d.0, pump := Idle)
    case RememberAndMark(markLands) => AfterMark(s, markLands)
    case Commit => s.(table := Mark(s.table, s.pump.id, s.pump.sequences), pump := Written(s.pump.id))
    case FailCommit(landed) =>
      s.(table := if landed then Mark(s.table, s.pump.id, s.pump.sequences) else s.table, pump := Idle)
    case Forget => s.(carry := s.carry - {s.pump.id}, pump := Idle)
    case Resend(id, window) =>
      s.(log := Deliver(s.log, Message(id, s.batch[id].kind, s.batch[id].owner), window).0, batch := s.batch - {id})
    case Reconcile(id, reported) =>
      s.(table := InsertCommands(s.table, s.carry[id].account,
                                 OwnerCommands(OfReconcile(id), s.carry[id].owner, s.carry[id].sequences)),
         pump := if reported then Written(id) else Idle)
    case Crash(landed) =>
      s.(table := if landed && s.pump.Marked? then Mark(s.table, s.pump.id, s.pump.sequences) else s.table,
         carry := map[], pump := Idle, batch := map[])
  }

  function CandidateOf(row: Row): Candidate {
    Candidate(row.kind, row.owner, row.account)
  }

  /** The published tombstones of `due` that still wait for their acknowledgement. */
  ghost function DueTombstones(rows: map<nat, Row>, due: set<nat>): map<nat, Candidate> {
    map id | id in due && id in rows && rows[id].kind.Tombstone? && rows[id].published
             && !rows[id].acknowledged && !rows[id].undeliverable :: CandidateOf(rows[id])
  }

  /** The rows leave and the commands that name their copies arrive, in one commit. */
  ghost function AfterRemoval(s: State, request: nat): State
    requires request in s.held && request in s.plans
  {
    var removal := s.held[request];
    var commands := DeletionCommands(request, removal.facts, Ascending(removal.facts.Keys));
    s.(table := InsertCommands(Table(s.table.rows - removal.doomed, s.table.next),
                               Some(s.plans[request].account), commands),
       held := s.held - {request}, plans := s.plans - {request})
  }

  /** `remember`, then the guarded mark: a mark that lands on no row (or fails) ends the transaction
      with the copy still carried. */
  function AfterMark(s: State, markLands: bool): State
    requires s.pump.Acked?
  {
    var carry := Remembered(s.carry, s.pump.id, s.pump.candidate, s.pump.sequence);
    var sequences := Merged(s.carry, s.pump.id, s.pump.candidate, s.pump.sequence);
    if markLands && s.pump.id in s.table.rows && !s.table.rows[s.pump.id].published
    then s.(carry := carry, pump := Marked(s.pump.id, sequences))
    else s.(carry := carry, pump := Idle)
  }

  /** A run: consecutive states joined by enabled actions, from the empty outbox. */
  ghost predicate IsRun(states: seq<State>, actions: seq<Action>) {
    && |states| == |actions| + 1
    && states[0] == INIT
    && forall i :: 0 <= i < |actions| ==>
         Enabled(states[i], actions[i]) && states[i + 1] == Apply(states[i], actions[i])
  }
}
