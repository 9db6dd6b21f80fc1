/** What every step of the outbox protocol keeps. */
module OutboxInvariant {
  import opened Orders
  import opened OutboxModel
  import opened OutboxErasure

  // ---------------------------------------------------------------- the invariant

  ghost predicate LogOk(t: Table, log: seq<Message>) {
    forall k :: 0 <= k < |log| ==>
      && log[k].event < t.next
      && (log[k].event in t.rows ==> log[k] == MessageOf(log[k].event, t.rows[log[k].event]))
  }

  function MessageOf(id: nat, row: Row): Message {
    Message(id, row.kind, row.owner)
  }

  /** A sequence of `row` names a copy of that row, a delivered row has one, an acknowledged row counts
      as published, and what has no export cannot be dropped with one. */
  ghost predicate RowOk(id: nat, row: Row, log: seq<Message>) {
    && (forall k :: k in row.seqs ==> k < |log| && log[k].event == id)
    && (row.published && !row.kind.Tombstone? ==> row.seqs != {})
    && (row.acknowledged ==> row.published)
    && (row.kind.Tombstone? || row.kind.Command? ==> row.exportId.None?)
    && (row.kind.Command? <==> row.key.Some?)
  }

  ghost predicate RowsOk(t: Table, log: seq<Message>) {
    forall id :: id in t.rows ==> id < t.next && RowOk(id, t.rows[id], log)
  }

  ghost predicate CarriedOk(id: nat, c: Carried, log: seq<Message>) {
    && c.sequences != {}
    && forall k :: k in c.sequences ==> k < |log| && log[k] == Message(id, Fact, Some(c.owner))
  }

  ghost predicate CarryOk(s: State) {
    forall id :: id in s.carry ==> id < s.table.next && CarriedOk(id, s.carry[id], s.log)
  }

  ghost predicate BatchOk(s: State) {
    forall id :: id in s.batch ==>
      && id < s.table.next && s.batch[id].kind.Tombstone?
      && (id in s.table.rows ==> s.batch[id] == CandidateOf(s.table.rows[id]))
  }

  ghost predicate PlansOk(s: State) {
    forall r :: r in s.plans ==> r in s.used && PlanOk(s.table, s.plans[r])
  }

  ghost predicate PlanOk(t: Table, plan: Plan) {
    forall id :: id in plan.ids ==> id < t.next && (id in t.rows ==> t.rows[id].Removable())
  }

  ghost predicate RemovalOk(rows: map<nat, Row>, removal: Removal) {
    && removal.doomed <= rows.Keys
    && removal.facts == Collected(rows, removal.doomed)
    && forall id :: id in removal.doomed ==> rows[id].Removable()
  }

  ghost predicate HeldOk(s: State) {
    && (forall r :: r in s.held ==> r in s.plans && RemovalOk(s.table.rows, s.held[r]))
    && (forall r, q :: r in s.held && q in s.held && r != q ==> s.held[r].doomed !! s.held[q].doomed)
  }

  /** The row the pump works on is there, unpublished and out of every deletion's hands. */
  ghost predicate Owned(s: State, id: nat) {
    id in s.table.rows && !s.table.rows[id].published && !HeldByDeletion(s, id)
  }

  ghost predicate PumpOk(s: State) {
    match s.pump
    case Idle => true
    case Locked(id, c) => Owned(s, id) && c == CandidateOf(s.table.rows[id])
    case Acked(id, c, k) =>
      && Owned(s, id) && c == CandidateOf(s.table.rows[id])
      && k < |s.log| && s.log[k] == MessageOf(id, s.table.rows[id])
    case Marked(id, sequences) =>
      && Owned(s, id) && sequences != {}
      && (forall k :: k in sequences ==> k < |s.log| && s.log[k].event == id)
      && (id in s.carry ==> s.carry[id].sequences <= sequences)
    case Written(id) => id in s.carry ==> forall k :: k in s.carry[id].sequences ==> Durable(s, k)
  }

  /** A live command row under a deletion's key belongs to a committed deletion; one under the pump's
      key says exactly what the pump would say again. */
  ghost predicate KeyOk(s: State, row: Row) {
    row.key.Some? ==>
      match row.key.value.stem
      case OfDeletion(request, owner) => request in s.used && request !in s.plans
      case OfReconcile(event) =>
        && event < s.table.next && event !in s.table.rows
        && (event in s.carry && row.kind.Command? ==>
              Queued(row.key.value, row.kind.erasure)
              in OwnerCommands(OfReconcile(event), s.carry[event].owner, s.carry[event].sequences))
  }

  ghost predicate KeysOk(s: State) {
    forall id :: id in s.table.rows ==> KeyOk(s, s.table.rows[id])
  }

  /** An erasure names only stored copies of content-bearing facts of its owner whose row is gone. */
  ghost predicate Precise(e: Erasure, rows: map<nat, Row>, log: seq<Message>) {
    forall k :: k in e.sequences ==>
      k < |log| && log[k].kind.Fact? && log[k].owner == Some(e.owner) && log[k].event !in rows
  }

  ghost predicate PreciseOk(t: Table, log: seq<Message>) {
    && (forall id :: id in t.rows && t.rows[id].kind.Command? ==> Precise(t.rows[id].kind.erasure, t.rows, log))
    && (forall j :: 0 <= j < |log| && log[j].kind.Command? ==> Precise(log[j].kind.erasure, t.rows, log))
  }

  /** The invariant without the pump's own position. */
  ghost predicate Base(s: State) {
    && LogOk(s.table, s.log) && RowsOk(s.table, s.log) && CarryOk(s) && BatchOk(s) && PlansOk(s)
    && HeldOk(s) && KeysOk(s) && PreciseOk(s.table, s.log)
  }

  ghost predicate Inv(s: State) {
    Base(s) && PumpOk(s)
  }

  // ---------------------------------------------------------------- coverage

  /** A copy whose content a deletion must be able to erase. */
  predicate Tracked(log: seq<Message>, k: nat) {
    k < |log| && log[k].kind.Fact? && log[k].owner.Some?
  }

  predicate Names(kind: Kind, owner: nat, k: nat) {
    kind.Command? && kind.erasure.owner == owner && k in kind.erasure.sequences
  }

  predicate RecordedCopy(s: State, k: nat) {
    k < |s.log| && s.log[k].event in s.table.rows && k in s.table.rows[s.log[k].event].seqs
  }

  predicate CarriedCopy(s: State, k: nat) {
    k < |s.log| && s.log[k].event in s.carry && k in s.carry[s.log[k].event].sequences
  }

  predicate InFlight(s: State, k: nat) {
    s.pump.Acked? && s.pump.sequence == k
  }

  /** A command for the copy's owner names it, and that command is queued or already on the stream. */
  ghost predicate Commanded(s: State, k: nat) {
    Tracked(s.log, k) &&
    ( (exists id :: id in s.table.rows && Names(s.table.rows[id].kind, s.log[k].owner.value, k))
      || (exists j :: 0 <= j < |s.log| && Names(s.log[j].kind, s.log[k].owner.value, k)) )
  }

  ghost predicate Durable(s: State, k: nat) {
    RecordedCopy(s, k) || Commanded(s, k)
  }

  ghost predicate Covered(s: State, k: nat) {
    InFlight(s, k) || CarriedCopy(s, k) || Durable(s, k)
  }

  ghost function Uncovered(s: State): set<nat> {
    set k | 0 <= k < |s.log| && Tracked(s.log, k) && !Covered(s, k)
  }

  // ---------------------------------------------------------------- frames

  /** The rows of a deletion's hands are the same in both tables. */
  lemma CollectedFrame(rows: map<nat, Row>, rows': map<nat, Row>, doomed: set<nat>)
    requires doomed <= rows.Keys && doomed <= rows'.Keys
    requires forall id :: id in doomed ==> rows[id] == rows'[id]
    ensures Collected(rows, doomed) == Collected(rows', doomed)
  {
    assert OwnersOf(rows, doomed) == OwnersOf(rows', doomed);
    forall o ensures SequencesOf(rows, doomed, o) == SequencesOf(rows', doomed, o) {
    }
  }

  lemma HeldFrame(s: State, s': State)
    requires HeldOk(s) && s'.held == s.held
    requires forall r :: r in s.held ==> r in s'.plans
    requires forall r, id :: r in s.held && id in s.held[r].doomed ==>
               id in s.table.rows && id in s'.table.rows && s.table.rows[id] == s'.table.rows[id]
    ensures HeldOk(s')
  {
    forall r | r in s'.held ensures RemovalOk(s'.table.rows, s'.held[r]) {
      var doomed := s.held[r].doomed;
      assert forall id :: id in doomed ==> s.table.rows[id] == s'.table.rows[id];
      CollectedFrame(s.table.rows, s'.table.rows, doomed);
    }
  }

  /** A later version of a row: the same envelope, more delivered. */
  ghost predicate Advanced(a: Row, b: Row) {
    && b.kind == a.kind && b.owner == a.owner && b.account == a.account && b.exportId == a.exportId && b.key == a.key
    && (a.published ==> b.published) && (a.acknowledged ==> b.acknowledged) && a.seqs <= b.seqs
  }

  /** Rows that keep their kind and lose no sequence keep every copy accounted for. */
  lemma GrowthKeepsDurable(s: State, s': State)
    requires s'.log == s.log
    requires forall j :: j in s.table.rows ==>
               j in s'.table.rows && s'.table.rows[j].kind == s.table.rows[j].kind
                   && s.table.rows[j].seqs <= s'.table.rows[j].seqs
    ensures forall k: nat :: Durable(s, k) ==> Durable(s', k)
  {
    forall k: nat | Durable(s, k) ensures Durable(s', k) {
      if Commanded(s, k) && exists j :: j in s.table.rows && Names(s.table.rows[j].kind, s.log[k].owner.value, k) {
        var j :| j in s.table.rows && Names(s.table.rows[j].kind, s.log[k].owner.value, k);
        assert Names(s'.table.rows[j].kind, s.log[k].owner.value, k);
      }
    }
  }

  /** `t'` is `t` with one row moved forward. */
  ghost predicate RowAdvanced(t: Table, t': Table, id: nat, log: seq<Message>) {
    && id in t.rows && t'.next == t.next && t'.rows.Keys == t.rows.Keys
    && Advanced(t.rows[id], t'.rows[id]) && RowOk(id, t'.rows[id], log)
    && forall j :: j in t.rows && j != id ==> t'.rows[j] == t.rows[j]
  }

  /** Every part of the invariant that does not speak of the pump survives one row moving forward. */
  lemma AdvanceKeeps(s: State, s': State, id: nat)
    requires Base(s) && RowAdvanced(s.table, s'.table, id, s.log) && !HeldByDeletion(s, id)
    requires s' == s.(table := s'.table, pump := s'.pump)
    ensures Base(s')
    ensures forall k: nat :: Durable(s, k) ==> Durable(s', k)
  {
    forall r, j | r in s.held && j in s.held[r].doomed
      ensures j in s.table.rows && j in s'.table.rows && s.table.rows[j] == s'.table.rows[j]
    {
      assert RemovalOk(s.table.rows, s.held[r]);
    }
    HeldFrame(s, s');
    forall r | r in s'.plans ensures PlanOk(s'.table, s'.plans[r]) {
      assert PlanOk(s.table, s.plans[r]);
    }
    forall j | j in s'.table.rows ensures KeyOk(s', s'.table.rows[j]) {
      assert KeyOk(s, s.table.rows[j]);
    }
    forall j | j in s'.table.rows && s'.table.rows[j].kind.Command?
      ensures Precise(s'.table.rows[j].kind.erasure, s'.table.rows, s'.log)
    {
      assert s'.table.rows[j].kind == s.table.rows[j].kind;
    }
    GrowthKeepsDurable(s, s');
  }

  /** `t'` is `t` with rows added under fresh ids, each of them new to the stream. */
  ghost predicate RowsAdded(t: Table, t': Table) {
    && t.next <= t'.next
    && (forall id :: id in t.rows ==> id in t'.rows && t'.rows[id] == t.rows[id])
    && (forall id :: id in t'.rows && id !in t.rows ==> t.next <= id < t'.next && NewRow(t'.rows[id]))
  }

  predicate NewRow(row: Row) {
    && !row.published && !row.acknowledged && row.seqs == {}
    && (row.kind.Tombstone? || row.kind.Command? ==> row.exportId.None?)
    && (row.kind.Command? <==> row.key.Some?)
  }

  /** Adding rows keeps what does not speak of the pump, provided the new commands are right. */
  lemma AddKeeps(s: State, s': State)
    requires Base(s) && RowsAdded(s.table, s'.table)
    requires s' == s.(table := s'.table, pump := s'.pump)
    requires forall id :: id in s'.table.rows && id !in s.table.rows ==> KeyOk(s', s'.table.rows[id])
    requires forall id :: id in s'.table.rows && id !in s.table.rows && s'.table.rows[id].kind.Command? ==>
               Precise(s'.table.rows[id].kind.erasure, s.table.rows, s.log)
    ensures Base(s')
    ensures forall k: nat :: Durable(s, k) ==> Durable(s', k)
  {
    forall r, j | r in s.held && j in s.held[r].doomed
      ensures j in s.table.rows && j in s'.table.rows && s.table.rows[j] == s'.table.rows[j]
    {
      assert RemovalOk(s.table.rows, s.held[r]);
    }
    HeldFrame(s, s');
    forall r | r in s'.plans ensures PlanOk(s'.table, s'.plans[r]) {
      assert PlanOk(s.table, s.plans[r]);
    }
    forall j | j in s'.table.rows ensures KeyOk(s', s'.table.rows[j]) {
      if j in s.table.rows { assert KeyOk(s, s.table.rows[j]); }
    }
    AddKeepsPrecise(s.table, s'.table, s.log);
    GrowthKeepsDurable(s, s');
  }

  /** No stored copy belongs to a row that is only now added. */
  lemma AddKeepsPrecise(t: Table, t': Table, log: seq<Message>)
    requires LogOk(t, log) && PreciseOk(t, log) && RowsAdded(t, t')
    requires forall id :: id in t'.rows && id !in t.rows && t'.rows[id].kind.Command? ==>
               Precise(t'.rows[id].kind.erasure, t.rows, log)
    ensures PreciseOk(t', log)
  {
    forall e: Erasure | Precise(e, t.rows, log) ensures Precise(e, t'.rows, log) {
    }
  }

  /** Storing one more copy keeps what does not speak of the pump. */
  lemma AppendKeeps(s: State, s': State, m: Message)
    requires Base(s)
    requires s' == s.(log := s.log + [m], pump := s'.pump, batch := s'.batch)
    requires m.event < s.table.next
    requires m.event in s.table.rows ==> m == MessageOf(m.event, s.table.rows[m.event])
    requires m.kind.Command? ==> m.event in s.table.rows
    requires forall id :: id in s'.batch ==> id in s.batch && s'.batch[id] == s.batch[id]
    ensures Base(s')
    ensures forall k: nat :: Durable(s, k) ==> Durable(s', k)
  {
    forall id | id in s'.table.rows ensures RowOk(id, s'.table.rows[id], s'.log) {
      assert RowOk(id, s.table.rows[id], s.log);
    }
    forall id | id in s'.carry ensures CarriedOk(id, s'.carry[id], s'.log) {
      assert CarriedOk(id, s.carry[id], s.log);
    }
    forall id | id in s'.table.rows ensures KeyOk(s', s'.table.rows[id]) {
      assert KeyOk(s, s.table.rows[id]);
    }
    forall e: Erasure | Precise(e, s.table.rows, s.log) ensures Precise(e, s'.table.rows, s'.log) {
    }
    assert m.kind.Command? ==> Precise(m.kind.erasure, s.table.rows, s.log);
    AppendKeepsDurable(s, s', m);
  }

  lemma AppendKeepsDurable(s: State, s': State, m: Message)
    requires s'.log == s.log + [m] && s'.table == s.table
    ensures forall k: nat :: Durable(s, k) ==> Durable(s', k)
  {
    forall k: nat | Commanded(s, k) ensures Commanded(s', k) {
      if j :| 0 <= j < |s.log| && Names(s.log[j].kind, s.log[k].owner.value, k) {
        assert s'.log[j] == s.log[j];
      }
    }
  }

  // ---------------------------------------------------------------- a deletion commits

  ghost function Remaining(s: State, request: nat): State
    requires request in s.held
  {
    s.(table := Table(s.table.rows - s.held[request].doomed, s.table.next),
       held := s.held - {request}, plans := s.plans - {request})
  }

  lemma RemainingKeeps(s: State, request: nat)
    requires Base(s) && request in s.held
    ensures Base(Remaining(s, request))
  {
    var s' := Remaining(s, request);
    var doomed := s.held[request].doomed;
    forall r, j | r in s'.held && j in s'.held[r].doomed
      ensures j in s.table.rows && j in s'.table.rows && s.table.rows[j] == s'.table.rows[j]
    {
      assert RemovalOk(s.table.rows, s.held[r]);
      assert j !in doomed;
    }
    forall r | r in s'.held ensures r in s'.plans && RemovalOk(s'.table.rows, s'.held[r]) {
      assert RemovalOk(s.table.rows, s.held[r]);
      CollectedFrame(s.table.rows, s'.table.rows, s'.held[r].doomed);
    }
    forall r | r in s'.plans ensures PlanOk(s'.table, s'.plans[r]) {
      assert PlanOk(s.table, s.plans[r]);
    }
    forall j | j in s'.table.rows ensures KeyOk(s', s'.table.rows[j]) {
      assert KeyOk(s, s.table.rows[j]);
    }
    forall e: Erasure | Precise(e, s.table.rows, s.log) ensures Precise(e, s'.table.rows, s'.log) {
    }
  }

  ghost function CommandsOf(s: State, request: nat): seq<Queued>
    requires request in s.held
  {
    DeletionCommands(request, s.held[request].facts, Ascending(s.held[request].facts.Keys))
  }

  /** What a deletion names are copies of the rows it removed, of the owner it names. */
  lemma RemovalCommandsPrecise(s: State, request: nat, q: Queued)
    requires Base(s) && request in s.held && q in CommandsOf(s, request)
    ensures Precise(q.erasure, Remaining(s, request).table.rows, s.log)
    ensures q.key.stem.OfDeletion? && q.key.stem.request == request
  {
    var removal := s.held[request];
    DeletionCommandsSound(request, removal.facts, Ascending(removal.facts.Keys), q);
    assert RemovalOk(s.table.rows, removal);
    forall k | k in q.erasure.sequences
      ensures k < |s.log| && s.log[k].kind.Fact? && s.log[k].owner == Some(q.erasure.owner)
      ensures s.log[k].event !in Remaining(s, request).table.rows
    {
      assert k in SequencesOf(s.table.rows, removal.doomed, q.erasure.owner);
      var id :| id in removal.doomed && id in s.table.rows && s.table.rows[id].Tracked()
                && s.table.rows[id].owner.value == q.erasure.owner && k in s.table.rows[id].seqs;
      assert RowOk(id, s.table.rows[id], s.log);
      assert s.log[k] == MessageOf(id, s.table.rows[id]);
    }
  }

  /** Every recorded copy of a removed fact is named by the deletion's commands. */
  lemma RemovalCommandsComplete(s: State, request: nat, k: nat)
    requires Base(s) && request in s.held && Tracked(s.log, k) && RecordedCopy(s, k)
    requires s.log[k].event in s.held[request].doomed
    ensures exists q ::
              q in CommandsOf(s, request) && q.erasure.owner == s.log[k].owner.value && k in q.erasure.sequences
  {
    var removal, id := s.held[request], s.log[k].event;
    assert RemovalOk(s.table.rows, removal);
    assert s.log[k] == MessageOf(id, s.table.rows[id]);
    var owner := s.log[k].owner.value;
    assert owner in OwnersOf(s.table.rows, removal.doomed);
    assert k in SequencesOf(s.table.rows, removal.doomed, owner);
    DeletionCommandsComplete(request, removal.facts, Ascending(removal.facts.Keys), owner, k);
  }

  /** The insert of a committing deletion meets no key of its own and queues every command. */
  lemma RemovalInserts(s: State, request: nat)
    requires Base(s) && request in s.held && request in s.plans
    ensures var t := Remaining(s, request).table;
            var account := Some(s.plans[request].account);
            var u := AfterRemoval(s, request).table;
            && Grown(t, u, account, CommandsOf(s, request))
            && forall q :: q in CommandsOf(s, request) ==> Queues(u.rows, q)
  {
    var t := Remaining(s, request).table;
    var facts := s.held[request].facts;
    DeletionKeysDistinct(request, facts, Ascending(facts.Keys));
    forall q, id | q in CommandsOf(s, request) && id in t.rows ensures t.rows[id].key != Some(q.key) {
      RemovalCommandsPrecise(s, request, q);
      assert KeyOk(s, s.table.rows[id]);
    }
    InsertedCommands(t, Some(s.plans[request].account), CommandsOf(s, request));
  }

  lemma CommitRemovalKeeps(s: State, request: nat)
    requires Base(s) && request in s.held && request in s.plans
    ensures Base(AfterRemoval(s, request))
  {
    var mid, s' := Remaining(s, request), AfterRemoval(s, request);
    RemainingKeeps(s, request);
    RemovalInserts(s, request);
    assert request in s.used;
    forall id | id in s'.table.rows && id !in mid.table.rows
      ensures NewRow(s'.table.rows[id]) && KeyOk(s', s'.table.rows[id])
      ensures Precise(s'.table.rows[id].kind.erasure, mid.table.rows, s.log)
    {
      var q :| q in CommandsOf(s, request) && s'.table.rows[id] == CommandRow(Some(s.plans[request].account), q);
      RemovalCommandsPrecise(s, request, q);
    }
    AddKeeps(mid, s');
  }

  /** A recorded copy of a removed row becomes a commanded one, and a command row that is removed was
      published, so the stream holds the command. */
  lemma CommitRemovalDurable(s: State, request: nat, k: nat)
    requires Base(s) && request in s.held && request in s.plans
    requires Tracked(s.log, k) && Durable(s, k)
    ensures Durable(AfterRemoval(s, request), k)
  {
    var s' := AfterRemoval(s, request);
    RemovalInserts(s, request);
    var doomed := s.held[request].doomed;
    assert RemovalOk(s.table.rows, s.held[request]);
    if RecordedCopy(s, k) {
      if s.log[k].event in doomed {
        RemovalCommandsComplete(s, request, k);
        var q :| q in CommandsOf(s, request) && q.erasure.owner == s.log[k].owner.value && k in q.erasure.sequences;
        assert Queues(s'.table.rows, q);
        var id :| id in s'.table.rows && IsQueued(s'.table.rows[id], q);
        assert Names(s'.table.rows[id].kind, s.log[k].owner.value, k);
      }
    } else if id :| id in s.table.rows && Names(s.table.rows[id].kind, s.log[k].owner.value, k) {
      if id in doomed {
        assert s.table.rows[id].Removable() && RowOk(id, s.table.rows[id], s.log);
        var j :| j in s.table.rows[id].seqs;
        assert s.log[j] == MessageOf(id, s.table.rows[id]);
        assert Names(s'.log[j].kind, s.log[k].owner.value, k);
      } else {
        assert id in Remaining(s, request).table.rows;
        assert Names(s'.table.rows[id].kind, s.log[k].owner.value, k);
      }
    }
  }

  // ---------------------------------------------------------------- the pump reconciles a carried copy

  ghost function ReconcileCommands(s: State, id: nat): seq<Queued>
    requires id in s.carry
  {
    OwnerCommands(OfReconcile(id), s.carry[id].owner, s.carry[id].sequences)
  }

  lemma ReconcileInserts(s: State, id: nat)
    requires Base(s) && id in s.carry && id !in s.table.rows
    ensures var u := InsertCommands(s.table, s.carry[id].account, ReconcileCommands(s, id));
            && Grown(s.table, u, s.carry[id].account, ReconcileCommands(s, id))
            && forall q :: q in ReconcileCommands(s, id) ==> Queues(u.rows, q)
  {
    var qs := ReconcileCommands(s, id);
    OwnerKeysDistinct(OfReconcile(id), s.carry[id].owner, s.carry[id].sequences);
    OwnerCommandsPartition(OfReconcile(id), s.carry[id].owner, s.carry[id].sequences);
    forall q, j | q in qs && j in s.table.rows && s.table.rows[j].key == Some(q.key)
      ensures s.table.rows[j].kind == Command(q.erasure)
    {
      assert KeyOk(s, s.table.rows[j]) && RowOk(j, s.table.rows[j], s.log);
      var held := Queued(q.key, s.table.rows[j].kind.erasure);
      assert held in qs;
      var a :| 0 <= a < |qs| && qs[a] == q;
      var b :| 0 <= b < |qs| && qs[b] == held;
      assert a == b;
    }
    InsertedCommands(s.table, s.carry[id].account, qs);
  }

  /** The pump's own commands name the carried copies of the row that is gone, and nothing else. */
  lemma ReconcileCommandsPrecise(s: State, id: nat, q: Queued)
    requires Base(s) && id in s.carry && id !in s.table.rows && q in ReconcileCommands(s, id)
    ensures Precise(q.erasure, s.table.rows, s.log)
    ensures q.key.stem == OfReconcile(id) && q.erasure.owner == s.carry[id].owner
  {
    OwnerCommandsPartition(OfReconcile(id), s.carry[id].owner, s.carry[id].sequences);
    assert CarriedOk(id, s.carry[id], s.log);
    forall k | k in q.erasure.sequences ensures k in s.carry[id].sequences {
      OwnerCommandsName(OfReconcile(id), s.carry[id].owner, s.carry[id].sequences, k);
    }
  }

  lemma ReconcileKeeps(s: State, id: nat, s': State)
    requires Base(s) && id in s.carry && id !in s.table.rows
    requires s' == s.(table := InsertCommands(s.table, s.carry[id].account, ReconcileCommands(s, id)), pump := s'.pump)
    ensures Base(s')
    ensures forall k: nat :: Durable(s, k) ==> Durable(s', k)
    ensures forall k :: k in s.carry[id].sequences ==> Durable(s', k)
  {
    ReconcileInserts(s, id);
    forall j | j in s'.table.rows && j !in s.table.rows
      ensures NewRow(s'.table.rows[j]) && KeyOk(s', s'.table.rows[j])
      ensures Precise(s'.table.rows[j].kind.erasure, s.table.rows, s.log)
    {
      var q :| q in ReconcileCommands(s, id) && s'.table.rows[j] == CommandRow(s.carry[id].account, q);
      ReconcileCommandsPrecise(s, id, q);
    }
    AddKeeps(s, s');
    forall k | k in s.carry[id].sequences ensures Durable(s', k) { ReconcileNames(s, id, s', k); }
  }

  /** Each carried copy of a row that is gone is named by a queued command. */
  lemma ReconcileNames(s: State, id: nat, s': State, k: nat)
    requires Base(s) && id in s.carry && id !in s.table.rows && k in s.carry[id].sequences
    requires s' == s.(table := InsertCommands(s.table, s.carry[id].account, ReconcileCommands(s, id)), pump := s'.pump)
    ensures Durable(s', k)
  {
    ReconcileInserts(s, id);
    assert CarriedOk(id, s.carry[id], s.log);
    OwnerCommandsName(OfReconcile(id), s.carry[id].owner, s.carry[id].sequences, k);
    var q :| q in ReconcileCommands(s, id) && k in q.erasure.sequences;
    ReconcileCommandsPrecise(s, id, q);
    assert Queues(s'.table.rows, q);
    var j :| j in s'.table.rows && IsQueued(s'.table.rows[j], q);
    assert Names(s'.table.rows[j].kind, s.log[k].owner.value, k);
  }
}
