/** The outbox as the service runs it: a table, the stream and the pump's carry, changed in place. The
    methods are the ones of the pump and of a deletion's erasure half; each is tied to the step
    functions whose runs are studied elsewhere. */
module OutboxPump {
  import opened Orders
  import opened OutboxModel
  import opened OutboxInvariant
  import opened OutboxRuns

  /** What the broker does with one publish. */
  datatype Broker = Refuses | LosesAck(window: bool) | Answers(window: bool)

  /** What the broker and the database do to one first publication. */
  datatype Weather = Weather(broker: Broker, markLands: bool, commits: bool, landed: bool)

  datatype Outcome = Published | Skipped | BrokerFailed | MarkLost | DatabaseFailed

  lemma {:induction false} InsertConcat(t: Table, account: Option<nat>, a: seq<Queued>, b: seq<Queued>)
    ensures InsertCommands(t, account, a + b) == InsertCommands(InsertCommands(t, account, a), account, b)
    decreases |a|
  {
    if a == [] {
      assert a + b == b;
    } else {
      assert (a + b)[1..] == a[1..] + b;
      InsertConcat(InsertCommand(t, account, a[0]), account, a[1..], b);
    }
  }

  lemma InsertNext(t: Table, account: Option<nat>, qs: seq<Queued>, i: nat)
    requires i < |qs|
    ensures InsertCommands(t, account, qs[i..])
            == InsertCommands(InsertCommand(t, account, qs[i]), account, qs[i + 1..])
  {
    assert qs[i..][1..] == qs[i + 1..];
  }

  /** The next chunk starts where the previous ones ended. */
  lemma ChunkNext(sorted: seq<nat>, at: nat, index: nat, end: nat)
    requires at < |sorted| && index <= |Chunks(sorted)| && Chunks(sorted)[index..] == Chunks(sorted[at..])
    requires end == if |sorted| - at <= MAX_SEQUENCES_PER_COMMAND then |sorted| else at + MAX_SEQUENCES_PER_COMMAND
    ensures index < |Chunks(sorted)| && Chunks(sorted)[index] == sorted[at..end]
    ensures Chunks(sorted)[index + 1..] == Chunks(sorted[end..])
  {
    var tail := sorted[at..];
    assert Chunks(sorted)[index..][0] == Chunks(sorted)[index];
    assert Chunks(sorted)[index + 1..] == Chunks(tail)[1..];
    if |tail| > MAX_SEQUENCES_PER_COMMAND {
      assert tail[MAX_SEQUENCES_PER_COMMAND..] == sorted[end..];
    } else {
      assert sorted[end..] == [] && tail == sorted[at..end];
    }
  }

  lemma OwnersOneMore(rows: map<nat, Row>, done: set<nat>, id: nat)
    requires id in rows
    ensures OwnersOf(rows, done + {id}) ==
            OwnersOf(rows, done) + (if rows[id].Tracked() && rows[id].seqs != {} then {rows[id].owner.value} else {})
  {
    forall o | o in OwnersOf(rows, done) ensures o in OwnersOf(rows, done + {id}) {
      var j :| j in done && j in rows && rows[j].Tracked() && rows[j].seqs != {} && rows[j].owner.value == o;
      assert j in done + {id};
    }
    if rows[id].Tracked() && rows[id].seqs != {} { assert id in done + {id}; }
  }

  lemma SequencesOneMore(rows: map<nat, Row>, done: set<nat>, id: nat, o: nat)
    requires id in rows
    ensures SequencesOf(rows, done + {id}, o) ==
            SequencesOf(rows, done, o) + (if rows[id].Tracked() && rows[id].owner.value == o then rows[id].seqs else {})
  {
  }

  /** One more row joins the collection. */
  lemma CollectedOneMore(rows: map<nat, Row>, done: set<nat>, id: nat)
    requires id in rows && id !in done
    ensures var before, after := Collected(rows, done), Collected(rows, done + {id});
            if rows[id].Tracked() && rows[id].seqs != {}
            then after == before[rows[id].owner.value :=
                   (if rows[id].owner.value in before then before[rows[id].owner.value] else {}) + rows[id].seqs]
            else after == before
  {
    OwnersOneMore(rows, done, id);
    var before, after := Collected(rows, done), Collected(rows, done + {id});
    forall o | o in before && !(rows[id].Tracked() && rows[id].owner.value == o) ensures after[o] == before[o] {
      SequencesOneMore(rows, done, id, o);
    }
    if rows[id].Tracked() {
      var o := rows[id].owner.value;
      SequencesOneMore(rows, done, id, o);
      if o !in before { NothingCollected(rows, done, o); }
      if rows[id].seqs == {} { assert SequencesOf(rows, done + {id}, o) == SequencesOf(rows, done, o); }
    }
  }

  lemma NothingCollected(rows: map<nat, Row>, done: set<nat>, o: nat)
    requires o !in OwnersOf(rows, done)
    ensures SequencesOf(rows, done, o) == {}
  {
  }

  ghost function FirstPublication(s: State, id: nat, w: Weather): (State, Outcome)
    requires s.pump.Idle?
  {
    if !Enabled(s, Lock(id)) then (s, Skipped)
    else
      match w.broker
      case Refuses => (Apply(Apply(s, Lock(id)), Refuse), BrokerFailed)
      case LosesAck(window) => (Apply(Apply(s, Lock(id)), LoseAck(window)), BrokerFailed)
      case Answers(window) => Answered(Apply(s, Lock(id)), window, w)
  }

  ghost function Answered(locked: State, window: bool, w: Weather): (State, Outcome)
    requires locked.pump.Locked?
  {
    var marked := Apply(Apply(locked, Publish(window)), RememberAndMark(w.markLands));
    if !marked.pump.Marked? then (marked, if w.markLands then MarkLost else DatabaseFailed)
    else if w.commits then (Apply(Apply(marked, Commit), Forget), Published)
    else (Apply(marked, FailCommit(w.landed)), DatabaseFailed)
  }

  /** What a publication leaves behind, written out: the stream, the carry, the table, the outcome. */
  ghost function Residue(s: State, id: nat, w: Weather): (seq<Message>, map<nat, Carried>, Table, Outcome)
    requires id in s.table.rows && !w.broker.Refuses?
  {
    var c := CandidateOf(s.table.rows[id]);
    var d := Deliver(s.log, Message(id, c.kind, c.owner), w.broker.window);
    var carry := Remembered(s.carry, id, c, d.1);
    var table := Mark(s.table, id, Merged(s.carry, id, c, d.1));
    if w.broker.LosesAck? then (d.0, s.carry, s.table, BrokerFailed)
    else if !w.markLands then (d.0, carry, s.table, DatabaseFailed)
    else if w.commits then (d.0, carry - {id}, table, Published)
    else (d.0, carry, if w.landed then table else s.table, DatabaseFailed)
  }

  /** An answered publication up to its mark, step by step. */
  lemma MarkedState(s: State, id: nat, window: bool, markLands: bool)
    requires s.pump.Idle? && Enabled(s, Lock(id))
    ensures var c := CandidateOf(s.table.rows[id]);
            var d := Deliver(s.log, Message(id, c.kind, c.owner), window);
            Apply(Apply(Apply(s, Lock(id)), Publish(window)), RememberAndMark(markLands))
            == s.(log := d.0, carry := Remembered(s.carry, id, c, d.1),
                  pump := if markLands then Marked(id, Merged(s.carry, id, c, d.1)) else Idle)
  {
    var c := CandidateOf(s.table.rows[id]);
    var d := Deliver(s.log, Message(id, c.kind, c.owner), window);
    var locked := s.(pump := Locked(id, c));
    assert Apply(s, Lock(id)) == locked;
    assert Apply(locked, Publish(window)) == s.(log := d.0, pump := Acked(id, c, d.1));
  }

  lemma AnsweredState(s: State, id: nat, w: Weather)
    requires s.pump.Idle? && Enabled(s, Lock(id)) && w.broker.Answers?
    ensures var r := Residue(s, id, w);
            Answered(Apply(s, Lock(id)), w.broker.window, w) == (s.(log := r.0, carry := r.1, table := r.2), r.3)
  {
    MarkedState(s, id, w.broker.window, w.markLands);
  }

  lemma FirstPublicationState(s: State, id: nat, w: Weather)
    requires s.pump.Idle? && Enabled(s, Lock(id))
    ensures FirstPublication(s, id, w) ==
            if w.broker.Refuses? then (s, BrokerFailed)
            else
              var r := Residue(s, id, w);
              (s.(log := r.0, carry := r.1, table := r.2), r.3)
  {
    if w.broker.Answers? { AnsweredState(s, id, w); }
  }

  /** The run of an answered publication up to its mark: reachable, marked exactly when the database
      takes the mark, and nothing newly uncovered. */
  lemma AnsweredRuns(locked: State, window: bool, markLands: bool)
    requires Reachable(locked) && locked.pump.Locked?
    ensures var marked := Apply(Apply(locked, Publish(window)), RememberAndMark(markLands));
            && Reachable(marked) && Uncovered(marked) <= Uncovered(locked)
            && (markLands <==> marked.pump.Marked?)
  {
    var acked := Apply(locked, Publish(window));
    StepRuns(locked, Publish(window));
    StepRuns(acked, RememberAndMark(markLands));
    ReachableInv(acked);
    if markLands { MarkNeverLost(acked, RememberAndMark(true)); }
  }

  lemma StepRuns(s: State, a: Action)
    requires Reachable(s) && Enabled(s, a)
    ensures Reachable(Apply(s, a))
    ensures !a.Crash? && !a.LoseAck? ==> Uncovered(Apply(s, a)) <= Uncovered(s)
  {
    ReachableStep(s, a);
    ReachableInv(s);
    CoverageStep(s, a);
  }

  lemma CommittedRuns(marked: State)
    requires Reachable(marked) && marked.pump.Marked?
    ensures var done := Apply(Apply(marked, Commit), Forget);
            Reachable(done) && Uncovered(done) <= Uncovered(marked)
  {
    StepRuns(marked, Commit);
    StepRuns(Apply(marked, Commit), Forget);
  }

  lemma FullyAnsweredRuns(locked: State, window: bool, w: Weather)
    requires Reachable(locked) && locked.pump.Locked?
    ensures var r := Answered(locked, window, w);
            Reachable(r.0) && r.0.pump.Idle? && r.1 != MarkLost && Uncovered(r.0) <= Uncovered(locked)
  {
    AnsweredRuns(locked, window, w.markLands);
    var marked := Apply(Apply(locked, Publish(window)), RememberAndMark(w.markLands));
    if marked.pump.Marked? {
      CommittedRuns(marked);
      StepRuns(marked, FailCommit(w.landed));
    }
  }

  /** One first publication, undisturbed, is a piece of a run: the mark is never lost, and nothing
      becomes uncovered unless the broker's acknowledgement was lost. */
  lemma FirstPublicationRuns(s: State, id: nat, w: Weather)
    requires Reachable(s) && s.pump.Idle?
    ensures var r := FirstPublication(s, id, w);
            && Reachable(r.0) && r.0.pump.Idle? && r.1 != MarkLost
            && (!w.broker.LosesAck? ==> Uncovered(r.0) <= Uncovered(s))
  {
    if Enabled(s, Lock(id)) {
      StepRuns(s, Lock(id));
      match w.broker
      case Refuses => StepRuns(Apply(s, Lock(id)), Refuse);
      case LosesAck(window) => StepRuns(Apply(s, Lock(id)), LoseAck(window));
      case Answers(window) => FullyAnsweredRuns(Apply(s, Lock(id)), window, w);
    }
  }

  function CountPublished(outcomes: seq<Outcome>): nat {
    if outcomes == [] then 0
    else CountPublished(outcomes[..|outcomes| - 1]) + if outcomes[|outcomes| - 1].Published? then 1 else 0
  }

  predicate Failed(o: Outcome) {
    o.BrokerFailed? || o.MarkLost? || o.DatabaseFailed?
  }

  /** What a pass reports: nothing when nothing failed, the database failure that stopped it, and the
      first failure otherwise. */
  ghost predicate Reports(outcomes: seq<Outcome>, failure: Option<Outcome>) {
    match failure
    case None => forall j :: 0 <= j < |outcomes| ==> !Failed(outcomes[j])
    case Some(o) =>
      exists j :: 0 <= j < |outcomes| && outcomes[j] == o && Failed(o)
                  && (if o.DatabaseFailed? then j == |outcomes| - 1
                      else forall i :: 0 <= i < j ==> !Failed(outcomes[i]))
  }

  class ArchiveEventOutbox {
    var rows: map<nat, Row>
    var next: nat
    var log: seq<Message>
    var carry: map<nat, Carried>
    var batch: map<nat, Candidate>
    var plans: map<nat, Plan>
    var used: set<nat>
    var held: map<nat, Removal>

    /** Between two of its methods the pump is idle. */
    ghost function View(): State
      reads this
    {
      State(Table(rows, next), log, carry, Idle, batch, plans, used, held)
    }

    constructor ()
      ensures View() == INIT
    {
      rows, next, log, carry := map[], 0, [], map[];
      batch, plans, used, held := map[], map[], {}, map[];
    }

    // -------------------------------------------------------------- erasure commands

    method InsertRow(account: Option<nat>, q: Queued)
      modifies `rows, `next
      ensures Table(rows, next) == InsertCommand(old(Table(rows, next)), account, q)
    {
      if !HasKey(rows, q.key) {
        rows := rows[next := CommandRow(account, q)];
        next := next + 1;
      }
    }

    /** One command per chunk of at most 500 ascending sequences. */
    method EnqueueOwnerErasure(account: Option<nat>, stem: Stem, owner: nat, sequences: set<nat>)
      modifies `rows, `next
      ensures Table(rows, next)
              == InsertCommands(old(Table(rows, next)), account, OwnerCommands(stem, owner, sequences))
    {
      var sorted := Ordered(sequences);
      ghost var qs := OwnerCommands(stem, owner, sequences);
      ghost var t := Table(rows, next);
      var at, index := 0, 0;
      assert sorted[0..] == sorted && qs[0..] == qs && Chunks(sorted)[0..] == Chunks(sorted);
      while at < |sorted|
        invariant 0 <= at <= |sorted| && 0 <= index <= |qs|
        invariant Chunks(sorted)[index..] == Chunks(sorted[at..])
        invariant InsertCommands(t, account, qs) == InsertCommands(Table(rows, next), account, qs[index..])
      {
        var end := if |sorted| - at <= MAX_SEQUENCES_PER_COMMAND then |sorted| else at + MAX_SEQUENCES_PER_COMMAND;
        ChunkNext(sorted, at, index, end);
        InsertNext(Table(rows, next), account, qs, index);
        InsertRow(account, Queued(Key(stem, index), Erasure(owner, sorted[at..end])));
        at, index := end, index + 1;
      }
      assert qs[index..] == [];
    }

    /** Every owner in turn, in the transaction that removed the rows. */
    method EnqueueErasureCommands(request: nat, account: nat, facts: map<nat, set<nat>>)
      modifies `rows, `next
      ensures Table(rows, next) == InsertCommands(old(Table(rows, next)), Some(account),
                                                  DeletionCommands(request, facts, Ascending(facts.Keys)))
    {
      var owners := Ordered(facts.Keys);
      ghost var t := Table(rows, next);
      ghost var all := DeletionCommands(request, facts, owners);
      assert owners[0..] == owners;
      for i := 0 to |owners|
        invariant InsertCommands(t, Some(account), all)
               == InsertCommands(Table(rows, next), Some(account), DeletionCommands(request, facts, owners[i..]))
      {
        ghost var before := Table(rows, next);
        var owner := owners[i];
        assert owners[i..][0] == owner && owners[i..][1..] == owners[i + 1..];
        EnqueueOwnerErasure(Some(account), OfDeletion(request, owner), owner, facts[owner]);
        InsertConcat(before, Some(account), OwnerCommands(OfDeletion(request, owner), owner, facts[owner]),
                     DeletionCommands(request, facts, owners[i + 1..]));
      }
      assert owners[|owners|..] == [];
    }

    /** The rows of the scope leave, and the same statement yields the recorded sequences of the
        content-bearing facts among them, by owner. */
    method DropPublishedFactRows(ids: set<nat>, exports: set<nat>) returns (facts: map<nat, set<nat>>)
      modifies `rows
      ensures var doomed := Doomed(old(rows), Plan(0, exports, ids));
              rows == old(rows) - doomed && facts == Collected(old(rows), doomed)
    {
      var doomed := set id | id in rows
          && (id in ids || (rows[id].exportId.Some? && rows[id].exportId.value in exports));
      var before := rows;
      assert doomed == Doomed(before, Plan(0, exports, ids));
      rows := rows - doomed;
      facts := map[];
      var rest := doomed;
      while rest != {}
        invariant rest <= doomed <= before.Keys && rows == before - doomed
        invariant facts == Collected(before, doomed - rest)
        decreases rest
      {
        var id :| id in rest;
        var row := before[id];
        CollectedOneMore(before, doomed - rest, id);
        if row.Tracked() && row.seqs != {} {
          var owner := row.owner.value;
          facts := facts[owner := (if owner in facts then facts[owner] else {}) + row.seqs];
        }
        assert doomed - rest + {id} == doomed - (rest - {id});
        rest := rest - {id};
      }
      assert doomed - {} == doomed;
    }

    // -------------------------------------------------------------- the carry

    method Remember(id: nat, c: Candidate, sequence: nat) returns (sequences: set<nat>)
      modifies `carry
      ensures carry == Remembered(old(carry), id, c, sequence)
      ensures sequences == Merged(old(carry), id, c, sequence)
    {
      if !c.Tracked() { return {sequence}; }
      var entry := if id in carry then carry[id] else Carried(c.owner.value, c.account, {});
      assert {} + {sequence} == {sequence};
      entry := entry.(sequences := entry.sequences + {sequence});
      carry := carry[id := entry];
      sequences := entry.sequences;
    }

    method Forget(id: nat)
      modifies `carry
      ensures carry == old(carry) - {id}
    {
      carry := carry - {id};
    }

    /** The guarded update: it reports whether it landed on exactly one row. */
    method MarkPublished(id: nat, sequences: set<nat>) returns (landed: bool)
      modifies `rows
      ensures landed == (id in old(rows) && !old(rows)[id].published)
      ensures Table(rows, next)
              == if landed then Mark(old(Table(rows, next)), id, sequences) else old(Table(rows, next))
    {
      landed := id in rows && !rows[id].published;
      if landed {
        rows := rows[id := rows[id].(published := true, seqs := rows[id].seqs + sequences)];
      }
    }

    // -------------------------------------------------------------- reconciliation

    /** Every carried copy whose row is gone becomes an erasure command in its owner's name and leaves
        the carry; a copy whose row is still there waits for its retry. `commits` transactions commit
        before one fails; a failed one may have landed all the same. */
    method ReconcileCarried(commits: nat, landed: bool) returns (ok: bool)
      requires Reachable(View())
      modifies `rows, `next, `carry
      ensures Reachable(View()) && Uncovered(View()) <= old(Uncovered(View()))
      ensures forall id :: id in carry ==> id in old(carry) && carry[id] == old(carry)[id]
      ensures forall id :: id in old(carry) && id in old(rows) ==> id in carry
      ensures forall id, k :: id in old(carry) && id !in carry && k in old(carry)[id].sequences ==> Durable(View(), k)
      ensures ok ==> forall id :: id in carry ==> id in rows
    {
      ghost var before := View();
      var gone := set id | id in carry && id !in rows;
      ReconcilingStarts(before, gone);
      var rest := gone;
      var committed := 0;
      ok := true;
      while rest != {} && ok
        invariant Reconciling(before, View(), gone, rest)
        decreases rest, ok
      {
        var id :| id in rest;
        ok := committed < commits;
        ReconcilingStep(before, View(), gone, rest, id, ok, landed);
        ReconcileOne(id, ok, landed);
        if ok {
          rest := rest - {id};
          committed := committed + 1;
        }
      }
      forall id, k | id in before.carry && id !in carry && k in before.carry[id].sequences ensures Durable(View(), k) {
        ForgottenIsDurable(before, View(), id, k);
      }
    }

    /** One reconciling transaction, and the `forget` that follows its commit. */
    method ReconcileOne(id: nat, commits: bool, landed: bool)
      requires id in carry && id !in rows
      modifies `rows, `next, `carry
      ensures View() == AfterReconcile(old(View()), id, commits, landed)
    {
      if commits || landed {
        EnqueueOwnerErasure(carry[id].account, OfReconcile(id), carry[id].owner, carry[id].sequences);
      }
      if commits { Forget(id); }
    }

    // -------------------------------------------------------------- publication

    /** `SELECT ... FOR UPDATE SKIP LOCKED` on one candidate. */
    method TryLock(id: nat) returns (locked: bool)
      ensures locked <==> Enabled(View(), Lock(id))
    {
      locked := id in rows && !rows[id].published && !rows[id].undeliverable
          && !exists q :: q in held && id in held[q].doomed;
    }

    /** A first publication: lock, publish, remember, mark, commit, forget. The transaction's own copy
        of the table is discarded when it does not commit. */
    method PublishFirst(id: nat, w: Weather) returns (r: Outcome)
      modifies `rows, `log, `carry
      ensures (View(), r) == FirstPublication(old(View()), id, w)
    {
      var locked := TryLock(id);
      if !locked { return Skipped; }
      FirstPublicationState(View(), id, w);
      if w.broker.Refuses? { return BrokerFailed; }
      r := PublishLocked(id, w);
    }

    method PublishLocked(id: nat, w: Weather) returns (r: Outcome)
      requires id in rows && !rows[id].published && !w.broker.Refuses?
      modifies `rows, `log, `carry
      ensures (log, carry, Table(rows, next), r) == Residue(old(View()), id, w)
    {
      var before := rows;
      var c := CandidateOf(rows[id]);
      var d := Deliver(log, Message(id, c.kind, c.owner), w.broker.window);
      log := d.0;
      if w.broker.LosesAck? { return BrokerFailed; }
      var sequences := Remember(id, c, d.1);
      if !w.markLands { return DatabaseFailed; }
      var landed := MarkPublished(id, sequences);
      if !landed { return MarkLost; }
      if !w.commits {
        if !w.landed { rows := before; }
        return DatabaseFailed;
      }
      Forget(id);
      r := Published;
    }

    /** Resends a tombstone of the batch unchanged; the row takes no lock and records no sequence. */
    method PublishAgain(id: nat, w: Weather) returns (r: Outcome)
      requires id in batch
      modifies `log, `batch
      ensures (View(), r) == Resending(old(View()), id, w)
    {
      if w.broker.Refuses? { return BrokerFailed; }
      var m := Message(id, batch[id].kind, batch[id].owner);
      log, batch := Deliver(log, m, w.broker.window).0, batch - {id};
      r := if w.broker.LosesAck? then BrokerFailed else if w.markLands then Published else DatabaseFailed;
    }

    /** Keeps a row that is too large as evidence, never to be sent; a published row is left alone. */
    method MarkUndeliverable(id: nat)
      modifies `rows
      ensures View() == Undelivered(old(View()), id)
    {
      if id in rows && !rows[id].published && !exists q :: q in held && id in held[q].doomed {
        rows := rows[id := rows[id].(undeliverable := true)];
      }
    }

    method PublishOne(j: Job) returns (r: Outcome)
      modifies `rows, `log, `carry, `batch
      ensures (View(), r) == Done(old(View()), j)
    {
      if j.tooLarge {
        MarkUndeliverable(j.id);
        return Skipped;
      }
      if j.resend {
        if j.id !in batch { return Skipped; }
        r := PublishAgain(j.id, j.weather);
      } else {
        r := PublishFirst(j.id, j.weather);
      }
    }

    /** One pass over its candidates: first publications, resends of overdue tombstones, and rows too
        large to deliver. A row the broker refuses does not stop the rows behind it, a database failure
        does. Undisturbed, the pass is a piece of a run, so it uncovers nothing unless the broker lost
        the acknowledgement of a first publication. */
    method PublishRows(jobs: seq<Job>) returns (published: nat, failure: Option<Outcome>, ghost outcomes: seq<Outcome>)
      requires Reachable(View())
      modifies `rows, `log, `carry, `batch
      ensures Reachable(View())
      ensures (forall i :: 0 <= i < |jobs| ==> !Exposes(jobs[i])) ==> Uncovered(View()) <= old(Uncovered(View()))
      ensures |outcomes| <= |jobs| && published == CountPublished(outcomes) && Reports(outcomes, failure)
      ensures |outcomes| == |jobs| || failure == Some(DatabaseFailed)
    {
      published, failure, outcomes := 0, None, [];
      for i := 0 to |jobs|
        invariant |outcomes| == i && Reachable(View())
        invariant (forall i :: 0 <= i < |jobs| ==> !Exposes(jobs[i])) ==> Uncovered(View()) <= old(Uncovered(View()))
        invariant published == CountPublished(outcomes) && Reports(outcomes, failure)
        invariant failure != Some(DatabaseFailed)
      {
        DoneRuns(View(), jobs[i]);
        var outcome := PublishOne(jobs[i]);
        ReportsNext(outcomes, failure, outcome);
        outcomes := outcomes + [outcome];
        assert outcomes[..|outcomes| - 1] == outcomes[..i];
        match outcome {
          case Published => published := published + 1;
          case Skipped =>
          case DatabaseFailed =>
            failure := Some(DatabaseFailed);
            return;
          case _ => if failure.None? { failure := Some(outcome); }
        }
      }
    }
  }

  /** One candidate of a pass: whether it is a resend, whether its body exceeds what the broker takes,
      and what the broker and the database will answer. */
  datatype Job = Job(id: nat, resend: bool, tooLarge: bool, weather: Weather)

  /** A first publication whose acknowledgement is lost. */
  predicate Exposes(j: Job) {
    !j.tooLarge && !j.resend && j.weather.broker.LosesAck?
  }

  ghost function Resending(s: State, id: nat, w: Weather): (State, Outcome)
    requires s.pump.Idle? && id in s.batch
  {
    if w.broker.Refuses? then (s, BrokerFailed)
    else (Apply(s, Resend(id, w.broker.window)),
          if w.broker.LosesAck? then BrokerFailed else if w.markLands then Published else DatabaseFailed)
  }

  ghost function Undelivered(s: State, id: nat): State
    requires s.pump.Idle?
  {
    if Enabled(s, Action.MarkUndeliverable(id)) then Apply(s, Action.MarkUndeliverable(id)) else s
  }

  ghost function Done(s: State, j: Job): (State, Outcome)
    requires s.pump.Idle?
  {
    if j.tooLarge then (Undelivered(s, j.id), Skipped)
    else if !j.resend then FirstPublication(s, j.id, j.weather)
    else if j.id in s.batch then Resending(s, j.id, j.weather)
    else (s, Skipped)
  }

  lemma DoneRuns(s: State, j: Job)
    requires Reachable(s) && s.pump.Idle?
    ensures Reachable(Done(s, j).0)
    ensures !Exposes(j) ==> Uncovered(Done(s, j).0) <= Uncovered(s)
  {
    if j.tooLarge {
      if Enabled(s, Action.MarkUndeliverable(j.id)) { StepRuns(s, Action.MarkUndeliverable(j.id)); }
    } else if !j.resend {
      FirstPublicationRuns(s, j.id, j.weather);
    } else if j.id in s.batch && !j.weather.broker.Refuses? {
      StepRuns(s, Resend(j.id, j.weather.broker.window));
    }
  }

  ghost function AfterReconcile(s: State, id: nat, commits: bool, landed: bool): State
    requires id in s.carry
  {
    s.(table := if commits || landed
                then InsertCommands(s.table, s.carry[id].account, ReconcileCommands(s, id)) else s.table,
       carry := if commits then s.carry - {id} else s.carry)
  }

  /** One carried copy whose row is gone: a piece of a run that uncovers nothing. */
  lemma ReconcileRuns(s: State, id: nat, commits: bool, landed: bool)
    requires Reachable(s) && s.pump.Idle? && id in s.carry && id !in s.table.rows
    ensures var done := AfterReconcile(s, id, commits, landed);
            Reachable(done) && Uncovered(done) <= Uncovered(s)
  {
    var done := AfterReconcile(s, id, commits, landed);
    if commits {
      StepRuns(s, Reconcile(id, true));
      StepRuns(Apply(s, Reconcile(id, true)), Forget);
      assert done == Apply(Apply(s, Reconcile(id, true)), Forget);
    } else if landed {
      StepRuns(s, Reconcile(id, false));
      assert done == Apply(s, Reconcile(id, false));
    } else {
      assert done == s;
    }
  }

  /** Whatever the carry has forgotten is recorded or commanded. */
  lemma ForgottenIsDurable(before: State, after: State, id: nat, k: nat)
    requires Reachable(before) && id in before.carry && k in before.carry[id].sequences
    requires after.log == before.log && Uncovered(after) <= Uncovered(before) && after.pump.Idle? && id !in after.carry
    ensures Durable(after, k)
  {
    ReachableInv(before);
    assert CarriedOk(id, before.carry[id], before.log);
    assert CarriedCopy(before, k) && k !in Uncovered(before);
  }

  /** A reconciliation on its way: `rest` of the `gone` rows' entries are still carried. */
  ghost predicate Reconciling(before: State, now: State, gone: set<nat>, rest: set<nat>) {
    && Reachable(now) && now.pump.Idle? && now.log == before.log && Uncovered(now) <= Uncovered(before)
    && rest <= gone <= before.carry.Keys && now.carry == before.carry - (gone - rest)
    && forall id :: id in before.carry ==> id < now.table.next && (id in now.table.rows <==> id !in gone)
  }

  lemma ReconcilingStarts(before: State, gone: set<nat>)
    requires Reachable(before) && before.pump.Idle? && gone == set id | id in before.carry && id !in before.table.rows
    ensures Reconciling(before, before, gone, gone)
  {
    ReachableInv(before);
    assert CarryOk(before);
  }

  lemma ReconcilingStep(before: State, now: State, gone: set<nat>, rest: set<nat>, id: nat, commits: bool, landed: bool)
    requires Reconciling(before, now, gone, rest) && id in rest
    ensures id in now.carry && id !in now.table.rows
    ensures Reconciling(before, AfterReconcile(now, id, commits, landed), gone, if commits then rest - {id} else rest)
  {
    ReconcileRuns(now, id, commits, landed);
    var after := AfterReconcile(now, id, commits, landed);
    if commits { assert gone - (rest - {id}) == (gone - rest) + {id}; }
    forall j | j in before.carry ensures j < after.table.next && (j in after.table.rows <==> j !in gone) {
      ReconcileGrows(now, id, commits, landed, j);
    }
  }

  /** An id that was handed out before is not handed out again. */
  lemma ReconcileGrows(s: State, id: nat, commits: bool, landed: bool, j: nat)
    requires Reachable(s) && id in s.carry && id !in s.table.rows && j < s.table.next
    ensures j in AfterReconcile(s, id, commits, landed).table.rows <==> j in s.table.rows
    ensures j < AfterReconcile(s, id, commits, landed).table.next
  {
    ReachableInv(s);
    ReconcileInserts(s, id);
  }

  lemma ReportsNext(outcomes: seq<Outcome>, failure: Option<Outcome>, next: Outcome)
    requires Reports(outcomes, failure) && failure != Some(DatabaseFailed)
    ensures next.DatabaseFailed? ==> Reports(outcomes + [next], Some(DatabaseFailed))
    ensures !next.DatabaseFailed? ==>
              Reports(outcomes + [next], if failure.None? && Failed(next) then Some(next) else failure)
    ensures CountPublished(outcomes + [next]) == CountPublished(outcomes) + if next.Published? then 1 else 0
  {
    var all := outcomes + [next];
    assert all[..|all| - 1] == outcomes && all[|outcomes|] == next;
    if failure.Some? {
      var j :| 0 <= j < |outcomes| && outcomes[j] == failure.value && Failed(failure.value)
               && forall i :: 0 <= i < j ==> !Failed(outcomes[i]);
      assert all[j] == failure.value;
    }
  }
}
