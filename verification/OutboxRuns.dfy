/** Whole runs of the outbox protocol: coverage of every content-bearing stream copy, precision of
    every erasure command, and persistence of what is still owed. */
module OutboxRuns {
  import opened Orders
  import opened OutboxModel
  import opened OutboxInvariant

  // ---------------------------------------------------------------- other writers and deletions

  lemma EnqueueKeeps(s: State, a: Action)
    requires Inv(s) && a.Enqueue? && Enabled(s, a)
    ensures Inv(Apply(s, a))
    ensures forall k: nat :: Durable(s, k) ==> Durable(Apply(s, a), k)
  {
    var s' := Apply(s, a);
    assert s.table.next !in s.table.rows;
    AddKeeps(s, s');
  }

  lemma AcknowledgeKeeps(s: State, a: Action)
    requires Inv(s) && a.Acknowledge? && Enabled(s, a)
    ensures Inv(Apply(s, a))
    ensures forall k: nat :: Durable(s, k) ==> Durable(Apply(s, a), k)
  {
    assert RowOk(a.id, s.table.rows[a.id], s.log);
    AdvanceKeeps(s, Apply(s, a), a.id);
  }

  lemma UndeliverableKeeps(s: State, a: Action)
    requires Inv(s) && a.MarkUndeliverable? && Enabled(s, a)
    ensures Inv(Apply(s, a))
    ensures forall k: nat :: Durable(s, k) ==> Durable(Apply(s, a), k)
  {
    assert RowOk(a.id, s.table.rows[a.id], s.log);
    if !s.table.rows[a.id].published { AdvanceKeeps(s, Apply(s, a), a.id); }
  }

  /** Steps that touch only plans and what deletions hold. */
  lemma TableFrame(s: State, s': State)
    requires Base(s) && s' == s.(plans := s'.plans, held := s'.held, used := s'.used)
    requires s.used <= s'.used && forall r :: r in s.used && r !in s.plans ==> r !in s'.plans
    requires PlansOk(s') && HeldOk(s')
    ensures Base(s')
    ensures forall k: nat :: Durable(s, k) <==> Durable(s', k)
  {
    forall j | j in s'.table.rows ensures KeyOk(s', s'.table.rows[j]) {
      assert KeyOk(s, s.table.rows[j]);
    }
  }

  lemma PlanKeeps(s: State, a: Action)
    requires Inv(s) && a.PlanDeletion? && Enabled(s, a)
    ensures Inv(Apply(s, a))
    ensures forall k: nat :: Durable(s, k) ==> Durable(Apply(s, a), k)
  {
    var s' := Apply(s, a);
    forall r | r in s'.plans ensures PlanOk(s'.table, s'.plans[r]) {
      if r != a.request { assert PlanOk(s.table, s.plans[r]); }
    }
    HeldFrame(s, s') by {
      forall r, id | r in s.held && id in s.held[r].doomed ensures id in s.table.rows {
        assert RemovalOk(s.table.rows, s.held[r]);
      }
    }
    TableFrame(s, s');
  }

  lemma RemoveRowsHeld(s: State, a: Action)
    requires Inv(s) && a.RemoveRows? && Enabled(s, a)
    ensures HeldOk(Apply(s, a))
  {
    var s', plan := Apply(s, a), s.plans[a.request];
    var doomed := Doomed(s.table.rows, plan);
    forall id | id in doomed ensures s.table.rows[id].Removable() {
      assert PlanOk(s.table, plan) && RowOk(id, s.table.rows[id], s.log);
    }
    forall r | r in s'.held ensures r in s'.plans && RemovalOk(s'.table.rows, s'.held[r]) {
      if r != a.request { assert RemovalOk(s.table.rows, s.held[r]); }
    }
    forall r | r in s.held ensures s.held[r].doomed !! doomed {
      forall id | id in doomed ensures id !in s.held[r].doomed { assert !HeldByDeletion(s, id); }
    }
  }

  lemma RemoveRowsKeeps(s: State, a: Action)
    requires Inv(s) && a.RemoveRows? && Enabled(s, a)
    ensures Inv(Apply(s, a))
    ensures forall k: nat :: Durable(s, k) ==> Durable(Apply(s, a), k)
  {
    RemoveRowsHeld(s, a);
    TableFrame(s, Apply(s, a));
  }

  lemma AbortKeeps(s: State, a: Action)
    requires Inv(s) && a.AbortRemoval? && Enabled(s, a)
    ensures Inv(Apply(s, a))
    ensures forall k: nat :: Durable(s, k) ==> Durable(Apply(s, a), k)
  {
    TableFrame(s, Apply(s, a));
  }

  /** The row the pump works on is not among those a deletion removes. */
  lemma OwnedStays(s: State, request: nat, id: nat)
    requires Base(s) && request in s.held && request in s.plans && Owned(s, id)
    ensures Owned(AfterRemoval(s, request), id) && AfterRemoval(s, request).table.rows[id] == s.table.rows[id]
  {
    RemovalInserts(s, request);
    assert id !in s.held[request].doomed;
    assert id in Remaining(s, request).table.rows;
  }

  /** The pump's position survives whatever leaves its row, the stream and its carry alone. */
  lemma PumpFrame(s: State, s': State)
    requires PumpOk(s) && s'.pump == s.pump && s'.log == s.log && s'.carry == s.carry
    requires s.pump.Locked? || s.pump.Acked? || s.pump.Marked? ==>
               Owned(s', s.pump.id) && s.pump.id in s.table.rows && s'.table.rows[s.pump.id] == s.table.rows[s.pump.id]
    requires s.pump.Written? && s.pump.id in s.carry ==>
               forall k :: k in s.carry[s.pump.id].sequences && Durable(s, k) ==> Durable(s', k)
    ensures PumpOk(s')
  {
  }

  /** Carried copies are tracked, so what keeps tracked copies keeps them. */
  lemma CarriedStayDurable(s: State, s': State, id: nat)
    requires CarryOk(s) && id in s.carry
    requires forall k: nat :: Tracked(s.log, k) && Durable(s, k) ==> Durable(s', k)
    ensures forall k :: k in s.carry[id].sequences && Durable(s, k) ==> Durable(s', k)
  {
    assert CarriedOk(id, s.carry[id], s.log);
  }

  lemma CommitPump(s: State, request: nat, s': State)
    requires Base(s) && PumpOk(s) && request in s.held && request in s.plans && s' == AfterRemoval(s, request)
    requires forall k: nat :: Tracked(s.log, k) && Durable(s, k) ==> Durable(s', k)
    ensures PumpOk(s')
  {
    if s.pump.Written? {
      if s.pump.id in s.carry { CarriedStayDurable(s, s', s.pump.id); }
    } else if !s.pump.Idle? {
      OwnedStays(s, request, s.pump.id);
    }
    PumpFrame(s, s');
  }

  lemma CommitKeeps(s: State, a: Action)
    requires Inv(s) && a.CommitRemoval? && Enabled(s, a)
    ensures Inv(Apply(s, a))
    ensures forall k: nat :: Tracked(s.log, k) && Durable(s, k) ==> Durable(Apply(s, a), k)
  {
    CommitRemovalKeeps(s, a.request);
    forall k: nat | Tracked(s.log, k) && Durable(s, k) ensures Durable(AfterRemoval(s, a.request), k) {
      CommitRemovalDurable(s, a.request, k);
    }
    CommitPump(s, a.request, AfterRemoval(s, a.request));
  }

  // ---------------------------------------------------------------- the pump

  /** Actions that move only the pump, its batch or its carry. */
  lemma PumpMoveKeeps(s: State, s': State)
    requires Base(s) && s' == s.(pump := s'.pump, batch := s'.batch, carry := s'.carry)
    requires CarryOk(s') && BatchOk(s') && KeysOk(s')
    ensures Base(s')
    ensures forall k: nat :: Durable(s, k) <==> Durable(s', k)
  {
    assert HeldOk(s') && PlansOk(s');
  }

  lemma LocalKeys(s: State, s': State)
    requires KeysOk(s) && s'.table == s.table && s'.plans == s.plans && s'.used == s.used
    requires forall id :: id in s'.carry && id !in s.table.rows ==> id in s.carry && s'.carry[id] == s.carry[id]
    ensures KeysOk(s')
  {
    forall j | j in s'.table.rows ensures KeyOk(s', s'.table.rows[j]) {
      assert KeyOk(s, s.table.rows[j]);
    }
  }

  lemma QuietKeeps(s: State, a: Action)
    requires Inv(s) && Enabled(s, a)
    requires a.StartPass? || a.Lock? || a.Refuse? || a.Forget?
    ensures Inv(Apply(s, a))
    ensures forall k: nat :: Durable(s, k) ==> Durable(Apply(s, a), k)
  {
    var s' := Apply(s, a);
    LocalKeys(s, s');
    if a.StartPass? {
      assert forall id :: id in s'.batch ==> id in s.table.rows;
    }
    PumpMoveKeeps(s, s');
  }

  /** A publish or a resend: the stored copy is a copy of the row it is sent for. */
  lemma SendKeeps(s: State, a: Action)
    requires Inv(s) && Enabled(s, a) && (a.Publish? || a.LoseAck? || a.Resend?)
    ensures Inv(Apply(s, a))
    ensures forall k: nat :: Durable(s, k) ==> Durable(Apply(s, a), k)
  {
    var s' := Apply(s, a);
    var m := if a.Resend? then Message(a.id, s.batch[a.id].kind, s.batch[a.id].owner)
             else Message(s.pump.id, s.pump.candidate.kind, s.pump.candidate.owner);
    var d := Deliver(s.log, m, a.window);
    if d.0 == s.log {
      LocalKeys(s, s');
      PumpMoveKeeps(s, s');
    } else {
      AppendKeeps(s, s', m);
    }
    if a.Publish? {
      assert LogOk(s'.table, s'.log);
      assert s'.log[d.1].event == s.pump.id;
    }
  }

  /** The carried sequences after `remember`, still copies of the row. */
  lemma RememberedOk(s: State)
    requires Inv(s) && s.pump.Acked?
    ensures var carry := Remembered(s.carry, s.pump.id, s.pump.candidate, s.pump.sequence);
            CarryOk(s.(carry := carry)) && KeysOk(s.(carry := carry))
    ensures forall k :: k in Merged(s.carry, s.pump.id, s.pump.candidate, s.pump.sequence) ==>
              k < |s.log| && s.log[k].event == s.pump.id
  {
    var id := s.pump.id;
    var s' := s.(carry := Remembered(s.carry, id, s.pump.candidate, s.pump.sequence));
    if id in s.carry { CarriedOwner(s, id); }
    LocalKeys(s, s');
  }

  /** A carried entry of a live row carries that row's owner, and the row is a tracked fact. */
  lemma CarriedOwner(s: State, id: nat)
    requires Base(s) && id in s.carry && id in s.table.rows
    ensures s.table.rows[id].Tracked() && s.table.rows[id].owner.value == s.carry[id].owner
  {
    assert CarriedOk(id, s.carry[id], s.log);
    var k :| k in s.carry[id].sequences;
    assert s.log[k] == MessageOf(id, s.table.rows[id]);
  }

  lemma MarkPump(s: State, a: Action)
    requires Inv(s) && a.RememberAndMark? && Enabled(s, a)
    ensures PumpOk(Apply(s, a))
  {
    RememberedOk(s);
    if s.pump.id in s.carry { CarriedOwner(s, s.pump.id); }
  }

  lemma MarkStepKeeps(s: State, a: Action)
    requires Inv(s) && a.RememberAndMark? && Enabled(s, a)
    ensures Inv(Apply(s, a))
    ensures forall k: nat :: Durable(s, k) ==> Durable(Apply(s, a), k)
  {
    var s' := Apply(s, a);
    RememberedOk(s);
    assert CarryOk(s') && KeysOk(s') && BatchOk(s');
    PumpMoveKeeps(s, s');
    MarkPump(s, a);
  }

  /** The row lock makes the guarded mark land: the mark is never lost. */
  lemma MarkNeverLost(s: State, a: Action)
    requires Inv(s) && a == RememberAndMark(true) && Enabled(s, a)
    ensures Apply(s, a).pump.Marked?
  {
    assert PumpOk(s);
  }

  lemma MarkAdvances(s: State)
    requires Inv(s) && s.pump.Marked?
    ensures RowAdvanced(s.table, Mark(s.table, s.pump.id, s.pump.sequences), s.pump.id, s.log)
    ensures forall k :: k in s.pump.sequences ==>
              RecordedCopy(s.(table := Mark(s.table, s.pump.id, s.pump.sequences)), k)
  {
    assert RowOk(s.pump.id, s.table.rows[s.pump.id], s.log);
  }

  lemma LandKeeps(s: State, a: Action)
    requires Inv(s) && Enabled(s, a) && (a.Commit? || (a.FailCommit? && a.landed))
    ensures Inv(Apply(s, a))
    ensures forall k: nat :: Durable(s, k) ==> Durable(Apply(s, a), k)
  {
    var s' := Apply(s, a);
    MarkAdvances(s);
    AdvanceKeeps(s, s', s.pump.id);
    if a.Commit? {
      forall k | s.pump.id in s'.carry && k in s'.carry[s.pump.id].sequences ensures Durable(s', k) {
        assert RecordedCopy(s', k);
      }
    }
  }

  lemma FailKeeps(s: State, a: Action)
    requires Inv(s) && Enabled(s, a) && a.FailCommit? && !a.landed
    ensures Inv(Apply(s, a))
    ensures forall k: nat :: Durable(s, k) ==> Durable(Apply(s, a), k)
  {
    LocalKeys(s, Apply(s, a));
    PumpMoveKeeps(s, Apply(s, a));
  }

  lemma CrashKeeps(s: State, a: Action)
    requires Inv(s) && a.Crash?
    ensures Inv(Apply(s, a))
    ensures forall k: nat :: Durable(s, k) ==> Durable(Apply(s, a), k)
  {
    var s' := Apply(s, a);
    var mid := s.(table := s'.table, pump := Idle);
    if a.landed && s.pump.Marked? {
      MarkAdvances(s);
      AdvanceKeeps(s, mid, s.pump.id);
    } else {
      LocalKeys(s, mid);
      PumpMoveKeeps(s, mid);
    }
    LocalKeys(mid, s');
    PumpMoveKeeps(mid, s');
  }

  lemma ReconcileStepKeeps(s: State, a: Action)
    requires Inv(s) && a.Reconcile? && Enabled(s, a)
    ensures Inv(Apply(s, a))
    ensures forall k: nat :: Durable(s, k) ==> Durable(Apply(s, a), k)
  {
    ReconcileKeeps(s, a.id, Apply(s, a));
  }

  // ---------------------------------------------------------------- every step

  /** Every enabled action keeps the invariant, and what a row records or a command names stays
      recorded or named. */
  lemma StepKeeps(s: State, a: Action)
    requires Inv(s) && Enabled(s, a)
    ensures Inv(Apply(s, a))
    ensures forall k: nat :: Tracked(s.log, k) && Durable(s, k) ==> Durable(Apply(s, a), k)
  {
    match a
    case Enqueue(_, _, _, _) => EnqueueKeeps(s, a);
    case Acknowledge(_) => AcknowledgeKeeps(s, a);
    case PlanDeletion(_, _, _, _) => PlanKeeps(s, a);
    case RemoveRows(_) => RemoveRowsKeeps(s, a);
    case CommitRemoval(_) => CommitKeeps(s, a);
    case AbortRemoval(_) => AbortKeeps(s, a);
    case MarkUndeliverable(_) => UndeliverableKeeps(s, a);
    case Publish(_) => SendKeeps(s, a);
    case LoseAck(_) => SendKeeps(s, a);
    case Resend(_, _) => SendKeeps(s, a);
    case RememberAndMark(_) => MarkStepKeeps(s, a);
    case Commit => LandKeeps(s, a);
    case FailCommit(landed) => if landed { LandKeeps(s, a); } else { FailKeeps(s, a); }
    case Reconcile(_, _) => ReconcileStepKeeps(s, a);
    case Crash(_) => CrashKeeps(s, a);
    case StartPass(_) => QuietKeeps(s, a);
    case Lock(_) => QuietKeeps(s, a);
    case Refuse => QuietKeeps(s, a);
    case Forget => QuietKeeps(s, a);
  }

  /** Every reachable state satisfies the invariant. */
  lemma {:induction false} RunKeeps(states: seq<State>, actions: seq<Action>, i: nat)
    requires IsRun(states, actions) && i < |states|
    ensures Inv(states[i])
  {
    if i > 0 {
      RunKeeps(states, actions, i - 1);
      StepKeeps(states[i - 1], actions[i - 1]);
    }
  }

  ghost predicate Reachable(s: State) {
    exists states, actions :: IsRun(states, actions) && states[|actions|] == s
  }

  lemma ReachableInv(s: State)
    requires Reachable(s)
    ensures Inv(s)
  {
    var states, actions :| IsRun(states, actions) && states[|actions|] == s;
    RunKeeps(states, actions, |actions|);
  }

  lemma ReachableStep(s: State, a: Action)
    requires Reachable(s) && Enabled(s, a)
    ensures Reachable(Apply(s, a))
  {
    var states, actions :| IsRun(states, actions) && states[|actions|] == s;
    ExtendRun(states, actions, a);
  }

  lemma ExtendRun(states: seq<State>, actions: seq<Action>, a: Action)
    requires IsRun(states, actions) && Enabled(states[|actions|], a)
    ensures Reachable(Apply(states[|actions|], a))
  {
    var states', actions' := states + [Apply(states[|actions|], a)], actions + [a];
    forall i | 0 <= i < |actions'|
      ensures Enabled(states'[i], actions'[i]) && states'[i + 1] == Apply(states'[i], actions'[i])
    {
      if i < |actions| {
        assert states'[i] == states[i] && actions'[i] == actions[i] && states'[i + 1] == states[i + 1];
      }
    }
    assert IsRun(states', actions') && states'[|actions'|] == Apply(states[|actions|], a);
  }

  // ---------------------------------------------------------------- coverage

  /** The copies an action may leave uncovered: after a crash, the ones only the pump's memory knew;
      after a lost acknowledgement, the one the broker stored. */
  ghost function Exposed(s: State, a: Action): set<nat> {
    match a
    case Crash(_) => set k | 0 <= k < |s.log| && (InFlight(s, k) || CarriedCopy(s, k)) && !Durable(s, k)
    case LoseAck(window) =>
      if s.pump.Locked?
      then {Deliver(s.log, Message(s.pump.id, s.pump.candidate.kind, s.pump.candidate.owner), window).1} else {}
    case _ => {}
  }

  lemma LogGrows(s: State, a: Action)
    requires Enabled(s, a)
    ensures s.log <= Apply(s, a).log
  {
  }

  /** Only a crash and `forget` take anything out of the carry. */
  lemma CarryStays(s: State, a: Action, id: nat)
    requires Enabled(s, a) && !a.Crash? && id in s.carry && !(a.Forget? && s.pump.id == id)
    ensures id in Apply(s, a).carry && s.carry[id].sequences <= Apply(s, a).carry[id].sequences
  {
  }

  lemma CarriedStaysCovered(s: State, a: Action, k: nat)
    requires Inv(s) && Enabled(s, a) && !a.Crash? && Tracked(s.log, k) && CarriedCopy(s, k)
    ensures Covered(Apply(s, a), k)
  {
    LogGrows(s, a);
    var id := s.log[k].event;
    if a.Forget? && s.pump.id == id {
      assert Durable(s, k);
      QuietKeeps(s, a);
    } else {
      CarryStays(s, a, id);
      assert CarriedCopy(Apply(s, a), k);
    }
  }

  /** The copy in flight is in flight or carried after any action but a crash. */
  lemma InFlightStaysCovered(s: State, a: Action, k: nat)
    requires Inv(s) && Enabled(s, a) && !a.Crash? && Tracked(s.log, k) && InFlight(s, k)
    ensures Covered(Apply(s, a), k)
  {
    var s' := Apply(s, a);
    assert s.log[k] == MessageOf(s.pump.id, s.table.rows[s.pump.id]);
    if a.RememberAndMark? {
      assert s.pump.candidate.Tracked();
      assert CarriedCopy(s', k);
    } else {
      assert s'.pump == s.pump;
    }
  }

  /** A copy that was covered stays covered unless the action exposes it. */
  lemma CoveredStays(s: State, a: Action, k: nat)
    requires Inv(s) && Enabled(s, a) && Tracked(s.log, k) && Covered(s, k) && k !in Exposed(s, a)
    ensures Covered(Apply(s, a), k)
  {
    if Durable(s, k) {
      StepKeeps(s, a);
    } else if InFlight(s, k) {
      InFlightStaysCovered(s, a, k);
    } else {
      CarriedStaysCovered(s, a, k);
    }
  }

  /** A copy stored by an action is covered at once, unless its acknowledgement was lost. */
  lemma StoredIsCovered(s: State, a: Action, k: nat)
    requires Inv(s) && Enabled(s, a) && k >= |s.log| && Tracked(Apply(s, a).log, k) && k !in Exposed(s, a)
    ensures Covered(Apply(s, a), k)
  {
    assert forall id :: id in s.batch ==> s.batch[id].kind.Tombstone?;
    if !(a.Publish? || a.LoseAck? || a.Resend?) { LogStays(s, a); }
  }

  lemma LogStays(s: State, a: Action)
    requires Enabled(s, a) && !(a.Publish? || a.LoseAck? || a.Resend?)
    ensures Apply(s, a).log == s.log
  {
  }

  /** The uncovered copies never grow, except by what a crash or a lost acknowledgement exposes. */
  lemma CoverageStep(s: State, a: Action)
    requires Inv(s) && Enabled(s, a)
    ensures Uncovered(Apply(s, a)) <= Uncovered(s) + Exposed(s, a)
  {
    forall k | k in Uncovered(Apply(s, a)) && k !in Exposed(s, a) ensures k in Uncovered(s) {
      if k < |s.log| {
        assert Apply(s, a).log[k] == s.log[k];
        if Covered(s, k) { CoveredStays(s, a, k); }
      } else {
        StoredIsCovered(s, a, k);
      }
    }
  }

  /** Coverage over whole runs, whatever crashes and losses it contains: an uncovered copy was exposed
      by some crash or lost acknowledgement of the run. */
  lemma {:induction false} CoverageOfRuns(states: seq<State>, actions: seq<Action>, i: nat, k: nat)
    requires IsRun(states, actions) && i < |states| && k in Uncovered(states[i])
    ensures exists j :: 0 <= j < i && (actions[j].Crash? || actions[j].LoseAck?) && k in Exposed(states[j], actions[j])
  {
    if i > 0 {
      RunKeeps(states, actions, i - 1);
      CoverageStep(states[i - 1], actions[i - 1]);
      if k in Uncovered(states[i - 1]) {
        CoverageOfRuns(states, actions, i - 1, k);
      } else {
        assert k in Exposed(states[i - 1], actions[i - 1]);
      }
    }
  }

  /** In every interleaving of pump passes, failed commits, retries inside or outside the duplicate
      window and deletions, every content-bearing copy is in flight, carried, recorded on its live row
      or named by an erasure command for its owner. */
  lemma StreamCopiesCovered(states: seq<State>, actions: seq<Action>, i: nat)
    requires IsRun(states, actions) && i < |states|
    requires forall j :: 0 <= j < |actions| ==> !actions[j].Crash? && !actions[j].LoseAck?
    ensures forall k: nat :: Tracked(states[i].log, k) ==> Covered(states[i], k)
  {
    forall k: nat | Tracked(states[i].log, k) ensures Covered(states[i], k) {
      if !Covered(states[i], k) {
        assert k in Uncovered(states[i]);
        CoverageOfRuns(states, actions, i, k);
      }
    }
  }

  /** A copy a crash or a lost acknowledgement exposed had no committed mark and no command then. */
  lemma ExposedWasUnmarked(s: State, a: Action, k: nat)
    requires Inv(s) && Enabled(s, a) && k in Exposed(s, a) && k in Uncovered(Apply(s, a))
    ensures !Durable(s, k)
  {
    StepKeeps(s, a);
    LogGrows(s, a);
    assert k < |s.log| ==> Tracked(s.log, k);
  }

  /** A retry inside the duplicate window is answered with the newest stored copy, which is covered
      again from that moment and, once the mark commits, recorded on its row. */
  lemma RetryCovers(s: State, k: nat)
    requires Inv(s) && s.pump.Locked? && LatestCopy(s.log, s.pump.id) == Some(k)
    ensures var acked := Apply(s, Publish(true));
            && Covered(acked, k) && k !in Uncovered(acked)
            && Enabled(acked, RememberAndMark(true))
            && var marked := Apply(acked, RememberAndMark(true));
               && Enabled(marked, Commit) && RecordedCopy(Apply(marked, Commit), k)
  {
    var acked := Apply(s, Publish(true));
    StepKeeps(s, Publish(true));
    assert acked.pump.sequence == k && InFlight(acked, k);
    MarkNeverLost(acked, RememberAndMark(true));
    var marked := Apply(acked, RememberAndMark(true));
    StepKeeps(acked, RememberAndMark(true));
    assert k in marked.pump.sequences;
    MarkAdvances(marked);
  }

  /** The copy a publication is answered with. */
  function Answer(s: State, window: bool): nat
    requires s.pump.Locked?
  {
    Deliver(s.log, Message(s.pump.id, s.pump.candidate.kind, s.pump.candidate.owner), window).1
  }

  /** A copy covered after a publication, other than the one it is answered with, was covered before:
      a command that is sent was queued. */
  lemma CoveredBefore(s: State, window: bool, k: nat)
    requires Inv(s) && s.pump.Locked? && k < |s.log| && k != Answer(s, window)
    requires Covered(Apply(s, Publish(window)), k)
    ensures Covered(s, k)
  {
    var s' := Apply(s, Publish(window));
    if Commanded(s', k) && exists j :: 0 <= j < |s'.log| && Names(s'.log[j].kind, s'.log[k].owner.value, k) {
      var j :| 0 <= j < |s'.log| && Names(s'.log[j].kind, s'.log[k].owner.value, k);
      if j < |s.log| {
        assert s.log[j] == s'.log[j];
      } else {
        assert s'.log[j].kind == s.table.rows[s.pump.id].kind;
      }
    }
  }

  /** A retry recovers exactly the copy it is answered with: inside the duplicate window the newest of
      the row's copies, outside it none of the old ones. Every other exposed copy stays uncovered. */
  lemma RetryRecoversExactly(s: State, window: bool)
    requires Inv(s) && s.pump.Locked?
    ensures Uncovered(Apply(s, Publish(window))) == Uncovered(s) - {Answer(s, window)}
    ensures var newest := LatestCopy(s.log, s.pump.id);
            Answer(s, window) == if window && newest.Some? then newest.value else |s.log|
  {
    var s' := Apply(s, Publish(window));
    CoverageStep(s, Publish(window));
    assert InFlight(s', Answer(s, window));
    forall k | k in Uncovered(s) && k != Answer(s, window) ensures k in Uncovered(s') {
      assert s'.log[k] == s.log[k];
      if Covered(s', k) { CoveredBefore(s, window, k); }
    }
  }

  // ---------------------------------------------------------------- precision

  /** No erasure command, queued or published, ever names a copy of a live row, of another owner or of
      a message without content. */
  lemma ErasureIsPrecise(states: seq<State>, actions: seq<Action>, i: nat, e: Erasure, k: nat)
    requires IsRun(states, actions) && i < |states| && k in e.sequences
    requires (exists id :: id in states[i].table.rows && states[i].table.rows[id].kind == Command(e))
             || (exists j :: 0 <= j < |states[i].log| && states[i].log[j].kind == Command(e))
    ensures k < |states[i].log| && states[i].log[k].kind.Fact? && states[i].log[k].owner == Some(e.owner)
    ensures states[i].log[k].event !in states[i].table.rows
  {
    RunKeeps(states, actions, i);
    assert PreciseOk(states[i].table, states[i].log);
    assert Precise(e, states[i].table.rows, states[i].log);
  }

  // ---------------------------------------------------------------- persistence

  /** A row that is still owed: a tombstone nobody acknowledged or a command nobody sent. */
  predicate Owed(s: State, id: nat) {
    id in s.table.rows && !s.table.rows[id].Removable()
  }

  lemma RowStepInPlace(s: State, a: Action, id: nat)
    requires Enabled(s, a) && !a.CommitRemoval? && !a.Reconcile? && id in s.table.rows && id < s.table.next
    ensures id in Apply(s, a).table.rows && Advanced(s.table.rows[id], Apply(s, a).table.rows[id])
  {
  }

  /** A row only ever moves forward or leaves, and it leaves only by a committed deletion that was
      allowed to take it. */
  lemma RowStep(s: State, a: Action, id: nat)
    requires Inv(s) && Enabled(s, a) && id in s.table.rows
    ensures var rows' := Apply(s, a).table.rows;
            if id in rows' then Advanced(s.table.rows[id], rows'[id])
            else a.CommitRemoval? && s.table.rows[id].Removable()
  {
    if a.CommitRemoval? {
      RemovalInserts(s, a.request);
      assert RemovalOk(s.table.rows, s.held[a.request]);
      assert id !in s.held[a.request].doomed ==> id in Remaining(s, a.request).table.rows;
    } else if a.Reconcile? {
      ReconcileInserts(s, a.id);
    } else {
      RowStepInPlace(s, a, id);
    }
  }

  /** No sequence of deletions removes what is owed: once a tombstone is unacknowledged, or a command
      unpublished, it stays until that changes. */
  lemma {:induction false} OwedRowsPersist(states: seq<State>, actions: seq<Action>, i: nat, j: nat, id: nat)
    requires IsRun(states, actions) && i <= j < |states| && Owed(states[i], id)
    requires forall m :: i <= m < j && id in states[m].table.rows ==> Owed(states[m], id)
    ensures id in states[j].table.rows && Advanced(states[i].table.rows[id], states[j].table.rows[id])
  {
    if i < j {
      OwedRowsPersist(states, actions, i, j - 1, id);
      RunKeeps(states, actions, j - 1);
      assert Owed(states[j - 1], id);
      RowStep(states[j - 1], actions[j - 1], id);
    }
  }

  /** The row's id is given out, the row is acknowledged or gone, and the pump has it in no hand. */
  ghost predicate Silent(s: State, id: nat) {
    && id < s.table.next
    && (id in s.table.rows ==> s.table.rows[id].acknowledged)
    && id !in s.batch && !HeldByPump(s, id)
  }

  /** Ids are not given out again. */
  lemma GoneStaysGone(s: State, a: Action, id: nat)
    requires Inv(s) && Enabled(s, a) && id < s.table.next && id !in s.table.rows
    ensures id < Apply(s, a).table.next && id !in Apply(s, a).table.rows
  {
    if a.CommitRemoval? {
      RemovalInserts(s, a.request);
    } else if a.Reconcile? {
      ReconcileInserts(s, a.id);
    }
  }

  lemma NextGrows(s: State, a: Action)
    requires Inv(s) && Enabled(s, a)
    ensures s.table.next <= Apply(s, a).table.next
  {
    if a.CommitRemoval? {
      RemovalInserts(s, a.request);
    } else if a.Reconcile? {
      ReconcileInserts(s, a.id);
    }
  }

  /** A batch takes no acknowledged row, and the pump locks no published one. */
  lemma AcknowledgedIsPublished(s: State, id: nat)
    requires Inv(s) && id in s.table.rows && s.table.rows[id].acknowledged
    ensures s.table.rows[id].published
  {
    assert RowOk(id, s.table.rows[id], s.log);
  }

  lemma PassesBatch(s: State, a: Action, id: nat)
    requires Enabled(s, a) && (id in s.table.rows ==> s.table.rows[id].acknowledged)
    requires id !in s.batch || a.StartPass?
    ensures id !in Apply(s, a).batch
  {
  }

  lemma PassesLock(s: State, a: Action, id: nat)
    requires Enabled(s, a) && (id in s.table.rows ==> s.table.rows[id].published) && !HeldByPump(s, id)
    ensures !HeldByPump(Apply(s, a), id)
  {
  }

  lemma PumpPassesBy(s: State, a: Action, id: nat)
    requires Inv(s) && Enabled(s, a) && (id in s.table.rows ==> s.table.rows[id].acknowledged)
    requires (id !in s.batch || a.StartPass?) && !HeldByPump(s, id)
    ensures id !in Apply(s, a).batch && !HeldByPump(Apply(s, a), id)
  {
    if id in s.table.rows { AcknowledgedIsPublished(s, id); }
    PassesBatch(s, a, id);
    PassesLock(s, a, id);
  }

  lemma SilentStep(s: State, a: Action, id: nat)
    requires Inv(s) && Enabled(s, a) && id < s.table.next && (id in s.table.rows ==> s.table.rows[id].acknowledged)
    requires (id !in s.batch || a.StartPass?) && !HeldByPump(s, id)
    ensures Silent(Apply(s, a), id)
  {
    NextGrows(s, a);
    if id in s.table.rows { RowStep(s, a, id); } else { GoneStaysGone(s, a, id); }
    PumpPassesBy(s, a, id);
  }

  /** The action stores a copy of the row on the stream. */
  predicate Sends(s: State, a: Action, id: nat) {
    || (a.Resend? && a.id == id)
    || ((a.Publish? || a.LoseAck?) && s.pump.Locked? && s.pump.id == id)
  }

  lemma {:induction false} SilentEverAfter(states: seq<State>, actions: seq<Action>, i: nat, j: nat, id: nat)
    requires IsRun(states, actions) && i < j < |states| && actions[i].StartPass?
    requires id < states[i].table.next && (id in states[i].table.rows ==> states[i].table.rows[id].acknowledged)
    ensures Silent(states[j], id)
  {
    RunKeeps(states, actions, j - 1);
    assert Enabled(states[j - 1], actions[j - 1]);
    if i + 1 < j { SilentEverAfter(states, actions, i, j - 1, id); }
    SilentStep(states[j - 1], actions[j - 1], id);
  }

  /** Once a pass starts after the acknowledgement (or after the row has gone), nothing sends the
      tombstone any more: no resend, no first publication, in that pass or in any later one. */
  lemma NoSendAfterAcknowledgement(states: seq<State>, actions: seq<Action>, i: nat, j: nat, id: nat)
    requires IsRun(states, actions) && i <= j < |actions| && actions[i].StartPass?
    requires id < states[i].table.next && (id in states[i].table.rows ==> states[i].table.rows[id].acknowledged)
    ensures !Sends(states[j], actions[j], id)
  {
    assert Enabled(states[j], actions[j]);
    if i < j { SilentEverAfter(states, actions, i, j, id); }
  }
}
