/** Crashes do not change what a deletion comes to, and what it comes to. */
module DeletionConvergence {
  import opened Orders
  import opened BlobModel
  import opened DeletionPhases

  // ---------------------------------------------------------------- any crashes, one outcome

  function UntimedReport(r: Report): Report { r.(at := 0) }

  /** The durable state but for the times of completion. */
  ghost function Untimed(d: Durable): Durable {
    d.(report := if d.report.Some? then Some(UntimedReport(d.report.value)) else None,
       audits := seq(|d.audits|, i requires 0 <= i < |d.audits| => UntimedReport(d.audits[i])))
  }

  /** The clock reaches nothing but the time of completion. */
  lemma {:induction false} OnlyTimesDiffer(d: Durable, pc: Pc, a: nat, b: nat)
    requires Sound(d) && Fits(d, pc)
    ensures Untimed(ToEnd(d, pc, a).0) == Untimed(ToEnd(d, pc, b).0)
    decreases Level(pc), Left(pc)
  {
    if pc.Complete? {
      assert ToEnd(d, pc, a).0 == Finished(d, a) && ToEnd(d, pc, b).0 == Finished(d, b);
      assert Untimed(Finished(d, a)).audits == Untimed(Finished(d, b)).audits;
    } else if !Halted(pc) {
      EffectFits(d, pc, a);
      assert Effect(d, pc, a) == Effect(d, pc, b);
      var (d', pc') := Effect(d, pc, a);
      OnlyTimesDiffer(d', pc', a, b);
    }
  }

  /** An execution at a time, stopped after some number of effects. */
  datatype Attempt = Attempt(at: nat, effects: nat)

  function AfterAttempts(d: Durable, attempts: seq<Attempt>): (r: Durable)
    requires Sound(d)
    ensures Sound(r)
    decreases |attempts|
  {
    if attempts == [] then d else
      CrashedFits(d, Start, attempts[0].at, attempts[0].effects);
      AfterAttempts(Crashed(d, Start, attempts[0].at, attempts[0].effects).0, attempts[1..])
  }

  /** After any attempts, each stopped at any point, one execution carried through leaves the same
      rows, objects, ledger, tombstones, totals and audits as a single one would have. */
  lemma {:induction false} CrashesConverge(d: Durable, attempts: seq<Attempt>, at: nat)
    requires Sound(d)
    ensures Untimed(ToEnd(AfterAttempts(d, attempts), Start, at).0) == Untimed(ToEnd(d, Start, at).0)
    decreases |attempts|
  {
    if attempts != [] {
      var a := attempts[0];
      CrashedFits(d, Start, a.at, a.effects);
      var (d', pc') := Crashed(d, Start, a.at, a.effects);
      CrashesConverge(d', attempts[1..], at);
      OnlyTimesDiffer(d', Start, at, a.at);
      Resumes(d', pc', a.at);
      OnlyTimesDiffer(d, Start, at, a.at);
    }
  }

  /** Once an attempt has returned a report, every later attempt changes nothing and, if it is not
      cut short, returns that report; it is the one audit there is. */
  lemma {:induction false} ReportIsStable(d: Durable, a: Attempt, later: seq<Attempt>, at: nat)
    requires Sound(d) && Crashed(d, Start, a.at, a.effects).1.Returned?
    ensures var (d', pc') := Crashed(d, Start, a.at, a.effects);
            && Sound(d') && AfterAttempts(d', later) == d'
            && ToEnd(d', Start, at) == (d', pc')
            && d'.audits == [pc'.report]
  {
    CrashedFits(d, Start, a.at, a.effects);
    var (d', pc') := Crashed(d, Start, a.at, a.effects);
    CompletedIsFixed(d', later);
  }

  lemma {:induction false} CompletedIsFixed(d: Durable, later: seq<Attempt>)
    requires Sound(d) && d.status == Completed
    ensures AfterAttempts(d, later) == d
    decreases |later|
  {
    if later != [] {
      var a := later[0];
      CrashedFits(d, Start, a.at, a.effects);
      assert Crashed(d, Start, a.at, a.effects).0 == d by {
        if a.effects > 0 {
          EffectFits(d, Start, a.at);
          assert Effect(d, Start, a.at) == (d, Returned(d.report.value));
        }
      }
      CompletedIsFixed(d, later[1..]);
    }
  }

  // ---------------------------------------------------------------- what it comes to

  ghost function OpenDigests(items: seq<Item>): set<nat> {
    set i | 0 <= i < |items| && Open(items[i]) :: items[i].ref.digest
  }

  /** Nothing references the open items, and the store holds no other content under their digests. */
  ghost predicate Erases(d: Durable) {
    forall i :: 0 <= i < |d.items| && Open(d.items[i]) ==>
      !Referenced(d.rows, d.items[i].ref) && Erasable(d.objects, d.items[i].ref)
  }

  lemma {:induction false} TotalsIgnoreState(items: seq<Item>, i: nat, state: ItemState)
    requires i < |items|
    ensures TotalsOf(items[i := items[i].(state := state)]) == TotalsOf(items)
  {
    var items' := items[i := items[i].(state := state)];
    if i == 0 {
      assert items'[1..] == items[1..];
    } else {
      assert items'[1..] == items[1..][i - 1 := items[1..][i - 1].(state := state)];
      TotalsIgnoreState(items[1..], i - 1, state);
    }
  }

  lemma NoneOpen(items: seq<Item>, from: nat)
    requires from <= |items| && Pending(items, from) == []
    ensures forall i :: from <= i < |items| ==> !Open(items[i])
    decreases |items| - from
  {
    if from < |items| { NoneOpen(items, from + 1); }
  }

  /** Erasing and marking the first open item. */
  function FirstPurged(d: Durable): Durable
    requires Pending(d.items, 0) != [] && Pending(d.items, 0)[0] < |d.items|
  {
    var i := Pending(d.items, 0)[0];
    Marked(d.(objects := d.objects - {d.items[i].ref.digest}), i, EraseBlob, Purged)
  }

  lemma FirstPurgedEffects(d: Durable, at: nat)
    requires Sound(d) && d.status == Purging && Erases(d) && Pending(d.items, 0) != []
    ensures Pending(d.items, 0)[0] < |d.items|
    ensures var e, todo := FirstPurged(d), Pending(d.items, 0);
            && Sound(e) && Pending(e.items, 0) == todo[1..] && Fits(e, NextItem(todo[1..]))
            && ToEnd(d, NextItem(todo), at) == ToEnd(e, NextItem(todo[1..]), at)
  {
    var todo := Pending(d.items, 0);
    PendingHead(d.items, 0);
    PendingSettled(d.items, 0, d.items[todo[0]].(action := EraseBlob, state := Purged));
    EffectFits(d, NextItem(todo), at);
    EffectFits(d, EraseObject(todo), at);
    var m := d.(objects := d.objects - {d.items[todo[0]].ref.digest});
    EffectFits(m, MarkPurged(todo), at);
    assert ToEnd(d, NextItem(todo), at) == ToEnd(d, EraseObject(todo), at);
    assert ToEnd(d, EraseObject(todo), at) == ToEnd(m, MarkPurged(todo), at);
    assert ToEnd(m, MarkPurged(todo), at) == ToEnd(FirstPurged(d), NextItem(todo[1..]), at);
  }

  lemma FirstPurgedErases(d: Durable)
    requires Erases(d) && Pending(d.items, 0) != []
    ensures Pending(d.items, 0)[0] < |d.items| && Erases(FirstPurged(d))
    ensures TotalsOf(FirstPurged(d).items) == TotalsOf(d.items)
    ensures FirstPurged(d).objects - OpenDigests(FirstPurged(d).items) == d.objects - OpenDigests(d.items)
  {
    PendingHead(d.items, 0);
    var e, i := FirstPurged(d), Pending(d.items, 0)[0];
    TotalsIgnoreState(d.items, i, Purged);
    assert e.items == d.items[i := d.items[i].(state := Purged)];
    assert OpenDigests(e.items) + {d.items[i].ref.digest} == OpenDigests(d.items) by {
      forall x | x in OpenDigests(d.items) && x != d.items[i].ref.digest ensures x in OpenDigests(e.items) {
        var j :| 0 <= j < |d.items| && Open(d.items[j]) && d.items[j].ref.digest == x;
        assert Open(e.items[j]);
      }
    }
  }

  /** Phase B erases exactly the objects of the open items, whatever their order and repeats. */
  lemma {:induction false} PurgeOutcome(d: Durable, at: nat)
    requires Sound(d) && d.status == Purging && Erases(d)
    ensures ToEnd(d, NextItem(Pending(d.items, 0)), at)
         == (Finished(d.(objects := d.objects - OpenDigests(d.items)), at), Returned(ReportOf(d, at)))
    decreases |Pending(d.items, 0)|
  {
    var todo := Pending(d.items, 0);
    if todo == [] {
      NoneOpen(d.items, 0);
      assert OpenDigests(d.items) == {};
      assert d.objects - {} == d.objects;
      assert d.(objects := d.objects) == d;
      assert ToEnd(d, NextItem(todo), at) == ToEnd(d, Complete, at);
    } else {
      FirstPurgedEffects(d, at);
      FirstPurgedErases(d);
      PurgeOutcome(FirstPurged(d), at);
    }
  }

  /** The objects of the scope that nothing references once the rows are gone. */
  ghost function Unshared(d: Durable): set<nat> {
    set i | 0 <= i < |d.items| && d.items[i].state != Purged
        && !Referenced(d.rows - d.scope, d.items[i].ref) :: d.items[i].ref.digest
  }

  ghost function WithEvidence(d: Durable): map<nat, nat> {
    Stored(d.objects, Bytes(EvidenceOf(d).digest, EvidenceOf(d).length))
  }

  /** A tombstone for an owner the subject was announced under. */
  predicate Retracts(d: Durable, t: Tombstone) {
    (t.subject, t.owner) in d.ledger && t.subject in d.subjects && t.evidence == EvidenceOf(d)
  }

  lemma PlannedReaches(d: Durable, at: nat)
    requires Sound(d) && d.status == Planned
    ensures var e := RowsRemoved(d.(objects := WithEvidence(d)), EvidenceOf(d));
            Sound(e) && ToEnd(d, Start, at) == ToEnd(e, NextItem(Pending(e.items, 0)), at)
  {
    var d1 := d.(objects := WithEvidence(d));
    var ev := EvidenceOf(d);
    EffectFits(d, Start, at);
    EffectFits(d, StoreEvidence, at);
    EffectFits(d1, RemoveRows(ev), at);
    var e := RowsRemoved(d1, ev);
    assert ToEnd(d, Start, at) == ToEnd(d, StoreEvidence, at);
    assert ToEnd(d, StoreEvidence, at) == ToEnd(d1, RemoveRows(ev), at);
    assert ToEnd(d1, RemoveRows(ev), at) == ToEnd(e, LoadItems, at);
    assert ToEnd(e, LoadItems, at) == ToEnd(e, NextItem(Pending(e.items, 0)), at);
  }

  /** A fault-free execution: the scope's rows are gone and no others, each announced subject of the
      scope has its tombstones and no ledger row, the objects that lost their last reference are
      gone and no others, and the report counts what was decided once the rows were gone. */
  lemma Outcome(d: Durable, at: nat)
    requires Sound(d) && d.status == Planned && (forall i :: 0 <= i < |d.items| ==> d.items[i].state == Listed)
    requires forall i :: 0 <= i < |d.items| ==> Erasable(WithEvidence(d), d.items[i].ref)
    ensures var (e, pc) := ToEnd(d, Start, at);
            && e.status == Completed && e.report.Some? && pc == Returned(e.report.value) && e.audits == [e.report.value]
            && e.rows == d.rows - d.scope
            && e.objects == WithEvidence(d) - Unshared(d)
            && (forall t :: t in e.tombstones <==> t in d.tombstones || Retracts(d, t))
            && (forall p :: p in e.ledger <==> p in d.ledger && p.0 !in d.subjects)
            && e.report.value == Report(TotalsOf(DecidedAll(e.rows, d.items)), EvidenceOf(d), at)
  {
    PlannedReaches(d, at);
    var e := RowsRemoved(d.(objects := WithEvidence(d)), EvidenceOf(d));
    assert forall i :: 0 <= i < |e.items| ==> e.items[i] == Decided(e.rows, d.items[i]);
    assert OpenDigests(e.items) == Unshared(d);
    PurgeOutcome(e, at);
  }
}
