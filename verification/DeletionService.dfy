/** The deletion service: a durable status drives the phases, and a fault may stop an execution after
    any effect. */
module DeletionService {
  import opened Orders
  import opened BlobModel
  import opened DeletionPhases

  class PrivacyDeletion {
    const seal: Totals -> Ref
    const scope: set<nat>
    const subjects: set<nat>
    var status: Status
    var rows: map<nat, Ref>
    var ledger: set<(nat, nat)>
    var tombstones: set<Tombstone>
    var items: seq<Item>
    var objects: map<nat, nat>
    var evidence: Option<Ref>
    var report: Option<Report>
    var audits: seq<Report>

    constructor (seal: Totals -> Ref, scope: set<nat>, subjects: set<nat>, items: seq<Item>,
                 rows: map<nat, Ref>, ledger: set<(nat, nat)>, tombstones: set<Tombstone>, objects: map<nat, nat>)
      ensures View()
              == Durable(seal, scope, subjects, Planned, rows, ledger, tombstones, items, objects, None, None, [])
    {
      this.seal, this.scope, this.subjects, this.items := seal, scope, subjects, items;
      this.rows, this.ledger, this.tombstones, this.objects := rows, ledger, tombstones, objects;
      status, evidence, report, audits := Planned, None, None, [];
    }

    ghost function View(): Durable
      reads this
    {
      Durable(seal, scope, subjects, status, rows, ledger, tombstones, items, objects, evidence, report, audits)
    }

    method Totalled() returns (t: Totals)
      ensures t == TotalsOf(items)
    {
      t := Totals(0, 0);
      var i := |items|;
      while i > 0
        invariant 0 <= i <= |items| && t == TotalsOf(items[i..])
      {
        i := i - 1;
        t := if items[i].action == EraseBlob then t.(erased := t.erased + 1) else t.(retained := t.retained + 1);
        assert items[i..][1..] == items[i + 1..];
      }
      assert items[0..] == items;
    }

    method StoreObject(ref: Ref)
      modifies this`objects
      ensures objects == Stored(old(objects), Bytes(ref.digest, ref.length))
    {
      if ref.digest !in objects { objects := objects[ref.digest := ref.length]; }
    }

    /** Re-decides every item against the rows that remain. */
    method RecomputeSharing()
      modifies this`items
      ensures items == DecidedAll(rows, old(items))
    {
      var decided := [];
      for i := 0 to |items|
        invariant items == old(items)
        invariant |decided| == i && forall j :: 0 <= j < i ==> decided[j] == Decided(rows, items[j])
      {
        var it := items[i];
        if it.state != Purged {
          it := if Referenced(rows, it.ref) then it.(action := RetainShared, state := Retained)
                else it.(action := EraseBlob, state := Listed);
        }
        decided := decided + [it];
      }
      items := decided;
    }

    /** Phase A. The ledger is read before the rows go. */
    method RemovePlannedRows(ev: Ref)
      modifies this
      ensures View() == RowsRemoved(old(View()), ev)
    {
      var announced := set p | p in ledger && p.0 in subjects :: Tombstone(p.0, p.1, ev);
      rows := rows - scope;
      tombstones := tombstones + announced;
      ledger := set p | p in ledger && p.0 !in subjects;
      RecomputeSharing();
      status, evidence := Purging, Some(ev);
    }

    method OpenItems() returns (todo: seq<nat>)
      ensures todo == Pending(items, 0)
    {
      todo := [];
      var i := |items|;
      while i > 0
        invariant 0 <= i <= |items| && todo == Pending(items, i)
      {
        i := i - 1;
        if Open(items[i]) { todo := [i] + todo; }
      }
    }

    method SetItem(i: nat, action: Decision, state: ItemState)
      requires i < |items|
      modifies this`items
      ensures View() == Marked(old(View()), i, action, state)
    {
      items := items[i := items[i].(action := action, state := state)];
    }

    /** Phase B for one item: settles it, or stops at the fault or at an object that is not the
        referenced one. */
    method SettleItem(at: nat, todo: seq<nat>, left: nat) returns (settled: bool, k: nat)
      requires Sound(View()) && todo != [] && Fits(View(), NextItem(todo))
      modifies this`items, this`objects
      ensures !settled ==> View() == Crashed(old(View()), NextItem(todo), at, left).0
      ensures !settled ==> !Crashed(old(View()), NextItem(todo), at, left).1.Returned?
      ensures settled ==> k < left && Sound(View()) && Fits(View(), NextItem(todo[1..]))
                          && Crashed(old(View()), NextItem(todo), at, left)
                             == Crashed(View(), NextItem(todo[1..]), at, k)
    {
      k := left;
      if k == 0 { return false, k; }
      ghost var d0 := View();
      PendingHead(items, 0);
      CrashedStep(d0, NextItem(todo), at, k);
      k := k - 1;
      var ref := items[todo[0]].ref;
      if Referenced(rows, ref) {
        SetItem(todo[0], RetainShared, Retained);
        return true, k;
      }
      assert Crashed(d0, NextItem(todo), at, left) == Crashed(d0, EraseObject(todo), at, k);
      if k == 0 { return false, k; }
      CrashedStep(d0, EraseObject(todo), at, k);
      k := k - 1;
      if ref.digest in objects && objects[ref.digest] != ref.length {
        assert Effect(d0, EraseObject(todo), at) == (d0, Failed);
        return false, k;
      }
      objects := objects - {ref.digest};
      assert Effect(d0, EraseObject(todo), at) == (View(), MarkPurged(todo));
      if k == 0 { return false, k; }
      CrashedStep(View(), MarkPurged(todo), at, k);
      k := k - 1;
      SetItem(todo[0], EraseBlob, Purged);
      settled := true;
    }

    /** Phase C: the audit, the report and the end of the items, together. */
    method CompleteRequest(at: nat) returns (r: Report)
      requires Sound(View()) && Fits(View(), Complete)
      modifies this
      ensures (View(), Returned(r)) == Effect(old(View()), Complete, at)
    {
      var totals := Totalled();
      r := Report(totals, evidence.value, at);
      audits, status, report, items := audits + [r], Completed, Some(r), [];
    }

    method FinishPurge(at: nat, left: nat) returns (answer: Option<Report>)
      requires Sound(View()) && status == Purging
      modifies this
      ensures var (d, pc) := Crashed(old(View()), LoadItems, at, left);
              View() == d && (answer == if pc.Returned? then Some(pc.report) else None)
    {
      ghost var d0 := View();
      if left == 0 { return None; }
      CrashedStep(d0, LoadItems, at, left);
      var k: nat := left - 1;
      var todo := OpenItems();
      while todo != []
        invariant Sound(View()) && Fits(View(), NextItem(todo))
        invariant Crashed(d0, LoadItems, at, left) == Crashed(View(), NextItem(todo), at, k)
        decreases |todo|
      {
        var settled;
        settled, k := SettleItem(at, todo, k);
        if !settled { return None; }
        todo := todo[1..];
      }
      if k == 0 { return None; }
      CrashedStep(View(), NextItem(todo), at, k);
      if k == 1 { return None; }
      CrashedStep(View(), Complete, at, k - 1);
      var r := CompleteRequest(at);
      answer := Some(r);
    }

    /** One execution at time `at` that a fault stops after `left` effects, unless it ends before. */
    method ExecuteWithFault(at: nat, left: nat) returns (answer: Option<Report>)
      requires Sound(View())
      modifies this
      ensures var (d, pc) := Crashed(old(View()), Start, at, left);
              View() == d && (answer == if pc.Returned? then Some(pc.report) else None)
    {
      if left == 0 { return None; }
      CrashedStep(View(), Start, at, left);
      if status == Completed { return report; }
      if status == Purging {
        answer := FinishPurge(at, left - 1);
        return;
      }
      if left == 1 { return None; }
      CrashedStep(View(), StoreEvidence, at, left - 1);
      var totals := Totalled();
      var ev := seal(totals);
      StoreObject(ev);
      if left == 2 { return None; }
      CrashedStep(View(), RemoveRows(ev), at, left - 2);
      RemovePlannedRows(ev);
      answer := FinishPurge(at, left - 3);
    }
  }
}
