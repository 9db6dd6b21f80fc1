/** One deletion request, executed any number of times with a crash after any effect.

    Rows go first, bytes second, completion last. The database keeps what has been committed and the
    store keeps what has been done to it; everything else of an execution is lost in a crash. */
module DeletionPhases {
  import opened Orders
  import opened BlobModel

  datatype Status = Planned | Purging | Completed

  datatype Decision = EraseBlob | RetainShared

  datatype ItemState = Listed | Retained | Purged

  datatype Item = Item(ref: Ref, action: Decision, state: ItemState)

  datatype Tombstone = Tombstone(subject: nat, owner: nat, evidence: Ref)

  /** How many blobs are erased and how many retained. */
  datatype Totals = Totals(erased: nat, retained: nat)

  datatype Report = Report(totals: Totals, evidence: Ref, at: nat)

  datatype Durable = Durable(
    seal: Totals -> Ref,           // the evidence blob of this request, for given totals
    scope: set<nat>,               // rows the plan removes
    subjects: set<nat>,            // records the plan retracts downstream
    status: Status,
    rows: map<nat, Ref>,           // rows that reference blobs, of every tenant
    ledger: set<(nat, nat)>,       // announced subject and the owner it was announced under
    tombstones: set<Tombstone>,
    items: seq<Item>,              // the plan's blob items, by ordinal
    objects: map<nat, nat>,
    evidence: Option<Ref>,
    report: Option<Report>,
    audits: seq<Report>
  )

  // ---------------------------------------------------------------- the effects

  function TotalsOf(items: seq<Item>): Totals {
    if items == [] then Totals(0, 0) else
      var t := TotalsOf(items[1..]);
      if items[0].action == EraseBlob then t.(erased := t.erased + 1) else t.(retained := t.retained + 1)
  }

  /** The evidence bytes are a function of the request and its planned totals alone. */
  function EvidenceOf(d: Durable): Ref {
    d.seal(TotalsOf(d.items))
  }

  function Decided(rows: map<nat, Ref>, item: Item): Item {
    if item.state == Purged then item
    else if Referenced(rows, item.ref) then item.(action := RetainShared, state := Retained)
    else item.(action := EraseBlob, state := Listed)
  }

  function DecidedAll(rows: map<nat, Ref>, items: seq<Item>): seq<Item> {
    seq(|items|, i requires 0 <= i < |items| => Decided(rows, items[i]))
  }

  /** Phase A in one transaction: the rows go, one tombstone per announced subject and owner comes,
      the ledger forgets them, and every blob item is decided again. */
  function RowsRemoved(d: Durable, evidence: Ref): Durable {
    var rows := d.rows - d.scope;
    d.(rows := rows,
       tombstones := d.tombstones + (set p | p in d.ledger && p.0 in d.subjects :: Tombstone(p.0, p.1, evidence)),
       ledger := (set p | p in d.ledger && p.0 !in d.subjects),
       items := DecidedAll(rows, d.items),
       status := Purging,
       evidence := Some(evidence))
  }

  function Marked(d: Durable, i: nat, action: Decision, state: ItemState): Durable
    requires i < |d.items|
  {
    d.(items := d.items[i := d.items[i].(action := action, state := state)])
  }

  predicate Open(item: Item) {
    item.action == EraseBlob && item.state != Purged
  }

  /** The items phase B works through, in ordinal order. */
  function Pending(items: seq<Item>, from: nat): seq<nat>
    requires from <= |items|
    decreases |items| - from
  {
    if from == |items| then []
    else if Open(items[from]) then [from] + Pending(items, from + 1)
    else Pending(items, from + 1)
  }

  function ReportOf(d: Durable, at: nat): Report
    requires d.evidence.Some?
  {
    Report(TotalsOf(d.items), d.evidence.value, at)
  }

  /** Phase C in one transaction. */
  function Finished(d: Durable, at: nat): Durable
    requires d.evidence.Some?
  {
    d.(status := Completed, report := Some(ReportOf(d, at)), audits := d.audits + [ReportOf(d, at)], items := [])
  }

  // ---------------------------------------------------------------- one execution

  /** Where an execution is; this is lost in a crash. */
  datatype Pc =
    | Start
    | StoreEvidence
    | RemoveRows(evidence: Ref)
    | LoadItems
    | NextItem(todo: seq<nat>)
    | EraseObject(todo: seq<nat>)
    | MarkPurged(todo: seq<nat>)
    | Complete
    | Returned(report: Report)
    | Failed

  /** The locals of an execution fit what is durable. */
  predicate Fits(d: Durable, pc: Pc) {
    match pc
    case StoreEvidence => d.status == Planned
    case RemoveRows(evidence) => d.status == Planned && evidence == EvidenceOf(d) && evidence.digest in d.objects
    case LoadItems => d.status == Purging
    case NextItem(todo) => d.status == Purging && todo == Pending(d.items, 0)
    case EraseObject(todo) =>
      d.status == Purging && todo != [] && todo == Pending(d.items, 0) && todo[0] < |d.items|
          && !Referenced(d.rows, d.items[todo[0]].ref)
    case MarkPurged(todo) =>
      && d.status == Purging && todo != [] && todo == Pending(d.items, 0) && todo[0] < |d.items|
      && !Referenced(d.rows, d.items[todo[0]].ref) && d.items[todo[0]].ref.digest !in d.objects
    case Complete => d.status == Purging && Pending(d.items, 0) == []
    case Returned(report) => d.status == Completed && d.report == Some(report)
    case Failed =>
      var todo := Pending(d.items, 0);
      && d.status == Purging && todo != [] && todo[0] < |d.items|
      && !Referenced(d.rows, d.items[todo[0]].ref) && !Erasable(d.objects, d.items[todo[0]].ref)
    case Start => true
  }

  /** The request row agrees with its status; a completed request has its one audit. */
  predicate Sound(d: Durable) {
    match d.status
    case Planned => d.audits == []
    case Purging => d.audits == [] && d.evidence.Some?
    case Completed => d.report.Some? && d.audits == [d.report.value]
  }

  predicate Halted(pc: Pc) { pc.Returned? || pc.Failed? }

  /** One effect, with the position after it. */
  function Effect(d: Durable, pc: Pc, at: nat): (Durable, Pc)
    requires Sound(d) && Fits(d, pc)
  {
    match pc
    case Start =>
      (d, match d.status
          case Planned => StoreEvidence
          case Purging => LoadItems
          case Completed => Returned(d.report.value))
    case StoreEvidence =>
      var evidence := EvidenceOf(d);
      (d.(objects := Stored(d.objects, Bytes(evidence.digest, evidence.length))), RemoveRows(evidence))
    case RemoveRows(evidence) => (RowsRemoved(d, evidence), LoadItems)
    case LoadItems => (d, NextItem(Pending(d.items, 0)))
    case NextItem(todo) =>
      if todo == [] then (d, Complete)
      else
        PendingHead(d.items, 0);
        if Referenced(d.rows, d.items[todo[0]].ref)
        then (Marked(d, todo[0], RetainShared, Retained), NextItem(todo[1..]))
        else (d, EraseObject(todo))
    case EraseObject(todo) =>
      var ref := d.items[todo[0]].ref;
      if Erasable(d.objects, ref) then (d.(objects := d.objects - {ref.digest}), MarkPurged(todo)) else (d, Failed)
    case MarkPurged(todo) => (Marked(d, todo[0], EraseBlob, Purged), NextItem(todo[1..]))
    case Complete => (Finished(d, at), Returned(ReportOf(d, at)))
    case _ => (d, pc)
  }

  lemma {:induction false} PendingHead(items: seq<Item>, from: nat)
    requires from <= |items| && Pending(items, from) != []
    ensures from <= Pending(items, from)[0] < |items| && Open(items[Pending(items, from)[0]])
    decreases |items| - from
  {
    if !Open(items[from]) { PendingHead(items, from + 1); }
  }

  /** Settling the first pending item leaves the others pending. */
  lemma {:induction false} PendingSettled(items: seq<Item>, from: nat, it: Item)
    requires from <= |items| && Pending(items, from) != [] && !Open(it) && Pending(items, from)[0] < |items|
    ensures Pending(items[Pending(items, from)[0] := it], from) == Pending(items, from)[1..]
    decreases |items| - from
  {
    if Open(items[from]) {
      PendingBeyond(items, items[from := it], from + 1);
    } else {
      PendingHead(items, from + 1);
      PendingSettled(items, from + 1, it);
    }
  }

  lemma {:induction false} PendingBeyond(a: seq<Item>, b: seq<Item>, from: nat)
    requires |a| == |b| && from <= |a| && forall i :: from <= i < |a| ==> a[i] == b[i]
    ensures Pending(a, from) == Pending(b, from)
    decreases |a| - from
  {
    if from < |a| { PendingBeyond(a, b, from + 1); }
  }

  lemma EffectFits(d: Durable, pc: Pc, at: nat)
    requires Sound(d) && Fits(d, pc)
    ensures Sound(Effect(d, pc, at).0) && Fits(Effect(d, pc, at).0, Effect(d, pc, at).1)
  {
    match pc
    case NextItem(todo) =>
      if todo != [] {
        PendingHead(d.items, 0);
        PendingSettled(d.items, 0, d.items[todo[0]].(action := RetainShared, state := Retained));
      }
    case MarkPurged(todo) =>
      PendingSettled(d.items, 0, d.items[todo[0]].(action := EraseBlob, state := Purged));
    case _ =>
  }

  // ---------------------------------------------------------------- to the end

  function Level(pc: Pc): nat {
    match pc
    case Start => 6
    case StoreEvidence => 5
    case RemoveRows(_) => 4
    case LoadItems => 3
    case NextItem(_) => 2
    case EraseObject(_) => 2
    case MarkPurged(_) => 2
    case Complete => 1
    case _ => 0
  }

  function Left(pc: Pc): nat {
    match pc
    case NextItem(todo) => 3 * |todo| + 2
    case EraseObject(todo) => 3 * |todo| + 1
    case MarkPurged(todo) => 3 * |todo|
    case _ => 0
  }

  /** An execution carried to its end. */
  function ToEnd(d: Durable, pc: Pc, at: nat): (Durable, Pc)
    requires Sound(d) && Fits(d, pc)
    decreases Level(pc), Left(pc)
  {
    if Halted(pc) then (d, pc) else
      EffectFits(d, pc, at);
      var (d', pc') := Effect(d, pc, at);
      ToEnd(d', pc', at)
  }

  /** What is durable when an execution stops after `k` effects. */
  function Crashed(d: Durable, pc: Pc, at: nat, k: nat): (Durable, Pc)
    requires Sound(d) && Fits(d, pc)
    decreases k
  {
    if k == 0 || Halted(pc) then (d, pc) else
      EffectFits(d, pc, at);
      var (d', pc') := Effect(d, pc, at);
      Crashed(d', pc', at, k - 1)
  }

  lemma CrashedStep(d: Durable, pc: Pc, at: nat, k: nat)
    requires Sound(d) && Fits(d, pc) && k > 0 && !Halted(pc)
    ensures var (d', pc') := Effect(d, pc, at);
            Sound(d') && Fits(d', pc') && Crashed(d, pc, at, k) == Crashed(d', pc', at, k - 1)
  {
    EffectFits(d, pc, at);
  }

  lemma {:induction false} CrashedFits(d: Durable, pc: Pc, at: nat, k: nat)
    requires Sound(d) && Fits(d, pc)
    ensures Sound(Crashed(d, pc, at, k).0) && Fits(Crashed(d, pc, at, k).0, Crashed(d, pc, at, k).1)
    ensures var (d', pc') := Crashed(d, pc, at, k); ToEnd(d', pc', at) == ToEnd(d, pc, at)
    decreases k
  {
    if k > 0 && !Halted(pc) {
      EffectFits(d, pc, at);
      var (d', pc') := Effect(d, pc, at);
      CrashedFits(d', pc', at, k - 1);
    }
  }

  /** A request that is purging goes straight back to its first open item. */
  lemma Purges(d: Durable, at: nat)
    requires Sound(d) && d.status == Purging
    ensures ToEnd(d, Start, at) == ToEnd(d, NextItem(Pending(d.items, 0)), at)
  {
    assert ToEnd(d, Start, at) == ToEnd(d, LoadItems, at);
    assert ToEnd(d, LoadItems, at) == ToEnd(d, NextItem(Pending(d.items, 0)), at);
  }

  lemma PurgesObject(d: Durable, at: nat)
    requires Sound(d) && Fits(d, EraseObject(Pending(d.items, 0)))
    ensures ToEnd(d, Start, at) == ToEnd(d, EraseObject(Pending(d.items, 0)), at)
  {
    Purges(d, at);
    EffectFits(d, NextItem(Pending(d.items, 0)), at);
  }

  /** Starting again from what is durable comes to the same end as going on from where the crash
      was: what is redone finds its effect already there. */
  lemma Resumes(d: Durable, pc: Pc, at: nat)
    requires Sound(d) && Fits(d, pc)
    ensures ToEnd(d, Start, at) == ToEnd(d, pc, at)
  {
    match pc
    case Start =>
    case StoreEvidence =>
    case RemoveRows(evidence) =>
      assert Stored(d.objects, Bytes(evidence.digest, evidence.length)) == d.objects;
      assert d.(objects := d.objects) == d;
      assert ToEnd(d, Start, at) == ToEnd(d, StoreEvidence, at);
    case LoadItems =>
    case NextItem(todo) => Purges(d, at);
    case EraseObject(todo) => PurgesObject(d, at);
    case MarkPurged(todo) =>
      PurgesObject(d, at);
      assert d.objects - {d.items[todo[0]].ref.digest} == d.objects;
      assert d.(objects := d.objects) == d;
    case Complete => Purges(d, at);
    case Returned(report) =>
    case Failed => PurgesObject(d, at);
  }
}
