/** What reconciliation says of every record over every list of snapshots. */
module ReconciliationLaws {
  import opened Orders
  import opened Chronicle
  import opened Reconciliation

  // ---------------------------------------------------------------- one kind, over snapshots

  /** The records of one kind in one snapshot, with the orphans among their children. */
  datatype Page = Page(archive: nat, records: seq<Record>, orphans: set<(nat, nat)>)

  function Turned(pages: seq<Page>, gaps: bool): Family
    decreases |pages|
  {
    if pages == [] then NOBODY else
      var p := pages[|pages| - 1];
      Advanced(Turned(pages[..|pages| - 1], gaps), p.archive, p.records, p.orphans, gaps)
  }

  function RecordBatches(pages: seq<Page>): seq<Batch> {
    seq(|pages|, i requires 0 <= i < |pages| => Batch(pages[i].archive, Entries(pages[i].records)))
  }

  lemma {:induction false} ObservedOwn(f: Family, archive: nat, rs: seq<Record>, orphans: set<(nat, nat)>, gaps: bool)
    ensures ObservedAll(f, archive, rs, orphans, gaps).own == Entered(f.own, archive, Entries(rs))
    decreases |rs|
  {
    if rs != [] {
      ObservedOwn(f, archive, rs[..|rs| - 1], orphans, gaps);
      assert Entries(rs)[..|rs| - 1] == Entries(rs[..|rs| - 1]);
    }
  }

  lemma AdvancedOwn(f: Family, p: Page, gaps: bool)
    ensures Advanced(f, p.archive, p.records, p.orphans, gaps).own
            == Taken(f.own, Batch(p.archive, Entries(p.records)), true)
  {
    ObservedOwn(f, p.archive, p.records, p.orphans, gaps);
  }

  lemma BatchesLast(pages: seq<Page>)
    requires pages != []
    ensures var p := pages[|pages| - 1];
            RecordBatches(pages)[..|pages| - 1] == RecordBatches(pages[..|pages| - 1])
                && RecordBatches(pages)[|pages| - 1] == Batch(p.archive, Entries(p.records))
  {
  }

  /** The record histories of a kind are the chronicle of its snapshots, gaps kept. */
  lemma {:induction false} RecordsAreChronicled(pages: seq<Page>, gaps: bool)
    ensures Turned(pages, gaps).own == TakenAll(RecordBatches(pages), true)
    decreases |pages|
  {
    if pages != [] {
      var front, p := pages[..|pages| - 1], pages[|pages| - 1];
      BatchesLast(pages);
      RecordsAreChronicled(front, gaps);
      AdvancedOwn(Turned(front, gaps), p, gaps);
    }
  }

  // ---------------------------------------------------------------- children

  /** What one snapshot brings to the children of a record: a batch for each time it occurs. */
  function Occurrences(archive: nat, rs: seq<Record>, orphans: set<(nat, nat)>, id: nat): seq<Batch>
    decreases |rs|
  {
    if rs == [] then [] else
      var before, r := Occurrences(archive, rs[..|rs| - 1], orphans, id), rs[|rs| - 1];
      if r.id == id then before + [Batch(archive, ChildEntries(r, orphans))] else before
  }

  /** The batches of a record's children: one for each occurrence, and an empty one for each snapshot
      that leaves out a record seen before. */
  ghost function ChildBatches(pages: seq<Page>, n: nat, id: nat): seq<Batch>
    requires n <= |pages|
  {
    if n == 0 then [] else
      var p := pages[n - 1];
      ChildBatches(pages, n - 1, id)
      + (if Names(Entries(p.records), id) then Occurrences(p.archive, p.records, p.orphans, id)
         else if SeenBefore(RecordBatches(pages), n - 1, id) then [Batch(p.archive, [])]
         else [])
  }

  lemma {:induction false} TakenMore(bs: seq<Batch>, cs: seq<Batch>, c: Batch, gaps: bool)
    ensures TakenAll(bs + (cs + [c]), gaps) == Taken(TakenAll(bs + cs, gaps), c, gaps)
  {
    var all := bs + (cs + [c]);
    assert all[..|all| - 1] == bs + cs;
  }

  lemma {:induction false} ObservedChildren(f: Family, archive: nat, rs: seq<Record>,
      orphans: set<(nat, nat)>, gaps: bool, id: nat, bs: seq<Batch>)
    requires ChildrenOf(f, id) == TakenAll(bs, gaps)
    ensures ChildrenOf(ObservedAll(f, archive, rs, orphans, gaps), id)
            == TakenAll(bs + Occurrences(archive, rs, orphans, id), gaps)
    ensures id in ObservedAll(f, archive, rs, orphans, gaps).children <==> id in f.children || Names(Entries(rs), id)
    decreases |rs|
  {
    if rs == [] {
      assert bs + [] == bs;
    } else {
      var front, r := rs[..|rs| - 1], rs[|rs| - 1];
      ObservedChildren(f, archive, front, orphans, gaps, id, bs);
      TakenMore(bs, Occurrences(archive, front, orphans, id), Batch(archive, ChildEntries(r, orphans)), gaps);
      NamesLast(rs, id);
    }
  }

  lemma NamesLast(rs: seq<Record>, id: nat)
    requires rs != []
    ensures Names(Entries(rs), id) <==> Names(Entries(rs[..|rs| - 1]), id) || rs[|rs| - 1].id == id
  {
    var es, front := Entries(rs), Entries(rs[..|rs| - 1]);
    assert es[|rs| - 1].id == rs[|rs| - 1].id;
    forall i | 0 <= i < |front| ensures es[i] == front[i] {}
  }

  lemma {:induction false} NoOccurrences(archive: nat, rs: seq<Record>, orphans: set<(nat, nat)>, id: nat)
    requires !Names(Entries(rs), id)
    ensures Occurrences(archive, rs, orphans, id) == []
    decreases |rs|
  {
    if rs != [] {
      NamesLast(rs, id);
      NoOccurrences(archive, rs[..|rs| - 1], orphans, id);
    }
  }

  lemma LapsedChildren(f: Family, archive: nat, rs: seq<Record>, gaps: bool, id: nat)
    ensures id in Lapsed(f, archive, rs, gaps).children <==> id in f.children
    ensures ChildrenOf(Lapsed(f, archive, rs, gaps), id)
         == if id in f.children && !Names(Entries(rs), id)
             then Taken(f.children[id], Batch(archive, []), gaps) else ChildrenOf(f, id)
  {
  }

  lemma SeenNextPage(pages: seq<Page>, n: nat, id: nat)
    requires n < |pages|
    ensures SeenBefore(RecordBatches(pages), n + 1, id)
            <==> SeenBefore(RecordBatches(pages), n, id) || Names(Entries(pages[n].records), id)
  {
    assert RecordBatches(pages)[n].entries == Entries(pages[n].records);
    SeenNext(RecordBatches(pages), n, id);
  }

  /** What one page adds to the batches of a record's children. */
  ghost function PageBatches(p: Page, id: nat, seen: bool): seq<Batch> {
    if Names(Entries(p.records), id) then Occurrences(p.archive, p.records, p.orphans, id)
    else if seen then [Batch(p.archive, [])]
    else []
  }

  lemma PageChildren(f: Family, p: Page, gaps: bool, id: nat, bs: seq<Batch>)
    requires ChildrenOf(f, id) == TakenAll(bs, gaps)
    ensures var g := Advanced(f, p.archive, p.records, p.orphans, gaps);
            && ChildrenOf(g, id) == TakenAll(bs + PageBatches(p, id, id in f.children), gaps)
            && (id in g.children <==> id in f.children || Names(Entries(p.records), id))
  {
    ObservedChildren(f, p.archive, p.records, p.orphans, gaps, id, bs);
    LapsedChildren(ObservedAll(f, p.archive, p.records, p.orphans, gaps), p.archive, p.records, gaps, id);
    if !Names(Entries(p.records), id) {
      NoOccurrences(p.archive, p.records, p.orphans, id);
      assert bs + [] == bs;
      TakenMore(bs, [], Batch(p.archive, []), gaps);
      assert [] + [Batch(p.archive, [])] == [Batch(p.archive, [])];
    }
  }

  lemma TurnedPage(pages: seq<Page>, n: nat, gaps: bool)
    requires n < |pages|
    ensures var p := pages[n];
            Turned(pages[..n + 1], gaps) == Advanced(Turned(pages[..n], gaps), p.archive, p.records, p.orphans, gaps)
  {
    assert pages[..n + 1][..n] == pages[..n];
  }

  lemma ChildBatchesNext(pages: seq<Page>, n: nat, id: nat)
    requires n < |pages|
    ensures ChildBatches(pages, n + 1, id)
         == ChildBatches(pages, n, id) + PageBatches(pages[n], id, SeenBefore(RecordBatches(pages), n, id))
  {
  }

  /** The histories of a record's children are the chronicle of its occurrences: with gaps for
      instructions, without for messages. */
  lemma {:induction false} ChildrenAreChronicled(pages: seq<Page>, n: nat, gaps: bool, id: nat)
    requires n <= |pages|
    ensures ChildrenOf(Turned(pages[..n], gaps), id) == TakenAll(ChildBatches(pages, n, id), gaps)
    ensures id in Turned(pages[..n], gaps).children <==> SeenBefore(RecordBatches(pages), n, id)
  {
    if n > 0 {
      ChildrenAreChronicled(pages, n - 1, gaps, id);
      ChildBatchesNext(pages, n - 1, id);
      SeenNextPage(pages, n - 1, id);
      TurnedPage(pages, n - 1, gaps);
      PageChildren(Turned(pages[..n - 1], gaps), pages[n - 1], gaps, id, ChildBatches(pages, n - 1, id));
    }
  }

  // ---------------------------------------------------------------- the kinds of a result

  datatype Kind = Conversations | Projects | Canvases | Assets

  function FamilyOf(r: Result, kind: Kind): Family {
    match kind
    case Conversations => r.conversations
    case Projects => r.projects
    case Canvases => r.canvases
    case Assets => r.assets
  }

  function RecordsOf(s: Snapshot, kind: Kind): seq<Record> {
    match kind
    case Conversations => s.conversations
    case Projects => s.projects
    case Canvases => s.canvases
    case Assets => s.assets
  }

  function PageOf(s: Snapshot, kind: Kind): Page {
    Page(s.archive, RecordsOf(s, kind), if kind == Conversations then Orphans(s.conversations) else {})
  }

  /** Messages keep no gaps; instructions do. */
  predicate KeepsGaps(kind: Kind) { kind != Conversations }

  function PagesOf(ss: seq<Snapshot>, kind: Kind): seq<Page> {
    seq(|ss|, i requires 0 <= i < |ss| => PageOf(ss[i], kind))
  }

  lemma TurnedNext(pages: seq<Page>, p: Page, gaps: bool)
    ensures Turned(pages + [p], gaps) == Advanced(Turned(pages, gaps), p.archive, p.records, p.orphans, gaps)
  {
    assert (pages + [p])[..|pages|] == pages;
  }

  lemma PagesLast(ss: seq<Snapshot>, kind: Kind)
    requires ss != []
    ensures PagesOf(ss, kind) == PagesOf(ss[..|ss| - 1], kind) + [PageOf(ss[|ss| - 1], kind)]
  {
  }

  lemma FamilyAdvances(r: Result, s: Snapshot, kind: Kind)
    ensures var p := PageOf(s, kind);
            FamilyOf(AdvancedBy(r, s), kind)
                == Advanced(FamilyOf(r, kind), p.archive, p.records, p.orphans, KeepsGaps(kind))
  {
  }

  lemma {:induction false} KindIsTurned(ss: seq<Snapshot>, kind: Kind)
    ensures FamilyOf(Reconciled(ss), kind) == Turned(PagesOf(ss, kind), KeepsGaps(kind))
    decreases |ss|
  {
    if ss == [] {
      assert PagesOf(ss, kind) == [];
    } else {
      PagesLast(ss, kind);
      KindIsTurned(ss[..|ss| - 1], kind);
      TurnedNext(PagesOf(ss[..|ss| - 1], kind), PageOf(ss[|ss| - 1], kind), KeepsGaps(kind));
      FamilyAdvances(Reconciled(ss[..|ss| - 1]), ss[|ss| - 1], kind);
    }
  }

  /** A record of any kind has a history exactly when some snapshot holds it, and its observations are,
      snapshot by snapshot, its sightings, or one gap for each later snapshot that omits it. */
  lemma RecordsAreObserved(ss: seq<Snapshot>, kind: Kind, id: nat)
    ensures var bs := RecordBatches(PagesOf(ss, kind));
            var own := FamilyOf(Reconciled(ss), kind).own;
            && (id in own <==> SeenBefore(bs, |bs|, id))
            && Of(own, id).observations == SaidUpTo(bs, |bs|, id, true)
  {
    KindIsTurned(ss, kind);
    RecordsAreChronicled(PagesOf(ss, kind), KeepsGaps(kind));
    HistorySays(RecordBatches(PagesOf(ss, kind)), true, id);
  }

  lemma {:induction false} SightingsAreThere(archive: nat, es: seq<Entry>, id: nat)
    ensures Names(es, id) ==> Sightings(archive, es, id) != []
    ensures forall i :: 0 <= i < |Sightings(archive, es, id)| ==>
              Sightings(archive, es, id)[i].archive == archive && Sightings(archive, es, id)[i].digest.Some?
    decreases |es|
  {
    if es != [] {
      var front := es[..|es| - 1];
      SightingsAreThere(archive, front, id);
      if Names(es, id) && es[|es| - 1].id != id {
        var i :| 0 <= i < |es| && es[i].id == id;
        assert front[i].id == id;
      }
    }
  }

  lemma TurnedChildren(pages: seq<Page>, gaps: bool, id: nat, child: nat)
    ensures var bs := ChildBatches(pages, |pages|, id);
            Of(ChildrenOf(Turned(pages, gaps), id), child).observations == SaidUpTo(bs, |bs|, child, gaps)
  {
    ChildrenAreChronicled(pages, |pages|, gaps, id);
    assert pages[..|pages|] == pages;
    HistorySays(ChildBatches(pages, |pages|, id), gaps, child);
  }

  /** The same of a message or an instruction inside its record. */
  lemma ChildrenAreObserved(ss: seq<Snapshot>, kind: Kind, id: nat, child: nat)
    ensures var bs := ChildBatches(PagesOf(ss, kind), |PagesOf(ss, kind)|, id);
            Of(ChildrenOf(FamilyOf(Reconciled(ss), kind), id), child).observations
                == SaidUpTo(bs, |bs|, child, KeepsGaps(kind))
  {
    KindIsTurned(ss, kind);
    TurnedChildren(PagesOf(ss, kind), KeepsGaps(kind), id, child);
  }

  ghost predicate FamilyAccounted(f: Family) {
    AllAccounted(f.own) && forall id :: id in f.children ==> AllAccounted(f.children[id])
  }

  lemma TurnedAccounted(pages: seq<Page>, gaps: bool)
    ensures FamilyAccounted(Turned(pages, gaps))
  {
    RecordsAreChronicled(pages, gaps);
    RevisionsAccounted(RecordBatches(pages), true);
    var f := Turned(pages, gaps);
    forall id | id in f.children ensures AllAccounted(f.children[id]) {
      assert pages[..|pages|] == pages;
      ChildrenAreChronicled(pages, |pages|, gaps, id);
      RevisionsAccounted(ChildBatches(pages, |pages|, id), gaps);
    }
  }

  /** Every history's revisions are pairwise distinct and are the digests of its present
      observations, for records and for children of every kind. */
  lemma RevisionsAreAccounted(ss: seq<Snapshot>, kind: Kind)
    ensures FamilyAccounted(FamilyOf(Reconciled(ss), kind))
  {
    KindIsTurned(ss, kind);
    TurnedAccounted(PagesOf(ss, kind), KeepsGaps(kind));
  }

  // ---------------------------------------------------------------- append-only

  ghost predicate FamilyExtends(f: Family, g: Family) {
    Extends(f.own, g.own) && forall x :: x in f.children ==> x in g.children && Extends(f.children[x], g.children[x])
  }

  lemma ObservedExtends(f: Family, archive: nat, r: Record, orphans: set<(nat, nat)>, gaps: bool)
    ensures FamilyExtends(f, Observed(f, archive, r, orphans, gaps))
  {
    TakenExtends(ChildrenOf(f, r.id), Batch(archive, ChildEntries(r, orphans)), gaps);
  }

  lemma {:induction false} ObservedAllExtends(f: Family, archive: nat,
      rs: seq<Record>, orphans: set<(nat, nat)>, gaps: bool)
    ensures FamilyExtends(f, ObservedAll(f, archive, rs, orphans, gaps))
    decreases |rs|
  {
    if rs != [] {
      var g := ObservedAll(f, archive, rs[..|rs| - 1], orphans, gaps);
      ObservedAllExtends(f, archive, rs[..|rs| - 1], orphans, gaps);
      ObservedExtends(g, archive, rs[|rs| - 1], orphans, gaps);
      Chains(f, g, Observed(g, archive, rs[|rs| - 1], orphans, gaps));
    }
  }

  lemma Chains(f: Family, g: Family, h: Family)
    requires FamilyExtends(f, g) && FamilyExtends(g, h)
    ensures FamilyExtends(f, h)
  {
  }

  lemma AdvancedExtends(f: Family, archive: nat, rs: seq<Record>, orphans: set<(nat, nat)>, gaps: bool)
    ensures FamilyExtends(f, Advanced(f, archive, rs, orphans, gaps))
  {
    var g := ObservedAll(f, archive, rs, orphans, gaps);
    ObservedAllExtends(f, archive, rs, orphans, gaps);
    forall x | x in g.children ensures Extends(g.children[x], Lapsed(g, archive, rs, gaps).children[x]) {
      TakenExtends(g.children[x], Batch(archive, []), gaps);
    }
    Chains(f, g, Lapsed(g, archive, rs, gaps));
  }

  ghost predicate ResultExtends(a: Result, b: Result) {
    && FamilyExtends(a.conversations, b.conversations) && FamilyExtends(a.projects, b.projects)
    && FamilyExtends(a.canvases, b.canvases) && FamilyExtends(a.assets, b.assets)
    && a.reports <= b.reports
  }

  lemma AdvancedByExtends(r: Result, s: Snapshot)
    ensures ResultExtends(r, AdvancedBy(r, s))
  {
    AdvancedExtends(r.conversations, s.archive, s.conversations, Orphans(s.conversations), false);
    AdvancedExtends(r.projects, s.archive, s.projects, {}, true);
    AdvancedExtends(r.canvases, s.archive, s.canvases, {}, true);
    AdvancedExtends(r.assets, s.archive, s.assets, {}, true);
  }

  lemma ResultChains(a: Result, b: Result, c: Result)
    requires ResultExtends(a, b) && ResultExtends(b, c)
    ensures ResultExtends(a, c)
  {
    Chains(a.conversations, b.conversations, c.conversations);
    Chains(a.projects, b.projects, c.projects);
    Chains(a.canvases, b.canvases, c.canvases);
    Chains(a.assets, b.assets, c.assets);
  }

  lemma AppendOne(a: Result, ss: seq<Snapshot>, s: Snapshot)
    requires ResultExtends(a, Reconciled(ss))
    ensures ResultExtends(a, Reconciled(ss + [s]))
  {
    var r := Reconciled(ss);
    ReconciledLast(ss, s);
    AdvancedByExtends(r, s);
    ResultChains(a, r, AdvancedBy(r, s));
  }

  lemma {:induction false} AppendAll(a: Result, s: seq<Snapshot>, t: seq<Snapshot>)
    requires ResultExtends(a, Reconciled(s))
    ensures ResultExtends(a, Reconciled(s + t))
    decreases |t|
  {
    if t == [] {
      assert s + t == s;
    } else {
      Resplit(s, t);
      AppendAll(a, s, t[..|t| - 1]);
      AppendOne(a, s + t[..|t| - 1], t[|t| - 1]);
    }
  }

  lemma Resplit(s: seq<Snapshot>, t: seq<Snapshot>)
    requires t != []
    ensures s + t == (s + t[..|t| - 1]) + [t[|t| - 1]]
  {
  }

  /** Reconciliation is append-only: every history and the list of reports for `s` are prefixes of
      those for `s + t`. */
  lemma ReconciliationIsAppendOnly(s: seq<Snapshot>, t: seq<Snapshot>)
    ensures ResultExtends(Reconciled(s), Reconciled(s + t))
  {
    ExtendsItself(Reconciled(s));
    AppendAll(Reconciled(s), s, t);
  }

  lemma ReconciledLast(ss: seq<Snapshot>, s: Snapshot)
    ensures Reconciled(ss + [s]) == AdvancedBy(Reconciled(ss), s)
  {
    assert (ss + [s])[..|ss|] == ss;
  }

  lemma ExtendsItself(r: Result)
    ensures ResultExtends(r, r)
  {
  }

  // ---------------------------------------------------------------- every snapshot after the first

  ghost predicate Holds(s: Snapshot, kind: Kind, id: nat) {
    exists i :: 0 <= i < |RecordsOf(s, kind)| && RecordsOf(s, kind)[i].id == id
  }

  function ObservationsOf(ss: seq<Snapshot>, kind: Kind, id: nat): seq<Observation> {
    Of(FamilyOf(Reconciled(ss), kind).own, id).observations
  }

  lemma HoldsIsNamed(s: Snapshot, kind: Kind, id: nat)
    ensures Holds(s, kind, id) <==> Names(Entries(RecordsOf(s, kind)), id)
  {
    var rs := RecordsOf(s, kind);
    forall i | 0 <= i < |rs| ensures Entries(rs)[i].id == rs[i].id {}
  }

  /** What one batch adds to a history that is there already. */
  lemma TakenAdds(hs: Histories, b: Batch, id: nat)
    requires id in hs
    ensures Of(Taken(hs, b, true), id).observations
         == hs[id].observations + (if Names(b.entries, id) then Sightings(b.archive, b.entries, id)
                                   else [Observation(b.archive, None, false)])
  {
    EnteredSays(hs, b.archive, b.entries, id);
    if !Names(b.entries, id) { NoSightings(b.archive, b.entries, id); }
  }

  lemma SeenHasHistory(ss: seq<Snapshot>, kind: Kind, i: nat, id: nat)
    requires i < |ss| && Holds(ss[i], kind, id)
    ensures id in FamilyOf(Reconciled(ss), kind).own
  {
    var bs := RecordBatches(PagesOf(ss, kind));
    HoldsIsNamed(ss[i], kind, id);
    assert Names(bs[i].entries, id);
    RecordsAreObserved(ss, kind, id);
  }

  lemma NextSnapshot(ss: seq<Snapshot>, j: nat)
    requires j < |ss|
    ensures Reconciled(ss[..j + 1]) == AdvancedBy(Reconciled(ss[..j]), ss[j])
    ensures ss == ss[..j + 1] + ss[j + 1..]
  {
    assert ss[..j + 1] == ss[..j] + [ss[j]];
    ReconciledLast(ss[..j], ss[j]);
  }

  /** What a snapshot says of one record: it was there, or it was not. */
  ghost predicate SaysOf(o: Observation, s: Snapshot, kind: Kind, id: nat) {
    o.archive == s.archive && (o.digest == None <==> !Holds(s, kind, id))
  }

  /** What a snapshot adds to the history of a record seen before. */
  ghost function Added(s: Snapshot, kind: Kind, id: nat): seq<Observation> {
    if Names(Entries(RecordsOf(s, kind)), id) then Sightings(s.archive, Entries(RecordsOf(s, kind)), id)
    else [Observation(s.archive, None, false)]
  }

  lemma AddedSays(s: Snapshot, kind: Kind, id: nat)
    ensures var more := Added(s, kind, id);
            && more != [] && (!Holds(s, kind, id) ==> |more| == 1)
            && (forall k :: 0 <= k < |more| ==> SaysOf(more[k], s, kind, id))
  {
    HoldsIsNamed(s, kind, id);
    SightingsAreThere(s.archive, Entries(RecordsOf(s, kind)), id);
  }

  lemma SnapshotAdds(r: Result, s: Snapshot, kind: Kind, id: nat)
    requires id in FamilyOf(r, kind).own
    ensures Of(FamilyOf(AdvancedBy(r, s), kind).own, id).observations
         == Of(FamilyOf(r, kind).own, id).observations + Added(s, kind, id)
  {
    var p := PageOf(s, kind);
    FamilyAdvances(r, s, kind);
    AdvancedOwn(FamilyOf(r, kind), p, KeepsGaps(kind));
    TakenAdds(FamilyOf(r, kind).own, Batch(p.archive, Entries(p.records)), id);
  }

  lemma NextObservations(ss: seq<Snapshot>, kind: Kind, i: nat, j: nat, id: nat)
    requires i < j < |ss| && Holds(ss[i], kind, id)
    ensures ObservationsOf(ss[..j + 1], kind, id) == ObservationsOf(ss[..j], kind, id) + Added(ss[j], kind, id)
  {
    SeenHasHistory(ss[..j], kind, i, id);
    NextSnapshot(ss, j);
    SnapshotAdds(Reconciled(ss[..j]), ss[j], kind, id);
  }

  lemma LaterObservations(ss: seq<Snapshot>, kind: Kind, j: nat, id: nat)
    requires j < |ss|
    ensures ObservationsOf(ss[..j + 1], kind, id) <= ObservationsOf(ss, kind, id)
  {
    NextSnapshot(ss, j);
    ReconciliationIsAppendOnly(ss[..j + 1], ss[j + 1..]);
    HistoryExtends(Reconciled(ss[..j + 1]), Reconciled(ss), kind, id);
  }

  /** Once seen, a record is observed in every later snapshot, once if the snapshot omits it: its
      history strictly grows, by observations of that archive, missing exactly where it is omitted,
      and no snapshot after takes them back. */
  lemma ObservedEverAfter(ss: seq<Snapshot>, kind: Kind, i: nat, j: nat, id: nat)
    requires i < j < |ss| && Holds(ss[i], kind, id)
    ensures var before, after := ObservationsOf(ss[..j], kind, id), ObservationsOf(ss[..j + 1], kind, id);
            && before < after <= ObservationsOf(ss, kind, id)
            && (forall k :: |before| <= k < |after| ==> SaysOf(after[k], ss[j], kind, id))
            && (!Holds(ss[j], kind, id) ==> |after| == |before| + 1)
  {
    NextObservations(ss, kind, i, j, id);
    LaterObservations(ss, kind, j, id);
    AddedSays(ss[j], kind, id);
  }

  lemma HistoryExtends(a: Result, b: Result, kind: Kind, id: nat)
    requires ResultExtends(a, b)
    ensures Of(FamilyOf(a, kind).own, id).observations <= Of(FamilyOf(b, kind).own, id).observations
  {
  }
}
