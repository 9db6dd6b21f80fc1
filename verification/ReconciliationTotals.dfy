/** The cumulative report adds up: every revision is counted once, when it is new. */
module ReconciliationTotals {
  import opened Chronicle
  import opened Reconciliation
  import opened ReconciliationLaws

  // ---------------------------------------------------------------- sums over a map

  ghost function Total(m: map<nat, nat>): nat {
    if m == map[] then 0 else
      var k :| k in m;
      m[k] + Total(m - {k})
  }

  lemma {:induction false} TotalSplit(m: map<nat, nat>, k: nat)
    requires k in m
    ensures Total(m) == m[k] + Total(m - {k})
  {
    var l :| l in m && Total(m) == m[l] + Total(m - {l});
    if l != k {
      TotalSplit(m - {l}, k);
      TotalSplit(m - {k}, l);
      assert m - {l} - {k} == m - {k} - {l};
    }
  }

  lemma TotalUpdate(m: map<nat, nat>, k: nat, v: nat)
    ensures Total(m[k := v]) == Total(m) + v - (if k in m then m[k] else 0)
  {
    var m' := m[k := v];
    TotalSplit(m', k);
    if k in m {
      TotalSplit(m, k);
      assert m' - {k} == m - {k};
    } else {
      assert m' - {k} == m;
    }
  }

  // ---------------------------------------------------------------- revisions

  ghost function Sizes(hs: Histories): map<nat, nat> {
    map x | x in hs :: |hs[x].revisions|
  }

  ghost function Revisions(hs: Histories): nat {
    Total(Sizes(hs))
  }

  ghost function ChildSizes(f: Family): map<nat, nat> {
    map x | x in f.children :: Revisions(f.children[x])
  }

  ghost function ChildRevisions(f: Family): nat {
    Total(ChildSizes(f))
  }

  lemma PresentCounts(hs: Histories, archive: nat, e: Entry)
    ensures Revisions(hs[e.id := Present(Of(hs, e.id), archive, e)])
         == Revisions(hs) + if e.digest in Of(hs, e.id).revisions then 0 else 1
  {
    var h := Present(Of(hs, e.id), archive, e);
    assert Sizes(hs[e.id := h]) == Sizes(hs)[e.id := |h.revisions|];
    TotalUpdate(Sizes(hs), e.id, |h.revisions|);
  }

  lemma {:induction false} EnteredCounts(hs: Histories, archive: nat, es: seq<Entry>)
    ensures Revisions(Entered(hs, archive, es)) == Revisions(hs) + News(hs, archive, es)
    decreases |es|
  {
    if es != [] {
      EnteredCounts(hs, archive, es[..|es| - 1]);
      PresentCounts(Entered(hs, archive, es[..|es| - 1]), archive, es[|es| - 1]);
    }
  }

  lemma ChildrenCount(f: Family, id: nat, hs: Histories)
    ensures ChildRevisions(f.(children := f.children[id := hs]))
            == ChildRevisions(f) + Revisions(hs) - Revisions(ChildrenOf(f, id))
  {
    var g := f.(children := f.children[id := hs]);
    assert ChildSizes(g) == ChildSizes(f)[id := Revisions(hs)];
    TotalUpdate(ChildSizes(f), id, Revisions(hs));
    if id !in f.children {
      var none: Histories := map[];
      assert Sizes(none) == map[];
    }
  }

  lemma ObservedCounts(f: Family, archive: nat, r: Record, orphans: set<(nat, nat)>)
    ensures var g, c := Observed(f, archive, r, orphans, false), Counted(f, archive, r, orphans);
            && Revisions(g.own) + ChildRevisions(g) == Revisions(f.own) + ChildRevisions(f) + c.added
            && ChildRevisions(g) + c.reused == ChildRevisions(f) + |r.children|
  {
    var es, hs := ChildEntries(r, orphans), ChildrenOf(f, r.id);
    PresentCounts(f.own, archive, EntryOf(r));
    EnteredCounts(hs, archive, es);
    ChildrenCount(f, r.id, Entered(hs, archive, es));
    var g, h := Observed(f, archive, r, orphans, false), f.(children := f.children[r.id := Entered(hs, archive, es)]);
    assert g.children == h.children;
    assert ChildSizes(g) == ChildSizes(h);
  }

  lemma {:induction false} ObservedAllCounts(f: Family, archive: nat, rs: seq<Record>, orphans: set<(nat, nat)>)
    ensures var g, c := ObservedAll(f, archive, rs, orphans, false), CountedAll(f, archive, rs, orphans);
            && Revisions(g.own) + ChildRevisions(g) == Revisions(f.own) + ChildRevisions(f) + c.added
            && ChildRevisions(g) + c.reused == ChildRevisions(f) + Messages(rs)
    decreases |rs|
  {
    if rs != [] {
      var front := rs[..|rs| - 1];
      ObservedAllCounts(f, archive, front, orphans);
      ObservedCounts(ObservedAll(f, archive, front, orphans, false), archive, rs[|rs| - 1], orphans);
    }
  }

  /** A gap is no revision. */
  lemma LapsedCounts(f: Family, archive: nat, rs: seq<Record>)
    ensures Revisions(Lapsed(f, archive, rs, false).own) == Revisions(f.own)
    ensures ChildRevisions(Lapsed(f, archive, rs, false)) == ChildRevisions(f)
  {
    var g := Lapsed(f, archive, rs, false);
    assert Sizes(g.own) == Sizes(f.own);
    assert ChildSizes(g) == ChildSizes(f);
  }

  // ---------------------------------------------------------------- the cumulative report

  function Summed(reports: seq<Report>): Statistics
    decreases |reports|
  {
    if reports == [] then Statistics(0, 0, 0, 0)
    else Plus(Summed(reports[..|reports| - 1]), reports[|reports| - 1].statistics)
  }

  function Discovered(reports: seq<Report>): nat
    decreases |reports|
  {
    if reports == [] then 0 else Discovered(reports[..|reports| - 1]) + reports[|reports| - 1].messages
  }

  ghost predicate AddsUp(f: Family, reports: seq<Report>) {
    && Summed(reports).added == Revisions(f.own) + ChildRevisions(f)
    && ChildRevisions(f) + Summed(reports).reused == Discovered(reports)
  }

  lemma AdvanceAddsUp(r: Result, s: Snapshot)
    requires AddsUp(r.conversations, r.reports)
    ensures AddsUp(AdvancedBy(r, s).conversations, AdvancedBy(r, s).reports)
  {
    var orphans := Orphans(s.conversations);
    ObservedAllCounts(r.conversations, s.archive, s.conversations, orphans);
    LapsedCounts(ObservedAll(r.conversations, s.archive, s.conversations, orphans, false), s.archive, s.conversations);
    var reports' := AdvancedBy(r, s).reports;
    assert reports'[..|reports'| - 1] == r.reports;
  }

  /** Over all snapshots, the new revisions reported are the conversation and message revisions there
      are, and the message revisions with the reused ones are the messages discovered. */
  lemma {:induction false} ReportsAddUp(ss: seq<Snapshot>)
    ensures AddsUp(Reconciled(ss).conversations, Reconciled(ss).reports)
    decreases |ss|
  {
    if ss == [] {
      assert Sizes(map[]) == map[] && ChildSizes(NOBODY) == map[];
    } else {
      ReportsAddUp(ss[..|ss| - 1]);
      AdvanceAddsUp(Reconciled(ss[..|ss| - 1]), ss[|ss| - 1]);
    }
  }

  // ---------------------------------------------------------------- observations

  ghost function Lengths(hs: Histories): map<nat, nat> {
    map x | x in hs :: |hs[x].observations|
  }

  ghost function Observations(hs: Histories): nat {
    Total(Lengths(hs))
  }

  lemma {:induction false} EnteredObserves(hs: Histories, archive: nat, es: seq<Entry>)
    ensures Observations(Entered(hs, archive, es)) == Observations(hs) + |es|
    decreases |es|
  {
    if es != [] {
      var front, e := es[..|es| - 1], es[|es| - 1];
      EnteredObserves(hs, archive, front);
      var before := Entered(hs, archive, front);
      var h := Present(Of(before, e.id), archive, e);
      assert Lengths(before[e.id := h]) == Lengths(before)[e.id := |h.observations|];
      TotalUpdate(Lengths(before), e.id, |h.observations|);
    }
  }

  /** Raising some of the numbers by one raises the sum by how many they are. */
  lemma {:induction false} TotalRaised(m: map<nat, nat>, n: map<nat, nat>, up: set<nat>)
    requires m.Keys == n.Keys && up <= m.Keys && forall k :: k in m ==> n[k] == m[k] + if k in up then 1 else 0
    ensures Total(n) == Total(m) + |up|
    decreases |up|
  {
    if up == {} {
      assert m == n;
    } else {
      var k :| k in up;
      var n' := n[k := m[k]];
      TotalUpdate(n, k, m[k]);
      TotalRaised(m, n', up - {k});
    }
  }

  lemma GappedObserves(hs: Histories, archive: nat, rs: seq<Record>)
    ensures Observations(Gapped(hs, Batch(archive, Entries(rs)))) == Observations(hs) + |Absent(hs, rs)|
  {
    TotalRaised(Lengths(hs), Lengths(Gapped(hs, Batch(archive, Entries(rs)))), Absent(hs, rs));
  }

  /** Every observation of a conversation is in some report, as present or as missing. */
  lemma {:induction false} ObservationsAddUp(ss: seq<Snapshot>)
    ensures var r := Reconciled(ss);
            Observations(r.conversations.own) == Summed(r.reports).present + Summed(r.reports).missing
    decreases |ss|
  {
    if ss == [] {
      var none: Histories := map[];
      assert Lengths(none) == map[];
    } else {
      ObservationsAddUp(ss[..|ss| - 1]);
      AdvanceObserves(Reconciled(ss[..|ss| - 1]), ss[|ss| - 1]);
    }
  }

  lemma AdvanceObserves(r: Result, s: Snapshot)
    requires Observations(r.conversations.own) == Summed(r.reports).present + Summed(r.reports).missing
    ensures var r' := AdvancedBy(r, s);
            Observations(r'.conversations.own) == Summed(r'.reports).present + Summed(r'.reports).missing
  {
    var orphans := Orphans(s.conversations);
    ObservedOwn(r.conversations, s.archive, s.conversations, orphans, false);
    EnteredObserves(r.conversations.own, s.archive, Entries(s.conversations));
    GappedObserves(ObservedAll(r.conversations, s.archive, s.conversations, orphans, false).own,
        s.archive, s.conversations);
    var reports' := AdvancedBy(r, s).reports;
    assert reports'[..|reports'| - 1] == r.reports;
  }
}
