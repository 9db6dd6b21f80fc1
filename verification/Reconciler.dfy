/** The reconciler as it runs: loops over snapshots, records and children that update histories. */
module Reconciler {
  import opened Orders
  import opened Chronicle
  import opened Reconciliation

  method RecordPresent(h: History, archive: nat, e: Entry) returns (r: History, created: bool)
    ensures r == Present(h, archive, e) && created == (e.digest !in h.revisions)
  {
    created := true;
    for i := 0 to |h.revisions|
      invariant created <==> e.digest !in h.revisions[..i]
    {
      if h.revisions[i] == e.digest { created := false; }
    }
    assert h.revisions[..|h.revisions|] == h.revisions;
    var revisions := h.revisions;
    if created { revisions := revisions + [e.digest]; }
    r := History(revisions, h.observations + [Observation(archive, Some(e.digest), e.orphaned)]);
  }

  method EnterAll(hs: Histories, archive: nat, es: seq<Entry>) returns (r: Histories, news: nat)
    ensures r == Entered(hs, archive, es) && news == News(hs, archive, es)
  {
    r, news := hs, 0;
    for i := 0 to |es|
      invariant r == Entered(hs, archive, es[..i]) && news == News(hs, archive, es[..i])
    {
      assert es[..i + 1][..i] == es[..i];
      var h, created := RecordPresent(Of(r, es[i].id), archive, es[i]);
      r := r[es[i].id := h];
      if created { news := news + 1; }
    }
    assert es[..|es|] == es;
  }

  /** Ids the batch leaves out are observed missing, one history at a time. */
  method MarkMissing(hs: Histories, b: Batch) returns (r: Histories, missed: nat)
    ensures r == Gapped(hs, b)
    ensures missed == |set x | x in hs && !Names(b.entries, x)|
  {
    r, missed := hs, 0;
    var rest := hs.Keys;
    ghost var marked: set<nat> := {};
    while rest != {}
      invariant rest <= hs.Keys && r.Keys == hs.Keys && missed == |marked|
      invariant marked == set x | x in hs && x !in rest && !Names(b.entries, x)
      invariant forall x :: x in hs ==> r[x] == if x in marked then Missing(hs[x], b.archive) else hs[x]
      decreases rest
    {
      var x :| x in rest;
      if !Names(b.entries, x) {
        assert x !in marked;
        r := r[x := Missing(r[x], b.archive)];
        marked := marked + {x};
        missed := missed + 1;
      }
      rest := rest - {x};
    }
    assert marked == set x | x in hs && !Names(b.entries, x);
  }

  method ObserveConversation(f: Family, archive: nat, r: Record, orphans: set<(nat, nat)>)
    returns (g: Family, c: Statistics)
    ensures g == Observed(f, archive, r, orphans, false) && c == Counted(f, archive, r, orphans)
  {
    var own, created := RecordPresent(Of(f.own, r.id), archive, EntryOf(r));
    var children, news := EnterAll(ChildrenOf(f, r.id), archive, ChildEntries(r, orphans));
    g := Family(f.own[r.id := own], f.children[r.id := children]);
    c := Statistics((if created then 1 else 0) + news, |r.children| - news, 0, 0);
  }

  method ObserveProject(f: Family, archive: nat, r: Record) returns (g: Family)
    ensures g == Observed(f, archive, r, {}, true)
  {
    var own, _ := RecordPresent(Of(f.own, r.id), archive, EntryOf(r));
    var es := ChildEntries(r, {});
    var entered, _ := EnterAll(ChildrenOf(f, r.id), archive, es);
    var children, _ := MarkMissing(entered, Batch(archive, es));
    g := Family(f.own[r.id := own], f.children[r.id := children]);
  }

  /** The missing records of a kind, with their instructions where they are projects. */
  method MarkFamilyMissing(f: Family, archive: nat, rs: seq<Record>, gaps: bool) returns (g: Family, missed: nat)
    ensures g == Lapsed(f, archive, rs, gaps) && missed == |Absent(f.own, rs)|
  {
    var own;
    own, missed := MarkMissing(f.own, Batch(archive, Entries(rs)));
    var children, rest := f.children, f.children.Keys;
    while rest != {}
      invariant rest <= f.children.Keys && children.Keys == f.children.Keys
      invariant forall x :: x in rest ==> children[x] == f.children[x]
      invariant forall x :: x in f.children && x !in rest ==> children[x] == Lapsed(f, archive, rs, gaps).children[x]
      decreases rest
    {
      var x :| x in rest;
      if gaps && !Names(Entries(rs), x) {
        var marked, _ := MarkMissing(children[x], Batch(archive, []));
        children := children[x := marked];
      }
      rest := rest - {x};
    }
    g := Family(own, children);
    assert g.children == Lapsed(f, archive, rs, gaps).children;
  }

  method AdvanceConversations(f: Family, s: Snapshot) returns (g: Family, report: Report)
    ensures g == Advanced(f, s.archive, s.conversations, Orphans(s.conversations), false)
    ensures report == ReportOf(f, s)
  {
    var orphans, rs := Orphans(s.conversations), s.conversations;
    var c, messages := Statistics(0, 0, 0, 0), 0;
    g := f;
    for i := 0 to |rs|
      invariant g == ObservedAll(f, s.archive, rs[..i], orphans, false)
      invariant c == CountedAll(f, s.archive, rs[..i], orphans) && messages == Messages(rs[..i])
    {
      assert rs[..i + 1][..i] == rs[..i];
      var counted;
      g, counted := ObserveConversation(g, s.archive, rs[i], orphans);
      c, messages := Plus(c, counted), messages + |rs[i].children|;
    }
    assert rs[..|rs|] == rs;
    var missed;
    g, missed := MarkFamilyMissing(g, s.archive, rs, false);
    report := Report(s.archive, |rs|, messages, c.(present := |rs|, missing := missed));
  }

  method AdvanceKind(f: Family, archive: nat, rs: seq<Record>) returns (g: Family)
    ensures g == Advanced(f, archive, rs, {}, true)
  {
    var observed := f;
    for i := 0 to |rs|
      invariant observed == ObservedAll(f, archive, rs[..i], {}, true)
    {
      assert rs[..i + 1][..i] == rs[..i];
      observed := ObserveProject(observed, archive, rs[i]);
    }
    assert rs[..|rs|] == rs;
    var missed;
    g, missed := MarkFamilyMissing(observed, archive, rs, true);
  }

  /** Snapshot by snapshot, oldest first. */
  method Reconcile(snapshots: seq<Snapshot>) returns (r: Result)
    ensures r == Reconciled(snapshots)
  {
    var conversations, projects, canvases, assets := NOBODY, NOBODY, NOBODY, NOBODY;
    var reports := [];
    for i := 0 to |snapshots|
      invariant Result(conversations, projects, canvases, assets, reports) == Reconciled(snapshots[..i])
    {
      assert snapshots[..i + 1][..i] == snapshots[..i];
      var s := snapshots[i];
      var report;
      conversations, report := AdvanceConversations(conversations, s);
      projects := AdvanceKind(projects, s.archive, s.projects);
      canvases := AdvanceKind(canvases, s.archive, s.canvases);
      assets := AdvanceKind(assets, s.archive, s.assets);
      reports := reports + [report];
    }
    assert snapshots[..|snapshots|] == snapshots;
    r := Result(conversations, projects, canvases, assets, reports);
  }
}
