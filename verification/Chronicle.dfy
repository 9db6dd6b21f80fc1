/** Append-only histories of whatever successive batches present, one history per provider id. */
module Chronicle {
  import opened Orders

  /** What one archive said of an id: the digest it presented, or that it left the id out. */
  datatype Observation = Observation(archive: nat, digest: Option<nat>, orphaned: bool)

  datatype Entry = Entry(id: nat, digest: nat, orphaned: bool)

  datatype Batch = Batch(archive: nat, entries: seq<Entry>)

  datatype History = History(revisions: seq<nat>, observations: seq<Observation>)

  type Histories = map<nat, History>

  const EMPTY := History([], [])

  function Of(hs: Histories, id: nat): History {
    if id in hs then hs[id] else EMPTY
  }

  /** `record_present`: a digest not seen before is a new revision; every sighting is observed. */
  function Present(h: History, archive: nat, e: Entry): History {
    History(if e.digest in h.revisions then h.revisions else h.revisions + [e.digest],
            h.observations + [Observation(archive, Some(e.digest), e.orphaned)])
  }

  function Missing(h: History, archive: nat): History {
    h.(observations := h.observations + [Observation(archive, None, false)])
  }

  function Entered(hs: Histories, archive: nat, es: seq<Entry>): Histories
    decreases |es|
  {
    if es == [] then hs else
      var before, e := Entered(hs, archive, es[..|es| - 1]), es[|es| - 1];
      before[e.id := Present(Of(before, e.id), archive, e)]
  }

  predicate Names(es: seq<Entry>, id: nat) {
    exists i :: 0 <= i < |es| && es[i].id == id
  }

  function Gapped(hs: Histories, b: Batch): Histories {
    map x | x in hs :: if Names(b.entries, x) then hs[x] else Missing(hs[x], b.archive)
  }

  /** One batch; where gaps are kept, an id it leaves out is observed missing. */
  function Taken(hs: Histories, b: Batch, gaps: bool): Histories {
    var entered := Entered(hs, b.archive, b.entries);
    if gaps then Gapped(entered, b) else entered
  }

  function TakenAll(bs: seq<Batch>, gaps: bool): Histories
    decreases |bs|
  {
    if bs == [] then map[] else Taken(TakenAll(bs[..|bs| - 1], gaps), bs[|bs| - 1], gaps)
  }

  // ---------------------------------------------------------------- what a history says

  ghost predicate SeenBefore(bs: seq<Batch>, j: nat, id: nat)
    requires j <= |bs|
  {
    exists i :: 0 <= i < j && Names(bs[i].entries, id)
  }

  /** The sightings of an id in one batch. */
  function Sightings(archive: nat, es: seq<Entry>, id: nat): seq<Observation>
    decreases |es|
  {
    if es == [] then [] else
      var before, e := Sightings(archive, es[..|es| - 1], id), es[|es| - 1];
      if e.id == id then before + [Observation(archive, Some(e.digest), e.orphaned)] else before
  }

  /** What batch `j` adds to the history of an id: its sightings, or a gap if it was seen before. */
  ghost function Said(bs: seq<Batch>, j: nat, id: nat, gaps: bool): seq<Observation>
    requires j < |bs|
  {
    if Names(bs[j].entries, id) then Sightings(bs[j].archive, bs[j].entries, id)
    else if gaps && SeenBefore(bs, j, id) then [Observation(bs[j].archive, None, false)]
    else []
  }

  ghost function SaidUpTo(bs: seq<Batch>, n: nat, id: nat, gaps: bool): seq<Observation>
    requires n <= |bs|
  {
    if n == 0 then [] else SaidUpTo(bs, n - 1, id, gaps) + Said(bs, n - 1, id, gaps)
  }

  lemma {:induction false} EnteredSays(hs: Histories, archive: nat, es: seq<Entry>, id: nat)
    ensures id in Entered(hs, archive, es) <==> id in hs || Names(es, id)
    ensures Of(Entered(hs, archive, es), id).observations == Of(hs, id).observations + Sightings(archive, es, id)
    decreases |es|
  {
    if es != [] {
      var front, e := es[..|es| - 1], es[|es| - 1];
      EnteredSays(hs, archive, front, id);
      NamesEntry(es, id);
    }
  }

  lemma NamesEntry(es: seq<Entry>, id: nat)
    requires es != []
    ensures Names(es, id) <==> Names(es[..|es| - 1], id) || es[|es| - 1].id == id
  {
    var front := es[..|es| - 1];
    forall i | 0 <= i < |front| ensures front[i] == es[i] {}
    if Names(front, id) {
      var i :| 0 <= i < |front| && front[i].id == id;
      assert es[i].id == id;
    }
    if Names(es, id) && es[|es| - 1].id != id {
      var i :| 0 <= i < |es| && es[i].id == id;
      assert front[i].id == id;
    }
  }

  lemma {:induction false} NoSightings(archive: nat, es: seq<Entry>, id: nat)
    requires !Names(es, id)
    ensures Sightings(archive, es, id) == []
    decreases |es|
  {
    if es != [] {
      NamesEntry(es, id);
      NoSightings(archive, es[..|es| - 1], id);
    }
  }

  /** What a batch adds to the history of one id. */
  lemma TakenSays(hs: Histories, b: Batch, gaps: bool, id: nat)
    ensures id in Taken(hs, b, gaps) <==> id in hs || Names(b.entries, id)
    ensures Of(Taken(hs, b, gaps), id).observations == Of(hs, id).observations
              + (if Names(b.entries, id) then Sightings(b.archive, b.entries, id)
                 else if gaps && id in hs then [Observation(b.archive, None, false)] else [])
  {
    EnteredSays(hs, b.archive, b.entries, id);
    if !Names(b.entries, id) { NoSightings(b.archive, b.entries, id); }
  }

  lemma SeenNext(bs: seq<Batch>, n: nat, id: nat)
    requires n < |bs|
    ensures SeenBefore(bs, n + 1, id) <==> SeenBefore(bs, n, id) || Names(bs[n].entries, id)
  {
    if Names(bs[n].entries, id) { assert SeenBefore(bs, n + 1, id); }
  }

  lemma TakenNext(bs: seq<Batch>, n: nat, gaps: bool)
    requires n < |bs|
    ensures TakenAll(bs[..n + 1], gaps) == Taken(TakenAll(bs[..n], gaps), bs[n], gaps)
  {
    assert bs[..n + 1][..n] == bs[..n];
  }

  lemma {:induction false} HistorySaysUpTo(bs: seq<Batch>, n: nat, gaps: bool, id: nat)
    requires n <= |bs|
    ensures id in TakenAll(bs[..n], gaps) <==> SeenBefore(bs, n, id)
    ensures Of(TakenAll(bs[..n], gaps), id).observations == SaidUpTo(bs, n, id, gaps)
  {
    if n > 0 {
      HistorySaysUpTo(bs, n - 1, gaps, id);
      TakenNext(bs, n - 1, gaps);
      TakenSays(TakenAll(bs[..n - 1], gaps), bs[n - 1], gaps, id);
      SeenNext(bs, n - 1, id);
    }
  }

  /** The observations of an id are, batch by batch, its sightings, or a gap in each later batch that
      leaves it out; and it has a history exactly when some batch names it. */
  lemma HistorySays(bs: seq<Batch>, gaps: bool, id: nat)
    ensures id in TakenAll(bs, gaps) <==> SeenBefore(bs, |bs|, id)
    ensures Of(TakenAll(bs, gaps), id).observations == SaidUpTo(bs, |bs|, id, gaps)
  {
    HistorySaysUpTo(bs, |bs|, gaps, id);
    assert bs[..|bs|] == bs;
  }

  // ---------------------------------------------------------------- revisions

  ghost predicate Distinct(s: seq<nat>) {
    forall i, j :: 0 <= i < j < |s| ==> s[i] != s[j]
  }

  ghost predicate Presents(h: History, d: nat) {
    exists i :: 0 <= i < |h.observations| && h.observations[i].digest == Some(d)
  }

  /** The revisions are the digests presented, each once. */
  ghost predicate Accounted(h: History) {
    Distinct(h.revisions) && forall d :: d in h.revisions <==> Presents(h, d)
  }

  lemma PresentAccounted(h: History, archive: nat, e: Entry)
    requires Accounted(h)
    ensures Accounted(Present(h, archive, e))
  {
    var h' := Present(h, archive, e);
    var n := |h.observations|;
    forall d: nat ensures d in h'.revisions <==> Presents(h', d) {
      if Presents(h, d) {
        var i :| 0 <= i < n && h.observations[i].digest == Some(d);
        assert h'.observations[i].digest == Some(d);
      }
      if d == e.digest { assert h'.observations[n].digest == Some(d); }
      if Presents(h', d) && d != e.digest {
        var i :| 0 <= i < |h'.observations| && h'.observations[i].digest == Some(d);
        assert h.observations[i].digest == Some(d);
      }
    }
  }

  lemma MissingAccounted(h: History, archive: nat)
    requires Accounted(h)
    ensures Accounted(Missing(h, archive))
  {
    var h' := Missing(h, archive);
    forall d: nat ensures Presents(h, d) <==> Presents(h', d) {
      if Presents(h, d) {
        var i :| 0 <= i < |h.observations| && h.observations[i].digest == Some(d);
        assert h'.observations[i].digest == Some(d);
      }
      if Presents(h', d) {
        var i :| 0 <= i < |h'.observations| && h'.observations[i].digest == Some(d);
        assert h.observations[i].digest == Some(d);
      }
    }
  }

  ghost predicate AllAccounted(hs: Histories) {
    forall x :: x in hs ==> Accounted(hs[x])
  }

  lemma {:induction false} EnteredAccounted(hs: Histories, archive: nat, es: seq<Entry>)
    requires AllAccounted(hs)
    ensures AllAccounted(Entered(hs, archive, es))
    decreases |es|
  {
    if es != [] {
      var before, e := Entered(hs, archive, es[..|es| - 1]), es[|es| - 1];
      EnteredAccounted(hs, archive, es[..|es| - 1]);
      PresentAccounted(Of(before, e.id), archive, e);
    }
  }

  lemma {:induction false} TakenAccounted(hs: Histories, b: Batch, gaps: bool)
    requires AllAccounted(hs)
    ensures AllAccounted(Taken(hs, b, gaps))
  {
    EnteredAccounted(hs, b.archive, b.entries);
    var entered := Entered(hs, b.archive, b.entries);
    forall x | x in entered ensures Accounted(Missing(entered[x], b.archive)) {
      MissingAccounted(entered[x], b.archive);
    }
  }

  /** Each history's revisions are pairwise distinct and are the digests of its present
      observations. */
  lemma {:induction false} RevisionsAccounted(bs: seq<Batch>, gaps: bool)
    ensures AllAccounted(TakenAll(bs, gaps))
    decreases |bs|
  {
    if bs != [] {
      RevisionsAccounted(bs[..|bs| - 1], gaps);
      TakenAccounted(TakenAll(bs[..|bs| - 1], gaps), bs[|bs| - 1], gaps);
    }
  }

  // ---------------------------------------------------------------- append-only

  ghost predicate Extends(a: Histories, b: Histories) {
    forall x :: x in a ==> x in b && a[x].revisions <= b[x].revisions && a[x].observations <= b[x].observations
  }

  lemma {:induction false} EnteredExtends(hs: Histories, archive: nat, es: seq<Entry>)
    ensures Extends(hs, Entered(hs, archive, es))
    decreases |es|
  {
    if es != [] { EnteredExtends(hs, archive, es[..|es| - 1]); }
  }

  lemma TakenExtends(hs: Histories, b: Batch, gaps: bool)
    ensures Extends(hs, Taken(hs, b, gaps))
  {
    EnteredExtends(hs, b.archive, b.entries);
  }
}
