/** Reconciling cumulative snapshots into one history per conversation, project, canvas document and
    asset, with the histories of messages and instructions inside them. */
module Reconciliation {
  import opened Orders
  import opened Chronicle

  /** A message or an instruction; only messages have parents. */
  datatype Child = Child(id: nat, digest: nat, parent: Option<nat>)

  datatype Record = Record(id: nat, digest: nat, children: seq<Child>)

  datatype Snapshot = Snapshot(
    archive: nat, conversations: seq<Record>, projects: seq<Record>, canvases: seq<Record>, assets: seq<Record>)

  datatype Family = Family(own: Histories, children: map<nat, Histories>)

  datatype Statistics = Statistics(added: nat, reused: nat, present: nat, missing: nat)

  datatype Report = Report(archive: nat, conversations: nat, messages: nat, statistics: Statistics)

  datatype Result = Result(conversations: Family, projects: Family,
      canvases: Family, assets: Family, reports: seq<Report>)

  const NOBODY := Family(map[], map[])

  // ---------------------------------------------------------------- one kind of record

  predicate HasChild(r: Record, id: nat) {
    exists i :: 0 <= i < |r.children| && r.children[i].id == id
  }

  /** A parent that is the message itself or is not a message of the conversation. */
  predicate LosesParent(r: Record, c: Child) {
    c.parent.Some? && (c.parent.value == c.id || !HasChild(r, c.parent.value))
  }

  /** The conversation and message ids of orphaned messages anywhere in a snapshot. */
  function Orphans(rs: seq<Record>): set<(nat, nat)> {
    set i, j | 0 <= i < |rs| && 0 <= j < |rs[i].children| && LosesParent(rs[i], rs[i].children[j]) ::
      (rs[i].id, rs[i].children[j].id)
  }

  function ChildEntries(r: Record, orphans: set<(nat, nat)>): seq<Entry> {
    seq(|r.children|, i requires 0 <= i < |r.children| =>
      Entry(r.children[i].id, r.children[i].digest, (r.id, r.children[i].id) in orphans))
  }

  function EntryOf(r: Record): Entry {
    Entry(r.id, r.digest, false)
  }

  function Entries(rs: seq<Record>): seq<Entry> {
    seq(|rs|, i requires 0 <= i < |rs| => EntryOf(rs[i]))
  }

  function ChildrenOf(f: Family, id: nat): Histories {
    if id in f.children then f.children[id] else map[]
  }

  function Observed(f: Family, archive: nat, r: Record, orphans: set<(nat, nat)>, gaps: bool): Family {
    Family(f.own[r.id := Present(Of(f.own, r.id), archive, EntryOf(r))],
           f.children[r.id := Taken(ChildrenOf(f, r.id), Batch(archive, ChildEntries(r, orphans)), gaps)])
  }

  function ObservedAll(f: Family, archive: nat, rs: seq<Record>, orphans: set<(nat, nat)>, gaps: bool): Family
    decreases |rs|
  {
    if rs == [] then f
    else Observed(ObservedAll(f, archive, rs[..|rs| - 1], orphans, gaps), archive, rs[|rs| - 1], orphans, gaps)
  }

  /** Records the snapshot leaves out are missing; so are their children, where gaps are kept. */
  function Lapsed(f: Family, archive: nat, rs: seq<Record>, gaps: bool): Family {
    Family(Gapped(f.own, Batch(archive, Entries(rs))),
           map x | x in f.children ::
             if Names(Entries(rs), x) then f.children[x] else Taken(f.children[x], Batch(archive, []), gaps))
  }

  function Advanced(f: Family, archive: nat, rs: seq<Record>, orphans: set<(nat, nat)>, gaps: bool): Family {
    Lapsed(ObservedAll(f, archive, rs, orphans, gaps), archive, rs, gaps)
  }

  // ---------------------------------------------------------------- statistics

  /** How many of the entries bring a digest their history does not have yet. */
  function News(hs: Histories, archive: nat, es: seq<Entry>): (n: nat)
    ensures n <= |es|
    decreases |es|
  {
    if es == [] then 0 else
      var front, e := es[..|es| - 1], es[|es| - 1];
      News(hs, archive, front) + if e.digest in Of(Entered(hs, archive, front), e.id).revisions then 0 else 1
  }

  /** New revisions of the conversation and its messages, and messages that brought none. */
  function Counted(f: Family, archive: nat, r: Record, orphans: set<(nat, nat)>): Statistics {
    var es := ChildEntries(r, orphans);
    var news := News(ChildrenOf(f, r.id), archive, es);
    Statistics((if r.digest in Of(f.own, r.id).revisions then 0 else 1) + news, |es| - news, 0, 0)
  }

  function Plus(a: Statistics, b: Statistics): Statistics {
    Statistics(a.added + b.added, a.reused + b.reused, a.present + b.present, a.missing + b.missing)
  }

  function CountedAll(f: Family, archive: nat, rs: seq<Record>, orphans: set<(nat, nat)>): Statistics
    decreases |rs|
  {
    if rs == [] then Statistics(0, 0, 0, 0) else
      var front := rs[..|rs| - 1];
      Plus(CountedAll(f, archive, front, orphans),
          Counted(ObservedAll(f, archive, front, orphans, false), archive, rs[|rs| - 1], orphans))
  }

  function Absent(hs: Histories, rs: seq<Record>): set<nat> {
    set x | x in hs && !Names(Entries(rs), x)
  }

  function Messages(rs: seq<Record>): nat
    decreases |rs|
  {
    if rs == [] then 0 else Messages(rs[..|rs| - 1]) + |rs[|rs| - 1].children|
  }

  function ReportOf(f: Family, s: Snapshot): Report {
    var orphans := Orphans(s.conversations);
    var counted := CountedAll(f, s.archive, s.conversations, orphans);
    var observed := ObservedAll(f, s.archive, s.conversations, orphans, false);
    Report(s.archive, |s.conversations|, Messages(s.conversations),
           counted.(present := |s.conversations|, missing := |Absent(observed.own, s.conversations)|))
  }

  // ---------------------------------------------------------------- all snapshots

  function AdvancedBy(r: Result, s: Snapshot): Result {
    Result(Advanced(r.conversations, s.archive, s.conversations, Orphans(s.conversations), false),
           Advanced(r.projects, s.archive, s.projects, {}, true),
           Advanced(r.canvases, s.archive, s.canvases, {}, true),
           Advanced(r.assets, s.archive, s.assets, {}, true),
           r.reports + [ReportOf(r.conversations, s)])
  }

  function Reconciled(snapshots: seq<Snapshot>): Result
    decreases |snapshots|
  {
    if snapshots == [] then Result(NOBODY, NOBODY, NOBODY, NOBODY, [])
    else AdvancedBy(Reconciled(snapshots[..|snapshots| - 1]), snapshots[|snapshots| - 1])
  }
}
