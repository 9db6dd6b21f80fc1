/** What a deletion plans to remove, and the subjects it plans to retract downstream.

    The plan lists them apart: rows are removed by the category and action of their items, tombstones
    are read back from items of their own. */
module DeletionInventory {

  datatype Kind = Archive | Project | Conversation | Message | Asset

  datatype Subject = Subject(kind: Kind, id: nat)

  datatype Verdict = Remove | RetainEvidenced

  datatype Item =
    | Export(id: nat)
    | Entity(kind: Kind, id: nat, verdict: Verdict)
    | DownstreamTombstone(subject: Subject)

  datatype SelectedExport = SelectedExport(id: nat, archive: nat)

  /** What planning reads: the selected exports, the entities in their scope, and which of those some
      other export still evidences. */
  datatype Scope = Scope(exports: seq<SelectedExport>, projects: seq<nat>, conversations: seq<nat>,
                         messages: seq<nat>, assets: seq<nat>, evidenced: set<Subject>)

  function VerdictOf(c: Scope, kind: Kind, id: nat): Verdict {
    if Subject(kind, id) in c.evidenced then RetainEvidenced else Remove
  }

  // ---------------------------------------------------------------- the items

  function ExportItems(xs: seq<SelectedExport>): seq<Item> {
    seq(|xs|, i requires 0 <= i < |xs| => Export(xs[i].id))
  }

  function EntityItems(c: Scope, kind: Kind, ids: seq<nat>): seq<Item> {
    seq(|ids|, i requires 0 <= i < |ids| => Entity(kind, ids[i], VerdictOf(c, kind, ids[i])))
  }

  function Verdicts(c: Scope, kind: Kind, ids: seq<nat>): map<nat, Verdict> {
    map id | id in ids :: VerdictOf(c, kind, id)
  }

  /** The verdicts as they are looked up: by identity alone, the last kind that names it winning. */
  function Actions(c: Scope): map<nat, Verdict> {
    Verdicts(c, Project, c.projects) + Verdicts(c, Conversation, c.conversations)
    + Verdicts(c, Message, c.messages) + Verdicts(c, Asset, c.assets)
  }

  predicate Removes(actions: map<nat, Verdict>, id: nat) {
    id in actions && actions[id] == Remove
  }

  function TombstoneItems(actions: map<nat, Verdict>, kind: Kind, ids: seq<nat>): seq<Item>
    decreases |ids|
  {
    if ids == [] then [] else
      var n := |ids| - 1;
      TombstoneItems(actions, kind, ids[..n])
      + if Removes(actions, ids[n]) then [DownstreamTombstone(Subject(kind, ids[n]))] else []
  }

  function ArchiveItems(xs: seq<SelectedExport>): seq<Item> {
    seq(|xs|, i requires 0 <= i < |xs| => DownstreamTombstone(Subject(Archive, xs[i].archive)))
  }

  function Rows(c: Scope): seq<Item> {
    ExportItems(c.exports) + EntityItems(c, Project, c.projects) + EntityItems(c, Conversation, c.conversations)
    + EntityItems(c, Message, c.messages) + EntityItems(c, Asset, c.assets)
  }

  function Retractions(c: Scope): seq<Item> {
    TombstoneItems(Actions(c), Project, c.projects) + TombstoneItems(Actions(c), Conversation, c.conversations)
    + ArchiveItems(c.exports)
  }

  function Items(c: Scope): seq<Item> {
    Rows(c) + Retractions(c)
  }

  // ---------------------------------------------------------------- what the two lists say

  /** An archive leaves with the export that brought it; a project or a conversation with its row. */
  ghost predicate Leaves(c: Scope, x: Subject) {
    match x.kind
    case Archive => exists e :: e in c.exports && e.archive == x.id && Export(e.id) in Items(c)
    case Project => Entity(Project, x.id, Remove) in Items(c)
    case Conversation => Entity(Conversation, x.id, Remove) in Items(c)
    case _ => false
  }

  ghost predicate IsRetracted(c: Scope, x: Subject) {
    DownstreamTombstone(x) in Items(c)
  }

  /** The verdict found for a project or a conversation is the one it was given: no entity of a later
      kind has its identity and another verdict. */
  ghost predicate Agrees(c: Scope, kind: Kind, id: nat) {
    && (kind == Project && id in c.conversations && id !in c.messages && id !in c.assets
        ==> VerdictOf(c, Conversation, id) == VerdictOf(c, kind, id))
    && (id in c.messages && id !in c.assets ==> VerdictOf(c, Message, id) == VerdictOf(c, kind, id))
    && (id in c.assets ==> VerdictOf(c, Asset, id) == VerdictOf(c, kind, id))
  }

  ghost predicate VerdictsAgree(c: Scope) {
    && (forall id :: id in c.projects ==> Agrees(c, Project, id))
    && (forall id :: id in c.conversations ==> Agrees(c, Conversation, id))
  }

  /** No identity is given out for two kinds. */
  ghost predicate IdentitiesApart(c: Scope) {
    && (forall id :: id in c.projects ==> id !in c.conversations && id !in c.messages && id !in c.assets)
    && (forall id :: id in c.conversations ==> id !in c.messages && id !in c.assets)
  }

  lemma {:induction false} TombstoneListed(actions: map<nat, Verdict>, kind: Kind, ids: seq<nat>, item: Item)
    ensures item in TombstoneItems(actions, kind, ids)
       <==> item.DownstreamTombstone? && item.subject.kind == kind
            && item.subject.id in ids && Removes(actions, item.subject.id)
    decreases |ids|
  {
    if ids != [] {
      var n := |ids| - 1;
      TombstoneListed(actions, kind, ids[..n], item);
      assert ids == ids[..n] + [ids[n]];
    }
  }

  lemma ExportListed(xs: seq<SelectedExport>, e: SelectedExport)
    requires e in xs
    ensures Export(e.id) in ExportItems(xs)
  {
    var i :| 0 <= i < |xs| && xs[i] == e;
    assert ExportItems(xs)[i] == Export(e.id);
  }

  lemma EntityListed(c: Scope, kind: Kind, ids: seq<nat>, id: nat)
    ensures Entity(kind, id, Remove) in EntityItems(c, kind, ids) <==> id in ids && VerdictOf(c, kind, id) == Remove
  {
    if id in ids && VerdictOf(c, kind, id) == Remove {
      var i :| 0 <= i < |ids| && ids[i] == id;
      assert EntityItems(c, kind, ids)[i] == Entity(kind, id, Remove);
    }
  }

  lemma ArchiveListed(xs: seq<SelectedExport>, id: nat)
    ensures DownstreamTombstone(Subject(Archive, id)) in ArchiveItems(xs) <==> exists e :: e in xs && e.archive == id
  {
    if e :| e in xs && e.archive == id {
      var i :| 0 <= i < |xs| && xs[i] == e;
      assert ArchiveItems(xs)[i] == DownstreamTombstone(Subject(Archive, id));
    }
    if DownstreamTombstone(Subject(Archive, id)) in ArchiveItems(xs) {
      var i :| 0 <= i < |xs| && ArchiveItems(xs)[i] == DownstreamTombstone(Subject(Archive, id));
      assert xs[i] in xs && xs[i].archive == id;
    }
  }

  lemma EntityLeaves(c: Scope, kind: Kind, ids: seq<nat>, id: nat)
    requires (kind == Project && ids == c.projects) || (kind == Conversation && ids == c.conversations)
    ensures Entity(kind, id, Remove) in Items(c) <==> id in ids && VerdictOf(c, kind, id) == Remove
  {
    var item := Entity(kind, id, Remove);
    EntityListed(c, kind, ids, id);
    NotRetraction(c, item);
    assert item in Rows(c) <==> item in EntityItems(c, kind, ids);
  }

  /** What leaves, said of the scope instead of the items. */
  lemma LeavesExactlyWhen(c: Scope, x: Subject)
    ensures x.kind == Project ==> (Leaves(c, x) <==> x.id in c.projects && VerdictOf(c, Project, x.id) == Remove)
    ensures x.kind == Conversation ==>
              (Leaves(c, x) <==> x.id in c.conversations && VerdictOf(c, Conversation, x.id) == Remove)
    ensures x.kind == Archive ==> (Leaves(c, x) <==> exists e :: e in c.exports && e.archive == x.id)
  {
    if x.kind == Project { EntityLeaves(c, Project, c.projects, x.id); }
    if x.kind == Conversation { EntityLeaves(c, Conversation, c.conversations, x.id); }
    if x.kind == Archive {
      forall e | e in c.exports ensures Export(e.id) in Items(c) { ExportListed(c.exports, e); }
    }
  }

  /** Rows and retractions are items of different categories. */
  lemma NotRetraction(c: Scope, item: Item)
    ensures item.DownstreamTombstone? ==> item !in Rows(c)
    ensures !item.DownstreamTombstone? ==> item !in Retractions(c)
  {
    TombstoneListed(Actions(c), Project, c.projects, item);
    TombstoneListed(Actions(c), Conversation, c.conversations, item);
  }

  lemma RetractedExactlyWhen(c: Scope, x: Subject)
    ensures x.kind == Project ==> (IsRetracted(c, x) <==> x.id in c.projects && Removes(Actions(c), x.id))
    ensures x.kind == Conversation ==> (IsRetracted(c, x) <==> x.id in c.conversations && Removes(Actions(c), x.id))
    ensures x.kind == Archive ==> (IsRetracted(c, x) <==> exists e :: e in c.exports && e.archive == x.id)
    ensures x.kind == Message || x.kind == Asset ==> !IsRetracted(c, x)
  {
    var item := DownstreamTombstone(x);
    NotRetraction(c, item);
    TombstoneListed(Actions(c), Project, c.projects, item);
    TombstoneListed(Actions(c), Conversation, c.conversations, item);
    ArchiveListed(c.exports, x.id);
  }

  /** The verdict looked up for an entity is its own exactly when the verdicts agree. */
  lemma LookedUp(c: Scope, kind: Kind, id: nat)
    requires (kind == Project && id in c.projects) || (kind == Conversation && id in c.conversations)
    ensures (Removes(Actions(c), id) <==> VerdictOf(c, kind, id) == Remove) <==> Agrees(c, kind, id)
  {
  }

  /** The subjects retracted downstream are exactly the projects, conversations and archives that leave
      if and only if no verdict is hidden by another kind's. */
  lemma RetractsWhatLeavesExactlyWhen(c: Scope)
    ensures (forall x :: Leaves(c, x) <==> IsRetracted(c, x)) <==> VerdictsAgree(c)
  {
    if VerdictsAgree(c) {
      forall x ensures Leaves(c, x) <==> IsRetracted(c, x) { RetractsWhatLeaves(c, x); }
    }
    if forall x :: Leaves(c, x) <==> IsRetracted(c, x) {
      forall id | id in c.projects ensures Agrees(c, Project, id) { AgreesWhenRetracted(c, Project, id); }
      forall id | id in c.conversations ensures Agrees(c, Conversation, id) {
        AgreesWhenRetracted(c, Conversation, id);
      }
    }
  }

  lemma RetractsWhatLeaves(c: Scope, x: Subject)
    requires VerdictsAgree(c)
    ensures Leaves(c, x) <==> IsRetracted(c, x)
  {
    LeavesExactlyWhen(c, x);
    RetractedExactlyWhen(c, x);
    if x.kind == Project && x.id in c.projects { LookedUp(c, Project, x.id); }
    if x.kind == Conversation && x.id in c.conversations { LookedUp(c, Conversation, x.id); }
  }

  lemma AgreesWhenRetracted(c: Scope, kind: Kind, id: nat)
    requires (kind == Project && id in c.projects) || (kind == Conversation && id in c.conversations)
    requires Leaves(c, Subject(kind, id)) <==> IsRetracted(c, Subject(kind, id))
    ensures Agrees(c, kind, id)
  {
    LeavesExactlyWhen(c, Subject(kind, id));
    RetractedExactlyWhen(c, Subject(kind, id));
    LookedUp(c, kind, id);
  }

  // ---------------------------------------------------------------- the planner's inventory

  lemma VerdictsNext(c: Scope, kind: Kind, ids: seq<nat>, i: nat, before: map<nat, Verdict>)
    requires i < |ids|
    ensures (before + Verdicts(c, kind, ids[..i]))[ids[i] := VerdictOf(c, kind, ids[i])]
         == before + Verdicts(c, kind, ids[..i + 1])
  {
    var a, b := ids[..i], ids[..i + 1];
    assert b == a + [ids[i]];
    forall id ensures id in b <==> id in a || id == ids[i] {}
    assert Verdicts(c, kind, b) == Verdicts(c, kind, a)[ids[i] := VerdictOf(c, kind, ids[i])];
  }

  lemma Regrouped(a: seq<Item>, b: seq<Item>, c: seq<Item>, d: seq<Item>)
    ensures a + b + c + d == a + (b + c + d)
  {
  }

  class Inventory {
    var items: seq<Item>
    var actions: map<nat, Verdict>

    constructor ()
      ensures items == [] && actions == map[]
    {
      items, actions := [], map[];
    }

    method AddExports(xs: seq<SelectedExport>)
      modifies `items
      ensures items == old(items) + ExportItems(xs)
    {
      for i := 0 to |xs|
        invariant items == old(items) + ExportItems(xs)[..i]
      {
        items := items + [Export(xs[i].id)];
      }
    }

    /** Lists the entities of one kind, each with its verdict, and notes the verdict under its identity. */
    method AddEntityRows(c: Scope, kind: Kind, ids: seq<nat>)
      modifies this
      ensures items == old(items) + EntityItems(c, kind, ids)
      ensures actions == old(actions) + Verdicts(c, kind, ids)
    {
      for i := 0 to |ids|
        invariant items == old(items) + EntityItems(c, kind, ids)[..i]
        invariant actions == old(actions) + Verdicts(c, kind, ids[..i])
      {
        VerdictsNext(c, kind, ids, i, old(actions));
        var verdict := VerdictOf(c, kind, ids[i]);
        actions := actions[ids[i] := verdict];
        items := items + [Entity(kind, ids[i], verdict)];
      }
      assert ids[..|ids|] == ids && EntityItems(c, kind, ids)[..|ids|] == EntityItems(c, kind, ids);
    }

    /** A tombstone for each entity whose noted verdict is to remove it. */
    method AddTombstones(kind: Kind, ids: seq<nat>)
      modifies `items
      ensures items == old(items) + TombstoneItems(actions, kind, ids)
    {
      assert items == old(items) + TombstoneItems(actions, kind, ids[..0]);
      for i := 0 to |ids|
        invariant items == old(items) + TombstoneItems(actions, kind, ids[..i])
      {
        assert ids[..i + 1][..i] == ids[..i];
        if ids[i] in actions && actions[ids[i]] == Remove {
          items := items + [DownstreamTombstone(Subject(kind, ids[i]))];
        }
      }
      assert ids[..|ids|] == ids;
    }

    method AddArchiveTombstones(xs: seq<SelectedExport>)
      modifies `items
      ensures items == old(items) + ArchiveItems(xs)
    {
      for i := 0 to |xs|
        invariant items == old(items) + ArchiveItems(xs)[..i]
      {
        items := items + [DownstreamTombstone(Subject(Archive, xs[i].archive))];
      }
    }

    method AddAllEntityRows(c: Scope)
      requires items == ExportItems(c.exports) && actions == map[]
      modifies this
      ensures items == Rows(c) && actions == Actions(c)
    {
      AddEntityRows(c, Project, c.projects);
      assert actions == Verdicts(c, Project, c.projects);
      AddEntityRows(c, Conversation, c.conversations);
      AddEntityRows(c, Message, c.messages);
      AddEntityRows(c, Asset, c.assets);
    }

    method AddRetractions(c: Scope)
      requires actions == Actions(c)
      modifies `items
      ensures items == old(items) + Retractions(c)
    {
      AddTombstones(Project, c.projects);
      AddTombstones(Conversation, c.conversations);
      AddArchiveTombstones(c.exports);
      Regrouped(old(items), TombstoneItems(actions, Project, c.projects),
                TombstoneItems(actions, Conversation, c.conversations), ArchiveItems(c.exports));
    }

    /** The plan of a deletion, of an empty inventory. */
    method Plan(c: Scope)
      requires items == [] && actions == map[]
      modifies this
      ensures items == Items(c) && actions == Actions(c)
    {
      AddExports(c.exports);
      AddAllEntityRows(c);
      AddRetractions(c);
    }
  }
}
