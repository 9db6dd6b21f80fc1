/** The ledger of announced subjects, and the tombstones a deletion owes to each owner.

    A subject is an archive, a conversation or a project; its identity is never given out twice. A
    fact that announces a subject and the subject's ledger row are stored in one transaction. */
module Announcements {
  import opened Orders
  import opened DeletionInventory

  /** A subject and an owner it was announced under. */
  datatype Pair = Pair(subject: Subject, owner: nat)

  datatype Tombstone = Tombstone(subject: Subject, owner: nat, archive: nat)

  datatype State = State(
    present: map<Subject, nat>,       // subject to the account it belongs to
    used: set<Subject>,               // subjects ever given out
    keys: set<nat>,                   // deduplication keys of stored facts
    ledger: map<Pair, nat>,           // pair to the archive it was announced under
    tombstones: multiset<Tombstone>,  // every tombstone ever stored
    first: map<Pair, nat>             // every pair ever announced, with its first archive
  )

  const INIT := State(map[], {}, {}, map[], multiset{}, map[])

  /** `enqueue_normalized_event`: a fact whose key is taken is not stored and records nothing; the
      ledger keeps the archive of the first announcement. */
  function Announced(s: State, p: Pair, archive: nat, key: nat): State {
    if key in s.keys then s
    else s.(keys := s.keys + {key},
            ledger := if p in s.ledger then s.ledger else s.ledger[p := archive],
            first := if p in s.first then s.first else s.first[p := archive])
  }

  function Owed(ledger: map<Pair, nat>, removed: set<Subject>): set<Tombstone> {
    set p | p in ledger && p.subject in removed :: Tombstone(p.subject, p.owner, ledger[p])
  }

  /** Phase A: the ledger is read, the rows that leave go, one tombstone per retracted subject and owner
      comes, and the ledger rows of the retracted subjects go; with the account go all its ledger rows. */
  function Deleted(s: State, account: nat, leaving: set<Subject>, retracting: set<Subject>, tenant: bool): State {
    s.(present := s.present - leaving,
       tombstones := s.tombstones + multiset(Owed(s.ledger, retracting)),
       ledger := map p | p in s.ledger && p.subject !in retracting && !(tenant && OfAccount(s, account, p.subject))
                      :: s.ledger[p])
  }

  /** The subjects that leave the tables by a plan. */
  ghost function Leaving(s: State, c: Scope): set<Subject> {
    set x | x in s.present && Leaves(c, x)
  }

  /** The subjects of a plan's tombstones. */
  function Retracting(c: Scope): set<Subject> {
    set item | item in Items(c) && item.DownstreamTombstone? :: item.subject
  }

  datatype Action =
    | Create(subject: Subject, account: nat)
    | Announce(pair: Pair, archive: nat, key: nat)
    | Delete(owner: nat, plan: Scope, tenant: bool)

  predicate OfAccount(s: State, account: nat, x: Subject) {
    x in s.present && s.present[x] == account
  }

  /** A plan is of one account; what it names may have left since it was made. The account itself goes
      only when nothing of it is left: rows that still refer to it refuse its removal. */
  ghost predicate Enabled(s: State, a: Action) {
    match a
    case Create(x, account) => x !in s.used
    case Announce(p, archive, key) => p.subject in s.present
    case Delete(account, c, tenant) =>
      && IdentitiesApart(c)
      && (forall x :: x in Leaving(s, c) ==> OfAccount(s, account, x))
      && (tenant ==> forall x :: OfAccount(s, account, x) ==> x in Leaving(s, c))
  }

  ghost function Apply(s: State, a: Action): State
    requires Enabled(s, a)
  {
    match a
    case Create(x, account) => s.(present := s.present[x := account], used := s.used + {x})
    case Announce(p, archive, key) => Announced(s, p, archive, key)
    case Delete(account, c, tenant) => Deleted(s, account, Leaving(s, c), Retracting(c), tenant)
  }

  ghost predicate IsRun(states: seq<State>, actions: seq<Action>) {
    && |states| == |actions| + 1
    && states[0] == INIT
    && forall i :: 0 <= i < |actions| ==>
         Enabled(states[i], actions[i]) && states[i + 1] == Apply(states[i], actions[i])
  }

  // ---------------------------------------------------------------- conservation

  /** How many tombstones the pair has, whatever archive they name. */
  ghost predicate NoTombstone(s: State, p: Pair) {
    forall archive: nat :: s.tombstones[Tombstone(p.subject, p.owner, archive)] == 0
  }

  ghost predicate OneTombstone(s: State, p: Pair)
    requires p in s.first
  {
    forall archive: nat ::
      s.tombstones[Tombstone(p.subject, p.owner, archive)] == if archive == s.first[p] then 1 else 0
  }

  /** Still announced: in the ledger, its record there, nothing retracted. */
  ghost predicate Standing(s: State, p: Pair)
    requires p in s.first
  {
    p in s.ledger && s.ledger[p] == s.first[p] && p.subject in s.present && NoTombstone(s, p)
  }

  /** Retracted: out of the ledger, its record gone, one tombstone for its owner, which names the
      archive the pair was first announced under. */
  ghost predicate Retracted(s: State, p: Pair)
    requires p in s.first
  {
    p !in s.ledger && p.subject !in s.present && OneTombstone(s, p)
  }

  ghost predicate Conserved(s: State) {
    && s.present.Keys <= s.used
    && (forall p :: p in s.ledger ==> p in s.first)
    && (forall p :: p in s.first ==> p.subject in s.used && (Standing(s, p) || Retracted(s, p)))
    && (forall t :: t in s.tombstones ==> Pair(t.subject, t.owner) in s.first)
  }

  lemma AnnounceKeeps(s: State, p: Pair, archive: nat, key: nat)
    requires Conserved(s) && p.subject in s.present
    ensures Conserved(Announced(s, p, archive, key))
  {
    var s' := Announced(s, p, archive, key);
    forall q | q in s'.first ensures Standing(s', q) || Retracted(s', q) {
      if q in s.first {
        assert Standing(s, q) || Retracted(s, q);
      } else if key !in s.keys {
        forall a: nat ensures s.tombstones[Tombstone(q.subject, q.owner, a)] == 0 {
          assert Tombstone(q.subject, q.owner, a) in s.tombstones ==> q == Pair(q.subject, q.owner) && q in s.first;
        }
      }
    }
  }

  /** What a plan retracts is what leaves by it, of the subjects still present. */
  lemma PlanRetracts(s: State, c: Scope)
    requires IdentitiesApart(c)
    ensures Retracting(c) * s.present.Keys == Leaving(s, c)
  {
    forall x ensures x in Retracting(c) <==> IsRetracted(c, x) {
      if IsRetracted(c, x) { assert DownstreamTombstone(x).subject in Retracting(c); }
    }
    assert VerdictsAgree(c);
    forall x ensures Leaves(c, x) <==> IsRetracted(c, x) { RetractsWhatLeaves(c, x); }
  }

  ghost predicate Applies(s: State, account: nat, leaving: set<Subject>, retracting: set<Subject>, tenant: bool) {
    && retracting * s.present.Keys == leaving
    && (tenant ==> forall x :: OfAccount(s, account, x) ==> x in leaving)
  }

  lemma OwedExactlyWhen(ledger: map<Pair, nat>, removed: set<Subject>, p: Pair, archive: nat)
    ensures Tombstone(p.subject, p.owner, archive) in Owed(ledger, removed)
       <==> p in ledger && p.subject in removed && archive == ledger[p]
  {
    var t, owed := Tombstone(p.subject, p.owner, archive), Owed(ledger, removed);
    if p in ledger && p.subject in removed && archive == ledger[p] { assert t in owed; }
    if t in owed {
      var q :| q in ledger && q.subject in removed && t == Tombstone(q.subject, q.owner, ledger[q]);
      assert q == p;
    }
  }

  lemma DeleteKeepsPair(s: State, account: nat, leaving: set<Subject>, retracting: set<Subject>, tenant: bool, p: Pair)
    requires Conserved(s) && Applies(s, account, leaving, retracting, tenant) && p in s.first
    ensures var s' := Deleted(s, account, leaving, retracting, tenant); Standing(s', p) || Retracted(s', p)
  {
    var s' := Deleted(s, account, leaving, retracting, tenant);
    forall archive: nat
      ensures Tombstone(p.subject, p.owner, archive) in Owed(s.ledger, retracting)
         <==> p in s.ledger && p.subject in retracting && archive == s.ledger[p]
    {
      OwedExactlyWhen(s.ledger, retracting, p, archive);
    }
    if Standing(s, p) && p.subject !in leaving {
      assert Standing(s', p);
    } else {
      assert Retracted(s', p);
    }
  }

  lemma DeleteKeeps(s: State, account: nat, leaving: set<Subject>, retracting: set<Subject>, tenant: bool)
    requires Conserved(s) && Applies(s, account, leaving, retracting, tenant)
    ensures Conserved(Deleted(s, account, leaving, retracting, tenant))
  {
    var s' := Deleted(s, account, leaving, retracting, tenant);
    forall p | p in s'.first ensures Standing(s', p) || Retracted(s', p) {
      DeleteKeepsPair(s, account, leaving, retracting, tenant, p);
    }
    forall t | t in s'.tombstones ensures Pair(t.subject, t.owner) in s'.first {
      if t !in s.tombstones {
        assert t in Owed(s.ledger, retracting);
      }
    }
  }

  /** Every subject and owner ever announced is either still in the ledger with its record present, or
      has exactly one tombstone and no ledger row, in every state of every run. */
  lemma {:induction false} AnnouncementsAreConserved(states: seq<State>, actions: seq<Action>, i: nat)
    requires IsRun(states, actions) && i < |states|
    ensures Conserved(states[i])
  {
    if i > 0 {
      AnnouncementsAreConserved(states, actions, i - 1);
      var s, a := states[i - 1], actions[i - 1];
      match a
      case Create(x, account) => CreateKeeps(s, x, account);
      case Announce(p, archive, key) => AnnounceKeeps(s, p, archive, key);
      case Delete(account, c, tenant) =>
        PlanRetracts(s, c);
        DeleteKeeps(s, account, Leaving(s, c), Retracting(c), tenant);
    }
  }

  lemma CreateKeeps(s: State, x: Subject, account: nat)
    requires Conserved(s) && x !in s.used
    ensures Conserved(Apply(s, Create(x, account)))
  {
    var s' := Apply(s, Create(x, account));
    forall p | p in s'.first ensures Standing(s', p) || Retracted(s', p) {
      assert Standing(s, p) || Retracted(s, p);
    }
  }

  // ---------------------------------------------------------------- the ledger as tables

  class Ledger {
    var keys: set<nat>
    var ledger: map<Pair, nat>
    var tombstones: multiset<Tombstone>

    constructor ()
      ensures keys == {} && ledger == map[] && tombstones == multiset{}
    {
      keys, ledger, tombstones := {}, map[], multiset{};
    }

    /** Stores an announcing fact and its ledger row together, or neither. */
    method Enqueue(p: Pair, archive: nat, key: nat) returns (added: bool)
      modifies this`keys, this`ledger
      ensures added <==> key !in old(keys)
      ensures added ==> p in ledger && keys == old(keys) + {key}
      ensures forall q :: q in ledger <==> q in old(ledger) || (added && q == p)
      ensures forall q :: q in old(ledger) ==> ledger[q] == old(ledger)[q]
      ensures p in ledger && p !in old(ledger) ==> ledger[p] == archive
      ensures !added ==> keys == old(keys)
    {
      if key in keys { return false; }
      keys := keys + {key};
      if p !in ledger { ledger := ledger[p := archive]; }
      added := true;
    }

    method OwnersOf(x: Subject) returns (owners: seq<nat>)
      ensures StrictlyAscending(owners)
      ensures forall o :: o in owners <==> Pair(x, o) in ledger
    {
      var found := set p | p in ledger && p.subject == x :: p.owner;
      owners := Ordered(found);
      forall o ensures o in owners <==> Pair(x, o) in ledger {
        assert Pair(x, o) in ledger ==> o in found;
      }
    }

    method StoreTombstones(x: Subject, owners: seq<nat>)
      requires StrictlyAscending(owners) && forall i :: 0 <= i < |owners| ==> Pair(x, owners[i]) in ledger
      modifies this`tombstones
      ensures tombstones == old(tombstones) + multiset(OwedTo(ledger, x, owners))
    {
      assert OwedTo(ledger, x, owners[..0]) == {};
      for i := 0 to |owners|
        invariant tombstones == old(tombstones) + multiset(OwedTo(ledger, x, owners[..i]))
      {
        OwedToStep(ledger, x, owners, i);
        tombstones := tombstones + multiset{Tombstone(x, owners[i], ledger[Pair(x, owners[i])])};
      }
      assert owners[..|owners|] == owners;
    }

    /** The tombstones of one subject, owner by owner, and the end of its ledger rows. */
    method Retract(x: Subject)
      modifies this`ledger, this`tombstones
      ensures tombstones == old(tombstones) + multiset(Owed(old(ledger), {x}))
      ensures ledger == Without(old(ledger), {x})
    {
      var owners := OwnersOf(x);
      assert forall i :: 0 <= i < |owners| ==> owners[i] in owners;
      StoreTombstones(x, owners);
      OwedToAll(ledger, x, owners);
      ledger := Without(ledger, {x});
    }

    /** The tombstones of a deletion, subject by subject: each pair of the scope once. */
    method InsertTombstones(removed: set<Subject>)
      modifies this`ledger, this`tombstones
      ensures tombstones == old(tombstones) + multiset(Owed(old(ledger), removed))
      ensures ledger == Without(old(ledger), removed)
    {
      var rest := removed;
      assert Owed(ledger, {}) == {};
      while rest != {}
        invariant rest <= removed
        invariant tombstones == old(tombstones) + multiset(Owed(old(ledger), removed - rest))
        invariant ledger == Without(old(ledger), removed - rest)
        decreases rest
      {
        var x :| x in rest;
        OwedOneMore(old(ledger), removed - rest, x);
        assert removed - rest + {x} == removed - (rest - {x});
        Retract(x);
        rest := rest - {x};
      }
      assert removed - {} == removed;
    }
  }

  function Without(ledger: map<Pair, nat>, removed: set<Subject>): map<Pair, nat> {
    map p | p in ledger && p.subject !in removed :: ledger[p]
  }

  ghost function OwedTo(ledger: map<Pair, nat>, x: Subject, owners: seq<nat>): set<Tombstone> {
    set o | o in owners && Pair(x, o) in ledger :: Tombstone(x, o, ledger[Pair(x, o)])
  }

  lemma OwedToStep(ledger: map<Pair, nat>, x: Subject, owners: seq<nat>, i: nat)
    requires i < |owners| && StrictlyAscending(owners) && Pair(x, owners[i]) in ledger
    ensures multiset(OwedTo(ledger, x, owners[..i + 1]))
         == multiset(OwedTo(ledger, x, owners[..i])) + multiset{Tombstone(x, owners[i], ledger[Pair(x, owners[i])])}
  {
    var t, before := Tombstone(x, owners[i], ledger[Pair(x, owners[i])]), OwedTo(ledger, x, owners[..i]);
    assert owners[i] !in owners[..i];
    assert t !in before;
    assert OwedTo(ledger, x, owners[..i + 1]) == before + {t} by {
      assert owners[..i + 1] == owners[..i] + [owners[i]];
    }
  }

  lemma OwedToAll(ledger: map<Pair, nat>, x: Subject, owners: seq<nat>)
    requires forall o :: o in owners <==> Pair(x, o) in ledger
    ensures OwedTo(ledger, x, owners) == Owed(ledger, {x})
  {
    forall t ensures t in OwedTo(ledger, x, owners) <==> t in Owed(ledger, {x}) {
      if t in OwedTo(ledger, x, owners) {
        assert Pair(x, t.owner) in ledger;
      }
      if t in Owed(ledger, {x}) {
        var p :| p in ledger && p.subject in {x} && t == Tombstone(p.subject, p.owner, ledger[p]);
        assert p == Pair(x, t.owner) && t.owner in owners;
      }
    }
  }

  /** Retracting one more subject owes its tombstones and no other's again. */
  lemma OwedOneMore(ledger: map<Pair, nat>, done: set<Subject>, x: Subject)
    requires x !in done
    ensures multiset(Owed(ledger, done + {x}))
            == multiset(Owed(ledger, done)) + multiset(Owed(Without(ledger, done), {x}))
    ensures Without(Without(ledger, done), {x}) == Without(ledger, done + {x})
  {
    var a, b, both := Owed(ledger, done), Owed(Without(ledger, done), {x}), Owed(ledger, done + {x});
    assert a !! b;
    forall t ensures t in both <==> t in a + b {
      if t in both {
        var p :| p in ledger && p.subject in done + {x} && t == Tombstone(p.subject, p.owner, ledger[p]);
        assert p.subject !in done ==> p in Without(ledger, done);
      }
    }
    assert both == a + b;
  }
}
