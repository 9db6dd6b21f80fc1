/** What the erasure commands of a deletion or of the pump say: they partition the collected
    sequences, and the deduplicated insert leaves every one of them queued. */
module OutboxErasure {
  import opened Orders
  import opened OutboxModel

  // ---------------------------------------------------------------- chunking

  ghost function Flatten(chunks: seq<seq<nat>>): seq<nat> {
    if chunks == [] then [] else chunks[0] + Flatten(chunks[1..])
  }

  /** Every chunk is within the bound and not empty, only the last may be short, and the chunks put
      back together are the input: nothing is dropped, repeated or reordered. */
  lemma {:induction false} ChunksPartition(sequences: seq<nat>)
    ensures Flatten(Chunks(sequences)) == sequences
    ensures forall i :: 0 <= i < |Chunks(sequences)| ==> 0 < |Chunks(sequences)[i]| <= MAX_SEQUENCES_PER_COMMAND
    ensures forall i :: 0 <= i < |Chunks(sequences)| - 1 ==> |Chunks(sequences)[i]| == MAX_SEQUENCES_PER_COMMAND
    decreases |sequences|
  {
    if |sequences| > MAX_SEQUENCES_PER_COMMAND {
      var rest := sequences[MAX_SEQUENCES_PER_COMMAND..];
      ChunksPartition(rest);
      var chunks := Chunks(sequences);
      assert chunks[0] == sequences[..MAX_SEQUENCES_PER_COMMAND] && chunks[1..] == Chunks(rest);
      assert forall i :: 0 < i < |chunks| ==> chunks[i] == Chunks(rest)[i - 1];
    } else if sequences != [] {
      assert Chunks(sequences)[1..] == [];
      assert Flatten(Chunks(sequences)) == sequences + [];
    }
  }

  lemma {:induction false} InFlatten(chunks: seq<seq<nat>>, k: nat)
    ensures k in Flatten(chunks) <==> exists i :: 0 <= i < |chunks| && k in chunks[i]
  {
    if chunks != [] {
      InFlatten(chunks[1..], k);
      if i :| 0 <= i < |chunks[1..]| && k in chunks[1..][i] { assert k in chunks[i + 1]; }
      if i :| 0 <= i < |chunks| && k in chunks[i] {
        if i > 0 { assert chunks[1..][i - 1] == chunks[i]; }
      }
    }
  }

  /** Each chunk of an ascending whole is ascending, and ends before any later chunk begins. */
  lemma {:induction false} ChunksAscend(chunks: seq<seq<nat>>, i: nat, j: nat)
    requires StrictlyAscending(Flatten(chunks)) && i <= j < |chunks|
    ensures StrictlyAscending(chunks[i])
    ensures i < j ==> forall x, y :: x in chunks[i] && y in chunks[j] ==> x < y
    decreases |chunks|
  {
    var whole, rest := Flatten(chunks), Flatten(chunks[1..]);
    assert whole[..|chunks[0]|] == chunks[0] && whole[|chunks[0]|..] == rest;
    if i > 0 {
      ChunksAscend(chunks[1..], i - 1, j - 1);
    } else if j > 0 {
      forall x, y | x in chunks[0] && y in chunks[j] ensures x < y {
        assert chunks[1..][j - 1] == chunks[j];
        InFlatten(chunks[1..], y);
        assert y in rest;
        var a :| 0 <= a < |chunks[0]| && chunks[0][a] == x;
        var b :| 0 <= b < |rest| && rest[b] == y;
        assert whole[a] == x && whole[|chunks[0]| + b] == y;
      }
    }
  }

  /** The sequences each command names. */
  ghost function Named(qs: seq<Queued>): seq<seq<nat>> {
    seq(|qs|, i requires 0 <= i < |qs| => qs[i].erasure.sequences)
  }

  /** The commands of one owner carry that owner and consecutive keys, name at most 500 sequences
      each and at least one, and read one after the other they are the collected set in ascending
      order: a partition into ascending, disjoint runs. */
  lemma OwnerCommandsPartition(stem: Stem, owner: nat, sequences: set<nat>)
    ensures Flatten(Named(OwnerCommands(stem, owner, sequences))) == Ascending(sequences)
    ensures forall i :: 0 <= i < |OwnerCommands(stem, owner, sequences)| ==>
              var q := OwnerCommands(stem, owner, sequences)[i];
              && q.key == Key(stem, i) && q.erasure.owner == owner
              && 0 < |q.erasure.sequences| <= MAX_SEQUENCES_PER_COMMAND
  {
    ChunksPartition(Ascending(sequences));
    assert Named(OwnerCommands(stem, owner, sequences)) == Chunks(Ascending(sequences));
  }

  /** Exactly the collected sequences are named. */
  lemma OwnerCommandsName(stem: Stem, owner: nat, sequences: set<nat>, k: nat)
    ensures k in sequences <==> exists q :: q in OwnerCommands(stem, owner, sequences) && k in q.erasure.sequences
  {
    var qs := OwnerCommands(stem, owner, sequences);
    OwnerCommandsPartition(stem, owner, sequences);
    InFlatten(Named(qs), k);
    if k in sequences {
      var i :| 0 <= i < |Named(qs)| && k in Named(qs)[i];
      assert qs[i] in qs && k in qs[i].erasure.sequences;
    }
    if q :| q in qs && k in q.erasure.sequences {
      var i :| 0 <= i < |qs| && qs[i] == q;
      assert k in Named(qs)[i];
    }
  }

  /** A command of a deletion names only what was collected for its owner, under the request's key. */
  lemma {:induction false} DeletionCommandsSound(request: nat, facts: map<nat, set<nat>>, owners: seq<nat>, q: Queued)
    requires forall o :: o in owners ==> o in facts
    requires q in DeletionCommands(request, facts, owners)
    ensures q.erasure.owner in owners && q.key.stem == OfDeletion(request, q.erasure.owner)
    ensures forall k :: k in q.erasure.sequences ==> k in facts[q.erasure.owner]
  {
    if owners != [] {
      var here := OwnerCommands(OfDeletion(request, owners[0]), owners[0], facts[owners[0]]);
      if q in here {
        OwnerCommandsPartition(OfDeletion(request, owners[0]), owners[0], facts[owners[0]]);
        forall k | k in q.erasure.sequences ensures k in facts[owners[0]] {
          OwnerCommandsName(OfDeletion(request, owners[0]), owners[0], facts[owners[0]], k);
        }
      } else {
        DeletionCommandsSound(request, facts, owners[1..], q);
      }
    }
  }

  /** Whatever was collected for an owner is named by a command of that owner. */
  lemma {:induction false} DeletionCommandsComplete(
      request: nat, facts: map<nat, set<nat>>, owners: seq<nat>, o: nat, k: nat)
    requires forall o :: o in owners ==> o in facts
    requires o in owners && k in facts[o]
    ensures exists q ::
              q in DeletionCommands(request, facts, owners) && q.erasure.owner == o && k in q.erasure.sequences
  {
    var here := OwnerCommands(OfDeletion(request, owners[0]), owners[0], facts[owners[0]]);
    var there := DeletionCommands(request, facts, owners[1..]);
    if o == owners[0] {
      OwnerCommandsName(OfDeletion(request, o), o, facts[o], k);
      OwnerCommandsPartition(OfDeletion(request, o), o, facts[o]);
      var q :| q in here && k in q.erasure.sequences;
      assert q in here + there && q.erasure.owner == o;
    } else {
      DeletionCommandsComplete(request, facts, owners[1..], o, k);
      var q :| q in there && q.erasure.owner == o && k in q.erasure.sequences;
      assert q in here + there;
    }
  }

  // ---------------------------------------------------------------- the deduplicated insert

  ghost predicate DistinctKeys(qs: seq<Queued>) {
    forall i, j :: 0 <= i < j < |qs| ==> qs[i].key != qs[j].key
  }

  lemma OwnerKeysDistinct(stem: Stem, owner: nat, sequences: set<nat>)
    ensures DistinctKeys(OwnerCommands(stem, owner, sequences))
  {
  }

  lemma {:induction false} DeletionKeysDistinct(request: nat, facts: map<nat, set<nat>>, owners: seq<nat>)
    requires StrictlyAscending(owners) && forall o :: o in owners ==> o in facts
    ensures DistinctKeys(DeletionCommands(request, facts, owners))
  {
    if owners != [] {
      var o, rest := owners[0], owners[1..];
      var here, there := OwnerCommands(OfDeletion(request, o), o, facts[o]), DeletionCommands(request, facts, rest);
      DeletionKeysDistinct(request, facts, rest);
      var all := DeletionCommands(request, facts, owners);
      assert all == here + there;
      forall i, j | 0 <= i < j < |all| ensures all[i].key != all[j].key {
        if i < |here| && j >= |here| {
          DeletionCommandsSound(request, facts, rest, there[j - |here|]);
          assert here[i].key.stem == OfDeletion(request, o);
        }
      }
    }
  }

  /** Whether `row` is the queued form of `q`. */
  predicate IsQueued(row: Row, q: Queued) {
    row.key == Some(q.key) && row.kind == Command(q.erasure)
  }

  ghost predicate Queues(rows: map<nat, Row>, q: Queued) {
    exists id :: id in rows && IsQueued(rows[id], q)
  }

  /** A live row with one of these keys already says what the command would say. */
  ghost predicate KeysAgree(rows: map<nat, Row>, qs: seq<Queued>) {
    forall q, id :: q in qs && id in rows && rows[id].key == Some(q.key) ==> rows[id].kind == Command(q.erasure)
  }

  /** `u` is `t` with some commands of `qs` added under fresh ids. */
  ghost predicate Grown(t: Table, u: Table, account: Option<nat>, qs: seq<Queued>) {
    && t.next <= u.next
    && (forall id :: id in t.rows ==> id in u.rows && u.rows[id] == t.rows[id])
    && (forall id :: id in u.rows && id !in t.rows ==>
          t.next <= id < u.next && exists q :: q in qs && u.rows[id] == CommandRow(account, q))
  }

  /** The insert keeps every row, adds only commands of the list under fresh ids, and afterwards
      every command of the list is queued, whether it was inserted now or found by its key. */
  lemma {:induction false} InsertedCommands(t: Table, account: Option<nat>, qs: seq<Queued>)
    requires forall id :: id in t.rows ==> id < t.next
    requires DistinctKeys(qs) && KeysAgree(t.rows, qs)
    ensures Grown(t, InsertCommands(t, account, qs), account, qs)
    ensures forall q :: q in qs ==> Queues(InsertCommands(t, account, qs).rows, q)
    decreases |qs|
  {
    if qs != [] {
      var q, rest := qs[0], qs[1..];
      var v := InsertCommand(t, account, q);
      assert q in qs;
      forall p | p in rest ensures p in qs && p.key != q.key {
        var i :| 0 <= i < |rest| && rest[i] == p;
        assert qs[i + 1] == p && qs[0].key != qs[i + 1].key;
      }
      assert DistinctKeys(rest) by { assert forall i :: 0 <= i < |rest| ==> rest[i] == qs[i + 1]; }
      assert Queues(v.rows, q) by {
        if HasKey(t.rows, q.key) {
          var id :| id in t.rows && t.rows[id].key == Some(q.key);
          assert IsQueued(v.rows[id], q);
        } else {
          assert IsQueued(v.rows[t.next], q);
        }
      }
      var at :| at in v.rows && IsQueued(v.rows[at], q);
      InsertedCommands(v, account, rest);
      var u := InsertCommands(t, account, qs);
      assert u == InsertCommands(v, account, rest);
      assert u.rows[at] == v.rows[at];
      forall id | id in u.rows && id !in t.rows
        ensures exists q :: q in qs && u.rows[id] == CommandRow(account, q)
      {
        if id in v.rows { assert u.rows[id] == CommandRow(account, q); }
      }
    }
  }
}
