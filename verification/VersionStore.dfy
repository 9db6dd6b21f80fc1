/** The shared records as tables that imports, reparses and deletions update. */
module VersionStore {
  import opened Orders
  import opened VersionModel
  import opened VersionReplay

  datatype Message = Message(id: nat, parts: Parts)

  datatype Parsed = Parsed(header: nat, messages: seq<Message>)

  /** Messages by provider id, each with the parts of its occurrences in order. */
  function Grouped(messages: seq<Message>): History
    decreases |messages|
  {
    if messages == [] then map[] else
      var before, last := Grouped(messages[..|messages| - 1]), messages[|messages| - 1];
      before[last.id := At(before, last.id) + [last.parts]]
  }

  function DigestOf(c: Parsed): Content {
    Content(c.header, Grouped(c.messages))
  }

  lemma WrittenLast(h: seq<Parts>, ps: seq<Parts>, p: Parts)
    ensures WrittenAll(h, ps + [p]) == Written(WrittenAll(h, ps), p)
  {
    assert (ps + [p])[..|ps|] == ps;
  }

  lemma GroupedStep(messages: seq<Message>, i: nat)
    requires i < |messages|
    ensures var before, m := Grouped(messages[..i]), messages[i];
            Grouped(messages[..i + 1]) == before[m.id := At(before, m.id) + [m.parts]]
  {
    assert messages[..i + 1][..i] == messages[..i];
  }

  lemma DetailExtend(h: History, before: History, id: nat, p: Parts)
    ensures var done := Detail(h, Content(0, before));
            Detail(h, Content(0, before[id := At(before, id) + [p]])) == done[id := Written(At(done, id), p)]
  {
    var done, after := Detail(h, Content(0, before)), before[id := At(before, id) + [p]];
    var l, r := Detail(h, Content(0, after)), done[id := Written(At(done, id), p)];
    assert l.Keys == h.Keys + before.Keys + {id} && r.Keys == h.Keys + before.Keys + {id};
    forall k ensures At(l, k) == At(r, k) { ExtendAt(h, before, id, p, k); }
    SameHistory(l, r);
  }

  lemma ExtendAt(h: History, before: History, id: nat, p: Parts, k: nat)
    ensures var done := Detail(h, Content(0, before));
            At(Detail(h, Content(0, before[id := At(before, id) + [p]])), k)
            == if k == id then Written(At(done, id), p) else At(done, k)
  {
    var after := before[id := At(before, id) + [p]];
    DetailAt(h, Content(0, after), k);
    DetailAt(h, Content(0, before), k);
    if k == id {
      assert At(after, id) == At(before, id) + [p];
      WrittenLast(At(h, id), At(before, id), p);
    } else {
      assert At(after, k) == At(before, k);
    }
  }

  ghost function DetailUpTo(h: History, messages: seq<Message>, i: nat): History
    requires i <= |messages|
  {
    Detail(h, Content(0, Grouped(messages[..i])))
  }

  lemma DetailNone(h: History)
    ensures Detail(h, Content(0, map[])) == h
  {
    var none: History := map[];
    SameHistory(Detail(h, Content(0, none)), h);
  }

  lemma DetailStep(h: History, messages: seq<Message>, i: nat)
    requires i < |messages|
    ensures var done := DetailUpTo(h, messages, i);
            DetailUpTo(h, messages, i + 1)
                == done[messages[i].id := Written(At(done, messages[i].id), messages[i].parts)]
  {
    GroupedStep(messages, i);
    DetailExtend(h, Grouped(messages[..i]), messages[i].id, messages[i].parts);
  }

  lemma SightingsStep(e: nat, x: Entity, messages: seq<Message>, i: nat)
    requires i < |messages|
    ensures SightingsOf(e, x, Grouped(messages[..i + 1]).Keys)
         == SightingsOf(e, x, Grouped(messages[..i]).Keys) + {MessageSighting(e, MessageKey(x, messages[i].id))}
  {
    GroupedStep(messages, i);
  }

  lemma DetailEnds(h: History, c: Parsed)
    ensures DetailUpTo(h, c.messages, |c.messages|) == Detail(h, DigestOf(c))
  {
    assert c.messages[..|c.messages|] == c.messages;
  }

  /** What is written and observed after `i` messages. */
  ghost predicate Persisting(e: nat, x: Entity, c: Parsed, before: History, start: set<MessageSighting>, i: nat,
                             history: History, seen: set<MessageSighting>)
    requires i <= |c.messages|
  {
    && history == DetailUpTo(before, c.messages, i)
    && seen == start + SightingsOf(e, x, Grouped(c.messages[..i]).Keys)
  }

  lemma PersistingStarts(e: nat, x: Entity, c: Parsed, before: History, start: set<MessageSighting>)
    ensures Persisting(e, x, c, before, start, 0, before, start)
  {
    DetailNone(before);
    assert SightingsOf(e, x, Grouped(c.messages[..0]).Keys) == {};
  }

  lemma PersistingStep(e: nat, x: Entity, c: Parsed, before: History, start: set<MessageSighting>, i: nat,
                       history: History, seen: set<MessageSighting>)
    requires i < |c.messages| && Persisting(e, x, c, before, start, i, history, seen)
    ensures var m := c.messages[i];
            Persisting(e, x, c, before, start, i + 1, history[m.id := Written(At(history, m.id), m.parts)],
                       seen + {MessageSighting(e, MessageKey(x, m.id))})
  {
    DetailStep(before, c.messages, i);
    SightingsStep(e, x, c.messages, i);
  }

  lemma PersistingEnds(e: nat, x: Entity, c: Parsed, before: History, start: set<MessageSighting>,
                       history: History, seen: set<MessageSighting>)
    requires Persisting(e, x, c, before, start, |c.messages|, history, seen)
    ensures history == Detail(before, DigestOf(c))
    ensures seen == start + SightingsOf(e, x, DigestOf(c).messages.Keys)
  {
    DetailEnds(before, c);
    assert c.messages[..|c.messages|] == c.messages;
  }

  /** Adds a revision when the parts are not empty and differ from the latest one. */
  method WriteParts(history: History, m: nat, parts: Parts) returns (r: History)
    ensures r == history[m := Written(At(history, m), parts)]
  {
    var h := At(history, m);
    if parts != [] && (h == [] || h[|h| - 1] != parts) { h := h + [parts]; }
    r := history[m := h];
  }

  lemma SameHistory(a: History, b: History)
    requires a.Keys == b.Keys && forall m :: At(a, m) == At(b, m)
    ensures a == b
  {
    forall m | m in a ensures a[m] == b[m] {
      assert At(a, m) == At(b, m);
    }
  }

  /** The rows and versions while `rest` of the stale records are still to be rebuilt. */
  ghost predicate Restoring(start: State, s: State, stale: set<Entity>, rest: set<Entity>) {
    && s == start.(rows := s.rows, versions := s.versions)
    && s.rows.Keys == start.rows.Keys && s.versions.Keys == start.versions.Keys
    && (forall x :: x in start.rows ==>
        s.rows[x] == (if x in stale - rest then RestoredRow(start, x) else start.rows[x]))
    && (forall x :: x in start.versions ==>
          s.versions[x]
              == (if x in stale - rest then NamedOnly(start.versions[x], start.obs, x) else start.versions[x]))
  }

  lemma SameRestored(start: State, s: State, x: Entity)
    requires x in start.rows && x in s.rows && s.rows[x] == start.rows[x]
    requires KeptOf(s.versions, x) == KeptOf(start.versions, x) && s.exports == start.exports && s.obs == start.obs
    ensures RestoredRow(s, x) == RestoredRow(start, x)
  {
  }

  lemma RestoringStep(start: State, s: State, stale: set<Entity>, rest: set<Entity>, x: Entity)
    requires start.versions.Keys == start.rows.Keys && rest <= stale <= start.rows.Keys
             && x in rest && Restoring(start, s, stale, rest)
    ensures RestoredRow(s, x) == RestoredRow(start, x)
    ensures Restoring(start, s.(rows := s.rows[x := RestoredRow(s, x)],
                                versions := s.versions[x := NamedOnly(KeptOf(s.versions, x), s.obs, x)]),
                      stale, rest - {x})
  {
    assert s.rows[x] == start.rows[x] && s.versions[x] == start.versions[x];
    SameRestored(start, s, x);
  }

  /** All the records that keep a version nobody names. */
  function StaleOnes(s: State): set<Entity> {
    set x | x in s.rows && Stale(s.versions, s.obs, x)
  }

  lemma StillStale(start: State, s: State, rest: set<Entity>, x: Entity)
    requires start.versions.Keys == start.rows.Keys && rest <= StaleOnes(start)
             && x in rest && Restoring(start, s, StaleOnes(start), rest)
    ensures x in s.rows && Stale(s.versions, s.obs, x)
  {
    assert KeptOf(s.versions, x) == KeptOf(start.versions, x);
  }

  lemma RestoringEnds(start: State, s: State)
    requires start.versions.Keys == start.rows.Keys && Restoring(start, s, StaleOnes(start), {})
    ensures s == Rebuilt(start)
  {
    var t := Rebuilt(start);
    forall x | x in start.rows ensures s.rows[x] == t.rows[x] && s.versions[x] == t.versions[x] {
      assert x in StaleOnes(start) <==> Stale(start.versions, start.obs, x);
    }
    assert s.rows == t.rows;
    assert s.versions == t.versions;
  }

  // ---------------------------------------------------------------- order of arrival

  lemma {:induction false} ArrivalUnique(exports: map<nat, nat>, a: seq<nat>, b: seq<nat>)
    requires forall e :: e in a <==> e in b
    requires (forall e :: e in a ==> e in exports) && InOrder(exports, a) && InOrder(exports, b)
    ensures a == b
  {
    assert a == [] || a[0] in a;
    assert b == [] || b[0] in b;
    if a != [] {
      assert a[0] == b[0] by {
        var i :| 0 <= i < |b| && b[i] == a[0];
        var j :| 0 <= j < |a| && a[j] == b[0];
        assert i > 0 ==> Earlier(exports, b[0], b[i]);
        assert j > 0 ==> Earlier(exports, a[0], a[j]);
      }
      forall e ensures e in a[1..] <==> e in b[1..] {
        assert e in a[1..] ==> e in a && e != a[0];
        assert e in b[1..] ==> e in b && e != b[0];
      }
      ArrivalUnique(exports, a[1..], b[1..]);
      assert a == [a[0]] + a[1..];
      assert b == [b[0]] + b[1..];
    }
  }

  method First(exports: map<nat, nat>, es: set<nat>) returns (f: nat)
    requires es != {} && es <= exports.Keys
    ensures f in es && forall e :: e in es && e != f ==> Earlier(exports, f, e)
  {
    f :| f in es;
    var rest := es - {f};
    while rest != {}
      invariant f in es && rest <= es
      invariant forall e :: e in es && e !in rest && e != f ==> Earlier(exports, f, e)
      decreases rest
    {
      var e :| e in rest;
      if Earlier(exports, e, f) { f := e; }
      rest := rest - {e};
    }
  }

  method InArrival(exports: map<nat, nat>, es: set<nat>) returns (r: seq<nat>)
    requires es <= exports.Keys
    ensures r == Arrival(exports, es)
  {
    r := [];
    var rest := es;
    while rest != {}
      invariant rest <= es && forall e :: e in r <==> e in es && e !in rest
      invariant InOrder(exports, r)
      invariant forall e, f :: e in r && f in rest ==> Earlier(exports, e, f)
      decreases rest
    {
      var f := First(exports, rest);
      assert forall i :: 0 <= i < |r| ==> r[i] in r;
      r := r + [f];
      rest := rest - {f};
    }
    ArrivalUnique(exports, r, Arrival(exports, es));
  }

  // ---------------------------------------------------------------- tables

  class Tables {
    var exports: map<nat, nat>
    var obs: map<Sighting, Content>
    var seen: set<MessageSighting>
    var versions: map<Entity, set<Content>>
    var rows: map<Entity, Row>

    constructor ()
      ensures View() == INIT
    {
      exports, obs, seen, versions, rows := map[], map[], {}, map[], map[];
    }

    ghost function View(): State
      reads this
    {
      State(exports, {}, obs, seen, versions, rows, map[], {})
    }

    method Observe(e: nat, x: Entity, d: Content)
      modifies this`obs, this`versions
      ensures obs == old(obs)[Sighting(e, x) := d]
      ensures versions == old(versions)[x := Pruned(KeptOf(old(versions), x), obs, x, d)]
    {
      obs := obs[Sighting(e, x) := d];
      versions := versions[x := set v | v in KeptOf(versions, x) && (v == d || Named(obs, x, v))];
    }

    /** Writes every message in turn, and observes each. */
    method PersistMessages(e: nat, x: Entity, c: Parsed, before: History) returns (history: History)
      modifies this`seen
      ensures history == Detail(before, DigestOf(c))
      ensures seen == old(seen) + SightingsOf(e, x, DigestOf(c).messages.Keys)
    {
      history := before;
      PersistingStarts(e, x, c, before, seen);
      for i := 0 to |c.messages|
        invariant Persisting(e, x, c, before, old(seen), i, history, seen)
      {
        PersistingStep(e, x, c, before, old(seen), i, history, seen);
        history := WriteParts(history, c.messages[i].id, c.messages[i].parts);
        seen := seen + {MessageSighting(e, MessageKey(x, c.messages[i].id))};
      }
      PersistingEnds(e, x, c, before, old(seen), history, seen);
    }

    /** Writes the header and the messages. */
    method PersistDetail(e: nat, x: Entity, c: Parsed)
      requires x in rows
      modifies this`rows, this`seen
      ensures rows == old(rows)[x := Row(old(rows)[x].digest, c.header, Detail(old(rows)[x].history, DigestOf(c)))]
      ensures seen == old(seen) + SightingsOf(e, x, DigestOf(c).messages.Keys)
    {
      var history := PersistMessages(e, x, c, rows[x].history);
      rows := rows[x := Row(rows[x].digest, c.header, history)];
    }

    method PersistProject(e: nat, x: Entity, header: nat)
      requires x.Project?
      modifies this
      ensures View() == Presented(old(View()), e, x, Content(header, map[])).(shown := {})
    {
      var c := Content(header, map[]);
      rows := rows[x := Row(c, header, map[])];
      Observe(e, x, c);
      versions := versions[x := versions[x] + {c}];
      assert SightingsOf(e, x, {}) == {};
    }

    method PersistChanged(e: nat, x: Entity, parsed: Parsed, d: Content)
      requires x.Conversation? && d == DigestOf(parsed)
      modifies this`rows, this`seen
      ensures rows == old(rows)[x := Rewritten(old(rows), x, d)]
      ensures seen == old(seen) + SightingsOf(e, x, d.messages.Keys)
    {
      rows := rows[x := if x in rows then rows[x].(digest := d) else Row(d, parsed.header, map[])];
      PersistDetail(e, x, parsed);
    }

    /** One conversation of an import or a reparse: content the row already holds is not written
        again and no snapshot is kept for it, but its messages are observed. */
    method PersistConversation(e: nat, x: Entity, parsed: Parsed)
      requires x.Conversation?
      modifies this
      ensures View() == Presented(old(View()), e, x, DigestOf(parsed)).(shown := {})
    {
      var d := DigestOf(parsed);
      Observe(e, x, d);
      if x in rows && rows[x].digest == d {
        seen := seen + SightingsOf(e, x, d.messages.Keys * rows[x].history.Keys);
        return;
      }
      versions := versions[x := versions[x] + {d}];
      PersistChanged(e, x, parsed, d);
    }

    // -------------------------------------------------------------- restore

    method RetainedVersions(x: Entity) returns (held: seq<Content>)
      ensures held == Held(exports, obs, KeptOf(versions, x), x)
    {
      var es := InArrival(exports, Observers(exports, obs, KeptOf(versions, x), x));
      held := [];
      for i := 0 to |es|
        invariant |held| == i
        invariant forall j :: 0 <= j < i ==> Sighting(es[j], x) in obs && held[j] == obs[Sighting(es[j], x)]
      {
        assert es[i] in es;
        held := held + [obs[Sighting(es[i], x)]];
      }
    }

    /** The parts go, and the retained versions are written again in order; `previous` skips a
        version that repeats the one before it. */
    method RestoreConversation(x: Entity, held: seq<Content>)
      requires x in rows && x.Conversation? && held != []
      modifies this`rows
      ensures rows == old(rows)[x := Restored(x, old(rows)[x].history, held)]
    {
      var row := rows[x].(history := Emptied(rows[x].history));
      ghost var emptied := row.history;
      var previous := None;
      for i := 0 to |held|
        invariant previous == if i == 0 then None else Some(held[i - 1])
        invariant row.history == Replayed(emptied, held[..i])
        invariant i > 0 ==> row.header == held[i - 1].header
      {
        assert held[..i + 1][..i] == held[..i];
        if previous != Some(held[i]) {
          previous := Some(held[i]);
          row := row.(header := held[i].header, history := Detail(row.history, held[i]));
        }
      }
      assert held[..|held|] == held;
      rows := rows[x := row.(digest := held[|held| - 1])];
    }

    method RestoreOne(x: Entity)
      requires x in rows && Stale(versions, obs, x)
      modifies this`rows, this`versions
      ensures rows == old(rows)[x := RestoredRow(old(View()), x)]
      ensures versions == old(versions)[x := NamedOnly(KeptOf(old(versions), x), obs, x)]
    {
      var held := RetainedVersions(x);
      if held != [] {
        var newest := held[|held| - 1];
        if x.Project? {
          rows := rows[x := Row(newest, newest.header, map[])];
        } else {
          RestoreConversation(x, held);
        }
      } else {
        assert rows == rows[x := rows[x]];
      }
      versions := versions[x := set d | d in KeptOf(versions, x) && Named(obs, x, d)];
    }

    method RestoreNext(x: Entity, ghost start: State, ghost rest: set<Entity>)
      requires start.versions.Keys == start.rows.Keys && rest <= StaleOnes(start) && x in rest
      requires Restoring(start, View(), StaleOnes(start), rest)
      modifies this`rows, this`versions
      ensures Restoring(start, View(), StaleOnes(start), rest - {x})
    {
      RestoringStep(start, View(), StaleOnes(start), rest, x);
      StillStale(start, View(), rest, x);
      RestoreOne(x);
    }

    /** Every stale record is rebuilt and nothing else changes. */
    method RestoreRetained()
      requires versions.Keys == rows.Keys
      modifies this`rows, this`versions
      ensures View() == Rebuilt(old(View()))
    {
      ghost var start := View();
      var rest := set x | x in rows && Stale(versions, obs, x);
      ghost var stale := StaleOnes(start);
      while rest != {}
        invariant rest <= stale && Restoring(start, View(), stale, rest)
        decreases rest
      {
        var x :| x in rest;
        RestoreNext(x, start, rest);
        rest := rest - {x};
      }
      RestoringEnds(start, View());
    }

    /** The removal of a planned scope and the rebuilding of what it leaves. */
    method RemoveRows(p: Plan)
      requires versions.Keys == rows.Keys
      modifies this
      ensures View() == Rebuilt(Cut(old(View()), p))
    {
      rows := map x | x in rows && x !in p.doomed ::
        rows[x].(history := WithoutMessages(rows[x].history, x, p.messages));
      obs := map k | k in obs && k.source !in p.exports :: obs[k];
      seen := set k | k in seen && k.source !in p.exports;
      exports := exports - p.exports;
      versions := map x | x in versions && x in rows :: versions[x];
      assert View() == Cut(old(View()), p);
      RestoreRetained();
    }
  }
}
