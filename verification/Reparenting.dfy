/** Projecting a conversation's message graph onto the messages the contract can represent. */
module Reparenting {
  import opened Orders

  /** A provider id and whether it parses as a contract identity. */
  datatype External = External(text: nat, valid: bool)

  datatype Role = User | Assistant | System | Tool | Other

  datatype Row = Row(id: nat, external: Option<External>, parent: Option<nat>, role: Role)

  datatype Message = Message(external: nat, role: Role, parent: Option<nat>)

  type Graph = map<nat, Row>

  /** A row the walk stops at: its role is represented and it has a provider id. */
  predicate Stops(r: Row) { r.role != Other && r.external.Some? }

  predicate Emitted(r: Row) { Stops(r) && r.external.value.valid }

  /** A row the walk stops at although it is not emitted. */
  predicate Blocks(r: Row) { Stops(r) && !Emitted(r) }

  // ---------------------------------------------------------------- the stored graph

  /** Child first: each row's parent is the next one. */
  ghost predicate Chain(g: Graph, p: seq<nat>) {
    && p != [] && (forall i :: 0 <= i < |p| ==> p[i] in g)
    && forall i :: 0 <= i < |p| - 1 ==> g[p[i]].parent == Some(p[i + 1])
  }

  ghost predicate Links(g: Graph, p: seq<nat>, d: nat, a: nat) {
    Chain(g, p) && |p| >= 2 && p[0] == d && p[|p| - 1] == a
  }

  ghost predicate Ancestor(g: Graph, a: nat, d: nat) {
    exists p :: Links(g, p, d, a)
  }

  ghost predicate Acyclic(g: Graph) {
    forall d :: !Ancestor(g, d, d)
  }

  ghost predicate Simple(p: seq<nat>) {
    forall i, j :: 0 <= i < j < |p| ==> p[i] != p[j]
  }

  /** The rows between the ends. */
  ghost predicate Passes(g: Graph, p: seq<nat>)
    requires Chain(g, p)
  {
    forall i :: 0 < i < |p| - 1 ==> !Stops(g[p[i]])
  }

  /** The path of a walk that finds something: nothing on the way stops it, the end does. */
  ghost predicate Leads(g: Graph, d: nat, p: seq<nat>) {
    Chain(g, p) && |p| >= 2 && p[0] == d && Simple(p) && Passes(g, p) && Stops(g[p[|p| - 1]])
  }

  /** Parents are unique, so of two chains from one row one is the beginning of the other. */
  lemma {:induction false} ChainsAgree(g: Graph, p: seq<nat>, q: seq<nat>, n: nat)
    requires Chain(g, p) && Chain(g, q) && p[0] == q[0] && n <= |p| && n <= |q|
    ensures p[..n] == q[..n]
  {
    if n > 1 {
      ChainsAgree(g, p, q, n - 1);
      assert p[n - 2] == p[..n - 1][n - 2] && q[n - 2] == q[..n - 1][n - 2];
      assert p[..n] == p[..n - 1] + [p[n - 1]];
      assert q[..n] == q[..n - 1] + [q[n - 1]];
    } else if n == 1 {
      assert p[..1] == [p[0]] && q[..1] == [q[0]];
    }
  }

  lemma LeadsOneWay(g: Graph, d: nat, p: seq<nat>, q: seq<nat>)
    requires Leads(g, d, p) && Leads(g, d, q)
    ensures p == q
  {
    var n := if |p| <= |q| then |p| else |q|;
    ChainsAgree(g, p, q, n);
    assert p[n - 1] == p[..n][n - 1] && q[n - 1] == q[..n][n - 1];
    assert p[..|p|] == p && q[..|q|] == q;
  }

  /** The row the walk from `d` stops at, if there is one. */
  ghost function Stop(g: Graph, d: nat): Option<nat> {
    if exists p :: Leads(g, d, p) then
      var p :| Leads(g, d, p);
      Some(p[|p| - 1])
    else None
  }

  lemma StopIs(g: Graph, d: nat, p: seq<nat>)
    requires Leads(g, d, p)
    ensures Stop(g, d) == Some(p[|p| - 1])
  {
    var q :| Leads(g, d, q) && Stop(g, d) == Some(q[|q| - 1]);
    LeadsOneWay(g, d, p, q);
  }

  // ---------------------------------------------------------------- the walk

  /** The walk has come along `p` and goes on at its end's parent: nothing shorter leads anywhere. */
  lemma NothingOnTheWay(g: Graph, d: nat, p: seq<nat>, q: seq<nat>)
    requires Chain(g, p) && p[0] == d && (forall i :: 0 < i < |p| ==> !Stops(g[p[i]])) && Leads(g, d, q)
    ensures |q| > |p| && q[..|p|] == p && g[p[|p| - 1]].parent == Some(q[|p|])
  {
    var n := if |p| <= |q| then |p| else |q|;
    ChainsAgree(g, p, q, n);
    assert q[|q| - 1] == q[..|q|][|q| - 1];
    assert p[..|p|] == p;
    assert p[|p| - 1] == q[..|p|][|p| - 1];
  }

  function Name(g: Graph, stop: Option<nat>): Option<nat> {
    match stop
    case Some(a) => if a in g && Emitted(g[a]) then Some(g[a].external.value.text) else None
    case None => None
  }

  /** Ends on every parent map, cycles included, and names the row the walk stops at. */
  method NearestRepresentedParent(g: Graph, row: Row) returns (r: Option<nat>)
    requires row.id in g && g[row.id] == row
    ensures r == Name(g, Stop(g, row.id))
  {
    var seen := {row.id};
    var cursor := row.parent;
    ghost var p := [row.id];
    while cursor.Some?
      invariant Chain(g, p) && p[0] == row.id && Simple(p) && cursor == g[p[|p| - 1]].parent
      invariant forall x :: x in seen <==> x in p
      invariant forall i :: 0 < i < |p| ==> !Stops(g[p[i]])
      decreases g.Keys - seen
    {
      var id := cursor.value;
      if id in seen || id !in g {
        NoWayOn(g, row.id, p, id);
        return None;
      }
      var parent := g[id];
      p := p + [id];
      seen := seen + {id};
      if Stops(parent) {
        StopIs(g, row.id, p);
        return if parent.external.value.valid then Some(parent.external.value.text) else None;
      }
      cursor := parent.parent;
    }
    assert Stop(g, row.id) == None by {
      forall q ensures !Leads(g, row.id, q) {
        if Leads(g, row.id, q) { NothingOnTheWay(g, row.id, p, q); }
      }
    }
    r := None;
  }

  lemma NoWayOn(g: Graph, d: nat, p: seq<nat>, id: nat)
    requires Chain(g, p) && p[0] == d && (forall i :: 0 < i < |p| ==> !Stops(g[p[i]]))
             && g[p[|p| - 1]].parent == Some(id)
    requires id in p || id !in g
    ensures Stop(g, d) == None
  {
    forall q ensures !Leads(g, d, q) {
      if Leads(g, d, q) {
        NothingOnTheWay(g, d, p, q);
      }
    }
  }

  // ---------------------------------------------------------------- ancestry

  /** The projected graph: each row's parent is the emitted row its walk stops at. */
  ghost function Projected(g: Graph, d: nat): Option<nat> {
    var stop := Stop(g, d);
    if stop.Some? && stop.value in g && Emitted(g[stop.value]) then stop else None
  }

  ghost predicate ProjectedChain(g: Graph, q: seq<nat>) {
    && q != [] && forall i :: 0 <= i < |q| - 1 ==> Projected(g, q[i]) == Some(q[i + 1])
  }

  ghost predicate ProjectedLinks(g: Graph, q: seq<nat>, d: nat, a: nat) {
    ProjectedChain(g, q) && |q| >= 2 && q[0] == d && q[|q| - 1] == a
  }

  ghost predicate ProjectedAncestor(g: Graph, a: nat, d: nat) {
    exists q :: ProjectedLinks(g, q, d, a)
  }

  /** No row between the ends stops the walk without being emitted. */
  ghost predicate Unblocked(g: Graph, p: seq<nat>)
    requires Chain(g, p)
  {
    forall i :: 0 < i < |p| - 1 ==> !Blocks(g[p[i]])
  }

  ghost predicate OpenAncestor(g: Graph, a: nat, d: nat) {
    exists p :: Links(g, p, d, a) && Unblocked(g, p)
  }

  lemma AcyclicIsSimple(g: Graph, p: seq<nat>)
    requires Acyclic(g) && Chain(g, p)
    ensures Simple(p)
  {
    forall i, j | 0 <= i < j < |p| ensures p[i] != p[j] {
      var q := p[i..j + 1];
      assert Links(g, q, p[i], p[j]);
      assert p[i] == p[j] ==> Ancestor(g, p[i], p[i]);
    }
  }

  lemma ProjectedStep(g: Graph, d: nat, a: nat) returns (p: seq<nat>)
    requires Projected(g, d) == Some(a)
    ensures Links(g, p, d, a) && Unblocked(g, p) && Emitted(g[a])
  {
    p :| Leads(g, d, p) && Stop(g, d) == Some(p[|p| - 1]);
  }

  /** A projected path runs along a stored one that nothing blocks. */
  lemma {:induction false} ProjectedIsOpen(g: Graph, q: seq<nat>, d: nat, a: nat) returns (p: seq<nat>)
    requires ProjectedLinks(g, q, d, a)
    ensures Links(g, p, d, a) && Unblocked(g, p) && Emitted(g[a])
    decreases |q|
  {
    p := ProjectedStep(g, d, q[1]);
    if |q| > 2 {
      var rest := ProjectedIsOpen(g, q[1..], q[1], a);
      p := Joined(g, p, rest);
    }
  }

  lemma Joined(g: Graph, p: seq<nat>, q: seq<nat>) returns (r: seq<nat>)
    requires Chain(g, p) && Chain(g, q) && |p| >= 2 && |q| >= 2 && p[|p| - 1] == q[0]
    requires Unblocked(g, p) && Unblocked(g, q) && Emitted(g[q[0]])
    ensures Links(g, r, p[0], q[|q| - 1]) && Unblocked(g, r)
  {
    r := p + q[1..];
    forall i | 0 <= i < |r| - 1 ensures g[r[i]].parent == Some(r[i + 1]) {
      if i >= |p| - 1 { assert r[i] == q[i - |p| + 1] && r[i + 1] == q[i - |p| + 2]; }
    }
    forall i | 0 < i < |r| - 1 ensures !Blocks(g[r[i]]) {
      if i >= |p| - 1 { assert r[i] == q[i - |p| + 1]; }
    }
  }

  /** An unblocked stored path to an emitted row is followed by projected parents. */
  lemma {:induction false} OpenIsProjected(g: Graph, p: seq<nat>, d: nat, a: nat) returns (q: seq<nat>)
    requires Acyclic(g) && Links(g, p, d, a) && Unblocked(g, p) && Emitted(g[a])
    ensures ProjectedLinks(g, q, d, a)
    decreases |p|
  {
    var i := FirstStop(g, p);
    var way := p[..i + 1];
    AcyclicIsSimple(g, p);
    assert Leads(g, d, way);
    StopIs(g, d, way);
    q := [d, p[i]];
    if i < |p| - 1 {
      var rest := OpenIsProjected(g, p[i..], p[i], a);
      q := [d] + rest;
    }
  }

  lemma {:induction false} FirstStop(g: Graph, p: seq<nat>) returns (i: nat)
    requires Chain(g, p) && |p| >= 2 && Unblocked(g, p) && Emitted(g[p[|p| - 1]])
    ensures 0 < i < |p| && Emitted(g[p[i]]) && forall j :: 0 < j < i ==> !Stops(g[p[j]])
  {
    i := 1;
    while i < |p| - 1 && !Stops(g[p[i]])
      invariant 0 < i < |p| && forall j :: 0 < j < i ==> !Stops(g[p[j]])
    {
      i := i + 1;
    }
  }

  /** On an acyclic graph one emitted row is a projected ancestor of another exactly when it is a
      stored ancestor and no row between them stops the walk without being emitted. */
  lemma AncestryExactlyWhen(g: Graph, a: nat, d: nat)
    requires Acyclic(g) && a in g && Emitted(g[a])
    ensures ProjectedAncestor(g, a, d) <==> OpenAncestor(g, a, d)
  {
    if ProjectedAncestor(g, a, d) {
      var q :| ProjectedLinks(g, q, d, a);
      var p := ProjectedIsOpen(g, q, d, a);
    }
    if OpenAncestor(g, a, d) {
      var p :| Links(g, p, d, a) && Unblocked(g, p);
      var q := OpenIsProjected(g, p, d, a);
    }
  }

  /** Conversely, a row that stops the walk without being emitted cuts the rows below it from every
      ancestor above it. */
  lemma BlockedIsCut(g: Graph, p: seq<nat>, d: nat, a: nat)
    requires Acyclic(g) && Links(g, p, d, a) && !Unblocked(g, p) && Emitted(g[a])
    ensures Ancestor(g, a, d) && !ProjectedAncestor(g, a, d)
  {
    AncestryExactlyWhen(g, a, d);
    forall q ensures !(Links(g, q, d, a) && Unblocked(g, q)) {
      if Links(g, q, d, a) {
        AcyclicIsSimple(g, p);
        AcyclicIsSimple(g, q);
        var n := if |p| <= |q| then |p| else |q|;
        ChainsAgree(g, p, q, n);
        assert p[n - 1] == p[..n][n - 1] && q[n - 1] == q[..n][n - 1];
        assert p[..|p|] == p && q[..|q|] == q;
      }
    }
  }

  /** Where every represented row with a provider id is representable, projecting keeps the ancestor
      relation of the emitted rows; and a projected row is never its own ancestor. */
  lemma AncestryIsPreserved(g: Graph, a: nat, d: nat)
    requires Acyclic(g) && a in g && Emitted(g[a]) && forall x :: x in g ==> !Blocks(g[x])
    ensures ProjectedAncestor(g, a, d) <==> Ancestor(g, a, d)
  {
    AncestryExactlyWhen(g, a, d);
    if Ancestor(g, a, d) {
      var p :| Links(g, p, d, a);
      assert Unblocked(g, p);
    }
  }

  lemma ProjectedIsAcyclic(g: Graph, d: nat)
    requires Acyclic(g)
    ensures !ProjectedAncestor(g, d, d)
  {
    assert !Ancestor(g, d, d);
    if ProjectedAncestor(g, d, d) {
      var q :| ProjectedLinks(g, q, d, d);
      var p := ProjectedIsOpen(g, q, d, d);
    }
  }

  // ---------------------------------------------------------------- the projected messages

  predicate UniqueIds(rows: seq<Row>) {
    forall i, j :: 0 <= i < j < |rows| ==> rows[i].id != rows[j].id
  }

  ghost predicate IsIndex(g: Graph, rows: seq<Row>) {
    && (forall i :: 0 <= i < |rows| ==> rows[i].id in g && g[rows[i].id] == rows[i])
    && forall x :: x in g ==> g[x].id == x && g[x] in rows
  }

  ghost function MessageOf(g: Graph, r: Row): Message
    requires Emitted(r)
  {
    Message(r.external.value.text, r.role, Name(g, Stop(g, r.id)))
  }

  /** The emitted rows in order, each under its projected parent. */
  ghost function MessagesOf(g: Graph, rows: seq<Row>): seq<Message>
    decreases |rows|
  {
    if rows == [] then [] else
      var before, r := MessagesOf(g, rows[..|rows| - 1]), rows[|rows| - 1];
      if Emitted(r) then before + [MessageOf(g, r)] else before
  }

  method Indexed(rows: seq<Row>) returns (g: Graph)
    requires UniqueIds(rows)
    ensures IsIndex(g, rows)
  {
    g := map[];
    for i := 0 to |rows|
      invariant IsIndex(g, rows[..i])
    {
      assert rows[..i + 1] == rows[..i] + [rows[i]];
      assert rows[i].id !in g;
      g := g[rows[i].id := rows[i]];
    }
    assert rows[..|rows|] == rows;
  }

  /** Emits the represented rows and says whether a role or an identity was left out. */
  method ConversationMessages(rows: seq<Row>) returns (messages: seq<Message>, roleLeftOut: bool, identityLeftOut: bool)
    requires UniqueIds(rows)
    ensures exists g :: IsIndex(g, rows) && messages == MessagesOf(g, rows)
    ensures roleLeftOut <==> exists r :: r in rows && r.role == Other
    ensures identityLeftOut <==> exists r :: r in rows && r.role != Other && !Emitted(r)
  {
    var g := Indexed(rows);
    messages, roleLeftOut, identityLeftOut := [], false, false;
    for i := 0 to |rows|
      invariant messages == MessagesOf(g, rows[..i])
      invariant roleLeftOut <==> exists r :: r in rows[..i] && r.role == Other
      invariant identityLeftOut <==> exists r :: r in rows[..i] && r.role != Other && !Emitted(r)
    {
      var r := rows[i];
      assert rows[..i + 1] == rows[..i] + [r];
      assert r in rows[..i + 1];
      if r.role == Other {
        roleLeftOut := true;
      } else if r.external.None? || !r.external.value.valid {
        identityLeftOut := true;
      } else {
        var parent := NearestRepresentedParent(g, r);
        messages := messages + [Message(r.external.value.text, r.role, parent)];
      }
    }
    assert rows[..|rows|] == rows;
  }

  lemma {:induction false} EmittedAreMessages(g: Graph, rows: seq<Row>, r: Row)
    requires r in rows && Emitted(r)
    ensures MessageOf(g, r) in MessagesOf(g, rows)
    decreases |rows|
  {
    if r != rows[|rows| - 1] { EmittedAreMessages(g, rows[..|rows| - 1], r); }
  }

  lemma {:induction false} MessagesAreEmitted(g: Graph, rows: seq<Row>, m: Message) returns (r: Row)
    requires m in MessagesOf(g, rows)
    ensures r in rows && Emitted(r) && m == MessageOf(g, r)
    decreases |rows|
  {
    r := rows[|rows| - 1];
    if !(Emitted(r) && m == MessageOf(g, r)) { r := MessagesAreEmitted(g, rows[..|rows| - 1], m); }
  }

  /** A projected parent is the provider id of a message that is itself emitted; where emitted rows have
      distinct provider ids it is the row the projected graph names. */
  lemma ParentsAreEmitted(g: Graph, rows: seq<Row>, m: Message)
    requires IsIndex(g, rows) && m in MessagesOf(g, rows) && m.parent.Some?
    ensures exists n :: n in MessagesOf(g, rows) && n.external == m.parent.value
  {
    var r := MessagesAreEmitted(g, rows, m);
    var a := Stop(g, r.id).value;
    EmittedAreMessages(g, rows, g[a]);
    assert MessageOf(g, g[a]).external == m.parent.value;
  }

  lemma ParentNamesOne(g: Graph, rows: seq<Row>, r: Row, a: Row)
    requires IsIndex(g, rows) && r in rows && a in rows && Emitted(r) && Emitted(a)
    requires forall x, y :: x in rows && y in rows && Emitted(x) && Emitted(y) ==>
               x.external.value.text == y.external.value.text ==> x == y
    ensures MessageOf(g, r).parent == Some(a.external.value.text) <==> Projected(g, r.id) == Some(a.id)
  {
    var i :| 0 <= i < |rows| && rows[i] == a;
    assert g[a.id] == a;
  }
}
