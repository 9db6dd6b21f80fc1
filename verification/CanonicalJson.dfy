/** The canonical form of JSON values, and the input of a conversation's digest.

    An object is its list of members; its keys are distinct, as a parsed map's are. */
module CanonicalJson {

  datatype Value =
    | Null
    | Bool(flag: bool)
    | Number(number: int)
    | String(text: string)
    | Array(items: seq<Value>)
    | Object(members: seq<Member>)

  datatype Member = Member(key: string, value: Value)

  ghost predicate DistinctKeys(ms: seq<Member>) {
    forall i, j :: 0 <= i < j < |ms| ==> ms[i].key != ms[j].key
  }

  ghost predicate WellFormed(v: Value)
    decreases v
  {
    match v
    case Array(items) => forall i :: 0 <= i < |items| ==> WellFormed(items[i])
    case Object(members) =>
      DistinctKeys(members) && forall i :: 0 <= i < |members| ==> WellFormed(members[i].value)
    case _ => true
  }

  // ---------------------------------------------------------------- key order

  predicate Less(a: string, b: string) {
    b != [] && (a == [] || a[0] < b[0] || (a[0] == b[0] && Less(a[1..], b[1..])))
  }

  lemma {:induction false} LessTotal(a: string, b: string)
    ensures a == b || Less(a, b) || Less(b, a)
    ensures !(Less(a, b) && Less(b, a)) && (Less(a, b) ==> a != b)
  {
    if a != [] && b != [] && a[0] == b[0] {
      LessTotal(a[1..], b[1..]);
      assert a == [a[0]] + a[1..] && b == [b[0]] + b[1..];
    }
  }

  lemma {:induction false} LessTransitive(a: string, b: string, c: string)
    requires Less(a, b) && Less(b, c)
    ensures Less(a, c)
  {
    if a != [] && a[0] == b[0] == c[0] { LessTransitive(a[1..], b[1..], c[1..]); }
  }

  // ---------------------------------------------------------------- sorting members

  ghost predicate Ascending(ms: seq<Member>) {
    forall i, j :: 0 <= i < j < |ms| ==> Less(ms[i].key, ms[j].key)
  }

  function Insert(ms: seq<Member>, m: Member): seq<Member> {
    if ms == [] then [m]
    else if Less(m.key, ms[0].key) then [m] + ms
    else [ms[0]] + Insert(ms[1..], m)
  }

  function Sort(ms: seq<Member>): seq<Member> {
    if ms == [] then [] else Insert(Sort(ms[1..]), ms[0])
  }

  lemma {:induction false} InsertHolds(ms: seq<Member>, m: Member)
    ensures |Insert(ms, m)| == |ms| + 1 && forall x :: x in Insert(ms, m) <==> x == m || x in ms
  {
    if ms != [] && !Less(m.key, ms[0].key) {
      InsertHolds(ms[1..], m);
      assert ms == [ms[0]] + ms[1..];
    }
  }

  lemma {:induction false} InsertAscends(ms: seq<Member>, m: Member)
    requires Ascending(ms) && forall x :: x in ms ==> x.key != m.key
    ensures Ascending(Insert(ms, m))
  {
    if ms != [] {
      LessTotal(m.key, ms[0].key);
      assert ms[0] in ms;
      if Less(m.key, ms[0].key) {
        forall j | 0 < j < |ms| ensures Less(m.key, ms[j].key) { LessTransitive(m.key, ms[0].key, ms[j].key); }
      } else {
        InsertAscends(ms[1..], m);
        InsertHolds(ms[1..], m);
        var rest := Insert(ms[1..], m);
        forall j | 0 <= j < |rest| ensures Less(ms[0].key, rest[j].key) {
          assert rest[j] in rest;
          if rest[j] != m {
            var i :| 0 <= i < |ms[1..]| && ms[1..][i] == rest[j];
            assert ms[i + 1] == rest[j];
          }
        }
      }
    }
  }

  lemma {:induction false} SortHolds(ms: seq<Member>)
    ensures |Sort(ms)| == |ms| && forall x :: x in Sort(ms) <==> x in ms
  {
    if ms != [] {
      SortHolds(ms[1..]);
      InsertHolds(Sort(ms[1..]), ms[0]);
      assert ms == [ms[0]] + ms[1..];
    }
  }

  lemma {:induction false} SortAscends(ms: seq<Member>)
    requires DistinctKeys(ms)
    ensures Ascending(Sort(ms))
  {
    if ms != [] {
      SortAscends(ms[1..]);
      SortHolds(ms[1..]);
      forall x | x in Sort(ms[1..]) ensures x.key != ms[0].key {
        var i :| 0 <= i < |ms[1..]| && ms[1..][i] == x;
        assert ms[i + 1] == x;
      }
      InsertAscends(Sort(ms[1..]), ms[0]);
    }
  }

  /** An ascending list is determined by its members. */
  lemma {:induction false} AscendingUnique(a: seq<Member>, b: seq<Member>)
    requires Ascending(a) && Ascending(b) && forall x :: x in a <==> x in b
    ensures a == b
  {
    assert a == [] || a[0] in a;
    assert b == [] || b[0] in b;
    if a != [] {
      assert a[0] == b[0] by {
        var i :| 0 <= i < |b| && b[i] == a[0];
        var j :| 0 <= j < |a| && a[j] == b[0];
        LessTotal(a[0].key, b[0].key);
        assert i > 0 ==> Less(b[0].key, b[i].key);
        assert j > 0 ==> Less(a[0].key, a[j].key);
      }
      forall x ensures x in a[1..] <==> x in b[1..] {
        assert x in a[1..] ==> x in a && x != a[0] by { if x in a[1..] { AfterFirst(a, x); } }
        assert x in b[1..] ==> x in b && x != b[0] by { if x in b[1..] { AfterFirst(b, x); } }
      }
      AscendingUnique(a[1..], b[1..]);
      assert a == [a[0]] + a[1..] && b == [b[0]] + b[1..];
    }
  }

  lemma AfterFirst(a: seq<Member>, x: Member)
    requires a != [] && Ascending(a) && x in a[1..]
    ensures x in a && x != a[0]
  {
    var i :| 0 <= i < |a[1..]| && a[1..][i] == x;
    assert a[i + 1] == x;
    LessTotal(a[0].key, x.key);
  }

  // ---------------------------------------------------------------- the canonical form

  function Canonical(v: Value): Value
    decreases v
  {
    match v
    case Array(items) => Array(seq(|items|, i requires 0 <= i < |items| => Canonical(items[i])))
    case Object(members) =>
      Object(Sort(seq(|members|, i requires 0 <= i < |members| =>
        Member(members[i].key, Canonical(members[i].value)))))
    case _ => v
  }

  ghost predicate HasKey(ms: seq<Member>, key: string) {
    exists i :: 0 <= i < |ms| && ms[i].key == key
  }

  ghost predicate SameKeys(ms: seq<Member>, ns: seq<Member>) {
    forall key :: HasKey(ms, key) <==> HasKey(ns, key)
  }

  /** Equal up to the order of keys, at every depth. */
  ghost predicate Equivalent(a: Value, b: Value)
    decreases a
  {
    match a
    case Array(items) =>
      b.Array? && |items| == |b.items| && forall i :: 0 <= i < |items| ==> Equivalent(items[i], b.items[i])
    case Object(members) =>
      b.Object? && SameKeys(members, b.members)
      && forall i :: 0 <= i < |members| ==>
           forall j :: 0 <= j < |b.members| && members[i].key == b.members[j].key ==>
               Equivalent(members[i].value, b.members[j].value)
    case _ => a == b
  }

  function CanonicalMembers(ms: seq<Member>): seq<Member> {
    seq(|ms|, i requires 0 <= i < |ms| => Member(ms[i].key, Canonical(ms[i].value)))
  }

  lemma CanonicalObject(ms: seq<Member>)
    ensures Canonical(Object(ms)) == Object(Sort(CanonicalMembers(ms)))
  {
    assert CanonicalMembers(ms) == seq(|ms|, i requires 0 <= i < |ms| => Member(ms[i].key, Canonical(ms[i].value)));
  }

  /** Two objects have one canonical form exactly when their members are the same but for order. */
  lemma SameMembers(ms: seq<Member>, ns: seq<Member>)
    requires DistinctKeys(ms) && DistinctKeys(ns)
    ensures Canonical(Object(ms)) == Canonical(Object(ns))
            <==> (forall x :: x in CanonicalMembers(ms) <==> x in CanonicalMembers(ns))
  {
    CanonicalObject(ms);
    CanonicalObject(ns);
    var cm, cn := CanonicalMembers(ms), CanonicalMembers(ns);
    SortHolds(cm);
    SortHolds(cn);
    if forall x :: x in cm <==> x in cn {
      SortAscends(cm);
      SortAscends(cn);
      AscendingUnique(Sort(cm), Sort(cn));
    }
  }

  ghost predicate ValuesAgree(ms: seq<Member>, ns: seq<Member>) {
    forall i :: 0 <= i < |ms| ==> forall j :: 0 <= j < |ns| && ms[i].key == ns[j].key ==>
        Canonical(ms[i].value) == Canonical(ns[j].value)
  }

  lemma MemberSplits(ms: seq<Member>, x: Member)
    ensures x in CanonicalMembers(ms)
            <==> exists i :: 0 <= i < |ms| && ms[i].key == x.key && Canonical(ms[i].value) == x.value
  {
    if x in CanonicalMembers(ms) {
      var i :| 0 <= i < |ms| && CanonicalMembers(ms)[i] == x;
    }
    if i :| 0 <= i < |ms| && ms[i].key == x.key && Canonical(ms[i].value) == x.value {
      assert CanonicalMembers(ms)[i] == x;
    }
  }

  lemma AgreeingMembersAreIn(ms: seq<Member>, ns: seq<Member>, x: Member)
    requires DistinctKeys(ns) && SameKeys(ms, ns) && ValuesAgree(ms, ns) && x in CanonicalMembers(ms)
    ensures x in CanonicalMembers(ns)
  {
    MemberSplits(ms, x);
    var i :| 0 <= i < |ms| && ms[i].key == x.key && Canonical(ms[i].value) == x.value;
    assert HasKey(ms, x.key) && HasKey(ns, x.key);
    var j :| 0 <= j < |ns| && ns[j].key == x.key;
    MemberSplits(ns, x);
  }

  lemma SharedMembersAgree(ms: seq<Member>, ns: seq<Member>, i: nat, j: nat)
    requires DistinctKeys(ns) && i < |ms| && j < |ns| && ms[i].key == ns[j].key
             && CanonicalMembers(ms)[i] in CanonicalMembers(ns)
    ensures Canonical(ms[i].value) == Canonical(ns[j].value)
  {
    var k :| 0 <= k < |ns| && CanonicalMembers(ns)[k] == CanonicalMembers(ms)[i];
    assert ns[k].key == ns[j].key;
  }

  lemma SharedMembersShareKeys(ms: seq<Member>, ns: seq<Member>, key: string)
    requires (forall x :: x in CanonicalMembers(ms) ==> x in CanonicalMembers(ns)) && HasKey(ms, key)
    ensures HasKey(ns, key)
  {
    var i :| 0 <= i < |ms| && ms[i].key == key;
    assert CanonicalMembers(ms)[i] in CanonicalMembers(ns);
    var k :| 0 <= k < |ns| && CanonicalMembers(ns)[k] == CanonicalMembers(ms)[i];
    assert ns[k].key == key;
  }

  lemma MembersAgree(ms: seq<Member>, ns: seq<Member>)
    requires DistinctKeys(ms) && DistinctKeys(ns)
    ensures Canonical(Object(ms)) == Canonical(Object(ns)) <==> SameKeys(ms, ns) && ValuesAgree(ms, ns)
  {
    SameMembers(ms, ns);
    var cm, cn := CanonicalMembers(ms), CanonicalMembers(ns);
    if SameKeys(ms, ns) && ValuesAgree(ms, ns) {
      forall x ensures x in cm <==> x in cn {
        if x in cm { AgreeingMembersAreIn(ms, ns, x); }
        if x in cn { AgreeingMembersAreIn(ns, ms, x); }
      }
    }
    if forall x :: x in cm <==> x in cn {
      forall key ensures HasKey(ms, key) <==> HasKey(ns, key) {
        if HasKey(ms, key) { SharedMembersShareKeys(ms, ns, key); }
        if HasKey(ns, key) { SharedMembersShareKeys(ns, ms, key); }
      }
      forall i | 0 <= i < |ms|
        ensures forall j :: 0 <= j < |ns| && ms[i].key == ns[j].key ==> Canonical(ms[i].value) == Canonical(ns[j].value)
      {
        forall j | 0 <= j < |ns| && ms[i].key == ns[j].key ensures Canonical(ms[i].value) == Canonical(ns[j].value) {
          assert cm[i] in cm;
          SharedMembersAgree(ms, ns, i, j);
        }
      }
    }
  }

  /** Two values have the same canonical form exactly when they are equal up to the order of keys. */
  lemma {:induction false} SameFormExactlyWhen(a: Value, b: Value)
    requires WellFormed(a) && WellFormed(b)
    ensures Canonical(a) == Canonical(b) <==> Equivalent(a, b)
    decreases a
  {
    if a.Array? && b.Array? {
      assert |Canonical(a).items| == |a.items| && |Canonical(b).items| == |b.items|;
      if |a.items| == |b.items| {
        forall i | 0 <= i < |a.items|
          ensures Canonical(a.items[i]) == Canonical(b.items[i]) <==> Equivalent(a.items[i], b.items[i])
        {
          SameFormExactlyWhen(a.items[i], b.items[i]);
        }
        ArraysAgree(a.items, b.items);
      }
    } else if a.Object? && b.Object? {
      forall i, j | 0 <= i < |a.members| && 0 <= j < |b.members|
        ensures Canonical(a.members[i].value) == Canonical(b.members[j].value)
                <==> Equivalent(a.members[i].value, b.members[j].value)
      {
        SameFormExactlyWhen(a.members[i].value, b.members[j].value);
      }
      MembersAgree(a.members, b.members);
    }
  }

  lemma ArraysAgree(xs: seq<Value>, ys: seq<Value>)
    requires |xs| == |ys|
    ensures Canonical(Array(xs)) == Canonical(Array(ys))
            <==> forall i :: 0 <= i < |xs| ==> Canonical(xs[i]) == Canonical(ys[i])
  {
    var cx, cy := Canonical(Array(xs)).items, Canonical(Array(ys)).items;
    assert forall i :: 0 <= i < |xs| ==> cx[i] == Canonical(xs[i]) && cy[i] == Canonical(ys[i]);
  }

  lemma SortedMembers(ms: seq<Member>)
    requires DistinctKeys(ms)
    ensures DistinctKeys(Sort(ms)) && (Ascending(ms) ==> Sort(ms) == ms)
  {
    SortAscends(ms);
    SortHolds(ms);
    var s := Sort(ms);
    forall i, j | 0 <= i < j < |s| ensures s[i].key != s[j].key { LessTotal(s[i].key, s[j].key); }
    if Ascending(ms) { AscendingUnique(Sort(ms), ms); }
  }

  /** Canonicalizing again changes nothing. */
  lemma {:induction false} CanonicalIsIdempotent(v: Value)
    requires WellFormed(v)
    ensures WellFormed(Canonical(v)) && Canonical(Canonical(v)) == Canonical(v)
    decreases v
  {
    match v
    case Array(items) =>
      var c := Canonical(v);
      forall i | 0 <= i < |items| ensures WellFormed(c.items[i]) && Canonical(c.items[i]) == c.items[i] {
        CanonicalIsIdempotent(items[i]);
      }
      assert Canonical(c).items == c.items;
    case Object(members) =>
      var cm := CanonicalMembers(members);
      forall i | 0 <= i < |members| ensures WellFormed(cm[i].value) && Canonical(cm[i].value) == cm[i].value {
        CanonicalIsIdempotent(members[i].value);
      }
      CanonicalObject(members);
      CanonicalFixed(cm);
    case _ =>
  }

  lemma CanonicalFixed(cm: seq<Member>)
    requires DistinctKeys(cm)
    requires forall i :: 0 <= i < |cm| ==> WellFormed(cm[i].value) && Canonical(cm[i].value) == cm[i].value
    ensures WellFormed(Object(Sort(cm))) && Canonical(Object(Sort(cm))) == Object(Sort(cm))
  {
    var s := Sort(cm);
    SortedMembers(cm);
    SortHolds(cm);
    SortAscends(cm);
    forall i | 0 <= i < |s| ensures WellFormed(s[i].value) && Canonical(s[i].value) == s[i].value {
      assert s[i] in cm;
      var k :| 0 <= k < |cm| && cm[k] == s[i];
    }
    CanonicalObject(s);
    assert CanonicalMembers(s) == s;
    SortedMembers(s);
  }

  /** Objects with the same keys in the same places differ only by their values. */
  lemma SameShape(ms: seq<Member>, ns: seq<Member>)
    requires DistinctKeys(ms) && |ms| == |ns| && forall i :: 0 <= i < |ms| ==> ms[i].key == ns[i].key
    ensures Canonical(Object(ms)) == Canonical(Object(ns)) <==>
              forall i :: 0 <= i < |ms| ==> Canonical(ms[i].value) == Canonical(ns[i].value)
  {
    assert DistinctKeys(ns);
    MembersAgree(ms, ns);
    forall key ensures HasKey(ms, key) <==> HasKey(ns, key) {
      if i :| 0 <= i < |ms| && ms[i].key == key { assert ns[i].key == key; }
      if i :| 0 <= i < |ns| && ns[i].key == key { assert ms[i].key == key; }
    }
  }
}
