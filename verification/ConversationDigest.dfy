/** What a conversation's digest is computed from: its messages sorted by provider id. */
module ConversationDigest {
  import opened CanonicalJson

  /** A message as the digest sees it: its provider id and its JSON value. */
  datatype Message = Message(id: string, value: Value)

  datatype Conversation = Conversation(externalId: string, title: Value, created: Value, updated: Value,
                                       metadata: Value, messages: seq<Message>)

  /** A stable sort: a message goes behind those that do not come after it. */
  function Placed(ms: seq<Message>, m: Message): seq<Message> {
    if ms == [] then [m]
    else if Less(ms[|ms| - 1].id, m.id) || ms[|ms| - 1].id == m.id then ms + [m]
    else Placed(ms[..|ms| - 1], m) + [ms[|ms| - 1]]
  }

  function ById(ms: seq<Message>): seq<Message>
    decreases |ms|
  {
    if ms == [] then [] else Placed(ById(ms[..|ms| - 1]), ms[|ms| - 1])
  }

  /** The messages of one provider id, in their order. */
  function Only(ms: seq<Message>, id: string): seq<Message>
    decreases |ms|
  {
    if ms == [] then [] else
      var before := Only(ms[..|ms| - 1], id);
      if ms[|ms| - 1].id == id then before + [ms[|ms| - 1]] else before
  }

  predicate InOrder(ms: seq<Message>) {
    forall i, j :: 0 <= i < j < |ms| ==> !Less(ms[j].id, ms[i].id)
  }

  lemma OnlyLast(ms: seq<Message>, m: Message, id: string)
    ensures Only(ms + [m], id) == if m.id == id then Only(ms, id) + [m] else Only(ms, id)
  {
    assert (ms + [m])[..|ms|] == ms;
  }

  lemma {:induction false} PlacedOnly(ms: seq<Message>, m: Message, id: string)
    requires InOrder(ms)
    ensures Only(Placed(ms, m), id) == if m.id == id then Only(ms, id) + [m] else Only(ms, id)
    decreases |ms|
  {
    if ms == [] {
      OnlyLast([], m, id);
      assert [] + [m] == [m];
    } else {
      var front, last := ms[..|ms| - 1], ms[|ms| - 1];
      LessTotal(last.id, m.id);
      if Less(last.id, m.id) || last.id == m.id {
        OnlyLast(ms, m, id);
      } else {
        PlacedOnly(front, m, id);
        OnlyLast(Placed(front, m), last, id);
      }
    }
  }

  lemma {:induction false} PlacedHolds(ms: seq<Message>, m: Message)
    ensures forall x :: x in Placed(ms, m) <==> x == m || x in ms
    decreases |ms|
  {
    if ms != [] && !(Less(ms[|ms| - 1].id, m.id) || ms[|ms| - 1].id == m.id) {
      PlacedHolds(ms[..|ms| - 1], m);
      assert ms == ms[..|ms| - 1] + [ms[|ms| - 1]];
    }
  }

  lemma NotAfter(a: string, b: string, c: string)
    requires !Less(b, a) && !Less(c, b)
    ensures !Less(c, a)
  {
    LessTotal(a, b);
    LessTotal(b, c);
    LessTotal(a, c);
    if Less(a, b) && Less(b, c) { LessTransitive(a, b, c); }
  }

  lemma {:induction false} PlacedInOrder(ms: seq<Message>, m: Message)
    requires InOrder(ms)
    ensures InOrder(Placed(ms, m))
    decreases |ms|
  {
    if ms != [] {
      var front, last := ms[..|ms| - 1], ms[|ms| - 1];
      LessTotal(last.id, m.id);
      if Less(last.id, m.id) || last.id == m.id {
        forall i | 0 <= i < |ms| ensures !Less(m.id, ms[i].id) {
          if i < |ms| - 1 { NotAfter(ms[i].id, last.id, m.id); }
        }
      } else {
        PlacedInOrder(front, m);
        PlacedHolds(front, m);
        var p := Placed(front, m);
        forall i | 0 <= i < |p| ensures !Less(last.id, p[i].id) {
          assert p[i] in p;
          if p[i] != m {
            var k :| 0 <= k < |front| && front[k] == p[i];
            assert ms[k] == p[i];
          }
        }
      }
    }
  }

  lemma {:induction false} SortIsStable(ms: seq<Message>, id: string)
    ensures InOrder(ById(ms)) && Only(ById(ms), id) == Only(ms, id)
    decreases |ms|
  {
    if ms != [] {
      SortIsStable(ms[..|ms| - 1], id);
      PlacedInOrder(ById(ms[..|ms| - 1]), ms[|ms| - 1]);
      PlacedOnly(ById(ms[..|ms| - 1]), ms[|ms| - 1], id);
    }
  }

  lemma {:induction false} OnlyHolds(ms: seq<Message>, m: Message)
    ensures m in ms <==> m in Only(ms, m.id)
    decreases |ms|
  {
    if ms != [] {
      OnlyHolds(ms[..|ms| - 1], m);
      assert ms == ms[..|ms| - 1] + [ms[|ms| - 1]];
    }
  }

  lemma LastIsLatest(a: seq<Message>, m: Message)
    requires InOrder(a) && m in a
    ensures a != [] && !Less(a[|a| - 1].id, m.id)
  {
    var i :| 0 <= i < |a| && a[i] == m;
    LessTotal(m.id, m.id);
  }

  lemma LastOfOnly(a: seq<Message>)
    requires a != []
    ensures var o := Only(a, a[|a| - 1].id); o != [] && o[|o| - 1] == a[|a| - 1]
  {
  }

  /** The last message of an ordered list that says the same of every id is last in both. */
  lemma SameLast(a: seq<Message>, b: seq<Message>)
    requires InOrder(a) && InOrder(b) && a != [] && forall id :: Only(a, id) == Only(b, id)
    ensures b != [] && a[|a| - 1] == b[|b| - 1]
  {
    var x := a[|a| - 1];
    assert x in b by {
      OnlyHolds(a, x);
      OnlyHolds(b, x);
    }
    var y := b[|b| - 1];
    assert y in a by {
      OnlyHolds(b, y);
      OnlyHolds(a, y);
    }
    LastIsLatest(b, x);
    LastIsLatest(a, y);
    LessTotal(x.id, y.id);
    LastOfOnly(a);
    LastOfOnly(b);
  }

  lemma {:induction false} OrderedUnique(a: seq<Message>, b: seq<Message>)
    requires InOrder(a) && InOrder(b) && forall id :: Only(a, id) == Only(b, id)
    ensures a == b
    decreases |a|
  {
    if a == [] {
      if b != [] { OnlyHolds(b, b[0]); }
    } else {
      SameLast(a, b);
      var fa, fb := a[..|a| - 1], b[..|b| - 1];
      forall id ensures Only(fa, id) == Only(fb, id) {
        assert Only(a, id) == Only(b, id);
        if a[|a| - 1].id == id {
          assert Only(fa, id) == Only(a, id)[..|Only(a, id)| - 1];
          assert Only(fb, id) == Only(b, id)[..|Only(b, id)| - 1];
        }
      }
      OrderedUnique(fa, fb);
      assert a == fa + [a[|a| - 1]] && b == fb + [b[|b| - 1]];
    }
  }

  /** The two say the same of every provider id. */
  ghost predicate SaySame(a: seq<Message>, b: seq<Message>) {
    forall id :: Only(a, id) == Only(b, id)
  }

  lemma SortedSaysSame(ms: seq<Message>)
    ensures InOrder(ById(ms)) && SaySame(ById(ms), ms)
  {
    forall id ensures Only(ById(ms), id) == Only(ms, id) { SortIsStable(ms, id); }
    SortIsStable(ms, "");
  }

  /** Sorting tells two lists of messages apart exactly by what they say of each provider id. */
  lemma SameOrderExactlyWhen(a: seq<Message>, b: seq<Message>)
    ensures ById(a) == ById(b) <==> SaySame(a, b)
  {
    SortedSaysSame(a);
    SortedSaysSame(b);
    if SaySame(a, b) {
      OrderedUnique(ById(a), ById(b));
    } else {
      var id :| Only(a, id) != Only(b, id);
      assert Only(ById(a), id) == Only(a, id) && Only(ById(b), id) == Only(b, id);
    }
  }

  // ---------------------------------------------------------------- permutations

  ghost predicate DistinctIds(ms: seq<Message>) {
    forall i, j :: 0 <= i < j < |ms| ==> ms[i].id != ms[j].id
  }

  lemma {:induction false} OnlyOne(ms: seq<Message>, id: string)
    requires DistinctIds(ms)
    ensures (exists m :: m in ms && m.id == id && Only(ms, id) == [m])
         || ((forall m :: m in ms ==> m.id != id) && Only(ms, id) == [])
    decreases |ms|
  {
    if ms != [] {
      var front, last := ms[..|ms| - 1], ms[|ms| - 1];
      OnlyOne(front, id);
      assert ms == front + [last];
      if last.id == id {
        assert forall m :: m in front ==> m.id != id;
        assert last in ms && Only(ms, id) == [last];
      } else if m :| m in front && m.id == id && Only(front, id) == [m] {
        assert m in ms;
      }
    }
  }

  lemma PermutedSaysTheSame(a: seq<Message>, b: seq<Message>, id: string)
    requires DistinctIds(a) && DistinctIds(b) && multiset(a) == multiset(b)
    ensures Only(a, id) == Only(b, id)
  {
    OnlyOne(a, id);
    OnlyOne(b, id);
    assert forall m :: m in a <==> m in multiset(a);
    assert forall m :: m in b <==> m in multiset(b);
  }

  function Values(ms: seq<Message>): seq<Value> {
    seq(|ms|, i requires 0 <= i < |ms| => ms[i].value)
  }

  function Fields(c: Conversation): seq<Member> {
    [Member("external_id", String(c.externalId)),
     Member("title", c.title),
     Member("created_at_epoch_seconds", c.created),
     Member("updated_at_epoch_seconds", c.updated),
     Member("provider_metadata", Canonical(c.metadata)),
     Member("messages", Array(Values(ById(c.messages))))]
  }

  /** The digest is that of this value's text. */
  function DigestInput(c: Conversation): Value {
    Canonical(Object(Fields(c)))
  }

  lemma FieldsAreDistinct(c: Conversation)
    ensures DistinctKeys(Fields(c))
  {
    var fs := Fields(c);
    assert |fs[0].key| == 11 && |fs[1].key| == 5 && |fs[2].key| == 24;
    assert |fs[3].key| == 24 && |fs[4].key| == 17 && |fs[5].key| == 8;
    assert fs[2].key[0] == 'c' && fs[3].key[0] == 'u';
  }

  ghost predicate ValuesMatch(ms: seq<Member>, ns: seq<Member>)
    requires |ms| == |ns|
  {
    forall i :: 0 <= i < |ms| ==> Canonical(ms[i].value) == Canonical(ns[i].value)
  }

  lemma SixMatch(ms: seq<Member>, ns: seq<Member>)
    requires |ms| == |ns| == 6
    ensures ValuesMatch(ms, ns) <==>
              && Canonical(ms[0].value) == Canonical(ns[0].value) && Canonical(ms[1].value) == Canonical(ns[1].value)
              && Canonical(ms[2].value) == Canonical(ns[2].value) && Canonical(ms[3].value) == Canonical(ns[3].value)
              && Canonical(ms[4].value) == Canonical(ns[4].value) && Canonical(ms[5].value) == Canonical(ns[5].value)
  {
  }

  lemma SameFields(c: Conversation, d: Conversation)
    ensures DigestInput(c) == DigestInput(d) <==> ValuesMatch(Fields(c), Fields(d))
  {
    FieldsAreDistinct(c);
    SameShape(Fields(c), Fields(d));
  }

  // ---------------------------------------------------------------- messages up to key order

  /** A message's value is an object that names its provider id. */
  predicate Named(m: Message) {
    m.value.Object? && Member("external_id", String(m.id)) in m.value.members
  }

  ghost predicate Parsed(m: Message) {
    Named(m) && WellFormed(m.value)
  }

  ghost predicate AllParsed(ms: seq<Message>) {
    forall m :: m in ms ==> Parsed(m)
  }

  /** The lists agree message by message, up to the order of keys. */
  ghost predicate Agree(a: seq<Message>, b: seq<Message>) {
    |a| == |b| && forall i :: 0 <= i < |a| ==> Equivalent(a[i].value, b[i].value)
  }

  /** For every provider id the two have the same messages in the same order, up to the order of keys. */
  ghost predicate SayEquivalent(a: seq<Message>, b: seq<Message>) {
    forall id :: Agree(Only(a, id), Only(b, id))
  }

  function Norm(m: Message): Message { Message(m.id, Canonical(m.value)) }

  function Normal(ms: seq<Message>): seq<Message> {
    seq(|ms|, i requires 0 <= i < |ms| => Norm(ms[i]))
  }

  lemma NormalLast(ms: seq<Message>, m: Message)
    ensures Normal(ms + [m]) == Normal(ms) + [Norm(m)]
  {
  }

  lemma {:induction false} NormalPlaced(ms: seq<Message>, m: Message)
    ensures Normal(Placed(ms, m)) == Placed(Normal(ms), Norm(m))
    decreases |ms|
  {
    if ms != [] {
      var front, last := ms[..|ms| - 1], ms[|ms| - 1];
      NormalLast(front, last);
      assert ms == front + [last];
      assert Normal(ms)[..|ms| - 1] == Normal(front);
      if Less(last.id, m.id) || last.id == m.id {
        NormalLast(ms, m);
      } else {
        NormalPlaced(front, m);
        NormalLast(Placed(front, m), last);
      }
    }
  }

  lemma {:induction false} NormalById(ms: seq<Message>)
    ensures Normal(ById(ms)) == ById(Normal(ms))
    decreases |ms|
  {
    if ms != [] {
      NormalById(ms[..|ms| - 1]);
      NormalPlaced(ById(ms[..|ms| - 1]), ms[|ms| - 1]);
      assert Normal(ms)[..|ms| - 1] == Normal(ms[..|ms| - 1]);
    }
  }

  lemma {:induction false} NormalOnly(ms: seq<Message>, id: string)
    ensures Normal(Only(ms, id)) == Only(Normal(ms), id)
    decreases |ms|
  {
    if ms != [] {
      NormalOnly(ms[..|ms| - 1], id);
      NormalLast(Only(ms[..|ms| - 1], id), ms[|ms| - 1]);
      assert Normal(ms)[..|ms| - 1] == Normal(ms[..|ms| - 1]);
    }
  }

  lemma {:induction false} OnlyIsOf(ms: seq<Message>, id: string)
    ensures forall m :: m in Only(ms, id) ==> m.id == id && m in ms
    decreases |ms|
  {
    if ms != [] { OnlyIsOf(ms[..|ms| - 1], id); }
  }

  lemma SortedHolds(ms: seq<Message>, m: Message)
    ensures m in ById(ms) <==> m in ms
  {
    OnlyHolds(ms, m);
    OnlyHolds(ById(ms), m);
    SortIsStable(ms, m.id);
  }

  lemma SortedParsed(ms: seq<Message>)
    requires AllParsed(ms)
    ensures AllParsed(ById(ms))
  {
    forall m | m in ById(ms) ensures Parsed(m) { SortedHolds(ms, m); }
  }

  /** Messages whose values agree have one provider id: the value names it. */
  lemma ValueNamesId(m: Message, n: Message)
    requires Parsed(m) && Parsed(n) && Equivalent(m.value, n.value)
    ensures m.id == n.id
  {
    var x, y := Member("external_id", String(m.id)), Member("external_id", String(n.id));
    var i :| 0 <= i < |m.value.members| && m.value.members[i] == x;
    var j :| 0 <= j < |n.value.members| && n.value.members[j] == y;
    assert Equivalent(m.value.members[i].value, n.value.members[j].value);
  }

  lemma NormExactlyWhen(m: Message, n: Message)
    requires Parsed(m) && Parsed(n)
    ensures Norm(m) == Norm(n) <==> Equivalent(m.value, n.value)
  {
    SameFormExactlyWhen(m.value, n.value);
    if Equivalent(m.value, n.value) { ValueNamesId(m, n); }
  }

  lemma NormalExactlyWhen(a: seq<Message>, b: seq<Message>)
    requires AllParsed(a) && AllParsed(b)
    ensures Normal(a) == Normal(b) <==> Agree(a, b)
  {
    if |a| == |b| {
      forall i | 0 <= i < |a| ensures Normal(a)[i] == Normal(b)[i] <==> Equivalent(a[i].value, b[i].value) {
        assert a[i] in a && b[i] in b;
        NormExactlyWhen(a[i], b[i]);
      }
    } else {
      assert |Normal(a)| == |a| && |Normal(b)| == |b|;
    }
  }

  lemma SaysExactlyWhen(a: seq<Message>, b: seq<Message>, id: string)
    requires AllParsed(a) && AllParsed(b)
    ensures Only(Normal(a), id) == Only(Normal(b), id) <==> Agree(Only(a, id), Only(b, id))
  {
    NormalOnly(a, id);
    NormalOnly(b, id);
    OnlyIsOf(a, id);
    OnlyIsOf(b, id);
    NormalExactlyWhen(Only(a, id), Only(b, id));
  }

  /** Sorted messages agree up to key order exactly when the messages of each provider id do. */
  lemma SortedAgreeExactlyWhen(a: seq<Message>, b: seq<Message>)
    requires AllParsed(a) && AllParsed(b)
    ensures Agree(ById(a), ById(b)) <==> SayEquivalent(a, b)
  {
    SortedParsed(a);
    SortedParsed(b);
    NormalExactlyWhen(ById(a), ById(b));
    NormalById(a);
    NormalById(b);
    SameOrderExactlyWhen(Normal(a), Normal(b));
    forall id ensures Only(Normal(a), id) == Only(Normal(b), id) <==> Agree(Only(a, id), Only(b, id)) {
      SaysExactlyWhen(a, b, id);
    }
  }

  lemma ArrayExactlyWhen(a: seq<Message>, b: seq<Message>)
    requires AllParsed(a) && AllParsed(b)
    ensures Canonical(Array(Values(a))) == Canonical(Array(Values(b))) <==> Agree(a, b)
  {
    var x, y := Values(a), Values(b);
    forall i | 0 <= i < |a| ensures WellFormed(x[i]) { assert a[i] in a; }
    forall i | 0 <= i < |b| ensures WellFormed(y[i]) { assert b[i] in b; }
    assert WellFormed(Array(x)) && WellFormed(Array(y));
    SameFormExactlyWhen(Array(x), Array(y));
    if Equivalent(Array(x), Array(y)) {
      forall i | 0 <= i < |a| ensures Equivalent(a[i].value, b[i].value) { assert Equivalent(x[i], y[i]); }
    }
  }

  ghost predicate ParsedConversation(c: Conversation) {
    && WellFormed(c.title) && WellFormed(c.created) && WellFormed(c.updated) && WellFormed(c.metadata)
    && AllParsed(c.messages)
  }

  /** The two say the same, up to the order of keys and of messages with different provider ids. */
  ghost predicate SameContent(c: Conversation, d: Conversation) {
    && c.externalId == d.externalId && Equivalent(c.title, d.title)
    && Equivalent(c.created, d.created) && Equivalent(c.updated, d.updated)
    && Equivalent(c.metadata, d.metadata) && SayEquivalent(c.messages, d.messages)
  }

  lemma MessagesExactlyWhen(a: seq<Message>, b: seq<Message>)
    requires AllParsed(a) && AllParsed(b)
    ensures Canonical(Array(Values(ById(a)))) == Canonical(Array(Values(ById(b)))) <==> SayEquivalent(a, b)
  {
    SortedParsed(a);
    SortedParsed(b);
    ArrayExactlyWhen(ById(a), ById(b));
    SortedAgreeExactlyWhen(a, b);
  }

  /** Two conversations have one digest input exactly when they say the same, up to the order of keys and
      of messages with different provider ids. */
  lemma SameInputExactlyWhen(c: Conversation, d: Conversation)
    requires ParsedConversation(c) && ParsedConversation(d)
    ensures DigestInput(c) == DigestInput(d) <==> SameContent(c, d)
  {
    SameFields(c, d);
    SixMatch(Fields(c), Fields(d));
    CanonicalIsIdempotent(c.metadata);
    CanonicalIsIdempotent(d.metadata);
    SameFormExactlyWhen(c.title, d.title);
    SameFormExactlyWhen(c.created, d.created);
    SameFormExactlyWhen(c.updated, d.updated);
    SameFormExactlyWhen(c.metadata, d.metadata);
    MessagesExactlyWhen(c.messages, d.messages);
  }

  /** Permuting messages with distinct provider ids leaves the digest as it is. */
  lemma PermutationKeepsDigest(c: Conversation, messages: seq<Message>)
    requires DistinctIds(c.messages) && DistinctIds(messages) && multiset(c.messages) == multiset(messages)
    ensures DigestInput(c.(messages := messages)) == DigestInput(c)
  {
    forall id ensures Only(c.messages, id) == Only(messages, id) {
      PermutedSaysTheSame(c.messages, messages, id);
    }
    SameOrderExactlyWhen(c.messages, messages);
  }
}
