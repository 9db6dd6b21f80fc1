/** What writing versions one after another leaves in a conversation's content-part history. */
module VersionReplay {
  import opened VersionModel

  // ---------------------------------------------------------------- one message

  /** A list of parts read as a history: empty entries left out, runs of equal entries kept once. */
  function Collapse(ps: seq<Parts>): seq<Parts> {
    if ps == [] then []
    else if ps[0] == [] then Collapse(ps[1..])
    else
      var rest := Collapse(ps[1..]);
      if rest != [] && rest[0] == ps[0] then rest else [ps[0]] + rest
  }

  lemma {:induction false} CollapseAppends(ps: seq<Parts>, p: Parts)
    ensures Collapse(ps + [p]) == Written(Collapse(ps), p)
  {
    if ps == [] {
      assert ps + [p] == [p];
    } else {
      assert (ps + [p])[1..] == ps[1..] + [p];
      CollapseAppends(ps[1..], p);
    }
  }

  lemma {:induction false} WritingCollapses(ps: seq<Parts>)
    ensures WrittenAll([], ps) == Collapse(ps)
    decreases |ps|
  {
    if ps != [] {
      var front, last := ps[..|ps| - 1], ps[|ps| - 1];
      WritingCollapses(front);
      CollapseAppends(front, last);
      assert ps == front + [last];
    }
  }

  lemma {:induction false} WrittenHolds(h: seq<Parts>, ps: seq<Parts>)
    ensures forall p :: p in WrittenAll(h, ps) <==> p in h || (p in ps && p != [])
    decreases |ps|
  {
    if ps != [] {
      var front, last := ps[..|ps| - 1], ps[|ps| - 1];
      WrittenHolds(h, front);
      assert ps == front + [last];
    }
  }

  lemma {:induction false} WrittenInTurn(h: seq<Parts>, a: seq<Parts>, b: seq<Parts>)
    ensures WrittenAll(h, a + b) == WrittenAll(WrittenAll(h, a), b)
    decreases |b|
  {
    if b == [] {
      assert a + b == a;
    } else {
      var ab := a + b;
      assert ab[..|ab| - 1] == a + b[..|b| - 1];
      WrittenInTurn(h, a, b[..|b| - 1]);
    }
  }

  // ---------------------------------------------------------------- replay

  /** The versions without those equal to the one just before. */
  function WithoutRepeats(held: seq<Content>): seq<Content>
    decreases |held|
  {
    if held == [] then [] else
      var before, last := WithoutRepeats(held[..|held| - 1]), held[|held| - 1];
      if |held| > 1 && held[|held| - 2] == last then before else before + [last]
  }

  /** Everything the versions say of one message, in order. */
  function Writes(cs: seq<Content>, m: nat): seq<Parts>
    decreases |cs|
  {
    if cs == [] then [] else Writes(cs[..|cs| - 1], m) + At(cs[|cs| - 1].messages, m)
  }

  lemma WritesAppend(cs: seq<Content>, c: Content, m: nat)
    ensures WrittenAll([], Writes(cs + [c], m)) == WrittenAll(WrittenAll([], Writes(cs, m)), At(c.messages, m))
  {
    assert (cs + [c])[..|cs|] == cs;
    WrittenInTurn([], Writes(cs, m), At(c.messages, m));
  }

  lemma DetailAt(h: History, c: Content, m: nat)
    ensures At(Detail(h, c), m) == WrittenAll(At(h, m), At(c.messages, m))
  {
  }

  lemma {:induction false} ReplayWrites(h: History, held: seq<Content>, m: nat)
    requires At(h, m) == []
    ensures At(Replayed(h, held), m) == WrittenAll([], Writes(WithoutRepeats(held), m))
    decreases |held|
  {
    if held != [] {
      var front, last := held[..|held| - 1], held[|held| - 1];
      ReplayWrites(h, front, m);
      if !(|held| > 1 && held[|held| - 2] == last) {
        WritesAppend(WithoutRepeats(front), last, m);
        DetailAt(Replayed(h, front), last, m);
      }
    }
  }

  /** Restore is replay: the history of each message is what the retained versions say of it, in
      the order the exports arrived, a version repeated in a row counted once, read as a history. */
  lemma RestoreIsReplay(x: Entity, h: History, held: seq<Content>, m: nat)
    requires held != [] && x.Conversation?
    ensures At(Restored(x, h, held).history, m) == Collapse(Writes(WithoutRepeats(held), m))
  {
    ReplayWrites(Emptied(h), held, m);
    WritingCollapses(Writes(WithoutRepeats(held), m));
  }

  lemma WrittenTwice(h: seq<Parts>, ps: seq<Parts>)
    requires |ps| <= 1
    ensures WrittenAll(WrittenAll(h, ps), ps) == WrittenAll(h, ps)
  {
    if ps != [] { assert ps[..0] == []; }
  }

  /** What a list of versions leaves in one message's history. */
  function Left(cs: seq<Content>, m: nat): seq<Parts> {
    WrittenAll([], Writes(cs, m))
  }

  lemma LeftAppend(cs: seq<Content>, c: Content, m: nat)
    ensures Left(cs + [c], m) == WrittenAll(Left(cs, m), At(c.messages, m))
  {
    WritesAppend(cs, c, m);
  }

  lemma LeftRepeat(cs: seq<Content>, c: Content, m: nat)
    requires |At(c.messages, m)| <= 1
    ensures Left(cs + [c] + [c], m) == Left(cs + [c], m)
  {
    LeftAppend(cs + [c], c, m);
    LeftAppend(cs, c, m);
    WrittenTwice(Left(cs, m), At(c.messages, m));
  }

  /** Where no version names a message twice, dropping the repeats changes nothing. */
  lemma {:induction false} RepeatsChangeNothing(held: seq<Content>, m: nat)
    requires forall c :: c in held ==> |At(c.messages, m)| <= 1
    ensures Left(WithoutRepeats(held), m) == Left(held, m)
    decreases |held|
  {
    if held != [] {
      var front, last := held[..|held| - 1], held[|held| - 1];
      assert held == front + [last];
      RepeatsChangeNothing(front, m);
      if |held| > 1 && held[|held| - 2] == last {
        RepeatedLast(front, last, m);
      } else {
        LeftAppend(front, last, m);
        LeftAppend(WithoutRepeats(front), last, m);
      }
    }
  }

  lemma RepeatedLast(cs: seq<Content>, c: Content, m: nat)
    requires cs != [] && cs[|cs| - 1] == c && |At(c.messages, m)| <= 1
    ensures Left(cs + [c], m) == Left(cs, m)
  {
    assert cs == cs[..|cs| - 1] + [c];
    LeftRepeat(cs[..|cs| - 1], c, m);
  }

  /** A message whose newest parts are not empty ends as the newest version has it. */
  lemma {:induction false} EndsAsNewest(h: History, held: seq<Content>, m: nat)
    requires held != []
    requires var ps := At(held[|held| - 1].messages, m); ps != [] && ps[|ps| - 1] != []
    ensures var r, ps := At(Replayed(h, held), m), At(held[|held| - 1].messages, m);
            r != [] && r[|r| - 1] == ps[|ps| - 1]
    decreases |held|
  {
    if |held| > 1 && held[|held| - 2] == held[|held| - 1] {
      EndsAsNewest(h, held[..|held| - 1], m);
    }
  }

  /** Nothing is in a replayed history that no version says, and nothing a version says is missing. */
  lemma {:induction false} ReplayHolds(h: History, held: seq<Content>, m: nat)
    requires At(h, m) == []
    ensures forall p :: p in At(Replayed(h, held), m) <==>
              p != [] && exists i :: 0 <= i < |held| && p in At(held[i].messages, m)
    decreases |held|
  {
    if held != [] {
      var front, last := held[..|held| - 1], held[|held| - 1];
      ReplayHolds(h, front, m);
      var before := Replayed(h, front);
      WrittenHolds(At(before, m), At(last.messages, m));
      assert forall i :: 0 <= i < |front| ==> front[i] == held[i];
      if |held| > 1 && held[|held| - 2] == last {
        assert front[|front| - 1] == last;
      } else {
        DetailAt(before, last, m);
      }
    }
  }

  /** The message rows after a replay: those there were and those some version names. */
  lemma {:induction false} ReplayRows(h: History, held: seq<Content>, m: nat)
    ensures m in Replayed(h, held) <==> m in h || exists i :: 0 <= i < |held| && m in held[i].messages
    decreases |held|
  {
    if held != [] {
      var front, last := held[..|held| - 1], held[|held| - 1];
      ReplayRows(h, front, m);
      assert forall i :: 0 <= i < |front| ==> front[i] == held[i];
      if |held| > 1 && held[|held| - 2] == last { assert front[|front| - 1] == last; }
    }
  }
}
