/** Names of archive entries: what is refused and what an accepted name becomes. */
module ArchivePaths {
  import opened Orders

  predicate Separator(c: char) { c == '/' || c == '\\' }

  /** The parts between separators. */
  function Split(s: string): (r: seq<string>)
    ensures r != []
    decreases |s|
  {
    if s == [] then [[]] else
      var before := Split(s[..|s| - 1]);
      var c := s[|s| - 1];
      if Separator(c) then before + [[]] else before[..|before| - 1] + [before[|before| - 1] + [c]]
  }

  predicate Kept(part: string) { part != "" && part != "." }

  function Filtered(parts: seq<string>): seq<string>
    decreases |parts|
  {
    if parts == [] then [] else
      var before, last := Filtered(parts[..|parts| - 1]), parts[|parts| - 1];
      if Kept(last) then before + [last] else before
  }

  function Join(parts: seq<string>): string
    decreases |parts|
  {
    if parts == [] then "" else if |parts| == 1 then parts[0]
    else Join(parts[..|parts| - 1]) + "/" + parts[|parts| - 1]
  }

  /** `normalize_path`; None is an unsafe path. */
  function NormalizePath(name: string): Option<string> {
    if name == "" || Separator(name[0]) || ".." in Split(name) then None
    else
      var parts := Filtered(Split(name));
      if parts == [] || exists i :: 0 <= i < |parts| && ':' in parts[i] then None
      else Some(Join(parts))
  }

  // ---------------------------------------------------------------- fixed points

  predicate Plain(part: string) {
    forall i :: 0 <= i < |part| ==> !Separator(part[i])
  }

  lemma {:induction false} SplitIsPlain(s: string)
    ensures forall i :: 0 <= i < |Split(s)| ==> Plain(Split(s)[i])
    decreases |s|
  {
    if s != [] { SplitIsPlain(s[..|s| - 1]); }
  }

  lemma {:induction false} FilteredFrom(parts: seq<string>)
    ensures forall p :: p in Filtered(parts) <==> p in parts && Kept(p)
    decreases |parts|
  {
    if parts != [] {
      FilteredFrom(parts[..|parts| - 1]);
      assert parts == parts[..|parts| - 1] + [parts[|parts| - 1]];
    }
  }

  lemma {:induction false} FilteredFixed(parts: seq<string>)
    requires forall i :: 0 <= i < |parts| ==> Kept(parts[i])
    ensures Filtered(parts) == parts
    decreases |parts|
  {
    if parts != [] {
      FilteredFixed(parts[..|parts| - 1]);
      assert parts == parts[..|parts| - 1] + [parts[|parts| - 1]];
    }
  }

  /** Reading on from a separator. */
  lemma {:induction false} SplitAppends(s: string, part: string)
    requires Plain(part)
    ensures Split(s + "/" + part) == Split(s) + [part]
    decreases |part|
  {
    var whole := s + "/" + part;
    if part == [] {
      assert whole[..|whole| - 1] == s;
    } else {
      var front, last := part[..|part| - 1], part[|part| - 1];
      SplitAppends(s, front);
      assert whole[..|whole| - 1] == s + "/" + front;
      assert (Split(s) + [front])[..|Split(s)|] == Split(s);
      assert front + [last] == part;
    }
  }

  lemma {:induction false} SplitPlain(part: string)
    requires Plain(part)
    ensures Split(part) == [part]
    decreases |part|
  {
    if part != [] {
      SplitPlain(part[..|part| - 1]);
      assert part[..|part| - 1] + [part[|part| - 1]] == part;
    }
  }

  lemma {:induction false} SplitJoin(parts: seq<string>)
    requires parts != [] && forall i :: 0 <= i < |parts| ==> Plain(parts[i])
    ensures Split(Join(parts)) == parts
    decreases |parts|
  {
    if |parts| == 1 {
      SplitPlain(parts[0]);
    } else {
      SplitJoin(parts[..|parts| - 1]);
      SplitAppends(Join(parts[..|parts| - 1]), parts[|parts| - 1]);
      assert parts == parts[..|parts| - 1] + [parts[|parts| - 1]];
    }
  }

  lemma {:induction false} JoinStarts(parts: seq<string>)
    requires parts != [] && forall i :: 0 <= i < |parts| ==> Plain(parts[i]) && Kept(parts[i])
    ensures Join(parts) != "" && !Separator(Join(parts)[0])
    decreases |parts|
  {
    if |parts| > 1 { JoinStarts(parts[..|parts| - 1]); }
  }

  /** The components of a path that is safe to use: none is empty, `.`, `..` or holds a colon or a
      separator. */
  predicate SafePart(part: string) {
    Plain(part) && Kept(part) && part != ".." && ':' !in part
  }

  /** An accepted name becomes a list of safe components, and normalizing it again changes nothing. */
  lemma NormalizedIsFixed(name: string)
    requires NormalizePath(name).Some?
    ensures NormalizePath(NormalizePath(name).value) == NormalizePath(name)
    ensures forall i :: 0 <= i < |Split(NormalizePath(name).value)| ==> SafePart(Split(NormalizePath(name).value)[i])
  {
    var parts := Filtered(Split(name));
    SplitIsPlain(name);
    FilteredFrom(Split(name));
    forall i | 0 <= i < |parts| ensures SafePart(parts[i]) {
      assert parts[i] in parts;
      var k :| 0 <= k < |Split(name)| && Split(name)[k] == parts[i];
    }
    SplitJoin(parts);
    JoinStarts(parts);
    FilteredFixed(parts);
    assert ".." !in parts;
  }

  lemma {:induction false} NoBackslash(parts: seq<string>)
    requires forall i :: 0 <= i < |parts| ==> Plain(parts[i])
    ensures '\\' !in Join(parts)
    decreases |parts|
  {
    if |parts| > 1 { NoBackslash(parts[..|parts| - 1]); }
  }

  lemma JoinExtends(parts: seq<string>, c: char)
    requires parts != []
    ensures Join(parts[..|parts| - 1] + [parts[|parts| - 1] + [c]]) == Join(parts) + [c]
  {
    var longer := parts[..|parts| - 1] + [parts[|parts| - 1] + [c]];
    assert longer[..|longer| - 1] == parts[..|parts| - 1];
    if |parts| > 1 {
      var front := Join(parts[..|parts| - 1]) + "/";
      assert front + (parts[|parts| - 1] + [c]) == front + parts[|parts| - 1] + [c];
    }
  }

  lemma {:induction false} JoinSplit(s: string)
    requires '\\' !in s
    ensures Join(Split(s)) == s
    decreases |s|
  {
    if s != [] {
      var front, c := s[..|s| - 1], s[|s| - 1];
      assert c in s && s == front + [c];
      JoinSplit(front);
      var before := Split(front);
      if Separator(c) {
        assert (before + [[]])[..|before|] == before;
        assert front + "/" + [] == front + "/";
      } else {
        JoinExtends(before, c);
      }
    }
  }

  ghost predicate AllSafe(parts: seq<string>) {
    forall i :: 0 <= i < |parts| ==> SafePart(parts[i])
  }

  lemma NoneIsParent(parts: seq<string>)
    requires AllSafe(parts)
    ensures ".." !in parts && !exists i :: 0 <= i < |parts| && ':' in parts[i]
  {
  }

  lemma SafeIsFixed(name: string)
    requires AllSafe(Split(name)) && '\\' !in name
    ensures NormalizePath(name) == Some(name)
  {
    var parts := Split(name);
    assert Filtered(parts) == parts by { FilteredFixed(parts); }
    assert Join(parts) == name by { JoinSplit(name); }
    assert name != "" && !Separator(name[0]) by { JoinStarts(parts); }
    NoneIsParent(parts);
  }

  /** A name is its own normal form exactly when all its components are safe and no separator is a
      backslash. */
  lemma FixedExactlyWhen(name: string)
    ensures NormalizePath(name) == Some(name) <==> AllSafe(Split(name)) && '\\' !in name
  {
    if NormalizePath(name) == Some(name) {
      NormalizedIsFixed(name);
      SplitIsPlain(name);
      var parts := Filtered(Split(name));
      FilteredFrom(Split(name));
      forall i | 0 <= i < |parts| ensures Plain(parts[i]) { assert parts[i] in parts; }
      NoBackslash(parts);
    }
    if AllSafe(Split(name)) && '\\' !in name { SafeIsFixed(name); }
  }
}
