/** Inspecting an archive from its entry metadata, and extracting what was inspected. */
module ArchiveInventory {
  import opened Orders
  import opened ArchivePaths

  const U64_MAX: nat := 0xFFFF_FFFF_FFFF_FFFF

  datatype Error = UnsupportedFormat | UnsafePath | DuplicateName | SpecialFile | LimitExceeded

  datatype Result<+T> = Ok(value: T) | Err(error: Error)

  /** Limits are 64-bit; so are declared sizes. */
  datatype Limits = Limits(maxEntries: nat, maxCompressed: nat, maxEntry: nat, maxDecompressed: nat, maxRatio: nat)

  /** An entry as the ZIP reader gives it: its decoded name, if it decodes, whether it is a special
      file or a directory, the declared sizes, whether a first read of it succeeds, and the chunks that
      reading all of it yields, after which the reader may still fail. */
  datatype Entry = Entry(name: Option<string>, special: bool, directory: bool, compressed: nat, size: nat,
                         opens: bool, chunks: seq<seq<nat>>, breaks: bool)

  datatype Listed = Listed(path: string, directory: bool, compressed: nat, size: nat)

  datatype Inventory = Inventory(entries: seq<Listed>, compressed: nat, decompressed: nat)

  ghost predicate Machine(limits: Limits, es: seq<Entry>) {
    && limits.maxCompressed <= U64_MAX && limits.maxEntry <= U64_MAX && limits.maxDecompressed <= U64_MAX
    && forall i :: 0 <= i < |es| ==> es[i].compressed <= U64_MAX && es[i].size <= U64_MAX
  }

  // ---------------------------------------------------------------- one entry

  function CheckedAdd(a: nat, b: nat): Option<nat> {
    if a + b <= U64_MAX then Some(a + b) else None
  }

  function SaturatingMul(a: nat, b: nat): nat {
    if a * b <= U64_MAX then a * b else U64_MAX
  }

  /** `checked_metadata_totals`. */
  function NextTotals(limits: Limits, e: Entry, compressed: nat, decompressed: nat): Option<(nat, nat)> {
    var c, d := CheckedAdd(compressed, e.compressed), CheckedAdd(decompressed, e.size);
    if c.None? || d.None? then None
    else if e.compressed > limits.maxCompressed || c.value > limits.maxCompressed || e.size > limits.maxEntry
            || d.value > limits.maxDecompressed || (e.compressed == 0 && e.size > 0)
            || (e.compressed > 0 && e.size > SaturatingMul(e.compressed, limits.maxRatio))
    then None
    else Some((c.value, d.value))
  }

  function ListedAs(e: Entry, path: string): Listed {
    Listed(path, e.directory, e.compressed, e.size)
  }

  function PathsOf(xs: seq<Listed>): set<string> {
    set i | 0 <= i < |xs| :: xs[i].path
  }

  /** One entry after those already in the inventory, checked in the order of the loop. */
  function Inspected1(limits: Limits, inv: Inventory, e: Entry): Result<Inventory> {
    if e.name.None? then Err(UnsupportedFormat) else
      var path := NormalizePath(e.name.value);
      if path.None? then Err(UnsafePath)
      else if path.value in PathsOf(inv.entries) then Err(DuplicateName)
      else if e.special then Err(SpecialFile)
      else
        var totals := NextTotals(limits, e, inv.compressed, inv.decompressed);
        if totals.None? then Err(LimitExceeded)
        else Ok(Inventory(inv.entries + [ListedAs(e, path.value)], totals.value.0, totals.value.1))
  }

  function InspectedAll(limits: Limits, es: seq<Entry>): Result<Inventory>
    decreases |es|
  {
    if es == [] then Ok(Inventory([], 0, 0)) else
      var before := InspectedAll(limits, es[..|es| - 1]);
      if before.Err? then before else Inspected1(limits, before.value, es[|es| - 1])
  }

  /** Classifying reads the first bytes of each file, and no further; directories are not read. */
  predicate Readable(es: seq<Entry>) {
    forall i :: 0 <= i < |es| && !es[i].directory ==> es[i].opens
  }

  function Inspected(limits: Limits, es: seq<Entry>): Result<Inventory> {
    if |es| > limits.maxEntries then Err(LimitExceeded) else
      var inv := InspectedAll(limits, es);
      if inv.Ok? && !Readable(es) then Err(UnsupportedFormat) else inv
  }

  // ---------------------------------------------------------------- exactly what is accepted

  function Sum(ns: seq<nat>): nat
    decreases |ns|
  {
    if ns == [] then 0 else Sum(ns[..|ns| - 1]) + ns[|ns| - 1]
  }

  function Compressed(es: seq<Entry>): seq<nat> { seq(|es|, i requires 0 <= i < |es| => es[i].compressed) }

  function Sizes(es: seq<Entry>): seq<nat> { seq(|es|, i requires 0 <= i < |es| => es[i].size) }

  function PathOf(e: Entry): Option<string> {
    if e.name.None? then None else NormalizePath(e.name.value)
  }

  /** An entry that fits on its own: a safe name, an ordinary file, and sizes within the limits, the
      ratio taken over unbounded integers. */
  predicate Fits(limits: Limits, e: Entry) {
    PathOf(e).Some? && !e.special && e.size <= limits.maxEntry && e.size <= limits.maxRatio * e.compressed
  }

  function Paths(es: seq<Entry>): seq<Option<string>> { seq(|es|, i requires 0 <= i < |es| => PathOf(es[i])) }

  ghost predicate Distinct(ps: seq<Option<string>>) {
    forall i, j :: 0 <= i < j < |ps| ==> ps[i] != ps[j]
  }

  ghost predicate DistinctPaths(es: seq<Entry>) {
    Distinct(Paths(es))
  }

  ghost predicate AllFit(limits: Limits, es: seq<Entry>) {
    forall i :: 0 <= i < |es| ==> Fits(limits, es[i])
  }

  ghost predicate Acceptable(limits: Limits, es: seq<Entry>) {
    AllFit(limits, es) && DistinctPaths(es) && Within(limits, Sum(Compressed(es)), Sum(Sizes(es)))
  }

  predicate Within(limits: Limits, compressed: nat, decompressed: nat) {
    compressed <= limits.maxCompressed && decompressed <= limits.maxDecompressed
  }

  /** A declared size is 64-bit, so saturating the product never changes the answer. */
  lemma SaturationIsExact(e: Entry, ratio: nat)
    requires e.size <= U64_MAX
    ensures (!(e.compressed == 0 && e.size > 0) && !(e.compressed > 0 && e.size > SaturatingMul(e.compressed, ratio)))
        <==> e.size <= ratio * e.compressed
  {
    assert e.compressed * ratio == ratio * e.compressed;
    if e.compressed == 0 { assert ratio * 0 == 0; }
  }

  lemma TotalsExactlyWhen(limits: Limits, e: Entry, c: nat, d: nat)
    requires limits.maxCompressed <= U64_MAX && limits.maxDecompressed <= U64_MAX && e.size <= U64_MAX
    ensures NextTotals(limits, e, c, d) ==
              if Within(limits, c + e.compressed, d + e.size)
                 && e.size <= limits.maxEntry && e.size <= limits.maxRatio * e.compressed
              then Some((c + e.compressed, d + e.size)) else None
  {
    SaturationIsExact(e, limits.maxRatio);
  }

  lemma SumAppends(ns: seq<nat>, n: nat)
    ensures Sum(ns + [n]) == Sum(ns) + n
  {
    assert (ns + [n])[..|ns|] == ns;
  }

  lemma SumsOf(es: seq<Entry>)
    requires es != []
    ensures Sum(Compressed(es)) == Sum(Compressed(es[..|es| - 1])) + es[|es| - 1].compressed
    ensures Sum(Sizes(es)) == Sum(Sizes(es[..|es| - 1])) + es[|es| - 1].size
  {
    var front, last := es[..|es| - 1], es[|es| - 1];
    assert Compressed(es) == Compressed(front) + [last.compressed];
    assert Sizes(es) == Sizes(front) + [last.size];
    SumAppends(Compressed(front), last.compressed);
    SumAppends(Sizes(front), last.size);
  }

  predicate IsListed(l: Listed, e: Entry) {
    PathOf(e) == Some(l.path) && l == ListedAs(e, l.path)
  }

  ghost predicate AllListed(xs: seq<Listed>, es: seq<Entry>)
    requires |xs| == |es|
  {
    forall i :: 0 <= i < |es| ==> IsListed(xs[i], es[i])
  }

  lemma AllListedLast(xs: seq<Listed>, es: seq<Entry>, l: Listed)
    requires es != [] && |xs| == |es| - 1 && AllListed(xs, es[..|es| - 1]) && IsListed(l, es[|es| - 1])
    ensures AllListed(xs + [l], es)
  {
    forall i | 0 <= i < |es| ensures IsListed((xs + [l])[i], es[i]) {
      if i < |xs| { assert IsListed(xs[i], es[..|es| - 1][i]); }
    }
  }

  /** What an accepted list of entries is listed as. */
  ghost predicate Lists(inv: Inventory, es: seq<Entry>) {
    && |inv.entries| == |es| && AllListed(inv.entries, es)
    && inv.compressed == Sum(Compressed(es)) && inv.decompressed == Sum(Sizes(es))
  }

  lemma PathIsListed(inv: Inventory, es: seq<Entry>, path: string)
    requires Lists(inv, es)
    ensures path in PathsOf(inv.entries) <==> Some(path) in Paths(es)
  {
    if Some(path) in Paths(es) {
      var i :| 0 <= i < |es| && Paths(es)[i] == Some(path);
      assert IsListed(inv.entries[i], es[i]);
    }
    if path in PathsOf(inv.entries) {
      var i :| 0 <= i < |inv.entries| && inv.entries[i].path == path;
      assert IsListed(inv.entries[i], es[i]) && Paths(es)[i] == Some(path);
    }
  }

  /** The loop accepts exactly the acceptable lists, and lists them with exact totals. */
  lemma {:induction false} InspectedExactlyWhen(limits: Limits, es: seq<Entry>)
    requires Machine(limits, es)
    ensures InspectedAll(limits, es).Ok? <==> Acceptable(limits, es)
    ensures InspectedAll(limits, es).Ok? ==> Lists(InspectedAll(limits, es).value, es)
    decreases |es|
  {
    if es != [] {
      var front := es[..|es| - 1];
      InspectedExactlyWhen(limits, front);
      if InspectedAll(limits, front).Ok? {
        LastExactlyWhen(limits, es, InspectedAll(limits, front).value);
      } else {
        AcceptableLast(limits, es);
      }
    }
  }

  lemma DistinctLast(ps: seq<Option<string>>, p: Option<string>)
    ensures Distinct(ps + [p]) <==> Distinct(ps) && p !in ps
  {
    if Distinct(ps + [p]) {
      forall i | 0 <= i < |ps| ensures ps[i] != p { assert (ps + [p])[i] != (ps + [p])[|ps|]; }
      forall i, j | 0 <= i < j < |ps| ensures ps[i] != ps[j] { assert (ps + [p])[i] != (ps + [p])[j]; }
    }
  }

  lemma AllFitLast(limits: Limits, es: seq<Entry>)
    requires es != []
    ensures AllFit(limits, es) <==> AllFit(limits, es[..|es| - 1]) && Fits(limits, es[|es| - 1])
  {
    var front := es[..|es| - 1];
    if AllFit(limits, es) {
      forall i | 0 <= i < |front| ensures Fits(limits, front[i]) { assert Fits(limits, es[i]); }
    } else if AllFit(limits, front) {
      var i :| 0 <= i < |es| && !Fits(limits, es[i]);
      assert i < |front| ==> front[i] == es[i];
    }
  }

  lemma DistinctPathsLast(es: seq<Entry>)
    requires es != []
    ensures DistinctPaths(es) <==> DistinctPaths(es[..|es| - 1]) && PathOf(es[|es| - 1]) !in Paths(es[..|es| - 1])
  {
    assert Paths(es) == Paths(es[..|es| - 1]) + [PathOf(es[|es| - 1])];
    DistinctLast(Paths(es[..|es| - 1]), PathOf(es[|es| - 1]));
  }

  /** What one more entry has to satisfy. */
  ghost predicate Joins(limits: Limits, es: seq<Entry>, e: Entry) {
    && Fits(limits, e) && PathOf(e) !in Paths(es)
    && Within(limits, Sum(Compressed(es)) + e.compressed, Sum(Sizes(es)) + e.size)
  }

  lemma AcceptableLast(limits: Limits, es: seq<Entry>)
    requires es != []
    ensures Acceptable(limits, es)
       <==> Acceptable(limits, es[..|es| - 1]) && Joins(limits, es[..|es| - 1], es[|es| - 1])
  {
    SumsOf(es);
    AllFitLast(limits, es);
    DistinctPathsLast(es);
  }

  /** An inventory with one more entry. */
  ghost function With(inv: Inventory, e: Entry, path: string): Inventory {
    Inventory(inv.entries + [ListedAs(e, path)], inv.compressed + e.compressed, inv.decompressed + e.size)
  }

  lemma ListsLast(inv: Inventory, es: seq<Entry>, path: string)
    requires es != [] && Lists(inv, es[..|es| - 1]) && PathOf(es[|es| - 1]) == Some(path)
    ensures var e := es[|es| - 1];
            Lists(With(inv, e, path), es)
  {
    SumsOf(es);
    AllListedLast(inv.entries, es, ListedAs(es[|es| - 1], path));
  }

  /** One step of the loop: it goes on exactly when the entry joins those before it. */
  lemma StepExactlyWhen(limits: Limits, es: seq<Entry>, inv: Inventory, e: Entry)
    requires Machine(limits, [e]) && Lists(inv, es)
    ensures Inspected1(limits, inv, e).Ok? <==> Joins(limits, es, e)
    ensures Inspected1(limits, inv, e).Ok? ==> PathOf(e).Some?
    ensures Inspected1(limits, inv, e).Ok? ==>
              Inspected1(limits, inv, e).value == With(inv, e, PathOf(e).value)
  {
    assert [e][0] == e;
    TotalsExactlyWhen(limits, e, inv.compressed, inv.decompressed);
    if PathOf(e).Some? { PathIsListed(inv, es, PathOf(e).value); }
  }

  lemma LastExactlyWhen(limits: Limits, es: seq<Entry>, inv: Inventory)
    requires es != [] && Machine(limits, es) && Acceptable(limits, es[..|es| - 1]) && Lists(inv, es[..|es| - 1])
    ensures Inspected1(limits, inv, es[|es| - 1]).Ok? <==> Acceptable(limits, es)
    ensures Inspected1(limits, inv, es[|es| - 1]).Ok? ==> Lists(Inspected1(limits, inv, es[|es| - 1]).value, es)
  {
    AcceptableLast(limits, es);
    StepExactlyWhen(limits, es[..|es| - 1], inv, es[|es| - 1]);
    if Inspected1(limits, inv, es[|es| - 1]).Ok? { ListsLast(inv, es, PathOf(es[|es| - 1]).value); }
  }

  // ---------------------------------------------------------------- what an accepted archive is

  lemma RatiosAdd(ratio: nat, a: nat, b: nat, x: nat, y: nat)
    requires x <= ratio * a && y <= ratio * b
    ensures x + y <= ratio * (a + b)
  {
    assert ratio * (a + b) == ratio * a + ratio * b;
  }

  ghost predicate RatioHolds(ratio: nat, es: seq<Entry>) {
    forall i :: 0 <= i < |es| ==> es[i].size <= ratio * es[i].compressed
  }

  lemma {:induction false} RatioOfSums(ratio: nat, es: seq<Entry>)
    requires RatioHolds(ratio, es)
    ensures Sum(Sizes(es)) <= ratio * Sum(Compressed(es))
    decreases |es|
  {
    if es == [] {
      assert Sum(Compressed(es)) == 0 && Sum(Sizes(es)) == 0;
    } else {
      var front, last := es[..|es| - 1], es[|es| - 1];
      RatioOfSums(ratio, front);
      SumsOf(es);
      RatiosAdd(ratio, Sum(Compressed(front)), last.compressed, Sum(Sizes(front)), last.size);
    }
  }

  /** An accepted archive has exact totals within the limits, no more bytes than the ratio times the
      compressed ones, distinct paths, and each path its own normal form. */
  lemma AcceptedIsBounded(limits: Limits, es: seq<Entry>)
    requires Machine(limits, es) && Inspected(limits, es).Ok?
    ensures var inv := Inspected(limits, es).value;
            && |inv.entries| == |es| <= limits.maxEntries
            && inv.compressed == Sum(Compressed(es)) <= limits.maxCompressed
            && inv.decompressed == Sum(Sizes(es)) <= limits.maxDecompressed
            && inv.decompressed <= limits.maxRatio * inv.compressed
            && (forall i, j :: 0 <= i < j < |es| ==> inv.entries[i].path != inv.entries[j].path)
            && (forall i :: 0 <= i < |es| ==> NormalizePath(inv.entries[i].path) == Some(inv.entries[i].path))
  {
    InspectedExactlyWhen(limits, es);
    assert RatioHolds(limits.maxRatio, es) by {
      forall i | 0 <= i < |es| ensures es[i].size <= limits.maxRatio * es[i].compressed { assert Fits(limits, es[i]); }
    }
    RatioOfSums(limits.maxRatio, es);
    var inv := Inspected(limits, es).value;
    forall i | 0 <= i < |es|
      ensures Paths(es)[i] == Some(inv.entries[i].path)
      ensures NormalizePath(inv.entries[i].path) == Some(inv.entries[i].path)
    {
      assert IsListed(inv.entries[i], es[i]);
      NormalizedIsFixed(es[i].name.value);
    }
  }

  /** The whole inspection: it succeeds exactly on acceptable, readable archives within the count. */
  lemma InspectionExactlyWhen(limits: Limits, es: seq<Entry>)
    requires Machine(limits, es)
    ensures Inspected(limits, es).Ok? <==> |es| <= limits.maxEntries && Acceptable(limits, es) && Readable(es)
  {
    InspectedExactlyWhen(limits, es);
  }

  // ---------------------------------------------------------------- the loops

  method CheckedTotals(limits: Limits, e: Entry, compressed: nat, decompressed: nat) returns (r: Option<(nat, nat)>)
    ensures r == NextTotals(limits, e, compressed, decompressed)
  {
    if compressed + e.compressed > U64_MAX || decompressed + e.size > U64_MAX { return None; }
    var c, d := compressed + e.compressed, decompressed + e.size;
    if e.compressed > limits.maxCompressed || c > limits.maxCompressed
       || e.size > limits.maxEntry || d > limits.maxDecompressed
    {
      return None;
    }
    if e.compressed == 0 {
      if e.size > 0 { return None; }
    } else if e.size > SaturatingMul(e.compressed, limits.maxRatio) {
      return None;
    }
    r := Some((c, d));
  }

  method InspectZip(limits: Limits, es: seq<Entry>) returns (r: Result<Inventory>)
    ensures r == Inspected(limits, es)
  {
    if |es| > limits.maxEntries { return Err(LimitExceeded); }
    var names, inv := {}, Inventory([], 0, 0);
    for i := 0 to |es|
      invariant InspectedAll(limits, es[..i]) == Ok(inv) && names == PathsOf(inv.entries)
    {
      assert es[..i + 1][..i] == es[..i];
      RefusalStays(limits, es, i + 1);
      var e := es[i];
      if e.name.None? { return Err(UnsupportedFormat); }
      var path := NormalizePath(e.name.value);
      if path.None? { return Err(UnsafePath); }
      if path.value in names { return Err(DuplicateName); }
      if e.special { return Err(SpecialFile); }
      var totals := CheckedTotals(limits, e, inv.compressed, inv.decompressed);
      if totals.None? { return Err(LimitExceeded); }
      PathsGrow(inv.entries, ListedAs(e, path.value));
      names := names + {path.value};
      inv := Inventory(inv.entries + [ListedAs(e, path.value)], totals.value.0, totals.value.1);
    }
    assert es[..|es|] == es;
    for i := 0 to |es|
      invariant forall j :: 0 <= j < i && !es[j].directory ==> es[j].opens
    {
      if !es[i].directory && !es[i].opens { return Err(UnsupportedFormat); }
    }
    r := Ok(inv);
  }

  lemma PathsGrow(xs: seq<Listed>, x: Listed)
    ensures PathsOf(xs + [x]) == PathsOf(xs) + {x.path}
  {
    var ys := xs + [x];
    forall p ensures p in PathsOf(ys) <==> p in PathsOf(xs) + {x.path} {
      if p in PathsOf(xs) {
        var i :| 0 <= i < |xs| && xs[i].path == p;
        assert ys[i].path == p;
      }
      if p == x.path { assert ys[|xs|].path == p; }
    }
  }

  /** What is refused at one entry is refused for good. */
  lemma {:induction false} RefusalStays(limits: Limits, es: seq<Entry>, n: nat)
    requires n <= |es|
    ensures InspectedAll(limits, es[..n]).Err? ==> InspectedAll(limits, es) == InspectedAll(limits, es[..n])
    decreases |es|
  {
    if n == |es| {
      assert es[..n] == es;
    } else {
      assert es[..|es| - 1][..n] == es[..n];
      RefusalStays(limits, es[..|es| - 1], n);
    }
  }

  // ---------------------------------------------------------------- extraction

  datatype Artifact = Artifact(entry: Listed, bytes: seq<nat>)

  function Flat(chunks: seq<seq<nat>>): seq<nat>
    decreases |chunks|
  {
    if chunks == [] then [] else Flat(chunks[..|chunks| - 1]) + chunks[|chunks| - 1]
  }

  /** The bytes that reading an entry yields. */
  function BytesOf(e: Entry): seq<nat> { Flat(e.chunks) }

  lemma {:induction false} FlatGrows(chunks: seq<seq<nat>>, n: nat)
    requires n <= |chunks|
    ensures |Flat(chunks[..n])| <= |Flat(chunks)|
    decreases |chunks|
  {
    if n == |chunks| {
      assert chunks[..n] == chunks;
    } else {
      assert chunks[..|chunks| - 1][..n] == chunks[..n];
      FlatGrows(chunks[..|chunks| - 1], n);
    }
  }

  /** Copies one entry chunk by chunk; refuses once either counter passes its limit. */
  method CopyEntry(limits: Limits, e: Entry, declared: nat, before: nat) returns (r: Result<seq<nat>>)
    requires declared <= limits.maxEntry <= U64_MAX && before + declared <= limits.maxDecompressed <= U64_MAX
    ensures r.Ok? <==> !e.breaks && |BytesOf(e)| == declared
    ensures r.Ok? ==> r.value == BytesOf(e)
    ensures r == Err(LimitExceeded) <==>
            |BytesOf(e)| > limits.maxEntry || before + |BytesOf(e)| > limits.maxDecompressed
  {
    var chunks, written := e.chunks, [];
    for i := 0 to |chunks|
      invariant written == Flat(chunks[..i])
      invariant |written| <= limits.maxEntry && before + |written| <= limits.maxDecompressed
    {
      assert chunks[..i + 1][..i] == chunks[..i];
      FlatGrows(chunks, i + 1);
      var entryTotal, total := CheckedAdd(|written|, |chunks[i]|), CheckedAdd(before + |written|, |chunks[i]|);
      if entryTotal.None? || total.None?
         || entryTotal.value > limits.maxEntry || total.value > limits.maxDecompressed
      {
        return Err(LimitExceeded);
      }
      written := written + chunks[i];
    }
    assert chunks[..|chunks|] == chunks;
    if e.breaks || |written| != declared { return Err(UnsupportedFormat); }
    r := Ok(written);
  }

  /** A file entry that is still the listed one and holds the bytes it declares. */
  predicate Matches(l: Listed, e: Entry) {
    !l.directory ==> PathOf(e) == Some(l.path) && !e.breaks && |BytesOf(e)| == l.size
  }

  ghost predicate AllMatch(xs: seq<Listed>, es: seq<Entry>)
    requires |xs| == |es|
  {
    forall i :: 0 <= i < |xs| ==> Matches(xs[i], es[i])
  }

  /** The files of an archive, each with exactly the bytes it holds. */
  function ArtifactsOf(xs: seq<Listed>, es: seq<Entry>): seq<Artifact>
    requires |xs| == |es|
    decreases |xs|
  {
    if xs == [] then [] else
      var n := |xs| - 1;
      ArtifactsOf(xs[..n], es[..n]) + if xs[n].directory then [] else [Artifact(xs[n], BytesOf(es[n]))]
  }

  function FileSize(l: Listed): nat { if l.directory then 0 else l.size }

  function FileSizes(xs: seq<Listed>): nat
    decreases |xs|
  {
    if xs == [] then 0 else FileSizes(xs[..|xs| - 1]) + FileSize(xs[|xs| - 1])
  }

  lemma {:induction false} FilesGrow(xs: seq<Listed>, n: nat)
    requires n < |xs|
    ensures FileSizes(xs[..n]) + FileSize(xs[n]) == FileSizes(xs[..n + 1]) <= FileSizes(xs)
    decreases |xs|
  {
    var front := xs[..|xs| - 1];
    assert xs[..n + 1][..n] == xs[..n];
    if n == |xs| - 1 {
      assert xs[..n + 1] == xs;
    } else {
      assert front[..n] == xs[..n] && front[n] == xs[n] && front[..n + 1] == xs[..n + 1];
      FilesGrow(front, n);
    }
  }

  /** The files of an inspected archive are within the limits of extraction. */
  lemma {:induction false} FilesWithin(es: seq<Entry>, inv: Inventory)
    requires Lists(inv, es)
    ensures FileSizes(inv.entries) <= inv.decompressed
  {
    FilesWithinSizes(inv.entries, es);
  }

  lemma {:induction false} FilesWithinSizes(xs: seq<Listed>, es: seq<Entry>)
    requires |xs| == |es| && forall i :: 0 <= i < |xs| ==> xs[i].size == es[i].size
    ensures FileSizes(xs) <= Sum(Sizes(es))
    decreases |xs|
  {
    if xs != [] {
      FilesWithinSizes(xs[..|xs| - 1], es[..|es| - 1]);
      SumsOf(es);
    }
  }

  method ExtractOne(limits: Limits, l: Listed, e: Entry, total: nat) returns (r: Result<seq<nat>>)
    requires !l.directory && l.size <= limits.maxEntry <= U64_MAX
    requires total + l.size <= limits.maxDecompressed <= U64_MAX
    ensures r.Ok? <==> Matches(l, e)
    ensures r.Ok? ==> r.value == BytesOf(e)
  {
    if e.name.None? { return Err(UnsupportedFormat); }
    var path := NormalizePath(e.name.value);
    if path != Some(l.path) { return Err(UnsafePath); }
    r := CopyEntry(limits, e, l.size, total);
  }

  /** Where extraction stands after `n` entries that all matched. */
  ghost predicate Extracting(xs: seq<Listed>, es: seq<Entry>, n: nat, artifacts: seq<Artifact>, total: nat)
    requires n <= |xs| == |es|
  {
    && (forall i :: 0 <= i < n ==> Matches(xs[i], es[i]))
    && artifacts == ArtifactsOf(xs[..n], es[..n]) && total == FileSizes(xs[..n])
  }

  lemma ExtractingStep(xs: seq<Listed>, es: seq<Entry>, n: nat, artifacts: seq<Artifact>, total: nat)
    requires n < |xs| == |es| && Extracting(xs, es, n, artifacts, total) && Matches(xs[n], es[n])
    ensures var more := if xs[n].directory then [] else [Artifact(xs[n], BytesOf(es[n]))];
            Extracting(xs, es, n + 1, artifacts + more, total + FileSize(xs[n]))
  {
    assert xs[..n + 1][..n] == xs[..n] && es[..n + 1][..n] == es[..n];
    FilesGrow(xs, n);
  }

  lemma ExtractingEnds(xs: seq<Listed>, es: seq<Entry>, artifacts: seq<Artifact>, total: nat)
    requires |xs| == |es| && Extracting(xs, es, |xs|, artifacts, total)
    ensures AllMatch(xs, es) && artifacts == ArtifactsOf(xs, es)
  {
    assert xs[..|xs|] == xs && es[..|es|] == es;
  }

  /** Extraction of an inspected archive: it succeeds exactly when every file is still there and holds
      the bytes its entry declares, and then stages exactly those. */
  method ExtractEntries(limits: Limits, xs: seq<Listed>, es: seq<Entry>) returns (r: Result<seq<Artifact>>)
    requires |xs| == |es| && limits.maxEntry <= U64_MAX && limits.maxDecompressed <= U64_MAX
    requires (forall i :: 0 <= i < |xs| ==> xs[i].size <= limits.maxEntry) && FileSizes(xs) <= limits.maxDecompressed
    ensures r.Ok? <==> AllMatch(xs, es)
    ensures r.Ok? ==> r.value == ArtifactsOf(xs, es)
  {
    var total: nat, artifacts := 0, [];
    for i := 0 to |xs|
      invariant Extracting(xs, es, i, artifacts, total)
    {
      FilesGrow(xs, i);
      ghost var before := artifacts;
      if xs[i].directory {
        ExtractingStep(xs, es, i, before, total);
        assert before + [] == before;
      } else {
        var copied := ExtractOne(limits, xs[i], es[i], total);
        if copied.Err? { return Err(copied.error); }
        ExtractingStep(xs, es, i, before, total);
        artifacts := artifacts + [Artifact(xs[i], copied.value)];
        total := total + |copied.value|;
      }
    }
    ExtractingEnds(xs, es, artifacts, total);
    r := Ok(artifacts);
  }

  function Staged(xs: seq<Artifact>): nat
    decreases |xs|
  {
    if xs == [] then 0 else Staged(xs[..|xs| - 1]) + |xs[|xs| - 1].bytes|
  }

  lemma StagedAppends(xs: seq<Artifact>, x: Artifact)
    ensures Staged(xs + [x]) == Staged(xs) + |x.bytes|
  {
    assert (xs + [x])[..|xs|] == xs;
  }

  /** What is staged is exactly what the file entries declare. */
  lemma {:induction false} StagedIsDeclared(xs: seq<Listed>, es: seq<Entry>)
    requires |xs| == |es| && AllMatch(xs, es)
    ensures Staged(ArtifactsOf(xs, es)) == FileSizes(xs)
    decreases |xs|
  {
    if xs != [] {
      var n := |xs| - 1;
      forall i | 0 <= i < n ensures Matches(xs[..n][i], es[..n][i]) { assert Matches(xs[i], es[i]); }
      StagedIsDeclared(xs[..n], es[..n]);
      assert Matches(xs[n], es[n]);
      var before := ArtifactsOf(xs[..n], es[..n]);
      if xs[n].directory {
        assert before + [] == before;
      } else {
        StagedAppends(before, Artifact(xs[n], BytesOf(es[n])));
      }
    }
  }

  // ---------------------------------------------------------------- inspection, then extraction

  /** A file that reads to its end and holds exactly the bytes it declares. */
  predicate Whole(e: Entry) {
    e.directory || (!e.breaks && |BytesOf(e)| == e.size)
  }

  ghost predicate AllWhole(es: seq<Entry>) {
    forall i :: 0 <= i < |es| ==> Whole(es[i])
  }

  /** Of an inspected archive, the files that extract are the whole ones. */
  lemma WholeExtracts(inv: Inventory, es: seq<Entry>)
    requires Lists(inv, es)
    ensures AllMatch(inv.entries, es) <==> AllWhole(es)
  {
    forall i | 0 <= i < |es| ensures Matches(inv.entries[i], es[i]) <==> Whole(es[i]) {
      assert IsListed(inv.entries[i], es[i]);
    }
  }

  /** An accepted inventory meets everything extraction relies on. */
  lemma AcceptedMayExtract(limits: Limits, es: seq<Entry>)
    requires Machine(limits, es) && Inspected(limits, es).Ok?
    ensures var inv := Inspected(limits, es).value;
            && |inv.entries| == |es|
            && (forall i :: 0 <= i < |es| ==> inv.entries[i].size <= limits.maxEntry)
            && FileSizes(inv.entries) <= limits.maxDecompressed
            && (AllMatch(inv.entries, es) <==> AllWhole(es))
  {
    InspectedExactlyWhen(limits, es);
    var inv := Inspected(limits, es).value;
    forall i | 0 <= i < |es| ensures inv.entries[i].size <= limits.maxEntry {
      assert IsListed(inv.entries[i], es[i]) && Fits(limits, es[i]);
    }
    FilesWithin(es, inv);
    WholeExtracts(inv, es);
  }

  /** Extraction inspects the archive again and insists on the inventory it was given. It succeeds
      exactly when the archive still inspects to that inventory and every file reads to its end and to
      its declared size; it then stages exactly those bytes, never more than the limit. */
  method ExtractZipToStaging(limits: Limits, es: seq<Entry>, expected: Inventory) returns (r: Result<seq<Artifact>>)
    requires Machine(limits, es)
    ensures r.Ok? <==> Inspected(limits, es) == Ok(expected) && AllWhole(es)
    ensures r.Ok? ==> |expected.entries| == |es| && r.value == ArtifactsOf(expected.entries, es)
    ensures r.Ok? ==> Staged(r.value) == FileSizes(expected.entries) <= limits.maxDecompressed
  {
    var inspected := InspectZip(limits, es);
    if inspected.Err? { return Err(inspected.error); }
    if inspected.value != expected { return Err(UnsupportedFormat); }
    AcceptedMayExtract(limits, es);
    r := ExtractEntries(limits, inspected.value.entries, es);
    if r.Ok? { StagedIsDeclared(expected.entries, es); }
  }
}
