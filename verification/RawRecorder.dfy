/** The parser's pushes of raw records, in its order. */
module RawRecorder {
  import opened JsonPointer
  import opened RawRecords

  method RecordBelow(raw: seq<string>, path: string, segment: string, keys: seq<string>,
                     ghost done: seq<Path>, ghost p: Path)
    returns (r: seq<string>)
    requires raw == Written(done) && path == Encoded(p)
    ensures r == Written(done + ExtraPaths(p + [segment], keys))
  {
    var child := Below(path, segment, p);
    r := RecordExtra(raw, child, keys, done, p + [segment]);
  }

  method PushBelow(raw: seq<string>, path: string, segment: string, ghost done: seq<Path>, ghost p: Path)
    returns (r: seq<string>)
    requires raw == Written(done) && path == Encoded(p)
    ensures r == Written(done + [p + [segment]])
  {
    var child := Below(path, segment, p);
    r := Push(raw, child, done, p + [segment]);
  }

  method PushTwoBelow(raw: seq<string>, path: string, first: string, second: string,
                      ghost done: seq<Path>, ghost p: Path)
    returns (r: seq<string>)
    requires raw == Written(done) && path == Encoded(p)
    ensures r == Written(done + [p + [first, second]])
  {
    var child := Below(path, first, p);
    assert p + [first] + [second] == p + [first, second];
    r := PushBelow(raw, child, second, done, p + [first]);
  }

  method RecordPartsBelow(raw: seq<string>, path: string, segment: string, unknown: seq<bool>,
                          ghost done: seq<Path>, ghost p: Path)
    returns (r: seq<string>)
    requires raw == Written(done) && path == Encoded(p)
    ensures r == Written(done + PartPaths(p + [segment], unknown))
  {
    var child := Below(path, segment, p);
    r := RecordParts(raw, child, unknown, done, p + [segment]);
  }

  lemma Regrouped(done: seq<Path>, e: seq<Path>, a: seq<Path>, d: seq<Path>, c: seq<Path>, r: seq<Path>, t: seq<Path>)
    ensures done + e + a + d + c + r + t == done + (e + a + d + c + r + t)
  {
  }

  method RecordMessage(raw: seq<string>, path: string, m: MessageInput, ghost done: seq<Path>, ghost p: Path)
    returns (r: seq<string>)
    requires raw == Written(done) && path == Encoded(p)
    ensures r == Written(done + MessagePaths(p, m))
  {
    ghost var e, a, d, c := ExtraPaths(p, m.extra), ExtraPaths(p + ["author"], m.author),
        ExtraPaths(p + ["metadata"], m.metadata), ExtraPaths(p + ["content"], m.content);
    ghost var role := if m.roleUnknown then [p + ["author", "role"]] else [];
    ghost var parts := PartPaths(p + ["content"], m.partUnknown);
    Regrouped(done, e, a, d, c, role, parts);
    r := RecordExtra(raw, path, m.extra, done, p);
    r := RecordBelow(r, path, "author", m.author, done + e, p);
    r := RecordBelow(r, path, "metadata", m.metadata, done + e + a, p);
    r := RecordBelow(r, path, "content", m.content, done + e + a + d, p);
    if m.roleUnknown {
      r := PushTwoBelow(r, path, "author", "role", done + e + a + d + c, p);
    } else {
      assert done + e + a + d + c + role == done + e + a + d + c;
    }
    r := RecordPartsBelow(r, path, "content", m.partUnknown, done + e + a + d + c + role, p);
  }

  method RecordMessageBelow(raw: seq<string>, path: string, m: MessageInput, ghost done: seq<Path>, ghost p: Path)
    returns (r: seq<string>)
    requires raw == Written(done) && path == Encoded(p)
    ensures r == Written(done + MessagePaths(p + ["message"], m))
  {
    var message := Below(path, "message", p);
    r := RecordMessage(raw, message, m, done, p + ["message"]);
  }

  method RecordNode(raw: seq<string>, path: string, n: NodeInput, ghost done: seq<Path>, ghost p: Path)
    returns (r: seq<string>)
    requires raw == Written(done) && path == Encoded(p)
    ensures r == Written(done + NodePaths(p, n))
  {
    r := RecordExtra(raw, path, n.extra, done, p);
    ghost var e, id := ExtraPaths(p, n.extra), if n.idDiffers then [p + ["id"]] else [];
    ghost var m := if n.message.Some? then MessagePaths(p + ["message"], n.message.value) else [];
    Regrouped(done, e, id, m, [], [], []);
    if n.idDiffers {
      r := PushBelow(r, path, "id", done + e, p);
    } else {
      assert done + e + id == done + e;
    }
    if n.message.Some? {
      r := RecordMessageBelow(r, path, n.message.value, done + e + id, p);
    } else {
      assert done + e + id + m == done + e + id;
    }
    assert e + id + m + [] + [] + [] == NodePaths(p, n);
    assert done + e + id + m + [] + [] + [] == done + e + id + m;
  }

  lemma MappingNext(done: seq<Path>, q: Path, ns: seq<NodeInput>, i: nat)
    requires i < |ns|
    ensures done + MappingPaths(q, ns[..i]) + NodePaths(q + [ns[i].key], ns[i]) == done + MappingPaths(q, ns[..i + 1])
  {
    assert ns[..i + 1][..i] == ns[..i];
  }

  method RecordMapping(raw: seq<string>, path: string, ns: seq<NodeInput>, ghost done: seq<Path>, ghost p: Path)
    returns (r: seq<string>)
    requires raw == Written(done) && path == Encoded(p)
    ensures r == Written(done + MappingPaths(p, ns))
  {
    r := raw;
    assert done + MappingPaths(p, ns[..0]) == done;
    for i := 0 to |ns|
      invariant r == Written(done + MappingPaths(p, ns[..i]))
    {
      MappingNext(done, p, ns, i);
      var node := Below(path, ns[i].key, p);
      r := RecordNode(r, node, ns[i], done + MappingPaths(p, ns[..i]), p + [ns[i].key]);
    }
    assert ns[..|ns|] == ns;
  }

  method RecordConversation(raw: seq<string>, path: string, c: ConversationInput, ghost done: seq<Path>, ghost p: Path)
    returns (r: seq<string>)
    requires raw == Written(done) && path == Encoded(p)
    ensures r == Written(done + ConversationPaths(p, c))
  {
    ghost var e, m := ExtraPaths(p, c.extra), MappingPaths(p + ["mapping"], c.mapping);
    assert done + e + m == done + ConversationPaths(p, c);
    r := RecordExtra(raw, path, c.extra, done, p);
    var mapping := Below(path, "mapping", p);
    r := RecordMapping(r, mapping, c.mapping, done + e, p + ["mapping"]);
  }

  method RecordInstruction(raw: seq<string>, path: string, x: InstructionInput, ghost done: seq<Path>, ghost p: Path)
    returns (r: seq<string>)
    requires raw == Written(done) && path == Encoded(p)
    ensures r == Written(done + InstructionPaths(p, x))
  {
    r := RecordExtra(raw, path, x.extra, done, p);
    ghost var now := done + ExtraPaths(p, x.extra);
    if x.kindUnknown {
      var kind := Below(path, "kind", p);
      r := Push(r, kind, now, p + ["kind"]);
      now := now + [p + ["kind"]];
    }
    assert now == done + InstructionPaths(p, x);
  }

  method RecordInstructions(raw: seq<string>, path: string, xs: seq<InstructionInput>,
                            ghost done: seq<Path>, ghost p: Path)
    returns (r: seq<string>)
    requires raw == Written(done) && path == Encoded(p)
    ensures r == Written(done + InstructionsPaths(p, xs))
  {
    r := raw;
    assert done + InstructionsPaths(p, xs[..0]) == done;
    for i := 0 to |xs|
      invariant r == Written(done + InstructionsPaths(p, xs[..i]))
    {
      assert xs[..i + 1][..i] == xs[..i];
      var at := Below(path, Decimal(i), p);
      ghost var now := done + InstructionsPaths(p, xs[..i]);
      r := RecordInstruction(r, at, xs[i], now, p + [Decimal(i)]);
      assert now + InstructionPaths(p + [Decimal(i)], xs[i]) == done + InstructionsPaths(p, xs[..i + 1]);
    }
    assert xs[..|xs|] == xs;
  }

  method RecordProject(raw: seq<string>, path: string, x: ProjectInput, ghost done: seq<Path>, ghost p: Path)
    returns (r: seq<string>)
    requires raw == Written(done) && path == Encoded(p)
    ensures r == Written(done + ProjectPaths(p, x))
  {
    r := RecordExtra(raw, path, x.extra, done, p);
    ghost var e, i := ExtraPaths(p, x.extra), InstructionsPaths(p + ["instructions"], x.instructions);
    assert done + e + i == done + ProjectPaths(p, x);
    var instructions := Below(path, "instructions", p);
    r := RecordInstructions(r, instructions, x.instructions, done + e, p + ["instructions"]);
  }

  /** The formatted root locations are pointers too. */
  method Root(name: string, index: nat) returns (path: string)
    requires name in {"projects", "canvas", "assets"}
    ensures path == Encoded([name, Decimal(index)])
  {
    RootLocation(name, index);
    path := "/" + name + "/" + Decimal(index);
  }

  lemma TwoSegments(a: string, b: string)
    ensures Encoded([a, b]) == ChildPath(ChildPath("", a), b)
  {
    assert [a, b][..1] == [a] && [a][..0] == [];
    assert Encoded([a]) == ChildPath(Encoded([]), a);
  }

  lemma RootLocation(root: string, index: nat)
    requires '~' !in root && '/' !in root
    ensures Encoded([root, Decimal(index)]) == "/" + root + "/" + Decimal(index)
  {
    TwoSegments(root, Decimal(index));
    EscapesDirectly(root);
    PlainEscapesToItself(root);
    IndexPath("/" + root, index);
    assert "" + "/" + root == "/" + root;
  }

  lemma {:induction false} PlainEscapesToItself(s: string)
    requires '~' !in s && '/' !in s
    ensures EscapedDirectly(s) == s
  {
    if s != [] {
      assert s == [s[0]] + s[1..];
      PlainEscapesToItself(s[1..]);
    }
  }

  method ConversationRoot(index: nat) returns (path: string)
    ensures path == Encoded([Decimal(index)])
  {
    IndexPath("", index);
    Child([], Decimal(index));
    assert [] + [Decimal(index)] == [Decimal(index)];
    path := "/" + Decimal(index);
  }

  method RecordConversations(cs: seq<ConversationInput>) returns (raw: seq<string>)
    ensures raw == Written(ConversationsPaths(cs))
  {
    raw := [];
    for i := 0 to |cs|
      invariant raw == Written(ConversationsPaths(cs[..i]))
    {
      assert cs[..i + 1][..i] == cs[..i];
      var path := ConversationRoot(i);
      raw := RecordConversation(raw, path, cs[i], ConversationsPaths(cs[..i]), [Decimal(i)]);
    }
    assert cs[..|cs|] == cs;
  }

  method RecordProjectAt(raw: seq<string>, index: nat, x: ProjectInput, ghost done: seq<Path>) returns (r: seq<string>)
    requires raw == Written(done)
    ensures r == Written(done + ProjectPaths(["projects", Decimal(index)], x))
  {
    var path := Root("projects", index);
    r := RecordProject(raw, path, x, done, ["projects", Decimal(index)]);
  }

  method RecordProjects(before: seq<string>, ps: seq<ProjectInput>, ghost done: seq<Path>) returns (raw: seq<string>)
    requires before == Written(done)
    ensures raw == Written(done + ProjectsPaths(ps))
  {
    raw := before;
    assert done + ProjectsPaths(ps[..0]) == done;
    for i := 0 to |ps|
      invariant raw == Written(done + ProjectsPaths(ps[..i]))
    {
      assert ps[..i + 1][..i] == ps[..i];
      ghost var now := done + ProjectsPaths(ps[..i]);
      raw := RecordProjectAt(raw, i, ps[i], now);
      assert now + ProjectPaths(["projects", Decimal(i)], ps[i]) == done + ProjectsPaths(ps[..i + 1]);
    }
    assert ps[..|ps|] == ps;
  }

  method RecordListed(raw: seq<string>, root: string, index: nat, keys: seq<string>, ghost done: seq<Path>)
    returns (r: seq<string>)
    requires raw == Written(done) && root in {"projects", "canvas", "assets"}
    ensures r == Written(done + ExtraPaths([root, Decimal(index)], keys))
  {
    var path := Root(root, index);
    r := RecordExtra(raw, path, keys, done, [root, Decimal(index)]);
  }

  lemma ListNext(done: seq<Path>, root: string, cs: seq<seq<string>>, i: nat)
    requires i < |cs|
    ensures done + ListPaths(root, cs[..i]) + ExtraPaths([root, Decimal(i)], cs[i])
         == done + ListPaths(root, cs[..i + 1])
  {
    assert cs[..i + 1][..i] == cs[..i];
  }

  /** The canvases, or the assets. */
  method RecordList(before: seq<string>, root: string, cs: seq<seq<string>>, ghost done: seq<Path>)
    returns (raw: seq<string>)
    requires before == Written(done) && root in {"projects", "canvas", "assets"}
    ensures raw == Written(done + ListPaths(root, cs))
  {
    raw := before;
    assert done + ListPaths(root, cs[..0]) == done;
    for i := 0 to |cs|
      invariant raw == Written(done + ListPaths(root, cs[..i]))
    {
      ListNext(done, root, cs, i);
      raw := RecordListed(raw, root, i, cs[i], done + ListPaths(root, cs[..i]));
    }
    assert cs[..|cs|] == cs;
  }

  /** Everything the parser records of an archive: no two records share a location. */
  method RecordArchive(a: ArchiveInput) returns (raw: seq<string>)
    requires ArchiveOk(a)
    ensures raw == Written(ArchivePaths(a))
    ensures forall i, j :: 0 <= i < j < |raw| ==> raw[i] != raw[j]
  {
    raw := RecordConversations(a.conversations);
    ghost var c := ConversationsPaths(a.conversations);
    raw := RecordProjects(raw, a.projects, c);
    raw := RecordList(raw, "canvas", a.canvases, c + ProjectsPaths(a.projects));
    raw := RecordList(raw, "assets", a.assets, c + ProjectsPaths(a.projects) + ListPaths("canvas", a.canvases));
    forall i, j | 0 <= i < j < |raw| ensures raw[i] != raw[j] { LocationsAreDistinct(a, i, j); }
  }
}
