/** The raw records a parsed archive leaves behind: what the model does not hold, and where it was.

    Each input structure names the fields it consumes; every other key of the object is extra, and an
    object's keys are distinct. */
module RawRecords {
  import opened Orders
  import opened JsonPointer

  datatype MessageInput = MessageInput(
    extra: seq<string>, author: seq<string>, metadata: seq<string>, content: seq<string>,
    roleUnknown: bool, partUnknown: seq<bool>)

  /** `idDiffers`: the node repeats an `id` that is not its mapping key. */
  datatype NodeInput = NodeInput(key: string, extra: seq<string>, idDiffers: bool, message: Option<MessageInput>)

  datatype ConversationInput = ConversationInput(extra: seq<string>, mapping: seq<NodeInput>)

  datatype InstructionInput = InstructionInput(extra: seq<string>, kindUnknown: bool)

  datatype ProjectInput = ProjectInput(extra: seq<string>, instructions: seq<InstructionInput>)

  datatype ArchiveInput = ArchiveInput(
    conversations: seq<ConversationInput>, projects: seq<ProjectInput>,
    canvases: seq<seq<string>>, assets: seq<seq<string>>)

  // ---------------------------------------------------------------- what deserializing guarantees

  ghost predicate DistinctKeys(ks: seq<string>) {
    forall i, j :: 0 <= i < j < |ks| ==> ks[i] != ks[j]
  }

  /** Extra keys are distinct and none is a field. */
  ghost predicate Extra(ks: seq<string>, fields: set<string>) {
    DistinctKeys(ks) && forall k :: k in ks ==> k !in fields
  }

  ghost predicate MessageOk(m: MessageInput) {
    && Extra(m.extra, {"id", "author", "create_time", "update_time", "metadata", "content"})
    && Extra(m.author, {"role"}) && Extra(m.metadata, {"model_slug"}) && Extra(m.content, {"parts"})
  }

  ghost predicate NodeOk(n: NodeInput) {
    Extra(n.extra, {"id", "parent", "message"}) && (n.message.Some? ==> MessageOk(n.message.value))
  }

  ghost predicate ConversationOk(c: ConversationInput) {
    && Extra(c.extra, {"id", "title", "create_time", "update_time", "mapping"})
    && (forall i, j :: 0 <= i < j < |c.mapping| ==> c.mapping[i].key != c.mapping[j].key)
    && (forall i :: 0 <= i < |c.mapping| ==> NodeOk(c.mapping[i]))
  }

  ghost predicate ProjectOk(p: ProjectInput) {
    && Extra(p.extra, {"id", "title", "description", "instructions", "conversation_ids", "asset_ids"})
    && forall i :: 0 <= i < |p.instructions| ==> Extra(p.instructions[i].extra, {"id", "kind", "content"})
  }

  function CanvasFields(): set<string> { {"id", "project_id", "conversation_id", "content"} }

  function AssetFields(): set<string> {
    {"id", "kind", "project_id", "conversation_id", "display_name", "archive_path", "media_type", "length_bytes",
     "sha256"}
  }

  ghost predicate ArchiveOk(a: ArchiveInput) {
    && (forall i :: 0 <= i < |a.conversations| ==> ConversationOk(a.conversations[i]))
    && (forall i :: 0 <= i < |a.projects| ==> ProjectOk(a.projects[i]))
    && (forall i :: 0 <= i < |a.canvases| ==> Extra(a.canvases[i], CanvasFields()))
    && (forall i :: 0 <= i < |a.assets| ==> Extra(a.assets[i], AssetFields()))
  }

  // ---------------------------------------------------------------- the records, in order

  function ExtraPaths(p: Path, ks: seq<string>): seq<Path> {
    seq(|ks|, i requires 0 <= i < |ks| => p + [ks[i]])
  }

  function PartPaths(p: Path, unknown: seq<bool>): seq<Path>
    decreases |unknown|
  {
    if unknown == [] then [] else
      var n := |unknown| - 1;
      PartPaths(p, unknown[..n]) + if unknown[n] then [p + ["parts", Decimal(n)]] else []
  }

  function MessagePaths(p: Path, m: MessageInput): seq<Path> {
    ExtraPaths(p, m.extra) + ExtraPaths(p + ["author"], m.author) + ExtraPaths(p + ["metadata"], m.metadata)
    + ExtraPaths(p + ["content"], m.content)
    + (if m.roleUnknown then [p + ["author", "role"]] else [])
    + PartPaths(p + ["content"], m.partUnknown)
  }

  function NodePaths(p: Path, n: NodeInput): seq<Path> {
    ExtraPaths(p, n.extra) + (if n.idDiffers then [p + ["id"]] else [])
    + (if n.message.Some? then MessagePaths(p + ["message"], n.message.value) else [])
  }

  function MappingPaths(p: Path, ns: seq<NodeInput>): seq<Path>
    decreases |ns|
  {
    if ns == [] then [] else MappingPaths(p, ns[..|ns| - 1]) + NodePaths(p + [ns[|ns| - 1].key], ns[|ns| - 1])
  }

  function ConversationPaths(p: Path, c: ConversationInput): seq<Path> {
    ExtraPaths(p, c.extra) + MappingPaths(p + ["mapping"], c.mapping)
  }

  function ConversationsPaths(cs: seq<ConversationInput>): seq<Path>
    decreases |cs|
  {
    if cs == [] then [] else ConversationsPaths(cs[..|cs| - 1]) + ConversationPaths([Decimal(|cs| - 1)], cs[|cs| - 1])
  }

  function InstructionPaths(p: Path, i: InstructionInput): seq<Path> {
    ExtraPaths(p, i.extra) + if i.kindUnknown then [p + ["kind"]] else []
  }

  function InstructionsPaths(p: Path, xs: seq<InstructionInput>): seq<Path>
    decreases |xs|
  {
    if xs == [] then []
    else InstructionsPaths(p, xs[..|xs| - 1]) + InstructionPaths(p + [Decimal(|xs| - 1)], xs[|xs| - 1])
  }

  function ProjectsPaths(ps: seq<ProjectInput>): seq<Path>
    decreases |ps|
  {
    if ps == [] then [] else
      var p := ["projects", Decimal(|ps| - 1)];
      ProjectsPaths(ps[..|ps| - 1]) + ProjectPaths(p, ps[|ps| - 1])
  }

  /** The extra keys of the canvases, or of the assets, under their root. */
  function ListPaths(root: string, cs: seq<seq<string>>): seq<Path>
    decreases |cs|
  {
    if cs == [] then []
    else ListPaths(root, cs[..|cs| - 1]) + ExtraPaths([root, Decimal(|cs| - 1)], cs[|cs| - 1])
  }

  function ArchivePaths(a: ArchiveInput): seq<Path> {
    ConversationsPaths(a.conversations) + ProjectsPaths(a.projects) + ListPaths("canvas", a.canvases)
    + ListPaths("assets", a.assets)
  }

  // ---------------------------------------------------------------- apart

  ghost predicate Distinct(ps: seq<Path>) {
    forall i, j :: 0 <= i < j < |ps| ==> ps[i] != ps[j]
  }

  /** Every path goes on from `q` with one of the names. */
  ghost predicate From(ps: seq<Path>, q: Path, names: iset<string>) {
    forall i :: 0 <= i < |ps| ==> |ps[i]| > |q| && ps[i][..|q|] == q && ps[i][|q|] in names
  }

  ghost function AnyName(): iset<string> {
    iset s: string | |s| >= 0
  }

  /** Two lists of distinct paths that part with different names stay distinct together. */
  lemma Together(a: seq<Path>, b: seq<Path>, q: Path, s: iset<string>, t: iset<string>)
    requires Distinct(a) && Distinct(b) && From(a, q, s) && From(b, q, t) && s !! t
    ensures Distinct(a + b) && From(a + b, q, s + t)
  {
    forall i, j | 0 <= i < |a| && 0 <= j < |b| ensures a[i] != b[j] {
      assert a[i][|q|] in s && b[j][|q|] in t;
    }
  }

  lemma FromShorter(ps: seq<Path>, q: Path, name: string, names: iset<string>)
    requires From(ps, q + [name], names)
    ensures From(ps, q, iset{name})
  {
    forall i | 0 <= i < |ps| ensures |ps[i]| > |q| && ps[i][..|q|] == q && ps[i][|q|] == name {
      var r := q + [name];
      assert ps[i][..|r|] == r;
      assert ps[i][..|q|] == r[..|q|] == q;
      assert ps[i][|q|] == r[|q|];
    }
  }

  lemma FromMore(ps: seq<Path>, q: Path, s: iset<string>, t: iset<string>)
    requires From(ps, q, s) && s <= t
    ensures From(ps, q, t)
  {
  }

  ghost function KeysOf(ks: seq<string>): iset<string> {
    iset k | k in ks
  }

  lemma ExtraApart(p: Path, ks: seq<string>)
    requires DistinctKeys(ks)
    ensures Distinct(ExtraPaths(p, ks)) && From(ExtraPaths(p, ks), p, KeysOf(ks))
  {
    var ps := ExtraPaths(p, ks);
    forall i, j | 0 <= i < j < |ps| ensures ps[i] != ps[j] {
      assert ps[i][|p|] == ks[i] && ps[j][|p|] == ks[j];
    }
  }

  lemma OneApart(p: Path, name: string)
    ensures Distinct([p + [name]]) && From([p + [name]], p, iset{name})
  {
  }

  ghost predicate IsNumber(s: string, n: nat) {
    exists i: nat :: i < n && s == Decimal(i)
  }

  ghost function Numbers(n: nat): iset<string> {
    iset s | IsNumber(s, n)
  }

  lemma NextNumber(n: nat)
    ensures Numbers(n + 1) == Numbers(n) + iset{Decimal(n)} && Decimal(n) !in Numbers(n)
  {
    forall s ensures s in Numbers(n + 1) <==> s in Numbers(n) + iset{Decimal(n)} {
    }
    forall i: nat | i < n ensures Decimal(i) != Decimal(n) { DecimalsApart(i, n); }
  }

  lemma {:induction false} PartsApart(p: Path, unknown: seq<bool>)
    ensures Distinct(PartPaths(p, unknown)) && From(PartPaths(p, unknown), p + ["parts"], Numbers(|unknown|))
    decreases |unknown|
  {
    if unknown != [] {
      var n, q := |unknown| - 1, p + ["parts"];
      PartsApart(p, unknown[..n]);
      NextNumber(n);
      OneApart(q, Decimal(n));
      assert p + ["parts", Decimal(n)] == q + [Decimal(n)];
      Together(PartPaths(p, unknown[..n]), [q + [Decimal(n)]], q, Numbers(n), iset{Decimal(n)});
      FromMore(PartPaths(p, unknown[..n]), q, Numbers(n), Numbers(n + 1));
    }
  }

  /** Two lists under two names of one place. */
  lemma MessageApart(p: Path, m: MessageInput)
    requires MessageOk(m)
    ensures Distinct(MessagePaths(p, m))
            && From(MessagePaths(p, m), p, KeysOf(m.extra) + iset{"author", "metadata", "content"})
  {
    var e, a, d, c := ExtraPaths(p, m.extra), ExtraPaths(p + ["author"], m.author),
        ExtraPaths(p + ["metadata"], m.metadata), ExtraPaths(p + ["content"], m.content);
    var r, t := if m.roleUnknown then [p + ["author", "role"]] else [], PartPaths(p + ["content"], m.partUnknown);
    ExtraApart(p, m.extra);
    AuthorApart(p, m);
    ContentApart(p, m);
    ExtraApart(p + ["metadata"], m.metadata);
    FromShorter(d, p, "metadata", KeysOf(m.metadata));
    Sixfold(e, a, d, c, r, t, p, KeysOf(m.extra));
    assert MessagePaths(p, m) == e + a + d + c + r + t;
  }

  lemma AuthorApart(p: Path, m: MessageInput)
    requires MessageOk(m)
    ensures var a, r := ExtraPaths(p + ["author"], m.author), if m.roleUnknown then [p + ["author", "role"]] else [];
            Distinct(a + r) && From(a + r, p, iset{"author"})
  {
    var q := p + ["author"];
    var a, r := ExtraPaths(q, m.author), if m.roleUnknown then [p + ["author", "role"]] else [];
    ExtraApart(q, m.author);
    OneApart(q, "role");
    assert p + ["author", "role"] == q + ["role"];
    Together(a, r, q, KeysOf(m.author), iset{"role"});
    FromShorter(a + r, p, "author", KeysOf(m.author) + iset{"role"});
  }

  lemma ContentApart(p: Path, m: MessageInput)
    requires MessageOk(m)
    ensures var c, t := ExtraPaths(p + ["content"], m.content), PartPaths(p + ["content"], m.partUnknown);
            Distinct(c + t) && From(c + t, p, iset{"content"})
  {
    var q := p + ["content"];
    var c, t := ExtraPaths(q, m.content), PartPaths(q, m.partUnknown);
    ExtraApart(q, m.content);
    PartsApart(q, m.partUnknown);
    FromShorter(t, q, "parts", Numbers(|m.partUnknown|));
    Together(c, t, q, KeysOf(m.content), iset{"parts"});
    FromShorter(c + t, p, "content", KeysOf(m.content) + iset{"parts"});
  }

  lemma Reordered(x: seq<Path>, y: seq<Path>)
    requires Distinct(x) && multiset(x) == multiset(y)
    ensures Distinct(y)
  {
    forall i, j | 0 <= i < j < |y| ensures y[i] != y[j] {
      if y[i] == y[j] {
        TwiceIn(y, i, j);
        assert multiset(x)[y[i]] >= 2;
        OnceIn(x, y[i]);
      }
    }
  }

  lemma TwiceIn(y: seq<Path>, i: nat, j: nat)
    requires i < j < |y| && y[i] == y[j]
    ensures multiset(y)[y[i]] >= 2
  {
    assert y == y[..j] + [y[j]] + y[j + 1..];
    assert y[..j][i] in multiset(y[..j]);
  }

  lemma {:induction false} OnceIn(x: seq<Path>, p: Path)
    requires Distinct(x)
    ensures multiset(x)[p] <= 1
  {
    if x != [] {
      OnceIn(x[1..], p);
      assert x == [x[0]] + x[1..];
      if p == x[0] { assert p !in x[1..]; }
    }
  }

  lemma FromReordered(x: seq<Path>, y: seq<Path>, p: Path, names: iset<string>)
    requires From(x, p, names) && multiset(x) == multiset(y)
    ensures From(y, p, names)
  {
    forall i | 0 <= i < |y| ensures |y[i]| > |p| && y[i][..|p|] == p && y[i][|p|] in names {
      assert y[i] in multiset(y);
      assert y[i] in multiset(x);
      var k :| 0 <= k < |x| && x[k] == y[i];
    }
  }

  lemma SameSix(e: seq<Path>, a: seq<Path>, d: seq<Path>, c: seq<Path>, r: seq<Path>, t: seq<Path>)
    ensures multiset(e + (a + r) + d + (c + t)) == multiset(e + a + d + c + r + t)
  {
  }

  lemma FourTogether(e: seq<Path>, a: seq<Path>, d: seq<Path>, c: seq<Path>, p: Path, keys: iset<string>)
    requires Distinct(e) && From(e, p, keys) && keys !! iset{"author", "metadata", "content"}
    requires Distinct(a) && From(a, p, iset{"author"})
    requires Distinct(d) && From(d, p, iset{"metadata"})
    requires Distinct(c) && From(c, p, iset{"content"})
    ensures Distinct(e + a + d + c) && From(e + a + d + c, p, keys + iset{"author", "metadata", "content"})
  {
    Together(e, a, p, keys, iset{"author"});
    Together(e + a, d, p, keys + iset{"author"}, iset{"metadata"});
    Together(e + a + d, c, p, keys + iset{"author"} + iset{"metadata"}, iset{"content"});
    assert keys + iset{"author"} + iset{"metadata"} + iset{"content"} == keys + iset{"author", "metadata", "content"};
  }

  /** The lists of a message, taken apart by the name they go on with. */
  lemma Sixfold(e: seq<Path>, a: seq<Path>, d: seq<Path>, c: seq<Path>,
      r: seq<Path>, t: seq<Path>, p: Path, keys: iset<string>)
    requires Distinct(e) && From(e, p, keys) && keys !! iset{"author", "metadata", "content"}
    requires Distinct(a + r) && From(a + r, p, iset{"author"})
    requires Distinct(d) && From(d, p, iset{"metadata"})
    requires Distinct(c + t) && From(c + t, p, iset{"content"})
    ensures Distinct(e + a + d + c + r + t)
            && From(e + a + d + c + r + t, p, keys + iset{"author", "metadata", "content"})
  {
    FourTogether(e, a + r, d, c + t, p, keys);
    SameSix(e, a, d, c, r, t);
    Reordered(e + (a + r) + d + (c + t), e + a + d + c + r + t);
    FromReordered(e + (a + r) + d + (c + t), e + a + d + c + r + t, p, keys + iset{"author", "metadata", "content"});
  }

  lemma NodeMessageApart(p: Path, n: NodeInput)
    requires NodeOk(n) && n.message.Some?
    ensures Distinct(MessagePaths(p + ["message"], n.message.value))
            && From(MessagePaths(p + ["message"], n.message.value), p, iset{"message"})
  {
    var m := n.message.value;
    MessageApart(p + ["message"], m);
    FromShorter(MessagePaths(p + ["message"], m), p, "message",
        KeysOf(m.extra) + iset{"author", "metadata", "content"});
  }

  lemma NodeApart(p: Path, n: NodeInput)
    requires NodeOk(n)
    ensures Distinct(NodePaths(p, n)) && From(NodePaths(p, n), p, AnyName())
  {
    var e, d := ExtraPaths(p, n.extra), if n.idDiffers then [p + ["id"]] else [];
    ExtraApart(p, n.extra);
    OneApart(p, "id");
    Together(e, d, p, KeysOf(n.extra), iset{"id"});
    if n.message.Some? {
      NodeMessageApart(p, n);
      Together(e + d, MessagePaths(p + ["message"], n.message.value), p, KeysOf(n.extra) + iset{"id"}, iset{"message"});
    } else {
      assert NodePaths(p, n) == e + d;
    }
  }

  ghost function NodeKeys(ns: seq<NodeInput>): iset<string> {
    iset n | n in ns :: n.key
  }

  lemma {:induction false} MappingApart(p: Path, ns: seq<NodeInput>)
    requires (forall i, j :: 0 <= i < j < |ns| ==> ns[i].key != ns[j].key)
             && forall i :: 0 <= i < |ns| ==> NodeOk(ns[i])
    ensures Distinct(MappingPaths(p, ns)) && From(MappingPaths(p, ns), p, NodeKeys(ns))
    decreases |ns|
  {
    if ns != [] {
      var front, n := ns[..|ns| - 1], ns[|ns| - 1];
      MappingApart(p, front);
      NodeApart(p + [n.key], n);
      FromShorter(NodePaths(p + [n.key], n), p, n.key, AnyName());
      assert ns == front + [n];
      assert n.key !in NodeKeys(front);
      Together(MappingPaths(p, front), NodePaths(p + [n.key], n), p, NodeKeys(front), iset{n.key});
      assert n in ns && NodeKeys(front) + iset{n.key} <= NodeKeys(ns);
      FromMore(MappingPaths(p, ns), p, NodeKeys(front) + iset{n.key}, NodeKeys(ns));
    }
  }

  lemma ConversationApart(p: Path, c: ConversationInput)
    requires ConversationOk(c)
    ensures Distinct(ConversationPaths(p, c)) && From(ConversationPaths(p, c), p, AnyName())
  {
    ExtraApart(p, c.extra);
    MappingApart(p + ["mapping"], c.mapping);
    FromShorter(MappingPaths(p + ["mapping"], c.mapping), p, "mapping", NodeKeys(c.mapping));
    Together(ExtraPaths(p, c.extra), MappingPaths(p + ["mapping"], c.mapping), p, KeysOf(c.extra), iset{"mapping"});
  }

  lemma {:induction false} ConversationsApart(cs: seq<ConversationInput>)
    requires forall i :: 0 <= i < |cs| ==> ConversationOk(cs[i])
    ensures Distinct(ConversationsPaths(cs)) && From(ConversationsPaths(cs), [], Numbers(|cs|))
    decreases |cs|
  {
    if cs != [] {
      var n := |cs| - 1;
      var last := ConversationPaths([Decimal(n)], cs[n]);
      ConversationsApart(cs[..n]);
      ConversationApart([Decimal(n)], cs[n]);
      assert [] + [Decimal(n)] == [Decimal(n)];
      FromShorter(last, [], Decimal(n), AnyName());
      NextNumber(n);
      Together(ConversationsPaths(cs[..n]), last, [], Numbers(n), iset{Decimal(n)});
    }
  }

  lemma InstructionApart(p: Path, i: InstructionInput)
    requires Extra(i.extra, {"id", "kind", "content"})
    ensures Distinct(InstructionPaths(p, i)) && From(InstructionPaths(p, i), p, AnyName())
  {
    ExtraApart(p, i.extra);
    OneApart(p, "kind");
    Together(ExtraPaths(p, i.extra), if i.kindUnknown then [p + ["kind"]] else [], p, KeysOf(i.extra), iset{"kind"});
  }

  lemma {:induction false} InstructionsApart(p: Path, xs: seq<InstructionInput>)
    requires forall i :: 0 <= i < |xs| ==> Extra(xs[i].extra, {"id", "kind", "content"})
    ensures Distinct(InstructionsPaths(p, xs)) && From(InstructionsPaths(p, xs), p, Numbers(|xs|))
    decreases |xs|
  {
    if xs != [] {
      var n := |xs| - 1;
      InstructionsApart(p, xs[..n]);
      InstructionApart(p + [Decimal(n)], xs[n]);
      FromShorter(InstructionPaths(p + [Decimal(n)], xs[n]), p, Decimal(n), AnyName());
      NextNumber(n);
      Together(InstructionsPaths(p, xs[..n]), InstructionPaths(p + [Decimal(n)], xs[n]),
          p, Numbers(n), iset{Decimal(n)});
    }
  }

  function ProjectPaths(p: Path, r: ProjectInput): seq<Path> {
    ExtraPaths(p, r.extra) + InstructionsPaths(p + ["instructions"], r.instructions)
  }

  lemma ProjectApart(p: Path, r: ProjectInput)
    requires ProjectOk(r)
    ensures Distinct(ProjectPaths(p, r)) && From(ProjectPaths(p, r), p, AnyName())
  {
    ExtraApart(p, r.extra);
    InstructionsApart(p + ["instructions"], r.instructions);
    FromShorter(InstructionsPaths(p + ["instructions"], r.instructions), p, "instructions", Numbers(|r.instructions|));
    Together(ExtraPaths(p, r.extra), InstructionsPaths(p + ["instructions"], r.instructions),
        p, KeysOf(r.extra), iset{"instructions"});
  }

  lemma {:induction false} ProjectsApart(ps: seq<ProjectInput>)
    requires forall i :: 0 <= i < |ps| ==> ProjectOk(ps[i])
    ensures Distinct(ProjectsPaths(ps)) && From(ProjectsPaths(ps), ["projects"], Numbers(|ps|))
    decreases |ps|
  {
    if ps != [] {
      var n := |ps| - 1;
      var p := ["projects", Decimal(n)];
      ProjectsApart(ps[..n]);
      ProjectApart(p, ps[n]);
      assert p == ["projects"] + [Decimal(n)];
      FromShorter(ProjectPaths(p, ps[n]), ["projects"], Decimal(n), AnyName());
      NextNumber(n);
      Together(ProjectsPaths(ps[..n]), ProjectPaths(p, ps[n]), ["projects"], Numbers(n), iset{Decimal(n)});
    }
  }

  lemma {:induction false} ListApart(root: string, cs: seq<seq<string>>)
    requires forall i :: 0 <= i < |cs| ==> DistinctKeys(cs[i])
    ensures Distinct(ListPaths(root, cs)) && From(ListPaths(root, cs), [root], Numbers(|cs|))
    decreases |cs|
  {
    if cs != [] {
      var n := |cs| - 1;
      var p := [root, Decimal(n)];
      ListApart(root, cs[..n]);
      ExtraApart(p, cs[n]);
      assert p == [root] + [Decimal(n)];
      FromShorter(ExtraPaths(p, cs[n]), [root], Decimal(n), KeysOf(cs[n]));
      NextNumber(n);
      Together(ListPaths(root, cs[..n]), ExtraPaths(p, cs[n]), [root], Numbers(n), iset{Decimal(n)});
    }
  }

  lemma WordsAreNotNumbers(n: nat)
    ensures "projects" !in Numbers(n) && "canvas" !in Numbers(n) && "assets" !in Numbers(n)
  {
    assert "projects"[0] == 'p' && "canvas"[0] == 'c' && "assets"[0] == 'a';
  }

  lemma ArchiveApart(a: ArchiveInput)
    requires ArchiveOk(a)
    ensures Distinct(ArchivePaths(a))
  {
    ConversationsApart(a.conversations);
    ProjectsApart(a.projects);
    ListApart("canvas", a.canvases);
    ListApart("assets", a.assets);
    var c, p, n := ConversationsPaths(a.conversations), ProjectsPaths(a.projects), Numbers(|a.conversations|);
    var v, t := ListPaths("canvas", a.canvases), ListPaths("assets", a.assets);
    assert [] + ["projects"] == ["projects"] && [] + ["canvas"] == ["canvas"] && [] + ["assets"] == ["assets"];
    FromShorter(p, [], "projects", Numbers(|a.projects|));
    FromShorter(v, [], "canvas", Numbers(|a.canvases|));
    FromShorter(t, [], "assets", Numbers(|a.assets|));
    WordsAreNotNumbers(|a.conversations|);
    Together(c, p, [], n, iset{"projects"});
    Together(c + p, v, [], n + iset{"projects"}, iset{"canvas"});
    Together(c + p + v, t, [], n + iset{"projects"} + iset{"canvas"}, iset{"assets"});
  }

  // ---------------------------------------------------------------- as the parser writes them

  ghost function Written(ps: seq<Path>): seq<string> {
    seq(|ps|, i requires 0 <= i < |ps| => Encoded(ps[i]))
  }

  /** No two raw records of one parsed archive have the same location. */
  lemma LocationsAreDistinct(a: ArchiveInput, i: nat, j: nat)
    requires ArchiveOk(a) && i < j < |ArchivePaths(a)|
    ensures Written(ArchivePaths(a))[i] != Written(ArchivePaths(a))[j]
  {
    ArchiveApart(a);
    EncodedApart(ArchivePaths(a)[i], ArchivePaths(a)[j]);
  }

  lemma Child(p: Path, segment: string)
    ensures ChildPath(Encoded(p), segment) == Encoded(p + [segment])
  {
    assert (p + [segment])[..|p|] == p;
  }

  // ---------------------------------------------------------------- the parser's loops

  /** A location below another. */
  method Below(path: string, segment: string, ghost p: Path) returns (child: string)
    requires path == Encoded(p)
    ensures child == Encoded(p + [segment])
  {
    Child(p, segment);
    child := ChildPath(path, segment);
  }

  method Push(raw: seq<string>, path: string, ghost done: seq<Path>, ghost p: Path) returns (r: seq<string>)
    requires raw == Written(done) && path == Encoded(p)
    ensures r == Written(done + [p])
  {
    r := raw + [path];
  }

  /** The extra keys of one object, behind the records pushed before. */
  method RecordExtra(raw: seq<string>, path: string, keys: seq<string>, ghost done: seq<Path>, ghost p: Path)
    returns (r: seq<string>)
    requires raw == Written(done) && path == Encoded(p)
    ensures r == Written(done + ExtraPaths(p, keys))
  {
    r := raw;
    ghost var now := done;
    for i := 0 to |keys|
      invariant now == done + ExtraPaths(p, keys)[..i] && r == Written(now)
    {
      var child := Below(path, keys[i], p);
      r := Push(r, child, now, p + [keys[i]]);
      now := now + [p + [keys[i]]];
    }
  }

  lemma PartsNext(done: seq<Path>, p: Path, unknown: seq<bool>, i: nat)
    requires i < |unknown|
    ensures done + PartPaths(p, unknown[..i + 1])
         == done + PartPaths(p, unknown[..i]) + if unknown[i] then [p + ["parts", Decimal(i)]] else []
  {
    assert unknown[..i + 1][..i] == unknown[..i];
  }

  method RecordPart(raw: seq<string>, parts: string, i: nat, ghost done: seq<Path>, ghost p: Path)
    returns (r: seq<string>)
    requires raw == Written(done) && parts == Encoded(p + ["parts"])
    ensures r == Written(done + [p + ["parts", Decimal(i)]])
  {
    var child := Below(parts, Decimal(i), p + ["parts"]);
    assert p + ["parts"] + [Decimal(i)] == p + ["parts", Decimal(i)];
    r := Push(raw, child, done, p + ["parts", Decimal(i)]);
  }

  /** The parts whose kind is unknown. */
  method RecordParts(raw: seq<string>, contentPath: string, unknown: seq<bool>, ghost done: seq<Path>, ghost p: Path)
    returns (r: seq<string>)
    requires raw == Written(done) && contentPath == Encoded(p)
    ensures r == Written(done + PartPaths(p, unknown))
  {
    r := raw;
    var parts := Below(contentPath, "parts", p);
    assert done + PartPaths(p, unknown[..0]) == done;
    for i := 0 to |unknown|
      invariant r == Written(done + PartPaths(p, unknown[..i]))
    {
      PartsNext(done, p, unknown, i);
      ghost var now := done + PartPaths(p, unknown[..i]);
      if unknown[i] {
        r := RecordPart(r, parts, i, now, p);
      } else {
        assert now + [] == now;
      }
    }
    assert unknown[..|unknown|] == unknown;
  }
}
