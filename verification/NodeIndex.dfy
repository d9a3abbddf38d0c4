/** The index of node and credential types over all loaders, with the tools derived from
    usable nodes (packages/cli/src/load-nodes-and-credentials.ts). */
module NodeIndex {
  import opened DotSplit
  import opened Options

  type Name = string

  type Source = string

  /** A node description: whether it is usable as a tool, and the name its replacements
      give, if they give one. */
  datatype Description = Description(name: Name, usableAsTool: bool, replacement: Option<Name>)

  datatype Credential = Credential(source: Source, supportedNodes: Option<seq<Name>>)

  /** `isPackage` tells a PackageDirectoryLoader from the other kinds. */
  datatype Loader = Loader(packageName: Name, isPackage: bool, nodes: map<Name, Source>,
    types: seq<Description>, credentials: map<Name, Credential>)

  /** A known node without a source comes from wrapping a node that is not known. */
  datatype Index = Index(nodes: map<Name, Option<Source>>, credentials: map<Name, Credential>, types: seq<Description>)

  const EMPTY := Index(map[], map[], [])

  // ---------- Merging the loaders ----------

  function Full(packageName: Name, t: Name): Name { packageName + "." + t }

  lemma FullInjective(packageName: Name)
    ensures forall a, b :: Full(packageName, a) == Full(packageName, b) ==> a == b
  {
    forall a, b | Full(packageName, a) == Full(packageName, b) ensures a == b {
      assert Full(packageName, a)[|packageName| + 1..] == a && Full(packageName, b)[|packageName| + 1..] == b;
    }
  }

  function FullNames(packageName: Name, names: seq<Name>): (r: seq<Name>)
    ensures |r| == |names| && forall k :: 0 <= k < |names| ==> r[k] == Full(packageName, names[k])
  {
    seq(|names|, k requires 0 <= k < |names| => Full(packageName, names[k]))
  }

  function NodesOf(l: Loader): (r: map<Name, Option<Source>>)
    ensures forall n :: n in r <==> exists t :: t in l.nodes && n == Full(l.packageName, t)
  {
    FullInjective(l.packageName);
    map t | t in l.nodes :: Full(l.packageName, t) := Some(l.nodes[t])
  }

  function CredentialOf(l: Loader, c: Credential): Credential {
    c.(supportedNodes :=
      if l.isPackage && c.supportedNodes.Some? then Some(FullNames(l.packageName, c.supportedNodes.value)) else None)
  }

  function TypesOf(l: Loader): (r: seq<Description>)
    ensures |r| == |l.types|
  {
    seq(|l.types|, k requires 0 <= k < |l.types| => l.types[k].(name := Full(l.packageName, l.types[k].name)))
  }

  function Merge(index: Index, l: Loader): Index {
    Index(index.nodes + NodesOf(l),
          index.credentials + map c | c in l.credentials :: CredentialOf(l, l.credentials[c]),
          index.types + TypesOf(l))
  }

  function MergeAll(index: Index, loaders: seq<Loader>): Index
    decreases |loaders|
  {
    if loaders == [] then index else MergeAll(Merge(index, loaders[0]), loaders[1..])
  }

  // ---------- Tools ----------

  function ToolName(d: Description): Name { (if d.replacement.Some? then d.replacement.value else d.name) + "Tool" }

  predicate Supports(c: Credential, n: Name) { c.supportedNodes.Some? && n in c.supportedNodes.value }

  function Push(c: Credential, d: Description): Credential {
    if Supports(c, d.name) then c.(supportedNodes := Some(c.supportedNodes.value + [ToolName(d)])) else c
  }

  function AddTool(index: Index, d: Description): Index {
    Index(index.nodes[ToolName(d) := if d.name in index.nodes then index.nodes[d.name] else None],
          map c | c in index.credentials :: Push(index.credentials[c], d),
          index.types + [d.(name := ToolName(d), usableAsTool := false)])
  }

  function AddTools(index: Index, ds: seq<Description>): Index
    decreases |ds|
  {
    if ds == [] then index else AddTools(AddTool(index, ds[0]), ds[1..])
  }

  function Usable(ds: seq<Description>): (r: seq<Description>)
    ensures forall d :: d in r <==> d in ds && d.usableAsTool
  {
    if ds == [] then [] else (if ds[0].usableAsTool then [ds[0]] else []) + Usable(ds[1..])
  }

  function Base(loaders: seq<Loader>): Index { MergeAll(EMPTY, loaders) }

  function PostProcessed(loaders: seq<Loader>): Index { AddTools(Base(loaders), Usable(Base(loaders).types)) }

  // ---------- Direct lookup ----------

  /** The loaders have distinct package names, the keys of `loaders`. */
  predicate DistinctLoaders(loaders: seq<Loader>) {
    forall j, k :: 0 <= j < k < |loaders| ==> loaders[j].packageName != loaders[k].packageName
  }

  function LoaderAt(loaders: seq<Loader>, packageName: Name): Option<Loader> {
    if loaders == [] then None
    else if loaders[0].packageName == packageName then Some(loaders[0])
    else LoaderAt(loaders[1..], packageName)
  }

  /** Only the first two segments count; a missing second one reads as "undefined". */
  predicate RecognizesNode(loaders: seq<Loader>, fullNodeType: Name) {
    var parts := Split(fullNodeType);
    var l := LoaderAt(loaders, parts[0]);
    l.Some? && (if |parts| > 1 then parts[1] else "undefined") in l.value.nodes
  }

  /** A name without a dot is looked up as the node "undefined" of the package so called. */
  lemma UndottedName(loaders: seq<Loader>, name: Name)
    requires '.' !in name
    ensures RecognizesNode(loaders, name) <==>
            var l := LoaderAt(loaders, name); l.Some? && "undefined" in l.value.nodes
  {
    SplitPlain(name);
  }

  // ---------- Known nodes ----------

  predicate DotFree(loaders: seq<Loader>) {
    forall k :: 0 <= k < |loaders| ==> '.' !in loaders[k].packageName && forall t :: t in loaders[k].nodes ==> '.' !in t
  }

  ghost predicate Provides(loaders: seq<Loader>, n: Name) {
    exists k, t :: 0 <= k < |loaders| && t in loaders[k].nodes && n == Full(loaders[k].packageName, t)
  }

  lemma {:induction false} MergedNodes(index: Index, loaders: seq<Loader>, n: Name)
    ensures n in MergeAll(index, loaders).nodes <==> n in index.nodes || Provides(loaders, n)
    decreases |loaders|
  {
    if loaders != [] {
      MergedNodes(Merge(index, loaders[0]), loaders[1..], n);
      if Provides(loaders[1..], n) {
        var k, t :| 0 <= k < |loaders[1..]| && t in loaders[1..][k].nodes && n == Full(loaders[1..][k].packageName, t);
        assert loaders[k + 1] == loaders[1..][k];
      }
      if Provides(loaders, n) && n !in NodesOf(loaders[0]) {
        var k, t :| 0 <= k < |loaders| && t in loaders[k].nodes && n == Full(loaders[k].packageName, t);
        assert k > 0 && loaders[1..][k - 1] == loaders[k];
      }
    }
  }

  lemma {:induction false} LoaderFound(loaders: seq<Loader>, k: nat)
    requires DistinctLoaders(loaders) && k < |loaders|
    ensures LoaderAt(loaders, loaders[k].packageName) == Some(loaders[k])
  {
    if k > 0 {
      assert loaders[1..][k - 1] == loaders[k];
      LoaderFound(loaders[1..], k - 1);
    }
  }

  lemma {:induction false} LoaderSound(loaders: seq<Loader>, packageName: Name)
    ensures LoaderAt(loaders, packageName).Some? ==> LoaderAt(loaders, packageName).value in loaders
                                                     && LoaderAt(loaders, packageName).value.packageName == packageName
  {
    if loaders != [] { LoaderSound(loaders[1..], packageName); }
  }

  /** Before the tools are added, the known nodes are the names that the direct lookup
      recognises and that have exactly two segments; it also recognises longer names. */
  lemma KnownAgreesWithLookup(loaders: seq<Loader>, n: Name)
    requires DistinctLoaders(loaders) && DotFree(loaders)
    ensures n in Base(loaders).nodes <==> RecognizesNode(loaders, n) && |Split(n)| == 2
  {
    MergedNodes(EMPTY, loaders, n);
    if Provides(loaders, n) {
      var k, t :| 0 <= k < |loaders| && t in loaders[k].nodes && n == Full(loaders[k].packageName, t);
      SplitAtDot(loaders[k].packageName, t);
      SplitPlain(t);
      LoaderFound(loaders, k);
    }
    if RecognizesNode(loaders, n) && |Split(n)| == 2 {
      SplitJoins(n);
      LoaderSound(loaders, Split(n)[0]);
      var k :| 0 <= k < |loaders| && loaders[k] == LoaderAt(loaders, Split(n)[0]).value;
      assert n == Full(loaders[k].packageName, Split(n)[1]);
    }
  }

  lemma {:induction false} OthersKeepNode(index: Index, loaders: seq<Loader>, n: Name)
    requires !Provides(loaders, n) && n in index.nodes
    ensures n in MergeAll(index, loaders).nodes && MergeAll(index, loaders).nodes[n] == index.nodes[n]
    decreases |loaders|
  {
    if loaders != [] {
      assert n !in NodesOf(loaders[0]);
      assert !Provides(loaders[1..], n) by {
        forall k, t | 0 <= k < |loaders[1..]| && t in loaders[1..][k].nodes
          ensures n != Full(loaders[1..][k].packageName, t)
        {
          assert loaders[k + 1] == loaders[1..][k];
        }
      }
      OthersKeepNode(Merge(index, loaders[0]), loaders[1..], n);
    }
  }

  /** A known node leads to the source of the type in its own package. */
  lemma {:induction false} KnownSource(index: Index, loaders: seq<Loader>, k: nat, t: Name)
    requires DistinctLoaders(loaders) && DotFree(loaders) && k < |loaders| && t in loaders[k].nodes
    ensures var n, merged := Full(loaders[k].packageName, t), MergeAll(index, loaders);
            n in merged.nodes && merged.nodes[n] == Some(loaders[k].nodes[t])
    decreases |loaders|
  {
    var n, next := Full(loaders[k].packageName, t), Merge(index, loaders[0]);
    if k > 0 {
      assert loaders[1..][k - 1] == loaders[k];
      KnownSource(next, loaders[1..], k - 1, t);
    } else {
      NodeSource(loaders[0], t);
      assert next.nodes[n] == Some(loaders[0].nodes[t]);
      forall j, u | 0 <= j < |loaders[1..]| && u in loaders[1..][j].nodes
        ensures n != Full(loaders[1..][j].packageName, u)
      {
        assert loaders[j + 1] == loaders[1..][j];
        FirstSegment(loaders[0].packageName, t);
        FirstSegment(loaders[j + 1].packageName, u);
        assert loaders[0].packageName != loaders[j + 1].packageName;
        hide Full, Split;
      }
      OthersKeepNode(next, loaders[1..], n);
    }
  }

  lemma FirstSegment(packageName: Name, t: Name)
    requires '.' !in packageName
    ensures Split(Full(packageName, t))[0] == packageName
  {
    SplitAtDot(packageName, t);
  }

  lemma NodeSource(l: Loader, t: Name)
    requires t in l.nodes
    ensures Full(l.packageName, t) in NodesOf(l) && NodesOf(l)[Full(l.packageName, t)] == Some(l.nodes[t])
  {
    FullInjective(l.packageName);
  }

  lemma {:induction false} ToolsAddNames(index: Index, ds: seq<Description>, n: Name)
    ensures n in AddTools(index, ds).nodes <==> n in index.nodes || exists d :: d in ds && ToolName(d) == n
    decreases |ds|
  {
    if ds != [] {
      ToolsAddNames(AddTool(index, ds[0]), ds[1..], n);
      assert forall d :: d in ds <==> d == ds[0] || d in ds[1..];
      assert n in AddTool(index, ds[0]).nodes <==> n in index.nodes || ToolName(ds[0]) == n;
      hide ToolName;
    }
  }

  /** After postProcessLoaders the known nodes are exactly the two-segment names the lookup
      recognises plus one tool name per usable node. */
  lemma KnownNodes(loaders: seq<Loader>, n: Name)
    requires DistinctLoaders(loaders) && DotFree(loaders)
    ensures n in PostProcessed(loaders).nodes
       <==> (RecognizesNode(loaders, n) && |Split(n)| == 2)
            || exists d :: d in Base(loaders).types && d.usableAsTool
                 && n == (if d.replacement.Some? then d.replacement.value else d.name) + "Tool"
  {
    assert forall d: Description ::
      ToolName(d) == (if d.replacement.Some? then d.replacement.value else d.name) + "Tool";
    KnownAgreesWithLookup(loaders, n);
    ToolsAddNames(Base(loaders), Usable(Base(loaders).types), n);
    hide RecognizesNode, ToolName, Base;
  }

  /** A tool leads to the source of the node it wraps. */
  lemma {:induction false} ToolsKeepNode(index: Index, ds: seq<Description>, n: Name)
    requires forall k :: 0 <= k < |ds| ==> ToolName(ds[k]) != n
    ensures Lookup(AddTools(index, ds).nodes, n) == Lookup(index.nodes, n)
    decreases |ds|
  {
    if ds != [] {
      assert ToolName(ds[0]) != n;
      assert forall k :: 0 <= k < |ds[1..]| ==> ds[1..][k] == ds[k + 1];
      ToolsKeepNode(AddTool(index, ds[0]), ds[1..], n);
    }
  }

  lemma {:induction false} ToolLeadsTo(index: Index, ds: seq<Description>, d: Description)
    requires Unchained(ds) && d in ds
    requires forall e :: e in ds && ToolName(e) == ToolName(d) ==> e.name == d.name
    ensures Lookup(AddTools(index, ds).nodes, ToolName(d))
         == Some(if d.name in index.nodes then index.nodes[d.name] else None)
    decreases |ds|
  {
    var next, rest := AddTool(index, ds[0]), ds[1..];
    assert forall k :: 0 <= k < |rest| ==> rest[k] == ds[k + 1];
    assert Unchained(rest) && forall e :: e in rest ==> e in ds;
    if d1 :| d1 in rest && ToolName(d1) == ToolName(d) {
      var k :| 0 <= k < |ds| && ds[k] == d1;
      assert ToolName(ds[0]) != ds[k].name;
      ToolLeadsTo(next, rest, d1);
    } else {
      assert ds[0] in ds && ToolName(ds[0]) == ToolName(d);
      ToolsKeepNode(next, rest, ToolName(d));
    }
  }

  /** So the tool of a known node is loaded from that node's own package. */
  lemma ToolSource(loaders: seq<Loader>, k: nat, t: Name, d: Description)
    requires DistinctLoaders(loaders) && DotFree(loaders) && k < |loaders| && t in loaders[k].nodes
    requires d in Usable(Base(loaders).types) && d.name == loaders[k].packageName + "." + t
    requires Unchained(Usable(Base(loaders).types))
    requires forall e :: e in Usable(Base(loaders).types) && ToolName(e) == ToolName(d) ==> e.name == d.name
    ensures Lookup(PostProcessed(loaders).nodes, ToolName(d)) == Some(Some(loaders[k].nodes[t]))
  {
    KnownSource(EMPTY, loaders, k, t);
    ToolLeadsTo(Base(loaders), Usable(Base(loaders).types), d);
  }

  // ---------- Node descriptions ----------

  /** A description of a loader, under its full name. */
  ghost predicate Described(loaders: seq<Loader>, d: Description) {
    exists k, j :: 0 <= k < |loaders| && 0 <= j < |loaders[k].types| && Renamed(loaders, k, j) == d
  }

  function Renamed(loaders: seq<Loader>, k: nat, j: nat): Description
    requires k < |loaders| && j < |loaders[k].types|
  {
    var own := loaders[k].types[j];
    Description(loaders[k].packageName + "." + own.name, own.usableAsTool, own.replacement)
  }

  lemma {:induction false} MergedTypes(index: Index, loaders: seq<Loader>, d: Description)
    ensures d in MergeAll(index, loaders).types <==> d in index.types || Described(loaders, d)
    decreases |loaders|
  {
    if loaders != [] {
      var rest := loaders[1..];
      MergedTypes(Merge(index, loaders[0]), rest, d);
      assert forall j :: 0 <= j < |loaders[0].types| ==> TypesOf(loaders[0])[j] == Renamed(loaders, 0, j);
      if d in TypesOf(loaders[0]) {
        var j :| 0 <= j < |loaders[0].types| && TypesOf(loaders[0])[j] == d;
        assert Renamed(loaders, 0, j) == d;
      }
      if Described(rest, d) {
        var k, j :| 0 <= k < |rest| && 0 <= j < |rest[k].types| && Renamed(rest, k, j) == d;
        assert Renamed(loaders, k + 1, j) == d;
      }
      if Described(loaders, d) {
        var k, j :| 0 <= k < |loaders| && 0 <= j < |loaders[k].types| && Renamed(loaders, k, j) == d;
        if k > 0 { assert Renamed(rest, k - 1, j) == d; }
      }
    }
  }

  lemma {:induction false} ToolsAddTypes(index: Index, ds: seq<Description>, d: Description)
    ensures d in AddTools(index, ds).types <==> d in index.types || exists u :: u in ds && d == ToolOf(u)
    decreases |ds|
  {
    if ds != [] {
      ToolsAddTypes(AddTool(index, ds[0]), ds[1..], d);
      assert forall u :: u in ds <==> u == ds[0] || u in ds[1..];
      assert d in AddTool(index, ds[0]).types <==> d in index.types || d == ToolOf(ds[0]);
      hide ToolOf;
    }
  }

  /** The description of a tool: not usable as a tool again. */
  function ToolOf(u: Description): Description {
    Description((if u.replacement.Some? then u.replacement.value else u.name) + "Tool", false, u.replacement)
  }

  /** The descriptions sent out: those of the loaders, and one tool for each usable one. */
  lemma IndexedTypes(loaders: seq<Loader>, d: Description)
    ensures d in PostProcessed(loaders).types <==>
            Described(loaders, d) || exists u :: Described(loaders, u) && u.usableAsTool && d == ToolOf(u)
  {
    hide Described, ToolOf;
    var ds := Usable(Base(loaders).types);
    MergedTypes(EMPTY, loaders, d);
    ToolsAddTypes(Base(loaders), ds, d);
    forall u ensures u in ds <==> Described(loaders, u) && u.usableAsTool { MergedTypes(EMPTY, loaders, u); }
  }

  // ---------- Supported tools ----------

  /** No tool takes the name of a node that is itself wrapped. */
  predicate Unchained(ds: seq<Description>) {
    forall j, k :: 0 <= j < |ds| && 0 <= k < |ds| ==> ToolName(ds[j]) != ds[k].name
  }

  ghost predicate Wraps(c: Credential, ds: seq<Description>, n: Name) {
    exists k :: 0 <= k < |ds| && ToolName(ds[k]) == n && Supports(c, ds[k].name)
  }

  /** What a credential supports once the tools are there. */
  lemma {:induction false} ToolsSupported(index: Index, ds: seq<Description>, c: Name, n: Name)
    requires c in index.credentials && Unchained(ds)
    ensures c in AddTools(index, ds).credentials
    ensures Supports(AddTools(index, ds).credentials[c], n)
       <==> Supports(index.credentials[c], n) || Wraps(index.credentials[c], ds, n)
    decreases |ds|
  {
    if ds != [] {
      var before := index.credentials[c];
      var next := AddTool(index, ds[0]);
      var after := next.credentials[c];
      assert Unchained(ds[1..]) by {
        forall j, k | 0 <= j < |ds[1..]| && 0 <= k < |ds[1..]| ensures ToolName(ds[1..][j]) != ds[1..][k].name {
          assert ds[1..][j] == ds[j + 1] && ds[1..][k] == ds[k + 1];
        }
      }
      ToolsSupported(next, ds[1..], c, n);
      PushSupports(before, ds[0], n);
      forall k | 0 <= k < |ds[1..]| ensures Supports(after, ds[1..][k].name) <==> Supports(before, ds[k + 1].name) {
        PushSupports(before, ds[0], ds[k + 1].name);
      }
      WrapsSplit(before, after, ds, n);
    }
  }

  lemma PushSupports(c: Credential, d: Description, n: Name)
    ensures Supports(Push(c, d), n) <==> Supports(c, n) || (n == ToolName(d) && Supports(c, d.name))
  {
  }

  lemma WrapsSplit(before: Credential, after: Credential, ds: seq<Description>, n: Name)
    requires ds != []
    requires forall k :: 0 <= k < |ds[1..]| ==> (Supports(after, ds[1..][k].name) <==> Supports(before, ds[k + 1].name))
    ensures Wraps(before, ds, n) <==> (n == ToolName(ds[0]) && Supports(before, ds[0].name)) || Wraps(after, ds[1..], n)
  {
    hide ToolName, Supports;
    if Wraps(after, ds[1..], n) {
      var k :| 0 <= k < |ds[1..]| && ToolName(ds[1..][k]) == n && Supports(after, ds[1..][k].name);
      assert ds[k + 1] == ds[1..][k];
    }
    if Wraps(before, ds, n) {
      var k :| 0 <= k < |ds| && ToolName(ds[k]) == n && Supports(before, ds[k].name);
      if k > 0 { assert ds[1..][k - 1] == ds[k]; }
    }
  }

  /** A credential supports a tool if and only if it supports the node the tool wraps, for
      tool names that are fresh and stand for one node each. */
  lemma ToolSupport(loaders: seq<Loader>, c: Name, d: Description)
    requires c in Base(loaders).credentials && d in Usable(Base(loaders).types)
    requires Unchained(Usable(Base(loaders).types)) && !Supports(Base(loaders).credentials[c], ToolName(d))
    requires forall e :: e in Usable(Base(loaders).types) && ToolName(e) == ToolName(d) ==> e.name == d.name
    ensures c in PostProcessed(loaders).credentials
    ensures Supports(PostProcessed(loaders).credentials[c], ToolName(d))
       <==> Supports(Base(loaders).credentials[c], d.name)
  {
    var ds := Usable(Base(loaders).types);
    ToolsSupported(Base(loaders), ds, c, ToolName(d));
    hide ToolName, Supports, Usable, Base;
    var k :| 0 <= k < |ds| && ds[k] == d;
  }

  // ---------- Credentials: the last loader ----------

  ghost predicate IsLast(loaders: seq<Loader>, c: Name, k: nat) {
    k < |loaders| && c in loaders[k].credentials && forall j :: k < j < |loaders| ==> c !in loaders[j].credentials
  }

  /** The index entry comes from the last loader that knows the credential. */
  lemma {:induction false} MergedCredential(index: Index, loaders: seq<Loader>, c: Name, k: nat)
    requires IsLast(loaders, c, k)
    ensures var merged := MergeAll(index, loaders);
            c in merged.credentials && merged.credentials[c] == CredentialOf(loaders[k], loaders[k].credentials[c])
    decreases |loaders|
  {
    if k > 0 {
      assert loaders[1..][k - 1] == loaders[k];
      MergedCredential(Merge(index, loaders[0]), loaders[1..], c, k - 1);
    } else {
      OthersKeepCredential(Merge(index, loaders[0]), loaders[1..], c);
    }
  }

  lemma {:induction false} OthersKeepCredential(index: Index, loaders: seq<Loader>, c: Name)
    requires forall j :: 0 <= j < |loaders| ==> c !in loaders[j].credentials
    ensures Lookup(MergeAll(index, loaders).credentials, c) == Lookup(index.credentials, c)
    decreases |loaders|
  {
    if loaders != [] { OthersKeepCredential(Merge(index, loaders[0]), loaders[1..], c); }
  }

  /** Before the tools, a credential supports the nodes its last loader lists for it, under
      their full names, and none at all unless that loader is a package. */
  lemma SupportedNodes(loaders: seq<Loader>, c: Name, k: nat, n: Name)
    requires IsLast(loaders, c, k)
    ensures c in Base(loaders).credentials
    ensures Supports(Base(loaders).credentials[c], n) <==>
            var own := loaders[k].credentials[c].supportedNodes;
            loaders[k].isPackage && own.Some? && exists t :: t in own.value && n == loaders[k].packageName + "." + t
  {
    MergedCredential(EMPTY, loaders, c, k);
    var own, name := loaders[k].credentials[c].supportedNodes, loaders[k].packageName;
    if loaders[k].isPackage && own.Some? {
      var full := FullNames(name, own.value);
      if n in full {
        var j :| 0 <= j < |full| && full[j] == n;
        assert own.value[j] in own.value;
      }
      if t :| t in own.value && n == name + "." + t {
        var j :| 0 <= j < |own.value| && own.value[j] == t;
        assert full[j] == n;
      }
    }
  }

  datatype Loaded = Loaded(source: Source, packageName: Name)

  function LoadedBy(l: Loader, c: Name): Loaded
    requires c in l.credentials
  {
    Loaded(l.credentials[c].source, l.packageName)
  }

  class LoadNodesAndCredentials {
    var loaders: seq<Loader>
    var known: Index
    var loadedCredentials: map<Name, Loaded>

    method CreateAiTools()
      modifies this`known
      ensures known == AddTools(old(known), Usable(old(known).types))
    {
      var usableNodes := Usable(known.types);
      ghost var goal := AddTools(known, usableNodes);
      for i := 0 to |usableNodes|
        invariant AddTools(known, usableNodes[i..]) == goal
      {
        assert usableNodes[i..][0] == usableNodes[i] && usableNodes[i..][1..] == usableNodes[i + 1..];
        known := AddTool(known, usableNodes[i]);
      }
    }

    method PostProcessLoaders()
      modifies this`known
      ensures known == PostProcessed(loaders)
    {
      known := EMPTY;
      for i := 0 to |loaders|
        invariant MergeAll(known, loaders[i..]) == Base(loaders)
      {
        assert loaders[i..][0] == loaders[i] && loaders[i..][1..] == loaders[i + 1..];
        known := Merge(known, loaders[i]);
      }
      CreateAiTools();
    }

    /** Every loader that knows the credential is asked, so the last one wins, as in the
        index; one that no loader knows any more is still answered from the cache. */
    method GetCredential(c: Name) returns (r: Option<Loaded>)
      modifies this`loadedCredentials
      ensures forall k: nat :: IsLast(loaders, c, k) ==> r == Some(LoadedBy(loaders[k], c))
      ensures (forall k :: 0 <= k < |loaders| ==> c !in loaders[k].credentials) ==>
                r == Lookup(old(loadedCredentials), c)
      ensures r.Some? ==> loadedCredentials == old(loadedCredentials)[c := r.value]
      ensures r.None? ==> loadedCredentials == old(loadedCredentials)
    {
      ghost var last := -1;
      for i := 0 to |loaders|
        invariant -1 <= last < i && forall j :: last < j < i ==> c !in loaders[j].credentials
        invariant last == -1 ==> loadedCredentials == old(loadedCredentials)
        invariant last >= 0 ==> c in loaders[last].credentials
        invariant last >= 0 ==> loadedCredentials == old(loadedCredentials)[c := LoadedBy(loaders[last], c)]
      {
        if c in loaders[i].credentials {
          loadedCredentials := loadedCredentials[c := LoadedBy(loaders[i], c)];
          last := i;
        }
      }
      r := Lookup(loadedCredentials, c);
    }
  }

  /** What the index knows and what GetCredential answers agree on the source. */
  lemma IndexAgreesOnSource(loaders: seq<Loader>, c: Name, k: nat)
    requires IsLast(loaders, c, k)
    ensures c in PostProcessed(loaders).credentials
    ensures PostProcessed(loaders).credentials[c].source == loaders[k].credentials[c].source
  {
    MergedCredential(EMPTY, loaders, c, k);
    ToolsKeepSource(Base(loaders), Usable(Base(loaders).types), c);
  }

  lemma {:induction false} ToolsKeepSource(index: Index, ds: seq<Description>, c: Name)
    requires c in index.credentials
    ensures c in AddTools(index, ds).credentials
    ensures AddTools(index, ds).credentials[c].source == index.credentials[c].source
    decreases |ds|
  {
    if ds != [] { ToolsKeepSource(AddTool(index, ds[0]), ds[1..], c); }
  }
}
