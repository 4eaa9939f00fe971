/** The link graph of `src/services/brain-graph.ts`: resolving links to files, and which files the roots reach. */
module BrainGraph {
  import opened Wrappers

  /** A link as extracted: for each candidate path the file names it stands for, in order of preference, and,
      for a bare wikilink, a test for the files it may name by basename. */
  datatype RawEdge = RawEdge(candidates: seq<seq<string>>, basename: Option<string -> bool>)

  // ---------------------------------------------------------------- resolution

  /** The first of a candidate's names that is a file. */
  function FirstFile(names: seq<string>, files: set<string>): (r: Option<string>)
    ensures r.Some? ==> r.value in files && exists i :: 0 <= i < |names| && names[i] == r.value && forall j :: 0 <= j < i ==> names[j] !in files
    ensures r.None? ==> forall n :: n in names ==> n !in files
  {
    if names == [] then None else if names[0] in files then Some(names[0]) else FirstFile(names[1..], files)
  }

  /** Everything the candidates stand for. */
  function Exact(candidates: seq<seq<string>>, files: set<string>): (r: set<string>)
    ensures r <= files
    ensures forall f :: f in r <==> exists i :: 0 <= i < |candidates| && FirstFile(candidates[i], files) == Some(f)
  {
    if candidates == [] then {}
    else
      var rest := Exact(candidates[1..], files);
      var first := FirstFile(candidates[0], files);
      var r := if first.Some? then {first.value} + rest else rest;
      assert forall i :: 1 <= i < |candidates| ==> candidates[i] == candidates[1..][i - 1];
      assert forall f :: f in rest <==> exists i :: 1 <= i < |candidates| && FirstFile(candidates[i], files) == Some(f);
      r
  }

  function NamedLike(files: set<string>, matches: string -> bool): set<string> {
    set f | f in files && matches(f)
  }

  /** The file a link means. */
  ghost predicate Means(edge: RawEdge, files: set<string>, f: string) {
    var exact := Exact(edge.candidates, files);
    exact == {f} || (exact == {} && edge.basename.Some? && NamedLike(files, edge.basename.value) == {f})
  }

  /** `resolveRawEdge`: a link resolves exactly when it means one file, and then to that file. */
  method ResolveRawEdge(edge: RawEdge, files: set<string>) returns (target: Option<string>)
    ensures target.Some? ==> target.value in files && Means(edge, files, target.value)
    ensures target.None? ==> forall f :: !Means(edge, files, f)
  {
    var exact := Exact(edge.candidates, files);
    if |exact| == 1 {
      var f :| f in exact;
      OnlyOne(exact, f);
      return Some(f);
    }
    if |exact| > 1 || edge.basename.None? { return None; }
    var matches := NamedLike(files, edge.basename.value);
    if |matches| == 1 {
      var f :| f in matches;
      OnlyOne(matches, f);
      return Some(f);
    }
    return None;
  }

  lemma OnlyOne<T>(s: set<T>, x: T)
    requires x in s && |s| == 1
    ensures s == {x}
  {
    assert |s - {x}| == 0;
    assert s == (s - {x}) + {x};
  }

  // ---------------------------------------------------------------- reachability

  /** What is analysed: the files, the roots, which files are exempt, and the links of each file. */
  datatype Vault = Vault(files: set<string>, roots: seq<string>, exempt: string -> bool, links: map<string, seq<RawEdge>>)

  ghost predicate Links(v: Vault, source: string, target: string) {
    && source in v.files && !v.exempt(source) && source in v.links
    && exists i :: 0 <= i < |v.links[source]| && Means(v.links[source][i], v.files, target)
  }

  /** A path from a root that is present, along links of files that are not exempt. */
  ghost predicate Path(v: Vault, path: seq<string>) {
    && path != [] && path[0] in v.roots && path[0] in v.files
    && forall i :: 0 <= i < |path| - 1 ==> Links(v, path[i], path[i + 1])
  }

  ghost predicate Connected(v: Vault, f: string) {
    exists path :: Path(v, path) && path[|path| - 1] == f
  }

  lemma RootConnected(v: Vault, root: string)
    requires root in v.roots && root in v.files
    ensures Connected(v, root)
  {
    assert Path(v, [root]);
  }

  lemma LinkConnected(v: Vault, source: string, target: string)
    requires Connected(v, source) && Links(v, source, target)
    ensures Connected(v, target)
  {
    var path :| Path(v, path) && path[|path| - 1] == source;
    var longer := path + [target];
    assert Path(v, longer);
    assert longer[|longer| - 1] == target;
  }

  /** A set with the roots that is closed under links holds everything connected. */
  lemma {:induction false} ClosedHoldsPath(v: Vault, s: set<string>, path: seq<string>)
    requires Path(v, path)
    requires forall r :: r in v.roots && r in v.files ==> r in s
    requires forall a, b :: a in s && Links(v, a, b) ==> b in s
    ensures path[|path| - 1] in s
    decreases |path|
  {
    if |path| > 1 {
      var shorter := path[..|path| - 1];
      assert Path(v, shorter);
      ClosedHoldsPath(v, s, shorter);
      assert Links(v, path[|path| - 2], path[|path| - 1]);
    }
  }

  lemma ClosedHoldsConnected(v: Vault, s: set<string>, f: string)
    requires forall r :: r in v.roots && r in v.files ==> r in s
    requires forall a, b :: a in s && Links(v, a, b) ==> b in s
    requires Connected(v, f)
    ensures f in s
  {
    var path :| Path(v, path) && path[|path| - 1] == f;
    ClosedHoldsPath(v, s, path);
  }

  function Targets(adjacency: map<string, seq<string>>, f: string): seq<string> {
    if f in adjacency then adjacency[f] else []
  }

  /** The adjacency lists hold exactly the resolved links. */
  ghost predicate Adjacent(v: Vault, adjacency: map<string, seq<string>>, sources: set<string>) {
    forall a, b :: b in Targets(adjacency, a) <==> a in sources && Links(v, a, b)
  }

  /** The targets of one file's links, in order. */
  method ResolveAll(v: Vault, source: string) returns (targets: seq<string>)
    requires source in v.files && !v.exempt(source) && source in v.links
    ensures forall b :: b in targets <==> Links(v, source, b)
    ensures forall b :: b in targets ==> b in v.files
  {
    targets := [];
    var edges := v.links[source];
    for i := 0 to |edges|
      invariant forall b :: b in targets <==> exists k :: 0 <= k < i && Means(edges[k], v.files, b)
      invariant forall b :: b in targets ==> b in v.files
    {
      var target := ResolveRawEdge(edges[i], v.files);
      if target.Some? {
        MeansOne(edges[i], v.files, target.value);
        targets := targets + [target.value];
      }
    }
  }

  lemma MeansOne(edge: RawEdge, files: set<string>, f: string)
    requires Means(edge, files, f)
    ensures forall g :: Means(edge, files, g) ==> g == f
  {
    forall g | Means(edge, files, g) ensures g == f {
      assert g in {f} || f in {g};
    }
  }

  method BuildAdjacency(v: Vault) returns (adjacency: map<string, seq<string>>)
    ensures Adjacent(v, adjacency, v.files)
    ensures forall a, b :: b in Targets(adjacency, a) ==> b in v.files
  {
    adjacency := map[];
    var todo := v.files;
    while todo != {}
      invariant todo <= v.files && adjacency.Keys <= v.files - todo
      invariant Adjacent(v, adjacency, v.files - todo)
      invariant forall a, b :: b in Targets(adjacency, a) ==> b in v.files
      decreases todo
    {
      var source :| source in todo;
      todo := todo - {source};
      if !v.exempt(source) && source in v.links {
        var targets := ResolveAll(v, source);
        adjacency := adjacency[source := targets];
      }
    }
    assert v.files - todo == v.files;
  }

  function Present(roots: seq<string>, files: set<string>): (r: seq<string>)
    ensures forall f :: f in r <==> f in roots && f in files
  {
    if roots == [] then [] else (if roots[0] in files then [roots[0]] else []) + Present(roots[1..], files)
  }

  /** The search of `analyzeBrainGraph`: it finds exactly the connected files. The queue may hold duplicates, so
      it ends because each turn either reaches a new file or shortens the queue. */
  method Search(v: Vault) returns (reachable: set<string>)
    ensures forall f :: f in reachable <==> Connected(v, f)
    ensures reachable <= v.files
  {
    hide Connected, Links, Targets;
    var adjacency := BuildAdjacency(v);
    reachable := {};
    var queue := Present(v.roots, v.files);
    forall f | f in queue ensures Connected(v, f) { RootConnected(v, f); }
    while queue != []
      invariant reachable <= v.files && forall f :: f in queue ==> f in v.files
      invariant forall f :: f in reachable || f in queue ==> Connected(v, f)
      invariant forall r :: r in v.roots && r in v.files ==> r in reachable || r in queue
      invariant forall a, b :: a in reachable && Links(v, a, b) ==> b in reachable || b in queue
      decreases v.files - reachable, |queue|
    {
      var current := queue[0];
      ghost var before := queue;
      queue := queue[1..];
      assert forall f :: f in before ==> f == current || f in queue;
      if current in reachable { continue; }
      assert current in v.files - reachable;
      reachable := reachable + {current};
      var targets := Targets(adjacency, current);
      forall b | b in targets ensures Connected(v, b) { LinkConnected(v, current, b); }
      var i := 0;
      ghost var rest := queue;
      while i < |targets|
        invariant 0 <= i <= |targets|
        invariant forall f :: f in queue ==> f in rest || f in targets
        invariant forall f :: f in rest ==> f in queue
        invariant forall k :: 0 <= k < i ==> targets[k] in reachable || targets[k] in queue
      {
        if targets[i] !in reachable { queue := queue + [targets[i]]; }
        i := i + 1;
      }
    }
    forall f | Connected(v, f) ensures f in reachable { ClosedHoldsConnected(v, reachable, f); }
  }

  /** `analyzeBrainGraph`: every file is unreachable, or else reachable or exempt. */
  method AnalyzeBrainGraph(v: Vault) returns (reachable: set<string>, unreachable: set<string>, exempted: set<string>)
    ensures forall f :: f in reachable <==> Connected(v, f)
    ensures exempted == set f | f in v.files && v.exempt(f)
    ensures unreachable + (reachable + exempted) == v.files && unreachable !! (reachable + exempted)
  {
    reachable := Search(v);
    exempted := set f | f in v.files && v.exempt(f);
    unreachable := set f | f in v.files && f !in reachable && f !in exempted;
  }
}
