/** The module bundler: a breadth-first walk that collects the modules an entry file needs, and a
    depth-first sort that puts every module after the modules it depends on. */
module Bundler {
  import opened Wrappers

  type Path = string

  type Dependencies = map<Path, seq<Path>>

  // ---------------------------------------------------------------- reachability

  predicate Edge(d: Dependencies, a: Path, b: Path) {
    a in d && b in d[a]
  }

  ghost predicate IsWalk(d: Dependencies, walk: seq<Path>) {
    walk != [] && (|walk| > 1 ==> Edge(d, walk[0], walk[1]) && IsWalk(d, walk[1..]))
  }

  ghost predicate IsWalkFromTo(d: Dependencies, walk: seq<Path>, a: Path, b: Path) {
    IsWalk(d, walk) && walk[0] == a && walk[|walk| - 1] == b
  }

  ghost predicate Reaches(d: Dependencies, a: Path, b: Path) {
    exists walk :: IsWalkFromTo(d, walk, a, b)
  }

  /** Reaches along at least one edge. */
  ghost predicate DependsOn(d: Dependencies, a: Path, b: Path) {
    exists m :: Edge(d, a, m) && Reaches(d, m, b)
  }

  ghost predicate HasReachableCycle(d: Dependencies, entry: Path) {
    exists n :: Reaches(d, entry, n) && DependsOn(d, n, n)
  }

  lemma ReachesItself(d: Dependencies, a: Path)
    ensures Reaches(d, a, a)
  {
    assert IsWalkFromTo(d, [a], a, a);
  }

  lemma ReachesFurther(d: Dependencies, a: Path, b: Path, c: Path)
    requires Reaches(d, a, b) && Edge(d, b, c)
    ensures Reaches(d, a, c)
  {
    var walk :| IsWalkFromTo(d, walk, a, b);
    WalkFurther(d, walk, c);
    assert IsWalkFromTo(d, walk + [c], a, c);
  }

  lemma {:induction false} WalkFurther(d: Dependencies, walk: seq<Path>, c: Path)
    requires IsWalk(d, walk) && Edge(d, walk[|walk| - 1], c)
    ensures IsWalk(d, walk + [c])
    decreases |walk|
  {
    if |walk| == 1 {
      assert (walk + [c])[1..] == [c];
    } else {
      WalkFurther(d, walk[1..], c);
      assert (walk + [c])[1..] == walk[1..] + [c];
    }
  }

  lemma DependsFurther(d: Dependencies, a: Path, b: Path, c: Path)
    requires DependsOn(d, a, b) && Edge(d, b, c)
    ensures DependsOn(d, a, c)
  {
    var m :| Edge(d, a, m) && Reaches(d, m, b);
    ReachesFurther(d, m, b, c);
  }

  lemma EdgeDepends(d: Dependencies, a: Path, b: Path)
    requires Edge(d, a, b)
    ensures DependsOn(d, a, b)
  {
    ReachesItself(d, b);
  }

  ghost predicate IsClosed(d: Dependencies, nodes: set<Path>) {
    forall a, b :: a in nodes && Edge(d, a, b) ==> b in nodes
  }

  lemma {:induction false} WalkStaysInside(d: Dependencies, nodes: set<Path>, walk: seq<Path>)
    requires IsClosed(d, nodes) && IsWalk(d, walk) && walk[0] in nodes
    ensures walk[|walk| - 1] in nodes
    decreases |walk|
  {
    if |walk| > 1 {
      WalkStaysInside(d, nodes, walk[1..]);
    }
  }

  lemma ReachStaysInside(d: Dependencies, nodes: set<Path>, a: Path)
    requires IsClosed(d, nodes) && a in nodes
    ensures forall b :: Reaches(d, a, b) ==> b in nodes
  {
    forall b | Reaches(d, a, b)
      ensures b in nodes
    {
      var walk :| IsWalkFromTo(d, walk, a, b);
      WalkStaysInside(d, nodes, walk);
    }
  }

  // ---------------------------------------------------------------- the sort

  ghost predicate IsDistinct(nodes: seq<Path>) {
    forall i, j :: 0 <= i < j < |nodes| ==> nodes[i] != nodes[j]
  }

  /** Every module stands after all it depends on. */
  ghost predicate DependenciesFirst(d: Dependencies, order: seq<Path>) {
    forall i, b :: 0 <= i < |order| && Edge(d, order[i], b) ==> b in order[..i]
  }

  /** A walk through an ordered list only ever moves towards its front. */
  lemma {:induction false} WalkMovesForward(d: Dependencies, order: seq<Path>, walk: seq<Path>, i: nat) returns (j: nat)
    requires DependenciesFirst(d, order) && IsWalk(d, walk) && i < |order| && walk[0] == order[i]
    ensures j <= i && order[j] == walk[|walk| - 1] && (|walk| > 1 ==> j < i)
    decreases |walk|
  {
    if |walk| == 1 {
      j := i;
    } else {
      var k :| 0 <= k < i && order[k] == walk[1];
      j := WalkMovesForward(d, order, walk[1..], k);
    }
  }

  lemma OrderGrows(d: Dependencies, order: seq<Path>, node: Path)
    requires DependenciesFirst(d, order) && forall b :: Edge(d, node, b) ==> b in order
    ensures DependenciesFirst(d, order + [node])
  {
    var order' := order + [node];
    forall i, b | 0 <= i < |order'| && Edge(d, order'[i], b)
      ensures b in order'[..i]
    {
      assert order'[..i] == order[..i];
      assert order[..|order|] == order;
    }
  }

  lemma {:induction false} OrderedHasNoCycle(d: Dependencies, order: seq<Path>, n: Path)
    requires DependenciesFirst(d, order) && IsDistinct(order) && n in order
    ensures !DependsOn(d, n, n)
  {
    if DependsOn(d, n, n) {
      var m :| Edge(d, n, m) && Reaches(d, m, n);
      var walk :| IsWalkFromTo(d, walk, m, n);
      var i :| 0 <= i < |order| && order[i] == n;
      var k :| 0 <= k < i && order[k] == m;
      var j := WalkMovesForward(d, order, walk, k);
    }
  }

  /** The state of one depth-first sort. */
  class Sorter {
    const d: Dependencies
    var visited: set<Path>
    var visiting: set<Path>
    var result: seq<Path>

    ghost predicate Valid()
      reads this
    {
      && visited !! visiting
      && IsDistinct(result) && DependenciesFirst(d, result)
      && (forall n :: n in visited <==> n in result)
      && IsClosed(d, visited)
    }

    constructor (d: Dependencies)
      ensures Valid() && this.d == d && visited == visiting == {} && result == []
    {
      this.d, visited, visiting, result := d, {}, {}, [];
    }

    /** Visits a module and all it needs. `entry` is where the sort began and `nodes` a set closed
        under dependencies that bounds the search; `None` means no cycle was met, and otherwise
        the answer is a reachable module that depends on itself. */
    method VisitNode(node: Path, ghost entry: Path, ghost nodes: set<Path>) returns (cycle: Option<Path>)
      requires Valid() && node in nodes && IsClosed(d, nodes)
      requires Reaches(d, entry, node) && forall v :: v in visiting ==> DependsOn(d, v, node)
      modifies this
      ensures cycle.Some? ==> Reaches(d, entry, cycle.value) && DependsOn(d, cycle.value, cycle.value)
      ensures cycle.None? ==>
        && Valid() && visiting == old(visiting)
        && old(result) <= result && node in visited
        && (forall n :: n in visited && n !in old(visited) ==> Reaches(d, entry, n))
        && (node !in old(visited) ==> result[|result| - 1] == node && node !in old(visiting))
        && (node in old(visited) ==> result == old(result))
      decreases nodes - visited - visiting
    {
      if node in visited {
        return None;
      }
      if node in visiting {
        return Some(node);
      }
      visiting := visiting + {node};
      if node in d {
        var deps := d[node];
        for i := 0 to |deps|
          invariant Valid() && visiting == old(visiting) + {node}
          invariant old(result) <= result
          invariant forall k :: 0 <= k < i ==> deps[k] in visited
          invariant forall n :: n in visited && n !in old(visited) ==> Reaches(d, entry, n)
          invariant old(visited) <= visited
        {
          assert Edge(d, node, deps[i]);
          ReachesFurther(d, entry, node, deps[i]);
          EdgeDepends(d, node, deps[i]);
          forall v | v in visiting
            ensures DependsOn(d, v, deps[i])
          {
            if v != node {
              DependsFurther(d, v, node, deps[i]);
            }
          }
          cycle := VisitNode(deps[i], entry, nodes);
          if cycle.Some? {
            return;
          }
        }
      }
      OrderGrows(d, result, node);
      visiting := visiting - {node};
      visited := visited + {node};
      result := result + [node];
      return None;
    }
  }

  /** What a good order is: every module the entry needs, once each, after all it depends on, and
      the entry last. */
  ghost predicate IsBuildOrder(d: Dependencies, entry: Path, order: seq<Path>) {
    && IsDistinct(order) && DependenciesFirst(d, order)
    && (forall n :: n in order <==> Reaches(d, entry, n))
    && order != [] && order[|order| - 1] == entry
  }

  /** Sorts what the entry needs, or finds a module that depends on itself. */
  method TopologicalSort(d: Dependencies, entry: Path) returns (r: Result<seq<Path>, Path>)
    ensures r.Err? <==> HasReachableCycle(d, entry)
    ensures r.Err? ==> Reaches(d, entry, r.error) && DependsOn(d, r.error, r.error)
    ensures r.Ok? ==> IsBuildOrder(d, entry, r.value)
  {
    var sorter := new Sorter(d);
    ghost var nodes := AllNodes(d) + {entry};
    ReachesItself(d, entry);
    var cycle := sorter.VisitNode(entry, entry, nodes);
    if cycle.Some? {
      return Err(cycle.value);
    }
    ReachStaysInside(d, sorter.visited, entry);
    forall n | Reaches(d, entry, n)
      ensures !DependsOn(d, n, n)
    {
      OrderedHasNoCycle(d, sorter.result, n);
    }
    return Ok(sorter.result);
  }

  ghost function AllNodes(d: Dependencies): (nodes: set<Path>)
    ensures forall a, b :: Edge(d, a, b) ==> b in nodes
  {
    set a, b | a in d && b in d[a] :: b
  }

  // ---------------------------------------------------------------- building the graph

  /** A source file: its text and the files its imports resolve to, or `None` when resolving one of
      them failed. */
  datatype File = File(content: string, imports: Option<seq<Path>>)

  type FileSystem = map<Path, File>

  predicate IsUsable(files: FileSystem, p: Path) {
    p in files && files[p].imports.Some?
  }

  function ImportsOf(files: FileSystem): Dependencies {
    map p | p in files && files[p].imports.Some? :: files[p].imports.value
  }

  /** Queues the dependencies not visited yet; one may be queued more than once. */
  method Enqueue(queue: seq<Path>, deps: seq<Path>, visited: set<Path>) returns (extended: seq<Path>)
    ensures forall p :: p in extended <==> p in queue || (p in deps && p !in visited)
  {
    extended := queue;
    for i := 0 to |deps|
      invariant forall p :: p in extended <==> p in queue || (p in deps[..i] && p !in visited)
    {
      assert deps[..i + 1] == deps[..i] + [deps[i]];
      if deps[i] !in visited {
        extended := extended + [deps[i]];
      }
    }
    assert deps[..|deps|] == deps;
  }

  class DependencyGraph {
    var dependencies: Dependencies
    var visited: set<Path>
    var contents: map<Path, string>

    /** A graph built from these files: one entry per visited module in each map, nothing visited
        without what it imports. */
    ghost predicate Valid(files: FileSystem)
      reads this
    {
      && Records(files)
      && IsClosed(ImportsOf(files), visited)
    }

    ghost predicate Records(files: FileSystem)
      reads this
    {
      && visited == dependencies.Keys == contents.Keys
      && forall p :: p in visited ==> IsUsable(files, p) && dependencies[p] == files[p].imports.value
                                      && contents[p] == files[p].content
    }

    constructor ()
      ensures visited == {} && forall files :: Valid(files)
    {
      dependencies, visited, contents := map[], {}, map[];
    }

    /** Marks a module visited and records its text and its imports, if they can be had. */
    method ReadModule(files: FileSystem, path: Path) returns (read: bool)
      requires Records(files)
      modifies this
      ensures read <==> IsUsable(files, path)
      ensures visited == old(visited) + {path}
      ensures read ==> Records(files)
    {
      visited := visited + {path};
      if path !in files {
        return false;
      }
      contents := contents[path := files[path].content];
      if files[path].imports.None? {
        return false;
      }
      dependencies := dependencies[path := files[path].imports.value];
      return true;
    }

    /** Adds to the graph exactly the modules the entry reaches, or fails when one of them cannot be
        read or resolved; then the graph is not to be used. */
    method BuildFromEntry(files: FileSystem, entry: Path) returns (ok: bool)
      requires Valid(files)
      modifies this
      ensures ok <==> forall p :: Reaches(ImportsOf(files), entry, p) ==> IsUsable(files, p)
      ensures ok ==> Valid(files)
      ensures ok ==> forall p :: p in visited <==> p in old(visited) || Reaches(ImportsOf(files), entry, p)
    {
      hide Reaches;
      ghost var d := ImportsOf(files);
      ReachesItself(d, entry);
      var queue := [entry];
      while queue != []
        invariant Records(files)
        invariant old(visited) <= visited
        invariant forall p :: p in visited && p !in old(visited) ==> Reaches(d, entry, p)
        invariant forall p :: p in queue ==> Reaches(d, entry, p)
        invariant forall a, b :: a in visited && Edge(d, a, b) ==> b in visited || b in queue
        invariant entry in visited || entry in queue
        decreases files.Keys - visited, |queue|
      {
        var path := queue[0];
        assert queue == [path] + queue[1..];
        queue := queue[1..];
        if path in visited {
          continue;
        }
        var read := ReadModule(files, path);
        if !read {
          return false;
        }
        var deps := files[path].imports.value;
        forall dep | dep in deps
          ensures Edge(d, path, dep) && Reaches(d, entry, dep)
        {
          ReachesFurther(d, entry, path, dep);
        }
        queue := Enqueue(queue, deps, visited);
      }
      ReachStaysInside(d, visited, entry);
      return true;
    }
  }

  /** On modules the graph has closed over, its dependencies are those of the files. */
  lemma {:induction false} SameWalks(d: Dependencies, g: Dependencies, walk: seq<Path>)
    requires g.Keys <= d.Keys && (forall p :: p in g ==> g[p] == d[p]) && IsClosed(d, g.Keys)
    requires walk != [] && walk[0] in g
    ensures IsWalk(d, walk) <==> IsWalk(g, walk)
    decreases |walk|
  {
    if |walk| > 1 && walk[1] in g {
      SameWalks(d, g, walk[1..]);
    }
  }

  lemma {:induction false} SameReach(d: Dependencies, g: Dependencies, a: Path)
    requires g.Keys <= d.Keys && (forall p :: p in g ==> g[p] == d[p]) && IsClosed(d, g.Keys)
    requires a in g
    ensures forall b :: Reaches(d, a, b) <==> Reaches(g, a, b)
    ensures forall b :: DependsOn(d, a, b) <==> DependsOn(g, a, b)
  {
    forall walk | walk != [] && walk[0] in g
      ensures IsWalk(d, walk) <==> IsWalk(g, walk)
    {
      SameWalks(d, g, walk);
    }
    assert forall m, b, walk :: m in g ==> (IsWalkFromTo(d, walk, m, b) <==> IsWalkFromTo(g, walk, m, b));
    assert forall m, b :: m in g ==> (Reaches(d, m, b) <==> Reaches(g, m, b));
    assert forall m :: Edge(d, a, m) <==> Edge(g, a, m);
  }

  /** From the files to the order their modules are bundled in: it succeeds exactly when everything
      the entry reaches can be read and nothing it reaches depends on itself. */
  method BundleOrder(files: FileSystem, entry: Path) returns (order: Option<seq<Path>>)
    ensures order.Some? <==>
              && (forall p :: Reaches(ImportsOf(files), entry, p) ==> IsUsable(files, p))
              && !HasReachableCycle(ImportsOf(files), entry)
    ensures order.Some? ==> IsBuildOrder(ImportsOf(files), entry, order.value)
  {
    var graph := new DependencyGraph();
    var built := graph.BuildFromEntry(files, entry);
    if !built {
      return None;
    }
    ghost var d := ImportsOf(files);
    ReachesItself(d, entry);
    forall a | a in graph.dependencies
      ensures forall b :: Reaches(d, a, b) <==> Reaches(graph.dependencies, a, b)
      ensures forall b :: DependsOn(d, a, b) <==> DependsOn(graph.dependencies, a, b)
    {
      SameReach(d, graph.dependencies, a);
    }
    var sorted := TopologicalSort(graph.dependencies, entry);
    if sorted.Err? {
      return None;
    }
    return Some(sorted.value);
  }
}