/**
 Acceptance of a Bee manifest's node set: unique ids, known dependencies and no cycle, found by a
 depth-first walk (`coding_agent/bee/runtime.py`).
 */
module BeeManifest {
  import opened Wrappers

  datatype NodeManifest = NodeManifest(nodeId: string, dependsOn: seq<string>)

  type Graph = map<string, set<string>>

  // ---------- What acceptance promises ----------

  ghost predicate UniqueIds(nodes: seq<NodeManifest>) {
    forall i, j :: 0 <= i < j < |nodes| ==> nodes[i].nodeId != nodes[j].nodeId
  }

  function NodeIds(nodes: seq<NodeManifest>): set<string> {
    set i | 0 <= i < |nodes| :: nodes[i].nodeId
  }

  ghost predicate DependenciesKnown(nodes: seq<NodeManifest>) {
    forall i, d :: 0 <= i < |nodes| && d in nodes[i].dependsOn ==> d in NodeIds(nodes)
  }

  predicate Closed(g: Graph) {
    forall n :: n in g ==> g[n] <= g.Keys
  }

  /** A path that follows dependencies. */
  predicate IsPath(g: Graph, p: seq<string>) {
    && |p| > 0
    && (forall i :: 0 <= i < |p| ==> p[i] in g)
    && forall i :: 0 <= i < |p| - 1 ==> p[i + 1] in g[p[i]]
  }

  predicate IsCycle(g: Graph, p: seq<string>) {
    IsPath(g, p) && |p| > 1 && p[0] == p[|p| - 1]
  }

  ghost predicate OnCycle(g: Graph, n: string) {
    exists p :: IsCycle(g, p) && n in p
  }

  ghost predicate Acyclic(g: Graph) {
    forall p :: !IsCycle(g, p)
  }

  /** Every node comes after all its dependencies. */
  ghost predicate Topological(g: Graph, order: seq<string>) {
    && (forall i, j :: 0 <= i < j < |order| ==> order[i] != order[j])
    && (forall i :: 0 <= i < |order| ==> order[i] in g)
    && forall i, d :: 0 <= i < |order| && d in g[order[i]] ==> d in order[..i]
  }

  /** Along a path every node stands before its predecessor in a topological order. */
  lemma {:induction false} PathGoesBack(g: Graph, order: seq<string>, p: seq<string>, at: nat)
    requires Topological(g, order) && IsPath(g, p) && at < |order| && order[at] == p[0]
    ensures p[|p| - 1] in order[..at + 1]
    ensures |p| > 1 ==> p[|p| - 1] in order[..at]
    decreases |p|
  {
    if |p| > 1 {
      assert p[1] in order[..at];
      var next :| 0 <= next < at && order[next] == p[1];
      PathGoesBack(g, order, p[1..], next);
      assert p[1..][|p| - 2] == p[|p| - 1];
    }
  }

  lemma {:induction false} TopologicalIsAcyclic(g: Graph, order: seq<string>)
    requires Topological(g, order) && forall n :: n in g ==> n in order
    ensures Acyclic(g)
  {
    forall p ensures !IsCycle(g, p) {
      if IsCycle(g, p) {
        assert p[0] in order;
        var at :| 0 <= at < |order| && order[at] == p[0];
        assert order[at] !in order[..at];
        PathGoesBack(g, order, p, at);
        assert false;
      }
    }
  }

  // ---------- The walk ----------

  class DependencyWalk {
    const graph: Graph
    var visiting: set<string>
    var visited: set<string>
    ghost var stack: seq<string>
    ghost var order: seq<string>

    /** `stack` is the path of nodes being visited, `order` the finished nodes as they finished. */
    ghost predicate Valid()
      reads this
    {
      && Closed(graph)
      && visiting <= graph.Keys
      && (forall n :: n in visiting <==> n in stack)
      && (forall n :: n in visited <==> n in order)
      && visiting !! visited
      && (stack != [] ==> IsPath(graph, stack))
      && Topological(graph, order)
    }

    constructor (g: Graph)
      requires Closed(g)
      ensures Valid() && graph == g && visiting == {} && stack == [] && order == []
    {
      graph, visiting, visited, stack, order := g, {}, {}, [], [];
    }

    /** The new node can be reached from the last node being visited. */
    ghost predicate Follows(n: string)
      reads this
    {
      n in graph && (stack != [] ==> IsPath(graph, stack + [n]))
    }

    lemma {:induction false} VisitingIsCycle(n: string) returns (p: seq<string>)
      requires Valid() && Follows(n) && n in visiting
      ensures IsCycle(graph, p) && n in p
    {
      var k :| 0 <= k < |stack| && stack[k] == n;
      p := stack[k..] + [n];
      forall i | 0 <= i < |p| - 1 ensures p[i + 1] in graph[p[i]] {
        assert p[i] == (stack + [n])[k + i] && p[i + 1] == (stack + [n])[k + i + 1];
      }
    }

    /** Finishing a node whose dependencies are finished extends the topological order. */
    lemma {:induction false} FinishedIsTopological(g: Graph, finished: seq<string>, n: string)
      requires Topological(g, finished) && n in g && n !in finished
      requires forall d :: d in g[n] ==> d in finished
      ensures Topological(g, finished + [n])
    {
      var all := finished + [n];
      forall i, d | 0 <= i < |all| && d in g[all[i]] ensures d in all[..i] {
        assert all[..i] == if i < |finished| then finished[..i] else finished;
      }
    }

    method Enter(n: string)
      requires Valid() && Follows(n) && n !in visiting && n !in visited
      modifies this
      ensures Valid() && visiting == old(visiting) + {n} && stack == old(stack) + [n]
      ensures visited == old(visited) && order == old(order)
      ensures |graph.Keys - visiting| < |graph.Keys - old(visiting)|
    {
      assert graph.Keys - old(visiting) == (graph.Keys - (old(visiting) + {n})) + {n};
      visiting, stack := visiting + {n}, stack + [n];
    }

    method Leave(n: string, ghost before: seq<string>)
      requires Valid() && stack == before + [n] && n !in before && n in visiting
      requires graph[n] <= visited
      modifies this
      ensures Valid() && visiting == old(visiting) - {n} && stack == before
      ensures visited == old(visited) + {n} && order == old(order) + [n]
    {
      FinishedIsTopological(graph, order, n);
      assert forall i :: 0 <= i < |before| ==> before[i] == stack[i];
      visiting, visited := visiting - {n}, visited + {n};
      stack, order := before, order + [n];
    }

    /** `visit`: returns the id where a cycle was met, if any. */
    method Visit(n: string) returns (cyclic: Option<string>)
      requires Valid() && Follows(n)
      modifies this
      ensures cyclic.None? ==> Valid() && visiting == old(visiting) && stack == old(stack)
      ensures cyclic.None? ==> n in visited && old(visited) <= visited && old(order) <= order
      ensures cyclic.Some? ==> OnCycle(graph, cyclic.value)
      decreases |graph.Keys - visiting|, 0, 0
    {
      if n in visited {
        return None;
      }
      if n in visiting {
        ghost var p := VisitingIsCycle(n);
        return Some(n);
      }
      ghost var before := stack;
      Enter(n);
      cyclic := VisitDependencies(n, graph[n]);
      if cyclic.Some? {
        return;
      }
      Leave(n, before);
      assert visiting == old(visiting);
    }

    /** The loop of `visit` over the dependencies, which come in no particular order. */
    method VisitDependencies(n: string, dependencies: set<string>) returns (cyclic: Option<string>)
      requires Valid() && stack != [] && stack[|stack| - 1] == n
      requires dependencies <= graph[n]
      modifies this
      ensures cyclic.None? ==> Valid() && visiting == old(visiting) && stack == old(stack)
      ensures cyclic.None? ==> dependencies <= visited && old(visited) <= visited && old(order) <= order
      ensures cyclic.Some? ==> OnCycle(graph, cyclic.value)
      decreases |graph.Keys - visiting|, 1, 0
    {
      cyclic := None;
      var rest := dependencies;
      while rest != {}
        invariant Valid() && visiting == old(visiting) && stack == old(stack)
        invariant rest <= dependencies
        invariant dependencies - rest <= visited && old(visited) <= visited && old(order) <= order
        decreases |rest|
      {
        var d :| d in rest;
        cyclic := Visit(d);
        if cyclic.Some? {
          return;
        }
        rest := rest - {d};
      }
      return None;
    }
  }

  // ---------- The whole check ----------

  datatype Defect =
    | Duplicate(nodeId: string)
    | SelfDependency(nodeId: string)
    | Missing(dependencies: set<string>)
    | Cyclic(nodeId: string)

  function GraphOf(nodes: seq<NodeManifest>): Graph {
    if nodes == [] then map[]
    else
      var last := nodes[|nodes| - 1];
      GraphOf(nodes[..|nodes| - 1])[last.nodeId := set d | d in last.dependsOn]
  }

  lemma {:induction false} GraphFacts(nodes: seq<NodeManifest>)
    requires UniqueIds(nodes)
    ensures GraphOf(nodes).Keys == NodeIds(nodes)
    ensures forall i :: 0 <= i < |nodes| ==> GraphOf(nodes)[nodes[i].nodeId] == set d | d in nodes[i].dependsOn
  {
    if nodes != [] {
      var front := nodes[..|nodes| - 1];
      GraphFacts(front);
      assert NodeIds(nodes) == NodeIds(front) + {nodes[|nodes| - 1].nodeId};
    }
  }

  /** `_reject_dependency_cycles`. */
  method RejectDependencyCycles(nodes: seq<NodeManifest>) returns (cyclic: Option<string>, ghost order: seq<string>)
    requires UniqueIds(nodes) && Closed(GraphOf(nodes))
    ensures cyclic.None? ==> Topological(GraphOf(nodes), order) && forall n :: n in GraphOf(nodes) ==> n in order
    ensures cyclic.Some? ==> OnCycle(GraphOf(nodes), cyclic.value)
  {
    GraphFacts(nodes);
    var walk := new DependencyWalk(GraphOf(nodes));
    for i := 0 to |nodes|
      invariant walk.Valid() && walk.stack == [] && walk.graph == GraphOf(nodes) && fresh(walk)
      invariant forall j :: 0 <= j < i ==> nodes[j].nodeId in walk.visited
    {
      cyclic := walk.Visit(nodes[i].nodeId);
      if cyclic.Some? {
        return cyclic, [];
      }
    }
    return None, walk.order;
  }

  /** The loop over the ids: the first duplicate or self-dependency. */
  method FindDuplicate(nodes: seq<NodeManifest>) returns (defect: Option<Defect>, seen: set<string>)
    ensures defect.None? ==> UniqueIds(nodes) && seen == NodeIds(nodes)
    ensures defect.None? ==> forall i :: 0 <= i < |nodes| ==> nodes[i].nodeId !in nodes[i].dependsOn
    ensures defect.Some? ==> defect.value.Duplicate? || defect.value.SelfDependency?
    ensures defect.Some? ==> DefectIsReal(nodes, defect.value)
  {
    seen := {};
    for i := 0 to |nodes|
      invariant UniqueIds(nodes[..i]) && seen == NodeIds(nodes[..i])
      invariant forall j :: 0 <= j < i ==> nodes[j].nodeId !in nodes[j].dependsOn
    {
      var node := nodes[i];
      assert nodes[..i + 1] == nodes[..i] + [node];
      if node.nodeId in seen {
        return Some(Duplicate(node.nodeId)), seen;
      }
      seen := seen + {node.nodeId};
      if node.nodeId in node.dependsOn {
        return Some(SelfDependency(node.nodeId)), seen;
      }
    }
    assert nodes[..|nodes|] == nodes;
    return None, seen;
  }

  /** What each error claims about the manifest. */
  ghost predicate DefectIsReal(nodes: seq<NodeManifest>, defect: Defect) {
    match defect
    case Duplicate(id) => exists i, j :: 0 <= i < j < |nodes| && nodes[i].nodeId == id && nodes[j].nodeId == id
    case SelfDependency(id) => exists i :: 0 <= i < |nodes| && nodes[i].nodeId == id && id in nodes[i].dependsOn
    case Missing(ids) =>
      && ids != {}
      && forall d :: d in ids <==> d !in NodeIds(nodes) && exists i :: 0 <= i < |nodes| && d in nodes[i].dependsOn
    case Cyclic(id) => UniqueIds(nodes) && OnCycle(GraphOf(nodes), id)
  }

  ghost predicate Acceptable(nodes: seq<NodeManifest>) {
    UniqueIds(nodes) && DependenciesKnown(nodes) && Acyclic(GraphOf(nodes))
  }

  /**
   `_require_unique_node_ids`: accepts exactly the manifests with unique ids, known dependencies
   and no cycle, every error is true of the manifest, and the order in which the walk finishes the
   nodes of an accepted manifest is a topological order of all of them.
   */
  method RequireUniqueNodeIds(nodes: seq<NodeManifest>) returns (defect: Option<Defect>, ghost order: seq<string>)
    ensures defect.None? <==> Acceptable(nodes)
    ensures defect.Some? ==> DefectIsReal(nodes, defect.value)
    ensures defect.None? ==> Topological(GraphOf(nodes), order) && forall n :: n in NodeIds(nodes) ==> n in order
  {
    order := [];
    var seen;
    defect, seen := FindDuplicate(nodes);
    if defect.Some? {
      DefectRefuses(nodes, defect.value);
      return;
    }
    var missing := set i, d | 0 <= i < |nodes| && d in nodes[i].dependsOn && d !in seen :: d;
    if missing != {} {
      defect := Some(Missing(missing));
      DefectRefuses(nodes, defect.value);
      return;
    }
    forall i, d | 0 <= i < |nodes| && d in nodes[i].dependsOn ensures d in NodeIds(nodes) {
      assert d !in missing;
    }
    GraphFacts(nodes);
    KnownIsClosed(nodes);
    var cyclic;
    cyclic, order := RejectDependencyCycles(nodes);
    if cyclic.Some? {
      defect := Some(Cyclic(cyclic.value));
      DefectRefuses(nodes, defect.value);
      return;
    }
    TopologicalIsAcyclic(GraphOf(nodes), order);
  }

  lemma {:induction false} KnownIsClosed(nodes: seq<NodeManifest>)
    requires UniqueIds(nodes)
    requires forall i, d :: 0 <= i < |nodes| && d in nodes[i].dependsOn ==> d in NodeIds(nodes)
    ensures Closed(GraphOf(nodes))
  {
    GraphFacts(nodes);
  }

  lemma {:induction false} DefectRefuses(nodes: seq<NodeManifest>, defect: Defect)
    requires DefectIsReal(nodes, defect)
    ensures !Acceptable(nodes)
  {
    if UniqueIds(nodes) {
      GraphFacts(nodes);
      if defect.SelfDependency? {
        assert IsCycle(GraphOf(nodes), [defect.nodeId, defect.nodeId]);
      }
    }
  }
}
