/**
 The cycle search of scripts/orchestration_feature_state.py: a colour-marking depth-first walk
 over the prerequisite edges between known stages.
 */
module PrerequisiteGraph {
  import opened Support

  /** Each known stage with its prerequisites; a prerequisite need not be a known stage. */
  type Graph = map<string, seq<string>>

  ghost predicate Edge(g: Graph, a: string, b: string) {
    a in g && b in g[a] && b in g
  }

  ghost predicate IsClosedWalk(g: Graph, walk: seq<string>) {
    && |walk| >= 2
    && walk[0] == walk[|walk| - 1]
    && forall i :: 0 <= i < |walk| - 1 ==> Edge(g, walk[i], walk[i + 1])
  }

  /** Every listed stage comes after all its known prerequisites. */
  ghost predicate PrerequisitesFirst(g: Graph, order: seq<string>) {
    forall i, p :: 0 <= i < |order| && Edge(g, order[i], p) ==> p in order[..i]
  }

  ghost predicate IsTopologicalOrder(g: Graph, order: seq<string>) {
    && NoDuplicates(order)
    && (forall n :: n in g <==> n in order)
    && PrerequisitesFirst(g, order)
  }

  ghost predicate Acyclic(g: Graph) {
    exists order :: IsTopologicalOrder(g, order)
  }

  lemma {:induction false} WalkDescends(g: Graph, order: seq<string>, walk: seq<string>, i: nat)
    requires IsTopologicalOrder(g, order) && IsClosedWalk(g, walk)
    requires 0 < i < |walk|
    ensures walk[0] in order && walk[i] in order
    ensures IndexOf(order, walk[i]) < IndexOf(order, walk[0])
  {
    assert Edge(g, walk[i - 1], walk[i]);
    if i > 1 {
      WalkDescends(g, order, walk, i - 1);
    }
    var k := IndexOf(order, walk[i - 1]);
    assert walk[i] in order[..k];
    var j :| 0 <= j < k && order[..k][j] == walk[i];
    assert order[j] == walk[i];
  }

  /** A topological order excludes every closed walk, self-loops included. */
  lemma AcyclicHasNoClosedWalk(g: Graph, walk: seq<string>)
    requires Acyclic(g)
    ensures !IsClosedWalk(g, walk)
  {
    var order :| IsTopologicalOrder(g, order);
    if IsClosedWalk(g, walk) {
      WalkDescends(g, order, walk, |walk| - 1);
    }
  }

  datatype Color = White | Gray | Black

  class CycleFinder {
    const graph: Graph
    var color: map<string, Color>
    var path: seq<string>
    ghost var finished: seq<string>

    ghost predicate Valid()
      reads this
    {
      && color.Keys == graph.Keys
      && NoDuplicates(path)
      && (forall n :: n in path <==> n in color && color[n] == Gray)
      && (forall i :: 0 <= i < |path| - 1 ==> Edge(graph, path[i], path[i + 1]))
      && NoDuplicates(finished)
      && (forall n :: n in finished <==> n in color && color[n] == Black)
      && PrerequisitesFirst(graph, finished)
    }

    ghost function Unvisited(): set<string>
      reads this
    {
      set n | n in color && color[n] == White
    }

    constructor (g: Graph)
      ensures Valid() && graph == g && path == [] && finished == []
      ensures forall n :: n in g ==> color[n] == White
    {
      graph := g;
      color := map n | n in g :: White;
      path := [];
      finished := [];
    }

    /** Marks a node as being visited, at the end of the current path. */
    method Enter(node: string)
      requires Valid() && node in graph && color[node] == White
      requires path != [] ==> Edge(graph, path[|path| - 1], node)
      modifies this`color, this`path
      ensures Valid() && path == old(path) + [node]
      ensures Unvisited() == old(Unvisited()) - {node}
    {
      color := color[node := Gray];
      path := path + [node];
    }

    /** Finishes the last node of the path. */
    method Leave(node: string)
      requires Valid() && path != [] && path[|path| - 1] == node
      requires forall p :: Edge(graph, node, p) ==> p in finished
      modifies this
      ensures Valid() && path == old(path)[..|old(path)| - 1]
      ensures finished == old(finished) + [node]
      ensures Unvisited() == old(Unvisited())
    {
      assert node in path && node !in finished;
      path := path[..|path| - 1];
      color := color[node := Black];
      finished := finished + [node];
    }

    lemma BackEdgeClosesWalk(node: string, dep: string)
      requires Valid() && path != [] && path[|path| - 1] == node
      requires Edge(graph, node, dep) && color[dep] == Gray
      ensures dep in path && IsClosedWalk(graph, path[IndexOf(path, dep)..] + [dep])
    {
      var walk := path[IndexOf(path, dep)..] + [dep];
      forall i | 0 <= i < |walk| - 1 ensures Edge(graph, walk[i], walk[i + 1]) {
        var k := i + IndexOf(path, dep);
        assert walk[i] == path[k];
        assert k < |path| - 1 ==> Edge(graph, path[k], path[k + 1]);
      }
    }

    /** Returns a cycle, or leaves the path as it was with the node and all it reaches finished. */
    method Visit(node: string) returns (cycle: Option<seq<string>>)
      requires Valid() && node in graph && color[node] == White
      requires path != [] ==> Edge(graph, path[|path| - 1], node)
      modifies this
      decreases Unvisited(), 0
      ensures cycle.Some? ==> IsClosedWalk(graph, cycle.value)
      ensures cycle.None? ==> Valid() && path == old(path)
      ensures cycle.None? ==> old(finished) <= finished && node in finished
      ensures cycle.None? ==> Unvisited() < old(Unvisited())
    {
      assert node in Unvisited();
      Enter(node);
      var deps := graph[node];
      var i := 0;
      while i < |deps|
        invariant 0 <= i <= |deps|
        invariant Valid() && path == old(path) + [node]
        invariant old(finished) <= finished && Unvisited() < old(Unvisited())
        invariant forall k :: 0 <= k < i && deps[k] in graph ==> deps[k] in finished
      {
        cycle := VisitPrerequisite(node, deps[i]);
        if cycle.Some? {
          return;
        }
        i := i + 1;
      }
      Leave(node);
      cycle := None;
    }

    /** A reference to an unknown stage is skipped; one back into the path is a cycle. */
    method VisitPrerequisite(node: string, dep: string) returns (cycle: Option<seq<string>>)
      requires Valid() && path != [] && path[|path| - 1] == node && node in graph && dep in graph[node]
      modifies this
      decreases Unvisited(), 1
      ensures cycle.Some? ==> IsClosedWalk(graph, cycle.value)
      ensures cycle.None? ==> Valid() && path == old(path)
      ensures cycle.None? ==> old(finished) <= finished && (dep in graph ==> dep in finished)
      ensures cycle.None? ==> Unvisited() <= old(Unvisited())
    {
      cycle := None;
      if dep in graph {
        if color[dep] == Gray {
          BackEdgeClosesWalk(node, dep);
          cycle := Some(path[IndexOf(path, dep)..] + [dep]);
        } else if color[dep] == White {
          cycle := Visit(dep);
        }
      }
    }
  }

  /**
   keys is the order in which the stages dictionary is iterated. The answer is a real closed walk
   when there is one, and None exactly when the known stages can be put in prerequisite order.
   */
  method FindCycle(g: Graph, keys: seq<string>) returns (cycle: Option<seq<string>>)
    requires forall n :: n in keys <==> n in g
    ensures cycle.Some? ==> IsClosedWalk(g, cycle.value)
    ensures cycle.None? <==> Acyclic(g)
  {
    var finder := new CycleFinder(g);
    var i := 0;
    while i < |keys|
      invariant 0 <= i <= |keys|
      invariant fresh(finder) && finder.graph == g && finder.Valid() && finder.path == []
      invariant forall k :: 0 <= k < i ==> keys[k] in finder.finished
    {
      assert keys[i] in g;
      if finder.color[keys[i]] == White {
        cycle := finder.Visit(keys[i]);
        if cycle.Some? {
          if Acyclic(g) {
            AcyclicHasNoClosedWalk(g, cycle.value);
          }
          return;
        }
      }
      i := i + 1;
    }
    cycle := None;
    assert IsTopologicalOrder(g, finder.finished);
  }
}
