/** Which modules the public runtime roots import, directly or not, and the leak check. */
module RuntimeReachability {

  datatype Module = Module(name: string)

  /** The modules each module imports; a module without an entry imports nothing. */
  type Graph = map<Module, seq<Module>>

  function Imports(graph: Graph, m: Module): seq<Module>
  {
    if m in graph then graph[m] else []
  }

  /** A chain of imports. */
  ghost predicate ImportPath(graph: Graph, path: seq<Module>)
  {
    path != [] && forall i :: 0 <= i < |path| - 1 ==> path[i + 1] in Imports(graph, path[i])
  }

  ghost predicate Joins(graph: Graph, path: seq<Module>, roots: seq<Module>, m: Module)
  {
    ImportPath(graph, path) && path[0] in roots && path[|path| - 1] == m
  }

  ghost predicate Reachable(graph: Graph, roots: seq<Module>, m: Module)
  {
    exists path :: Joins(graph, path, roots, m)
  }

  lemma RootReachable(graph: Graph, roots: seq<Module>, m: Module)
    requires m in roots
    ensures Reachable(graph, roots, m)
  {
    assert Joins(graph, [m], roots, m);
  }

  lemma ImportReachable(graph: Graph, roots: seq<Module>, m: Module, n: Module)
    requires Reachable(graph, roots, m) && n in Imports(graph, m)
    ensures Reachable(graph, roots, n)
  {
    var path :| Joins(graph, path, roots, m);
    assert Joins(graph, path + [n], roots, n);
  }

  /** Roots inside and closed under imports: then everything reachable is inside. */
  lemma {:induction false} ClosedContains(graph: Graph, roots: seq<Module>, closed: set<Module>, path: seq<Module>)
    requires ImportPath(graph, path) && path[0] in roots
    requires (forall m :: m in roots ==> m in closed)
    requires forall m, n :: m in closed && n in Imports(graph, m) ==> n in closed
    ensures path[|path| - 1] in closed
  {
    if |path| > 1 {
      ClosedContains(graph, roots, closed, path[..|path| - 1]);
    }
  }

  function Targets(graph: Graph, keys: set<Module>): (all: set<Module>)
    requires keys <= graph.Keys
    ensures forall m, n :: m in keys && n in graph[m] ==> n in all
  {
    set m, n | m in keys && n in graph[m] :: n
  }

  /** The search so far: everything found is reachable, and whatever a visited module imports
      is visited or pending. */
  ghost predicate Frontier(graph: Graph, roots: seq<Module>, visited: set<Module>, pending: seq<Module>)
  {
    && (forall m :: m in visited || m in pending ==> Reachable(graph, roots, m))
    && (forall m :: m in roots ==> m in visited || m in pending)
    && (forall m, n :: m in visited && n in Imports(graph, m) ==> n in visited || n in pending)
  }

  lemma FrontierStart(graph: Graph, roots: seq<Module>)
    ensures Frontier(graph, roots, {}, roots)
  {
    forall m | m in roots
      ensures Reachable(graph, roots, m)
    {
      RootReachable(graph, roots, m);
    }
  }

  lemma FrontierSkip(graph: Graph, roots: seq<Module>, visited: set<Module>, pending: seq<Module>)
    requires Frontier(graph, roots, visited, pending) && pending != [] && pending[0] in visited
    ensures Frontier(graph, roots, visited, pending[1..])
  {
    hide Reachable, Imports;
    assert pending == [pending[0]] + pending[1..];
  }

  lemma FrontierVisit(graph: Graph, roots: seq<Module>, visited: set<Module>, pending: seq<Module>)
    requires Frontier(graph, roots, visited, pending) && pending != []
    ensures Frontier(graph, roots, visited + {pending[0]}, pending[1..] + Imports(graph, pending[0]))
  {
    hide Reachable, Imports;
    assert pending == [pending[0]] + pending[1..];
    forall n | n in Imports(graph, pending[0])
      ensures Reachable(graph, roots, n)
    {
      ImportReachable(graph, roots, pending[0], n);
    }
  }

  lemma FrontierDone(graph: Graph, roots: seq<Module>, visited: set<Module>)
    requires Frontier(graph, roots, visited, [])
    ensures forall m :: m in visited <==> Reachable(graph, roots, m)
  {
    hide Reachable, Imports;
    forall m | Reachable(graph, roots, m)
      ensures m in visited
    {
      ReachableInside(graph, roots, visited, m);
    }
  }

  /** Every module that occurs anywhere. */
  ghost function Universe(graph: Graph, roots: seq<Module>): set<Module>
  {
    (set m | m in roots) + Targets(graph, graph.Keys)
  }

  ghost predicate Inside(s: seq<Module>, universe: set<Module>)
  {
    forall m :: m in s ==> m in universe
  }

  lemma ImportsInside(graph: Graph, roots: seq<Module>, m: Module, rest: seq<Module>)
    requires Inside(rest, Universe(graph, roots))
    ensures Inside(rest + Imports(graph, m), Universe(graph, roots))
  {
  }

  /** The worklist: duplicates may enter the queue, none is expanded twice. */
  method Search(graph: Graph, roots: seq<Module>) returns (visited: set<Module>)
    ensures forall m :: m in visited <==> Reachable(graph, roots, m)
  {
    hide Reachable, Frontier, Universe, Imports;
    ghost var universe := Universe(graph, roots);
    visited := {};
    var pending := roots;
    FrontierStart(graph, roots);
    RootsInside(graph, roots);
    while pending != []
      invariant Frontier(graph, roots, visited, pending)
      invariant visited <= universe && Inside(pending, universe)
      decreases |universe - visited|, |pending|
    {
      var m := pending[0];
      if m in visited {
        FrontierSkip(graph, roots, visited, pending);
        pending := pending[1..];
        continue;
      }
      FrontierVisit(graph, roots, visited, pending);
      ImportsInside(graph, roots, m, pending[1..]);
      assert m in universe - visited;
      Fewer(universe - (visited + {m}), universe - visited);
      visited := visited + {m};
      pending := pending[1..] + Imports(graph, m);
    }
    FrontierDone(graph, roots, visited);
  }

  lemma RootsInside(graph: Graph, roots: seq<Module>)
    ensures Inside(roots, Universe(graph, roots))
  {
  }

  lemma Fewer(a: set<Module>, b: set<Module>)
    requires a < b
    ensures |a| < |b|
  {
    assert b == a + (b - a);
  }

  lemma ReachableInside(graph: Graph, roots: seq<Module>, closed: set<Module>, m: Module)
    requires Reachable(graph, roots, m)
    requires (forall m :: m in roots ==> m in closed)
    requires forall m, n :: m in closed && n in Imports(graph, m) ==> n in closed
    ensures m in closed
  {
    var path :| Joins(graph, path, roots, m);
    ClosedContains(graph, roots, closed, path);
  }

  /** The leak finding is reported exactly when some import path joins a root to a forbidden
      module, and it names exactly those modules. */
  method Leaked(graph: Graph, roots: seq<Module>, forbidden: set<Module>) returns (found: bool, leaked: set<Module>)
    ensures found <==> exists path :: ImportPath(graph, path) && path[0] in roots && path[|path| - 1] in forbidden
    ensures forall m :: m in leaked <==> m in forbidden && Reachable(graph, roots, m)
  {
    var visited := Search(graph, roots);
    leaked := visited * forbidden;
    found := leaked != {};
    if found {
      ghost var m :| m in leaked;
      ghost var path :| Joins(graph, path, roots, m);
    } else {
      forall path | ImportPath(graph, path) && path[0] in roots
        ensures path[|path| - 1] !in forbidden
      {
        assert Joins(graph, path, roots, path[|path| - 1]);
        assert path[|path| - 1] in visited && path[|path| - 1] !in leaked;
      }
    }
  }

  /** Adding imports can only add reachable modules. */
  lemma MoreImportsReachMore(graph: Graph, more: Graph, roots: seq<Module>, m: Module)
    requires forall a, b :: b in Imports(graph, a) ==> b in Imports(more, a)
    requires Reachable(graph, roots, m)
    ensures Reachable(more, roots, m)
  {
    var path :| Joins(graph, path, roots, m);
    assert Joins(more, path, roots, m);
  }
}
