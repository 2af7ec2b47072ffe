/** The packaged dependency closure: copyRuntimeModule in apps/desktop/forge.config.ts. */
module RuntimeModules {
  import opened Options

  type Name = string

  /** `package.json` dependencies of every module that exists; other names are missing. */
  type Graph = map<Name, seq<Name>>

  ghost predicate Edge(g: Graph, a: Name, b: Name) { a in g && b in g[a] }

  ghost predicate Path(g: Graph, p: seq<Name>) {
    |p| > 0 && forall i :: 0 <= i < |p| - 1 ==> Edge(g, p[i], p[i + 1])
  }

  ghost predicate PathTo(g: Graph, a: Name, b: Name, p: seq<Name>) { Path(g, p) && p[0] == a && p[|p| - 1] == b }

  ghost predicate Reachable(g: Graph, a: Name, b: Name) { exists p :: PathTo(g, a, b, p) }

  lemma ReachesItself(g: Graph, a: Name)
    ensures Reachable(g, a, a)
  {
    assert PathTo(g, a, a, [a]);
  }

  lemma ReachesFurther(g: Graph, a: Name, b: Name, c: Name)
    requires Edge(g, a, b) && Reachable(g, b, c)
    ensures Reachable(g, a, c)
  {
    var p :| PathTo(g, b, c, p);
    assert PathTo(g, a, c, [a] + p);
  }

  /** Every module outside `except` keeps its dependencies inside `s`. */
  ghost predicate ClosedExcept(g: Graph, s: set<Name>, except: set<Name>) {
    forall a, b :: a in s - except && Edge(g, a, b) ==> b in s
  }

  lemma {:induction false} ClosedHoldsPaths(g: Graph, s: set<Name>, a: Name, b: Name, p: seq<Name>)
    requires ClosedExcept(g, s, {}) && a in s && PathTo(g, a, b, p)
    ensures b in s
    decreases |p|
  {
    if |p| > 1 {
      assert Edge(g, p[0], p[1]);
      assert Path(g, p[1..]) by {
        forall i | 0 <= i < |p[1..]| - 1 ensures Edge(g, p[1..][i], p[1..][i + 1]) { assert Edge(g, p[i + 1], p[i + 2]); }
      }
      ClosedHoldsPaths(g, s, p[1], b, p[1..]);
    }
  }

  /** A set that holds `a` and every dependency of its members holds all that `a` reaches. */
  lemma ClosedHoldsReachable(g: Graph, s: set<Name>, a: Name, b: Name)
    requires ClosedExcept(g, s, {}) && a in s && Reachable(g, a, b)
    ensures b in s
  {
    var p :| PathTo(g, a, b, p);
    ClosedHoldsPaths(g, s, a, b, p);
  }

  ghost function Names(g: Graph): set<Name> { g.Keys + set a, b | a in g && b in g[a] :: b }

  lemma EdgeInNames(g: Graph, a: Name, b: Name)
    requires Edge(g, a, b)
    ensures b in Names(g)
  {
  }

  class ModuleCopier {
    const graph: Graph
    var copied: set<Name>       // the shared visited set
    var written: seq<Name>      // module trees copied, in order

    constructor (graph: Graph)
      ensures this.graph == graph && copied == {} && written == []
    {
      this.graph := graph;
      copied, written := {}, [];
    }

    /** Only existing modules are written, each once, and only after they were marked. */
    ghost predicate Valid()
      reads this
    {
      && (forall i :: 0 <= i < |written| ==> written[i] in copied && written[i] in graph)
      && (forall i, j :: 0 <= i < j < |written| ==> written[i] != written[j])
      && (forall a :: a in copied && a in graph ==> a in written)
    }

    /** One call, from any visited set: terminates on every graph, cycles included. */
    method CopyModule(name: Name, ghost universe: set<Name>) returns (ok: bool)
      requires Valid() && name in universe && Names(graph) <= universe && copied <= universe
      modifies this
      decreases universe - copied
      ensures Valid() && old(copied) <= copied <= universe && old(written) <= written && name in copied
      ensures forall b :: b in copied - old(copied) ==> Reachable(graph, name, b)
      ensures ok ==> forall a :: a in copied - old(copied) ==> a in graph && forall b :: Edge(graph, a, b) ==> b in copied
      ensures !ok ==> exists b :: b in copied - old(copied) && b !in graph
    {
      if name in copied { return true; }
      ReachesItself(graph, name);
      copied := copied + {name};
      if name !in graph { return false; }
      written := written + [name];
      var dependencies := graph[name];
      var i := 0;
      while i < |dependencies|
        invariant 0 <= i <= |dependencies|
        invariant Valid() && old(copied) + {name} <= copied <= universe && old(written) <= written
        invariant forall b :: b in copied - old(copied) ==> Reachable(graph, name, b)
        invariant forall a :: a in copied - old(copied) - {name} ==> a in graph && forall b :: Edge(graph, a, b) ==> b in copied
        invariant forall k :: 0 <= k < i ==> dependencies[k] in copied
      {
        ghost var before := copied;
        EdgeInNames(graph, name, dependencies[i]);
        var copiedDependency := CopyModule(dependencies[i], universe);
        forall b | b in copied - before
          ensures Reachable(graph, name, b)
        {
          assert Edge(graph, name, dependencies[i]);
          ReachesFurther(graph, name, dependencies[i], b);
        }
        if !copiedDependency { return false; }
        i := i + 1;
      }
      return true;
    }

    /**
     The packaging call, with a fresh visited set: it succeeds exactly when every module reachable from its
     argument exists, and then it writes exactly those modules, each once.
     */
    method CopyRuntimeModule(name: Name) returns (ok: bool)
      requires copied == {} && written == []
      modifies this
      ensures ok <==> forall b :: Reachable(graph, name, b) ==> b in graph
      ensures ok ==> forall b :: b in written <==> Reachable(graph, name, b)
      ensures forall i, j :: 0 <= i < j < |written| ==> written[i] != written[j]
    {
      ok := CopyModule(name, Names(graph) + {name});
      if ok {
        forall b | Reachable(graph, name, b)
          ensures b in copied && b in graph && b in written
        {
          ClosedHoldsReachable(graph, copied, name, b);
        }
      }
    }
  }
}
