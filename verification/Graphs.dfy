/**
 * Directed graphs given by adjacency lists, reachability, mutual reachability
 * and membership of a cycle.
 */
module Graphs {

  /** An opaque identifier; only equality and the total order are used. */
  type Id = nat

  type Graph = map<Id, seq<Id>>

  ghost predicate Edge(g: Graph, v: Id, w: Id) {
    v in g && w in g[v]
  }

  /** Every edge ends at a node of the graph. */
  ghost predicate Closed(g: Graph) {
    forall v, w :: Edge(g, v, w) ==> w in g
  }

  /** No edge leaves the set. */
  ghost predicate Saturated(g: Graph, nodes: set<Id>) {
    forall v, w :: v in nodes && Edge(g, v, w) ==> w in nodes
  }

  /** b lies in every edge-closed set that holds a (equivalently: a path leads there, see ReachIsPath). */
  ghost predicate Reach(g: Graph, a: Id, b: Id) {
    forall nodes: set<Id> :: Saturated(g, nodes) && a in nodes ==> b in nodes
  }

  ghost predicate Mutual(g: Graph, a: Id, b: Id) {
    Reach(g, a, b) && Reach(g, b, a)
  }

  /** v lies on a cycle, possibly a self-loop. */
  ghost predicate OnCycle(g: Graph, v: Id) {
    exists w :: Edge(g, v, w) && Reach(g, w, v)
  }

  ghost function ReachSet(g: Graph, a: Id): set<Id> {
    set v | v in g && Reach(g, a, v)
  }

  ghost predicate IsPath(g: Graph, p: seq<Id>, a: Id, b: Id) {
    && p != [] && p[0] == a && p[|p| - 1] == b
    && forall i :: 0 <= i < |p| - 1 ==> Edge(g, p[i], p[i + 1])
  }

  lemma EdgeAt(g: Graph, v: Id, w: Id) returns (k: nat)
    requires Edge(g, v, w)
    ensures v in g && k < |g[v]| && g[v][k] == w
  {
    k :| 0 <= k < |g[v]| && g[v][k] == w;
  }

  lemma EdgeOf(g: Graph, v: Id, k: nat)
    requires v in g && k < |g[v]|
    ensures Edge(g, v, g[v][k])
  {}

  lemma ReachSelf(g: Graph, a: Id)
    ensures Reach(g, a, a)
  {}

  /** Reachability cannot leave a set that no edge leaves. */
  lemma ReachInside(g: Graph, nodes: set<Id>, a: Id, b: Id)
    requires Saturated(g, nodes) && a in nodes && Reach(g, a, b)
    ensures b in nodes
  {}

  lemma ReachStep(g: Graph, a: Id, b: Id)
    requires Edge(g, a, b)
    ensures Reach(g, a, b)
  {}

  lemma ReachTrans(g: Graph, a: Id, b: Id, c: Id)
    requires Reach(g, a, b) && Reach(g, b, c)
    ensures Reach(g, a, c)
  {}

  lemma {:induction false} PathReaches(g: Graph, p: seq<Id>, a: Id, b: Id)
    requires IsPath(g, p, a, b)
    ensures Reach(g, a, b)
    decreases |p|
  {
    if |p| > 1 {
      var q := p[..|p| - 1];
      assert IsPath(g, q, a, q[|q| - 1]);
      PathReaches(g, q, a, q[|q| - 1]);
      ReachStep(g, p[|p| - 2], b);
      ReachTrans(g, a, p[|p| - 2], b);
    }
  }

  /** The set definition of reachability agrees with the existence of a path. */
  lemma ReachIsPath(g: Graph, a: Id, b: Id)
    requires Closed(g) && a in g
    ensures Reach(g, a, b) <==> exists p :: IsPath(g, p, a, b)
  {
    if Reach(g, a, b) {
      var nodes := set v | v in g && exists p :: IsPath(g, p, a, v);
      assert IsPath(g, [a], a, a);
      forall v, w | v in nodes && Edge(g, v, w)
        ensures w in nodes
      {
        var p :| IsPath(g, p, a, v);
        assert IsPath(g, p + [w], a, w);
      }
      assert Saturated(g, nodes);
    }
    if exists p :: IsPath(g, p, a, b) {
      var p :| IsPath(g, p, a, b);
      PathReaches(g, p, a, b);
    }
  }

  lemma ReachStays(g: Graph, a: Id, b: Id)
    requires Closed(g) && a in g && Reach(g, a, b)
    ensures b in g
  {
    assert Saturated(g, g.Keys);
  }

  /** Reaching another node takes a first edge. */
  lemma ReachFirstEdge(g: Graph, a: Id, b: Id) returns (w: Id)
    requires Closed(g) && a in g && Reach(g, a, b) && a != b
    ensures Edge(g, a, w) && Reach(g, w, b)
  {
    if forall x :: Edge(g, a, x) ==> !Reach(g, x, b) {
      var nodes := {a} + set v | v in g && !Reach(g, v, b);
      forall v, x | v in nodes && Edge(g, v, x)
        ensures x in nodes
      {
        if v != a && Reach(g, x, b) {
          ReachStep(g, v, x);
          ReachTrans(g, v, x, b);
        }
      }
      assert Saturated(g, nodes);
      assert false;
    }
    w :| Edge(g, a, w) && Reach(g, w, b);
  }

  /** A child that does not lead back has strictly fewer reachable nodes. */
  lemma ReachShrinks(g: Graph, a: Id, w: Id)
    requires Closed(g) && a in g && w in g && Reach(g, a, w) && !Reach(g, w, a)
    ensures ReachSet(g, w) < ReachSet(g, a)
  {
    forall v | v in ReachSet(g, w) ensures v in ReachSet(g, a) {
      ReachTrans(g, a, w, v);
    }
    assert a in ReachSet(g, a);
    assert a !in ReachSet(g, w);
  }

  lemma SubsetCard<T>(a: set<T>, b: set<T>)
    requires a <= b
    ensures |a| <= |b|
  {
    if a != {} {
      var x :| x in a;
      SubsetCard(a - {x}, b - {x});
    }
  }

  /** A path that leaves a set crosses one of its outgoing edges. */
  lemma ExitEdge(g: Graph, inside: set<Id>, a: Id, b: Id) returns (u: Id, w: Id)
    requires Closed(g) && a in inside && b !in inside && Reach(g, a, b)
    ensures u in inside && w !in inside && Edge(g, u, w) && Reach(g, w, b)
  {
    if forall x, y :: x in inside && y !in inside && Edge(g, x, y) ==> !Reach(g, y, b) {
      var nodes := inside + set v | v in g && !Reach(g, v, b);
      forall x, y | x in nodes && Edge(g, x, y) ensures y in nodes {
        if x !in inside && Reach(g, y, b) {
          ReachStep(g, x, y);
          ReachTrans(g, x, y, b);
        }
      }
      assert Saturated(g, nodes);
      ReachInside(g, nodes, a, b);
      ReachSelf(g, b);
      assert false;
    }
    u, w :| u in inside && w !in inside && Edge(g, u, w) && Reach(g, w, b);
  }
}
