/**
 * Strongly connected components by one depth-first pass (Tarjan), as used to
 * collapse derivation cycles before candidates are resolved.
 */
module Cycles {
  import opened Graphs
  import opened Sorting

  /** The part of the search state the invariants speak about. */
  datatype Dfs = Dfs(index: map<Id, nat>, on: set<Id>, gray: set<Id>)

  /** y leads down to a node still being visited. */
  ghost predicate Anchored(g: Graph, d: Dfs, y: Id)
    requires d.gray <= d.index.Keys && y in d.index
  {
    exists a :: a in d.gray && d.index[a] <= d.index[y] && Reach(g, y, a)
  }

  ghost predicate Inv(g: Graph, d: Dfs) {
    && Closed(g)
    && d.gray <= d.on <= d.index.Keys <= g.Keys
    && Saturated(g, d.index.Keys - d.on)
    && (forall v, w :: v in d.index && v !in d.gray && Edge(g, v, w) ==> w in d.index)
    && (forall a, y {:trigger Reach(g, a, y)} :: a in d.gray && y in d.on && d.index[a] <= d.index[y] ==> Reach(g, a, y))
    && (forall y {:trigger Anchored(g, d, y)} :: y in d.on ==> Anchored(g, d, y))
  }

  /** d1 continues d0: old numbers kept, new numbers above the counter, finished nodes stay finished. */
  ghost predicate Extends(d0: Dfs, next: nat, d1: Dfs) {
    && (forall v :: v in d0.index ==> v in d1.index && d1.index[v] == d0.index[v] <= next)
    && (forall v :: v in d1.index && v !in d0.index ==> next < d1.index[v])
    && d0.on <= d1.on
    && (forall v :: v in d1.on && v in d0.index ==> v in d0.on)
  }

  /** low names a stack node that x reaches. */
  ghost predicate LowWitness(g: Graph, d: Dfs, x: Id, low: nat)
    requires d.on <= d.index.Keys
  {
    exists z :: z in d.on && d.index[z] == low && Reach(g, x, z)
  }

  /** What one finished visit of x guarantees about its low number. */
  ghost predicate Visited(g: Graph, d0: Dfs, next: nat, d1: Dfs, x: Id, low: nat) {
    && Inv(g, d1) && Extends(d0, next, d1) && d1.gray == d0.gray
    && x in d1.index && low <= d1.index[x]
    && (x !in d1.on ==> low == d1.index[x])
    && (x in d1.on ==> LowWitness(g, d1, x, low))
    && (forall y, z :: y in d1.on && y !in d0.on && z in d0.on && Edge(g, y, z) ==> low <= d1.index[z])
  }

  /** State of the loop over the inputs of x after the first i of them. */
  ghost predicate Scanning(g: Graph, d0: Dfs, next: nat, d: Dfs, x: Id, low: nat, i: nat) {
    && Inv(g, d) && Extends(d0, next, d)
    && x in g && x !in d0.index && x in d.on && d.gray == d0.gray + {x}
    && d.index[x] == next + 1 && low <= next + 1
    && LowWitness(g, d, x, low)
    && i <= |g[x]|
    && (forall k :: 0 <= k < i ==> g[x][k] in d.index)
    && (forall k :: 0 <= k < i && g[x][k] in d0.on ==> low <= d.index[g[x][k]])
    && (forall y, z :: y in d.on && y !in d0.on && y != x && z in d0.on && Edge(g, y, z) ==> low <= d.index[z])
  }

  lemma AnchoredBy(g: Graph, d: Dfs, y: Id, a: Id)
    requires d.gray <= d.index.Keys && y in d.index
    requires a in d.gray && d.index[a] <= d.index[y] && Reach(g, y, a)
    ensures Anchored(g, d, y)
  {}

  lemma AnchorOf(g: Graph, d: Dfs, y: Id) returns (a: Id)
    requires d.gray <= d.index.Keys && y in d.index && Anchored(g, d, y)
    ensures a in d.gray && d.index[a] <= d.index[y] && Reach(g, y, a)
  {
    a :| a in d.gray && d.index[a] <= d.index[y] && Reach(g, y, a);
  }

  lemma LowBy(g: Graph, d: Dfs, x: Id, low: nat, z: Id)
    requires d.on <= d.index.Keys
    requires z in d.on && d.index[z] == low && Reach(g, x, z)
    ensures LowWitness(g, d, x, low)
  {}

  lemma LowOf(g: Graph, d: Dfs, x: Id, low: nat) returns (z: Id)
    requires d.on <= d.index.Keys && LowWitness(g, d, x, low)
    ensures z in d.on && d.index[z] == low && Reach(g, x, z)
  {
    z :| z in d.on && d.index[z] == low && Reach(g, x, z);
  }

  lemma InvAtStart(g: Graph)
    requires Closed(g)
    ensures Inv(g, Dfs(map[], {}, {}))
  {}

  lemma ScanningInv(g: Graph, d0: Dfs, next: nat, d: Dfs, x: Id, low: nat, i: nat)
    requires Inv(g, d0) && Scanning(g, d0, next, d, x, low, i)
    ensures Inv(g, d) && x in d.on && d.index[x] == next + 1 && d.on <= d.index.Keys <= g.Keys && d0.on <= d.on && d.gray == d0.gray + {x}
    ensures forall v :: v in d.on - d0.on ==> next < d.index[v]
    ensures forall v :: v in d0.on ==> d.index[v] <= next
  {
    hide Reach, Edge, Saturated, Anchored, LowWitness;
  }

  lemma InvClosed(g: Graph, d: Dfs)
    requires Inv(g, d)
    ensures Closed(g) && d.gray <= d.on <= d.index.Keys <= g.Keys
  {}

  lemma VisitedInv(g: Graph, d0: Dfs, next: nat, d1: Dfs, x: Id, low: nat)
    requires Visited(g, d0, next, d1, x, low)
    ensures Inv(g, d1) && d1.gray == d0.gray && x in d1.index && d0.index.Keys <= d1.index.Keys <= g.Keys
  {
    hide Reach, Edge, Saturated, Anchored, LowWitness;
  }

  lemma Enter(g: Graph, d0: Dfs, next: nat, x: Id)
    requires Inv(g, d0) && x in g && x !in d0.index
    requires forall v :: v in d0.index ==> d0.index[v] <= next
    requires forall a :: a in d0.gray ==> Reach(g, a, x)
    ensures Scanning(g, d0, next, Dfs(d0.index[x := next + 1], d0.on + {x}, d0.gray + {x}), x, next + 1, 0)
  {
    hide Reach, Edge, Anchored, LowWitness;
    var d := Dfs(d0.index[x := next + 1], d0.on + {x}, d0.gray + {x});
    assert d.index.Keys - d.on == d0.index.Keys - d0.on;
    forall y | y in d.on ensures Anchored(g, d, y) {
      if y == x {
        ReachSelf(g, x);
        AnchoredBy(g, d, x, x);
      } else {
        var a := AnchorOf(g, d0, y);
        AnchoredBy(g, d, y, a);
      }
    }
    ReachSelf(g, x);
    LowBy(g, d, x, next + 1, x);
  }

  /** An input that was already visited. */
  lemma ScanKnown(g: Graph, d0: Dfs, next: nat, d: Dfs, x: Id, low: nat, i: nat)
    requires Scanning(g, d0, next, d, x, low, i) && i < |g[x]| && g[x][i] in d.index
    ensures var w := g[x][i];
            var low' := if w in d.on && d.index[w] < low then d.index[w] else low;
            Scanning(g, d0, next, d, x, low', i + 1)
  {
    hide Reach, Edge, Anchored, LowWitness;
    var w := g[x][i];
    if w in d.on && d.index[w] < low {
      EdgeOf(g, x, i);
      ReachStep(g, x, w);
      LowBy(g, d, x, d.index[w], w);
    }
  }

  /** Every node being visited reaches the next input. */
  lemma GrayReachesInput(g: Graph, d0: Dfs, next: nat, d: Dfs, x: Id, low: nat, i: nat)
    requires Scanning(g, d0, next, d, x, low, i) && i < |g[x]|
    requires Inv(g, d0)
    ensures g[x][i] in g
    ensures forall a :: a in d.gray ==> Reach(g, a, g[x][i])
  {
    hide Reach, Edge, Anchored, LowWitness;
    var w := g[x][i];
    EdgeOf(g, x, i);
    ReachStep(g, x, w);
    forall a | a in d.gray ensures Reach(g, a, w) {
      if a != x {
        assert a in d0.index;
        assert d.index[a] <= d.index[x];
        ReachTrans(g, a, x, w);
      }
    }
  }

  lemma ExtendsTrans(d0: Dfs, next: nat, d: Dfs, n: nat, e: Dfs)
    requires Extends(d0, next, d) && Extends(d, n, e) && next <= n
    ensures Extends(d0, next, e)
  {}

  /** An input visited just now: d before, e after its visit. */
  lemma ScanVisited(g: Graph, d0: Dfs, next: nat, d: Dfs, n: nat, e: Dfs, x: Id, low: nat, lowW: nat, i: nat)
    requires Scanning(g, d0, next, d, x, low, i) && i < |g[x]| && g[x][i] !in d.index
    requires next < n && forall v :: v in d.index ==> d.index[v] <= n
    requires Visited(g, d, n, e, g[x][i], lowW)
    ensures Scanning(g, d0, next, e, x, if lowW < low then lowW else low, i + 1)
  {
    hide Reach, Edge, Anchored, LowWitness, Saturated;
    ScanVisitedLow(g, d0, next, d, n, e, x, low, lowW, i);
    ScanVisitedEdges(g, d0, next, d, n, e, x, low, lowW, i);
    ExtendsTrans(d0, next, d, n, e);
  }

  lemma ScanVisitedLow(g: Graph, d0: Dfs, next: nat, d: Dfs, n: nat, e: Dfs, x: Id, low: nat, lowW: nat, i: nat)
    requires Scanning(g, d0, next, d, x, low, i) && i < |g[x]| && g[x][i] !in d.index
    requires next < n && forall v :: v in d.index ==> d.index[v] <= n
    requires Visited(g, d, n, e, g[x][i], lowW)
    ensures LowWitness(g, e, x, if lowW < low then lowW else low)
  {
    hide Reach, Edge, Anchored, LowWitness, Saturated;
    var w := g[x][i];
    EdgeOf(g, x, i);
    ReachStep(g, x, w);
    if lowW < low {
      assert w in e.on;
      var z := LowOf(g, e, w, lowW);
      ReachTrans(g, x, w, z);
      LowBy(g, e, x, lowW, z);
    } else {
      var z := LowOf(g, d, x, low);
      LowBy(g, e, x, low, z);
    }
  }

  /** Edges from the new part of the stack to its old part are accounted for in the lower number. */
  lemma ScanVisitedEdges(g: Graph, d0: Dfs, next: nat, d: Dfs, n: nat, e: Dfs, x: Id, low: nat, lowW: nat, i: nat)
    requires Scanning(g, d0, next, d, x, low, i) && i < |g[x]| && Visited(g, d, n, e, g[x][i], lowW)
    ensures var low' := if lowW < low then lowW else low;
            && e.on <= e.index.Keys && d0.on <= e.on
            && forall y, z :: y in e.on && y !in d0.on && y != x && z in d0.on && Edge(g, y, z) ==> low' <= e.index[z]
  {
    hide Reach, Edge, Anchored, LowWitness, Saturated;
    var low' := if lowW < low then lowW else low;
    forall y, z | y in e.on && y !in d0.on && y != x && z in d0.on && Edge(g, y, z) ensures low' <= e.index[z] {
      if y in d.on {
        assert low <= d.index[z];
      } else {
        assert z in d.on;
      }
    }
  }

  /** x keeps a link to an older node: it stays on the stack. */
  lemma LeaveOnStack(g: Graph, d0: Dfs, next: nat, d: Dfs, x: Id, low: nat)
    requires Inv(g, d0) && x in g && x in d.index && Scanning(g, d0, next, d, x, low, |g[x]|) && low != d.index[x]
    ensures Visited(g, d0, next, d.(gray := d0.gray), x, low)
  {
    hide Reach, Edge, Anchored, LowWitness;
    var e := d.(gray := d0.gray);
    var z := LowOf(g, d, x, low);
    assert z in d0.on;
    var a := AnchorOf(g, d0, z);
    ReachTrans(g, x, z, a);
    forall y | y in e.on ensures Anchored(g, e, y) {
      var b := AnchorOf(g, d, y);
      if b == x {
        ReachTrans(g, y, x, a);
        AnchoredBy(g, e, y, a);
      } else {
        AnchoredBy(g, e, y, b);
      }
    }
    forall v, w | v in e.index && v !in e.gray && Edge(g, v, w) ensures w in e.index {
      if v == x {
        var k := EdgeAt(g, x, w);
      }
    }
    forall y, w | y in e.on && y !in d0.on && w in d0.on && Edge(g, y, w) ensures low <= e.index[w] {
      if y == x {
        var k := EdgeAt(g, x, w);
      }
    }
    LowBy(g, e, x, low, z);
  }

  /** No edge leaves the finished nodes together with the component of x. */
  lemma ComponentSaturated(g: Graph, d0: Dfs, next: nat, d: Dfs, x: Id)
    requires Inv(g, d0) && x in g && x in d.index && Scanning(g, d0, next, d, x, d.index[x], |g[x]|)
    ensures Saturated(g, d.index.Keys - d0.on)
  {
    hide Reach, Edge, Anchored, LowWitness;
    forall v, w | v in d.index.Keys - d0.on && Edge(g, v, w)
      ensures w in d.index.Keys - d0.on
    {
      if v in d.on {
        if v == x {
          var k := EdgeAt(g, x, w);
        }
        assert w in d.index;
      } else {
        assert w in d.index.Keys - d.on;
      }
    }
  }

  /** The nodes above x on the stack, x included, are exactly those mutually reachable with x. */
  lemma ComponentExact(g: Graph, d0: Dfs, next: nat, d: Dfs, x: Id, v: Id)
    requires Inv(g, d0) && x in g && x in d.index && Scanning(g, d0, next, d, x, d.index[x], |g[x]|)
    ensures v in d.on - d0.on <==> Mutual(g, v, x)
  {
    hide Reach, Edge, Anchored, LowWitness;
    ComponentSaturated(g, d0, next, d, x);
    var inside := d.index.Keys - d0.on;
    if v in d.on - d0.on {
      assert Reach(g, x, v);
      var b := AnchorOf(g, d, v);
      ReachInside(g, inside, v, b);
      assert b == x;
    }
    if Mutual(g, v, x) {
      ReachInside(g, inside, x, v);
      if v !in d.on {
        ReachInside(g, d.index.Keys - d.on, v, x);
        assert false;
      }
    }
  }

  /** x is the root of its component: the component leaves the stack. */
  lemma LeaveComponent(g: Graph, d0: Dfs, next: nat, d: Dfs, x: Id)
    requires Inv(g, d0) && x in g && x in d.index && Scanning(g, d0, next, d, x, d.index[x], |g[x]|)
    ensures Visited(g, d0, next, Dfs(d.index, d0.on, d0.gray), x, d.index[x])
  {
    hide Reach, Edge, Anchored, LowWitness;
    var e := Dfs(d.index, d0.on, d0.gray);
    ComponentSaturated(g, d0, next, d, x);
    forall v, w | v in e.index && v !in e.gray && Edge(g, v, w) ensures w in e.index {
      if v == x {
        var k := EdgeAt(g, x, w);
      }
    }
    forall y | y in e.on ensures Anchored(g, e, y) {
      var a := AnchorOf(g, d0, y);
      AnchoredBy(g, e, y, a);
    }
    forall a, y | a in e.gray && y in e.on && e.index[a] <= e.index[y] ensures Reach(g, a, y) {
      assert d0.index[a] <= d0.index[y];
    }
  }

  /** The stack lists exactly the nodes on it, in order of their numbers. */
  ghost predicate Stacked(index: map<Id, nat>, stack: seq<Id>, on: set<Id>) {
    && on <= index.Keys
    && (forall v :: v in on <==> v in stack)
    && (forall i, j :: 0 <= i < j < |stack| ==> index[stack[i]] < index[stack[j]])
  }

  /** Among the finished nodes: an entry exactly for those on a cycle, listing its whole component. */
  ghost predicate CyclesExact(g: Graph, cycles: map<Id, seq<Id>>, finished: set<Id>) {
    && (forall v :: v in cycles <==> v in finished && OnCycle(g, v))
    && (forall v, u :: v in cycles ==> (u in cycles[v] <==> Mutual(g, u, v)))
    && (forall v :: v in cycles ==> Sorted(IdLeq, cycles[v]) && Distinct(cycles[v]))
  }

  predicate IdLeq(a: Id, b: Id) { a <= b }

  /** Being on a cycle is a property of the whole component. */
  lemma CycleShared(g: Graph, x: Id, v: Id)
    requires Closed(g) && x in g && v in g && Mutual(g, v, x) && OnCycle(g, x)
    ensures OnCycle(g, v)
  {
    hide Reach, Edge;
    if v != x {
      var w := ReachFirstEdge(g, v, x);
      ReachTrans(g, w, x, v);
    }
  }

  /** A component is cyclic when it has a second member or its only member feeds itself. */
  lemma CycleTest(g: Graph, x: Id, component: seq<Id>)
    requires Closed(g) && x in g && x in component && Distinct(component)
    requires forall v :: v in component <==> Mutual(g, v, x)
    ensures OnCycle(g, x) <==> |component| > 1 || x in g[x]
  {
    hide Reach;
    if |component| > 1 {
      var v := if component[0] == x then component[1] else component[0];
      assert v in component && v != x;
      var w := ReachFirstEdge(g, x, v);
      ReachTrans(g, w, v, x);
    }
    if x in g[x] {
      ReachSelf(g, x);
      assert Edge(g, x, x);
    }
    if OnCycle(g, x) && x !in g[x] {
      var w :| Edge(g, x, w) && Reach(g, w, x);
      ReachStep(g, x, w);
      assert w in component && x in component && w != x;
    }
  }

  lemma MutualTrans(g: Graph, a: Id, b: Id, c: Id)
    requires Mutual(g, a, b) && Mutual(g, b, c)
    ensures Mutual(g, a, c) && Mutual(g, b, a)
  {
    hide Reach;
    ReachTrans(g, a, b, c);
    ReachTrans(g, c, b, a);
  }

  lemma CyclesAfter(g: Graph, cycles: map<Id, seq<Id>>, finished: set<Id>, x: Id, component: seq<Id>, cyclic: bool,
                    after: map<Id, seq<Id>>)
    requires Closed(g) && x in g && finished <= g.Keys && CyclesExact(g, cycles, finished)
    requires forall v :: v in component <==> Mutual(g, v, x)
    requires forall v :: v in component ==> v !in finished && v in g
    requires cyclic <==> OnCycle(g, x)
    requires Sorted(IdLeq, component) && Distinct(component)
    requires forall v :: v in after <==> v in cycles || (cyclic && v in component)
    requires forall v :: v in after ==> after[v] == if cyclic && v in component then component else cycles[v]
    ensures CyclesExact(g, after, finished + set v | v in component)
  {
    hide Reach, OnCycle, Mutual;
    forall v | v in component ensures OnCycle(g, v) <==> cyclic {
      assert Mutual(g, v, x);
      MutualFlip(g, v, x);
      if OnCycle(g, x) { CycleShared(g, x, v); }
      if OnCycle(g, v) { CycleShared(g, v, x); }
    }
    forall v, u | v in component ensures u in component <==> Mutual(g, u, v) {
      MutualFlip(g, v, x);
      if u in component { MutualTrans(g, u, x, v); }
      if Mutual(g, u, v) { MutualTrans(g, u, v, x); }
    }
  }

  lemma MutualFlip(g: Graph, a: Id, b: Id)
    requires Mutual(g, a, b)
    ensures Mutual(g, b, a)
  {}

  lemma PushStacked(index: map<Id, nat>, stack: seq<Id>, on: set<Id>, x: Id, next: nat)
    requires Stacked(index, stack, on) && x !in index && (forall v :: v in index ==> 0 < index[v] <= next)
    ensures Stacked(index[x := next + 1], stack + [x], on + {x})
  {}

  class CycleFinder {
    const graph: Graph
    var index: map<Id, nat>
    var low: map<Id, nat>
    var onStack: set<Id>
    var stack: seq<Id>
    var next: nat
    var cycles: map<Id, seq<Id>>
    ghost var gray: set<Id>

    ghost function State(): Dfs
      reads this
    {
      Dfs(index, onStack, gray)
    }

    ghost predicate Numbered()
      reads this
    {
      && low.Keys == index.Keys
      && (forall v :: v in index ==> 0 < index[v] <= next)
      && Stacked(index, stack, onStack)
    }

    ghost predicate Valid()
      reads this
    {
      && Numbered() && Inv(graph, State())
      && CyclesExact(graph, cycles, index.Keys - onStack)
    }

    constructor (g: Graph)
      ensures graph == g && index == map[] && low == map[] && onStack == {} && stack == [] && gray == {}
      ensures next == 0 && cycles == map[]
    {
      graph, index, low, onStack, stack, next, cycles := g, map[], map[], {}, [], 0, map[];
      gray := {};
    }

    /** Take x and everything above it off the stack. */
    method PopComponent(x: Id) returns (component: seq<Id>)
      requires Stacked(index, stack, onStack) && x in onStack
      modifies this`stack, this`onStack
      ensures Stacked(index, stack, onStack) && Distinct(component) && onStack <= old(onStack)
      ensures forall v :: v in component <==> v in old(onStack) && index[x] <= index[v]
      ensures forall v :: v in onStack <==> v in old(onStack) && index[v] < index[x]
    {
      component := [];
      var done := false;
      while !done
        invariant Stacked(index, stack, onStack) && Distinct(component) && onStack <= old(onStack)
        invariant forall v :: v in component ==> v in old(onStack) && index[x] <= index[v] && v !in onStack
        invariant forall v :: v in old(onStack) ==> v in onStack || v in component
        invariant done ==> forall v :: v in onStack ==> index[v] < index[x]
        invariant !done ==> x in onStack
        decreases |stack|
      {
        assert x in stack;
        var last := stack[|stack| - 1];
        ghost var before := stack;
        assert before == before[..|before| - 1] + [last];
        stack := stack[..|stack| - 1];
        onStack := onStack - {last};
        component := component + [last];
        done := last == x;
      }
    }

    /** Enter a cyclic component, sorted, under each of its members. */
    method RecordComponent(x: Id, popped: seq<Id>, ghost finished: set<Id>)
      requires Closed(graph) && x in graph && x in popped && Distinct(popped)
      requires finished <= graph.Keys && CyclesExact(graph, cycles, finished)
      requires forall v :: v in popped <==> Mutual(graph, v, x)
      requires forall v :: v in popped ==> v !in finished && v in graph
      modifies this`cycles
      ensures CyclesExact(graph, cycles, finished + set v | v in popped)
    {
      hide Reach, Edge, OnCycle, Mutual, CyclesExact, Closed;
      CycleTest(graph, x, popped);
      var cyclic := |popped| > 1 || x in graph[x];
      var component := Sort(IdLeq, popped);
      SortSorted(IdLeq, popped);
      SortDistinct(IdLeq, popped);
      SameElements(component, popped);
      var after := cycles + map v | v in component && cyclic :: component;
      CyclesAfter(graph, cycles, finished, x, component, cyclic, after);
      assert finished + (set v | v in component) == finished + (set v | v in popped);
      cycles := after;
    }

    /** Close the component rooted at x and record it when it is cyclic. */
    method CloseComponent(x: Id, ghost d0: Dfs, ghost n0: nat)
      requires Numbered() && x in graph && x in index
      requires Inv(graph, d0) && Scanning(graph, d0, n0, State(), x, index[x], |graph[x]|)
      requires CyclesExact(graph, cycles, index.Keys - onStack)
      modifies this`stack, this`onStack, this`cycles, this`gray
      ensures Valid() && Visited(graph, d0, n0, State(), x, index[x])
    {
      hide Reach, Edge, OnCycle, Mutual, Inv, Scanning, Visited, CyclesExact, Closed;
      ghost var d := State();
      ScanningInv(graph, d0, n0, d, x, index[x], |graph[x]|);
      assert Closed(graph) by { InvClosed(graph, d); }
      forall v ensures v in d.on - d0.on <==> Mutual(graph, v, x) {
        ComponentExact(graph, d0, n0, d, x, v);
      }
      LeaveComponent(graph, d0, n0, d, x);
      ghost var finished := index.Keys - onStack;
      var component := PopComponent(x);
      gray := d0.gray;
      assert onStack == d0.on;
      assert forall v :: v in component <==> v in d.on - d0.on;
      VisitedInv(graph, d0, n0, State(), x, index[x]);
      RecordComponent(x, component, finished);
      assert index.Keys - onStack == finished + set v | v in component;
    }

    /** Number x and put it on the stack. */
    method Push(x: Id)
      requires Valid() && x in graph && x !in index
      requires forall a :: a in gray ==> Reach(graph, a, x)
      modifies this
      ensures Numbered() && next == old(next) + 1 && CyclesExact(graph, cycles, index.Keys - onStack)
      ensures low == old(low)[x := next] && x in index && cycles == old(cycles)
      ensures Scanning(graph, old(State()), old(next), State(), x, next, 0)
    {
      hide Reach, Inv, Scanning, CyclesExact, Stacked;
      ghost var d0 := State();
      PushStacked(index, stack, onStack, x, next);
      next := next + 1;
      index, low := index[x := next], low[x := next];
      stack, onStack := stack + [x], onStack + {x};
      gray := gray + {x};
      assert index.Keys - onStack == d0.index.Keys - d0.on;
      Enter(graph, d0, next - 1, x);
    }

    /** One input of x: visit it when it is new, then lower low[x] when it leads to an older stack node. */
    method ScanInput(x: Id, i: nat, ghost d0: Dfs, ghost n0: nat)
      requires Numbered() && n0 < next && Inv(graph, d0)
      requires x in low && x in graph && i < |graph[x]| && Scanning(graph, d0, n0, State(), x, low[x], i)
      requires CyclesExact(graph, cycles, index.Keys - onStack)
      modifies this
      ensures Numbered() && n0 < next
      ensures x in low && Scanning(graph, d0, n0, State(), x, low[x], i + 1)
      ensures CyclesExact(graph, cycles, index.Keys - onStack)
      ensures forall v :: v in old(low) && v != x ==> v in low && low[v] == old(low[v])
      decreases graph.Keys - index.Keys, 1
    {
      hide Reach, Inv, Scanning, Visited, CyclesExact, Stacked;
      var w := graph[x][i];
      ghost var d, n, l := State(), next, low[x];
      if w !in index {
        ScanningInv(graph, d0, n0, d, x, l, i);
        GrayReachesInput(graph, d0, n0, d, x, l, i);
        Visit(w);
        ScanVisited(graph, d0, n0, d, n, State(), x, l, low[w], i);
        if low[w] < low[x] {
          low := low[x := low[w]];
        }
      } else {
        ScanKnown(graph, d0, n0, d, x, l, i);
        if w in onStack && index[w] < low[x] {
          low := low[x := index[w]];
        }
      }
    }

    method Visit(x: Id)
      requires Valid() && x in graph && x !in index
      requires forall a :: a in gray ==> Reach(graph, a, x)
      modifies this
      ensures Valid() && old(next) <= next
      ensures x in low && Visited(graph, old(State()), old(next), State(), x, low[x])
      ensures forall v :: v in old(low) ==> v in low && low[v] == old(low[v])
      decreases graph.Keys - index.Keys, 0
    {
      hide Reach, Inv, Scanning, Visited, CyclesExact, Stacked;
      ghost var d0, n0 := State(), next;
      Push(x);
      for i := 0 to |graph[x]|
        invariant Numbered() && n0 < next
        invariant x in low && x !in old(low) && Scanning(graph, d0, n0, State(), x, low[x], i)
        invariant CyclesExact(graph, cycles, index.Keys - onStack)
        invariant forall v :: v in old(low) ==> v in low && low[v] == old(low[v])
        invariant old(index).Keys < index.Keys
      {
        ScanInput(x, i, d0, n0);
      }
      if low[x] != index[x] {
        LeaveOnStack(graph, d0, n0, State(), x, low[x]);
        gray := d0.gray;
        VisitedInv(graph, d0, n0, State(), x, low[x]);
      } else {
        CloseComponent(x, d0, n0);
      }
    }
  }

  /** Between top-level visits nothing is left on the stack. */
  lemma NothingPending(g: Graph, d: Dfs)
    requires Inv(g, d) && d.gray == {}
    ensures d.on == {}
  {
    hide Reach;
    if d.on != {} {
      var y :| y in d.on;
      var a := AnchorOf(g, d, y);
      assert false;
    }
  }

  /**
   * The cycle table of a graph, whatever the order in which roots are tried:
   * an entry exactly for the nodes on a cycle, holding exactly the nodes
   * mutually reachable with it, sorted and without repetition.
   */
  method FindCycles(g: Graph, ids: seq<Id>) returns (cycles: map<Id, seq<Id>>)
    requires Closed(g) && forall v :: v in ids <==> v in g
    ensures CyclesExact(g, cycles, g.Keys)
  {
    hide Reach, Inv, Visited, CyclesExact;
    var finder := new CycleFinder(g);
    InvAtStart(g);
    NoCyclesYet(g);
    assert finder.index.Keys - finder.onStack == {};
    for i := 0 to |ids|
      invariant fresh(finder) && finder.graph == g && finder.Valid() && finder.gray == {}
      invariant forall k :: 0 <= k < i ==> ids[k] in finder.index
    {
      if ids[i] !in finder.index {
        ghost var d, n := finder.State(), finder.next;
        finder.Visit(ids[i]);
        VisitedInv(g, d, n, finder.State(), ids[i], finder.low[ids[i]]);
      }
    }
    NothingPending(g, finder.State());
    InvClosed(g, finder.State());
    assert finder.index.Keys == g.Keys;
    assert finder.index.Keys - finder.onStack == g.Keys;
    cycles := finder.cycles;
  }

  lemma NoCyclesYet(g: Graph)
    ensures CyclesExact(g, map[], {})
  {}
}
