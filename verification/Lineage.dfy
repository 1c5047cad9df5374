/**
 * What it means for a candidate to be grounded in current bindings, stated over
 * the derivation graph alone: no traversal order, no memo, no stack.
 */
module Lineage {
  import opened Errors
  import opened Graphs
  import opened Sorting
  import opened Records

  const MAX_DEPTH: nat := 32
  const MAX_PATHS: nat := 32

  /** The input names a staged candidate at exactly its staged revision. */
  predicate Exact(c: Candidates, input: Input) {
    input.candidate in c && c[input.candidate].revision == input.revision
  }

  function Inputs(v: Versioned<Candidate>): seq<Input> {
    if v.body.derivation.None? then [] else v.body.derivation.value
  }

  function ExactIds(c: Candidates, inputs: seq<Input>): (r: seq<Id>)
    ensures forall w :: w in r <==> exists i :: 0 <= i < |inputs| && Exact(c, inputs[i]) && inputs[i].candidate == w
  {
    if inputs == [] then []
    else
      var n := |inputs| - 1;
      assert forall i :: 0 <= i < n ==> inputs[..n][i] == inputs[i];
      ExactIds(c, inputs[..n]) + if Exact(c, inputs[n]) then [inputs[n].candidate] else []
  }

  /** The derivation graph over revision-exact inputs. */
  function Adjacency(c: Candidates): (g: Graph)
    ensures g.Keys == c.Keys
  {
    map id | id in c :: ExactIds(c, Inputs(c[id]))
  }

  lemma AdjacencyClosed(c: Candidates)
    ensures Closed(Adjacency(c))
  {}

  lemma EdgeIsInput(c: Candidates, v: Id, w: Id)
    ensures Edge(Adjacency(c), v, w) <==>
            v in c && exists i :: 0 <= i < |Inputs(c[v])| && Exact(c, Inputs(c[v])[i]) && Inputs(c[v])[i].candidate == w
  {}

  /** An observed candidate stands on a current binding with exactly its own path. */
  predicate ObservedCurrent(bindings: Bindings, v: Candidate) {
    && v.binding.Some? && v.epoch.Some? && v.generation.Some? && v.originSource.Some?
    && v.binding.value in bindings
    && var b := bindings[v.binding.value].body;
       b.state == BindingCurrent && b.path == CursorKey(v.originSource.value, v.epoch.value, v.generation.value)
  }

  /** The path an observed candidate contributes to everything derived from it. */
  function PathOf(v: Candidate): PathRef
    requires v.binding.Some? && v.epoch.Some? && v.generation.Some? && v.originSource.Some?
  {
    PathRef(CursorKey(v.originSource.value, v.epoch.value, v.generation.value), v.binding.value)
  }

  predicate HasPath(v: Candidate) {
    v.binding.Some? && v.epoch.Some? && v.generation.Some? && v.originSource.Some?
  }

  predicate IsObserved(v: Versioned<Candidate>) { v.body.quality.assertion == Observed }

  /** Paths of the observed candidates reachable from id. */
  ghost function Leaves(c: Candidates, id: Id): set<PathRef> {
    set l | l in c && IsObserved(c[l]) && HasPath(c[l].body) && Reach(Adjacency(c), id, l) :: PathOf(c[l].body)
  }

  /** Order of source paths: source, epoch, generation, binding. */
  predicate PathLeq(a: PathRef, b: PathRef) {
    if a.path.source != b.path.source then a.path.source < b.path.source
    else if a.path.epoch != b.path.epoch then a.path.epoch < b.path.epoch
    else if a.path.generation != b.path.generation then a.path.generation < b.path.generation
    else a.binding <= b.binding
  }

  lemma PathOrder()
    ensures TotalOrder(PathLeq)
  {}

  /** The list is the sorted, duplicate-free listing of the set. */
  ghost predicate Lists(paths: seq<PathRef>, elements: set<PathRef>) {
    && Sorted(PathLeq, paths) && Distinct(paths)
    && forall p :: p in paths <==> p in elements
  }

  lemma ListsUnique(p: seq<PathRef>, q: seq<PathRef>, elements: set<PathRef>)
    requires Lists(p, elements) && Lists(q, elements)
    ensures p == q
  {
    PathOrder();
    SortedUnique(PathLeq, p, q);
  }

  /**
   * Grounded within depth k: an observed candidate on its current binding, or a
   * derived one whose inputs are all exact, grounded one level lower, declared
   * with exactly their own source paths, and together rest on few enough paths.
   */
  ghost predicate Grounded(c: Candidates, bindings: Bindings, id: Id, k: nat)
    decreases k, 0
  {
    && id in c && k > 0
    && if IsObserved(c[id]) then ObservedCurrent(bindings, c[id].body)
       else
         && c[id].body.derivation.Some?
         && (forall i :: 0 <= i < |Inputs(c[id])| ==> GroundedInput(c, bindings, Inputs(c[id])[i], k - 1))
         && |Leaves(c, id)| <= MAX_PATHS
  }

  ghost predicate GroundedInput(c: Candidates, bindings: Bindings, input: Input, k: nat)
    decreases k, 1
  {
    Exact(c, input) && Grounded(c, bindings, input.candidate, k) && Lists(input.paths, Leaves(c, input.candidate))
  }

  /** Grounded within the depth limit: what survives closure. */
  ghost predicate Survives(c: Candidates, bindings: Bindings, id: Id) {
    id in c && Grounded(c, bindings, id, MAX_DEPTH)
  }

  /** Only inferred candidates carry a derivation. */
  predicate ObservedAreLeaves(c: Candidates) {
    forall id :: id in c && IsObserved(c[id]) ==> c[id].body.derivation.None?
  }

  function ObservedErrors(bindings: Bindings, v: Candidate): set<Err> {
    if !HasPath(v) || v.binding.value !in bindings then {DanglingReference}
    else if bindings[v.binding.value].body.state != BindingCurrent then {LifecycleError(bindings[v.binding.value].body)}
    else if bindings[v.binding.value].body.path != PathOf(v).path then {DanglingReference}
    else {}
  }

  ghost predicate SurvivingInput(c: Candidates, bindings: Bindings, input: Input) {
    Exact(c, input) && Survives(c, bindings, input.candidate)
  }

  /** Paths brought in by the inputs that survive. */
  ghost function InputLeaves(c: Candidates, bindings: Bindings, inputs: seq<Input>): set<PathRef> {
    set i, p | 0 <= i < |inputs| && SurvivingInput(c, bindings, inputs[i]) && p in Leaves(c, inputs[i].candidate) :: p
  }

  ghost predicate Misdeclared(c: Candidates, bindings: Bindings, input: Input) {
    !Exact(c, input)
    || (Survives(c, bindings, input.candidate) && !Lists(input.paths, Leaves(c, input.candidate)))
  }

  ghost predicate TooDeep(c: Candidates, bindings: Bindings, input: Input) {
    SurvivingInput(c, bindings, input) && !Grounded(c, bindings, input.candidate, MAX_DEPTH - 1)
  }

  /** Errors a derived candidate raises by itself, beyond those of its inputs. */
  ghost function DerivedErrors(c: Candidates, bindings: Bindings, id: Id): set<Err>
    requires id in c
  {
    var inputs := Inputs(c[id]);
    (if exists i :: 0 <= i < |inputs| && Misdeclared(c, bindings, inputs[i]) then {DanglingReference} else {})
    + (if OnCycle(Adjacency(c), id) || exists i :: 0 <= i < |inputs| && TooDeep(c, bindings, inputs[i])
       then {DerivationCycle} else {})
    + (if !OnCycle(Adjacency(c), id) && |InputLeaves(c, bindings, inputs)| > MAX_PATHS
       then {BoundsExceeded} else {})
  }

  ghost function LocalErrors(c: Candidates, bindings: Bindings, id: Id): set<Err>
    requires id in c
  {
    if IsObserved(c[id]) then ObservedErrors(bindings, c[id].body)
    else if c[id].body.derivation.None? then {DanglingReference}
    else DerivedErrors(c, bindings, id)
  }

  /** Every error found at or below id. */
  ghost function ErrorsBelow(c: Candidates, bindings: Bindings, id: Id): set<Err> {
    set v, e | v in c && Reach(Adjacency(c), id, v) && e in LocalErrors(c, bindings, v) :: e
  }

  // ---------------------------------------------------------------- lemmas

  lemma {:induction false} GroundedMore(c: Candidates, bindings: Bindings, id: Id, k: nat, m: nat)
    requires Grounded(c, bindings, id, k) && k <= m
    ensures Grounded(c, bindings, id, m)
    decreases k
  {
    hide Leaves, Lists;
    if !IsObserved(c[id]) {
      forall i | 0 <= i < |Inputs(c[id])| ensures GroundedInput(c, bindings, Inputs(c[id])[i], m - 1) {
        assert GroundedInput(c, bindings, Inputs(c[id])[i], k - 1);
        GroundedMore(c, bindings, Inputs(c[id])[i].candidate, k - 1, m - 1);
      }
    }
  }

  /** Everything a grounded candidate reaches is grounded, one level lower past the first edge. */
  lemma GroundedChild(c: Candidates, bindings: Bindings, id: Id, w: Id, k: nat)
    requires ObservedAreLeaves(c) && Grounded(c, bindings, id, k) && Edge(Adjacency(c), id, w)
    ensures k > 1 && Grounded(c, bindings, w, k - 1)
  {
    hide Leaves, Lists;
    EdgeIsInput(c, id, w);
    var i :| 0 <= i < |Inputs(c[id])| && Exact(c, Inputs(c[id])[i]) && Inputs(c[id])[i].candidate == w;
    assert GroundedInput(c, bindings, Inputs(c[id])[i], k - 1);
  }

  lemma GroundedReach(c: Candidates, bindings: Bindings, id: Id, v: Id, k: nat)
    requires ObservedAreLeaves(c) && Grounded(c, bindings, id, k) && Reach(Adjacency(c), id, v)
    ensures v in c && Grounded(c, bindings, v, k)
  {
    var g := Adjacency(c);
    var nodes := set x | x in c && Grounded(c, bindings, x, k);
    forall x, w | x in nodes && Edge(g, x, w) ensures w in nodes {
      GroundedChild(c, bindings, x, w, k);
      GroundedMore(c, bindings, w, k - 1, k);
    }
    assert Saturated(g, nodes);
    ReachInside(g, nodes, id, v);
  }

  /** No candidate on a cycle is grounded at any depth. */
  lemma {:induction false} CyclicNeverGrounded(c: Candidates, bindings: Bindings, id: Id, k: nat)
    requires ObservedAreLeaves(c) && id in c && OnCycle(Adjacency(c), id)
    ensures !Grounded(c, bindings, id, k)
    decreases k
  {
    hide Reach, Grounded, Edge;
    var g := Adjacency(c);
    AdjacencyClosed(c);
    if Grounded(c, bindings, id, k) {
      var w :| Edge(g, id, w) && Reach(g, w, id);
      GroundedChild(c, bindings, id, w, k);
      GroundedReach(c, bindings, w, id, k - 1);
      CyclicNeverGrounded(c, bindings, id, k - 1);
    }
  }

  /** Reachability splits off the first edge. */
  lemma ReachUnfold(g: Graph, a: Id, v: Id)
    requires Closed(g) && a in g
    ensures Reach(g, a, v) <==> a == v || exists w :: Edge(g, a, w) && Reach(g, w, v)
  {
    if Reach(g, a, v) && a != v {
      var w := ReachFirstEdge(g, a, v);
    }
    if w :| Edge(g, a, w) && Reach(g, w, v) {
      ReachStep(g, a, w);
      ReachTrans(g, a, w, v);
    }
  }

  lemma ErrorsUnfold(c: Candidates, bindings: Bindings, id: Id, e: Err)
    requires id in c
    ensures e in ErrorsBelow(c, bindings, id) <==>
            e in LocalErrors(c, bindings, id)
            || exists w :: Edge(Adjacency(c), id, w) && e in ErrorsBelow(c, bindings, w)
  {
    hide Reach, Edge, LocalErrors;
    var g := Adjacency(c);
    AdjacencyClosed(c);
    if e in ErrorsBelow(c, bindings, id) {
      var v :| v in c && Reach(g, id, v) && e in LocalErrors(c, bindings, v);
      ReachUnfold(g, id, v);
    }
    if w :| Edge(g, id, w) && e in ErrorsBelow(c, bindings, w) {
      var v :| v in c && Reach(g, w, v) && e in LocalErrors(c, bindings, v);
      ReachUnfold(g, id, v);
    }
    ReachSelf(g, id);
  }

  lemma LeavesUnfold(c: Candidates, id: Id, p: PathRef)
    requires id in c && !IsObserved(c[id])
    ensures p in Leaves(c, id) <==> exists w :: Edge(Adjacency(c), id, w) && p in Leaves(c, w)
  {
    hide Reach, Edge;
    var g := Adjacency(c);
    AdjacencyClosed(c);
    if p in Leaves(c, id) {
      var l :| l in c && IsObserved(c[l]) && HasPath(c[l].body) && Reach(g, id, l) && p == PathOf(c[l].body);
      ReachUnfold(g, id, l);
    }
    if w :| Edge(g, id, w) && p in Leaves(c, w) {
      var l :| l in c && IsObserved(c[l]) && HasPath(c[l].body) && Reach(g, w, l) && p == PathOf(c[l].body);
      ReachUnfold(g, id, l);
    }
  }

  /** The lineage of an observed candidate is its own path. */
  lemma LeavesObserved(c: Candidates, id: Id)
    requires ObservedAreLeaves(c) && id in c && IsObserved(c[id]) && HasPath(c[id].body)
    ensures Leaves(c, id) == {PathOf(c[id].body)}
  {
    hide Reach;
    var g := Adjacency(c);
    AdjacencyClosed(c);
    assert g[id] == [];
    ReachSelf(g, id);
    forall l | l in c && Reach(g, id, l) ensures l == id {
      ReachUnfold(g, id, l);
    }
  }

  /** Paths of surviving inputs are among the paths of the candidate. */
  lemma InputLeavesIncluded(c: Candidates, bindings: Bindings, id: Id)
    requires id in c && !IsObserved(c[id])
    ensures InputLeaves(c, bindings, Inputs(c[id])) <= Leaves(c, id)
  {
    hide Reach, Edge, Survives, Leaves;
    forall p | p in InputLeaves(c, bindings, Inputs(c[id])) ensures p in Leaves(c, id) {
      var i :| 0 <= i < |Inputs(c[id])| && SurvivingInput(c, bindings, Inputs(c[id])[i]) && p in Leaves(c, Inputs(c[id])[i].candidate);
      EdgeIsInput(c, id, Inputs(c[id])[i].candidate);
      LeavesUnfold(c, id, p);
    }
  }

  /** When every exact input survives, those are all its paths. */
  lemma InputLeavesComplete(c: Candidates, bindings: Bindings, id: Id)
    requires id in c && !IsObserved(c[id])
    requires forall i :: 0 <= i < |Inputs(c[id])| && Exact(c, Inputs(c[id])[i]) ==> SurvivingInput(c, bindings, Inputs(c[id])[i])
    ensures InputLeaves(c, bindings, Inputs(c[id])) == Leaves(c, id)
  {
    hide Reach, Edge, Survives, Leaves;
    InputLeavesIncluded(c, bindings, id);
    forall p | p in Leaves(c, id) ensures p in InputLeaves(c, bindings, Inputs(c[id])) {
      LeavesUnfold(c, id, p);
      var w :| Edge(Adjacency(c), id, w) && p in Leaves(c, w);
      EdgeIsInput(c, id, w);
      var i :| 0 <= i < |Inputs(c[id])| && Exact(c, Inputs(c[id])[i]) && Inputs(c[id])[i].candidate == w;
      assert SurvivingInput(c, bindings, Inputs(c[id])[i]);
    }
  }

  lemma SurvivorClean(c: Candidates, bindings: Bindings, v: Id)
    requires ObservedAreLeaves(c) && Survives(c, bindings, v)
    ensures LocalErrors(c, bindings, v) == {}
  {
    hide Reach, OnCycle, Leaves, Lists;
    if !IsObserved(c[v]) {
      if OnCycle(Adjacency(c), v) { CyclicNeverGrounded(c, bindings, v, MAX_DEPTH); }
      var inputs := Inputs(c[v]);
      forall i | 0 <= i < |inputs|
        ensures !Misdeclared(c, bindings, inputs[i]) && !TooDeep(c, bindings, inputs[i])
      {
        assert GroundedInput(c, bindings, inputs[i], MAX_DEPTH - 1);
      }
      InputLeavesIncluded(c, bindings, v);
      SubsetCard(InputLeaves(c, bindings, inputs), Leaves(c, v));
    }
  }

  lemma CleanGrounds(c: Candidates, bindings: Bindings, id: Id)
    requires ObservedAreLeaves(c) && id in c && LocalErrors(c, bindings, id) == {}
    requires forall w :: Edge(Adjacency(c), id, w) ==> Survives(c, bindings, w)
    ensures Survives(c, bindings, id)
  {
    hide Reach, OnCycle, Leaves, Lists, Edge;
    if !IsObserved(c[id]) {
      var inputs := Inputs(c[id]);
      forall i | 0 <= i < |inputs|
        ensures SurvivingInput(c, bindings, inputs[i]) && GroundedInput(c, bindings, inputs[i], MAX_DEPTH - 1)
      {
        assert !Misdeclared(c, bindings, inputs[i]) && !TooDeep(c, bindings, inputs[i]);
        EdgeIsInput(c, id, inputs[i].candidate);
      }
      InputLeavesComplete(c, bindings, id);
    }
  }

  /** A candidate is grounded exactly when no error lies at or below it. */
  lemma {:induction false} SurvivesIffClean(c: Candidates, bindings: Bindings, id: Id)
    requires ObservedAreLeaves(c) && id in c
    ensures Survives(c, bindings, id) <==> ErrorsBelow(c, bindings, id) == {}
    decreases ReachSet(Adjacency(c), id)
  {
    hide Reach, Edge, Grounded, LocalErrors;
    var g := Adjacency(c);
    AdjacencyClosed(c);
    if Survives(c, bindings, id) {
      forall e | e in ErrorsBelow(c, bindings, id) ensures false {
        var v :| v in c && Reach(g, id, v) && e in LocalErrors(c, bindings, v);
        GroundedReach(c, bindings, id, v, MAX_DEPTH);
        SurvivorClean(c, bindings, v);
      }
    }
    if ErrorsBelow(c, bindings, id) == {} {
      NoErrorsBelow(c, bindings, id);
      forall w | Edge(g, id, w) ensures Survives(c, bindings, w) {
        CleanChild(c, bindings, id, w);
        SurvivesIffClean(c, bindings, w);
      }
      CleanGrounds(c, bindings, id);
    }
  }

  lemma NoErrorsBelow(c: Candidates, bindings: Bindings, id: Id)
    requires id in c && ErrorsBelow(c, bindings, id) == {}
    ensures LocalErrors(c, bindings, id) == {}
    ensures forall w :: Edge(Adjacency(c), id, w) ==> ErrorsBelow(c, bindings, w) == {}
  {
    hide Reach, Edge, LocalErrors, ErrorsBelow;
    forall e ensures e !in LocalErrors(c, bindings, id) {
      ErrorsUnfold(c, bindings, id, e);
    }
    forall w | Edge(Adjacency(c), id, w) ensures ErrorsBelow(c, bindings, w) == {} {
      forall e | e in ErrorsBelow(c, bindings, w) ensures false {
        ErrorsUnfold(c, bindings, id, e);
      }
    }
  }

  /** The inputs of a clean candidate do not lead back to it. */
  lemma CleanChild(c: Candidates, bindings: Bindings, id: Id, w: Id)
    requires ObservedAreLeaves(c) && id in c && LocalErrors(c, bindings, id) == {} && Edge(Adjacency(c), id, w)
    ensures w in c && ReachSet(Adjacency(c), w) < ReachSet(Adjacency(c), id)
  {
    hide Reach, Leaves, Lists, Survives;
    var g := Adjacency(c);
    AdjacencyClosed(c);
    assert !OnCycle(g, id);
    ReachStep(g, id, w);
    ReachShrinks(g, id, w);
  }

  // ---------------------------------------------------------------- one pass is enough

  /** The candidates that survive closure. */
  ghost function Survivors(c: Candidates, bindings: Bindings): Candidates {
    map id | id in c && Survives(c, bindings, id) :: c[id]
  }

  lemma SurvivorEdges(c: Candidates, bindings: Bindings, id: Id, w: Id)
    requires ObservedAreLeaves(c) && Survives(c, bindings, id)
    ensures var kept := Survivors(c, bindings);
            && (Edge(Adjacency(c), id, w) <==> Edge(Adjacency(kept), id, w))
            && (Edge(Adjacency(c), id, w) ==> w in kept)
  {
    hide Grounded, Edge;
    var kept := Survivors(c, bindings);
    EdgeIsInput(c, id, w);
    EdgeIsInput(kept, id, w);
    if Edge(Adjacency(c), id, w) {
      GroundedChild(c, bindings, id, w, MAX_DEPTH);
      GroundedMore(c, bindings, w, MAX_DEPTH - 1, MAX_DEPTH);
      var i :| 0 <= i < |Inputs(c[id])| && Exact(c, Inputs(c[id])[i]) && Inputs(c[id])[i].candidate == w;
      assert Exact(kept, Inputs(kept[id])[i]);
    }
    if Edge(Adjacency(kept), id, w) {
      var i :| 0 <= i < |Inputs(kept[id])| && Exact(kept, Inputs(kept[id])[i]) && Inputs(kept[id])[i].candidate == w;
      assert Exact(c, Inputs(c[id])[i]);
    }
  }

  lemma SurvivorReach(c: Candidates, bindings: Bindings, id: Id, v: Id)
    requires ObservedAreLeaves(c) && Survives(c, bindings, id)
    ensures var kept := Survivors(c, bindings);
            && (Reach(Adjacency(c), id, v) <==> Reach(Adjacency(kept), id, v))
            && (Reach(Adjacency(c), id, v) ==> v in kept)
  {
    hide Reach, Edge, Grounded, Adjacency;
    var kept := Survivors(c, bindings);
    var g, h := Adjacency(c), Adjacency(kept);
    ReachSelf(g, id);
    ReachSelf(h, id);
    var down := set x | x in kept && Reach(h, id, x);
    forall x, w | x in down && Edge(g, x, w) ensures w in down {
      SurvivorEdges(c, bindings, x, w);
      ReachStep(h, x, w);
      ReachTrans(h, id, x, w);
    }
    var up := set x | x in kept && Reach(g, id, x);
    forall x, w | x in up && Edge(h, x, w) ensures w in up {
      SurvivorEdges(c, bindings, x, w);
      ReachStep(g, x, w);
      ReachTrans(g, id, x, w);
    }
    if Reach(g, id, v) { ReachInside(g, down, id, v); }
    if Reach(h, id, v) { ReachInside(h, up, id, v); }
  }

  lemma SurvivorLeaves(c: Candidates, bindings: Bindings, id: Id)
    requires ObservedAreLeaves(c) && Survives(c, bindings, id)
    ensures Leaves(Survivors(c, bindings), id) == Leaves(c, id)
  {
    hide Reach, Grounded;
    forall l ensures Reach(Adjacency(c), id, l) <==> Reach(Adjacency(Survivors(c, bindings)), id, l) {
      SurvivorReach(c, bindings, id, l);
    }
    forall l | Reach(Adjacency(c), id, l) ensures l in Survivors(c, bindings) {
      SurvivorReach(c, bindings, id, l);
    }
  }

  lemma {:induction false} SurvivorGrounded(c: Candidates, bindings: Bindings, id: Id, k: nat)
    requires ObservedAreLeaves(c) && Survives(c, bindings, id) && Grounded(c, bindings, id, k)
    ensures Grounded(Survivors(c, bindings), bindings, id, k)
    decreases k
  {
    hide Reach, Lists, Leaves, Survives;
    var kept := Survivors(c, bindings);
    if !IsObserved(c[id]) {
      SurvivorLeaves(c, bindings, id);
      forall i | 0 <= i < |Inputs(c[id])| ensures GroundedInput(kept, bindings, Inputs(c[id])[i], k - 1) {
        var input := Inputs(c[id])[i];
        assert GroundedInput(c, bindings, input, k - 1);
        SurvivingChild(c, bindings, id, input.candidate);
        SurvivorGrounded(c, bindings, input.candidate, k - 1);
        SurvivorLeaves(c, bindings, input.candidate);
      }
    }
  }

  lemma SurvivingChild(c: Candidates, bindings: Bindings, id: Id, w: Id)
    requires ObservedAreLeaves(c) && Survives(c, bindings, id)
    requires exists i :: 0 <= i < |Inputs(c[id])| && Exact(c, Inputs(c[id])[i]) && Inputs(c[id])[i].candidate == w
    ensures Survives(c, bindings, w)
  {
    hide Grounded;
    EdgeIsInput(c, id, w);
    GroundedChild(c, bindings, id, w, MAX_DEPTH);
    GroundedMore(c, bindings, w, MAX_DEPTH - 1, MAX_DEPTH);
  }

  /** Closure is a fixpoint after one pass: closing the survivors again removes and refuses nothing. */
  lemma SurvivorsSurvive(c: Candidates, bindings: Bindings)
    requires ObservedAreLeaves(c)
    ensures var kept := Survivors(c, bindings);
            && Survivors(kept, bindings) == kept
            && forall id :: id in kept ==> ErrorsBelow(kept, bindings, id) == {}
  {
    hide Grounded, ErrorsBelow;
    var kept := Survivors(c, bindings);
    forall id | id in kept ensures Survives(kept, bindings, id) && ErrorsBelow(kept, bindings, id) == {} {
      SurvivorGrounded(c, bindings, id, MAX_DEPTH);
      SurvivesIffClean(kept, bindings, id);
    }
  }

  /** Every observed candidate reachable from a survivor stands on a current binding with its own path. */
  lemma SurvivorRestsOnCurrent(c: Candidates, bindings: Bindings, id: Id, l: Id)
    requires ObservedAreLeaves(c) && Survives(c, bindings, id)
    requires Reach(Adjacency(c), id, l) && l in c && IsObserved(c[l])
    ensures ObservedCurrent(bindings, c[l].body)
  {
    GroundedReach(c, bindings, id, l, MAX_DEPTH);
  }

  // ---------------------------------------------------------------- the definitions, spelled out

  /** One derivation edge: an input that names a staged candidate at exactly its staged revision. */
  lemma EdgeExact(c: Candidates, v: Id, w: Id)
    ensures Edge(Adjacency(c), v, w) <==>
            && v in c && w in c && c[v].body.derivation.Some?
            && exists i :: 0 <= i < |c[v].body.derivation.value| && c[v].body.derivation.value[i].candidate == w
                           && c[v].body.derivation.value[i].revision == c[w].revision
  {
    EdgeIsInput(c, v, w);
  }

  /** Paths are compared by source, then epoch, then generation, then binding: the smaller at the first difference comes first. */
  lemma PathLeqExact(a: PathRef, b: PathRef)
    ensures PathLeq(a, b) && a != b <==>
            || a.path.source < b.path.source
            || (a.path.source == b.path.source && a.path.epoch < b.path.epoch)
            || (a.path.source == b.path.source && a.path.epoch == b.path.epoch && a.path.generation < b.path.generation)
            || (a.path == b.path && a.binding < b.binding)
    ensures a == b ==> PathLeq(a, b)
  {}

  /** The lineage of a candidate: the paths of all observations it can be traced to. */
  lemma LeavesExact(c: Candidates, id: Id, p: PathRef)
    ensures p in Leaves(c, id) <==>
            exists l :: && l in c && c[l].body.quality.assertion == Observed && Reach(Adjacency(c), id, l)
                        && c[l].body.binding == Some(p.binding) && c[l].body.originSource == Some(p.path.source)
                        && c[l].body.epoch == Some(p.path.epoch) && c[l].body.generation == Some(p.path.generation)
  {
    hide Reach, Adjacency;
    if p in Leaves(c, id) {
      var l :| l in c && IsObserved(c[l]) && HasPath(c[l].body) && Reach(Adjacency(c), id, l) && p == PathOf(c[l].body);
    }
    if l :| && l in c && c[l].body.quality.assertion == Observed && Reach(Adjacency(c), id, l)
            && c[l].body.binding == Some(p.binding) && c[l].body.originSource == Some(p.path.source)
            && c[l].body.epoch == Some(p.path.epoch) && c[l].body.generation == Some(p.path.generation) {
      assert PathOf(c[l].body) == p;
    }
  }

  predicate OnItsBinding(bindings: Bindings, v: Candidate) {
    && v.binding.Some? && v.binding.value in bindings && bindings[v.binding.value].body.state == BindingCurrent
    && v.originSource == Some(bindings[v.binding.value].body.path.source) && v.epoch == Some(bindings[v.binding.value].body.path.epoch)
    && v.generation == Some(bindings[v.binding.value].body.path.generation)
  }

  /** All inputs found one level lower, and few enough paths. */
  ghost predicate Derives(c: Candidates, bindings: Bindings, id: Id, k: nat)
    requires id in c
  {
    && c[id].body.derivation.Some? && |Leaves(c, id)| <= 32
    && forall i :: 0 <= i < |c[id].body.derivation.value| ==> FoundInput(c, bindings, c[id].body.derivation.value[i], k)
  }

  /** Grounded within the limits, one level at a time. */
  lemma GroundedExact(c: Candidates, bindings: Bindings, id: Id, k: nat)
    ensures !Grounded(c, bindings, id, 0)
    ensures Grounded(c, bindings, id, k + 1) <==>
            id in c && (if c[id].body.quality.assertion == Observed then OnItsBinding(bindings, c[id].body) else Derives(c, bindings, id, k))
    ensures Survives(c, bindings, id) <==> Grounded(c, bindings, id, 32)
  {
    hide Leaves, Lists, FoundInput, GroundedInput;
    if id in c && c[id].body.derivation.Some? {
      var inputs := c[id].body.derivation.value;
      assert Inputs(c[id]) == inputs;
      forall i | 0 <= i < |inputs| ensures GroundedInput(c, bindings, inputs[i], k) <==> FoundInput(c, bindings, inputs[i], k) {
        InputExact(c, bindings, inputs[i], k);
      }
    }
  }

  lemma InputExact(c: Candidates, bindings: Bindings, input: Input, k: nat)
    ensures GroundedInput(c, bindings, input, k) <==> FoundInput(c, bindings, input, k)
  {
    hide Grounded, Leaves, Lists;
  }

  /** Present at the exact revision, grounded, and declared with exactly its own paths. */
  ghost predicate FoundInput(c: Candidates, bindings: Bindings, input: Input, k: nat) {
    && input.candidate in c && c[input.candidate].revision == input.revision && Grounded(c, bindings, input.candidate, k)
    && Lists(input.paths, Leaves(c, input.candidate))
  }

  /** Why an observation is not grounded: its binding is unknown, no longer current, or on another path. */
  lemma ObservedClasses(bindings: Bindings, v: Candidate)
    ensures ObservedErrors(bindings, v) == {} <==> OnItsBinding(bindings, v)
    ensures ObservedErrors(bindings, v) != {} ==>
            && (v.binding.Some? && v.epoch.Some? && v.generation.Some? && v.originSource.Some? && v.binding.value in bindings ==>
                  && (bindings[v.binding.value].body.state == BindingRetired ==> ObservedErrors(bindings, v) == {StaleSourceEpoch})
                  && (bindings[v.binding.value].body.state == BindingFenced ==> ObservedErrors(bindings, v) == {StaleDriverGeneration})
                  && (bindings[v.binding.value].body.state == BindingCurrent ==> ObservedErrors(bindings, v) == {DanglingReference}))
            && (v.binding.None? || v.binding.value !in bindings ==> ObservedErrors(bindings, v) == {DanglingReference})
  {}

  /** Why a derivation is not: a missing or misdeclared input, a cycle or too great a depth, or too many paths. */
  lemma DerivedClasses(c: Candidates, bindings: Bindings, id: Id)
    requires id in c && c[id].body.quality.assertion == Inferred && c[id].body.derivation.Some?
    ensures var inputs := c[id].body.derivation.value; var errs := LocalErrors(c, bindings, id);
            && errs <= {DanglingReference, DerivationCycle, BoundsExceeded}
            && (OnCycle(Adjacency(c), id) ==> DerivationCycle in errs && BoundsExceeded !in errs)
            && ((exists i :: 0 <= i < |inputs| && !(inputs[i].candidate in c && c[inputs[i].candidate].revision == inputs[i].revision)) ==>
                  DanglingReference in errs)
            && (!OnCycle(Adjacency(c), id) ==> (BoundsExceeded in errs <==> |InputLeaves(c, bindings, inputs)| > 32))
  {
    hide OnCycle, Adjacency, InputLeaves, Survives, TooDeep, Lists, Leaves;
    var inputs := c[id].body.derivation.value;
    if i :| 0 <= i < |inputs| && !(inputs[i].candidate in c && c[inputs[i].candidate].revision == inputs[i].revision) {
      assert Misdeclared(c, bindings, inputs[i]);
    }
  }
}
