/**
 * Memoised resolution of the staged derivation graph, and the closure that
 * drops what is no longer grounded.
 */
module Resolver {
  import opened Errors
  import opened Graphs
  import opened Sorting
  import opened Records
  import opened Lineage
  import opened Cycles

  const MAX_NODES: nat := 4096
  const MAX_STAGED_NODES: nat := 8192

  datatype Resolved = Resolved(paths: seq<PathRef>, depth: nat, error: Option<Err>)

  /** The result says of id what the graph says: its reported error, its lineage and its exact depth. */
  ghost predicate Correct(c: Candidates, bindings: Bindings, id: Id, r: Resolved) {
    && r.error == Least(ErrorsBelow(c, bindings, id))
    && (r.error.None? ==>
          && Lists(r.paths, Leaves(c, id))
          && 0 < r.depth <= MAX_DEPTH && Grounded(c, bindings, id, r.depth) && !Grounded(c, bindings, id, r.depth - 1))
  }

  lemma CorrectSurvives(c: Candidates, bindings: Bindings, id: Id, r: Resolved)
    requires ObservedAreLeaves(c) && id in c && Correct(c, bindings, id, r)
    ensures r.error.None? <==> Survives(c, bindings, id)
  {
    SurvivesIffClean(c, bindings, id);
  }

  // ---------------------------------------------------------------- one derived candidate

  /** Errors one input contributes. */
  ghost function InputErrors(c: Candidates, bindings: Bindings, input: Input): set<Err> {
    (if Misdeclared(c, bindings, input) then {DanglingReference} else {})
    + (if Exact(c, input) then ErrorsBelow(c, bindings, input.candidate) else {})
  }

  ghost function InputsErrors(c: Candidates, bindings: Bindings, inputs: seq<Input>): set<Err> {
    set i, e | 0 <= i < |inputs| && e in InputErrors(c, bindings, inputs[i]) :: e
  }

  /** The value the code compares against the running failure for one resolved input. */
  function Contribution(input: Input, r: Resolved): Option<Err> {
    if r.error.Some? then r.error
    else if r.paths != input.paths then Some(DanglingReference)
    else None
  }

  lemma ContributionExact(c: Candidates, bindings: Bindings, input: Input, r: Resolved)
    requires ObservedAreLeaves(c) && Exact(c, input) && Correct(c, bindings, input.candidate, r)
    ensures Contribution(input, r) == Least(InputErrors(c, bindings, input))
    ensures r.error.None? <==> SurvivingInput(c, bindings, input)
  {
    hide Grounded, ErrorsBelow, Leaves, Lists;
    CorrectSurvives(c, bindings, input.candidate, r);
    if r.error.None? {
      if Lists(input.paths, Leaves(c, input.candidate)) {
        ListsUnique(input.paths, r.paths, Leaves(c, input.candidate));
      }
      LeastSingleton(DanglingReference);
      assert InputErrors(c, bindings, input) == if r.paths != input.paths then {DanglingReference} else {};
    } else {
      assert InputErrors(c, bindings, input) == ErrorsBelow(c, bindings, input.candidate);
    }
  }

  /** Errors below an acyclic derived candidate are those of its inputs plus its own limits. */
  lemma NodeErrors(c: Candidates, bindings: Bindings, id: Id)
    requires id in c && !IsObserved(c[id]) && c[id].body.derivation.Some? && !OnCycle(Adjacency(c), id)
    ensures var inputs := Inputs(c[id]);
            ErrorsBelow(c, bindings, id) ==
            InputsErrors(c, bindings, inputs)
            + (if exists i :: 0 <= i < |inputs| && TooDeep(c, bindings, inputs[i]) then {DerivationCycle} else {})
            + (if |InputLeaves(c, bindings, inputs)| > MAX_PATHS then {BoundsExceeded} else {})
  {
    hide ErrorsBelow, Survives, OnCycle, Edge, InputLeaves, TooDeep, Misdeclared, InputsErrors, Adjacency;
    var inputs := Inputs(c[id]);
    forall e
      ensures e in ErrorsBelow(c, bindings, id) <==>
              e in LocalErrors(c, bindings, id) || e in InputsErrors(c, bindings, inputs)
    {
      NodeError(c, bindings, id, e);
    }
    if i :| 0 <= i < |inputs| && Misdeclared(c, bindings, inputs[i]) {
      MisdeclaredListed(c, bindings, inputs, i);
    }
  }

  lemma MisdeclaredListed(c: Candidates, bindings: Bindings, inputs: seq<Input>, i: nat)
    requires i < |inputs| && Misdeclared(c, bindings, inputs[i])
    ensures DanglingReference in InputsErrors(c, bindings, inputs)
  {
    hide ErrorsBelow, Survives, Misdeclared;
    assert DanglingReference in InputErrors(c, bindings, inputs[i]);
  }

  lemma NodeError(c: Candidates, bindings: Bindings, id: Id, e: Err)
    requires id in c && !IsObserved(c[id]) && c[id].body.derivation.Some?
    ensures e in ErrorsBelow(c, bindings, id) <==> e in LocalErrors(c, bindings, id) || e in InputsErrors(c, bindings, Inputs(c[id]))
  {
    hide ErrorsBelow, Survives, OnCycle, Edge, InputLeaves, TooDeep, Misdeclared;
    var inputs := Inputs(c[id]);
    ErrorsUnfold(c, bindings, id, e);
    if w :| Edge(Adjacency(c), id, w) && e in ErrorsBelow(c, bindings, w) {
      EdgeIsInput(c, id, w);
      var i :| 0 <= i < |inputs| && Exact(c, inputs[i]) && inputs[i].candidate == w;
      assert e in InputErrors(c, bindings, inputs[i]);
    }
    if i :| 0 <= i < |inputs| && e in InputErrors(c, bindings, inputs[i]) {
      EdgeIsInput(c, id, inputs[i].candidate);
    }
  }

  /** Running state of the loop over the inputs of one derived candidate. */
  ghost predicate Gathered(c: Candidates, bindings: Bindings, inputs: seq<Input>,
                           failure: Option<Err>, paths: seq<PathRef>, depth: nat) {
    && failure == Least(InputsErrors(c, bindings, inputs))
    && (forall p :: p in paths <==> p in InputLeaves(c, bindings, inputs))
    && 0 < depth <= MAX_DEPTH + 1
    && (forall k :: 0 <= k < |inputs| && SurvivingInput(c, bindings, inputs[k])
                    ==> Grounded(c, bindings, inputs[k].candidate, depth - 1))
    && (depth > 1 ==> exists k :: 0 <= k < |inputs| && SurvivingInput(c, bindings, inputs[k])
                                  && !Grounded(c, bindings, inputs[k].candidate, depth - 2))
  }

  lemma GatherNone(c: Candidates, bindings: Bindings)
    ensures Gathered(c, bindings, [], None, [], 1)
  {}

  lemma GatherInexact(c: Candidates, bindings: Bindings, inputs: seq<Input>, input: Input,
                      failure: Option<Err>, paths: seq<PathRef>, depth: nat)
    requires Gathered(c, bindings, inputs, failure, paths, depth) && !Exact(c, input)
    ensures Gathered(c, bindings, inputs + [input], Best(failure, Some(DanglingReference)), paths, depth)
  {
    hide Grounded, ErrorsBelow, Leaves, Lists, Survives;
    var more := inputs + [input];
    assert InputsErrors(c, bindings, more) == InputsErrors(c, bindings, inputs) + {DanglingReference} by {
      AppendErrors(c, bindings, inputs, input);
    }
    LeastOfUnion(InputsErrors(c, bindings, inputs), {DanglingReference});
    LeastSingleton(DanglingReference);
    AppendLeaves(c, bindings, inputs, input);
    GatherDepth(c, bindings, inputs, input, depth, depth);
  }

  lemma AppendErrors(c: Candidates, bindings: Bindings, inputs: seq<Input>, input: Input)
    ensures InputsErrors(c, bindings, inputs + [input]) ==
            InputsErrors(c, bindings, inputs) + InputErrors(c, bindings, input)
  {
    hide InputErrors;
    var more := inputs + [input];
    assert forall i :: 0 <= i < |inputs| ==> more[i] == inputs[i];
    assert more[|inputs|] == input;
  }

  lemma AppendLeaves(c: Candidates, bindings: Bindings, inputs: seq<Input>, input: Input)
    ensures InputLeaves(c, bindings, inputs + [input]) ==
            InputLeaves(c, bindings, inputs) + if SurvivingInput(c, bindings, input) then Leaves(c, input.candidate) else {}
  {
    hide SurvivingInput, Leaves;
    var more := inputs + [input];
    assert forall i :: 0 <= i < |inputs| ==> more[i] == inputs[i];
    assert more[|inputs|] == input;
  }

  /** The depth clauses of Gathered for one more input, at the old or a new maximum. */
  lemma GatherDepth(c: Candidates, bindings: Bindings, inputs: seq<Input>, input: Input, depth: nat, deeper: nat)
    requires 0 < depth <= deeper
    requires forall k :: 0 <= k < |inputs| && SurvivingInput(c, bindings, inputs[k])
                         ==> Grounded(c, bindings, inputs[k].candidate, depth - 1)
    requires depth > 1 ==> exists k :: 0 <= k < |inputs| && SurvivingInput(c, bindings, inputs[k])
                                       && !Grounded(c, bindings, inputs[k].candidate, depth - 2)
    requires SurvivingInput(c, bindings, input) ==> Grounded(c, bindings, input.candidate, deeper - 1)
    requires deeper > depth ==> SurvivingInput(c, bindings, input) && !Grounded(c, bindings, input.candidate, deeper - 2)
    ensures var more := inputs + [input];
            && (forall k :: 0 <= k < |more| && SurvivingInput(c, bindings, more[k])
                            ==> Grounded(c, bindings, more[k].candidate, deeper - 1))
            && (deeper > 1 ==> exists k :: 0 <= k < |more| && SurvivingInput(c, bindings, more[k])
                                           && !Grounded(c, bindings, more[k].candidate, deeper - 2))
  {
    hide Grounded, SurvivingInput;
    var more := inputs + [input];
    forall k | 0 <= k < |more| && SurvivingInput(c, bindings, more[k])
      ensures Grounded(c, bindings, more[k].candidate, deeper - 1)
    {
      if k < |inputs| {
        assert more[k] == inputs[k];
        GroundedMore(c, bindings, more[k].candidate, depth - 1, deeper - 1);
      }
    }
    if deeper > depth {
      assert more[|inputs|] == input;
    } else if depth > 1 {
      var k :| 0 <= k < |inputs| && SurvivingInput(c, bindings, inputs[k])
               && !Grounded(c, bindings, inputs[k].candidate, depth - 2);
      assert more[k] == inputs[k];
    }
  }

  /** One more exact input with its correct result. */
  lemma GatherResolved(c: Candidates, bindings: Bindings, inputs: seq<Input>, input: Input, r: Resolved,
                       failure: Option<Err>, paths: seq<PathRef>, depth: nat)
    requires ObservedAreLeaves(c) && Exact(c, input) && Correct(c, bindings, input.candidate, r)
    requires Gathered(c, bindings, inputs, failure, paths, depth)
    ensures var good := r.error.None?;
            Gathered(c, bindings, inputs + [input], Best(failure, Contribution(input, r)),
                     if good then paths + r.paths else paths,
                     if good && r.depth + 1 > depth then r.depth + 1 else depth)
  {
    hide Grounded, ErrorsBelow, Leaves, Survives, InputErrors, InputsErrors, InputLeaves, SurvivingInput, Contribution, Sorted, Distinct;
    var more := inputs + [input];
    ContributionExact(c, bindings, input, r);
    AppendErrors(c, bindings, inputs, input);
    LeastOfUnion(InputsErrors(c, bindings, inputs), InputErrors(c, bindings, input));
    AppendLeaves(c, bindings, inputs, input);
    assert r.error.None? ==> forall p :: p in r.paths <==> p in Leaves(c, input.candidate);
    var deeper := if r.error.None? && r.depth + 1 > depth then r.depth + 1 else depth;
    if r.error.None? {
      GroundedMore(c, bindings, input.candidate, r.depth, deeper - 1);
    }
    GatherDepth(c, bindings, inputs, input, depth, deeper);
  }

  /** What the finished loop means for the candidate itself. */
  lemma NodeCorrect(c: Candidates, bindings: Bindings, id: Id, failure: Option<Err>, paths: seq<PathRef>,
                    depth: nat, listed: seq<PathRef>, r: Resolved)
    requires ObservedAreLeaves(c) && id in c && !IsObserved(c[id]) && c[id].body.derivation.Some?
    requires !OnCycle(Adjacency(c), id)
    requires Gathered(c, bindings, Inputs(c[id]), failure, paths, depth)
    requires Lists(listed, set p | p in paths)
    requires var tooDeep := if depth > MAX_DEPTH then Some(DerivationCycle) else None;
             var tooWide := if |listed| > MAX_PATHS then Some(BoundsExceeded) else None;
             r.error == Best(Best(failure, tooDeep), tooWide)
    requires r.error.None? ==> r.paths == listed && r.depth == depth
    ensures Correct(c, bindings, id, r)
  {
    hide Grounded, ErrorsBelow, Leaves, OnCycle, InputsErrors, Lists, Sorted;
    var inputs := Inputs(c[id]);
    NodeErrors(c, bindings, id);
    assert (exists i :: 0 <= i < |inputs| && TooDeep(c, bindings, inputs[i])) <==> depth > MAX_DEPTH by {
      DepthTest(c, bindings, inputs, failure, paths, depth);
    }
    var leaves := InputLeaves(c, bindings, inputs);
    assert (set p | p in paths) == leaves;
    ListsSize(listed, leaves);
    var deep := if depth > MAX_DEPTH then {DerivationCycle} else {};
    var wide := if |leaves| > MAX_PATHS then {BoundsExceeded} else {};
    var own := InputsErrors(c, bindings, inputs);
    LeastOfUnion(own + deep, wide);
    LeastOfUnion(own, deep);
    LeastSingleton(DerivationCycle);
    LeastSingleton(BoundsExceeded);
    if r.error.None? {
      assert own == {};
      NodeGrounded(c, bindings, id, failure, paths, depth);
    }
  }

  lemma DepthTest(c: Candidates, bindings: Bindings, inputs: seq<Input>, failure: Option<Err>, paths: seq<PathRef>, depth: nat)
    requires Gathered(c, bindings, inputs, failure, paths, depth)
    ensures (exists i :: 0 <= i < |inputs| && TooDeep(c, bindings, inputs[i])) <==> depth > MAX_DEPTH
  {
    hide Grounded, Leaves, InputsErrors, InputLeaves;
    if i :| 0 <= i < |inputs| && TooDeep(c, bindings, inputs[i]) {
      if depth <= MAX_DEPTH {
        GroundedMore(c, bindings, inputs[i].candidate, depth - 1, MAX_DEPTH - 1);
        assert false;
      }
    }
  }

  lemma ListsSize(listed: seq<PathRef>, elements: set<PathRef>)
    requires Lists(listed, elements)
    ensures |listed| == |elements|
  {
    hide PathLeq;
    assert elements == set p | p in listed;
    DistinctSize(listed);
  }

  lemma {:induction false} DistinctSize<T>(s: seq<T>)
    requires Distinct(s)
    ensures |s| == |set x | x in s|
  {
    if s != [] {
      var t := s[1..];
      DistinctSize(t);
      assert (set x | x in s) == (set x | x in t) + {s[0]};
    }
  }

  lemma NodeGrounded(c: Candidates, bindings: Bindings, id: Id, failure: Option<Err>, paths: seq<PathRef>, depth: nat)
    requires ObservedAreLeaves(c) && id in c && !IsObserved(c[id]) && c[id].body.derivation.Some?
    requires Gathered(c, bindings, Inputs(c[id]), failure, paths, depth)
    requires InputsErrors(c, bindings, Inputs(c[id])) == {}
    requires |InputLeaves(c, bindings, Inputs(c[id]))| <= MAX_PATHS
    ensures InputLeaves(c, bindings, Inputs(c[id])) == Leaves(c, id)
    ensures Grounded(c, bindings, id, depth) && !Grounded(c, bindings, id, depth - 1)
  {
    hide ErrorsBelow, Leaves, Lists, Survives, InputLeaves;
    var inputs := Inputs(c[id]);
    forall i | 0 <= i < |inputs| ensures SurvivingInput(c, bindings, inputs[i]) && Lists(inputs[i].paths, Leaves(c, inputs[i].candidate)) {
      assert InputErrors(c, bindings, inputs[i]) == {} by {
        assert forall e :: e in InputErrors(c, bindings, inputs[i]) ==> e in InputsErrors(c, bindings, inputs);
      }
      SurvivesIffClean(c, bindings, inputs[i].candidate);
    }
    InputLeavesComplete(c, bindings, id);
    forall i | 0 <= i < |inputs| ensures GroundedInput(c, bindings, inputs[i], depth - 1) {
    }
    if depth > 1 {
      var k :| 0 <= k < |inputs| && SurvivingInput(c, bindings, inputs[k])
               && !Grounded(c, bindings, inputs[k].candidate, depth - 2);
      assert !GroundedInput(c, bindings, inputs[k], depth - 2);
    }
  }

  /** Results of the candidates that have no inputs to follow. */
  lemma ObservedCorrect(c: Candidates, bindings: Bindings, id: Id)
    requires ObservedAreLeaves(c) && id in c && IsObserved(c[id])
    ensures var v := c[id].body; var errs := ObservedErrors(bindings, v);
            && ErrorsBelow(c, bindings, id) == errs
            && (errs == {} ==> Correct(c, bindings, id, Resolved([PathOf(v)], 1, None)))
  {
    hide ErrorsBelow, Reach, Leaves;
    assert Adjacency(c)[id] == [];
    forall e ensures e in ErrorsBelow(c, bindings, id) <==> e in ObservedErrors(bindings, c[id].body) {
      ErrorsUnfold(c, bindings, id, e);
    }
    if ObservedErrors(bindings, c[id].body) == {} {
      LeavesObserved(c, id);
      assert Lists([PathOf(c[id].body)], Leaves(c, id));
    }
  }

  lemma UnderivedErrors(c: Candidates, bindings: Bindings, id: Id)
    requires id in c && !IsObserved(c[id]) && c[id].body.derivation.None?
    ensures ErrorsBelow(c, bindings, id) == {DanglingReference}
  {
    hide ErrorsBelow, Reach;
    assert Adjacency(c)[id] == [];
    forall e ensures e in ErrorsBelow(c, bindings, id) <==> e == DanglingReference {
      ErrorsUnfold(c, bindings, id, e);
    }
  }

  // ---------------------------------------------------------------- one cycle

  /** Inputs of m that leave the component, or name nothing staged. */
  ghost predicate Crossing(c: Candidates, component: seq<Id>, input: Input) {
    !Exact(c, input) || input.candidate !in component
  }

  ghost function MemberErrors(c: Candidates, bindings: Bindings, component: seq<Id>, inputs: seq<Input>): set<Err> {
    set i, e | 0 <= i < |inputs| && Crossing(c, component, inputs[i]) && e in InputErrors(c, bindings, inputs[i]) :: e
  }

  /** Errors of a whole component: its cycle and everything its members bring in from outside. */
  ghost function CycleErrors(c: Candidates, bindings: Bindings, component: seq<Id>, members: seq<Id>): set<Err>
    requires forall m :: m in members ==> m in c
  {
    {DerivationCycle} + set m, e | m in members && e in MemberErrors(c, bindings, component, Inputs(c[m])) :: e
  }

  ghost predicate IsComponent(c: Candidates, component: seq<Id>, id: Id) {
    && (forall u :: u in component <==> Mutual(Adjacency(c), u, id))
    && (forall u :: u in component ==> u in c && OnCycle(Adjacency(c), u))
  }

  /** A member of a cycle is inferred and has inputs to follow. */
  lemma MemberDerived(c: Candidates, m: Id)
    requires ObservedAreLeaves(c) && m in c && OnCycle(Adjacency(c), m)
    ensures !IsObserved(c[m]) && c[m].body.derivation.Some?
  {
    hide Reach;
    var w :| Edge(Adjacency(c), m, w);
    EdgeIsInput(c, m, w);
  }

  lemma MemberLocal(c: Candidates, bindings: Bindings, component: seq<Id>, id: Id, m: Id, e: Err)
    requires ObservedAreLeaves(c) && IsComponent(c, component, id) && m in component
    requires e in LocalErrors(c, bindings, m)
    ensures e in CycleErrors(c, bindings, component, component)
  {
    hide Reach, OnCycle, ErrorsBelow, Lists, Leaves, Survives, TooDeep, InputLeaves, Mutual;
    MemberDerived(c, m);
    var inputs := Inputs(c[m]);
    if e != DerivationCycle {
      var i :| 0 <= i < |inputs| && Misdeclared(c, bindings, inputs[i]);
      if Exact(c, inputs[i]) && inputs[i].candidate in component {
        CyclicNeverGrounded(c, bindings, inputs[i].candidate, MAX_DEPTH);
        NotSurvives(c, bindings, inputs[i].candidate);
      }
      assert Crossing(c, component, inputs[i]) && e in InputErrors(c, bindings, inputs[i]);
      assert e in MemberErrors(c, bindings, component, inputs);
    }
  }

  lemma NotSurvives(c: Candidates, bindings: Bindings, id: Id)
    requires !Grounded(c, bindings, id, MAX_DEPTH)
    ensures !Survives(c, bindings, id)
  {}

  lemma InComponent(c: Candidates, component: seq<Id>, id: Id, u: Id, v: Id)
    requires IsComponent(c, component, id) && u in component && v in component
    ensures Reach(Adjacency(c), u, v)
  {
    hide Reach;
    ReachTrans(Adjacency(c), u, id, v);
  }

  /** Every member of a component has the same errors below it, and they are the component's. */
  lemma ComponentErrors(c: Candidates, bindings: Bindings, component: seq<Id>, id: Id, m: Id)
    requires ObservedAreLeaves(c) && IsComponent(c, component, id) && m in component
    ensures ErrorsBelow(c, bindings, m) == CycleErrors(c, bindings, component, component)
  {
    hide Reach, LocalErrors, Mutual, OnCycle, Adjacency;
    forall e | e in ErrorsBelow(c, bindings, m) ensures e in CycleErrors(c, bindings, component, component) {
      ErrorBelowMember(c, bindings, component, id, m, e);
    }
    forall e | e in CycleErrors(c, bindings, component, component) ensures e in ErrorsBelow(c, bindings, m) {
      CycleErrorBelow(c, bindings, component, id, m, e);
    }
  }

  lemma ErrorBelowMember(c: Candidates, bindings: Bindings, component: seq<Id>, id: Id, m: Id, e: Err)
    requires ObservedAreLeaves(c) && IsComponent(c, component, id) && m in component
    requires e in ErrorsBelow(c, bindings, m)
    ensures e in CycleErrors(c, bindings, component, component)
  {
    hide Reach, LocalErrors, OnCycle, Mutual, Edge, Misdeclared;
    var g := Adjacency(c);
    AdjacencyClosed(c);
    var v :| v in c && Reach(g, m, v) && e in LocalErrors(c, bindings, v);
    if v in component {
      MemberLocal(c, bindings, component, id, v, e);
    } else {
      var u, w := ExitEdge(g, (set x | x in component), m, v);
      EdgeIsInput(c, u, w);
      var i :| 0 <= i < |Inputs(c[u])| && Exact(c, Inputs(c[u])[i]) && Inputs(c[u])[i].candidate == w;
      assert e in ErrorsBelow(c, bindings, w);
      assert e in InputErrors(c, bindings, Inputs(c[u])[i]);
      assert e in MemberErrors(c, bindings, component, Inputs(c[u]));
    }
  }

  lemma CycleErrorBelow(c: Candidates, bindings: Bindings, component: seq<Id>, id: Id, m: Id, e: Err)
    requires ObservedAreLeaves(c) && IsComponent(c, component, id) && m in component
    requires e in CycleErrors(c, bindings, component, component)
    ensures e in ErrorsBelow(c, bindings, m)
  {
    hide Reach, OnCycle, Mutual, Edge, ErrorsBelow, InputErrors, Crossing, Adjacency, IsComponent;
    if e == DerivationCycle {
      CycleIsError(c, bindings, component, id, m);
    } else {
      ComponentNodes(c, component, id);
      var u :| u in component && e in MemberErrors(c, bindings, component, Inputs(c[u]));
      var i :| 0 <= i < |Inputs(c[u])| && Crossing(c, component, Inputs(c[u])[i]) && e in InputErrors(c, bindings, Inputs(c[u])[i]);
      CrossingErrorBelow(c, bindings, component, id, u, i, e);
      InComponent(c, component, id, m, u);
      ErrorsDescend(c, bindings, m, u, e);
    }
  }

  lemma CycleIsError(c: Candidates, bindings: Bindings, component: seq<Id>, id: Id, m: Id)
    requires ObservedAreLeaves(c) && IsComponent(c, component, id) && m in component
    ensures DerivationCycle in ErrorsBelow(c, bindings, m)
  {
    hide Reach, OnCycle, Mutual, Edge, ErrorsBelow, Misdeclared, TooDeep, InputLeaves;
    MemberDerived(c, m);
    ErrorsUnfold(c, bindings, m, DerivationCycle);
  }

  /** An error of an input that leaves the component is an error below its member. */
  lemma CrossingErrorBelow(c: Candidates, bindings: Bindings, component: seq<Id>, id: Id, u: Id, i: nat, e: Err)
    requires ObservedAreLeaves(c) && IsComponent(c, component, id) && u in component && u in c && i < |Inputs(c[u])|
    requires Crossing(c, component, Inputs(c[u])[i]) && e in InputErrors(c, bindings, Inputs(c[u])[i])
    ensures e in ErrorsBelow(c, bindings, u)
  {
    hide Reach, OnCycle, Mutual, Edge, ErrorsBelow, Misdeclared, TooDeep, InputLeaves;
    MemberDerived(c, u);
    EdgeIsInput(c, u, Inputs(c[u])[i].candidate);
    ErrorsUnfold(c, bindings, u, e);
  }

  lemma ErrorsDescend(c: Candidates, bindings: Bindings, m: Id, u: Id, e: Err)
    requires Reach(Adjacency(c), m, u) && e in ErrorsBelow(c, bindings, u)
    ensures e in ErrorsBelow(c, bindings, m)
  {
    hide Reach, LocalErrors;
    var v :| v in c && Reach(Adjacency(c), u, v) && e in LocalErrors(c, bindings, v);
    ReachTrans(Adjacency(c), m, u, v);
  }

  // ---------------------------------------------------------------- the traversal

  /** Sort the gathered paths and drop repetitions. */
  method Collect(paths: seq<PathRef>) returns (listed: seq<PathRef>)
    ensures Lists(listed, set p | p in paths)
  {
    hide PathLeq, Sorted, Distinct, Sort;
    var sorted := Sort(PathLeq, paths);
    PathOrder();
    SortSorted(PathLeq, paths);
    SameElements(sorted, paths);
    listed := [];
    NothingListed();
    for i := 0 to |sorted|
      invariant Sorted(PathLeq, listed) && Distinct(listed)
      invariant forall p :: p in listed <==> p in sorted[..i]
      invariant i > 0 ==> listed != [] && listed[|listed| - 1] == sorted[i - 1]
    {
      assert sorted[..i + 1] == sorted[..i] + [sorted[i]];
      if listed == [] || listed[|listed| - 1] != sorted[i] {
        PrefixBelow(sorted, i);
        Appendable(listed, sorted[..i], sorted[i]);
        listed := listed + [sorted[i]];
      }
    }
    assert sorted[..|sorted|] == sorted;
  }

  /** A new largest element extends a strictly sorted list. */
  lemma NothingListed()
    ensures Sorted(PathLeq, []) && Distinct<PathRef>([])
  {}

  lemma PrefixBelow(sorted: seq<PathRef>, i: nat)
    requires Sorted(PathLeq, sorted) && i < |sorted|
    ensures forall p :: p in sorted[..i] ==> PathLeq(p, sorted[i])
  {
    hide PathLeq;
  }

  lemma Appendable(listed: seq<PathRef>, seen: seq<PathRef>, next: PathRef)
    requires Sorted(PathLeq, listed) && Distinct(listed) && forall p :: p in listed <==> p in seen
    requires forall p :: p in seen ==> PathLeq(p, next)
    requires listed != [] ==> listed[|listed| - 1] != next
    ensures Sorted(PathLeq, listed + [next]) && Distinct(listed + [next])
  {
    hide PathLeq;
    PathOrder();
    forall j | 0 <= j < |listed| ensures PathLeq(listed[j], next) && listed[j] != next {
      assert listed[j] in seen;
      var last := listed[|listed| - 1];
      assert last in seen;
      assert PathLeq(last, next) && (j < |listed| - 1 ==> PathLeq(listed[j], last));
    }
  }

  ghost predicate LeadsTo(g: Graph, u: Id, v: Id) {
    exists x :: Edge(g, u, x) && Reach(g, x, v)
  }

  /** Every candidate in progress is acyclic and has led to this request. */
  ghost predicate Asked(c: Candidates, working: set<Id>, id: Id) {
    forall u :: u in working ==> u in c && !OnCycle(Adjacency(c), u) && LeadsTo(Adjacency(c), u, id)
  }

  lemma LeadsOn(g: Graph, u: Id, v: Id, w: Id)
    requires LeadsTo(g, u, v) && Edge(g, v, w)
    ensures LeadsTo(g, u, w)
  {
    hide Reach;
    var x :| Edge(g, u, x) && Reach(g, x, v);
    ReachStep(g, v, w);
    ReachTrans(g, x, v, w);
  }

  lemma LeadsToChild(g: Graph, v: Id, w: Id)
    requires Edge(g, v, w)
    ensures LeadsTo(g, v, w)
  {
    ReachSelf(g, w);
  }

  lemma LeadsFromComponent(c: Candidates, component: seq<Id>, id: Id, u: Id, m: Id)
    requires IsComponent(c, component, id) && m in component && LeadsTo(Adjacency(c), u, id)
    ensures LeadsTo(Adjacency(c), u, m)
  {
    hide Reach;
    var g := Adjacency(c);
    var x :| Edge(g, u, x) && Reach(g, x, id);
    ReachTrans(g, x, id, m);
  }

  lemma EntryIsComponent(c: Candidates, cycles: map<Id, seq<Id>>, id: Id)
    requires CyclesExact(Adjacency(c), cycles, c.Keys) && id in cycles
    ensures IsComponent(c, cycles[id], id) && id in cycles[id] && id in c
  {
    hide Reach;
    var g := Adjacency(c);
    AdjacencyClosed(c);
    ReachSelf(g, id);
    forall u | u in cycles[id] ensures u in c && OnCycle(g, u) {
      MutualFlip(g, u, id);
      ReachStays(g, id, u);
      CycleShared(g, id, u);
    }
  }

  /** The head of the list identifies the component. */
  lemma SameHead(c: Candidates, cycles: map<Id, seq<Id>>, id: Id, w: Id)
    requires CyclesExact(Adjacency(c), cycles, c.Keys) && id in cycles && w in c
    ensures cycles[id] != [] && (w in cycles ==> cycles[w] != [])
    ensures w in cycles[id] <==> w in cycles && cycles[w][0] == cycles[id][0]
  {
    hide Reach, OnCycle;
    var g := Adjacency(c);
    EntryIsComponent(c, cycles, id);
    if w in cycles {
      EntryIsComponent(c, cycles, w);
      if cycles[w][0] == cycles[id][0] {
        var h := cycles[w][0];
        assert Mutual(g, h, w) && Mutual(g, h, id);
        MutualFlip(g, h, w);
        MutualTrans(g, w, h, id);
      }
    }
    if w in cycles[id] {
      assert Mutual(g, w, id);
      MutualFlip(g, w, id);
      forall u ensures u in cycles[w] <==> u in cycles[id] {
        if Mutual(g, u, w) { MutualTrans(g, u, w, id); }
        if Mutual(g, u, id) { MutualTrans(g, u, id, w); }
      }
      SortedUnique(IdLeq, cycles[w], cycles[id]);
    }
  }

  lemma CycleErrorsNone(c: Candidates, bindings: Bindings, component: seq<Id>)
    ensures CycleErrors(c, bindings, component, []) == {DerivationCycle}
  {}

  lemma CycleErrorsMore(c: Candidates, bindings: Bindings, component: seq<Id>, members: seq<Id>, m: Id)
    requires m in c && forall x :: x in members ==> x in c
    ensures CycleErrors(c, bindings, component, members + [m]) ==
            CycleErrors(c, bindings, component, members) + MemberErrors(c, bindings, component, Inputs(c[m]))
  {
    hide MemberErrors;
  }

  lemma MemberErrorsMore(c: Candidates, bindings: Bindings, component: seq<Id>, inputs: seq<Input>, input: Input)
    ensures MemberErrors(c, bindings, component, inputs + [input]) ==
            MemberErrors(c, bindings, component, inputs)
            + if Crossing(c, component, input) then InputErrors(c, bindings, input) else {}
  {
    hide InputErrors, Crossing;
    var more := inputs + [input];
    assert forall i :: 0 <= i < |inputs| ==> more[i] == inputs[i];
    assert more[|inputs|] == input;
  }

  lemma NotInTable(g: Graph, cycles: map<Id, seq<Id>>, nodes: set<Id>, id: Id)
    requires CyclesExact(g, cycles, nodes) && id in nodes && id !in cycles
    ensures !OnCycle(g, id)
  {}

  lemma FailedCorrect(c: Candidates, bindings: Bindings, id: Id, r: Resolved)
    requires r.error.Some? && r.error == Least(ErrorsBelow(c, bindings, id))
    ensures Correct(c, bindings, id, r)
  {}

  lemma ComponentNodes(c: Candidates, component: seq<Id>, id: Id)
    requires IsComponent(c, component, id)
    ensures forall m :: m in component ==> m in c
  {}

  /** An input that leaves the component does not lead back to it. */
  lemma CrossingShrinks(c: Candidates, component: seq<Id>, id: Id, m: Id, w: Id)
    requires IsComponent(c, component, id) && id in c && m in component && Edge(Adjacency(c), m, w) && w !in component
    ensures w in c && ReachSet(Adjacency(c), w) < ReachSet(Adjacency(c), id)
  {
    hide Reach, OnCycle;
    var g := Adjacency(c);
    AdjacencyClosed(c);
    ReachStep(g, m, w);
    assert Mutual(g, m, id);
    ReachTrans(g, id, m, w);
    ReachShrinks(g, id, w);
  }

  class CandidateResolver {
    const candidates: Candidates
    const bindings: Bindings
    const cycles: map<Id, seq<Id>>
    var working: set<Id>
    var results: map<Id, Resolved>

    ghost predicate Valid()
      reads this
    {
      && ObservedAreLeaves(candidates)
      && CyclesExact(Adjacency(candidates), cycles, candidates.Keys)
      && forall id :: id in results ==> id in candidates && Correct(candidates, bindings, id, results[id])
    }

    constructor (c: Candidates, b: Bindings, table: map<Id, seq<Id>>)
      requires ObservedAreLeaves(c) && CyclesExact(Adjacency(c), table, c.Keys)
      ensures candidates == c && bindings == b && cycles == table && Valid() && working == {} && results == map[]
    {
      candidates, bindings, cycles, working, results := c, b, table, {}, map[];
    }

    /**
     * Resolve one candidate.  A candidate in progress is never asked for again,
     * so the original's in-progress branch has no counterpart here.
     */
    method Resolve(id: Id) returns (r: Resolved)
      requires Valid() && id in candidates && Asked(candidates, working, id)
      modifies this
      ensures Valid() && working == old(working)
      ensures id in results && r == results[id]
      decreases ReachSet(Adjacency(candidates), id), 2
    {
      hide Reach, Edge, Correct, CyclesExact, ObservedErrors, Adjacency, IsObserved;
      if id in results {
        return results[id];
      }
      ghost var g := Adjacency(candidates);
      assert id !in working;
      if id in cycles {
        EntryIsComponent(candidates, cycles, id);
        r := ResolveCycle(id);
        return;
      }
      assert !OnCycle(g, id) by { NotInTable(g, cycles, candidates.Keys, id); }
      if IsObserved(candidates[id]) {
        r := ObservedResult(id);
      } else if candidates[id].body.derivation.None? {
        UnderivedErrors(candidates, bindings, id);
        r := Resolved([], 1, Some(DanglingReference));
        FailedCorrect(candidates, bindings, id, r) by { LeastSingleton(DanglingReference); }
      } else {
        working := working + {id};
        r := ResolveDerived(id);
        working := working - {id};
      }
      results := results[id := r];
    }

    method ObservedResult(id: Id) returns (r: Resolved)
      requires Valid() && id in candidates && IsObserved(candidates[id])
      ensures Correct(candidates, bindings, id, r)
    {
      hide CyclesExact, ErrorsBelow, Leaves, Grounded;
      var v := candidates[id].body;
      ObservedCorrect(candidates, bindings, id);
      if !HasPath(v) || v.binding.value !in bindings {
        LeastSingleton(DanglingReference);
        return Resolved([], 1, Some(DanglingReference));
      }
      var binding := bindings[v.binding.value].body;
      if binding.state != BindingCurrent {
        LeastSingleton(LifecycleError(binding));
        return Resolved([], 1, Some(LifecycleError(binding)));
      }
      if binding.path != PathOf(v).path {
        LeastSingleton(DanglingReference);
        return Resolved([], 1, Some(DanglingReference));
      }
      r := Resolved([PathOf(v)], 1, None);
    }

    method ResolveDerived(id: Id) returns (r: Resolved)
      requires Valid() && id in candidates && id in working
      requires Asked(candidates, working - {id}, id)
      requires !IsObserved(candidates[id]) && candidates[id].body.derivation.Some? && !OnCycle(Adjacency(candidates), id)
      modifies this
      ensures Valid() && working == old(working) && Correct(candidates, bindings, id, r)
      decreases ReachSet(Adjacency(candidates), id), 1
    {
      hide Reach, Edge, Correct, CyclesExact, OnCycle, LeadsTo, Adjacency, Gathered, IsObserved, Lists;
      var inputs := Inputs(candidates[id]);
      var failure: Option<Err>, paths: seq<PathRef>, depth: nat := None, [], 1;
      GatherNone(candidates, bindings);
      for i := 0 to |inputs|
        invariant Valid() && working == old(working)
        invariant Gathered(candidates, bindings, inputs[..i], failure, paths, depth)
      {
        var input := inputs[i];
        assert inputs[..i + 1] == inputs[..i] + [input];
        if !Exact(candidates, input) {
          GatherInexact(candidates, bindings, inputs[..i], input, failure, paths, depth);
          failure := Best(failure, Some(DanglingReference));
        } else {
          AskInput(id, i);
          var resolved := Resolve(input.candidate);
          GatherResolved(candidates, bindings, inputs[..i], input, resolved, failure, paths, depth);
          failure := Best(failure, Contribution(input, resolved));
          if resolved.error.None? {
            if resolved.depth + 1 > depth {
              depth := resolved.depth + 1;
            }
            paths := paths + resolved.paths;
          }
        }
      }
      assert inputs[..|inputs|] == inputs;
      var listed := Collect(paths);
      ghost var gathered := failure;
      if depth > MAX_DEPTH {
        failure := Best(failure, Some(DerivationCycle));
      }
      if |listed| > MAX_PATHS {
        failure := Best(failure, Some(BoundsExceeded));
      }
      r := if failure.Some? then Resolved([], depth, failure) else Resolved(listed, depth, None);
      NodeCorrect(candidates, bindings, id, gathered, paths, depth, listed, r);
    }

    /** An exact input of an acyclic candidate may be asked for, and lies strictly below it. */
    lemma AskInput(id: Id, i: nat)
      requires Valid() && id in candidates && id in working && !OnCycle(Adjacency(candidates), id)
      requires Asked(candidates, working - {id}, id)
      requires i < |Inputs(candidates[id])| && Exact(candidates, Inputs(candidates[id])[i])
      ensures var w := Inputs(candidates[id])[i].candidate;
              && Asked(candidates, working, w) && w in candidates
              && ReachSet(Adjacency(candidates), w) < ReachSet(Adjacency(candidates), id)
    {
      hide Reach, CyclesExact, Correct, LeadsTo;
      var g := Adjacency(candidates);
      var w := Inputs(candidates[id])[i].candidate;
      AdjacencyClosed(candidates);
      EdgeIsInput(candidates, id, w);
      LeadsToChild(g, id, w);
      forall u | u in working ensures LeadsTo(g, u, w) {
        if u != id { LeadsOn(g, u, id, w); }
      }
      ReachStep(g, id, w);
      ReachShrinks(g, id, w);
    }

    method ResolveCycle(id: Id) returns (r: Resolved)
      requires Valid() && id in candidates && id in cycles && Asked(candidates, working, id)
      modifies this
      ensures Valid() && working == old(working)
      ensures id in results && r == results[id]
      decreases ReachSet(Adjacency(candidates), id), 1
    {
      hide Reach, Edge, Correct, CyclesExact, OnCycle, LeadsTo, Adjacency, CycleErrors, Asked, IsComponent, ErrorsBelow;
      var component := cycles[id];
      EntryIsComponent(candidates, cycles, id);
      assert forall m :: m in component ==> m in candidates by { ComponentNodes(candidates, component, id); }
      var failure: Option<Err> := Some(DerivationCycle);
      CycleErrorsNone(candidates, bindings, component);
      LeastSingleton(DerivationCycle);
      for j := 0 to |component|
        invariant Valid() && working == old(working) && Asked(candidates, working, id)
        invariant failure.Some? && failure == Least(CycleErrors(candidates, bindings, component, component[..j]))
      {
        ghost var seen := CycleErrors(candidates, bindings, component, component[..j]);
        assert component[..j + 1] == component[..j] + [component[j]];
        CycleErrorsMore(candidates, bindings, component, component[..j], component[j]);
        failure := ResolveMember(id, component[j], failure, seen);
      }
      assert component[..|component|] == component;
      r := Resolved([], 0, failure);
      forall m | m in component ensures Correct(candidates, bindings, m, r) {
        ComponentErrors(candidates, bindings, component, id, m);
        FailedCorrect(candidates, bindings, m, r);
      }
      results := results + map m | m in component :: r;
    }

    /** The inputs of one member of the component. */
    method ResolveMember(id: Id, m: Id, before: Option<Err>, ghost seen: set<Err>) returns (failure: Option<Err>)
      requires Valid() && id in candidates && id in cycles && Asked(candidates, working, id) && m in cycles[id] && m in candidates
      requires IsComponent(candidates, cycles[id], id) && before == Least(seen)
      modifies this
      ensures Valid() && working == old(working) && Asked(candidates, working, id)
      ensures before.Some? ==> failure.Some?
      ensures failure == Least(seen + MemberErrors(candidates, bindings, cycles[id], Inputs(candidates[m])))
      decreases ReachSet(Adjacency(candidates), id), 0
    {
      hide Reach, Edge, Correct, CyclesExact, OnCycle, LeadsTo, Adjacency, Asked, IsComponent, ErrorsBelow, InputErrors, MemberErrors;
      var component := cycles[id];
      var inputs := Inputs(candidates[m]);
      failure := before;
      assert MemberErrors(candidates, bindings, component, []) == {} by { MemberErrorsNone(candidates, bindings, component); }
      assert seen + {} == seen;
      assert inputs[..0] == [];
      for i := 0 to |inputs|
        invariant Valid() && working == old(working) && Asked(candidates, working, id)
        invariant (before.Some? ==> failure.Some?) && failure == Least(seen + MemberErrors(candidates, bindings, component, inputs[..i]))
      {
        var input := inputs[i];
        ghost var done := MemberErrors(candidates, bindings, component, inputs[..i]);
        assert inputs[..i + 1] == inputs[..i] + [input];
        MemberErrorsMore(candidates, bindings, component, inputs[..i], input);
        ghost var added := if Crossing(candidates, component, input) then InputErrors(candidates, bindings, input) else {};
        assert seen + (done + added) == (seen + done) + added;
        LeastOfUnion(seen + done, added);
        if !Exact(candidates, input) {
          InexactErrors(candidates, bindings, input);
          failure := Best(failure, Some(DanglingReference));
        } else {
          var w := input.candidate;
          SameHead(candidates, cycles, id, w);
          if !(w in cycles && cycles[w][0] == component[0]) {
            AskCrossing(id, m, i);
            var resolved := Resolve(w);
            ContributionExact(candidates, bindings, input, resolved);
            failure := Best(failure, Contribution(input, resolved));
          }
        }
      }
      assert inputs[..|inputs|] == inputs;
    }

    lemma AskCrossing(id: Id, m: Id, i: nat)
      requires Valid() && id in candidates && id in cycles && Asked(candidates, working, id) && m in cycles[id] && m in candidates
      requires IsComponent(candidates, cycles[id], id)
      requires i < |Inputs(candidates[m])| && Exact(candidates, Inputs(candidates[m])[i])
      requires Inputs(candidates[m])[i].candidate !in cycles[id]
      ensures var w := Inputs(candidates[m])[i].candidate;
              && Asked(candidates, working, w) && w in candidates
              && ReachSet(Adjacency(candidates), w) < ReachSet(Adjacency(candidates), id)
    {
      hide Reach, CyclesExact, Correct, LeadsTo, IsComponent;
      var g := Adjacency(candidates);
      var w := Inputs(candidates[m])[i].candidate;
      EdgeIsInput(candidates, m, w);
      forall u | u in working ensures LeadsTo(g, u, w) {
        LeadsFromComponent(candidates, cycles[id], id, u, m);
        LeadsOn(g, u, m, w);
      }
      CrossingShrinks(candidates, cycles[id], id, m, w);
    }
  }

  lemma MemberErrorsNone(c: Candidates, bindings: Bindings, component: seq<Id>)
    ensures MemberErrors(c, bindings, component, []) == {}
  {}

  lemma InexactErrors(c: Candidates, bindings: Bindings, input: Input)
    requires !Exact(c, input)
    ensures InputErrors(c, bindings, input) == {DanglingReference}
    ensures Least(InputErrors(c, bindings, input)) == Some(DanglingReference)
  {
    LeastSingleton(DanglingReference);
  }
}
