/** Closing a staged candidate map: keep what is grounded, refuse an upsert that is not. */
module Closure {
  import opened Errors
  import opened Graphs
  import opened Sorting
  import opened Records
  import opened Lineage
  import opened Cycles
  import opened Resolver

  ghost function Kept(c: Candidates, upserted: set<Id>, bindings: Bindings): Candidates {
    map id | id in c && (id in upserted || Survives(c, bindings, id)) :: c[id]
  }

  /** Errors below the upserted candidates among the listed ones. */
  ghost function UpsertErrors(c: Candidates, upserted: set<Id>, bindings: Bindings, ids: set<Id>): set<Err> {
    set id, e | id in ids && id in upserted && e in ErrorsBelow(c, bindings, id) :: e
  }

  ghost function ClosureErrors(c: Candidates, upserted: set<Id>, bindings: Bindings): set<Err> {
    UpsertErrors(c, upserted, bindings, c.Keys)
    + (if |Kept(c, upserted, bindings)| > MAX_NODES then {BoundsExceeded} else {})
  }

  method SortedKeys(c: Candidates) returns (ids: seq<Id>)
    ensures forall v :: v in ids <==> v in c
    ensures Distinct(ids) && Sorted(IdLeq, ids)
  {
    var listed: seq<Id> := [];
    var todo := c.Keys;
    while todo != {}
      invariant todo <= c.Keys && Distinct(listed)
      invariant forall v :: v in listed <==> v in c && v !in todo
      decreases |todo|
    {
      var id :| id in todo;
      listed := listed + [id];
      todo := todo - {id};
    }
    ids := Sort(IdLeq, listed);
    SortSorted(IdLeq, listed);
    SortDistinct(IdLeq, listed);
    SameElements(ids, listed);
  }

  /** Resolve every staged candidate in turn; note what to drop and the worst upsert error. */
  method ResolveAll(c: Candidates, upserted: set<Id>, bindings: Bindings, ids: seq<Id>, cycles: map<Id, seq<Id>>)
    returns (remove: set<Id>, error: Option<Err>)
    requires ObservedAreLeaves(c) && CyclesExact(Adjacency(c), cycles, c.Keys)
    requires forall v :: v in ids <==> v in c
    ensures error == Least(UpsertErrors(c, upserted, bindings, c.Keys))
    ensures forall v :: v in remove <==> v in c && v !in upserted && !Survives(c, bindings, v)
  {
    hide Survives, UpsertErrors, Correct, CyclesExact, Adjacency;
    var resolver := new CandidateResolver(c, bindings, cycles);
    remove, error := {}, None;
    ghost var seen: set<Id> := {};
    NoUpserts(c, upserted, bindings);
    for i := 0 to |ids|
      invariant fresh(resolver) && resolver.candidates == c && resolver.bindings == bindings
      invariant resolver.Valid() && resolver.working == {}
      invariant seen <= c.Keys && (forall k :: 0 <= k < i ==> ids[k] in seen)
      invariant error == Least(UpsertErrors(c, upserted, bindings, seen))
      invariant forall v :: v in remove <==> v in seen && v !in upserted && !Survives(c, bindings, v)
    {
      var id := ids[i];
      MoreUpserts(c, upserted, bindings, seen, id);
      seen := seen + {id};
      var r := resolver.Resolve(id);
      CorrectSurvives(c, bindings, id, r);
      CorrectError(c, bindings, id, r);
      if r.error.Some? {
        if id in upserted {
          error := Best(error, r.error);
        } else {
          remove := remove + {id};
        }
      }
    }
    assert seen == c.Keys;
  }

  lemma NoUpserts(c: Candidates, upserted: set<Id>, bindings: Bindings)
    ensures UpsertErrors(c, upserted, bindings, {}) == {}
  {}

  lemma DropIsKept(c: Candidates, upserted: set<Id>, bindings: Bindings, remove: set<Id>)
    requires forall v :: v in remove <==> v in c && v !in upserted && !Survives(c, bindings, v)
    ensures c - remove == Kept(c, upserted, bindings)
  {
    hide Survives;
  }

  method CloseCandidateGraph(c: Candidates, upserted: set<Id>, bindings: Bindings)
    returns (kept: Candidates, error: Option<Err>)
    requires ObservedAreLeaves(c)
    ensures |c| > MAX_STAGED_NODES ==> kept == c && error == Some(BoundsExceeded)
    ensures |c| <= MAX_STAGED_NODES ==>
              kept == Kept(c, upserted, bindings) && error == Least(ClosureErrors(c, upserted, bindings))
  {
    hide Survives, CyclesExact, Adjacency, UpsertErrors, Kept, Closed, Sorted, Distinct;
    if |c| > MAX_STAGED_NODES {
      return c, Some(BoundsExceeded);
    }
    var ids := SortedKeys(c);
    AdjacencyClosed(c);
    var cycles := FindCycles(Adjacency(c), ids);
    var remove;
    remove, error := ResolveAll(c, upserted, bindings, ids, cycles);
    kept := c - remove;
    DropIsKept(c, upserted, bindings, remove);
    ghost var excess: set<Err> := if |kept| > MAX_NODES then {BoundsExceeded} else {};
    LeastOfUnion(UpsertErrors(c, upserted, bindings, c.Keys), excess);
    if |kept| > MAX_NODES {
      LeastSingleton(BoundsExceeded);
      error := Best(error, Some(BoundsExceeded));
    }
  }

  lemma CorrectError(c: Candidates, bindings: Bindings, id: Id, r: Resolved)
    requires Correct(c, bindings, id, r)
    ensures r.error == Least(ErrorsBelow(c, bindings, id))
  {}

  lemma MoreUpserts(c: Candidates, upserted: set<Id>, bindings: Bindings, ids: set<Id>, id: Id)
    ensures Least(UpsertErrors(c, upserted, bindings, ids + {id})) ==
            Best(Least(UpsertErrors(c, upserted, bindings, ids)),
                 if id in upserted then Least(ErrorsBelow(c, bindings, id)) else None)
  {
    hide ErrorsBelow;
    var added := if id in upserted then ErrorsBelow(c, bindings, id) else {};
    assert UpsertErrors(c, upserted, bindings, ids + {id}) == UpsertErrors(c, upserted, bindings, ids) + added;
    LeastOfUnion(UpsertErrors(c, upserted, bindings, ids), added);
  }

  /**
   * A successful closure keeps exactly the grounded candidates, loses no
   * upsert, and stays within the node limit.
   */
  lemma ClosureExact(c: Candidates, upserted: set<Id>, bindings: Bindings)
    requires ObservedAreLeaves(c)
    ensures ClosureErrors(c, upserted, bindings) == {} <==>
            && (forall id :: id in c && id in upserted ==> Survives(c, bindings, id))
            && |Survivors(c, bindings)| <= MAX_NODES
    ensures ClosureErrors(c, upserted, bindings) == {} ==> Kept(c, upserted, bindings) == Survivors(c, bindings)
  {
    hide Survives, ErrorsBelow;
    forall id | id in c ensures Survives(c, bindings, id) <==> ErrorsBelow(c, bindings, id) == {} {
      SurvivesIffClean(c, bindings, id);
    }
    var upserts := UpsertErrors(c, upserted, bindings, c.Keys);
    if upserts == {} {
      forall id | id in c && id in upserted ensures Survives(c, bindings, id) {
        assert forall e :: e in ErrorsBelow(c, bindings, id) ==> e in upserts;
      }
    }
    if forall id :: id in c && id in upserted ==> Survives(c, bindings, id) {
      assert Kept(c, upserted, bindings) == Survivors(c, bindings);
    }
  }

  /** The strict closure of a successful result accepts it unchanged. */
  lemma StrictClosureAccepts(c: Candidates, bindings: Bindings)
    requires ObservedAreLeaves(c) && |Survivors(c, bindings)| <= MAX_NODES
    ensures var kept := Survivors(c, bindings);
            ClosureErrors(kept, kept.Keys, bindings) == {} && Kept(kept, kept.Keys, bindings) == kept
  {
    hide Survives, ErrorsBelow;
    var kept := Survivors(c, bindings);
    SurvivorsSurvive(c, bindings);
    ClosureExact(kept, kept.Keys, bindings);
  }
}
