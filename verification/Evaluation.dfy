/** Evaluation of a snapshot at an explicit time: freshness ages transitively through derivations. */
module Evaluation {
  import opened Errors
  import opened Graphs
  import opened Sorting
  import opened Freshness
  import opened Records
  import opened Lineage
  import opened Cycles
  import opened Closure
  import opened Snapshots
  import opened Publication
  import opened Validity
  import opened Lifecycle
  import opened PublicationKernels

  datatype Entry = Entry(candidate: Id, revision: nat, freshness: Freshness, availability: Availability)
  datatype AgedRecord = AgedRecord(observation: Retained, freshness: Freshness)
  datatype View = View(revisions: Revisions, context: Context, facts: seq<Entry>, retained: map<RetainedKey, AgedRecord>)
  datatype Result<T> = Success(value: T) | Failure(error: Err)

  function EffectiveAvailability(stored: Availability, f: Freshness): Availability {
    if stored == Withdrawn || f == Fresh then stored
    else if f == Expired then Unavailable
    else if stored == Available then Degraded
    else stored
  }

  /** From usable to gone. */
  function AvailabilityRank(a: Availability): nat {
    match a
    case Available => 0
    case Degraded => 1
    case Unavailable => 2
    case Withdrawn => 3
  }

  /** Age only ever costs availability, and only a fresh fact keeps full availability. */
  lemma AvailabilityWorsens(stored: Availability, f: Freshness, g: Freshness)
    ensures AvailabilityRank(stored) <= AvailabilityRank(EffectiveAvailability(stored, f))
    ensures Order(f) <= Order(g) ==> AvailabilityRank(EffectiveAvailability(stored, f)) <= AvailabilityRank(EffectiveAvailability(stored, g))
    ensures EffectiveAvailability(stored, f) == Available <==> stored == Available && f == Fresh
    ensures AvailabilityRank(EffectiveAvailability(stored, f)) ==
            (if AvailabilityRank(stored) < AgeFloor(f) then AgeFloor(f) else AvailabilityRank(stored))
  {}

  /** The best availability a fact of that age can have. */
  function AgeFloor(f: Freshness): nat {
    match f
    case Fresh => 0
    case Stale => 1
    case Unknown => 1
    case Expired => 2
  }

  /** Age of one fact by its own receipt. */
  function Own(c: Candidates, context: Context, id: Id): Timed
    requires id in c
  {
    EvaluateFreshness(c[id].body.times, c[id].body.policy, context)
  }

  /** f is the oldest class among id and everything it was derived from, all of which could be aged. */
  ghost predicate IsOldest(c: Candidates, context: Context, id: Id, f: Freshness) {
    && (exists v :: v in c && Reach(Adjacency(c), id, v) && Own(c, context, v) == Ok(f))
    && (forall v :: v in c && Reach(Adjacency(c), id, v) ==> Own(c, context, v).Ok? && Order(Own(c, context, v).freshness) <= Order(f))
  }

  ghost predicate Unaged(c: Candidates, context: Context, id: Id) {
    exists v :: v in c && Reach(Adjacency(c), id, v) && Own(c, context, v).Failed?
  }

  lemma TimeErrors(t: Times, p: Policy, c: Context)
    ensures EvaluateFreshness(t, p, c).Failed? ==> EvaluateFreshness(t, p, c).error == InvalidTime
  {}

  lemma OldestUnique(c: Candidates, context: Context, id: Id, f: Freshness, g: Freshness)
    requires IsOldest(c, context, id, f) && IsOldest(c, context, id, g)
    ensures f == g
  {
    hide Reach, Adjacency, Own;
  }

  // ---------------------------------------------------------------- one fact from its inputs

  /** State of the loop over the first i inputs: the oldest class of the fact itself and of those inputs. */
  ghost predicate OldestSoFar(c: Candidates, context: Context, id: Id, i: nat, f: Freshness)
    requires id in c && i <= |Inputs(c[id])|
  {
    && Own(c, context, id).Ok? && Order(Own(c, context, id).freshness) <= Order(f)
    && (forall k :: 0 <= k < i ==> exists g :: IsOldest(c, context, Inputs(c[id])[k].candidate, g) && Order(g) <= Order(f))
    && (Own(c, context, id) == Ok(f) || exists k :: 0 <= k < i && IsOldest(c, context, Inputs(c[id])[k].candidate, f))
  }

  lemma OldestStart(c: Candidates, context: Context, id: Id)
    requires id in c && Own(c, context, id).Ok?
    ensures OldestSoFar(c, context, id, 0, Own(c, context, id).freshness)
  {}

  lemma OldestNext(c: Candidates, context: Context, id: Id, i: nat, f: Freshness, g: Freshness)
    requires id in c && i < |Inputs(c[id])| && OldestSoFar(c, context, id, i, f)
    requires IsOldest(c, context, Inputs(c[id])[i].candidate, g)
    ensures OldestSoFar(c, context, id, i + 1, Combine(f, g))
  {
    hide IsOldest, Own;
    var h := Combine(f, g);
    forall k | 0 <= k < i + 1 ensures exists x :: IsOldest(c, context, Inputs(c[id])[k].candidate, x) && Order(x) <= Order(h) {
      if k < i {
        var x :| IsOldest(c, context, Inputs(c[id])[k].candidate, x) && Order(x) <= Order(f);
      }
    }
  }

  /** With every input exact, the loop ends with the oldest class over everything reachable. */
  lemma OldestDone(c: Candidates, context: Context, id: Id, f: Freshness)
    requires id in c && (forall i :: 0 <= i < |Inputs(c[id])| ==> Exact(c, Inputs(c[id])[i]))
    requires OldestSoFar(c, context, id, |Inputs(c[id])|, f)
    ensures IsOldest(c, context, id, f)
  {
    hide Reach, Own, Adjacency, Edge, Order;
    var g := Adjacency(c);
    AdjacencyClosed(c);
    ReachSelf(g, id);
    forall v | v in c && Reach(g, id, v) ensures Own(c, context, v).Ok? && Order(Own(c, context, v).freshness) <= Order(f) {
      ReachUnfold(g, id, v);
      if v != id {
        var w :| Edge(g, id, w) && Reach(g, w, v);
        EdgeIsInput(c, id, w);
        var i :| 0 <= i < |Inputs(c[id])| && Exact(c, Inputs(c[id])[i]) && Inputs(c[id])[i].candidate == w;
        var x :| IsOldest(c, context, Inputs(c[id])[i].candidate, x) && Order(x) <= Order(f);
      }
    }
    if Own(c, context, id) != Ok(f) {
      var k :| 0 <= k < |Inputs(c[id])| && IsOldest(c, context, Inputs(c[id])[k].candidate, f);
      var w := Inputs(c[id])[k].candidate;
      var v :| v in c && Reach(g, w, v) && Own(c, context, v) == Ok(f);
      EdgeIsInput(c, id, w);
      ReachUnfold(g, id, v);
    }
  }

  lemma UnagedInput(c: Candidates, context: Context, id: Id, i: nat)
    requires id in c && i < |Inputs(c[id])| && Exact(c, Inputs(c[id])[i]) && Unaged(c, context, Inputs(c[id])[i].candidate)
    ensures Unaged(c, context, id)
  {
    hide Reach, Own, Adjacency, Edge;
    var g := Adjacency(c);
    var w := Inputs(c[id])[i].candidate;
    AdjacencyClosed(c);
    EdgeIsInput(c, id, w);
    var v :| v in c && Reach(g, w, v) && Own(c, context, v).Failed?;
    ReachUnfold(g, id, v);
  }

  lemma UnagedSelf(c: Candidates, context: Context, id: Id)
    requires id in c && Own(c, context, id).Failed?
    ensures Unaged(c, context, id)
  {
    hide Own;
    ReachSelf(Adjacency(c), id);
  }

  /** On a closed snapshot every input is exact and lies strictly below, so no cycle or dangling input is ever met. */
  lemma InputsBelow(c: Candidates, bindings: Bindings, id: Id, i: nat)
    requires ObservedAreLeaves(c) && id in c && Survives(c, bindings, id) && i < |Inputs(c[id])|
    ensures Exact(c, Inputs(c[id])[i])
    ensures ReachSet(Adjacency(c), Inputs(c[id])[i].candidate) < ReachSet(Adjacency(c), id)
  {
    hide Reach, Leaves, Lists, Adjacency, OnCycle, DerivedErrors, Survives;
    var w := Inputs(c[id])[i].candidate;
    assert GroundedInput(c, bindings, Inputs(c[id])[i], MAX_DEPTH - 1) by { SurvivorInput(c, bindings, id, i); }
    EdgeIsInput(c, id, w);
    SurvivorClean(c, bindings, id);
    CleanChild(c, bindings, id, w);
  }

  lemma SurvivorInput(c: Candidates, bindings: Bindings, id: Id, i: nat)
    requires ObservedAreLeaves(c) && id in c && Survives(c, bindings, id) && i < |Inputs(c[id])|
    ensures GroundedInput(c, bindings, Inputs(c[id])[i], MAX_DEPTH - 1)
  {
    hide Leaves, Lists;
  }

  // ---------------------------------------------------------------- the traversal

  class Evaluator {
    const facts: Candidates
    const context: Context
    ghost const bindings: Bindings
    var memo: map<Id, Entry>

    ghost predicate Valid()
      reads this
    {
      && ObservedAreLeaves(facts) && (forall id :: id in facts ==> Survives(facts, bindings, id))
      && forall id :: id in memo ==> id in facts && Right(facts, context, id, memo[id])
    }

    constructor (c: Candidates, at: Context, ghost b: Bindings)
      requires ObservedAreLeaves(c) && forall id :: id in c ==> Survives(c, b, id)
      ensures facts == c && context == at && bindings == b && Valid()
    {
      hide Survives;
      facts, context, bindings, memo := c, at, b, map[];
    }

    /**
     * Evaluate one fact.  The original also guards against a missing input and
     * against re-entering a fact; InputsBelow shows neither can happen here.
     */
    method Evaluate(id: Id) returns (r: Result<Entry>)
      requires Valid() && id in facts
      modifies this
      ensures Valid()
      ensures r.Success? ==> Right(facts, context, id, r.value)
      ensures r.Failure? ==> r.error == InvalidTime && Unaged(facts, context, id)
      decreases ReachSet(Adjacency(facts), id)
    {
      hide Survives, IsOldest, Unaged, OldestSoFar, ReachSet, Adjacency, EvaluateFreshness, ObservedAreLeaves;
      if id in memo {
        return Success(memo[id]);
      }
      var candidate := facts[id].body;
      var own := EvaluateFreshness(candidate.times, candidate.policy, context);
      TimeErrors(candidate.times, candidate.policy, context);
      if own.Failed? {
        UnagedSelf(facts, context, id);
        return Failure(own.error);
      }
      var freshness := own.freshness;
      OldestStart(facts, context, id);
      var inputs := Inputs(facts[id]);
      for i := 0 to |inputs|
        invariant Valid() && OldestSoFar(facts, context, id, i, freshness)
      {
        InputsBelow(facts, bindings, id, i);
        var input := Evaluate(inputs[i].candidate);
        if input.Failure? {
          UnagedInput(facts, context, id, i);
          return input;
        }
        OldestNext(facts, context, id, i, freshness, input.value.freshness);
        freshness := Combine(freshness, input.value.freshness);
      }
      forall i | 0 <= i < |inputs| ensures Exact(facts, inputs[i]) { InputsBelow(facts, bindings, id, i); }
      OldestDone(facts, context, id, freshness);
      var entry := Entry(id, facts[id].revision, freshness, EffectiveAvailability(candidate.quality.availability, freshness));
      memo := memo[id := entry];
      r := Success(entry);
    }
  }

  /** The entry reports the fact's oldest transitive class and the availability that follows from it. */
  ghost predicate Right(c: Candidates, context: Context, id: Id, e: Entry)
    requires id in c
  {
    && e.candidate == id && e.revision == c[id].revision && IsOldest(c, context, id, e.freshness)
    && e.availability == EffectiveAvailability(c[id].body.quality.availability, e.freshness)
  }

  // ---------------------------------------------------------------- the whole view

  /** True when the later point is certainly before the earlier one, or too uncertain to say. */
  predicate WallRefused(then_: TimePoint, now: TimePoint) {
    then_.clock == now.clock
    && (TWO64 <= then_.uncertainty + now.uncertainty || now.unix - then_.unix + then_.uncertainty + now.uncertainty < 0)
  }

  predicate ContextRefused(s: Snapshot, c: Context) {
    if s.mono.epoch == c.mono.epoch then c.mono.ns < s.mono.ns else WallRefused(s.at, c.at)
  }

  /** With representable uncertainty, a context is refused exactly when no pair of true times lets it follow the snapshot. */
  lemma WallRefusedExact(then_: TimePoint, now: TimePoint)
    requires then_.clock == now.clock && then_.uncertainty + now.uncertainty < TWO64
    ensures WallRefused(then_, now) <==> !exists x, y :: Within(then_, x) && Within(now, y) && x <= y
  {
    if !WallRefused(then_, now) {
      assert Within(then_, then_.unix - then_.uncertainty) && Within(now, now.unix + now.uncertainty);
    }
  }

  /** A context is refused as earlier: by the readings of one epoch, or by walls that leave no room or too much. */
  lemma ContextRefusedExact(s: Snapshot, c: Context)
    ensures ContextRefused(s, c) <==>
            || (s.mono.epoch == c.mono.epoch && c.mono.ns < s.mono.ns)
            || (s.mono.epoch != c.mono.epoch && s.at.clock == c.at.clock
                && (TWO64 <= s.at.uncertainty + c.at.uncertainty || forall x, y :: Within(s.at, x) && Within(c.at, y) ==> y < x))
  {
    if s.at.clock == c.at.clock && s.at.uncertainty + c.at.uncertainty < TWO64 {
      WallRefusedExact(s.at, c.at);
    }
  }

  function RetainedView(s: Snapshot, c: Context): map<RetainedKey, AgedRecord> {
    map k | k in s.retained && AgeOf(s.retained[k], c).Ok? && AgeOf(s.retained[k], c).freshness != Expired ::
      AgedRecord(s.retained[k], AgeOf(s.retained[k], c).freshness)
  }

  ghost predicate RetainedUnaged(s: Snapshot, c: Context) {
    exists k :: k in s.retained && AgeOf(s.retained[k], c).Failed?
  }

  ghost predicate FactUnaged(s: Snapshot, c: Context) { exists id :: id in s.facts && Own(s.facts, c, id).Failed? }

  /** One entry for every fact, in order of candidate id, each with its own right value. */
  ghost predicate Complete(s: Snapshot, c: Context, entries: seq<Entry>) {
    && (forall i, j :: 0 <= i < j < |entries| ==> entries[i].candidate < entries[j].candidate)
    && (forall id :: id in s.facts ==> exists i :: 0 <= i < |entries| && entries[i].candidate == id)
    && (forall i :: 0 <= i < |entries| ==> entries[i].candidate in s.facts && Right(s.facts, c, entries[i].candidate, entries[i]))
  }

  /** Keep what has not expired; any record that cannot be aged refuses the view. */
  method AgeRetained(s: Snapshot, c: Context) returns (r: Result<map<RetainedKey, AgedRecord>>)
    ensures r == if RetainedUnaged(s, c) then Failure(InvalidTime) else Success(RetainedView(s, c))
  {
    hide EvaluateFreshness;
    var aged: map<RetainedKey, AgedRecord> := map[];
    var todo := s.retained.Keys;
    while todo != {}
      invariant todo <= s.retained.Keys
      invariant forall k :: k in s.retained && k !in todo ==> AgeOf(s.retained[k], c).Ok?
      invariant forall k :: k in aged <==> k in RetainedView(s, c) && k !in todo
      invariant forall k :: k in aged ==> aged[k] == RetainedView(s, c)[k]
      decreases |todo|
    {
      var k :| k in todo;
      var record := s.retained[k];
      var age := EvaluateFreshness(record.record.body.times, record.record.body.policy, c);
      TimeErrors(record.record.body.times, record.record.body.policy, c);
      if age.Failed? {
        return Failure(age.error);
      }
      if age.freshness != Expired {
        aged := aged[k := AgedRecord(record, age.freshness)];
      }
      todo := todo - {k};
    }
    assert aged == RetainedView(s, c);
    r := Success(aged);
  }

  /** Evaluate every fact in order. */
  method AgeFacts(s: Snapshot, c: Context) returns (r: Result<seq<Entry>>)
    requires ObservedAreLeaves(s.facts) && forall id :: id in s.facts ==> Survives(s.facts, s.bindings, id)
    ensures r.Success? ==> Complete(s, c, r.value)
    ensures r.Failure? <==> FactUnaged(s, c)
    ensures r.Failure? ==> r.error == InvalidTime
  {
    hide Survives, ObservedAreLeaves, Right, Own, Unaged;
    var ids := SortedKeys(s.facts);
    var evaluator := new Evaluator(s.facts, c, s.bindings);
    var entries: seq<Entry> := [];
    for i := 0 to |ids|
      invariant fresh(evaluator) && evaluator.Valid() && |entries| == i
      invariant evaluator.facts == s.facts && evaluator.context == c
      invariant forall k :: 0 <= k < i ==> entries[k].candidate == ids[k] && Right(s.facts, c, ids[k], entries[k])
    {
      var entry := evaluator.Evaluate(ids[i]);
      if entry.Failure? {
        UnagedFact(s, c, ids[i]);
        return Failure(entry.error);
      }
      RightNames(s.facts, c, ids[i], entry.value);
      entries := entries + [entry.value];
    }
    forall id | id in s.facts ensures Own(s.facts, c, id).Ok? && exists i :: 0 <= i < |entries| && entries[i].candidate == id {
      assert id in ids;
      var i :| 0 <= i < |ids| && ids[i] == id;
      assert entries[i].candidate == id;
      RightAged(s.facts, c, id, entries[i]);
    }
    r := Success(entries);
  }

  lemma RightNames(c: Candidates, context: Context, id: Id, e: Entry)
    requires id in c && Right(c, context, id, e)
    ensures e.candidate == id
  {}

  lemma RightAged(c: Candidates, context: Context, id: Id, e: Entry)
    requires id in c && Right(c, context, id, e)
    ensures Own(c, context, id).Ok?
  {
    hide Own, Reach;
    ReachSelf(Adjacency(c), id);
  }

  lemma UnagedFact(s: Snapshot, c: Context, id: Id)
    requires Unaged(s.facts, c, id)
    ensures FactUnaged(s, c)
  {
    hide Own, Reach;
  }

  /** What the evaluation of a snapshot at a context answers. */
  ghost predicate Answers(s: Snapshot, c: Context, r: Result<View>) {
    var errs := ValidateErrors(s) + When(!ValidContext(c), InvalidTime);
    if errs != {} then r == Failure(Least(errs).value)
    else if ContextRefused(s, c) || FactUnaged(s, c) || RetainedUnaged(s, c) then r == Failure(InvalidTime)
    else r.Success? && r.value.revisions == s.revisions && r.value.context == c && Complete(s, c, r.value.facts)
         && r.value.retained == RetainedView(s, c)
  }

  method EvaluateSnapshot(s: Snapshot, c: Context) returns (r: Result<View>)
    ensures Answers(s, c, r)
  {
    hide ValidateErrors, Complete, RetainedView, RetainedUnaged, FactUnaged, ValidContext, ContextRefused, Survives, ObservedAreLeaves;
    var failure := Validate(s);
    LeastOfUnion(ValidateErrors(s), When(!ValidContext(c), InvalidTime));
    LeastSingleton(InvalidTime);
    failure := Best(failure, if ValidContext(c) then None else Some(InvalidTime));
    if failure.Some? {
      return Failure(failure.value);
    }
    if ContextRefused(s, c) {
      return Failure(InvalidTime);
    }
    ValidGrounded(s);
    var facts := AgeFacts(s, c);
    if facts.Failure? {
      return Failure(facts.error);
    }
    var retained := AgeRetained(s, c);
    if retained.Failure? {
      return Failure(retained.error);
    }
    r := Success(View(s.revisions, c, facts.value, retained.value));
  }

  lemma ValidGrounded(s: Snapshot)
    requires ValidateErrors(s) == {}
    ensures ObservedAreLeaves(s.facts) && forall id :: id in s.facts ==> Survives(s.facts, s.bindings, id)
  {
    hide RevisionsShape, KeyShapes, ContentErrors, LifecycleErrors, GraphFaults, Survives, ObservedAreLeaves;
    assert ContentErrors(s) == {} && GraphFaults(s) == {};
    PublishedLeaves(s);
    forall id | id in s.facts ensures Survives(s.facts, s.bindings, id) {
      PublishedGrounded(s, id);
    }
  }

  /** When every receipt was taken in the clock epoch of both contexts, a fact's transitive class is never fresher later. */
  lemma LaterNeverFresher(s: Snapshot, c: Context, d: Context, id: Id, f: Freshness, g: Freshness)
    requires id in s.facts && IsOldest(s.facts, c, id, f) && IsOldest(s.facts, d, id, g)
    requires c.mono.epoch == d.mono.epoch && c.mono.ns <= d.mono.ns && ValidContext(d)
    requires forall v :: v in s.facts ==> s.facts[v].body.times.receipt.epoch == c.mono.epoch
    ensures Order(f) <= Order(g)
  {
    hide Reach, Adjacency, EvaluateFreshness, Order;
    var v :| v in s.facts && Reach(Adjacency(s.facts), id, v) && Own(s.facts, c, v) == Ok(f);
    SameEpochMonotone(s.facts[v].body.times, s.facts[v].body.policy, c, d);
  }

  /** And the later view exists whenever the earlier one does, with the same facts and no retained record more. */
  lemma LaterViewExists(s: Snapshot, c: Context, d: Context, early: Result<View>, late: Result<View>)
    requires Answers(s, c, early) && Answers(s, d, late) && early.Success?
    requires c.mono.epoch == d.mono.epoch == s.mono.epoch && c.mono.ns <= d.mono.ns && ValidContext(d)
    requires forall v :: v in s.facts ==> s.facts[v].body.times.receipt.epoch == c.mono.epoch
    requires forall k :: k in s.retained ==> s.retained[k].record.body.times.receipt.epoch == c.mono.epoch
    ensures late.Success?
    ensures |late.value.facts| == |early.value.facts| && late.value.retained.Keys <= early.value.retained.Keys
    ensures forall i :: 0 <= i < |early.value.facts| ==>
              && late.value.facts[i].candidate == early.value.facts[i].candidate
              && Order(early.value.facts[i].freshness) <= Order(late.value.facts[i].freshness)
              && AvailabilityRank(early.value.facts[i].availability) <= AvailabilityRank(late.value.facts[i].availability)
  {
    hide ValidateErrors, EvaluateFreshness, Complete, ValidContext;
    forall id | id in s.facts ensures Own(s.facts, d, id).Ok? {
      SameEpochMonotone(s.facts[id].body.times, s.facts[id].body.policy, c, d);
    }
    forall k | k in s.retained ensures AgeOf(s.retained[k], d).Ok?
      && Order(AgeOf(s.retained[k], c).freshness) <= Order(AgeOf(s.retained[k], d).freshness) {
      SameEpochMonotone(s.retained[k].record.body.times, s.retained[k].record.body.policy, c, d);
    }
    ListedAlike(s, c, d, early.value.facts, late.value.facts);
    forall i | 0 <= i < |early.value.facts|
      ensures Order(early.value.facts[i].freshness) <= Order(late.value.facts[i].freshness)
      ensures AvailabilityRank(early.value.facts[i].availability) <= AvailabilityRank(late.value.facts[i].availability)
    {
      ListedOldest(s, c, early.value.facts, i);
      ListedOldest(s, d, late.value.facts, i);
      LaterNeverFresher(s, c, d, early.value.facts[i].candidate, early.value.facts[i].freshness, late.value.facts[i].freshness);
      AvailabilityWorsens(s.facts[early.value.facts[i].candidate].body.quality.availability, early.value.facts[i].freshness, late.value.facts[i].freshness);
    }
  }

  lemma ListedOldest(s: Snapshot, c: Context, entries: seq<Entry>, i: nat)
    requires Complete(s, c, entries) && i < |entries|
    ensures entries[i].candidate in s.facts && IsOldest(s.facts, c, entries[i].candidate, entries[i].freshness)
    ensures entries[i].availability == EffectiveAvailability(s.facts[entries[i].candidate].body.quality.availability, entries[i].freshness)
  {
    hide IsOldest;
  }

  function Names(entries: seq<Entry>): seq<Id> { seq(|entries|, i requires 0 <= i < |entries| => entries[i].candidate) }

  lemma ListedAlike(s: Snapshot, c: Context, d: Context, a: seq<Entry>, b: seq<Entry>)
    requires Complete(s, c, a) && Complete(s, d, b)
    ensures |a| == |b| && forall i :: 0 <= i < |a| ==> a[i].candidate == b[i].candidate
  {
    hide Right;
    forall x ensures x in Names(a) <==> x in Names(b) {
      NamesAll(s, c, a, x);
      NamesAll(s, d, b, x);
    }
    SortedUnique(IdLeq, Names(a), Names(b));
    forall i | 0 <= i < |a| ensures a[i].candidate == b[i].candidate {
      assert Names(a)[i] == Names(b)[i];
    }
  }

  lemma NamesAll(s: Snapshot, c: Context, a: seq<Entry>, x: Id)
    requires Complete(s, c, a)
    ensures x in Names(a) <==> x in s.facts
  {
    hide Right;
    if x in s.facts {
      var i :| 0 <= i < |a| && a[i].candidate == x;
      assert Names(a)[i] == x;
    }
  }
}
