/** The publication kernel as an object: loops, staging and the atomic commit. */
module PublicationKernels {
  import opened Errors
  import opened Graphs
  import opened Freshness
  import opened Records
  import opened Lineage
  import opened Resolver
  import opened Closure
  import opened Snapshots
  import opened Transition
  import opened Publication
  import opened Envelopes
  import opened Staging
  import opened Validity
  import opened Batches
  import opened Lifecycle
  import opened Kernel

  /** Normalize every object's revision against the old state, in any order. */
  method NormalizeObjects<K(==), T(==)>(before: map<K, Versioned<T>>, after: map<K, Versioned<T>>)
    returns (r: map<K, Versioned<T>>)
    ensures r == Normalize(before, after)
  {
    r := after;
    var todo := after.Keys;
    while todo != {}
      invariant todo <= after.Keys == r.Keys
      invariant forall k :: k in todo ==> r[k] == after[k]
      invariant forall k :: k in after && k !in todo ==> r[k] == Normalize(before, after)[k]
      decreases |todo|
    {
      var k :| k in todo;
      todo := todo - {k};
      if k in before {
        var revision := before[k].revision;
        if before[k].body != r[k].body {
          revision := revision + 1;
        }
        r := r[k := Versioned(r[k].body, revision)];
      }
    }
  }

  lemma NewlyRetainedAt(s: Snapshot, b: Batch, id: Id)
    requires id in s.facts
    ensures var key := Identity(id, s.facts[id]);
            && (key in NewlyRetained(s, b) <==> Displaced(s, b, id))
            && (Displaced(s, b, id) ==> NewlyRetained(s, b)[key] == Retained(s.facts[id], RemovalOf(s, b, id)))
            && forall k :: k in NewlyRetained(s, b) && k.candidate == id ==> k == key
  {
    hide Displaced;
  }

  lemma NewlyRetainedNames(s: Snapshot, b: Batch, k: RetainedKey)
    ensures k in NewlyRetained(s, b) ==> k.candidate in s.facts
  {
    hide Displaced;
  }

  /** The additions whose candidate has been visited. */
  ghost function Visited(added: RetainedRecords, todo: set<Id>): RetainedRecords {
    map k | k in added && k.candidate !in todo :: added[k]
  }

  lemma VisitMore(kept: RetainedRecords, added: RetainedRecords, todo: set<Id>, id: Id, key: RetainedKey)
    requires id in todo && key.candidate == id && forall k :: k in added && k.candidate == id ==> k == key
    ensures kept + Visited(added, todo - {id}) ==
            if key in added then (kept + Visited(added, todo))[key := added[key]] else kept + Visited(added, todo)
  {
    var before, after := Visited(added, todo), Visited(added, todo - {id});
    assert after == if key in added then before[key := added[key]] else before;
  }

  /** Add every displaced observation to the retained records, in any order. */
  method RetainDisplaced(s: Snapshot, b: Batch, kept: RetainedRecords) returns (r: RetainedRecords)
    requires kept == KeptRetained(s, b)
    ensures r == StagedRetained(s, b)
  {
    hide Displaced, NewlyRetained, Visited, KeptRetained;
    r := kept;
    var todo := s.facts.Keys;
    ghost var added := NewlyRetained(s, b);
    VisitNone(s, b, kept);
    while todo != {}
      invariant todo <= s.facts.Keys && r == kept + Visited(added, todo)
      decreases |todo|
    {
      var id :| id in todo;
      NewlyRetainedAt(s, b, id);
      VisitMore(kept, added, todo, id, Identity(id, s.facts[id]));
      if Displaced(s, b, id) {
        r := r[Identity(id, s.facts[id]) := Retained(s.facts[id], RemovalOf(s, b, id))];
      }
      todo := todo - {id};
    }
    VisitAll(added);
  }

  lemma VisitNone(s: Snapshot, b: Batch, kept: RetainedRecords)
    ensures kept + Visited(NewlyRetained(s, b), s.facts.Keys) == kept
  {
    hide NewlyRetained;
    forall k ensures k !in Visited(NewlyRetained(s, b), s.facts.Keys) { NewlyRetainedNames(s, b, k); }
  }

  lemma VisitAll(added: RetainedRecords)
    ensures Visited(added, {}) == added
  {}

  /** Drop what has expired; report whether some record's age could not be determined. */
  method ExpireRetained(staged: RetainedRecords, c: Context) returns (r: RetainedRecords, failed: bool)
    ensures r == map k | k in staged && AgeOf(staged[k], c) != Ok(Expired) :: staged[k]
    ensures failed <==> exists k :: k in staged && AgeOf(staged[k], c).Failed?
  {
    hide AgeOf;
    r, failed := staged, false;
    var todo := staged.Keys;
    while todo != {}
      invariant todo <= staged.Keys && r.Keys <= staged.Keys
      invariant forall k :: k in r ==> r[k] == staged[k]
      invariant forall k :: k in staged ==> (k in r <==> k in todo || AgeOf(staged[k], c) != Ok(Expired))
      invariant failed <==> exists k :: k in staged && k !in todo && AgeOf(staged[k], c).Failed?
      decreases |todo|
    {
      var k :| k in todo;
      todo := todo - {k};
      var age := AgeOf(staged[k], c);
      if age.Failed? {
        failed := true;
      } else if age == Ok(Expired) {
        r := r - {k};
      }
    }
  }

  /** Fence, then retire, binding by binding. */
  method Move(s: Snapshot, b: Batch) returns (o: Objects, errs: set<Err>)
    ensures o == Moved(s, b) && errs == MoveErrors(s, b)
  {
    hide Transitioned, TransitionErrors, NewFences, StagedSources;
    var fenced, bad := TransitionAll(Before(s), BindingFenced, FenceHits(s, b));
    var worse;
    o, worse := TransitionAll(fenced, BindingRetired, RetireHits(s, b));
    errs := When(bad || worse, BoundsExceeded);
    OnlyBounds(Before(s), FenceHits(s, b));
    OnlyBounds(AfterFences(s, b), RetireHits(s, b));
  }

  lemma OnlyBounds(o: Objects, hit: Affected)
    ensures TransitionErrors(o, hit) == {} || TransitionErrors(o, hit) == {BoundsExceeded}
  {}

  /** All diagnostics that need no graph traversal. */
  ghost function PlainErrors(h: Hooks, s: Snapshot, b: Batch): set<Err> {
    SourceErrors(s, b) + GenerationErrors(s, b) + MoveErrors(s, b) + BindingErrors(s, b) + LinkErrors(s, b)
    + FactErrors(h, s, b) + ServiceErrors(h, s, b) + CapabilityErrors(h, s, b)
  }

  lemma StepErrorsSplit(h: Hooks, s: Snapshot, b: Batch, m: Mono, first: bool, late: set<Err>)
    requires late == RetentionErrors(s, b, m) + ContentErrors(Staged(s, b, m, first)) + RevisionsShape(Staged(s, b, m, first).revisions)
    ensures Least(StepErrors(h, s, b, m, first)) == Best(Best(Least(PlainErrors(h, s, b)), Least(GraphErrors(s, b))), Least(late))
  {
    hide SourceErrors, GenerationErrors, MoveErrors, BindingErrors, LinkErrors, FactErrors, ServiceErrors, CapabilityErrors,
         GraphErrors, RetentionErrors, ContentErrors, RevisionsShape, Staged;
    var plain, graph := PlainErrors(h, s, b), GraphErrors(s, b);
    LeastOfUnion(plain + graph, late);
    LeastOfUnion(plain, graph);
    assert StepErrors(h, s, b, m, first) == (plain + graph) + late;
  }

  /** Services before capabilities, upserts before withdrawals. */
  method StageDependents(h: Hooks, s: Snapshot, b: Batch, o: Objects, bindings: Bindings)
    returns (services: Services, capabilities: Capabilities, errs: set<Err>)
    requires o == Moved(s, b) && bindings == NextBindings(s, b)
    ensures services == NextServices(s, b) && capabilities == NextCapabilities(s, b)
    ensures errs == ServiceErrors(h, s, b) + CapabilityErrors(h, s, b)
  {
    hide Moved, NextBindings, StagedServices, NextServices, StagedCapabilities, NextCapabilities, ServiceErrorsOf, ServiceWithdrawalErrorsOf,
         CapabilityErrorsOf, CapabilityWithdrawalErrorsOf;
    var staged, a := StageServices(h, s, b, o, bindings);
    var c;
    services, c := WithdrawServices(s, b, staged);
    var upserted, d := StageCapabilities(h, s, b, o, bindings, services);
    var e;
    capabilities, e := WithdrawCapabilities(s, b, upserted);
    assert a + c == ServiceErrors(h, s, b);
    assert d + e == CapabilityErrors(h, s, b);
    errs := (a + c) + (d + e);
  }

  /** Fact upserts, then withdrawals from the staged facts and from the retained records. */
  method StageAllFacts(h: Hooks, s: Snapshot, b: Batch, bindings: Bindings) returns (facts: Candidates, kept: RetainedRecords, errs: set<Err>)
    requires bindings == NextBindings(s, b)
    ensures facts == StagedFacts(s, b) && kept == KeptRetained(s, b) && errs == FactErrors(h, s, b)
  {
    hide NextBindings, StagedFacts, KeptRetained, FactErrorsOf, FactWithdrawalErrorsOf, Overfull;
    var all, upsertErrors, full := StageFacts(h, s, b);
    var withdrawalErrors;
    facts, kept, withdrawalErrors := WithdrawFacts(s, b, bindings, all);
    errs := upsertErrors + When(full, BoundsExceeded) + withdrawalErrors;
    assert errs == FactErrors(h, s, b);
  }

  /** Objects the graph traversal does not touch, as one batch leaves them. */
  datatype StagedObjects = StagedObjects(bindings: Bindings, links: Links, services: Services, capabilities: Capabilities)

  /** Transitions, upserts, withdrawals, and every check that needs no graph traversal. */
  method StageObjects(h: Hooks, s: Snapshot, b: Batch) returns (o: StagedObjects, facts: Candidates, kept: RetainedRecords, failure: Option<Err>)
    ensures o == StagedObjects(NextBindings(s, b), NextLinks(s, b), NextServices(s, b), NextCapabilities(s, b))
    ensures facts == StagedFacts(s, b) && kept == KeptRetained(s, b) && failure == Least(PlainErrors(h, s, b))
  {
    hide SourceErrors, GenerationErrors, MoveErrors, BindingErrors, LinkErrors, FactErrors, ServiceErrors, CapabilityErrors, Moved,
         NextBindings, NextLinks, NextServices, NextCapabilities, StagedFacts, KeptRetained;
    var sourceErrors := DiagnoseSources(s, b);
    var generationErrors := DiagnoseGenerations(s, b);
    var moved, moveErrors := Move(s, b);
    var bindings, bindingErrors := StageBindings(s, b, moved);
    var links, linkErrors := StageLinks(s, b, moved, bindings);
    var factErrors;
    facts, kept, factErrors := StageAllFacts(h, s, b, bindings);
    var services, capabilities, dependentErrors := StageDependents(h, s, b, moved, bindings);
    o := StagedObjects(bindings, links, services, capabilities);
    var errs := sourceErrors + generationErrors + moveErrors + bindingErrors + linkErrors + factErrors + dependentErrors;
    assert errs == PlainErrors(h, s, b);
    failure := LeastOf(errs);
  }

  /** Retain what the batch displaces and drop what has expired. */
  method StageRetained(s: Snapshot, b: Batch, m: Mono, kept: RetainedRecords) returns (retained: RetainedRecords, errs: set<Err>)
    requires kept == KeptRetained(s, b)
    ensures retained == NextRetained(s, b, m) && errs == RetentionErrors(s, b, m)
  {
    hide StagedRetained, NextRetained, RetentionErrors, AgeOf, KeptRetained, NextBindings;
    var staged := RetainDisplaced(s, b, kept);
    var unaged;
    retained, unaged := ExpireRetained(staged, Context(b.observedAt, m));
    var nameless := DiagnoseDisplaced(s, b);
    RetentionParts(s, b, m, nameless, unaged);
    errs := When(nameless, InvalidValue) + When(unaged, InvalidTime) + When(|retained| > MAX_RETAINED, BoundsExceeded);
  }

  /** Whether some displaced observation lacks part of its identity. */
  method DiagnoseDisplaced(s: Snapshot, b: Batch) returns (nameless: bool)
    ensures nameless <==> exists id :: id in s.facts && Displaced(s, b, id) && !HasIdentity(s.facts[id].body)
  {
    hide Displaced, HasIdentity;
    nameless := false;
    var todo := s.facts.Keys;
    while todo != {}
      invariant todo <= s.facts.Keys
      invariant nameless <==> exists id :: id in s.facts && id !in todo && Displaced(s, b, id) && !HasIdentity(s.facts[id].body)
      decreases |todo|
    {
      var id :| id in todo;
      if Displaced(s, b, id) && !HasIdentity(s.facts[id].body) { nameless := true; }
      todo := todo - {id};
    }
  }

  lemma RetentionParts(s: Snapshot, b: Batch, m: Mono, nameless: bool, unaged: bool)
    requires nameless <==> exists id :: id in s.facts && Displaced(s, b, id) && !HasIdentity(s.facts[id].body)
    requires var staged := StagedRetained(s, b);
             unaged <==> exists k :: k in staged && AgeOf(staged[k], Context(b.observedAt, m)).Failed?
    ensures var staged := StagedRetained(s, b);
            NextRetained(s, b, m) == map k | k in staged && AgeOf(staged[k], Context(b.observedAt, m)) != Ok(Expired) :: staged[k]
    ensures RetentionErrors(s, b, m) ==
            When(nameless, InvalidValue) + When(unaged, InvalidTime) + When(|NextRetained(s, b, m)| > MAX_RETAINED, BoundsExceeded)
  {
    hide StagedRetained, Displaced, AgeOf, HasIdentity, NextBindings;
  }

  /** Stage the snapshot of a batch and collect its diagnostics. */
  method Stage(h: Hooks, s: Snapshot, b: Batch, m: Mono, first: bool) returns (t: Snapshot, failure: Option<Err>)
    requires ObservedAreLeaves(StagedFacts(s, b))
    ensures t == Staged(s, b, m, first) && failure == Least(StepErrors(h, s, b, m, first))
  {
    hide PlainErrors, RetentionErrors, ContentErrors, RevisionsShape, StagedFacts, Kept, ClosureErrors, Staged, StepErrors, NextBindings, NextRetained;
    var o, staged, kept, plainError := StageObjects(h, s, b);
    var facts, graphError := CloseCandidateGraph(staged, b.facts.Keys, o.bindings);
    assert facts == NextFacts(s, b) && graphError == Least(GraphErrors(s, b)) by { LeastSingleton(BoundsExceeded); }
    var retained, late := StageRetained(s, b, m, kept);
    t := Assemble(s, b, m, first, o, facts, retained);
    late := late + ContentErrors(t) + RevisionsShape(t.revisions);
    var lateError := LeastOf(late);
    failure := Best(Best(plainError, graphError), lateError);
    StepErrorsSplit(h, s, b, m, first, late);
  }

  /** Normalize every collection and put the snapshot together. */
  method Assemble(s: Snapshot, b: Batch, m: Mono, first: bool, o: StagedObjects, facts: Candidates, retained: RetainedRecords)
    returns (t: Snapshot)
    requires o == StagedObjects(NextBindings(s, b), NextLinks(s, b), NextServices(s, b), NextCapabilities(s, b))
    requires facts == NextFacts(s, b) && retained == NextRetained(s, b, m)
    ensures t == Staged(s, b, m, first)
  {
    hide NextBindings, NextFacts, NextRetained, NextSources, NextServices, NextCapabilities, NextFences, NextCursors, NextLinks,
         RebuildEnvelopes, Normalize;
    var sources := StageSources(s, b);
    sources := NormalizeObjects(s.sources, sources);
    var normalBindings := NormalizeObjects(s.bindings, o.bindings);
    var normalLinks := NormalizeObjects(s.links, o.links);
    var normalServices := NormalizeObjects(s.services, o.services);
    var normalCapabilities := NormalizeObjects(s.capabilities, o.capabilities);
    var fences := StageFences(s, b);
    var cursors := StageCursors(s, b);
    var envelopes := Rebuild(s, facts);
    var content := s.(at := b.observedAt, mono := m, sources := sources, bindings := normalBindings, links := normalLinks,
                      facts := facts, envelopes := envelopes, retained := retained,
                      services := normalServices, capabilities := normalCapabilities, fences := fences, cursors := cursors);
    t := content.(revisions := NextRevisions(s, content, first));
  }

  /** The final check of a staged snapshot. */
  method Validate(t: Snapshot) returns (failure: Option<Err>)
    ensures failure == Least(ValidateErrors(t))
  {
    hide RevisionsShape, KeyShapes, ContentErrors, LifecycleErrors, ClosureErrors, ObservedAreLeaves;
    var plain := RevisionsShape(t.revisions) + KeyShapes(t) + ContentErrors(t) + LifecycleErrors(t);
    failure := LeastOf(plain);
    LeastOfUnion(plain, GraphFaults(t));
    if !ObservedAreLeaves(t.facts) {
      MisplacedDerivation(t);
      GraphRanks(t);
    } else if |t.facts| > MAX_NODES {
      LeastSingleton(BoundsExceeded);
      failure := Best(failure, Some(BoundsExceeded));
    } else {
      var _, graphError := CloseCandidateGraph(t.facts, t.facts.Keys, t.bindings);
      failure := Best(failure, graphError);
    }
  }

  /** A derivation on an observed candidate is already refused, ahead of every graph error. */
  lemma MisplacedDerivation(t: Snapshot)
    requires !ObservedAreLeaves(t.facts)
    ensures InvalidValue in ContentErrors(t)
  {
    hide WithinLimits, OneCurrentEpoch, CapabilityHasService, SourceShape, BindingShape, LinkShape, ServiceShape,
         CapabilityShape, EnvelopeShape, InputsShape;
    var id :| id in t.facts && IsObserved(t.facts[id]) && t.facts[id].body.derivation.Some?;
    assert InvalidValue in CandidateShape(id, t.facts[id]);
    assert InvalidValue in RecordErrors(t);
  }

  lemma GraphRanks(t: Snapshot)
    ensures forall e :: e in GraphFaults(t) ==> InvalidValue < e
  {
    hide Reach, Survives, LocalErrors, Kept, Adjacency;
    forall v, e | v in t.facts && e in LocalErrors(t.facts, t.bindings, v) ensures InvalidValue < e {
      LocalRanks(t.facts, t.bindings, v);
    }
  }

  lemma LocalRanks(c: Candidates, bindings: Bindings, v: Id)
    requires v in c
    ensures forall e :: e in LocalErrors(c, bindings, v) ==> InvalidValue < e
  {
    hide Reach, OnCycle, Misdeclared, TooDeep, InputLeaves, Survives, Adjacency;
  }

  /** A batch that is not refused for its structure has observed candidates without derivations. */
  lemma StructureLeaves(h: Hooks, asset: Id, b: Batch, m: Mono, s: Snapshot)
    requires !Outranks(StructureErrors(h, asset, b, m), DanglingReference) && ContentErrors(s) == {}
    ensures ObservedAreLeaves(StagedFacts(s, b))
  {
    hide ContentErrors, FactWithdrawn, StructureErrors;
    PublishedLeaves(s);
    forall id | id in b.facts && IsObserved(b.facts[id]) ensures b.facts[id].body.derivation.None? {
      if b.facts[id].body.derivation.Some? {
        ObservedDerivationError(h, asset, b, m, id);
      }
    }
  }

  lemma ObservedDerivationError(h: Hooks, asset: Id, b: Batch, m: Mono, id: Id)
    requires id in b.facts && IsObserved(b.facts[id]) && b.facts[id].body.derivation.Some?
    ensures InvalidValue in StructureErrors(h, asset, b, m)
  {
    hide HeaderOwned, SourceShape, BindingShape, LinkShape, ServiceShape, CapabilityShape, FenceShape, InputsShape, NoRetiredUpserts, NoFencedUpserts;
    assert InvalidValue in CandidateShape(id, b.facts[id]);
  }

  method DiagnoseOrder(h: Hooks, s: Snapshot, b: Batch) returns (errs: set<Err>)
    ensures errs == OrderErrors(h, s, b)
  {
    hide Regressed;
    var regressed := DiagnoseRegression(s, b);
    errs := When(HeaderFenced(s, b) || regressed, StaleDriverGeneration) + When(b.header !in s.cursors && b.sequence != 1, SequenceConflict)
            + When(h.digestOf(b) != b.digest, DigestMismatch) + When(b.expected != s.revisions.semantic, RevisionConflict);
  }

  class PublicationKernel {
    const asset: Id
    const hooks: Hooks
    var current: Option<Snapshot>
    var replays: map<CursorKey, Snapshot>

    ghost function View(): State
      reads this
    {
      State(asset, current, replays)
    }

    ghost predicate Valid()
      reads this
    {
      KernelInv(View())
    }

    constructor (a: Id, h: Hooks)
      ensures asset == a && hooks == h && View() == Initial(a) && Valid()
    {
      asset, hooks, current, replays := a, h, None, map[];
    }

    /** Decide on one batch; only acceptance changes the object, and it changes all of it at once. */
    method Apply(b: Batch, m: Mono) returns (outcome: Outcome)
      requires Valid()
      modifies this
      ensures Valid()
      ensures outcome == Decide(hooks, old(View()), b, m)
      ensures View() == Step(hooks, old(View()), b, m)
    {
      hide StructureErrors, OwnershipErrors, KernelInv, DecideNew, Base, Sound;
      ghost var k := View();
      StepKeepsInv(hooks, k, b, m);
      BaseSound(k);
      var s := Base(State(asset, current, replays));
      var structure := StructureErrors(hooks, asset, b, m);
      if Outranks(structure, InvalidValue) {
        var e := LeastOf(structure);
        return Rejected(e.value);
      }
      var errs := structure + if IsNew(s, b) then OwnershipErrors(s, b) else {};
      if Outranks(errs, DanglingReference) {
        var e := LeastOf(errs);
        return Rejected(e.value);
      }
      if IsNew(s, b) {
        outcome := ApplyNew(b, m, errs);
      } else if errs != {} {
        var e := LeastOf(errs);
        outcome := Rejected(e.value);
      } else {
        outcome := DecideReplay(hooks, State(asset, current, replays), b);
      }
    }

    /** A new sequence: stage, check, and commit. */
    method ApplyNew(b: Batch, m: Mono, errs: set<Err>) returns (outcome: Outcome)
      requires Valid()
      requires errs == FirstErrors(hooks, View(), b, m) && !Outranks(errs, DanglingReference)
      modifies this
      ensures outcome == DecideNew(hooks, old(View()), b, m)
      ensures View() == (match outcome case Accepted(t) => State(asset, Some(t), old(replays)[b.header := t]) case _ => old(View()))
    {
      hide StructureErrors, OwnershipErrors, OrderErrors, StepErrors, Staged, ValidateErrors, KernelInv, Sound, ContentErrors, Base;
      ghost var k := View();
      BaseSound(k);
      var s, first := Base(State(asset, current, replays)), current.None?;
      SoundContent(s);
      StructureLeaves(hooks, asset, b, m, s);
      var order := DiagnoseOrder(hooks, s, b);
      var early := errs + order;
      var failure := LeastOf(early);
      var t, stageFailure := Stage(hooks, s, b, m, first);
      failure := Best(failure, stageFailure);
      LeastOfUnion(early, StepErrors(hooks, s, b, m, first));
      assert FirstErrors(hooks, k, b, m) + NewErrors(hooks, k, b, m) == early + StepErrors(hooks, s, b, m, first);
      if failure.Some? {
        return Rejected(failure.value);
      }
      var finalFailure := Validate(t);
      if finalFailure.Some? {
        return Rejected(finalFailure.value);
      }
      current := Some(t);
      replays := replays[b.header := t];
      return Accepted(t);
    }
  }

  lemma SoundContent(s: Snapshot)
    requires Sound(s)
    ensures ContentErrors(s) == {}
  {
    hide ContentErrors, LifecycleOk, WellKeyed, SourcesHaveCursor, KeyShapes, GraphFaults;
  }
}
