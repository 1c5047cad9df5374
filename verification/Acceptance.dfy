/** The kernel accepts a batch exactly when the batch keeps the rules. */
module Acceptance {
  import opened Errors
  import opened Graphs
  import opened Freshness
  import opened Records
  import opened Lineage
  import opened Snapshots
  import opened Publication
  import opened Validity
  import opened Batches
  import opened Lifecycle
  import opened Kernel
  import opened Retention
  import opened Effects
  import opened SnapshotRules
  import opened Rules

  // ---------------------------------------------------------------- the batch by itself

  predicate UpsertsFit(b: Batch) {
    && (forall k :: k in b.sources ==> Counts(b.sources[k].revision))
    && (forall k :: k in b.bindings ==> Counts(b.bindings[k].revision) && Counts(b.bindings[k].body.path.generation))
    && (forall k :: k in b.links ==> LinkFits(b.links[k]))
    && (forall k :: k in b.facts ==> CandidateFits(k, b.facts[k]))
    && (forall k :: k in b.services ==> Counts(b.services[k].revision) && Counts(b.services[k].body.generation))
    && (forall k :: k in b.capabilities ==> Counts(b.capabilities[k].revision) && Counts(b.capabilities[k].body.generation))
    && (forall k :: k in b.fences ==> Counts(k.generation) && Counts(b.fences[k].revision) && 1 <= |b.fences[k].evidence| <= 32)
  }

  /** In range and in bounds, and bringing only current sources and bindings. */
  predicate BatchFits(b: Batch, m: Mono) {
    && Counts(b.header.generation) && Counts(b.sequence) && b.expected < 0x1_0000_0000_0000_0000 && PointFits(b.observedAt) && m.ns < 0x1_0000_0000_0000_0000
    && |b.facts| <= 8192 && |b.factWithdrawals| <= 4096
    && (forall k :: k in b.sources ==> b.sources[k].body.state == SourceCurrent)
    && (forall id :: id in b.bindings ==> b.bindings[id].body.state == BindingCurrent)
    && UpsertsFit(b)
  }

  lemma ShapesEmpty(b: Batch)
    ensures UpsertShapes(b) == {} <==>
            && (forall k :: k in b.sources ==> SourceShape(b.sources[k]) == {}) && (forall k :: k in b.bindings ==> BindingShape(b.bindings[k]) == {})
            && (forall k :: k in b.links ==> LinkShape(b.links[k]) == {}) && (forall k :: k in b.facts ==> CandidateShape(k, b.facts[k]) == {})
            && (forall k :: k in b.services ==> ServiceShape(b.services[k]) == {})
            && (forall k :: k in b.capabilities ==> CapabilityShape(b.capabilities[k]) == {})
            && (forall k :: k in b.fences ==> FenceShape(k, b.fences[k]) == {})
  {
    hide SourceShape, BindingShape, LinkShape, CandidateShape, ServiceShape, CapabilityShape, FenceShape;
    if UpsertShapes(b) == {} {
      forall k | k in b.sources ensures SourceShape(b.sources[k]) == {} { assert forall e :: e in SourceShape(b.sources[k]) ==> e in UpsertShapes(b); }
      forall k | k in b.bindings ensures BindingShape(b.bindings[k]) == {} { assert forall e :: e in BindingShape(b.bindings[k]) ==> e in UpsertShapes(b); }
      forall k | k in b.links ensures LinkShape(b.links[k]) == {} { assert forall e :: e in LinkShape(b.links[k]) ==> e in UpsertShapes(b); }
      forall k | k in b.facts ensures CandidateShape(k, b.facts[k]) == {} { UpsertedFactShape(b, k); }
      forall k | k in b.services ensures ServiceShape(b.services[k]) == {} { assert forall e :: e in ServiceShape(b.services[k]) ==> e in UpsertShapes(b); }
      forall k | k in b.capabilities ensures CapabilityShape(b.capabilities[k]) == {} {
        assert forall e :: e in CapabilityShape(b.capabilities[k]) ==> e in UpsertShapes(b);
      }
      forall k | k in b.fences ensures FenceShape(k, b.fences[k]) == {} { UpsertedFenceShape(b, k); }
    }
  }

  lemma UpsertsExact(b: Batch)
    ensures UpsertShapes(b) == {} <==> UpsertsFit(b)
  {
    hide UpsertShapes, SourceShape, BindingShape, LinkShape, CandidateShape, ServiceShape, CapabilityShape, FenceShape, CursorShape, LinkFits,
         CandidateFits, Counts;
    ShapesEmpty(b);
    SmallShapes();
    FenceAndCursorShapes();
    forall id, v ensures CandidateShape(id, v) == {} <==> CandidateFits(id, v) { CandidateExact(id, v); }
  }

  lemma BatchExact(b: Batch, m: Mono)
    ensures BatchShape(b, m) == {} <==> BatchFits(b, m)
  {
    hide UpsertShapes, UpsertsFit;
    UpsertsExact(b);
  }

  /** Everything the batch names is of the kernel's asset and of the header's own path. */
  predicate Owned(asset: Id, b: Batch) {
    && b.asset == asset && (forall k :: k in b.sources ==> k.source == b.header.source)
    && (forall k :: k in b.fences ==> k.source == b.header.source && k.epoch == b.header.epoch)
    && (forall id :: id in b.bindings ==> b.bindings[id].body.asset == asset && b.bindings[id].body.path == b.header)
    && (forall id :: id in b.links ==> b.links[id].body.asset == asset)
    && (forall id :: id in b.services ==>
          b.services[id].body.asset == asset && b.services[id].body.epoch == b.header.epoch && b.services[id].body.generation == b.header.generation)
    && (forall id :: id in b.capabilities ==>
          && b.capabilities[id].body.asset == asset && b.capabilities[id].body.epoch == b.header.epoch
          && b.capabilities[id].body.generation == b.header.generation)
    && (forall id :: id in b.facts && IsObserved(b.facts[id]) ==>
          && b.facts[id].body.originSource in {None, Some(b.header.source)} && b.facts[id].body.epoch in {None, Some(b.header.epoch)}
          && b.facts[id].body.generation in {None, Some(b.header.generation)})
  }

  lemma OwnedExact(asset: Id, b: Batch)
    ensures HeaderOwned(asset, b) <==> Owned(asset, b)
  {}

  /** The next batch of an open cursor, or the first of a new one that no newer generation precedes, for this very state. */
  predicate InSequence(h: Hooks, s: Snapshot, b: Batch) {
    && (if b.header in s.cursors then !s.cursors[b.header].fenced && s.cursors[b.header].lastSequence < b.sequence else b.sequence == 1)
    && (forall k :: k in s.cursors && k.source == b.header.source && k.epoch == b.header.epoch ==> k.generation <= b.header.generation)
    && h.digestOf(b) == b.digest && b.expected == s.revisions.semantic
  }

  lemma SequenceExact(h: Hooks, s: Snapshot, b: Batch)
    ensures IsNew(s, b) && OrderErrors(h, s, b) == {} <==> InSequence(h, s, b)
  {}

  predicate NoForeignEpoch(s: Snapshot, b: Batch) { forall k :: k in b.sources && k !in s.sources ==> k == SourceOf(b.header) }

  // ---------------------------------------------------------------- the rules together

  ghost predicate ObjectRules(h: Hooks, s: Snapshot, b: Batch) {
    && SourcesRule(s, b) && GenerationsRule(s, b) && ClosingRule(s, b) && BindingsRule(s, b) && LinksRule(s, b)
    && FactsRule(h, s, b) && ServicesRule(h, s, b) && CapabilitiesRule(h, s, b)
  }

  ghost predicate ResultRules(s: Snapshot, b: Batch, m: Mono, t: Snapshot) {
    && GraphRule(s, b) && RetentionRule(s, b, m) && ContentFits(t)
    && Counts(t.revisions.semantic) && Counts(t.revisions.identity) && Counts(t.revisions.facts) && Counts(t.revisions.services)
    && Counts(t.revisions.capabilities)
  }

  ghost predicate Acceptable(h: Hooks, s: Snapshot, b: Batch, m: Mono, first: bool) {
    && h.syntax(b, m) == {} && BatchFits(b, m) && Owned(s.asset, b) && InSequence(h, s, b) && NoForeignEpoch(s, b)
    && ObjectRules(h, s, b) && ResultRules(s, b, m, Staged(s, b, m, first))
  }

  lemma RevisionsExact(r: Revisions)
    ensures RevisionsShape(r) == {} <==>
            Counts(r.semantic) && Counts(r.identity) && Counts(r.facts) && Counts(r.services) && Counts(r.capabilities)
  {}

  lemma LinkBases(s: Snapshot)
    requires ContentErrors(s) == {}
    ensures forall id :: id in s.links ==> 1 <= |s.links[id].body.basis| <= MAX_EVIDENCE
  {
    hide ContentErrors, SizesFit, EpochsAndServices, CandidateFits, EnvelopeFits;
    ContentExact(s);
  }

  lemma NothingRetainedTwice(s: Snapshot, b: Batch)
    requires Sound(s)
    ensures forall k :: k in s.retained ==> k !in NewlyRetained(s, b)
  {
    hide NewlyRetained, WellKeyed, ContentErrors, KeyShapes, GraphFaults, FencesOk, CursorsOk, OneOpenGeneration, BindingsOk, LinksOk, ServicesOk,
         CapabilitiesOk, AllRetainedOk, SourcesHaveCursor, Historic;
    forall k | k in s.retained ensures k !in NewlyRetained(s, b) {
      RetainedIsHistoric(s, k);
      NewlyRetainedWasLive(s, b, k);
    }
  }

  /** The parts of soundness the rules rest on. */
  lemma SoundParts(s: Snapshot)
    requires Sound(s)
    ensures ContentErrors(s) == {} && GraphFaults(s) == {} && AllRetainedOk(s) && LinksOk(s) && ServicesOk(s) && CapabilitiesOk(s)
  {
    hide ContentErrors, GraphFaults, WellKeyed, KeyShapes, FencesOk, CursorsOk, OneOpenGeneration, BindingsOk, LinksOk, ServicesOk, CapabilitiesOk,
         AllRetainedOk, SourcesHaveCursor;
  }

  lemma ShapeParts(b: Batch, m: Mono)
    requires BatchShape(b, m) == {}
    ensures NoRetiredUpserts(b) && NoFencedUpserts(b) && UpsertShapes(b) == {}
  {
    hide UpsertShapes, NoRetiredUpserts, NoFencedUpserts;
  }

  /** The object checks raise nothing exactly when the object rules hold. */
  lemma ObjectsExact(h: Hooks, s: Snapshot, b: Batch, m: Mono)
    requires Sound(s) && BatchShape(b, m) == {} && HeaderOwned(s.asset, b)
    ensures ObjectRules(h, s, b) <==>
            && SourceErrors(s, b) == {} && GenerationErrors(s, b) == {} && MoveErrors(s, b) == {} && BindingErrors(s, b) == {} && LinkErrors(s, b) == {}
            && FactErrors(h, s, b) == {} && ServiceErrors(h, s, b) == {} && CapabilityErrors(h, s, b) == {}
    ensures ObjectRules(h, s, b) ==> SourcesPass(s, b) && GenerationsPass(s, b) && BindingsPass(s, b)
  {
    hide Sound, BatchShape, HeaderOwned, SourceErrors, GenerationErrors, MoveErrors, BindingErrors, LinkErrors, FactErrors, ServiceErrors, CapabilityErrors,
         SourcesRule, GenerationsRule, ClosingRule, BindingsRule, LinksRule, FactsRule, ServicesRule, CapabilitiesRule, SourcesPass, GenerationsPass,
         ContentErrors, GraphFaults, AllRetainedOk, LinksOk, ServicesOk, CapabilitiesOk, NoRetiredUpserts, NoFencedUpserts, UpsertShapes;
    SoundParts(s);
    ShapeParts(b, m);
    LinkBases(s);
    SourcesExact(s, b);
    GenerationsExact(s, b);
    if SourcesRule(s, b) && GenerationsRule(s, b) {
      ClosingExact(s, b);
      BindingsExact(s, b);
      if BindingsRule(s, b) {
        assert BindingsPass(s, b);
        FactsExact(h, s, b);
        ServicesExact(h, s, b);
        if ClosingRule(s, b) {
          LinksExact(s, b);
          if ServicesRule(h, s, b) { CapabilitiesExact(h, s, b); }
        }
      }
    }
  }

  lemma ResultsExact(h: Hooks, s: Snapshot, b: Batch, m: Mono, t: Snapshot)
    requires Sound(s) && BatchShape(b, m) == {} && SourcesPass(s, b) && GenerationsPass(s, b) && BindingsPass(s, b)
    requires FactsRule(h, s, b) && FactErrors(h, s, b) == {}
    ensures ResultRules(s, b, m, t) <==>
            GraphErrors(s, b) == {} && RetentionErrors(s, b, m) == {} && ContentErrors(t) == {} && RevisionsShape(t.revisions) == {}
  {
    hide Sound, BatchShape, SourcesPass, GenerationsPass, BindingsPass, FactErrors, GraphErrors, RetentionErrors, ContentErrors, RevisionsShape, GraphRule,
         RetentionRule, ContentFits, FactAllowed, FactWithdrawalAllowed, NewlyRetained, GraphFaults, AllRetainedOk, UpsertShapes, NoRetiredUpserts,
         NoFencedUpserts, LinksOk, ServicesOk, CapabilitiesOk;
    SoundParts(s);
    ShapeParts(b, m);
    NothingRetainedTwice(s, b);
    GraphExact(h, s, b);
    RetentionExact(s, b, m);
    ContentExact(t);
    RevisionsExact(t.revisions);
  }

  lemma StepsExact(h: Hooks, s: Snapshot, b: Batch, m: Mono, first: bool)
    requires Sound(s) && BatchShape(b, m) == {} && HeaderOwned(s.asset, b)
    ensures StepErrors(h, s, b, m, first) == {} <==> ObjectRules(h, s, b) && ResultRules(s, b, m, Staged(s, b, m, first))
  {
    hide Sound, BatchShape, HeaderOwned, SourceErrors, GenerationErrors, MoveErrors, BindingErrors, LinkErrors, FactErrors, ServiceErrors, CapabilityErrors,
         GraphErrors, RetentionErrors, ContentErrors, RevisionsShape, Staged, ObjectRules, ResultRules, SourcesPass, GenerationsPass, BindingsPass;
    ObjectsExact(h, s, b, m);
    if ObjectRules(h, s, b) {
      assert FactsRule(h, s, b) by { RulesParts(h, s, b); }
      ResultsExact(h, s, b, m, Staged(s, b, m, first));
    }
  }

  lemma RulesParts(h: Hooks, s: Snapshot, b: Batch)
    requires ObjectRules(h, s, b)
    ensures FactsRule(h, s, b) && ServicesRule(h, s, b) && CapabilitiesRule(h, s, b) && LinksRule(s, b) && BindingsRule(s, b)
  {
    hide SourcesRule, GenerationsRule, ClosingRule, BindingsRule, LinksRule, FactsRule, ServicesRule, CapabilitiesRule;
  }

  // ---------------------------------------------------------------- ownership on record is implied

  lemma OpenIsOwn(s: Snapshot, b: Batch, id: Id)
    requires OpenAfter(s, b, id) && (id in s.bindings && id in b.bindings ==> s.bindings[id].body.path == b.bindings[id].body.path)
    ensures !Foreign(s, b, id)
  {}

  lemma OpenOwn(s: Snapshot, b: Batch, id: Id)
    requires BindingsRule(s, b) && OpenAfter(s, b, id)
    ensures !Foreign(s, b, id)
  {
    hide Supersedes, OpenAfter, Foreign;
    if id in b.bindings { assert BindingAllowed(s, b, id); }
    OpenIsOwn(s, b, id);
  }

  lemma FactOwn(h: Hooks, s: Snapshot, b: Batch, id: Id)
    requires BindingsRule(s, b) && id in b.facts && FactAllowed(h, s, b, id)
    ensures !ForeignCandidate(s, b, id)
    ensures IsObserved(b.facts[id]) && b.facts[id].body.binding.Some? ==> !Foreign(s, b, b.facts[id].body.binding.value)
  {
    hide Supersedes, OpenAfter, BindingsRule;
    if IsObserved(b.facts[id]) { OpenOwn(s, b, b.facts[id].body.binding.value); }
  }

  lemma WithdrawalOwn(s: Snapshot, b: Batch, id: Id)
    requires FactWithdrawalAllowed(s, b, id)
    ensures !ForeignCandidate(s, b, id)
  {
    hide Closes, FromSource;
  }

  lemma ServiceOwn(h: Hooks, s: Snapshot, b: Batch, id: Id)
    requires BindingsRule(s, b) && id in b.services && ServiceAllowed(h, s, b, id)
    ensures !Foreign(s, b, b.services[id].body.binding) && !ForeignService(s, b, id)
  {
    hide Supersedes, OpenAfter, BindingsRule, Closes;
    OpenOwn(s, b, b.services[id].body.binding);
  }

  lemma CapabilityOwn(h: Hooks, s: Snapshot, b: Batch, id: Id)
    requires BindingsRule(s, b) && id in b.capabilities && CapabilityAllowed(h, s, b, id)
    ensures !Foreign(s, b, b.capabilities[id].body.binding) && !ForeignCapability(s, b, id)
  {
    hide Supersedes, OpenAfter, BindingsRule, Closes, Served;
    OpenOwn(s, b, b.capabilities[id].body.binding);
  }

  /** A batch that keeps the rules touches nothing that another source is known to own. */
  lemma NothingForeign(h: Hooks, s: Snapshot, b: Batch)
    requires BindingsRule(s, b) && LinksRule(s, b) && FactsRule(h, s, b) && ServicesRule(h, s, b) && CapabilitiesRule(h, s, b)
    ensures OwnershipErrors(s, b) == {}
  {
    hide BindingsRule, LinkAllowed, FactAllowed, FactWithdrawalAllowed, ServiceAllowed, CapabilityAllowed, MayWithdraw, Foreign, ForeignCandidate,
         ForeignService, ForeignCapability;
    forall id | id in b.links ensures !Foreign(s, b, id) { LinkOwn(s, b, id); }
    forall id | id in b.facts ensures !ForeignCandidate(s, b, id)
      ensures IsObserved(b.facts[id]) && b.facts[id].body.binding.Some? ==> !Foreign(s, b, b.facts[id].body.binding.value) {
      FactOwn(h, s, b, id);
    }
    forall id | id in b.factWithdrawals ensures !ForeignCandidate(s, b, id) { WithdrawalOwn(s, b, id); }
    forall id | id in b.services ensures !Foreign(s, b, b.services[id].body.binding) && !ForeignService(s, b, id) { ServiceOwn(h, s, b, id); }
    forall id | id in b.serviceWithdrawals ensures !ForeignService(s, b, id) { MayOwn(s, b, s.services[id].body.binding); NotForeignService(s, b, id); }
    forall id | id in b.capabilities ensures !Foreign(s, b, b.capabilities[id].body.binding) && !ForeignCapability(s, b, id) { CapabilityOwn(h, s, b, id); }
    forall id | id in b.capabilityWithdrawals ensures !ForeignCapability(s, b, id) {
      MayOwn(s, b, s.capabilities[id].body.binding);
      NotForeignCapability(s, b, id);
    }
  }

  lemma LinkOwn(s: Snapshot, b: Batch, id: Id)
    requires BindingsRule(s, b) && id in b.links && LinkAllowed(s, b, id)
    ensures !Foreign(s, b, id)
  {
    hide BindingsRule, OpenAfter, Foreign, Supersedes;
    OpenOwn(s, b, id);
  }

  lemma MayOwn(s: Snapshot, b: Batch, binding: Id)
    requires MayWithdraw(s, b, binding)
    ensures !Foreign(s, b, binding)
  {}

  lemma NotForeignService(s: Snapshot, b: Batch, id: Id)
    requires id in s.services && !Foreign(s, b, s.services[id].body.binding)
    ensures !ForeignService(s, b, id)
  {}

  lemma NotForeignCapability(s: Snapshot, b: Batch, id: Id)
    requires id in s.capabilities && !Foreign(s, b, s.capabilities[id].body.binding)
    ensures !ForeignCapability(s, b, id)
  {}

  /** The kernel accepts a batch exactly when it is acceptable. */
  lemma AcceptedIffAcceptable(h: Hooks, k: State, b: Batch, m: Mono)
    requires KernelInv(k)
    ensures Decide(h, k, b, m).Accepted? <==> Acceptable(h, Base(k), b, m, k.current.None?)
  {
    hide KernelInv, Decide, Base, Sound, BatchShape, HeaderOwned, OwnershipErrors, OrderErrors, StepErrors, IsNew, NoStrayEpoch, BatchFits, Owned, InSequence,
         ObjectRules, ResultRules, Staged;
    var s := Base(k);
    BaseSound(k);
    AcceptedIff(h, k, b, m);
    BatchExact(b, m);
    OwnedExact(s.asset, b);
    SequenceExact(h, s, b);
    assert NoStrayEpoch(s, b) <==> NoForeignEpoch(s, b) by { StrayExact(s, b); }
    if BatchShape(b, m) == {} && HeaderOwned(s.asset, b) {
      StepsExact(h, s, b, m, k.current.None?);
      if ObjectRules(h, s, b) {
        RulesParts(h, s, b);
        NothingForeign(h, s, b);
      }
    }
  }

  lemma StrayExact(s: Snapshot, b: Batch)
    ensures NoStrayEpoch(s, b) <==> NoForeignEpoch(s, b)
  {}

  // ---------------------------------------------------------------- classes

  /** The class each fault of order is reported as. */
  lemma OrderClasses(h: Hooks, s: Snapshot, b: Batch)
    ensures StaleDriverGeneration in OrderErrors(h, s, b) <==>
            || (b.header in s.cursors && s.cursors[b.header].fenced)
            || exists k :: k in s.cursors && k.source == b.header.source && k.epoch == b.header.epoch && b.header.generation < k.generation
    ensures SequenceConflict in OrderErrors(h, s, b) <==> b.header !in s.cursors && b.sequence != 1
    ensures DigestMismatch in OrderErrors(h, s, b) <==> h.digestOf(b) != b.digest
    ensures RevisionConflict in OrderErrors(h, s, b) <==> b.expected != s.revisions.semantic
  {}

  /** The class each fault of sources is reported as, and below of generations. */
  lemma SourceClasses(s: Snapshot, b: Batch)
    ensures RevisionConflict in SourceErrors(s, b) <==> exists k :: k in b.sources && k in s.sources && !Supersedes(b.sources[k], s.sources[k])
    ensures DanglingReference in SourceErrors(s, b) <==> SourceOf(b.header) !in s.sources && SourceOf(b.header) !in b.sources
    ensures SourceErrors(s, b) <= {RevisionConflict, DanglingReference, StaleSourceEpoch}
  {
    hide Supersedes, RevisionStep, SourceUpsertOpen, RetirementsCurrent, OtherEpochsRetire, HeaderEpochOpen, SourceUpsertsOpen;
    forall k | k in b.sources && k in s.sources ensures RevisionStep(s.sources[k], b.sources[k]) <==> Supersedes(b.sources[k], s.sources[k]) {
      StepIsSuccession(s.sources[k], b.sources[k]);
    }
  }

  lemma GenerationClasses(s: Snapshot, b: Batch)
    ensures GenerationTransitionIncomplete in GenerationErrors(s, b) <==>
            exists k :: && k in s.cursors && k.source == b.header.source && k.epoch == b.header.epoch && !s.cursors[k].fenced
                        && k.generation < b.header.generation && k !in b.fences
    ensures DanglingReference in GenerationErrors(s, b) <==> exists k :: k in b.fences && k !in s.cursors
    ensures GenerationErrors(s, b) <= {GenerationTransitionIncomplete, DanglingReference, StaleDriverGeneration}
  {}

  /** A new batch that touches what another source owns is refused ahead of every reference or lifecycle error. */
  lemma ForeignRefusedFirst(h: Hooks, k: State, b: Batch, m: Mono)
    requires IsNew(Base(k), b) && TouchesForeign(Base(k), b)
    ensures Decide(h, k, b, m).Rejected? && Decide(h, k, b, m).error <= InvalidValue
  {
    hide Base, TouchesForeign, StructureErrors, DecideNew, IsNew;
    assert InvalidValue in OwnershipErrors(Base(k), b);
    assert Outranks(FirstErrors(h, k, b, m), DanglingReference) by { assert InvalidValue in FirstErrors(h, k, b, m); }
  }

  /** Which objects another source owns. */
  lemma ForeignExact(s: Snapshot, b: Batch)
    ensures TouchesForeign(s, b) <==>
            || (exists id :: id in b.links && TheirBinding(s, b, id))
            || (exists id :: id in b.facts && IsObserved(b.facts[id]) && b.facts[id].body.binding.Some? && TheirBinding(s, b, b.facts[id].body.binding.value))
            || (exists id :: id in s.facts && (id in b.facts || id in b.factWithdrawals) && IsObserved(s.facts[id]) && s.facts[id].body.binding.Some?
                             && TheirBinding(s, b, s.facts[id].body.binding.value))
            || (exists id :: id in b.services && TheirBinding(s, b, b.services[id].body.binding))
            || (exists id :: id in s.services && (id in b.services || id in b.serviceWithdrawals) && TheirBinding(s, b, s.services[id].body.binding))
            || (exists id :: id in b.capabilities && TheirBinding(s, b, b.capabilities[id].body.binding))
            || (exists id :: id in s.capabilities && (id in b.capabilities || id in b.capabilityWithdrawals)
                             && TheirBinding(s, b, s.capabilities[id].body.binding))
  {
    hide Foreign, TheirBinding, ForeignCandidate, ForeignService, ForeignCapability;
    forall id ensures Foreign(s, b, id) <==> TheirBinding(s, b, id) { TheirExact(s, b, id); }
    forall id ensures ForeignCandidate(s, b, id) <==>
        id in s.facts && IsObserved(s.facts[id]) && s.facts[id].body.binding.Some? && TheirBinding(s, b, s.facts[id].body.binding.value) {
      TheirExact(s, b, id);
    }
    forall id ensures ForeignService(s, b, id) <==> id in s.services && TheirBinding(s, b, s.services[id].body.binding) { TheirExact(s, b, id); }
    forall id ensures ForeignCapability(s, b, id) <==> id in s.capabilities && TheirBinding(s, b, s.capabilities[id].body.binding) { TheirExact(s, b, id); }
  }

  lemma TheirExact(s: Snapshot, b: Batch, id: Id)
    ensures Foreign(s, b, id) <==> TheirBinding(s, b, id)
    ensures ForeignCandidate(s, b, id) <==>
            id in s.facts && IsObserved(s.facts[id]) && s.facts[id].body.binding.Some? && TheirBinding(s, b, s.facts[id].body.binding.value)
    ensures ForeignService(s, b, id) <==> id in s.services && TheirBinding(s, b, s.services[id].body.binding)
    ensures ForeignCapability(s, b, id) <==> id in s.capabilities && TheirBinding(s, b, s.capabilities[id].body.binding)
  {}

  predicate TheirBinding(s: Snapshot, b: Batch, id: Id) { id in s.bindings && s.bindings[id].body.path.source != b.header.source }
}
