/** Checks on a batch before its post-state is staged, and the order in which they may refuse it. */
module Batches {
  import opened Errors
  import opened Graphs
  import opened Freshness
  import opened Records
  import opened Lineage
  import opened Resolver
  import opened Snapshots
  import opened Publication

  // ---------------------------------------------------------------- structure

  predicate NoRetiredUpserts(b: Batch) {
    && (forall k :: k in b.sources ==> b.sources[k].body.state == SourceCurrent)
    && (forall id :: id in b.bindings ==> b.bindings[id].body.state != BindingRetired)
  }

  predicate NoFencedUpserts(b: Batch) {
    forall id :: id in b.bindings ==> b.bindings[id].body.state != BindingFenced
  }

  function UpsertShapes(b: Batch): set<Err> {
    (set k, e | k in b.sources && e in SourceShape(b.sources[k]) :: e)
    + (set k, e | k in b.bindings && e in BindingShape(b.bindings[k]) :: e)
    + (set k, e | k in b.links && e in LinkShape(b.links[k]) :: e)
    + (set k, e | k in b.facts && e in CandidateShape(k, b.facts[k]) :: e)
    + (set k, e | k in b.services && e in ServiceShape(b.services[k]) :: e)
    + (set k, e | k in b.capabilities && e in CapabilityShape(b.capabilities[k]) :: e)
    + (set k, e | k in b.fences && e in FenceShape(k, b.fences[k]) :: e)
  }

  function BatchShape(b: Batch, m: Mono): set<Err> {
    When(!Positive(b.header.generation) || !Positive(b.sequence), InvalidIdentifier)
    + When(b.expected >= TWO64, InvalidValue)
    + When(!ValidPoint(b.observedAt) || !ValidMono(m), InvalidTime)
    + When(|b.facts| > MAX_STAGED_NODES || |b.factWithdrawals| > MAX_NODES, BoundsExceeded)
    + When(!NoRetiredUpserts(b), StaleSourceEpoch) + When(!NoFencedUpserts(b), StaleDriverGeneration)
    + UpsertShapes(b)
  }

  /** Every owner the batch spells out is the header's own. */
  predicate HeaderOwned(asset: Id, b: Batch) {
    && b.asset == asset
    && (forall k :: k in b.sources ==> k.source == b.header.source)
    && (forall id :: id in b.bindings ==> b.bindings[id].body.asset == b.asset && b.bindings[id].body.path == b.header)
    && (forall k :: k in b.fences ==> SameEpoch(k, b.header))
    && (forall id :: id in b.links ==> b.links[id].body.asset == b.asset)
    && (forall id :: id in b.facts && IsObserved(b.facts[id]) ==> SuppliedOwned(b, b.facts[id].body))
    && (forall id :: id in b.services ==>
          b.services[id].body.asset == b.asset && OnPath(b.services[id].body.epoch, b.services[id].body.generation, b.header))
    && (forall id :: id in b.capabilities ==>
          b.capabilities[id].body.asset == b.asset && OnPath(b.capabilities[id].body.epoch, b.capabilities[id].body.generation, b.header))
  }

  predicate SuppliedOwned(b: Batch, v: Candidate) {
    && (v.originSource.Some? ==> v.originSource.value == b.header.source)
    && (v.epoch.Some? ==> v.epoch.value == b.header.epoch)
    && (v.generation.Some? ==> v.generation.value == b.header.generation)
  }

  function StructureErrors(h: Hooks, asset: Id, b: Batch, m: Mono): set<Err> {
    h.syntax(b, m) + BatchShape(b, m) + When(!HeaderOwned(asset, b), InvalidValue)
  }

  // ---------------------------------------------------------------- ownership already on record

  predicate Foreign(s: Snapshot, b: Batch, id: Id) {
    id in s.bindings && s.bindings[id].body.path.source != b.header.source
  }

  predicate ForeignCandidate(s: Snapshot, b: Batch, id: Id) {
    id in s.facts && IsObserved(s.facts[id]) && s.facts[id].body.binding.Some? && Foreign(s, b, s.facts[id].body.binding.value)
  }

  predicate ForeignService(s: Snapshot, b: Batch, id: Id) { id in s.services && Foreign(s, b, s.services[id].body.binding) }

  predicate ForeignCapability(s: Snapshot, b: Batch, id: Id) { id in s.capabilities && Foreign(s, b, s.capabilities[id].body.binding) }

  /** Some operation touches an object that another source is known to own. */
  predicate TouchesForeign(s: Snapshot, b: Batch) {
    || (exists id :: id in b.links && Foreign(s, b, id))
    || (exists id :: id in b.facts && IsObserved(b.facts[id]) && b.facts[id].body.binding.Some? && Foreign(s, b, b.facts[id].body.binding.value))
    || (exists id :: id in b.facts && ForeignCandidate(s, b, id))
    || (exists id :: id in b.factWithdrawals && ForeignCandidate(s, b, id))
    || (exists id :: id in b.services && (Foreign(s, b, b.services[id].body.binding) || ForeignService(s, b, id)))
    || (exists id :: id in b.serviceWithdrawals && ForeignService(s, b, id))
    || (exists id :: id in b.capabilities && (Foreign(s, b, b.capabilities[id].body.binding) || ForeignCapability(s, b, id)))
    || (exists id :: id in b.capabilityWithdrawals && ForeignCapability(s, b, id))
  }

  function OwnershipErrors(s: Snapshot, b: Batch): set<Err> { When(TouchesForeign(s, b), InvalidValue) }

  // ---------------------------------------------------------------- sequence

  predicate HeaderFenced(s: Snapshot, b: Batch) { b.header in s.cursors && s.cursors[b.header].fenced }

  /** A newer generation of the header's epoch has already published. */
  predicate Regressed(s: Snapshot, b: Batch) {
    exists k :: k in s.cursors && SameEpoch(k, b.header) && b.header.generation < k.generation
  }

  /** Errors of a batch that claims to be the next of its cursor. */
  function OrderErrors(h: Hooks, s: Snapshot, b: Batch): set<Err> {
    When(HeaderFenced(s, b) || Regressed(s, b), StaleDriverGeneration)
    + When(b.header !in s.cursors && b.sequence != 1, SequenceConflict)
    + When(h.digestOf(b) != b.digest, DigestMismatch)
    + When(b.expected != s.revisions.semantic, RevisionConflict)
  }
}
