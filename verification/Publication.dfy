/**
 * One publication step as a function: the post-state of a batch and the set of
 * error classes it raises.  All checks of one batch are collected, whatever
 * order they are made in; the step succeeds when the set is empty.
 */
module Publication {
  import opened Errors
  import opened Graphs
  import opened Freshness
  import opened Records
  import opened Lineage
  import opened Resolver
  import opened Closure
  import opened Snapshots
  import opened Transition

  const MAX_RETAINED: nat := 32

  // ---------------------------------------------------------------- shared checks

  /** An upsert leaves the object alone, or changes its content at exactly the next revision. */
  predicate RevisionStep<T(==)>(old_: Versioned<T>, next: Versioned<T>) {
    old_ == next || (old_.body != next.body && next.revision == old_.revision + 1)
  }

  /** The batch acts for this path: its own generation, one it fences, or one in an epoch it retires. */
  predicate Covered(b: Batch, path: CursorKey) {
    path.source == b.header.source && (path == b.header || path in b.fences || path.epoch in b.retirements)
  }

  function LifecycleOrValue(v: Binding): Err {
    if v.state != BindingCurrent then LifecycleError(v) else InvalidValue
  }

  /** The binding an object already rests on must be current and the header's own. */
  function PriorErrors(b: Batch, bindings: Bindings, id: Id): set<Err> {
    if id !in bindings then {DanglingReference}
    else if bindings[id].body.path.source != b.header.source then {InvalidValue}
    else if bindings[id].body.state != BindingCurrent then {LifecycleError(bindings[id].body)}
    else When(bindings[id].body.path != b.header, InvalidValue)
  }

  // ---------------------------------------------------------------- sources and generations

  predicate IsCurrent(sources: Sources, k: SourceKey) {
    k in sources && sources[k].body.state == SourceCurrent
  }

  predicate Retiring(b: Batch, k: SourceKey) { k.source == b.header.source && k.epoch in b.retirements }

  predicate RetirementsCurrent(s: Snapshot, b: Batch) {
    forall e :: e in b.retirements ==> IsCurrent(s.sources, SourceKey(b.header.source, e))
  }

  /** Any other current epoch of the header's source is being retired. */
  predicate OtherEpochsRetire(s: Snapshot, b: Batch) {
    forall k :: k in s.sources && OtherEpoch(s, b, k) ==> k.epoch in b.retirements
  }

  predicate OtherEpoch(s: Snapshot, b: Batch, k: SourceKey) {
    IsCurrent(s.sources, k) && k.source == b.header.source && k.epoch != b.header.epoch
  }

  predicate HeaderEpochOpen(s: Snapshot, b: Batch) {
    SourceOf(b.header) in s.sources ==> s.sources[SourceOf(b.header)].body.state == SourceCurrent
  }

  predicate SourceUpsertsOpen(s: Snapshot, b: Batch) {
    forall k :: k in b.sources && k in s.sources ==> SourceUpsertOpen(s, b, k)
  }

  /** The epoch is still current, and a changed profile goes with its retirement for another epoch. */
  predicate SourceUpsertOpen(s: Snapshot, b: Batch, k: SourceKey)
    requires k in b.sources && k in s.sources
  {
    && s.sources[k].body.state == SourceCurrent
    && (s.sources[k].body.profile != b.sources[k].body.profile ==> Retiring(b, k) && k.epoch != b.header.epoch)
  }

  predicate SourceUpsertsStep(s: Snapshot, b: Batch) {
    forall k :: k in b.sources && k in s.sources ==> RevisionStep(s.sources[k], b.sources[k])
  }

  function StagedSources(s: Snapshot, b: Batch): Sources { s.sources + b.sources }

  function RetireSource(v: Versioned<Source>): Versioned<Source> {
    Versioned(v.body.(state := SourceRetired), v.revision + 1)
  }

  function NextSources(s: Snapshot, b: Batch): Sources {
    map k | k in StagedSources(s, b) ::
      if Retiring(b, k) then RetireSource(StagedSources(s, b)[k]) else StagedSources(s, b)[k]
  }

  function SourceErrors(s: Snapshot, b: Batch): set<Err> {
    When(!(RetirementsCurrent(s, b) && OtherEpochsRetire(s, b) && HeaderEpochOpen(s, b) && SourceUpsertsOpen(s, b)), StaleSourceEpoch)
    + When(!SourceUpsertsStep(s, b), RevisionConflict)
    + When(SourceOf(b.header) !in StagedSources(s, b), DanglingReference)
  }

  predicate SameEpoch(a: CursorKey, b: CursorKey) { SourceOf(a) == SourceOf(b) }

  /** No open generation of the header's epoch is newer than the header. */
  predicate GenerationNotStale(s: Snapshot, b: Batch) {
    forall k :: k in s.cursors && SameEpoch(k, b.header) && !s.cursors[k].fenced ==> k.generation <= b.header.generation
  }

  /** Every older open generation of the header's epoch is fenced by this batch. */
  predicate OlderGenerationsFenced(s: Snapshot, b: Batch) {
    forall k :: k in s.cursors && SameEpoch(k, b.header) && !s.cursors[k].fenced && k.generation < b.header.generation ==> k in b.fences
  }

  predicate FencesKnown(s: Snapshot, b: Batch) { forall k :: k in b.fences ==> k in s.cursors }

  predicate FencesNew(s: Snapshot, b: Batch) {
    forall k :: k in b.fences && k in s.cursors ==> NewFence(s, b, k)
  }

  predicate NewFence(s: Snapshot, b: Batch, k: CursorKey)
    requires k in s.cursors
  {
    !s.cursors[k].fenced && k !in s.fences && k.generation <= b.header.generation
  }

  /** A batch that fences its own generation publishes nothing on it. */
  predicate HeaderGenerationOpen(b: Batch) {
    b.header in b.fences ==> b.bindings == map[] && b.links == map[] && b.services == map[] && b.capabilities == map[]
  }

  function GenerationErrors(s: Snapshot, b: Batch): set<Err> {
    When(!(GenerationNotStale(s, b) && FencesNew(s, b) && HeaderGenerationOpen(b)), StaleDriverGeneration)
    + When(!OlderGenerationsFenced(s, b), GenerationTransitionIncomplete)
    + When(!FencesKnown(s, b), DanglingReference)
  }

  function NewFences(s: Snapshot, b: Batch): Fences { map k | k in b.fences && k in s.cursors :: b.fences[k] }

  function NextFences(s: Snapshot, b: Batch): Fences { s.fences + NewFences(s, b) }

  function FencedCursors(s: Snapshot, b: Batch): Cursors {
    map k | k in s.cursors :: if k in b.fences then s.cursors[k].(fenced := true) else s.cursors[k]
  }

  function NextCursors(s: Snapshot, b: Batch): Cursors {
    FencedCursors(s, b)[b.header := Cursor(b.sequence, b.digest, b.header in b.fences)]
  }

  // ---------------------------------------------------------------- transitions

  function Before(s: Snapshot): Objects { Objects(s.bindings, s.links, s.services, s.capabilities) }

  function FenceHits(s: Snapshot, b: Batch): Affected {
    map id | id in s.bindings && s.bindings[id].body.path in NewFences(s, b) :: NewFences(s, b)[s.bindings[id].body.path].evidence
  }

  function AfterFences(s: Snapshot, b: Batch): Objects { Transitioned(Before(s), BindingFenced, FenceHits(s, b)) }

  function RetireHits(s: Snapshot, b: Batch): Affected {
    map id | id in AfterFences(s, b).bindings
             && Retiring(b, SourceOf(AfterFences(s, b).bindings[id].body.path))
             && SourceOf(AfterFences(s, b).bindings[id].body.path) in StagedSources(s, b) :: {}
  }

  /** Fences first, then retirements: retirement is the stronger final state. */
  function Moved(s: Snapshot, b: Batch): Objects { Transitioned(AfterFences(s, b), BindingRetired, RetireHits(s, b)) }

  function MoveErrors(s: Snapshot, b: Batch): set<Err> {
    TransitionErrors(Before(s), FenceHits(s, b)) + TransitionErrors(AfterFences(s, b), RetireHits(s, b))
  }

  // ---------------------------------------------------------------- bindings and links

  function NextBindings(s: Snapshot, b: Batch): Bindings { Moved(s, b).bindings + b.bindings }

  predicate SameBinding(x: Binding, y: Binding) {
    x.asset == y.asset && x.path == y.path && x.resource == y.resource
  }

  function BindingErrorsOf(s: Snapshot, b: Batch, id: Id): set<Err>
    requires id in b.bindings
  {
    var key := SourceOf(b.bindings[id].body.path);
    (if key !in NextSources(s, b) then {DanglingReference}
     else When(NextSources(s, b)[key].body.state != SourceCurrent, StaleSourceEpoch))
    + (if id !in Moved(s, b).bindings then {} else
         var existing := Moved(s, b).bindings[id];
         (if existing.body.state != BindingCurrent then {LifecycleError(existing.body)} else {})
         + When(!SameBinding(existing.body, b.bindings[id].body), IdentityNotQualified)
         + When(!RevisionStep(existing, b.bindings[id]), RevisionConflict))
  }

  function BindingErrors(s: Snapshot, b: Batch): set<Err> {
    set id, e | id in b.bindings && e in BindingErrorsOf(s, b, id) :: e
  }

  function NextLinks(s: Snapshot, b: Batch): Links {
    Moved(s, b).links + map id | id in b.links && id in NextBindings(s, b) :: b.links[id]
  }

  function LinkErrorsOf(s: Snapshot, b: Batch, id: Id): set<Err>
    requires id in b.links
  {
    (if id in s.bindings then PriorErrors(b, Moved(s, b).bindings, id) else {})
    + (if id !in NextBindings(s, b) then {DanglingReference} else
         var binding := NextBindings(s, b)[id].body;
         (if b.links[id].body.asset != b.asset || binding.path != b.header || binding.state != BindingCurrent
          then {LifecycleOrValue(binding)} else {})
         + (if id !in Moved(s, b).links then {} else
              var existing := Moved(s, b).links[id];
              (if existing.body.state == LinkWithdrawn then {LifecycleError(binding)} else {})
              + When(!RevisionStep(existing, b.links[id]), RevisionConflict)))
  }

  function LinkErrors(s: Snapshot, b: Batch): set<Err> {
    set id, e | id in b.links && e in LinkErrorsOf(s, b, id) :: e
  }

  // ---------------------------------------------------------------- facts

  function ObservedForBatch(s: Snapshot, b: Batch, v: Candidate): set<Err> {
    When(v.originSource != Some(b.header.source) || v.epoch != Some(b.header.epoch) || v.generation != Some(b.header.generation), InvalidValue)
    + (if v.binding.None? then {MissingMember}
       else if v.binding.value !in NextBindings(s, b) then {DanglingReference}
       else
         var binding := NextBindings(s, b)[v.binding.value].body;
         When(binding.path != b.header, InvalidValue)
         + (if binding.state != BindingCurrent then {LifecycleError(binding)} else {}))
  }

  /** The observation was made through a binding of this source. */
  predicate OwnObservation(s: Snapshot, b: Batch, v: Candidate) {
    v.binding.Some? && v.binding.value in s.bindings && s.bindings[v.binding.value].body.path.source == b.header.source
  }

  function FactErrorsOf(h: Hooks, s: Snapshot, b: Batch, id: Id): set<Err>
    requires id in b.facts
  {
    h.fact(b.facts[id].body)
    + (if IsObserved(b.facts[id]) then ObservedForBatch(s, b, b.facts[id].body) else {})
    + (if id !in s.facts then {} else
         When(IsObserved(s.facts[id]) && !OwnObservation(s, b, s.facts[id].body), InvalidValue)
         + When(!RevisionStep(s.facts[id], b.facts[id]), RevisionConflict))
  }

  function RetainedUnder(s: Snapshot, id: Id): set<RetainedKey> {
    set k | k in s.retained && k.candidate == id
  }

  /** A retained record may be withdrawn by the source it came from, once its binding is no longer current. */
  predicate RetainedWithdrawable(s: Snapshot, b: Batch, v: Candidate) {
    && v.binding.Some? && v.binding.value in NextBindings(s, b)
    && NextBindings(s, b)[v.binding.value].body.path.source == b.header.source
    && NextBindings(s, b)[v.binding.value].body.state != BindingCurrent
  }

  /** The withdrawn observation is about to be retained by this very batch. */
  predicate Overlaps(b: Batch, v: Candidate) {
    && v.epoch.Some? && v.generation.Some?
    && (CursorKey(b.header.source, v.epoch.value, v.generation.value) in b.fences || v.epoch.value in b.retirements)
  }

  function FactWithdrawalErrorsOf(s: Snapshot, b: Batch, id: Id): set<Err> {
    if id !in s.facts && RetainedUnder(s, id) == {} then {DanglingReference} else
    (if id in s.facts && IsObserved(s.facts[id]) then
       var v := s.facts[id].body;
       When(Overlaps(b, v) || !(v.binding.Some? && v.binding.value in s.bindings && Covered(b, s.bindings[v.binding.value].body.path)), InvalidValue)
     else {})
    + When(exists k :: k in s.retained && k.candidate == id && !RetainedWithdrawable(s, b, s.retained[k].record.body), InvalidValue)
  }

  /** Some new candidate finds the staging limit already reached. */
  predicate Overfull(s: Snapshot, b: Batch) {
    |s.facts + b.facts| > MAX_STAGED_NODES && !(b.facts.Keys <= s.facts.Keys)
  }

  function FactErrors(h: Hooks, s: Snapshot, b: Batch): set<Err> {
    (set id, e | id in b.facts && e in FactErrorsOf(h, s, b, id) :: e)
    + When(Overfull(s, b), BoundsExceeded)
    + (set id, e | id in b.factWithdrawals && e in FactWithdrawalErrorsOf(s, b, id) :: e)
  }

  predicate FactWithdrawn(s: Snapshot, b: Batch, id: Id) {
    id in b.factWithdrawals && (id in s.facts || RetainedUnder(s, id) != {})
  }

  function StagedFacts(s: Snapshot, b: Batch): Candidates {
    map id | id in s.facts + b.facts && !FactWithdrawn(s, b, id) :: (s.facts + b.facts)[id]
  }

  ghost function NextFacts(s: Snapshot, b: Batch): Candidates {
    if |StagedFacts(s, b)| > MAX_STAGED_NODES then StagedFacts(s, b)
    else Kept(StagedFacts(s, b), b.facts.Keys, NextBindings(s, b))
  }

  ghost function GraphErrors(s: Snapshot, b: Batch): set<Err> {
    if |StagedFacts(s, b)| > MAX_STAGED_NODES then {BoundsExceeded}
    else ClosureErrors(StagedFacts(s, b), b.facts.Keys, NextBindings(s, b))
  }

  // ---------------------------------------------------------------- services and capabilities

  predicate OnPath(epoch: Id, generation: nat, path: CursorKey) { path.epoch == epoch && path.generation == generation }

  function ServiceErrorsOf(h: Hooks, s: Snapshot, b: Batch, id: Id): set<Err>
    requires id in b.services
  {
    var v := b.services[id].body;
    h.service(v)
    + (if id !in s.services then {} else
         var existing := s.services[id];
         PriorErrors(b, Moved(s, b).bindings, existing.body.binding)
         + (if existing.body.availability != Withdrawn then {}
            else if existing.body.binding in Moved(s, b).bindings then {LifecycleError(Moved(s, b).bindings[existing.body.binding].body)}
            else {StaleDriverGeneration})
         + When(!RevisionStep(existing, b.services[id]), RevisionConflict))
    + (if v.binding !in NextBindings(s, b) then {DanglingReference} else
         var binding := NextBindings(s, b)[v.binding].body;
         When(!OnPath(v.epoch, v.generation, binding.path), DanglingReference)
         + (if v.asset != b.asset || binding.path.source != b.header.source
               || !OnPath(v.epoch, v.generation, b.header) || binding.state != BindingCurrent
            then {LifecycleOrValue(binding)} else {}))
  }

  function StagedServices(s: Snapshot, b: Batch): Services {
    Moved(s, b).services + map id | id in b.services && b.services[id].body.binding in NextBindings(s, b) :: b.services[id]
  }

  function NextServices(s: Snapshot, b: Batch): Services {
    map id | id in StagedServices(s, b) ::
      if id in b.serviceWithdrawals && id in s.services then WithdrawService(StagedServices(s, b)[id]) else StagedServices(s, b)[id]
  }

  function ServiceWithdrawalErrorsOf(s: Snapshot, b: Batch, id: Id): set<Err> {
    if id !in s.services then {DanglingReference} else
    var v := s.services[id].body;
    When(!(v.binding in s.bindings && OnPath(v.epoch, v.generation, s.bindings[v.binding].body.path)
           && Covered(b, s.bindings[v.binding].body.path)), InvalidValue)
  }

  function ServiceErrors(h: Hooks, s: Snapshot, b: Batch): set<Err> {
    (set id, e | id in b.services && e in ServiceErrorsOf(h, s, b, id) :: e)
    + (set id, e | id in b.serviceWithdrawals && e in ServiceWithdrawalErrorsOf(s, b, id) :: e)
  }

  /** The service as it stood before the batch, or as the batch introduces it. */
  predicate ServiceGone(s: Snapshot, b: Batch, id: Id)
    requires id in NextServices(s, b)
  {
    (if id in s.services then s.services[id] else NextServices(s, b)[id]).body.availability == Withdrawn
  }

  function CapabilityErrorsOf(h: Hooks, s: Snapshot, b: Batch, id: Id): set<Err>
    requires id in b.capabilities
  {
    var v := b.capabilities[id].body;
    h.capability(v)
    + (if id !in s.capabilities then {} else
         var existing := s.capabilities[id];
         PriorErrors(b, Moved(s, b).bindings, existing.body.binding)
         + (if existing.body.availability != Withdrawn then {}
            else if existing.body.binding in Moved(s, b).bindings then {LifecycleError(Moved(s, b).bindings[existing.body.binding].body)}
            else {StaleDriverGeneration})
         + When(!RevisionStep(existing, b.capabilities[id]), RevisionConflict))
    + (if v.binding !in NextBindings(s, b) then {DanglingReference} else
         var binding := NextBindings(s, b)[v.binding].body;
         When(binding.path.source != b.header.source, InvalidValue)
         + (if v.service !in NextServices(s, b) then {DanglingReference} else
              When(!OnPath(v.epoch, v.generation, binding.path) || NextServices(s, b)[v.service].body.binding != v.binding, DanglingReference)
              + (if v.asset != b.asset || binding.path.source != b.header.source || !OnPath(v.epoch, v.generation, b.header)
                    || binding.state != BindingCurrent || ServiceGone(s, b, v.service)
                 then {LifecycleOrValue(binding)} else {})))
  }

  function StagedCapabilities(s: Snapshot, b: Batch): Capabilities {
    Moved(s, b).capabilities
    + map id | id in b.capabilities && b.capabilities[id].body.binding in NextBindings(s, b)
               && b.capabilities[id].body.service in NextServices(s, b) :: b.capabilities[id]
  }

  function NextCapabilities(s: Snapshot, b: Batch): Capabilities {
    map id | id in StagedCapabilities(s, b) ::
      if id in b.capabilityWithdrawals && id in s.capabilities then WithdrawCapability(StagedCapabilities(s, b)[id])
      else StagedCapabilities(s, b)[id]
  }

  function CapabilityWithdrawalErrorsOf(s: Snapshot, b: Batch, id: Id): set<Err> {
    if id !in s.capabilities then {DanglingReference} else
    var v := s.capabilities[id].body;
    When(!(v.binding in s.bindings && OnPath(v.epoch, v.generation, s.bindings[v.binding].body.path)
           && Covered(b, s.bindings[v.binding].body.path)), InvalidValue)
  }

  function CapabilityErrors(h: Hooks, s: Snapshot, b: Batch): set<Err> {
    (set id, e | id in b.capabilities && e in CapabilityErrorsOf(h, s, b, id) :: e)
    + (set id, e | id in b.capabilityWithdrawals && e in CapabilityWithdrawalErrorsOf(s, b, id) :: e)
  }

  // ---------------------------------------------------------------- retention

  /** An observation of the old state whose binding this batch leaves non-current. */
  predicate Displaced(s: Snapshot, b: Batch, id: Id) {
    && id in s.facts && id !in b.factWithdrawals && IsObserved(s.facts[id])
    && s.facts[id].body.binding.Some? && s.facts[id].body.binding.value in NextBindings(s, b)
    && NextBindings(s, b)[s.facts[id].body.binding.value].body.state != BindingCurrent
  }

  function RemovalOf(s: Snapshot, b: Batch, id: Id): Removal
    requires Displaced(s, b, id)
  {
    if NextBindings(s, b)[s.facts[id].body.binding.value].body.state == BindingRetired then ByRetirement else ByFence
  }

  function NewlyRetained(s: Snapshot, b: Batch): RetainedRecords {
    map id | id in s.facts && Displaced(s, b, id) :: Identity(id, s.facts[id]) := Retained(s.facts[id], RemovalOf(s, b, id))
  }

  /** What the withdrawals leave of the retained records. */
  function KeptRetained(s: Snapshot, b: Batch): RetainedRecords {
    map k | k in s.retained && k.candidate !in b.factWithdrawals :: s.retained[k]
  }

  function StagedRetained(s: Snapshot, b: Batch): RetainedRecords { KeptRetained(s, b) + NewlyRetained(s, b) }

  function AgeOf(r: Retained, c: Context): Timed {
    EvaluateFreshness(r.record.body.times, r.record.body.policy, c)
  }

  function NextRetained(s: Snapshot, b: Batch, m: Mono): RetainedRecords {
    map k | k in StagedRetained(s, b) && AgeOf(StagedRetained(s, b)[k], Context(b.observedAt, m)) != Ok(Expired) :: StagedRetained(s, b)[k]
  }

  function RetentionErrors(s: Snapshot, b: Batch, m: Mono): set<Err> {
    When(exists id :: id in s.facts && Displaced(s, b, id) && !HasIdentity(s.facts[id].body), InvalidValue)
    + When(exists k :: k in StagedRetained(s, b) && AgeOf(StagedRetained(s, b)[k], Context(b.observedAt, m)).Failed?, InvalidTime)
    + When(|NextRetained(s, b, m)| > MAX_RETAINED, BoundsExceeded)
  }

  predicate HasIdentity(v: Candidate) { v.binding.Some? && v.epoch.Some? && v.generation.Some? }

  // ---------------------------------------------------------------- envelopes and revisions

  function FactKeys(facts: Candidates): set<Id> { set id | id in facts :: facts[id].body.key }

  function EnvelopeRevision(s: Snapshot, facts: Candidates, key: Id): nat {
    if key !in s.envelopes then 1
    else if Group(s.facts, key) == Group(facts, key) && s.envelopes[key].conflict == DeriveConflict(Group(facts, key))
    then s.envelopes[key].revision else s.envelopes[key].revision + 1
  }

  function RebuildEnvelopes(s: Snapshot, facts: Candidates): Envelopes {
    map key | key in FactKeys(facts) :: Envelope(DeriveConflict(Group(facts, key)), EnvelopeRevision(s, facts, key))
  }

  /** One revision step for an existing object whose content changed, however many operations changed it. */
  function NormalizedRevision<T(==)>(old_: Versioned<T>, next: T): nat {
    if old_.body == next then old_.revision else old_.revision + 1
  }

  function Normalize<K(==), T(==)>(before: map<K, Versioned<T>>, after: map<K, Versioned<T>>): map<K, Versioned<T>> {
    map k | k in after ::
      if k in before then Versioned(after[k].body, NormalizedRevision(before[k], after[k].body)) else after[k]
  }

  ghost function Content(s: Snapshot, b: Batch, m: Mono): Snapshot {
    s.(at := b.observedAt, mono := m,
       sources := Normalize(s.sources, NextSources(s, b)),
       bindings := Normalize(s.bindings, NextBindings(s, b)),
       links := Normalize(s.links, NextLinks(s, b)),
       facts := NextFacts(s, b),
       envelopes := RebuildEnvelopes(s, NextFacts(s, b)),
       retained := NextRetained(s, b, m),
       services := Normalize(s.services, NextServices(s, b)),
       capabilities := Normalize(s.capabilities, NextCapabilities(s, b)),
       fences := NextFences(s, b),
       cursors := NextCursors(s, b))
  }

  predicate IdentityChanged(s: Snapshot, t: Snapshot) {
    s.sources != t.sources || s.bindings != t.bindings || s.links != t.links || s.fences != t.fences
  }

  predicate FactsChanged(s: Snapshot, t: Snapshot) {
    s.facts != t.facts || s.envelopes != t.envelopes || s.retained != t.retained
  }

  function Bump(changed: bool, revision: nat): nat { if changed then revision + 1 else revision }

  function NextRevisions(s: Snapshot, t: Snapshot, first: bool): Revisions {
    if first then Revisions(1, 1, 1, 1, 1)
    else Revisions(s.revisions.semantic + 1,
                   Bump(IdentityChanged(s, t), s.revisions.identity),
                   Bump(FactsChanged(s, t), s.revisions.facts),
                   Bump(s.services != t.services, s.revisions.services),
                   Bump(s.capabilities != t.capabilities, s.revisions.capabilities))
  }

  // ---------------------------------------------------------------- content checks

  predicate WithinLimits(t: Snapshot) {
    && |t.sources| <= 32 && |t.bindings| <= 128 && |t.links| <= 128 && |t.envelopes| <= 4096
    && |t.retained| <= MAX_RETAINED && |t.services| <= 1024 && |t.capabilities| <= 2048
    && |t.fences| <= 128 && |t.cursors| <= 128
  }

  predicate OneCurrentEpoch(t: Snapshot) {
    forall j, k :: j in t.sources && k in t.sources && IsCurrent(t.sources, j) && IsCurrent(t.sources, k) && j.source == k.source ==> j == k
  }

  /** A capability names a service on its own binding, not withdrawn before it. */
  predicate CapabilityHasService(t: Snapshot, id: Id)
    requires id in t.capabilities
  {
    var c := t.capabilities[id].body;
    && c.service in t.services && t.services[c.service].body.binding == c.binding
    && (c.availability != Withdrawn ==> t.services[c.service].body.availability != Withdrawn)
  }

  function RecordErrors(t: Snapshot): set<Err> {
    (set k, e | k in t.sources && e in SourceShape(t.sources[k]) :: e)
    + (set k, e | k in t.bindings && e in BindingShape(t.bindings[k]) :: e)
    + (set k, e | k in t.links && e in LinkShape(t.links[k]) :: e)
    + (set k, e | k in t.facts && e in CandidateShape(k, t.facts[k]) :: e)
    + (set k, e | k in t.envelopes && e in EnvelopeShape(t.facts, k, t.envelopes[k]) :: e)
    + (set k, e | k in t.retained && e in CandidateShape(k.candidate, t.retained[k].record) :: e)
    + (set k, e | k in t.services && e in ServiceShape(t.services[k]) :: e)
    + (set k, e | k in t.capabilities && e in CapabilityShape(t.capabilities[k]) :: e)
  }

  function ContentErrors(t: Snapshot): set<Err> {
    When(!WithinLimits(t), BoundsExceeded) + When(!OneCurrentEpoch(t), StaleSourceEpoch) + RecordErrors(t)
    + When(exists id :: id in t.capabilities && !CapabilityHasService(t, id), DanglingReference)
  }

  // ---------------------------------------------------------------- the step

  /** The complete staged snapshot of a batch. */
  ghost function Staged(s: Snapshot, b: Batch, m: Mono, first: bool): Snapshot {
    Content(s, b, m).(revisions := NextRevisions(s, Content(s, b, m), first))
  }

  ghost function StepErrors(h: Hooks, s: Snapshot, b: Batch, m: Mono, first: bool): set<Err> {
    SourceErrors(s, b) + GenerationErrors(s, b) + MoveErrors(s, b) + BindingErrors(s, b) + LinkErrors(s, b)
    + FactErrors(h, s, b) + ServiceErrors(h, s, b) + CapabilityErrors(h, s, b) + GraphErrors(s, b)
    + RetentionErrors(s, b, m) + ContentErrors(Staged(s, b, m, first)) + RevisionsShape(Staged(s, b, m, first).revisions)
  }
}
