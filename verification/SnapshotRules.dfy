/** When a snapshot is valid, rule by rule and without error classes; the ranked validation is proved equivalent. */
module SnapshotRules {
  import opened Graphs
  import opened Freshness
  import opened Decimals
  import opened Records
  import opened Lineage
  import opened Closure
  import opened Snapshots
  import opened Publication
  import opened Validity
  import opened Lifecycle

  // ---------------------------------------------------------------- single records

  predicate Counts(n: nat) { 1 <= n < 0x1_0000_0000_0000_0000 }

  /** Wall readings fit 64 bits signed, uncertainties and monotonic readings 64 bits unsigned. */
  predicate PointFits(p: TimePoint) {
    -0x8000_0000_0000_0000 <= p.unix <= 0x7fff_ffff_ffff_ffff && p.uncertainty < 0x1_0000_0000_0000_0000
  }

  predicate TimesFit(t: Times) {
    && PointFits(t.receivedAt) && PointFits(t.evaluatedAt) && t.receipt.ns < 0x1_0000_0000_0000_0000 && t.evaluate.ns < 0x1_0000_0000_0000_0000
    && !(t.receipt.epoch == t.evaluate.epoch && t.evaluate.ns < t.receipt.ns)
  }

  /** A fact is fresh for a while, kept for longer, and both spans fit 64 bits. */
  predicate PolicyFits(p: Policy) {
    && 0 < p.freshFor && p.freshFor < p.retainFor && p.retainFor < 0x1_0000_0000_0000_0000 && p.maxUncertainty < 0x1_0000_0000_0000_0000
  }

  lemma TimesExact(t: Times, p: Policy, c: Context)
    ensures (ValidTimes(t) <==> TimesFit(t)) && (ValidPolicy(p) <==> PolicyFits(p))
    ensures ValidContext(c) <==> PointFits(c.at) && c.mono.ns < 0x1_0000_0000_0000_0000
  {}

  /** An observation has a path and no derivation, an inference a derivation and no path. */
  predicate OriginFits(v: Candidate) {
    if v.quality.assertion == Observed
    then v.derivation.None? && v.binding.Some? && v.epoch.Some? && v.generation.Some? && Counts(v.generation.value)
    else v.derivation.Some? && v.binding.None? && v.epoch.None? && v.generation.None?
  }

  /** A derivation names 1 to 32 different other candidates, each with 1 to 32 paths. */
  predicate InputsFit(id: Id, inputs: seq<Input>) {
    && 1 <= |inputs| <= 32
    && (forall i :: 0 <= i < |inputs| ==> 1 <= |inputs[i].paths| <= 32 && Counts(inputs[i].revision) && inputs[i].candidate != id)
    && (forall i, j :: 0 <= i < j < |inputs| ==> inputs[i].candidate != inputs[j].candidate)
  }

  predicate CandidateFits(id: Id, v: Versioned<Candidate>) {
    var c := v.body;
    && Counts(v.revision) && OriginFits(c) && (c.derivation.Some? ==> InputsFit(id, c.derivation.value))
    && TimesFit(c.times) && PolicyFits(c.policy) && 1 <= |c.evidence| <= 32
    && (c.value.Some? ==> ValidValue(c.value.value))
    && (c.value.Some? <==> c.quality.qualification !in {Unsupported, QualificationRejected} && c.quality.availability != Withdrawn)
  }

  lemma InputsExact(id: Id, inputs: seq<Input>)
    ensures InputsShape(id, inputs) == {} <==> InputsFit(id, inputs)
  {}

  lemma OriginExact(v: Candidate)
    ensures (if v.quality.assertion == Observed then ObservedShape(v) else InferredShape(v)) == {} && (v.generation.Some? ==> Positive(v.generation.value))
            <==> OriginFits(v)
  {}

  lemma CandidateExact(id: Id, v: Versioned<Candidate>)
    ensures CandidateShape(id, v) == {} <==> CandidateFits(id, v)
  {
    hide InputsShape, InputsFit, ObservedShape, InferredShape, OriginFits, ValidTimes, ValidPolicy, TimesFit, PolicyFits;
    var c := v.body;
    TimesExact(c.times, c.policy, Context(TimePoint(0, 0, 0), Mono(0, 0)));
    OriginExact(c);
    if c.derivation.Some? { InputsExact(id, c.derivation.value); }
  }

  predicate LinkFits(v: Versioned<Link>) { Counts(v.revision) && 1 <= |v.body.basis| <= 32 }

  predicate EnvelopeFits(facts: Candidates, key: Id, e: Envelope) {
    && Counts(e.revision) && 1 <= |Group(facts, key)| <= 32 && e.conflict == DeriveConflict(Group(facts, key))
    && (e.conflict.Some? ==> 2 <= |e.conflict.value.candidates| <= 32 && 1 <= |e.conflict.value.evidence| <= 1024)
  }

  // ---------------------------------------------------------------- collections

  predicate RecordsFit(t: Snapshot) {
    && (forall k :: k in t.sources ==> Counts(t.sources[k].revision))
    && (forall k :: k in t.bindings ==> Counts(t.bindings[k].revision) && Counts(t.bindings[k].body.path.generation))
    && (forall k :: k in t.links ==> LinkFits(t.links[k]))
    && (forall k :: k in t.facts ==> CandidateFits(k, t.facts[k]))
    && (forall k :: k in t.envelopes ==> EnvelopeFits(t.facts, k, t.envelopes[k]))
    && (forall k :: k in t.retained ==> CandidateFits(k.candidate, t.retained[k].record))
    && (forall k :: k in t.services ==> Counts(t.services[k].revision) && Counts(t.services[k].body.generation))
    && (forall k :: k in t.capabilities ==> Counts(t.capabilities[k].revision) && Counts(t.capabilities[k].body.generation))
  }

  predicate SizesFit(t: Snapshot) {
    && |t.sources| <= 32 && |t.bindings| <= 128 && |t.links| <= 128 && |t.envelopes| <= 4096 && |t.retained| <= 32
    && |t.services| <= 1024 && |t.capabilities| <= 2048 && |t.fences| <= 128 && |t.cursors| <= 128
  }

  /** One current epoch at most for each source; a capability's service is there, on its binding, withdrawn only with it. */
  predicate EpochsAndServices(t: Snapshot) {
    && (forall j, k :: j in t.sources && k in t.sources && j.source == k.source && j.epoch != k.epoch ==>
          t.sources[j].body.state == SourceRetired || t.sources[k].body.state == SourceRetired)
    && (forall id :: id in t.capabilities ==>
          var c := t.capabilities[id].body;
          && c.service in t.services && t.services[c.service].body.binding == c.binding
          && (t.services[c.service].body.availability == Withdrawn ==> c.availability == Withdrawn))
  }

  lemma ShapesExact(t: Snapshot)
    ensures RecordErrors(t) == {} <==>
            && (forall k :: k in t.sources ==> SourceShape(t.sources[k]) == {})
            && (forall k :: k in t.bindings ==> BindingShape(t.bindings[k]) == {})
            && (forall k :: k in t.links ==> LinkShape(t.links[k]) == {})
            && (forall k :: k in t.facts ==> CandidateShape(k, t.facts[k]) == {})
            && (forall k :: k in t.envelopes ==> EnvelopeShape(t.facts, k, t.envelopes[k]) == {})
            && (forall k :: k in t.retained ==> CandidateShape(k.candidate, t.retained[k].record) == {})
            && (forall k :: k in t.services ==> ServiceShape(t.services[k]) == {})
            && (forall k :: k in t.capabilities ==> CapabilityShape(t.capabilities[k]) == {})
  {
    hide SourceShape, BindingShape, LinkShape, CandidateShape, EnvelopeShape, ServiceShape, CapabilityShape;
    if RecordErrors(t) == {} {
      forall k | k in t.sources ensures SourceShape(t.sources[k]) == {} { assert forall e :: e in SourceShape(t.sources[k]) ==> e in RecordErrors(t); }
      forall k | k in t.bindings ensures BindingShape(t.bindings[k]) == {} { assert forall e :: e in BindingShape(t.bindings[k]) ==> e in RecordErrors(t); }
      forall k | k in t.links ensures LinkShape(t.links[k]) == {} { assert forall e :: e in LinkShape(t.links[k]) ==> e in RecordErrors(t); }
      forall k | k in t.facts ensures CandidateShape(k, t.facts[k]) == {} {
        assert forall e :: e in CandidateShape(k, t.facts[k]) ==> e in RecordErrors(t);
      }
      forall k | k in t.envelopes ensures EnvelopeShape(t.facts, k, t.envelopes[k]) == {} {
        assert forall e :: e in EnvelopeShape(t.facts, k, t.envelopes[k]) ==> e in RecordErrors(t);
      }
      forall k | k in t.retained ensures CandidateShape(k.candidate, t.retained[k].record) == {} {
        assert forall e :: e in CandidateShape(k.candidate, t.retained[k].record) ==> e in RecordErrors(t);
      }
      forall k | k in t.services ensures ServiceShape(t.services[k]) == {} { assert forall e :: e in ServiceShape(t.services[k]) ==> e in RecordErrors(t); }
      forall k | k in t.capabilities ensures CapabilityShape(t.capabilities[k]) == {} {
        assert forall e :: e in CapabilityShape(t.capabilities[k]) ==> e in RecordErrors(t);
      }
    }
  }

  lemma SmallShapes()
    ensures forall v :: SourceShape(v) == {} <==> Counts(v.revision)
    ensures forall v :: BindingShape(v) == {} <==> Counts(v.revision) && Counts(v.body.path.generation)
    ensures forall v :: LinkShape(v) == {} <==> LinkFits(v)
    ensures forall v :: ServiceShape(v) == {} <==> Counts(v.revision) && Counts(v.body.generation)
    ensures forall v :: CapabilityShape(v) == {} <==> Counts(v.revision) && Counts(v.body.generation)
  {
    forall v: Versioned<Link> ensures LinkShape(v) == {} <==> LinkFits(v) {
      assert v.body.basis == {} <==> |v.body.basis| == 0;
    }
  }

  lemma EnvelopeExact(facts: Candidates, key: Id, e: Envelope)
    ensures EnvelopeShape(facts, key, e) == {} <==> EnvelopeFits(facts, key, e)
  {
    hide DeriveConflict, Group;
  }

  lemma RecordsExact(t: Snapshot)
    ensures RecordErrors(t) == {} <==> RecordsFit(t)
  {
    hide RecordErrors, SourceShape, BindingShape, LinkShape, CandidateShape, EnvelopeShape, ServiceShape, CapabilityShape, LinkFits, CandidateFits,
         EnvelopeFits, Counts;
    ShapesExact(t);
    SmallShapes();
    forall id, v ensures CandidateShape(id, v) == {} <==> CandidateFits(id, v) { CandidateExact(id, v); }
    forall k, e ensures EnvelopeShape(t.facts, k, e) == {} <==> EnvelopeFits(t.facts, k, e) { EnvelopeExact(t.facts, k, e); }
  }

  predicate ContentFits(t: Snapshot) { SizesFit(t) && EpochsAndServices(t) && RecordsFit(t) }

  lemma EpochsExact(t: Snapshot)
    ensures OneCurrentEpoch(t) && (forall id :: id in t.capabilities ==> CapabilityHasService(t, id)) <==> EpochsAndServices(t)
  {}

  lemma ContentExact(t: Snapshot)
    ensures ContentErrors(t) == {} <==> ContentFits(t)
  {
    hide RecordErrors, RecordsFit, OneCurrentEpoch, CapabilityHasService, EpochsAndServices;
    RecordsExact(t);
    EpochsExact(t);
  }

  // ---------------------------------------------------------------- lifecycle and graph

  predicate PathsFit(t: Snapshot) {
    && (forall k :: k in t.fences ==> SourceOf(k) in t.sources && k in t.cursors)
    && (forall k :: k in t.cursors ==> SourceOf(k) in t.sources && (t.cursors[k].fenced <==> k in t.fences))
    && (forall k :: k in t.sources ==> exists c :: c in t.cursors && c.source == k.source && c.epoch == k.epoch)
    && (forall j, k :: j in t.cursors && k in t.cursors && SourceOf(j) == SourceOf(k) && j.generation != k.generation ==>
          t.cursors[j].fenced || t.cursors[k].fenced || (SourceOf(j) in t.sources && t.sources[SourceOf(j)].body.state == SourceRetired))
  }

  /** Each binding is of the asset, on a known path, and in the one state that path allows. */
  predicate BindingFits(t: Snapshot, v: Binding) {
    && v.asset == t.asset && SourceOf(v.path) in t.sources && v.path in t.cursors
    && match v.state
       case BindingCurrent => t.sources[SourceOf(v.path)].body.state == SourceCurrent && !t.cursors[v.path].fenced
       case BindingFenced => v.path in t.fences
       case BindingRetired => t.sources[SourceOf(v.path)].body.state == SourceRetired
  }

  predicate OnCurrent(t: Snapshot, binding: Id) { binding in t.bindings && t.bindings[binding].body.state == BindingCurrent }

  /** Links, services and capabilities are of the asset and their binding's path, and live only while it is current. */
  predicate DependentsFit(t: Snapshot) {
    && (forall id :: id in t.links ==> id in t.bindings && t.links[id].body.asset == t.asset && (OnCurrent(t, id) || t.links[id].body.state == LinkWithdrawn))
    && (forall id :: id in t.services ==>
          var v := t.services[id].body;
          && v.asset == t.asset && v.binding in t.bindings && v.epoch == t.bindings[v.binding].body.path.epoch
          && v.generation == t.bindings[v.binding].body.path.generation && (OnCurrent(t, v.binding) || v.availability == Withdrawn))
    && (forall id :: id in t.capabilities ==>
          var v := t.capabilities[id].body;
          && v.asset == t.asset && v.binding in t.bindings && v.epoch == t.bindings[v.binding].body.path.epoch
          && v.generation == t.bindings[v.binding].body.path.generation && (OnCurrent(t, v.binding) || v.availability == Withdrawn))
  }

  /** A retained record is an observation through a binding that is no longer current, removed for a reason that path shows. */
  predicate RetainedFits(t: Snapshot, r: Retained) {
    var v := r.record.body;
    && v.quality.assertion == Observed && v.binding.Some? && v.epoch.Some? && v.generation.Some? && v.originSource.Some?
    && v.binding.value in t.bindings && t.bindings[v.binding.value].body.path == CursorKey(v.originSource.value, v.epoch.value, v.generation.value)
    && t.bindings[v.binding.value].body.state != BindingCurrent
    && (r.removal == ByFence ==> t.bindings[v.binding.value].body.path in t.fences)
    && (r.removal == ByRetirement ==> t.bindings[v.binding.value].body.state == BindingRetired)
  }

  predicate LifecycleFits(t: Snapshot) {
    && PathsFit(t) && (forall id :: id in t.bindings ==> BindingFits(t, t.bindings[id].body)) && DependentsFit(t)
    && (forall k :: k in t.retained ==> RetainedFits(t, t.retained[k]))
  }

  lemma CursorsCover(t: Snapshot)
    ensures SourcesHaveCursor(t) <==> forall k :: k in t.sources ==> exists c :: c in t.cursors && c.source == k.source && c.epoch == k.epoch
  {
    forall k ensures HasCursor(t, k) <==> exists c :: c in t.cursors && c.source == k.source && c.epoch == k.epoch {
      if c :| c in t.cursors && c.source == k.source && c.epoch == k.epoch { assert SourceOf(c) == k; }
      if c :| c in t.cursors && SourceOf(c) == k { assert c.source == k.source; }
    }
  }

  lemma OpenExact(t: Snapshot)
    requires forall k :: k in t.cursors ==> SourceOf(k) in t.sources
    ensures OneOpenGeneration(t) <==>
            forall j, k :: j in t.cursors && k in t.cursors && SourceOf(j) == SourceOf(k) && j.generation != k.generation ==>
              t.cursors[j].fenced || t.cursors[k].fenced || t.sources[SourceOf(j)].body.state == SourceRetired
  {
    if OneOpenGeneration(t) {
      forall j, k | j in t.cursors && k in t.cursors && SourceOf(j) == SourceOf(k) && j.generation != k.generation
        ensures t.cursors[j].fenced || t.cursors[k].fenced || t.sources[SourceOf(j)].body.state == SourceRetired {
        if !t.cursors[j].fenced && !t.cursors[k].fenced && t.sources[SourceOf(j)].body.state == SourceCurrent { OneOpen(t, j, k); }
      }
    } else {
      var j, k :| j in t.cursors && k in t.cursors && OpenHere(t, j) && OpenHere(t, k) && SameEpoch(j, k) && j != k;
      assert j.generation != k.generation;
    }
  }

  lemma PathsExact(t: Snapshot)
    ensures FencesOk(t) && CursorsOk(t) && OneOpenGeneration(t) && SourcesHaveCursor(t) <==> PathsFit(t)
  {
    hide OneOpenGeneration, SourcesHaveCursor;
    CursorsCover(t);
    if forall k :: k in t.cursors ==> SourceOf(k) in t.sources { OpenExact(t); }
  }

  lemma OneOpen(t: Snapshot, j: CursorKey, k: CursorKey)
    requires OneOpenGeneration(t) && j in t.cursors && k in t.cursors && OpenHere(t, j) && OpenHere(t, k) && SameEpoch(j, k)
    ensures j == k
  {}

  lemma BindingFitsExact(t: Snapshot, v: Binding)
    ensures BindingOk(t, v) <==> BindingFits(t, v)
  {}

  lemma DependentsExact(t: Snapshot)
    requires EpochsAndServices(t)
    ensures LinksOk(t) && ServicesOk(t) && CapabilitiesOk(t) <==> DependentsFit(t)
  {
    forall id | id in t.links ensures LinkOk(t, id, t.links[id].body) <==>
      id in t.bindings && t.links[id].body.asset == t.asset && (OnCurrent(t, id) || t.links[id].body.state == LinkWithdrawn) {}
    if LinksOk(t) && ServicesOk(t) && CapabilitiesOk(t) {
      forall id | id in t.services ensures ServiceOk(t, t.services[id].body) {}
      forall id | id in t.capabilities ensures CapabilityOk(t, t.capabilities[id].body) {}
    }
    if DependentsFit(t) {
      forall id | id in t.capabilities ensures CapabilityOk(t, t.capabilities[id].body) {
        assert t.capabilities[id].body.service in t.services;
      }
    }
  }

  lemma RetainedExact(t: Snapshot, r: Retained)
    requires forall id :: id in t.bindings ==> BindingFits(t, t.bindings[id].body)
    ensures RetainedOk(t, r) <==> RetainedFits(t, r)
  {
    hide DependentsFit;
    if r.record.body.binding.Some? && r.record.body.binding.value in t.bindings {
      assert BindingFits(t, t.bindings[r.record.body.binding.value].body);
    }
  }

  lemma LifecycleExact(t: Snapshot)
    requires EpochsAndServices(t)
    ensures LifecycleErrors(t) == {} <==> LifecycleFits(t)
  {
    hide FencesOk, CursorsOk, OneOpenGeneration, LinksOk, ServicesOk, CapabilitiesOk, SourcesHaveCursor, PathsFit, DependentsFit, RetainedOk, RetainedFits,
         BindingOk, BindingFits, EpochsAndServices;
    PathsExact(t);
    DependentsExact(t);
    forall id | id in t.bindings ensures BindingOk(t, t.bindings[id].body) <==> BindingFits(t, t.bindings[id].body) {
      BindingFitsExact(t, t.bindings[id].body);
    }
    if forall id :: id in t.bindings ==> BindingFits(t, t.bindings[id].body) {
      forall k | k in t.retained ensures RetainedOk(t, t.retained[k]) <==> RetainedFits(t, t.retained[k]) { RetainedExact(t, t.retained[k]); }
    }
    RetainedSplit(t);
  }

  lemma RetainedSplit(t: Snapshot)
    ensures AllRetainedOk(t) <==>
            && (forall k :: k in t.retained ==> IsObserved(t.retained[k].record) && HasPath(t.retained[k].record.body))
            && !exists k :: k in t.retained && IsObserved(t.retained[k].record) && HasPath(t.retained[k].record.body) && !RetainedOk(t, t.retained[k])
  {}

  predicate KeysFit(t: Snapshot) {
    && (forall k :: k in t.fences ==> Counts(k.generation) && Counts(t.fences[k].revision) && 1 <= |t.fences[k].evidence| <= 32)
    && (forall k :: k in t.cursors ==> Counts(k.generation) && Counts(t.cursors[k].lastSequence))
    && PointFits(t.at) && t.mono.ns < 0x1_0000_0000_0000_0000
    && Counts(t.revisions.semantic) && Counts(t.revisions.identity) && Counts(t.revisions.facts) && Counts(t.revisions.services)
    && Counts(t.revisions.capabilities)
  }

  lemma FenceAndCursorShapes()
    ensures forall k, f :: FenceShape(k, f) == {} <==> Counts(k.generation) && Counts(f.revision) && 1 <= |f.evidence| <= 32
    ensures forall k, c :: CursorShape(k, c) == {} <==> Counts(k.generation) && Counts(c.lastSequence)
  {}

  lemma KeyShapesEmpty(t: Snapshot)
    ensures KeyShapes(t) == {} <==>
            && (forall k :: k in t.fences ==> FenceShape(k, t.fences[k]) == {}) && (forall k :: k in t.cursors ==> CursorShape(k, t.cursors[k]) == {})
            && ValidPoint(t.at) && ValidMono(t.mono)
  {
    hide FenceShape, CursorShape, ValidPoint, ValidMono;
    if KeyShapes(t) == {} {
      forall k | k in t.fences ensures FenceShape(k, t.fences[k]) == {} { assert forall e :: e in FenceShape(k, t.fences[k]) ==> e in KeyShapes(t); }
      forall k | k in t.cursors ensures CursorShape(k, t.cursors[k]) == {} { assert forall e :: e in CursorShape(k, t.cursors[k]) ==> e in KeyShapes(t); }
    }
  }

  lemma KeysExact(t: Snapshot)
    ensures KeyShapes(t) == {} && RevisionsShape(t.revisions) == {} <==> KeysFit(t)
  {
    hide KeyShapes, FenceShape, CursorShape;
    KeyShapesEmpty(t);
    FenceAndCursorShapes();
  }

  /** Every fact is grounded in the current bindings, and there are not too many. */
  ghost predicate FactsGrounded(t: Snapshot) {
    |t.facts| <= 4096 && forall id :: id in t.facts ==> Survives(t.facts, t.bindings, id)
  }

  lemma GroundedExact(t: Snapshot)
    requires ContentFits(t)
    ensures GraphFaults(t) == {} <==> FactsGrounded(t)
  {
    hide ContentFits, ContentErrors, ObservedAreLeaves, Survives, ClosureErrors;
    ContentExact(t);
    PublishedLeaves(t);
    ClosureExact(t.facts, t.facts.Keys, t.bindings);
    if forall id :: id in t.facts ==> Survives(t.facts, t.bindings, id) { AllSurvive(t.facts, t.bindings); }
  }

  lemma AllSurvive(c: Candidates, bindings: Bindings)
    requires forall id :: id in c ==> Survives(c, bindings, id)
    ensures Survivors(c, bindings) == c
  {
    hide Survives;
  }

  ghost predicate ValidRules(t: Snapshot) { KeysFit(t) && ContentFits(t) && LifecycleFits(t) && FactsGrounded(t) }

  /** A snapshot passes validation exactly when it keeps all these rules. */
  lemma ValidIff(t: Snapshot)
    ensures ValidateErrors(t) == {} <==> ValidRules(t)
  {
    hide KeysFit, ContentFits, LifecycleFits, FactsGrounded, RevisionsShape, KeyShapes, ContentErrors, LifecycleErrors, GraphFaults;
    KeysExact(t);
    ContentExact(t);
    if ContentFits(t) {
      assert EpochsAndServices(t) by { FitEpochs(t); }
      LifecycleExact(t);
      GroundedExact(t);
    }
  }

  lemma FitEpochs(t: Snapshot)
    requires ContentFits(t)
    ensures EpochsAndServices(t)
  {
    hide SizesFit, RecordsFit, EpochsAndServices;
  }
}
