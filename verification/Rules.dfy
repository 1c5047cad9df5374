/**
 * When a batch is acceptable, as one list of rules over the published snapshot
 * and the batch alone: no staging order, no intermediate maps, no error classes.
 * Whether the kernel accepts is proved equivalent to these rules.
 */
module Rules {
  import opened Errors
  import opened Graphs
  import opened Freshness
  import opened Records
  import opened Lineage
  import opened Resolver
  import opened Closure
  import opened Snapshots
  import opened Transition
  import opened Publication
  import opened Validity
  import opened Batches
  import opened Lifecycle
  import opened Effects

  /** The same record again, or other content at exactly the next revision. */
  predicate Supersedes<T(==)>(next: Versioned<T>, old_: Versioned<T>) {
    next == old_ || (next.body != old_.body && next.revision == old_.revision + 1)
  }

  lemma StepIsSuccession<T>(old_: Versioned<T>, next: Versioned<T>)
    ensures RevisionStep(old_, next) <==> Supersedes(next, old_)
  {}

  /** The binding, as the batch leaves it, is current and of the header's own generation. */
  predicate OpenAfter(s: Snapshot, b: Batch, id: Id) {
    (id in s.bindings || id in b.bindings) && BindingEffect(s, b, id).state == BindingCurrent && BindingEffect(s, b, id).path == b.header
  }

  // ---------------------------------------------------------------- sources and generations

  /** Retire current epochs only, leave no other epoch current, change a profile only with its epoch. */
  predicate SourcesRule(s: Snapshot, b: Batch) {
    && (forall e :: e in b.retirements ==> SourceKey(b.header.source, e) in s.sources && s.sources[SourceKey(b.header.source, e)].body.state == SourceCurrent)
    && (forall k :: k in s.sources && s.sources[k].body.state == SourceCurrent && k.source == b.header.source ==>
          k.epoch == b.header.epoch || k.epoch in b.retirements)
    && (SourceOf(b.header) in s.sources || SourceOf(b.header) in b.sources)
    && (SourceOf(b.header) in s.sources ==> s.sources[SourceOf(b.header)].body.state == SourceCurrent)
    && (forall k :: k in b.sources && k in s.sources ==>
          && s.sources[k].body.state == SourceCurrent && Supersedes(b.sources[k], s.sources[k])
          && (b.sources[k].body.profile == s.sources[k].body.profile || (k.source == b.header.source && k.epoch in b.retirements && k.epoch != b.header.epoch)))
  }

  lemma SourcesExact(s: Snapshot, b: Batch)
    ensures SourceErrors(s, b) == {} <==> SourcesRule(s, b)
    ensures SourcesRule(s, b) ==> SourcesPass(s, b)
  {
    hide RevisionStep, Supersedes;
    forall k | k in b.sources && k in s.sources ensures RevisionStep(s.sources[k], b.sources[k]) <==> Supersedes(b.sources[k], s.sources[k]) {
      StepIsSuccession(s.sources[k], b.sources[k]);
    }
  }

  /** Every older open generation of the epoch is fenced, none is newer, and each fence closes an open generation. */
  predicate GenerationsRule(s: Snapshot, b: Batch) {
    && (forall k :: k in s.cursors && k.source == b.header.source && k.epoch == b.header.epoch && !s.cursors[k].fenced ==>
          k.generation == b.header.generation || (k.generation < b.header.generation && k in b.fences))
    && (forall k :: k in b.fences ==> k in s.cursors && !s.cursors[k].fenced && k !in s.fences && k.generation <= b.header.generation)
    && (b.header in b.fences ==> b.bindings == map[] && b.links == map[] && b.services == map[] && b.capabilities == map[])
  }

  lemma GenerationsExact(s: Snapshot, b: Batch)
    ensures GenerationErrors(s, b) == {} <==> GenerationsRule(s, b)
    ensures GenerationsRule(s, b) ==> GenerationsPass(s, b)
  {}

  /** The link of a fenced binding has room for the fence's evidence. */
  predicate ClosingRule(s: Snapshot, b: Batch) {
    forall id :: id in s.links && Shut(s, b, id) ==> |s.links[id].body.basis + FenceEvidence(s, b, id)| <= MAX_EVIDENCE
  }

  predicate Fenced(s: Snapshot, b: Batch, id: Id) { id in s.bindings && s.bindings[id].body.path in b.fences }

  lemma FenceHitsAre(s: Snapshot, b: Batch, id: Id)
    requires GenerationsPass(s, b)
    ensures id in FenceHits(s, b) <==> Fenced(s, b, id)
    ensures id in FenceHits(s, b) ==> FenceHits(s, b)[id] == FenceEvidence(s, b, id)
  {
    hide GenerationNotStale, OlderGenerationsFenced, FencesNew;
  }

  lemma UnionGrows<T>(a: set<T>, e: set<T>)
    ensures |a| <= |a + e|
  {
    SubsetCard(a, a + e);
  }

  lemma FencePhase(s: Snapshot, b: Batch)
    requires GenerationsPass(s, b) && forall id :: id in s.links ==> 1 <= |s.links[id].body.basis| <= MAX_EVIDENCE
    ensures TransitionErrors(Before(s), FenceHits(s, b)) == {} <==>
            forall id :: id in s.links && Fenced(s, b, id) ==> |s.links[id].body.basis + FenceEvidence(s, b, id)| <= MAX_EVIDENCE
  {
    hide GenerationsPass, FenceHits, FenceEvidence, Fenced;
    forall id ensures id in FenceHits(s, b) <==> Fenced(s, b, id)
      ensures id in FenceHits(s, b) ==> FenceHits(s, b)[id] == FenceEvidence(s, b, id) {
      FenceHitsAre(s, b, id);
    }
    forall id | id in s.links ensures 1 <= |s.links[id].body.basis + FenceEvidence(s, b, id)| {
      UnionGrows(s.links[id].body.basis, FenceEvidence(s, b, id));
    }
  }

  lemma RetirePhase(s: Snapshot, b: Batch)
    requires forall id :: id in s.links ==> 1 <= |s.links[id].body.basis| <= MAX_EVIDENCE
    ensures TransitionErrors(AfterFences(s, b), RetireHits(s, b)) == {}
  {
    hide FenceHits, HitBindings, HitServices, HitCapabilities, Retiring, StagedSources;
    var o := AfterFences(s, b);
    forall id | id in RetireHits(s, b) ensures Completes(o.links, RetireHits(s, b), id) {
      if id in o.links { assert o.links[id].body.basis + {} == o.links[id].body.basis; }
    }
  }

  lemma ClosingExact(s: Snapshot, b: Batch)
    requires GenerationsPass(s, b) && forall id :: id in s.links ==> 1 <= |s.links[id].body.basis| <= MAX_EVIDENCE
    ensures MoveErrors(s, b) == {} <==> ClosingRule(s, b)
  {
    hide GenerationsPass, TransitionErrors, FenceHits, RetireHits, AfterFences, Retiring;
    FencePhase(s, b);
    RetirePhase(s, b);
    forall id | id in s.links && !Fenced(s, b, id) ensures |s.links[id].body.basis + FenceEvidence(s, b, id)| <= MAX_EVIDENCE {
      assert s.links[id].body.basis + FenceEvidence(s, b, id) == s.links[id].body.basis;
    }
  }

  // ---------------------------------------------------------------- bindings and links

  /** An upserted binding opens on a generation that stays open; an existing one is current, stays open and keeps its identity. */
  predicate BindingAllowed(s: Snapshot, b: Batch, id: Id)
    requires id in b.bindings
  {
    && !Retiring(b, SourceOf(b.header))
    && (id in s.bindings ==>
          && s.bindings[id].body.state == BindingCurrent && !Closes(b, s.bindings[id].body.path) && Supersedes(b.bindings[id], s.bindings[id])
          && s.bindings[id].body.asset == b.bindings[id].body.asset && s.bindings[id].body.path == b.bindings[id].body.path
          && s.bindings[id].body.resource == b.bindings[id].body.resource)
  }

  predicate BindingsRule(s: Snapshot, b: Batch) { forall id :: id in b.bindings ==> BindingAllowed(s, b, id) }

  lemma UntouchedBinding(s: Snapshot, b: Batch, id: Id)
    requires id in s.bindings && !Hit(s, b, s.bindings[id].body.path)
    ensures id in Moved(s, b).bindings && Moved(s, b).bindings[id] == s.bindings[id]
  {
    hide HitLinks, HitServices, HitCapabilities, NewFences, Retiring, StagedSources;
  }

  lemma BindingExact(s: Snapshot, b: Batch, id: Id)
    requires SourcesPass(s, b) && GenerationsPass(s, b) && HeaderOwned(s.asset, b) && NoRetiredUpserts(b) && id in b.bindings
    ensures BindingErrorsOf(s, b, id) == {} <==> BindingAllowed(s, b, id)
  {
    hide NextSources, Moved, GenerationsPass, NewFences, RetiresPath, Retiring, RevisionStep, Supersedes, Hit, Closes, HeaderOwned;
    assert b.bindings[id].body.path == b.header by { OwnedPath(s, b, id); }
    HeaderState(s, b);
    MovedKeys(s, b);
    if id in s.bindings {
      var path := s.bindings[id].body.path;
      MovedBinding(s, b, id);
      HitsClose(s, b, path);
      if Closes(b, path) { ClosedState(s, b, s.bindings[id].body); } else { UntouchedBinding(s, b, id); }
      StepIsSuccession(s.bindings[id], b.bindings[id]);
    }
  }

  lemma ClosedState(s: Snapshot, b: Batch, v: Binding)
    requires Hit(s, b, v.path)
    ensures MovedState(s, b, v) != BindingCurrent
  {
    hide NewFences, Retiring, StagedSources;
  }

  lemma OwnedPath(s: Snapshot, b: Batch, id: Id)
    requires HeaderOwned(s.asset, b) && id in b.bindings
    ensures b.bindings[id].body.path == b.header && b.bindings[id].body.asset == b.asset == s.asset
  {}

  lemma HeaderState(s: Snapshot, b: Batch)
    requires SourcesPass(s, b) && NoRetiredUpserts(b)
    ensures SourceOf(b.header) in NextSources(s, b)
    ensures NextSources(s, b)[SourceOf(b.header)].body.state == SourceCurrent <==> !Retiring(b, SourceOf(b.header))
  {
    hide NextSources, NoRetiredUpserts, RetirementsCurrent, OtherEpochsRetire, SourceUpsertsOpen, SourceUpsertsStep, StagedSources;
    HeaderSource(s, b);
    SourceAfter(s, b, SourceOf(b.header));
  }

  lemma BindingsExact(s: Snapshot, b: Batch)
    requires SourcesPass(s, b) && GenerationsPass(s, b) && HeaderOwned(s.asset, b) && NoRetiredUpserts(b)
    ensures BindingErrors(s, b) == {} <==> BindingsRule(s, b)
  {
    hide BindingErrorsOf, BindingAllowed, SourcesPass, GenerationsPass, HeaderOwned, NoRetiredUpserts;
    forall id | id in b.bindings ensures BindingErrorsOf(s, b, id) == {} <==> BindingAllowed(s, b, id) {
      BindingExact(s, b, id);
    }
    if BindingErrors(s, b) == {} {
      forall id | id in b.bindings ensures BindingErrorsOf(s, b, id) == {} { NoBindingErrors(s, b, id); }
    }
  }

  /** What the batch leaves of a binding is what its closed form says, and current only if nothing closes it. */
  lemma AfterBinding(s: Snapshot, b: Batch, id: Id)
    requires SourcesPass(s, b) && GenerationsPass(s, b) && BindingsPass(s, b)
    ensures id in NextBindings(s, b) <==> id in s.bindings || id in b.bindings
    ensures id in NextBindings(s, b) ==> NextBindings(s, b)[id].body == BindingEffect(s, b, id)
    ensures id in s.bindings ==> id in Moved(s, b).bindings && BindingEffect(s, b, id).path == s.bindings[id].body.path
    ensures id in s.bindings ==> Moved(s, b).bindings[id].body.path == s.bindings[id].body.path
    ensures id in s.bindings ==> Moved(s, b).bindings[id].body.state == BindingEffect(s, b, id).state
    ensures id in s.bindings ==>
              (BindingEffect(s, b, id).state == BindingCurrent <==> s.bindings[id].body.state == BindingCurrent && !Shut(s, b, id))
  {
    hide SourcesPass, GenerationsPass, BindingErrors, HeaderOwned, NextBindings, BindingEffect, Hit, Closes, Moved, NoRetiredUpserts, NoFencedUpserts;
    NextBindingKeys(s, b);
    if id in s.bindings || id in b.bindings { BindingMoved(s, b, id); }
    if id in s.bindings {
      MovedKeys(s, b);
      MovedBinding(s, b, id);
      BindingFrom(s, b, id);
      HitsClose(s, b, s.bindings[id].body.path);
      StateAfter(s, b, s.bindings[id].body);
    }
  }

  lemma NextBindingKeys(s: Snapshot, b: Batch)
    ensures NextBindings(s, b).Keys == s.bindings.Keys + b.bindings.Keys
  {
    hide Moved;
    MovedKeys(s, b);
  }

  lemma StateAfter(s: Snapshot, b: Batch, v: Binding)
    ensures MovedState(s, b, v) == BindingCurrent <==> v.state == BindingCurrent && !Hit(s, b, v.path)
  {
    hide NewFences, Retiring, StagedSources;
  }

  /** A link is put on a binding of the header's open generation; an existing one is not withdrawn. */
  predicate LinkAllowed(s: Snapshot, b: Batch, id: Id)
    requires id in b.links
  {
    && OpenAfter(s, b, id) && b.links[id].body.asset == b.asset
    && (id in s.links ==> s.links[id].body.state != LinkWithdrawn && Supersedes(b.links[id], s.links[id]))
  }

  predicate LinksRule(s: Snapshot, b: Batch) { forall id :: id in b.links ==> LinkAllowed(s, b, id) }

  lemma UntouchedLink(s: Snapshot, b: Batch, id: Id)
    requires id in s.links && id in s.bindings && !Hit(s, b, s.bindings[id].body.path)
    ensures id in Moved(s, b).links && Moved(s, b).links[id] == s.links[id]
  {
    hide HitServices, HitCapabilities, NewFences, Retiring, StagedSources, BasisFits;
  }

  lemma LinkExact(s: Snapshot, b: Batch, id: Id)
    requires SourcesPass(s, b) && GenerationsPass(s, b) && BindingsPass(s, b) && MoveErrors(s, b) == {} && LinksOk(s) && id in b.links
    ensures LinkErrorsOf(s, b, id) == {} <==> LinkAllowed(s, b, id)
  {
    hide SourcesPass, GenerationsPass, BindingsPass, NextBindings, BindingEffect, Moved, MoveErrors, RevisionStep, Supersedes, Hit, Closes;
    AfterBinding(s, b, id);
    MovedKeys(s, b);
    if id in s.links {
      assert LinkOk(s, id, s.links[id].body);
      HitsClose(s, b, s.bindings[id].body.path);
      MovedLink(s, b, id);
      if !Shut(s, b, id) { UntouchedLink(s, b, id); }
      StepIsSuccession(s.links[id], b.links[id]);
    }
  }

  lemma LinksExact(s: Snapshot, b: Batch)
    requires SourcesPass(s, b) && GenerationsPass(s, b) && BindingsPass(s, b) && MoveErrors(s, b) == {} && LinksOk(s)
    ensures LinkErrors(s, b) == {} <==> LinksRule(s, b)
  {
    hide LinkErrorsOf, LinkAllowed, SourcesPass, GenerationsPass, BindingsPass, MoveErrors, LinksOk;
    forall id | id in b.links ensures LinkErrorsOf(s, b, id) == {} <==> LinkAllowed(s, b, id) { LinkExact(s, b, id); }
    if LinkErrors(s, b) == {} {
      forall id | id in b.links ensures LinkErrorsOf(s, b, id) == {} { NoLinkErrors(s, b, id); }
    }
  }

  // ---------------------------------------------------------------- services and capabilities

  /** The object already rests on the header's own generation, which stays open. */
  predicate HeldOpen(s: Snapshot, b: Batch, binding: Id) {
    binding in s.bindings && s.bindings[binding].body.state == BindingCurrent && s.bindings[binding].body.path == b.header && !Closes(b, b.header)
  }

  lemma PriorExact(s: Snapshot, b: Batch, binding: Id)
    requires SourcesPass(s, b) && GenerationsPass(s, b) && BindingsPass(s, b)
    ensures PriorErrors(b, Moved(s, b).bindings, binding) == {} <==> HeldOpen(s, b, binding)
  {
    hide SourcesPass, GenerationsPass, BindingsPass, NextBindings, BindingEffect, Moved, Closes;
    AfterBinding(s, b, binding);
    MovedKeys(s, b);
  }

  predicate ServiceAllowed(h: Hooks, s: Snapshot, b: Batch, id: Id)
    requires id in b.services
  {
    var v := b.services[id].body;
    && h.service(v) == {} && OpenAfter(s, b, v.binding) && v.asset == b.asset && v.epoch == b.header.epoch && v.generation == b.header.generation
    && (id in s.services ==>
          s.services[id].body.availability != Withdrawn && HeldOpen(s, b, s.services[id].body.binding) && Supersedes(b.services[id], s.services[id]))
  }

  lemma ServiceExact(h: Hooks, s: Snapshot, b: Batch, id: Id)
    requires SourcesPass(s, b) && GenerationsPass(s, b) && BindingsPass(s, b) && id in b.services
    ensures ServiceErrorsOf(h, s, b, id) == {} <==> ServiceAllowed(h, s, b, id)
  {
    hide SourcesPass, GenerationsPass, BindingsPass, NextBindings, BindingEffect, Moved, RevisionStep, Supersedes, PriorErrors, HeldOpen, Shut;
    AfterBinding(s, b, b.services[id].body.binding);
    if id in s.services {
      PriorExact(s, b, s.services[id].body.binding);
      StepIsSuccession(s.services[id], b.services[id]);
    }
  }

  /** Withdrawn by its own generation, or by the batch that closes it. */
  predicate MayWithdraw(s: Snapshot, b: Batch, binding: Id) {
    && binding in s.bindings && s.bindings[binding].body.path.source == b.header.source
    && (s.bindings[binding].body.path == b.header || Closes(b, s.bindings[binding].body.path))
  }

  lemma CoveredExact(s: Snapshot, b: Batch, binding: Id)
    requires binding in s.bindings
    ensures Covered(b, s.bindings[binding].body.path) <==> MayWithdraw(s, b, binding)
  {}

  predicate ServicesRule(h: Hooks, s: Snapshot, b: Batch) {
    && (forall id :: id in b.services ==> ServiceAllowed(h, s, b, id))
    && (forall id :: id in b.serviceWithdrawals ==> id in s.services && MayWithdraw(s, b, s.services[id].body.binding))
  }

  lemma ServiceWithdrawalExact(s: Snapshot, b: Batch, id: Id)
    requires ServicesOk(s)
    ensures ServiceWithdrawalErrorsOf(s, b, id) == {} <==> id in s.services && MayWithdraw(s, b, s.services[id].body.binding)
  {
    hide Covered, MayWithdraw;
    if id in s.services {
      assert ServiceOk(s, s.services[id].body);
      CoveredExact(s, b, s.services[id].body.binding);
    }
  }

  lemma ServicesExact(h: Hooks, s: Snapshot, b: Batch)
    requires SourcesPass(s, b) && GenerationsPass(s, b) && BindingsPass(s, b) && ServicesOk(s)
    ensures ServiceErrors(h, s, b) == {} <==> ServicesRule(h, s, b)
  {
    hide ServiceErrorsOf, ServiceWithdrawalErrorsOf, ServiceAllowed, MayWithdraw, SourcesPass, GenerationsPass, BindingsPass, ServicesOk;
    forall id | id in b.services ensures ServiceErrorsOf(h, s, b, id) == {} <==> ServiceAllowed(h, s, b, id) { ServiceExact(h, s, b, id); }
    forall id | id in b.serviceWithdrawals
      ensures ServiceWithdrawalErrorsOf(s, b, id) == {} <==> id in s.services && MayWithdraw(s, b, s.services[id].body.binding) {
      ServiceWithdrawalExact(s, b, id);
    }
    ServiceErrorsEmpty(h, s, b);
  }

  lemma ServiceErrorsEmpty(h: Hooks, s: Snapshot, b: Batch)
    ensures ServiceErrors(h, s, b) == {} <==>
            && (forall id :: id in b.services ==> ServiceErrorsOf(h, s, b, id) == {})
            && (forall id :: id in b.serviceWithdrawals ==> ServiceWithdrawalErrorsOf(s, b, id) == {})
  {
    hide ServiceErrorsOf, ServiceWithdrawalErrorsOf;
    if ServiceErrors(h, s, b) == {} {
      forall id | id in b.services ensures ServiceErrorsOf(h, s, b, id) == {} {
        assert forall e :: e in ServiceErrorsOf(h, s, b, id) ==> e in ServiceErrors(h, s, b);
      }
      forall id | id in b.serviceWithdrawals ensures ServiceWithdrawalErrorsOf(s, b, id) == {} {
        assert forall e :: e in ServiceWithdrawalErrorsOf(s, b, id) ==> e in ServiceErrors(h, s, b);
      }
    }
  }

  /** The service named is there, on the same binding, and was not withdrawn before. */
  predicate Served(s: Snapshot, b: Batch, service: Id, binding: Id) {
    && (service in s.services || service in b.services) && ServiceEffect(s, b, service).binding == binding
    && (if service in s.services then s.services[service] else b.services[service]).body.availability != Withdrawn
  }

  predicate CapabilityAllowed(h: Hooks, s: Snapshot, b: Batch, id: Id)
    requires id in b.capabilities
  {
    var v := b.capabilities[id].body;
    && h.capability(v) == {} && OpenAfter(s, b, v.binding) && Served(s, b, v.service, v.binding)
    && v.asset == b.asset && v.epoch == b.header.epoch && v.generation == b.header.generation
    && (id in s.capabilities ==>
          && s.capabilities[id].body.availability != Withdrawn && HeldOpen(s, b, s.capabilities[id].body.binding)
          && Supersedes(b.capabilities[id], s.capabilities[id]))
  }

  lemma AfterService(h: Hooks, s: Snapshot, b: Batch, id: Id)
    requires SourcesPass(s, b) && GenerationsPass(s, b) && MoveErrors(s, b) == {} && ServicesOk(s) && ServiceErrors(h, s, b) == {}
    ensures id in NextServices(s, b) <==> id in s.services || id in b.services
    ensures id in NextServices(s, b) ==> NextServices(s, b)[id].body == ServiceEffect(s, b, id)
    ensures id !in s.services && id in b.services ==> ServiceEffect(s, b, id) == b.services[id].body
  {
    hide SourcesPass, GenerationsPass, MoveErrors, ServicesOk, ServiceErrors, NextServices, NextBindings, Shut;
    forall x | x in b.services ensures b.services[x].body.binding in NextBindings(s, b) { UpsertedService(h, s, b, x); }
    ServiceKeys(s, b);
    if id in b.serviceWithdrawals { NoServiceWithdrawalErrors(h, s, b, id); }
    if id in NextServices(s, b) { ServiceEffectAt(s, b, id); }
  }

  lemma CapabilityExact(h: Hooks, s: Snapshot, b: Batch, id: Id)
    requires SourcesPass(s, b) && GenerationsPass(s, b) && BindingsPass(s, b) && MoveErrors(s, b) == {} && ServicesOk(s) && ServiceErrors(h, s, b) == {}
    requires id in b.capabilities
    ensures CapabilityErrorsOf(h, s, b, id) == {} <==> CapabilityAllowed(h, s, b, id)
  {
    hide SourcesPass, GenerationsPass, BindingsPass, MoveErrors, ServicesOk, ServiceErrors, NextBindings, NextServices, BindingEffect, ServiceEffect,
         Moved, RevisionStep, Supersedes, PriorErrors, HeldOpen, Shut;
    AfterBinding(s, b, b.capabilities[id].body.binding);
    AfterService(h, s, b, b.capabilities[id].body.service);
    if id in s.capabilities {
      PriorExact(s, b, s.capabilities[id].body.binding);
      StepIsSuccession(s.capabilities[id], b.capabilities[id]);
    }
  }

  predicate CapabilitiesRule(h: Hooks, s: Snapshot, b: Batch) {
    && (forall id :: id in b.capabilities ==> CapabilityAllowed(h, s, b, id))
    && (forall id :: id in b.capabilityWithdrawals ==> id in s.capabilities && MayWithdraw(s, b, s.capabilities[id].body.binding))
  }

  lemma CapabilityWithdrawalExact(s: Snapshot, b: Batch, id: Id)
    requires CapabilitiesOk(s)
    ensures CapabilityWithdrawalErrorsOf(s, b, id) == {} <==> id in s.capabilities && MayWithdraw(s, b, s.capabilities[id].body.binding)
  {
    hide Covered, MayWithdraw;
    if id in s.capabilities {
      assert CapabilityOk(s, s.capabilities[id].body);
      CoveredExact(s, b, s.capabilities[id].body.binding);
    }
  }

  lemma CapabilityErrorsEmpty(h: Hooks, s: Snapshot, b: Batch)
    ensures CapabilityErrors(h, s, b) == {} <==>
            && (forall id :: id in b.capabilities ==> CapabilityErrorsOf(h, s, b, id) == {})
            && (forall id :: id in b.capabilityWithdrawals ==> CapabilityWithdrawalErrorsOf(s, b, id) == {})
  {
    hide CapabilityErrorsOf, CapabilityWithdrawalErrorsOf;
    if CapabilityErrors(h, s, b) == {} {
      forall id | id in b.capabilities ensures CapabilityErrorsOf(h, s, b, id) == {} {
        assert forall e :: e in CapabilityErrorsOf(h, s, b, id) ==> e in CapabilityErrors(h, s, b);
      }
      forall id | id in b.capabilityWithdrawals ensures CapabilityWithdrawalErrorsOf(s, b, id) == {} {
        assert forall e :: e in CapabilityWithdrawalErrorsOf(s, b, id) ==> e in CapabilityErrors(h, s, b);
      }
    }
  }

  lemma CapabilitiesExact(h: Hooks, s: Snapshot, b: Batch)
    requires SourcesPass(s, b) && GenerationsPass(s, b) && BindingsPass(s, b) && MoveErrors(s, b) == {} && ServicesOk(s) && ServiceErrors(h, s, b) == {}
    requires CapabilitiesOk(s)
    ensures CapabilityErrors(h, s, b) == {} <==> CapabilitiesRule(h, s, b)
  {
    hide CapabilityErrorsOf, CapabilityWithdrawalErrorsOf, CapabilityAllowed, MayWithdraw, SourcesPass, GenerationsPass, BindingsPass, MoveErrors,
         ServicesOk, ServiceErrors, CapabilitiesOk;
    forall id | id in b.capabilities ensures CapabilityErrorsOf(h, s, b, id) == {} <==> CapabilityAllowed(h, s, b, id) { CapabilityExact(h, s, b, id); }
    forall id | id in b.capabilityWithdrawals
      ensures CapabilityWithdrawalErrorsOf(s, b, id) == {} <==> id in s.capabilities && MayWithdraw(s, b, s.capabilities[id].body.binding) {
      CapabilityWithdrawalExact(s, b, id);
    }
    CapabilityErrorsEmpty(h, s, b);
  }

  // ---------------------------------------------------------------- facts

  /** An observation comes through the header's open generation; an existing one came through the header's source. */
  predicate FactAllowed(h: Hooks, s: Snapshot, b: Batch, id: Id)
    requires id in b.facts
  {
    var v := b.facts[id].body;
    && h.fact(v) == {}
    && (IsObserved(b.facts[id]) ==>
          && v.originSource == Some(b.header.source) && v.epoch == Some(b.header.epoch) && v.generation == Some(b.header.generation)
          && v.binding.Some? && OpenAfter(s, b, v.binding.value))
    && (id in s.facts ==> Supersedes(b.facts[id], s.facts[id]) && (IsObserved(s.facts[id]) ==> FromSource(s, b, s.facts[id].body)))
  }

  /** The observation was made through a binding of the header's source. */
  predicate FromSource(s: Snapshot, b: Batch, v: Candidate) {
    v.binding.Some? && v.binding.value in s.bindings && s.bindings[v.binding.value].body.path.source == b.header.source
  }

  lemma FactExact(h: Hooks, s: Snapshot, b: Batch, id: Id)
    requires SourcesPass(s, b) && GenerationsPass(s, b) && BindingsPass(s, b) && id in b.facts
    ensures FactErrorsOf(h, s, b, id) == {} <==> FactAllowed(h, s, b, id)
  {
    hide SourcesPass, GenerationsPass, BindingsPass, NextBindings, BindingEffect, Moved, RevisionStep, Supersedes, Shut;
    var v := b.facts[id].body;
    if v.binding.Some? { AfterBinding(s, b, v.binding.value); }
    if id in s.facts { StepIsSuccession(s.facts[id], b.facts[id]); }
  }

  /**
   * What is withdrawn exists.  A published observation is withdrawn by its own
   * generation while that stays open, a retained one by the source it came from.
   */
  predicate FactWithdrawalAllowed(s: Snapshot, b: Batch, id: Id) {
    && (id in s.facts || exists k :: k in s.retained && k.candidate == id)
    && (id in s.facts && IsObserved(s.facts[id]) ==> s.facts[id].body.binding.Some? && HeldOpen(s, b, s.facts[id].body.binding.value))
    && (forall k :: k in s.retained && k.candidate == id ==> FromSource(s, b, s.retained[k].record.body))
  }

  lemma PublishedWithdrawal(s: Snapshot, b: Batch, id: Id)
    requires HeaderOwned(s.asset, b) && id in s.facts && ObservedCurrent(s.bindings, s.facts[id].body)
    ensures var v := s.facts[id].body;
            (Overlaps(b, v) || !Covered(b, s.bindings[v.binding.value].body.path)) <==> !HeldOpen(s, b, v.binding.value)
  {}

  lemma RetainedWithdrawal(s: Snapshot, b: Batch, v: Candidate)
    requires SourcesPass(s, b) && GenerationsPass(s, b) && BindingsPass(s, b)
    requires v.binding.Some? && v.binding.value in s.bindings && s.bindings[v.binding.value].body.state != BindingCurrent
    ensures RetainedWithdrawable(s, b, v) <==> FromSource(s, b, v)
  {
    hide SourcesPass, GenerationsPass, BindingsPass, NextBindings, BindingEffect, Moved, Shut;
    AfterBinding(s, b, v.binding.value);
  }

  lemma FactWithdrawalExact(s: Snapshot, b: Batch, id: Id)
    requires SourcesPass(s, b) && GenerationsPass(s, b) && BindingsPass(s, b)
    requires ContentErrors(s) == {} && GraphFaults(s) == {} && AllRetainedOk(s)
    ensures FactWithdrawalErrorsOf(s, b, id) == {} <==> FactWithdrawalAllowed(s, b, id)
  {
    hide SourcesPass, GenerationsPass, BindingErrors, HeaderOwned, NoRetiredUpserts, NoFencedUpserts, ContentErrors, GraphFaults, Overlaps, Covered,
         RetainedWithdrawable, HeldOpen, FromSource, Survives, ObservedAreLeaves;
    if id in s.facts && IsObserved(s.facts[id]) {
      PublishedGrounded(s, id);
      PublishedWithdrawal(s, b, id);
    }
    forall k | k in s.retained ensures RetainedWithdrawable(s, b, s.retained[k].record.body) <==> FromSource(s, b, s.retained[k].record.body) {
      assert RetainedOk(s, s.retained[k]);
      RetainedWithdrawal(s, b, s.retained[k].record.body);
    }
    assert RetainedUnder(s, id) != {} <==> exists k :: k in s.retained && k.candidate == id by { UnderExists(s, id); }
  }

  lemma UnderExists(s: Snapshot, id: Id)
    ensures RetainedUnder(s, id) != {} <==> exists k :: k in s.retained && k.candidate == id
  {
    if k :| k in s.retained && k.candidate == id { assert k in RetainedUnder(s, id); }
    if RetainedUnder(s, id) != {} { var k :| k in RetainedUnder(s, id); }
  }

  predicate FactsRule(h: Hooks, s: Snapshot, b: Batch) {
    && (forall id :: id in b.facts ==> FactAllowed(h, s, b, id)) && (forall id :: id in b.factWithdrawals ==> FactWithdrawalAllowed(s, b, id))
    && |s.facts + b.facts| <= MAX_STAGED_NODES
  }

  lemma FactErrorsEmpty(h: Hooks, s: Snapshot, b: Batch)
    ensures FactErrors(h, s, b) == {} <==>
            && (forall id :: id in b.facts ==> FactErrorsOf(h, s, b, id) == {}) && !Overfull(s, b)
            && (forall id :: id in b.factWithdrawals ==> FactWithdrawalErrorsOf(s, b, id) == {})
  {
    hide FactErrorsOf, FactWithdrawalErrorsOf, Overfull;
    if FactErrors(h, s, b) == {} {
      forall id | id in b.facts ensures FactErrorsOf(h, s, b, id) == {} {
        assert forall e :: e in FactErrorsOf(h, s, b, id) ==> e in FactErrors(h, s, b);
      }
      forall id | id in b.factWithdrawals ensures FactWithdrawalErrorsOf(s, b, id) == {} {
        assert forall e :: e in FactWithdrawalErrorsOf(s, b, id) ==> e in FactErrors(h, s, b);
      }
      assert Overfull(s, b) ==> BoundsExceeded in FactErrors(h, s, b);
    }
  }

  lemma OverfullExact(s: Snapshot, b: Batch)
    requires |s.facts| <= MAX_NODES
    ensures Overfull(s, b) <==> |s.facts + b.facts| > MAX_STAGED_NODES
  {
    if b.facts.Keys <= s.facts.Keys {
      assert (s.facts + b.facts).Keys == s.facts.Keys;
      assert |s.facts + b.facts| == |(s.facts + b.facts).Keys| && |s.facts| == |s.facts.Keys|;
    }
  }

  lemma FactsExact(h: Hooks, s: Snapshot, b: Batch)
    requires SourcesPass(s, b) && GenerationsPass(s, b) && BindingsPass(s, b)
    requires ContentErrors(s) == {} && GraphFaults(s) == {} && AllRetainedOk(s)
    ensures FactErrors(h, s, b) == {} <==> FactsRule(h, s, b)
  {
    hide FactErrors, FactErrorsOf, FactWithdrawalErrorsOf, FactAllowed, FactWithdrawalAllowed, SourcesPass, GenerationsPass, BindingsPass,
         ContentErrors, AllRetainedOk, Overfull, ClosureErrors;
    forall id | id in b.facts ensures FactErrorsOf(h, s, b, id) == {} <==> FactAllowed(h, s, b, id) { FactExact(h, s, b, id); }
    forall id | id in b.factWithdrawals ensures FactWithdrawalErrorsOf(s, b, id) == {} <==> FactWithdrawalAllowed(s, b, id) {
      FactWithdrawalExact(s, b, id);
    }
    FactErrorsEmpty(h, s, b);
    OverfullExact(s, b);
  }

  // ---------------------------------------------------------------- the derivation graph and retention

  /** The bindings as the batch leaves them; revisions play no part. */
  function BindingsAfter(s: Snapshot, b: Batch): Bindings {
    map id | id in s.bindings.Keys + b.bindings.Keys :: Versioned(BindingEffect(s, b, id), 0)
  }

  /** Every upserted fact that is not withdrawn is grounded in what will be published, which is not too much. */
  ghost predicate GraphRule(s: Snapshot, b: Batch) {
    && (forall id :: id in b.facts && id !in b.factWithdrawals ==> Survives(Proposed(s, b), BindingsAfter(s, b), id))
    && |Survivors(Proposed(s, b), BindingsAfter(s, b))| <= MAX_NODES
  }

  lemma AfterBodies(s: Snapshot, b: Batch)
    requires SourcesPass(s, b) && GenerationsPass(s, b) && BindingsPass(s, b)
    ensures SameBodies(BindingsAfter(s, b), NextBindings(s, b))
  {
    hide SourcesPass, GenerationsPass, BindingsPass, NextBindings, BindingEffect, Moved, Shut;
    NextBindingKeys(s, b);
    forall id | id in NextBindings(s, b) ensures BindingsAfter(s, b)[id].body == NextBindings(s, b)[id].body { AfterBinding(s, b, id); }
  }

  lemma FewerStaged(s: Snapshot, b: Batch)
    ensures |Proposed(s, b)| <= |s.facts + b.facts|
  {
    assert Proposed(s, b).Keys <= (s.facts + b.facts).Keys;
    SubsetCard(Proposed(s, b).Keys, (s.facts + b.facts).Keys);
    assert |Proposed(s, b)| == |Proposed(s, b).Keys| && |s.facts + b.facts| == |(s.facts + b.facts).Keys|;
  }

  lemma GraphExact(h: Hooks, s: Snapshot, b: Batch)
    requires SourcesPass(s, b) && GenerationsPass(s, b) && BindingsPass(s, b) && ContentErrors(s) == {} && UpsertShapes(b) == {}
    requires FactErrors(h, s, b) == {} && |s.facts + b.facts| <= MAX_STAGED_NODES
    ensures GraphErrors(s, b) == {} <==> GraphRule(s, b)
  {
    hide SourcesPass, GenerationsPass, BindingsPass, ContentErrors, UpsertShapes, FactErrors, NextBindings, StagedFacts, BindingsAfter, ClosureErrors,
         Survives, SameBodies, ObservedAreLeaves;
    var c := Proposed(s, b);
    ProposedIsStaged(h, s, b);
    FewerStaged(s, b);
    StagedLeaves(s, b);
    AfterBodies(s, b);
    SurvivorsByBodies(c, BindingsAfter(s, b), NextBindings(s, b));
    forall id ensures Survives(c, BindingsAfter(s, b), id) <==> Survives(c, NextBindings(s, b), id) {
      InSurvivors(c, BindingsAfter(s, b), id);
      InSurvivors(c, NextBindings(s, b), id);
    }
    ClosureExact(c, b.facts.Keys, NextBindings(s, b));
    assert forall id :: id in c && id in b.facts.Keys <==> id in b.facts && id !in b.factWithdrawals;
  }

  lemma InSurvivors(c: Candidates, bindings: Bindings, id: Id)
    ensures id in Survivors(c, bindings) <==> Survives(c, bindings, id)
  {
    hide Grounded;
  }

  /** The published observation loses its binding to this batch. */
  predicate Loses(s: Snapshot, b: Batch, id: Id) {
    id in s.facts && IsObserved(s.facts[id]) && s.facts[id].body.binding.Some? && Shut(s, b, s.facts[id].body.binding.value)
  }

  /** Identities retained afterwards: kept or newly displaced, and not expired. */
  function RetainedAfter(s: Snapshot, b: Batch, now: Context): set<RetainedKey> {
    (set k | k in s.retained && k.candidate !in b.factWithdrawals && AgeOf(s.retained[k], now) != Ok(Expired))
    + (set id | id in s.facts && Loses(s, b, id) && AgeOf(Retained(s.facts[id], ByFence), now) != Ok(Expired) :: Identity(id, s.facts[id]))
  }

  /** Everything retained can be aged at the batch's time, and there is room for what has not expired. */
  predicate RetentionRule(s: Snapshot, b: Batch, m: Mono) {
    var now := Context(b.observedAt, m);
    && (forall k :: k in s.retained && k.candidate !in b.factWithdrawals ==> AgeOf(s.retained[k], now).Ok?)
    && (forall id :: id in s.facts && Loses(s, b, id) ==> AgeOf(Retained(s.facts[id], ByFence), now).Ok?)
    && |RetainedAfter(s, b, now)| <= MAX_RETAINED
  }

  lemma LosesIsDisplaced(s: Snapshot, b: Batch, id: Id)
    requires SourcesPass(s, b) && GenerationsPass(s, b) && BindingsPass(s, b) && ContentErrors(s) == {} && GraphFaults(s) == {} && AllRetainedOk(s)
    requires forall x :: x in b.factWithdrawals ==> FactWithdrawalAllowed(s, b, x)
    ensures Loses(s, b, id) <==> Displaced(s, b, id)
    ensures Loses(s, b, id) ==> HasIdentity(s.facts[id].body)
  {
    hide SourcesPass, GenerationsPass, BindingsPass, ContentErrors, GraphFaults, NextBindings, BindingEffect, Moved, Survives, ObservedAreLeaves, Closes,
         AllRetainedOk, FromSource;
    if id in s.facts && IsObserved(s.facts[id]) {
      PublishedGrounded(s, id);
      AfterBinding(s, b, s.facts[id].body.binding.value);
      if id in b.factWithdrawals { assert FactWithdrawalAllowed(s, b, id); }
    }
  }

  lemma AgeIgnoresRemoval(v: Versioned<Candidate>, r: Removal, now: Context)
    ensures AgeOf(Retained(v, r), now) == AgeOf(Retained(v, ByFence), now)
  {}

  /** The age of whatever is retained under a key. */
  predicate AgesTo(s: Snapshot, b: Batch, now: Context, k: RetainedKey, age: Timed) {
    || (k in s.retained && k.candidate !in b.factWithdrawals && AgeOf(s.retained[k], now) == age)
    || (k.candidate in s.facts && Loses(s, b, k.candidate) && k == Identity(k.candidate, s.facts[k.candidate])
        && AgeOf(Retained(s.facts[k.candidate], ByFence), now) == age)
  }

  lemma NewlyIs(s: Snapshot, b: Batch, k: RetainedKey)
    ensures k in NewlyRetained(s, b) <==> k.candidate in s.facts && Displaced(s, b, k.candidate) && k == Identity(k.candidate, s.facts[k.candidate])
    ensures k in NewlyRetained(s, b) ==> NewlyRetained(s, b)[k].record == s.facts[k.candidate]
  {
    hide Displaced, RemovalOf;
  }

  lemma StagedAges(s: Snapshot, b: Batch, now: Context, k: RetainedKey, age: Timed)
    requires forall id :: Loses(s, b, id) <==> Displaced(s, b, id)
    requires k in s.retained ==> k !in NewlyRetained(s, b)
    ensures k in StagedRetained(s, b) && AgeOf(StagedRetained(s, b)[k], now) == age <==> AgesTo(s, b, now, k, age)
  {
    hide Displaced, Loses, AgeOf, KeptRetained, NewlyRetained;
    KeptAre(s, b);
    NewlyIs(s, b, k);
    if k in NewlyRetained(s, b) {
      AgeIgnoresRemoval(s.facts[k.candidate], NewlyRetained(s, b)[k].removal, now);
    }
  }

  lemma AfterKeys(s: Snapshot, b: Batch, m: Mono, k: RetainedKey)
    requires forall id :: Loses(s, b, id) <==> Displaced(s, b, id)
    requires k in s.retained ==> k !in NewlyRetained(s, b)
    ensures k in NextRetained(s, b, m) <==> k in RetainedAfter(s, b, Context(b.observedAt, m))
  {
    hide Displaced, Loses, AgeOf, StagedRetained, NewlyRetained;
    var now := Context(b.observedAt, m);
    if k in StagedRetained(s, b) { StagedAges(s, b, now, k, AgeOf(StagedRetained(s, b)[k], now)); }
    if k in s.retained { StagedAges(s, b, now, k, AgeOf(s.retained[k], now)); }
    if k.candidate in s.facts { StagedAges(s, b, now, k, AgeOf(Retained(s.facts[k.candidate], ByFence), now)); }
  }

  lemma AllAge(s: Snapshot, b: Batch, now: Context)
    requires forall id :: Loses(s, b, id) <==> Displaced(s, b, id)
    requires forall k :: k in s.retained ==> k !in NewlyRetained(s, b)
    ensures (exists k :: k in StagedRetained(s, b) && AgeOf(StagedRetained(s, b)[k], now).Failed?) <==>
            || (exists k :: k in s.retained && k.candidate !in b.factWithdrawals && AgeOf(s.retained[k], now).Failed?)
            || (exists id :: id in s.facts && Loses(s, b, id) && AgeOf(Retained(s.facts[id], ByFence), now).Failed?)
  {
    hide Displaced, Loses, AgeOf, StagedRetained, NewlyRetained;
    if k :| k in StagedRetained(s, b) && AgeOf(StagedRetained(s, b)[k], now).Failed? {
      StagedAges(s, b, now, k, AgeOf(StagedRetained(s, b)[k], now));
    }
    if k :| k in s.retained && k.candidate !in b.factWithdrawals && AgeOf(s.retained[k], now).Failed? {
      StagedAges(s, b, now, k, AgeOf(s.retained[k], now));
    }
    if id :| id in s.facts && Loses(s, b, id) && AgeOf(Retained(s.facts[id], ByFence), now).Failed? {
      StagedAges(s, b, now, Identity(id, s.facts[id]), AgeOf(Retained(s.facts[id], ByFence), now));
    }
  }

  lemma RetentionExact(s: Snapshot, b: Batch, m: Mono)
    requires SourcesPass(s, b) && GenerationsPass(s, b) && BindingsPass(s, b) && ContentErrors(s) == {} && GraphFaults(s) == {} && AllRetainedOk(s)
    requires forall k :: k in s.retained ==> k !in NewlyRetained(s, b)
    requires forall x :: x in b.factWithdrawals ==> FactWithdrawalAllowed(s, b, x)
    ensures RetentionErrors(s, b, m) == {} <==> RetentionRule(s, b, m)
  {
    hide SourcesPass, GenerationsPass, BindingsPass, ContentErrors, GraphFaults, AllRetainedOk, FactWithdrawalAllowed, Displaced, Loses, AgeOf,
         StagedRetained, NextRetained, NewlyRetained, HasIdentity, RetainedAfter;
    var now := Context(b.observedAt, m);
    forall id ensures Loses(s, b, id) <==> Displaced(s, b, id) { LosesIsDisplaced(s, b, id); }
    forall id | id in s.facts && Displaced(s, b, id) ensures HasIdentity(s.facts[id].body) { LosesIsDisplaced(s, b, id); }
    forall k ensures k in NextRetained(s, b, m) <==> k in RetainedAfter(s, b, now) { AfterKeys(s, b, m, k); }
    assert NextRetained(s, b, m).Keys == RetainedAfter(s, b, now);
    assert |NextRetained(s, b, m)| == |NextRetained(s, b, m).Keys|;
    AllAge(s, b, now);
    FailedOrOk(s, b, now);
  }

  lemma FailedOrOk(s: Snapshot, b: Batch, now: Context)
    ensures (forall k :: k in s.retained && k.candidate !in b.factWithdrawals ==> AgeOf(s.retained[k], now).Ok?) <==>
            !exists k :: k in s.retained && k.candidate !in b.factWithdrawals && AgeOf(s.retained[k], now).Failed?
    ensures (forall id :: id in s.facts && Loses(s, b, id) ==> AgeOf(Retained(s.facts[id], ByFence), now).Ok?) <==>
            !exists id :: id in s.facts && Loses(s, b, id) && AgeOf(Retained(s.facts[id], ByFence), now).Failed?
  {
    hide AgeOf, Loses;
  }

  lemma KeptAre(s: Snapshot, b: Batch)
    ensures forall k :: k in KeptRetained(s, b) <==> k in s.retained && k.candidate !in b.factWithdrawals
    ensures forall k :: k in KeptRetained(s, b) ==> KeptRetained(s, b)[k] == s.retained[k]
  {}

  // ---------------------------------------------------------------- classes

  /** What a binding that is not open after the batch is reported as. */
  function NotOpen(s: Snapshot, b: Batch, id: Id): Option<Err> {
    if id !in s.bindings && id !in b.bindings then Some(DanglingReference)
    else
      match BindingEffect(s, b, id).state
      case BindingCurrent => None
      case BindingFenced => Some(StaleDriverGeneration)
      case BindingRetired => Some(StaleSourceEpoch)
  }

  /** A link on a missing, fenced or retired binding is refused as such, one on another path as an invalid value. */
  lemma LinkClasses(s: Snapshot, b: Batch, id: Id)
    requires SourcesPass(s, b) && GenerationsPass(s, b) && BindingsPass(s, b) && id in b.links
    ensures NotOpen(s, b, id).Some? ==> NotOpen(s, b, id).value in LinkErrorsOf(s, b, id)
    ensures NotOpen(s, b, id).None? && BindingEffect(s, b, id).path != b.header ==> InvalidValue in LinkErrorsOf(s, b, id)
  {
    hide SourcesPass, GenerationsPass, BindingsPass, NextBindings, BindingEffect, Moved, RevisionStep, PriorErrors, Shut;
    AfterBinding(s, b, id);
  }

  /** An observation likewise. */
  lemma FactClasses(h: Hooks, s: Snapshot, b: Batch, id: Id)
    requires SourcesPass(s, b) && GenerationsPass(s, b) && BindingsPass(s, b) && id in b.facts && IsObserved(b.facts[id])
    ensures var v := b.facts[id].body;
            && (v.binding.None? ==> MissingMember in FactErrorsOf(h, s, b, id))
            && (v.binding.Some? && NotOpen(s, b, v.binding.value).Some? ==> NotOpen(s, b, v.binding.value).value in FactErrorsOf(h, s, b, id))
            && (v.binding.Some? && NotOpen(s, b, v.binding.value).None? && BindingEffect(s, b, v.binding.value).path != b.header ==>
                  InvalidValue in FactErrorsOf(h, s, b, id))
            && (v.originSource != Some(b.header.source) ==> InvalidValue in FactErrorsOf(h, s, b, id))
            && (id in s.facts && !Supersedes(b.facts[id], s.facts[id]) ==> RevisionConflict in FactErrorsOf(h, s, b, id))
  {
    hide SourcesPass, GenerationsPass, BindingsPass, NextBindings, BindingEffect, Moved, RevisionStep, Supersedes, OwnObservation, Shut;
    if b.facts[id].body.binding.Some? { AfterBinding(s, b, b.facts[id].body.binding.value); }
    if id in s.facts { StepIsSuccession(s.facts[id], b.facts[id]); }
  }

  /** A service likewise; on another source's binding it is an invalid value, on another path of the source a dangling reference. */
  lemma ServiceClasses(h: Hooks, s: Snapshot, b: Batch, id: Id)
    requires SourcesPass(s, b) && GenerationsPass(s, b) && BindingsPass(s, b) && id in b.services
    ensures var v := b.services[id].body;
            && (NotOpen(s, b, v.binding).Some? ==> NotOpen(s, b, v.binding).value in ServiceErrorsOf(h, s, b, id))
            && (NotOpen(s, b, v.binding).None? && BindingEffect(s, b, v.binding).path.source != b.header.source ==>
                  InvalidValue in ServiceErrorsOf(h, s, b, id))
            && (NotOpen(s, b, v.binding).None? && !OnPath(v.epoch, v.generation, BindingEffect(s, b, v.binding).path) ==>
                  DanglingReference in ServiceErrorsOf(h, s, b, id))
            && (id in s.services && !Supersedes(b.services[id], s.services[id]) ==> RevisionConflict in ServiceErrorsOf(h, s, b, id))
  {
    hide SourcesPass, GenerationsPass, BindingsPass, NextBindings, BindingEffect, Moved, RevisionStep, Supersedes, PriorErrors, Shut;
    AfterBinding(s, b, b.services[id].body.binding);
    if id in s.services { StepIsSuccession(s.services[id], b.services[id]); }
  }

  /** A binding upserted under a retiring epoch, over a closed binding, with another identity or at a wrong revision. */
  lemma BindingClasses(s: Snapshot, b: Batch, id: Id)
    requires SourcesPass(s, b) && GenerationsPass(s, b) && HeaderOwned(s.asset, b) && NoRetiredUpserts(b) && id in b.bindings
    ensures Retiring(b, SourceOf(b.header)) ==> StaleSourceEpoch in BindingErrorsOf(s, b, id)
    ensures id in s.bindings && s.bindings[id].body.state == BindingCurrent && !Closes(b, s.bindings[id].body.path) ==>
              && (s.bindings[id].body.(state := BindingCurrent) != b.bindings[id].body.(state := BindingCurrent) ==>
                    IdentityNotQualified in BindingErrorsOf(s, b, id))
              && (!Supersedes(b.bindings[id], s.bindings[id]) ==> RevisionConflict in BindingErrorsOf(s, b, id))
    ensures id in s.bindings && s.bindings[id].body.state == BindingFenced && !Retiring(b, SourceOf(s.bindings[id].body.path)) ==>
              StaleDriverGeneration in BindingErrorsOf(s, b, id)
  {
    hide NextSources, Moved, SourcesPass, GenerationsPass, NewFences, RetiresPath, Retiring, RevisionStep, Supersedes, HeaderOwned;
    assert b.bindings[id].body.path == b.header by { OwnedPath(s, b, id); }
    HeaderState(s, b);
    MovedKeys(s, b);
    if id in s.bindings {
      var path := s.bindings[id].body.path;
      MovedBinding(s, b, id);
      HitsClose(s, b, path);
      if !Closes(b, path) { UntouchedBinding(s, b, id); }
      StepIsSuccession(s.bindings[id], b.bindings[id]);
    }
  }
}
