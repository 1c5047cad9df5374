/**
 * The effect of one accepted batch on every collection, object by object and
 * without the staging order: what the batch names, what it closes, and that
 * everything else stays as it was.
 */
module Effects {
  import opened Graphs
  import opened Freshness
  import opened Records
  import opened Lineage
  import opened Closure
  import opened Snapshots
  import opened Transition
  import opened Publication
  import opened Validity
  import opened Batches
  import opened Lifecycle
  import opened Kernel

  /** The batch fences this generation or retires its epoch. */
  predicate Closes(b: Batch, path: CursorKey) { path in b.fences || Retiring(b, SourceOf(path)) }

  function SourceEffect(s: Snapshot, b: Batch, k: SourceKey): Source
    requires k in s.sources || k in b.sources
  {
    var v := if k in b.sources then b.sources[k].body else s.sources[k].body;
    if Retiring(b, k) then v.(state := SourceRetired) else v
  }

  function BindingEffect(s: Snapshot, b: Batch, id: Id): Binding
    requires id in s.bindings || id in b.bindings
  {
    if id in b.bindings then b.bindings[id].body else
    var v := s.bindings[id].body;
    if Retiring(b, SourceOf(v.path)) then v.(state := BindingRetired)
    else if v.path in b.fences then v.(state := BindingFenced) else v
  }

  predicate Shut(s: Snapshot, b: Batch, binding: Id) { binding in s.bindings && Closes(b, s.bindings[binding].body.path) }

  function FenceEvidence(s: Snapshot, b: Batch, binding: Id): set<Id> {
    if binding in s.bindings && s.bindings[binding].body.path in b.fences then b.fences[s.bindings[binding].body.path].evidence else {}
  }

  /** A link whose binding closes is withdrawn and keeps the fence's evidence. */
  function LinkEffect(s: Snapshot, b: Batch, id: Id): Link
    requires id in s.links || id in b.links
  {
    if id in b.links then b.links[id].body else
    var v := s.links[id].body;
    if Shut(s, b, id) then v.(state := LinkWithdrawn, basis := v.basis + FenceEvidence(s, b, id)) else v
  }

  function ServiceEffect(s: Snapshot, b: Batch, id: Id): Service
    requires id in s.services || id in b.services
  {
    var v := if id in b.services then b.services[id].body else s.services[id].body;
    if (id !in b.services && Shut(s, b, v.binding)) || id in b.serviceWithdrawals then v.(availability := Withdrawn) else v
  }

  function CapabilityEffect(s: Snapshot, b: Batch, id: Id): Capability
    requires id in s.capabilities || id in b.capabilities
  {
    var v := if id in b.capabilities then b.capabilities[id].body else s.capabilities[id].body;
    if (id !in b.capabilities && Shut(s, b, v.binding)) || id in b.capabilityWithdrawals then v.(availability := Withdrawn) else v
  }

  /** Candidates the batch would leave published if all were grounded. */
  function Proposed(s: Snapshot, b: Batch): Candidates { (s.facts + b.facts) - b.factWithdrawals }

  ghost predicate OwnersEffect(s: Snapshot, b: Batch, t: Snapshot) {
    && t.sources.Keys == s.sources.Keys + b.sources.Keys && t.bindings.Keys == s.bindings.Keys + b.bindings.Keys
    && (forall k :: k in t.sources ==> t.sources[k].body == SourceEffect(s, b, k))
    && (forall id :: id in t.bindings ==> t.bindings[id].body == BindingEffect(s, b, id))
  }

  ghost predicate LinksEffect(s: Snapshot, b: Batch, t: Snapshot) {
    t.links.Keys == s.links.Keys + b.links.Keys && forall id :: id in t.links ==> t.links[id].body == LinkEffect(s, b, id)
  }

  ghost predicate ServicesEffect(s: Snapshot, b: Batch, t: Snapshot) {
    t.services.Keys == s.services.Keys + b.services.Keys && forall id :: id in t.services ==> t.services[id].body == ServiceEffect(s, b, id)
  }

  ghost predicate CapabilitiesEffect(s: Snapshot, b: Batch, t: Snapshot) {
    && t.capabilities.Keys == s.capabilities.Keys + b.capabilities.Keys
    && forall id :: id in t.capabilities ==> t.capabilities[id].body == CapabilityEffect(s, b, id)
  }

  ghost predicate PathsEffect(s: Snapshot, b: Batch, t: Snapshot) {
    && t.fences.Keys == s.fences.Keys + b.fences.Keys && t.cursors.Keys == s.cursors.Keys + {b.header}
    && (forall k :: k in t.fences ==> t.fences[k] == if k in b.fences then b.fences[k] else s.fences[k])
    && t.cursors[b.header] == Cursor(b.sequence, b.digest, b.header in b.fences)
    && (forall k :: k in s.cursors && k != b.header ==> t.cursors[k] == s.cursors[k].(fenced := s.cursors[k].fenced || k in b.fences))
  }

  /** No upsert is lost, nothing withdrawn stays, and the rest stays exactly while it is grounded in the new bindings. */
  ghost predicate FactsEffect(s: Snapshot, b: Batch, t: Snapshot) {
    && t.facts == Survivors(Proposed(s, b), t.bindings)
    && (forall id :: id in b.facts && id !in b.factWithdrawals ==> id in t.facts && t.facts[id] == b.facts[id])
  }

  // ---------------------------------------------------------------- collection by collection

  lemma SourcesMoved(s: Snapshot, b: Batch, k: SourceKey)
    ensures NextSources(s, b).Keys == s.sources.Keys + b.sources.Keys
    ensures k in NextSources(s, b) ==> NextSources(s, b)[k].body == SourceEffect(s, b, k)
  {}

  lemma BindingMoved(s: Snapshot, b: Batch, id: Id)
    requires SourcesPass(s, b) && GenerationsPass(s, b) && (id in s.bindings || id in b.bindings)
    ensures id in NextBindings(s, b) && NextBindings(s, b)[id].body == BindingEffect(s, b, id)
  {
    hide Moved, SourcesPass, GenerationsPass, NewFences, RetiresPath, Retiring;
    MovedKeys(s, b);
    if id !in b.bindings {
      MovedBinding(s, b, id);
      HitsClose(s, b, s.bindings[id].body.path);
    }
  }

  lemma OwnersLemma(s: Snapshot, b: Batch, t: Snapshot)
    requires SourcesPass(s, b) && GenerationsPass(s, b)
    requires SameBodies(t.sources, NextSources(s, b)) && SameBodies(t.bindings, NextBindings(s, b))
    ensures OwnersEffect(s, b, t)
  {
    hide SourcesPass, GenerationsPass, NextSources, Moved, SourceEffect, BindingEffect;
    MovedKeys(s, b);
    SourcesMoved(s, b, SourceOf(b.header));
    forall k | k in t.sources ensures t.sources[k].body == SourceEffect(s, b, k) { SourcesMoved(s, b, k); }
    forall id | id in t.bindings ensures t.bindings[id].body == BindingEffect(s, b, id) { BindingMoved(s, b, id); }
  }

  /** On a passing batch the staged hits are just the paths it closes. */
  lemma HitsClose(s: Snapshot, b: Batch, path: CursorKey)
    requires SourcesPass(s, b) && GenerationsPass(s, b)
    ensures path in NewFences(s, b) <==> path in b.fences
    ensures path in b.fences ==> NewFences(s, b)[path] == b.fences[path]
    ensures RetiresPath(s, b, path) <==> Retiring(b, SourceOf(path))
    ensures Hit(s, b, path) <==> Closes(b, path)
  {
    hide GenerationNotStale, OlderGenerationsFenced, OtherEpochsRetire, HeaderEpochOpen, SourceUpsertsOpen, SourceUpsertsStep, FencesNew;
    assert Retiring(b, SourceOf(path)) ==> SourceOf(path) == SourceKey(b.header.source, path.epoch);
  }

  lemma LinkMoved(s: Snapshot, b: Batch, id: Id)
    requires SourcesPass(s, b) && GenerationsPass(s, b) && MoveErrors(s, b) == {} && id in s.links && id in s.bindings
    ensures Moved(s, b).links.Keys == s.links.Keys
    ensures Moved(s, b).links[id].body == if Shut(s, b, id)
              then s.links[id].body.(state := LinkWithdrawn, basis := s.links[id].body.basis + FenceEvidence(s, b, id)) else s.links[id].body
  {
    hide HitBindings, HitServices, HitCapabilities, Completes, MoveErrors, SourcesPass, GenerationsPass, NewFences, RetiresPath, Retiring;
    MovesComplete(s, b, id);
    HitsClose(s, b, s.bindings[id].body.path);
  }

  lemma LinksLemma(s: Snapshot, b: Batch, t: Snapshot)
    requires SourcesPass(s, b) && GenerationsPass(s, b) && MoveErrors(s, b) == {} && LinkErrors(s, b) == {} && LinksOk(s)
    requires SameBodies(t.links, NextLinks(s, b))
    ensures LinksEffect(s, b, t)
  {
    hide SourcesPass, GenerationsPass, Moved, MoveErrors, NextBindings, LinkErrors, PriorErrors, Shut, FenceEvidence;
    MovedKeys(s, b);
    forall id | id in b.links ensures id in NextBindings(s, b) { NoLinkErrors(s, b, id); }
    forall id | id in t.links ensures t.links[id].body == LinkEffect(s, b, id) {
      if id !in b.links {
        assert LinkOk(s, id, s.links[id].body);
        LinkMoved(s, b, id);
      }
    }
  }

  /** One service that the batch leaves alone, but for closing its binding or withdrawing it. */
  lemma ServiceMoved(s: Snapshot, b: Batch, id: Id)
    requires SourcesPass(s, b) && GenerationsPass(s, b) && MoveErrors(s, b) == {} && ServicesOk(s) && id in s.services
    ensures id in Moved(s, b).services
    ensures Moved(s, b).services[id].body ==
            if Shut(s, b, s.services[id].body.binding) then s.services[id].body.(availability := Withdrawn) else s.services[id].body
  {
    hide SourcesPass, GenerationsPass, Moved, MoveErrors, Hit, Closes;
    assert ServiceOk(s, s.services[id].body);
    MovedService(s, b, id);
    HitsClose(s, b, s.bindings[s.services[id].body.binding].body.path);
  }

  lemma ServiceEffectAt(s: Snapshot, b: Batch, id: Id)
    requires SourcesPass(s, b) && GenerationsPass(s, b) && MoveErrors(s, b) == {} && ServicesOk(s)
    requires id in NextServices(s, b) && (id in b.services ==> b.services[id].body.binding in NextBindings(s, b))
    requires id in b.serviceWithdrawals ==> id in s.services
    ensures (id in s.services || id in b.services) && NextServices(s, b)[id].body == ServiceEffect(s, b, id)
  {
    hide SourcesPass, GenerationsPass, Moved, MoveErrors, NextBindings, ServicesOk, Shut;
    MovedKeys(s, b);
    if id in s.services { ServiceMoved(s, b, id); }
  }

  lemma ServiceKeys(s: Snapshot, b: Batch)
    requires forall id :: id in b.services ==> b.services[id].body.binding in NextBindings(s, b)
    ensures NextServices(s, b).Keys == s.services.Keys + b.services.Keys
  {
    hide Moved, NextBindings;
    MovedKeys(s, b);
  }

  lemma ServicesLemma(h: Hooks, s: Snapshot, b: Batch, t: Snapshot)
    requires SourcesPass(s, b) && GenerationsPass(s, b) && MoveErrors(s, b) == {} && ServiceErrors(h, s, b) == {} && ServicesOk(s)
    requires SameBodies(t.services, NextServices(s, b))
    ensures ServicesEffect(s, b, t)
  {
    hide SourcesPass, GenerationsPass, MoveErrors, NextBindings, NextServices, ServiceErrors, ServicesOk, ServiceEffect;
    forall id | id in b.services ensures b.services[id].body.binding in NextBindings(s, b) { UpsertedService(h, s, b, id); }
    ServiceKeys(s, b);
    forall id | id in t.services ensures t.services[id].body == ServiceEffect(s, b, id) {
      if id in b.serviceWithdrawals { NoServiceWithdrawalErrors(h, s, b, id); }
      ServiceEffectAt(s, b, id);
    }
  }

  lemma UpsertedService(h: Hooks, s: Snapshot, b: Batch, id: Id)
    requires ServiceErrors(h, s, b) == {} && id in b.services
    ensures b.services[id].body.binding in NextBindings(s, b)
  {
    hide Moved, NextBindings, ServiceErrors, PriorErrors;
    NoServiceErrors(h, s, b, id);
  }

  lemma NoServiceWithdrawalErrors(h: Hooks, s: Snapshot, b: Batch, id: Id)
    requires ServiceErrors(h, s, b) == {} && id in b.serviceWithdrawals
    ensures id in s.services
  {
    hide ServiceErrorsOf, Covered;
    assert forall e :: e in ServiceWithdrawalErrorsOf(s, b, id) ==> e in ServiceErrors(h, s, b);
    assert ServiceWithdrawalErrorsOf(s, b, id) == {};
  }

  lemma CapabilityMoved(s: Snapshot, b: Batch, id: Id)
    requires SourcesPass(s, b) && GenerationsPass(s, b) && MoveErrors(s, b) == {} && CapabilitiesOk(s) && id in s.capabilities
    ensures id in Moved(s, b).capabilities
    ensures Moved(s, b).capabilities[id].body ==
            if Shut(s, b, s.capabilities[id].body.binding) then s.capabilities[id].body.(availability := Withdrawn) else s.capabilities[id].body
  {
    hide SourcesPass, GenerationsPass, Moved, MoveErrors, Hit, Closes;
    assert CapabilityOk(s, s.capabilities[id].body);
    MovedCapability(s, b, id);
    HitsClose(s, b, s.bindings[s.capabilities[id].body.binding].body.path);
  }

  lemma CapabilityEffectAt(s: Snapshot, b: Batch, id: Id)
    requires SourcesPass(s, b) && GenerationsPass(s, b) && MoveErrors(s, b) == {} && CapabilitiesOk(s)
    requires id in NextCapabilities(s, b) && (id in b.capabilities ==> CapabilityStaged(s, b, id))
    requires id in b.capabilityWithdrawals ==> id in s.capabilities
    ensures (id in s.capabilities || id in b.capabilities) && NextCapabilities(s, b)[id].body == CapabilityEffect(s, b, id)
  {
    hide SourcesPass, GenerationsPass, Moved, MoveErrors, NextBindings, NextServices, CapabilitiesOk, Shut;
    MovedKeys(s, b);
    if id in s.capabilities { CapabilityMoved(s, b, id); }
  }

  lemma CapabilityKeys(s: Snapshot, b: Batch)
    requires forall id :: id in b.capabilities ==> CapabilityStaged(s, b, id)
    ensures NextCapabilities(s, b).Keys == s.capabilities.Keys + b.capabilities.Keys
  {
    hide Moved, NextBindings, NextServices;
    MovedKeys(s, b);
  }

  lemma CapabilitiesLemma(h: Hooks, s: Snapshot, b: Batch, t: Snapshot)
    requires SourcesPass(s, b) && GenerationsPass(s, b) && MoveErrors(s, b) == {} && CapabilityErrors(h, s, b) == {} && CapabilitiesOk(s)
    requires SameBodies(t.capabilities, NextCapabilities(s, b))
    ensures CapabilitiesEffect(s, b, t)
  {
    hide SourcesPass, GenerationsPass, MoveErrors, CapabilityStaged, NextCapabilities, CapabilityErrors, CapabilitiesOk, CapabilityEffect;
    forall id | id in b.capabilities ensures CapabilityStaged(s, b, id) { UpsertedCapability(h, s, b, id); }
    CapabilityKeys(s, b);
    forall id | id in t.capabilities ensures t.capabilities[id].body == CapabilityEffect(s, b, id) {
      if id in b.capabilityWithdrawals { NoCapabilityWithdrawalErrors(h, s, b, id); }
      CapabilityEffectAt(s, b, id);
    }
  }

  lemma UpsertedCapability(h: Hooks, s: Snapshot, b: Batch, id: Id)
    requires CapabilityErrors(h, s, b) == {} && id in b.capabilities
    ensures CapabilityStaged(s, b, id)
  {
    hide Moved, NextBindings, NextServices, CapabilityErrors, PriorErrors, ServiceGone;
    NoCapabilityErrors(h, s, b, id);
  }

  lemma NoCapabilityWithdrawalErrors(h: Hooks, s: Snapshot, b: Batch, id: Id)
    requires CapabilityErrors(h, s, b) == {} && id in b.capabilityWithdrawals
    ensures id in s.capabilities
  {
    hide CapabilityErrorsOf, Covered;
    assert forall e :: e in CapabilityWithdrawalErrorsOf(s, b, id) ==> e in CapabilityErrors(h, s, b);
    assert CapabilityWithdrawalErrorsOf(s, b, id) == {};
  }

  lemma PathsLemma(s: Snapshot, b: Batch, t: Snapshot)
    requires GenerationsPass(s, b) && t.fences == NextFences(s, b) && t.cursors == NextCursors(s, b)
    ensures PathsEffect(s, b, t)
  {
    hide GenerationNotStale, OlderGenerationsFenced;
  }

  lemma WithdrawalsExist(h: Hooks, s: Snapshot, b: Batch, id: Id)
    requires FactErrors(h, s, b) == {} && id in b.factWithdrawals
    ensures FactWithdrawn(s, b, id)
  {
    hide FactErrorsOf, Overlaps, RetainedWithdrawable;
    assert forall e :: e in FactWithdrawalErrorsOf(s, b, id) ==> e in FactErrors(h, s, b);
    assert FactWithdrawalErrorsOf(s, b, id) == {};
  }

  lemma ProposedIsStaged(h: Hooks, s: Snapshot, b: Batch)
    requires FactErrors(h, s, b) == {}
    ensures StagedFacts(s, b) == Proposed(s, b)
  {
    hide FactErrors;
    forall id | id in b.factWithdrawals ensures FactWithdrawn(s, b, id) { WithdrawalsExist(h, s, b, id); }
  }

  lemma FactsLemma(h: Hooks, s: Snapshot, b: Batch, t: Snapshot)
    requires ContentErrors(s) == {} && UpsertShapes(b) == {} && GraphErrors(s, b) == {} && FactErrors(h, s, b) == {}
    requires t.facts == NextFacts(s, b) && SameBodies(t.bindings, NextBindings(s, b))
    ensures FactsEffect(s, b, t)
  {
    hide ContentErrors, UpsertShapes, GraphErrors, FactErrors, NextFacts, NextBindings, StagedFacts, Survivors, SameBodies, GraphFaults;
    GraphNext(s, b, t);
    ProposedIsStaged(h, s, b);
    SurvivorsByBodies(Proposed(s, b), t.bindings, NextBindings(s, b));
    forall id | id in b.facts && id !in b.factWithdrawals ensures id in t.facts && t.facts[id] == b.facts[id] {
      UpsertKept(s, b, id);
    }
  }

  lemma SurvivorsByBodies(c: Candidates, p: Bindings, q: Bindings)
    requires SameBodies(p, q)
    ensures Survivors(c, p) == Survivors(c, q)
  {
    hide Grounded;
    forall id ensures Survives(c, p, id) <==> Survives(c, q, id) {
      if Survives(c, p, id) { GroundedByBodies(c, p, q, id, MAX_DEPTH); }
      if Survives(c, q, id) { GroundedByBodies(c, q, p, id, MAX_DEPTH); }
    }
  }

  lemma UpsertKept(s: Snapshot, b: Batch, id: Id)
    requires GraphErrors(s, b) == {} && id in b.facts && id in StagedFacts(s, b)
    ensures id in NextFacts(s, b) && NextFacts(s, b)[id] == b.facts[id]
  {
    hide ClosureErrors, Survives, NextBindings, FactWithdrawn;
  }

  /** The effect of an accepted batch, all collections together. */
  lemma AcceptedEffect(h: Hooks, k: State, b: Batch, m: Mono)
    requires KernelInv(k) && Decide(h, k, b, m).Accepted?
    ensures var s := Base(k); var t := Decide(h, k, b, m).snapshot;
            && OwnersEffect(s, b, t) && LinksEffect(s, b, t) && ServicesEffect(s, b, t) && CapabilitiesEffect(s, b, t)
            && PathsEffect(s, b, t) && FactsEffect(s, b, t) && t.asset == s.asset && t.at == b.observedAt && t.mono == m
  {
    hide KernelInv, Decide, Step, Passes, Valid, Staged, Base, NoStrayEpoch, OrderErrors, HeaderOwned, IsNew;
    AcceptedMeans(h, k, b, m);
    PassedEffect(h, Base(k), b, m, k.current.None?);
  }

  lemma PassedEffect(h: Hooks, s: Snapshot, b: Batch, m: Mono, first: bool)
    requires Passes(h, s, b, m, first)
    ensures var t := Staged(s, b, m, first);
            && OwnersEffect(s, b, t) && LinksEffect(s, b, t) && ServicesEffect(s, b, t) && CapabilitiesEffect(s, b, t)
            && PathsEffect(s, b, t) && FactsEffect(s, b, t) && t.asset == s.asset && t.at == b.observedAt && t.mono == m
  {
    hide Passes, Staged, SourcesPass, GenerationsPass, BindingsPass, MoveErrors, LinkErrors, ServiceErrors, CapabilityErrors, FactErrors,
         GraphErrors, ContentErrors, UpsertShapes, OwnersEffect, LinksEffect, ServicesEffect, CapabilitiesEffect, PathsEffect, FactsEffect,
         NextSources, NextBindings, NextLinks, NextServices, NextCapabilities, NextFences, NextCursors, NextFacts, NextRetained,
         RebuildEnvelopes, SameBodies, LinksOk, ServicesOk, CapabilitiesOk, FencesOk, CursorsOk, OneOpenGeneration, BindingsOk, AllRetainedOk,
         WellKeyed, KeyShapes, GraphFaults, SourcesHaveCursor, NoRetiredUpserts, HeaderFenced, BatchShape;
    var t := Staged(s, b, m, first);
    PassesParts(h, s, b, m, first);
    PassesFacts(h, s, b, m, first);
    StagedContent(s, b, m, first);
    OwnersLemma(s, b, t);
    LinksLemma(s, b, t);
    ServicesLemma(h, s, b, t);
    CapabilitiesLemma(h, s, b, t);
    PathsLemma(s, b, t);
    FactsLemma(h, s, b, t);
  }
}
