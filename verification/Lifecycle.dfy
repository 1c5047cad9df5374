/**
 * The lifecycle invariant, derived from the transitions themselves: a batch
 * that raises no error leads from a sound snapshot to a sound one, except that
 * a source epoch introduced without a cursor is noticed only by the final check.
 */
module Lifecycle {
  import opened Errors
  import opened Graphs
  import opened Freshness
  import opened Records
  import opened Lineage
  import opened Closure
  import opened Snapshots
  import opened Transition
  import opened Publication
  import opened Validity
  import opened Batches

  /** Validity without the revision vector, which an asset that never published does not have yet. */
  ghost predicate Sound(s: Snapshot) {
    && WellKeyed(s) && LifecycleOk(s) && SourcesHaveCursor(s)
    && ContentErrors(s) == {} && KeyShapes(s) == {} && GraphFaults(s) == {}
  }

  /** A new batch all of whose checks up to the final one pass. */
  ghost predicate Passes(h: Hooks, s: Snapshot, b: Batch, m: Mono, first: bool) {
    && Sound(s) && HeaderOwned(s.asset, b) && BatchShape(b, m) == {}
    && !HeaderFenced(s, b) && !Regressed(s, b) && StepErrors(h, s, b, m, first) == {}
  }

  // ---------------------------------------------------------------- what passing means

  ghost predicate SourcesPass(s: Snapshot, b: Batch) {
    && RetirementsCurrent(s, b) && OtherEpochsRetire(s, b) && HeaderEpochOpen(s, b) && SourceUpsertsOpen(s, b)
    && SourceUpsertsStep(s, b) && SourceOf(b.header) in StagedSources(s, b)
  }

  ghost predicate GenerationsPass(s: Snapshot, b: Batch) {
    && GenerationNotStale(s, b) && FencesNew(s, b) && HeaderGenerationOpen(b) && OlderGenerationsFenced(s, b) && FencesKnown(s, b)
  }

  lemma SplitEmpty(a: set<Err>, b: set<Err>)
    requires a + b == {}
    ensures a == {} && b == {}
  {
    assert a <= a + b && b <= a + b;
  }

  lemma PassesParts(h: Hooks, s: Snapshot, b: Batch, m: Mono, first: bool)
    requires Passes(h, s, b, m, first)
    ensures SourceErrors(s, b) == {} && GenerationErrors(s, b) == {} && MoveErrors(s, b) == {}
    ensures BindingErrors(s, b) == {} && LinkErrors(s, b) == {} && FactErrors(h, s, b) == {}
    ensures ServiceErrors(h, s, b) == {} && CapabilityErrors(h, s, b) == {} && GraphErrors(s, b) == {}
    ensures RetentionErrors(s, b, m) == {} && ContentErrors(Staged(s, b, m, first)) == {}
    ensures RevisionsShape(Staged(s, b, m, first).revisions) == {}
  {
    hide SourceErrors, GenerationErrors, MoveErrors, BindingErrors, LinkErrors, FactErrors, ServiceErrors, CapabilityErrors,
         GraphErrors, RetentionErrors, ContentErrors, RevisionsShape, Staged, Sound, HeaderOwned, BatchShape, HeaderFenced, Regressed;
  }

  lemma SourcesAndGenerations(h: Hooks, s: Snapshot, b: Batch, m: Mono, first: bool)
    requires Passes(h, s, b, m, first)
    ensures SourcesPass(s, b) && GenerationsPass(s, b)
  {
    hide RetirementsCurrent, OtherEpochsRetire, HeaderEpochOpen, SourceUpsertsOpen, SourceUpsertsStep, StagedSources,
         GenerationNotStale, FencesNew, HeaderGenerationOpen, OlderGenerationsFenced, FencesKnown, Passes, MoveErrors, BindingErrors,
         LinkErrors, FactErrors, ServiceErrors, CapabilityErrors, GraphErrors, RetentionErrors, ContentErrors, RevisionsShape, Staged;
    PassesParts(h, s, b, m, first);
  }

  // ---------------------------------------------------------------- sources

  /** A source that ends current was current before or is new; one that ends retired stays so. */
  lemma SourceAfter(s: Snapshot, b: Batch, k: SourceKey)
    requires SourcesPass(s, b) && NoRetiredUpserts(b)
    ensures k in s.sources ==> k in NextSources(s, b)
    ensures k in s.sources && !IsCurrent(s.sources, k) ==> NextSources(s, b)[k] == s.sources[k]
    ensures k in s.sources && IsCurrent(NextSources(s, b), k) ==> IsCurrent(s.sources, k) && !Retiring(b, k)
    ensures k in NextSources(s, b) ==> (NextSources(s, b)[k].body.state == SourceRetired <==>
              Retiring(b, k) || (k in s.sources && !IsCurrent(s.sources, k)))
  {
    hide OtherEpochsRetire, HeaderEpochOpen, SourceUpsertsStep;
    if k in s.sources && !IsCurrent(s.sources, k) {
      assert k !in b.sources;
      assert Retiring(b, k) ==> k == SourceKey(b.header.source, k.epoch);
    }
  }

  // ---------------------------------------------------------------- bindings after the transitions

  predicate Hit(s: Snapshot, b: Batch, path: CursorKey) {
    path in NewFences(s, b) || RetiresPath(s, b, path)
  }

  predicate RetiresPath(s: Snapshot, b: Batch, path: CursorKey) {
    Retiring(b, SourceOf(path)) && SourceOf(path) in StagedSources(s, b)
  }

  function MovedState(s: Snapshot, b: Batch, v: Binding): BindingState {
    if RetiresPath(s, b, v.path) then BindingRetired else if v.path in NewFences(s, b) then BindingFenced else v.state
  }

  lemma MovedBinding(s: Snapshot, b: Batch, id: Id)
    requires id in s.bindings
    ensures Moved(s, b).bindings.Keys == s.bindings.Keys
    ensures Moved(s, b).bindings[id].body == s.bindings[id].body.(state := MovedState(s, b, s.bindings[id].body))
  {
    hide HitLinks, HitServices, HitCapabilities;
    assert AfterFences(s, b).bindings[id].body.path == s.bindings[id].body.path;
  }

  /** Every affected binding carried its link and dependents along. */
  lemma MovesComplete(s: Snapshot, b: Batch, id: Id)
    requires MoveErrors(s, b) == {} && id in s.bindings
    ensures s.bindings[id].body.path in NewFences(s, b) <==> Completes(s.links, FenceHits(s, b), id)
    ensures RetiresPath(s, b, s.bindings[id].body.path) <==> Completes(AfterFences(s, b).links, RetireHits(s, b), id)
  {
    hide HitLinks, HitServices, HitCapabilities, BasisFits;
    SplitEmpty(TransitionErrors(Before(s), FenceHits(s, b)), TransitionErrors(AfterFences(s, b), RetireHits(s, b)));
    assert AfterFences(s, b).bindings[id].body.path == s.bindings[id].body.path;
    assert id in FenceHits(s, b) ==> Completes(s.links, FenceHits(s, b), id);
    assert id in RetireHits(s, b) ==> Completes(AfterFences(s, b).links, RetireHits(s, b), id);
  }

  lemma MovedLink(s: Snapshot, b: Batch, id: Id)
    requires MoveErrors(s, b) == {} && id in s.links && id in s.bindings
    ensures Moved(s, b).links.Keys == s.links.Keys
    ensures Moved(s, b).links[id].body.asset == s.links[id].body.asset
    ensures Moved(s, b).links[id].body.state == if Hit(s, b, s.bindings[id].body.path) then LinkWithdrawn else s.links[id].body.state
  {
    hide HitBindings, HitServices, HitCapabilities, Completes, MoveErrors;
    MovesComplete(s, b, id);
  }

  lemma MovedService(s: Snapshot, b: Batch, id: Id)
    requires MoveErrors(s, b) == {} && id in s.services && s.services[id].body.binding in s.bindings
    ensures Moved(s, b).services.Keys == s.services.Keys
    ensures Moved(s, b).services[id].body ==
            if Hit(s, b, s.bindings[s.services[id].body.binding].body.path)
            then s.services[id].body.(availability := Withdrawn) else s.services[id].body
  {
    hide HitBindings, HitLinks, HitCapabilities, Completes, MoveErrors;
    MovesComplete(s, b, s.services[id].body.binding);
  }

  lemma MovedCapability(s: Snapshot, b: Batch, id: Id)
    requires MoveErrors(s, b) == {} && id in s.capabilities && s.capabilities[id].body.binding in s.bindings
    ensures Moved(s, b).capabilities.Keys == s.capabilities.Keys
    ensures Moved(s, b).capabilities[id].body ==
            if Hit(s, b, s.bindings[s.capabilities[id].body.binding].body.path)
            then s.capabilities[id].body.(availability := Withdrawn) else s.capabilities[id].body
  {
    hide HitBindings, HitLinks, HitServices, Completes, MoveErrors;
    MovesComplete(s, b, s.capabilities[id].body.binding);
  }

  // ---------------------------------------------------------------- cursors and fences

  /** A cursor is fenced after the batch exactly when a fence for it is on record. */
  lemma CursorAt(s: Snapshot, b: Batch, k: CursorKey)
    requires CursorsOk(s) && FencesOk(s) && GenerationsPass(s, b) && !HeaderFenced(s, b)
    ensures k in NextFences(s, b) ==> k in NextCursors(s, b)
    ensures k in NextCursors(s, b) ==> (NextCursors(s, b)[k].fenced <==> k in NextFences(s, b))
    ensures k in NextCursors(s, b) ==> k == b.header || k in s.cursors
    ensures k in s.cursors ==> k in NextCursors(s, b) && (s.cursors[k].fenced ==> NextCursors(s, b)[k].fenced)
  {
    hide GenerationNotStale, OlderGenerationsFenced;
  }

  lemma CursorsNext(s: Snapshot, b: Batch, t: Snapshot)
    requires CursorsOk(s) && FencesOk(s) && GenerationsPass(s, b) && !HeaderFenced(s, b) && SourcesPass(s, b) && NoRetiredUpserts(b)
    requires t.cursors == NextCursors(s, b) && t.fences == NextFences(s, b) && t.sources == NextSources(s, b)
    ensures CursorsOk(t) && FencesOk(t)
  {
    hide NextCursors, NextFences, NextSources, GenerationsPass, SourcesPass;
    assert SourceOf(b.header) in t.sources by { HeaderSource(s, b); }
    forall k | k in t.cursors ensures SourceOf(k) in t.sources && (t.cursors[k].fenced <==> k in t.fences) {
      CursorAt(s, b, k);
      SourceAfter(s, b, SourceOf(k));
    }
    forall k | k in t.fences ensures k in t.cursors {
      CursorAt(s, b, k);
    }
  }

  lemma HeaderSource(s: Snapshot, b: Batch)
    requires SourcesPass(s, b)
    ensures SourceOf(b.header) in NextSources(s, b)
  {
    hide RetirementsCurrent, OtherEpochsRetire, HeaderEpochOpen, SourceUpsertsOpen, SourceUpsertsStep;
  }

  /** After the batch the only open generation of its own epoch is the header's. */
  lemma OpenIsHeader(s: Snapshot, b: Batch, k: CursorKey)
    requires GenerationsPass(s, b) && k in NextCursors(s, b) && !NextCursors(s, b)[k].fenced && SameEpoch(k, b.header)
    ensures k == b.header
  {
    assert k == b.header || (k in s.cursors && !s.cursors[k].fenced && k !in b.fences);
    assert k == b.header || k.generation == b.header.generation;
  }

  lemma OneOpenNext(s: Snapshot, b: Batch, t: Snapshot)
    requires CursorsOk(s) && FencesOk(s) && GenerationsPass(s, b) && !HeaderFenced(s, b) && SourcesPass(s, b) && NoRetiredUpserts(b)
    requires OneOpenGeneration(s)
    requires t.cursors == NextCursors(s, b) && t.sources == NextSources(s, b)
    ensures OneOpenGeneration(t)
  {
    hide NextCursors, NextFences, NextSources, GenerationsPass, SourcesPass, FencesOk;
    forall j, k | j in t.cursors && k in t.cursors && OpenHere(t, j) && OpenHere(t, k) && SameEpoch(j, k) ensures j == k {
      CursorAt(s, b, j);
      CursorAt(s, b, k);
      if SameEpoch(j, b.header) {
        OpenIsHeader(s, b, j);
        OpenIsHeader(s, b, k);
      } else {
        SourceAfter(s, b, SourceOf(j));
        assert OpenHere(s, j) && OpenHere(s, k);
      }
    }
  }

  // ---------------------------------------------------------------- bindings

  lemma NoBindingErrors(s: Snapshot, b: Batch, id: Id)
    requires BindingErrors(s, b) == {} && id in b.bindings
    ensures BindingErrorsOf(s, b, id) == {}
  {
    hide BindingErrorsOf;
    assert forall e :: e in BindingErrorsOf(s, b, id) ==> e in BindingErrors(s, b);
  }

  /** An upserted binding is current, on the header's open generation; a replaced one was the same and still current. */
  lemma BindingUpsert(s: Snapshot, b: Batch, id: Id)
    requires BindingErrors(s, b) == {} && id in b.bindings && HeaderOwned(s.asset, b)
    requires NoRetiredUpserts(b) && NoFencedUpserts(b)
    ensures b.bindings[id].body.state == BindingCurrent && b.bindings[id].body.path == b.header && b.bindings[id].body.asset == s.asset
    ensures IsCurrent(NextSources(s, b), SourceOf(b.header))
    ensures id in s.bindings ==>
              && Moved(s, b).bindings[id].body.state == BindingCurrent
              && SameBinding(Moved(s, b).bindings[id].body, b.bindings[id].body)
              && RevisionStep(Moved(s, b).bindings[id], b.bindings[id])
  {
    hide NextSources, Moved, BindingErrors;
    NoBindingErrors(s, b, id);
    if id in s.bindings { MovedBinding(s, b, id); }
  }

  /** Where each binding of the next snapshot comes from. */
  lemma BindingFrom(s: Snapshot, b: Batch, id: Id)
    requires BindingErrors(s, b) == {} && HeaderOwned(s.asset, b) && NoRetiredUpserts(b) && NoFencedUpserts(b)
    requires id in s.bindings
    ensures id in NextBindings(s, b)
    ensures NextBindings(s, b)[id].body.path == s.bindings[id].body.path
    ensures NextBindings(s, b)[id].body.asset == s.bindings[id].body.asset
    ensures NextBindings(s, b)[id].body.resource == s.bindings[id].body.resource
    ensures NextBindings(s, b)[id].body.state == MovedState(s, b, s.bindings[id].body)
  {
    hide Moved, BindingErrors, HeaderOwned, MovedState, NewFences;
    MovedBinding(s, b, id);
    if id in b.bindings { BindingUpsert(s, b, id); }
  }

  lemma BindingNext(s: Snapshot, b: Batch, t: Snapshot, id: Id)
    requires BindingErrors(s, b) == {} && HeaderOwned(s.asset, b) && NoRetiredUpserts(b) && NoFencedUpserts(b)
    requires CursorsOk(s) && FencesOk(s) && BindingsOk(s) && GenerationsPass(s, b) && !HeaderFenced(s, b) && SourcesPass(s, b)
    requires t.cursors == NextCursors(s, b) && t.fences == NextFences(s, b) && t.sources == NextSources(s, b)
    requires t.bindings == NextBindings(s, b) && t.asset == s.asset && id in t.bindings
    ensures BindingOk(t, t.bindings[id].body)
  {
    hide BindingErrors, HeaderOwned, NextSources, NextBindings, NextCursors, NextFences, GenerationsPass, SourcesPass, BindingOk, BindingsOk, CursorsOk, FencesOk;
    if id in s.bindings {
      OldBindingNext(s, b, t, id);
    } else {
      assert id in b.bindings by { NewBindingListed(s, b, id); }
      NewBindingNext(s, b, t, id);
    }
  }

  lemma NewBindingListed(s: Snapshot, b: Batch, id: Id)
    requires id in NextBindings(s, b) && id !in s.bindings
    ensures id in b.bindings && b.bindings != map[]
  {
    hide Moved;
    MovedKeys(s, b);
  }

  lemma OldBindingNext(s: Snapshot, b: Batch, t: Snapshot, id: Id)
    requires BindingErrors(s, b) == {} && HeaderOwned(s.asset, b) && NoRetiredUpserts(b) && NoFencedUpserts(b)
    requires CursorsOk(s) && FencesOk(s) && BindingsOk(s) && GenerationsPass(s, b) && !HeaderFenced(s, b) && SourcesPass(s, b)
    requires t.cursors == NextCursors(s, b) && t.fences == NextFences(s, b) && t.sources == NextSources(s, b)
    requires t.bindings == NextBindings(s, b) && t.asset == s.asset && id in s.bindings
    ensures id in t.bindings && BindingOk(t, t.bindings[id].body)
  {
    hide BindingErrors, HeaderOwned, NextSources, NextBindings, GenerationNotStale, OlderGenerationsFenced, SourcesPass;
    var v := s.bindings[id].body;
    BindingFrom(s, b, id);
    SourceAfter(s, b, SourceOf(v.path));
    CursorAt(s, b, v.path);
    assert BindingOk(s, v);
  }

  lemma NewBindingNext(s: Snapshot, b: Batch, t: Snapshot, id: Id)
    requires BindingErrors(s, b) == {} && HeaderOwned(s.asset, b) && NoRetiredUpserts(b) && NoFencedUpserts(b)
    requires GenerationsPass(s, b) && SourcesPass(s, b)
    requires t.cursors == NextCursors(s, b) && t.fences == NextFences(s, b) && t.sources == NextSources(s, b)
    requires t.bindings == NextBindings(s, b) && t.asset == s.asset && id in b.bindings
    ensures id in t.bindings && BindingOk(t, t.bindings[id].body)
  {
    hide BindingErrors, HeaderOwned, NextSources, Moved, GenerationNotStale, OlderGenerationsFenced, FencesNew, FencesKnown, SourcesPass;
    BindingUpsert(s, b, id);
    HeaderSource(s, b);
    assert b.bindings != map[];
  }

  lemma MovedKeys(s: Snapshot, b: Batch)
    ensures Moved(s, b).bindings.Keys == s.bindings.Keys && Moved(s, b).links.Keys == s.links.Keys
    ensures Moved(s, b).services.Keys == s.services.Keys && Moved(s, b).capabilities.Keys == s.capabilities.Keys
  {
    hide Completes, FenceHits, RetireHits;
  }

  /** The batch's binding checks and the state they are made in. */
  ghost predicate BindingsPass(s: Snapshot, b: Batch) {
    BindingErrors(s, b) == {} && HeaderOwned(s.asset, b) && NoRetiredUpserts(b) && NoFencedUpserts(b)
  }

  /** A binding is current afterwards exactly when it was and the batch neither fences nor retires its path. */
  lemma LiveNext(s: Snapshot, b: Batch, t: Snapshot, id: Id)
    requires BindingsPass(s, b) && id in s.bindings && t.bindings == NextBindings(s, b)
    ensures id in t.bindings && t.bindings[id].body.path == s.bindings[id].body.path
    ensures Live(t, id) <==> Live(s, id) && !Hit(s, b, s.bindings[id].body.path)
  {
    hide BindingErrors, HeaderOwned, NextBindings, NewFences;
    BindingFrom(s, b, id);
  }

  // ---------------------------------------------------------------- links, services, capabilities

  lemma NoLinkErrors(s: Snapshot, b: Batch, id: Id)
    requires LinkErrors(s, b) == {} && id in b.links
    ensures LinkErrorsOf(s, b, id) == {}
  {
    hide LinkErrorsOf;
    assert forall e :: e in LinkErrorsOf(s, b, id) ==> e in LinkErrors(s, b);
  }

  lemma LinkNext(s: Snapshot, b: Batch, t: Snapshot, id: Id)
    requires BindingsPass(s, b) && MoveErrors(s, b) == {} && LinkErrors(s, b) == {} && LinksOk(s)
    requires t.bindings == NextBindings(s, b) && t.links == NextLinks(s, b) && t.asset == s.asset && id in t.links
    ensures LinkOk(t, id, t.links[id].body)
  {
    hide BindingErrors, HeaderOwned, NextBindings, Moved, MoveErrors, LinkErrors, Hit, PriorErrors;
    MovedKeys(s, b);
    if id in b.links {
      NoLinkErrors(s, b, id);
      OwnedAssets(s, b);
    } else {
      assert LinkOk(s, id, s.links[id].body);
      MovedLink(s, b, id);
      LiveNext(s, b, t, id);
    }
  }

  lemma OwnedAssets(s: Snapshot, b: Batch)
    requires HeaderOwned(s.asset, b)
    ensures b.asset == s.asset
  {}

  lemma NoServiceErrors(h: Hooks, s: Snapshot, b: Batch, id: Id)
    requires ServiceErrors(h, s, b) == {} && id in b.services
    ensures ServiceErrorsOf(h, s, b, id) == {}
  {
    hide ServiceErrorsOf, ServiceWithdrawalErrorsOf;
    assert forall e :: e in ServiceErrorsOf(h, s, b, id) ==> e in ServiceErrors(h, s, b);
  }

  /** Which staged service a next service is, up to its own withdrawal. */
  lemma ServiceFrom(s: Snapshot, b: Batch, id: Id)
    requires id in NextServices(s, b)
    ensures id in b.services && b.services[id].body.binding in NextBindings(s, b) ==>
              NextServices(s, b)[id].body == b.services[id].body
              || NextServices(s, b)[id].body == b.services[id].body.(availability := Withdrawn)
    ensures !(id in b.services && b.services[id].body.binding in NextBindings(s, b)) ==>
              && id in s.services && id in Moved(s, b).services
              && (NextServices(s, b)[id].body == Moved(s, b).services[id].body
                  || NextServices(s, b)[id].body == Moved(s, b).services[id].body.(availability := Withdrawn))
  {
    hide NextBindings, Moved;
    MovedKeys(s, b);
  }

  lemma ServiceNext(h: Hooks, s: Snapshot, b: Batch, t: Snapshot, id: Id)
    requires BindingsPass(s, b) && MoveErrors(s, b) == {} && ServiceErrors(h, s, b) == {} && ServicesOk(s)
    requires t.bindings == NextBindings(s, b) && t.services == NextServices(s, b) && t.asset == s.asset && id in t.services
    ensures ServiceOk(t, t.services[id].body)
  {
    hide BindingErrors, HeaderOwned, NextBindings, NextServices, Moved, MoveErrors, ServiceErrors, Hit, PriorErrors;
    ServiceFrom(s, b, id);
    OwnedAssets(s, b);
    if id in b.services {
      NoServiceErrors(h, s, b, id);
    } else {
      var v := s.services[id].body;
      assert ServiceOk(s, v);
      MovedService(s, b, id);
      LiveNext(s, b, t, v.binding);
    }
  }

  lemma NoCapabilityErrors(h: Hooks, s: Snapshot, b: Batch, id: Id)
    requires CapabilityErrors(h, s, b) == {} && id in b.capabilities
    ensures CapabilityErrorsOf(h, s, b, id) == {}
  {
    hide CapabilityErrorsOf, CapabilityWithdrawalErrorsOf;
    assert forall e :: e in CapabilityErrorsOf(h, s, b, id) ==> e in CapabilityErrors(h, s, b);
  }

  predicate CapabilityStaged(s: Snapshot, b: Batch, id: Id) {
    id in b.capabilities && b.capabilities[id].body.binding in NextBindings(s, b) && b.capabilities[id].body.service in NextServices(s, b)
  }

  lemma CapabilityFrom(s: Snapshot, b: Batch, id: Id)
    requires id in NextCapabilities(s, b)
    ensures CapabilityStaged(s, b, id) ==>
              NextCapabilities(s, b)[id].body == b.capabilities[id].body
              || NextCapabilities(s, b)[id].body == b.capabilities[id].body.(availability := Withdrawn)
    ensures !CapabilityStaged(s, b, id) ==>
              && id in s.capabilities && id in Moved(s, b).capabilities
              && (NextCapabilities(s, b)[id].body == Moved(s, b).capabilities[id].body
                  || NextCapabilities(s, b)[id].body == Moved(s, b).capabilities[id].body.(availability := Withdrawn))
  {
    hide NextBindings, NextServices, Moved;
    MovedKeys(s, b);
  }

  /** A capability keeps to a live binding while it is not withdrawn. */
  ghost predicate CapabilityOnBinding(t: Snapshot, v: Capability) {
    && v.binding in t.bindings && v.asset == t.asset && OnPath(v.epoch, v.generation, t.bindings[v.binding].body.path)
    && (v.availability != Withdrawn ==> Live(t, v.binding))
  }

  lemma CapabilityBinding(h: Hooks, s: Snapshot, b: Batch, t: Snapshot, id: Id)
    requires BindingsPass(s, b) && MoveErrors(s, b) == {} && CapabilityErrors(h, s, b) == {} && CapabilitiesOk(s)
    requires t.bindings == NextBindings(s, b) && t.capabilities == NextCapabilities(s, b) && t.asset == s.asset && id in t.capabilities
    ensures CapabilityOnBinding(t, t.capabilities[id].body)
  {
    hide BindingErrors, HeaderOwned, NextBindings, NextServices, NextCapabilities, Moved, MoveErrors, CapabilityErrors, Hit, PriorErrors, ServiceGone;
    CapabilityFrom(s, b, id);
    OwnedAssets(s, b);
    if id in b.capabilities {
      NoCapabilityErrors(h, s, b, id);
    } else {
      var v := s.capabilities[id].body;
      assert CapabilityOk(s, v);
      MovedCapability(s, b, id);
      LiveNext(s, b, t, v.binding);
    }
  }

  lemma CapabilityNext(h: Hooks, s: Snapshot, b: Batch, t: Snapshot, id: Id)
    requires BindingsPass(s, b) && MoveErrors(s, b) == {} && CapabilityErrors(h, s, b) == {} && CapabilitiesOk(s)
    requires t.bindings == NextBindings(s, b) && t.capabilities == NextCapabilities(s, b) && t.asset == s.asset && id in t.capabilities
    requires ServicesOk(t) && CapabilityHasService(t, id)
    ensures CapabilityOk(t, t.capabilities[id].body)
  {
    hide BindingErrors, HeaderOwned, NextBindings, NextServices, NextCapabilities, MoveErrors, CapabilityErrors;
    CapabilityBinding(h, s, b, t, id);
    assert ServiceOk(t, t.services[t.capabilities[id].body.service].body);
  }

  // ---------------------------------------------------------------- facts and retained observations

  lemma FactShapes(t: Snapshot, id: Id)
    requires ContentErrors(t) == {} && id in t.facts
    ensures CandidateShape(id, t.facts[id]) == {}
  {
    hide WithinLimits, OneCurrentEpoch, CapabilityHasService, CandidateShape, SourceShape, BindingShape, LinkShape, ServiceShape,
         CapabilityShape, EnvelopeShape;
    assert RecordErrors(t) == {};
    assert forall e :: e in CandidateShape(id, t.facts[id]) ==> e in RecordErrors(t);
  }

  /** The stored conflict of a published key is the derived one. */
  lemma EnvelopeConflict(s: Snapshot, key: Id)
    requires ContentErrors(s) == {} && key in s.envelopes
    ensures s.envelopes[key].conflict == DeriveConflict(Group(s.facts, key))
  {
    hide WithinLimits, OneCurrentEpoch, CapabilityHasService, CandidateShape, SourceShape, BindingShape, LinkShape, ServiceShape,
         CapabilityShape, DeriveConflict, Group, ConflictShape;
    assert RecordErrors(s) == {};
    assert forall e :: e in EnvelopeShape(s.facts, key, s.envelopes[key]) ==> e in RecordErrors(s);
    assert EnvelopeShape(s.facts, key, s.envelopes[key]) == {};
  }

  lemma ShapeOfObserved(id: Id, v: Versioned<Candidate>)
    requires CandidateShape(id, v) == {} && IsObserved(v)
    ensures v.body.derivation.None? && HasIdentity(v.body)
  {
    hide InputsShape;
  }

  lemma PublishedLeaves(s: Snapshot)
    requires ContentErrors(s) == {}
    ensures ObservedAreLeaves(s.facts)
  {
    hide ContentErrors, CandidateShape;
    forall id | id in s.facts && IsObserved(s.facts[id]) ensures s.facts[id].body.derivation.None? {
      FactShapes(s, id);
      ShapeOfObserved(id, s.facts[id]);
    }
  }

  /** Every published fact is grounded; an observed one stands on its own current binding. */
  lemma PublishedGrounded(s: Snapshot, id: Id)
    requires ContentErrors(s) == {} && GraphFaults(s) == {} && id in s.facts
    ensures ObservedAreLeaves(s.facts) && Survives(s.facts, s.bindings, id)
    ensures IsObserved(s.facts[id]) ==> ObservedCurrent(s.bindings, s.facts[id].body)
  {
    hide ContentErrors, ClosureErrors, Leaves, Lists;
    PublishedLeaves(s);
    ClosureExact(s.facts, s.facts.Keys, s.bindings);
  }

  lemma RetiredNotFenced(s: Snapshot, b: Batch, v: Binding)
    requires BindingOk(s, v) && v.state == BindingRetired && HeaderOwned(s.asset, b) && HeaderEpochOpen(s, b)
    ensures v.path !in NewFences(s, b)
  {}

  /** A retained record of the old state stays justified. */
  lemma OldRetainedNext(s: Snapshot, b: Batch, t: Snapshot, r: Retained)
    requires BindingsPass(s, b) && HeaderEpochOpen(s, b) && BindingsOk(s) && RetainedOk(s, r)
    requires t.bindings == NextBindings(s, b) && t.fences == NextFences(s, b) && BindingsOk(t)
    ensures RetainedOk(t, r)
  {
    hide BindingErrors, HeaderOwned, NextBindings, NewFences;
    var id := r.record.body.binding.value;
    BindingFrom(s, b, id);
    assert BindingOk(s, s.bindings[id].body);
    assert BindingOk(t, t.bindings[id].body);
    if s.bindings[id].body.state == BindingRetired {
      RetiredNotFenced(s, b, s.bindings[id].body);
    }
  }

  /** A newly retained observation is justified by the fence or retirement that displaced it. */
  lemma NewRetainedNext(s: Snapshot, b: Batch, t: Snapshot, id: Id)
    requires BindingsPass(s, b) && ContentErrors(s) == {} && GraphFaults(s) == {} && Displaced(s, b, id)
    requires t.bindings == NextBindings(s, b) && BindingsOk(t)
    ensures RetainedOk(t, Retained(s.facts[id], RemovalOf(s, b, id)))
  {
    hide BindingErrors, HeaderOwned, NextBindings, NewFences, ContentErrors, GraphFaults, Survives, MovedState, ObservedAreLeaves;
    PublishedGrounded(s, id);
    var binding := s.facts[id].body.binding.value;
    BindingFrom(s, b, binding);
    assert BindingOk(t, t.bindings[binding].body);
  }

  lemma RetainedNext(s: Snapshot, b: Batch, t: Snapshot, m: Mono)
    requires BindingsPass(s, b) && HeaderEpochOpen(s, b) && BindingsOk(s) && AllRetainedOk(s)
    requires ContentErrors(s) == {} && GraphFaults(s) == {} && WellKeyed(s)
    requires t.bindings == NextBindings(s, b) && t.fences == NextFences(s, b) && BindingsOk(t)
    requires t.retained == NextRetained(s, b, m)
    ensures AllRetainedOk(t)
    ensures forall k :: k in t.retained ==> k == Identity(k.candidate, t.retained[k].record)
  {
    hide BindingErrors, HeaderOwned, NextBindings, NextFences, ContentErrors, GraphFaults, RetainedOk, BindingsOk, HeaderEpochOpen, Displaced, AgeOf;
    forall k | k in t.retained ensures RetainedOk(t, t.retained[k]) && k == Identity(k.candidate, t.retained[k].record) {
      if k in NewlyRetained(s, b) {
        var id :| id in s.facts && Displaced(s, b, id) && k == Identity(id, s.facts[id]);
        NewRetainedNext(s, b, t, id);
      } else {
        OldRetainedNext(s, b, t, s.retained[k]);
      }
    }
  }

  // ---------------------------------------------------------------- the derivation graph

  lemma {:induction false} GroundedByBodies(c: Candidates, p: Bindings, q: Bindings, id: Id, k: nat)
    requires SameBodies(p, q) && Grounded(c, p, id, k)
    ensures Grounded(c, q, id, k)
    decreases k
  {
    hide Leaves, Lists;
    if !IsObserved(c[id]) {
      forall i | 0 <= i < |Inputs(c[id])| ensures GroundedInput(c, q, Inputs(c[id])[i], k - 1) {
        assert GroundedInput(c, p, Inputs(c[id])[i], k - 1);
        GroundedByBodies(c, p, q, Inputs(c[id])[i].candidate, k - 1);
      }
    }
  }

  /** Normalization changes revisions only. */
  ghost predicate SameBodies<K, T>(a: map<K, Versioned<T>>, b: map<K, Versioned<T>>) {
    a.Keys == b.Keys && forall k :: k in b ==> a[k].body == b[k].body
  }

  lemma StagedLeaves(s: Snapshot, b: Batch)
    requires ContentErrors(s) == {} && UpsertShapes(b) == {}
    ensures ObservedAreLeaves(StagedFacts(s, b))
  {
    hide ContentErrors, UpsertShapes, CandidateShape, FactWithdrawn;
    PublishedLeaves(s);
    forall id | id in b.facts && IsObserved(b.facts[id]) ensures b.facts[id].body.derivation.None? {
      UpsertedFactShape(b, id);
      ShapeOfObserved(id, b.facts[id]);
    }
  }

  lemma UpsertedFactShape(b: Batch, id: Id)
    requires UpsertShapes(b) == {} && id in b.facts
    ensures CandidateShape(id, b.facts[id]) == {}
  {
    hide CandidateShape, SourceShape, BindingShape, LinkShape, ServiceShape, CapabilityShape, FenceShape;
    assert forall e :: e in CandidateShape(id, b.facts[id]) ==> e in UpsertShapes(b);
  }

  /** The published candidates are exactly the grounded staged ones, and stay grounded among themselves. */
  lemma GraphNext(s: Snapshot, b: Batch, t: Snapshot)
    requires ContentErrors(s) == {} && UpsertShapes(b) == {} && GraphErrors(s, b) == {}
    requires t.facts == NextFacts(s, b) && SameBodies(t.bindings, NextBindings(s, b))
    ensures GraphFaults(t) == {}
    ensures NextFacts(s, b) == Survivors(StagedFacts(s, b), NextBindings(s, b))
  {
    hide ContentErrors, UpsertShapes, NextBindings, StagedFacts, ClosureErrors, Grounded, Kept;
    var c, bindings := StagedFacts(s, b), NextBindings(s, b);
    StagedLeaves(s, b);
    ClosureExact(c, b.facts.Keys, bindings);
    SurvivorsSurvive(c, bindings);
    forall id | id in t.facts ensures Survives(t.facts, t.bindings, id) {
      assert Survives(t.facts, bindings, id) by { assert id in Survivors(t.facts, bindings); }
      GroundedByBodies(t.facts, bindings, t.bindings, id, MAX_DEPTH);
    }
    assert ObservedAreLeaves(t.facts);
    assert t.facts == Survivors(t.facts, t.bindings);
    ClosureExact(t.facts, t.facts.Keys, t.bindings);
  }

  // ---------------------------------------------------------------- the staged snapshot as a whole

  lemma UpsertedFenceShape(b: Batch, k: CursorKey)
    requires UpsertShapes(b) == {} && k in b.fences
    ensures FenceShape(k, b.fences[k]) == {}
  {
    hide CandidateShape, SourceShape, BindingShape, LinkShape, ServiceShape, CapabilityShape, FenceShape;
    assert forall e :: e in FenceShape(k, b.fences[k]) ==> e in UpsertShapes(b);
  }

  lemma BatchShapeParts(b: Batch, m: Mono)
    requires BatchShape(b, m) == {}
    ensures Positive(b.header.generation) && Positive(b.sequence) && ValidPoint(b.observedAt) && ValidMono(m)
    ensures UpsertShapes(b) == {} && NoRetiredUpserts(b) && NoFencedUpserts(b)
  {
    hide UpsertShapes, NoRetiredUpserts, NoFencedUpserts, ValidPoint, ValidMono;
  }

  lemma KeyShapeParts(s: Snapshot)
    requires KeyShapes(s) == {}
    ensures forall k :: k in s.fences ==> FenceShape(k, s.fences[k]) == {}
    ensures forall k :: k in s.cursors ==> CursorShape(k, s.cursors[k]) == {}
  {
    hide FenceShape, CursorShape;
    forall k | k in s.fences ensures FenceShape(k, s.fences[k]) == {} {
      assert forall e :: e in FenceShape(k, s.fences[k]) ==> e in KeyShapes(s);
    }
    forall k | k in s.cursors ensures CursorShape(k, s.cursors[k]) == {} {
      assert forall e :: e in CursorShape(k, s.cursors[k]) ==> e in KeyShapes(s);
    }
  }

  lemma KeyShapesNext(s: Snapshot, b: Batch, m: Mono, t: Snapshot)
    requires KeyShapes(s) == {} && BatchShape(b, m) == {}
    requires t.fences == NextFences(s, b) && t.cursors == NextCursors(s, b) && t.at == b.observedAt && t.mono == m
    ensures KeyShapes(t) == {}
  {
    hide FenceShape, BatchShape, UpsertShapes, NoRetiredUpserts, NoFencedUpserts, Positive;
    BatchShapeParts(b, m);
    KeyShapeParts(s);
    forall k | k in t.fences ensures FenceShape(k, t.fences[k]) == {} {
      if k in NewFences(s, b) { UpsertedFenceShape(b, k); }
    }
    forall k | k in t.cursors ensures CursorShape(k, t.cursors[k]) == {} {
      assert k in s.cursors ==> CursorShape(k, s.cursors[k]) == {};
    }
  }

  lemma NormalizedBodies<K, T>(before: map<K, Versioned<T>>, after: map<K, Versioned<T>>)
    ensures SameBodies(Normalize(before, after), after)
  {}

  /** The staged snapshot before its revisions are normalized. */
  ghost function Raw(s: Snapshot, b: Batch, m: Mono): Snapshot {
    s.(at := b.observedAt, mono := m, sources := NextSources(s, b), bindings := NextBindings(s, b), links := NextLinks(s, b),
       facts := NextFacts(s, b), envelopes := RebuildEnvelopes(s, NextFacts(s, b)), retained := NextRetained(s, b, m),
       services := NextServices(s, b), capabilities := NextCapabilities(s, b), fences := NextFences(s, b), cursors := NextCursors(s, b))
  }

  /** Equal in everything but the revisions of objects. */
  ghost predicate SameContent(t: Snapshot, n: Snapshot) {
    && SameBodies(t.sources, n.sources) && SameBodies(t.bindings, n.bindings) && SameBodies(t.links, n.links)
    && SameBodies(t.services, n.services) && SameBodies(t.capabilities, n.capabilities)
    && t.fences == n.fences && t.cursors == n.cursors && t.facts == n.facts && t.envelopes == n.envelopes
    && t.retained == n.retained && t.asset == n.asset && t.at == n.at && t.mono == n.mono
  }

  lemma StagedContent(s: Snapshot, b: Batch, m: Mono, first: bool)
    ensures SameContent(Staged(s, b, m, first), Raw(s, b, m))
  {
    hide NextSources, NextBindings, NextLinks, NextServices, NextCapabilities, NextFences, NextCursors, NextFacts,
         NextRetained, RebuildEnvelopes, NextRevisions, Normalize, SameBodies;
    NormalizedBodies(s.sources, NextSources(s, b));
    NormalizedBodies(s.bindings, NextBindings(s, b));
    NormalizedBodies(s.links, NextLinks(s, b));
    NormalizedBodies(s.services, NextServices(s, b));
    NormalizedBodies(s.capabilities, NextCapabilities(s, b));
  }

  lemma BindingsByContent(t: Snapshot, n: Snapshot)
    requires SameContent(t, n) && FencesOk(n) && CursorsOk(n) && BindingsOk(n) && OneOpenGeneration(n)
    ensures FencesOk(t) && CursorsOk(t) && BindingsOk(t) && OneOpenGeneration(t)
  {
    forall id | id in t.bindings ensures BindingOk(t, t.bindings[id].body) {
      assert BindingOk(n, n.bindings[id].body);
    }
    forall j, k | j in t.cursors && k in t.cursors && OpenHere(t, j) && OpenHere(t, k) && SameEpoch(j, k) ensures j == k {
      assert OpenHere(n, j) && OpenHere(n, k);
    }
  }

  lemma RetainedByContent(t: Snapshot, n: Snapshot)
    requires SameContent(t, n) && AllRetainedOk(n)
    ensures AllRetainedOk(t)
  {
    forall k | k in t.retained ensures RetainedOk(t, t.retained[k]) {
      assert RetainedOk(n, n.retained[k]);
    }
  }

  lemma DependentsByContent(t: Snapshot, n: Snapshot)
    requires SameContent(t, n) && LinksOk(n) && ServicesOk(n) && CapabilitiesOk(n)
    ensures LinksOk(t) && ServicesOk(t) && CapabilitiesOk(t)
  {}

  lemma LifecycleByContent(t: Snapshot, n: Snapshot)
    requires SameContent(t, n) && LifecycleOk(n)
    ensures LifecycleOk(t)
  {
    hide SameContent, FencesOk, CursorsOk, BindingsOk, OneOpenGeneration, AllRetainedOk, LinksOk, ServicesOk, CapabilitiesOk;
    BindingsByContent(t, n);
    RetainedByContent(t, n);
    DependentsByContent(t, n);
  }

  lemma CapabilityServices(t: Snapshot, n: Snapshot, id: Id)
    requires SameContent(t, n) && ContentErrors(t) == {} && id in n.capabilities
    ensures CapabilityHasService(n, id)
  {
    hide WithinLimits, OneCurrentEpoch, RecordErrors;
    assert CapabilityHasService(t, id);
  }

  /** Facts established about the batch before any clause is looked at. */
  lemma PassesFacts(h: Hooks, s: Snapshot, b: Batch, m: Mono, first: bool)
    requires Passes(h, s, b, m, first)
    ensures WellKeyed(s) && LifecycleOk(s) && SourcesHaveCursor(s) && ContentErrors(s) == {} && KeyShapes(s) == {} && GraphFaults(s) == {}
    ensures BatchShape(b, m) == {} && UpsertShapes(b) == {} && NoRetiredUpserts(b) && !HeaderFenced(s, b)
    ensures SourcesPass(s, b) && GenerationsPass(s, b) && BindingsPass(s, b)
    ensures MoveErrors(s, b) == {} && LinkErrors(s, b) == {} && ServiceErrors(h, s, b) == {} && CapabilityErrors(h, s, b) == {}
    ensures GraphErrors(s, b) == {} && ContentErrors(Staged(s, b, m, first)) == {}
  {
    hide WellKeyed, LifecycleOk, SourcesHaveCursor, ContentErrors, KeyShapes, GraphFaults, HeaderOwned, HeaderFenced, Regressed,
         NoRetiredUpserts, NoFencedUpserts, UpsertShapes, StepErrors, SourcesPass, GenerationsPass, BindingErrors, MoveErrors,
         LinkErrors, ServiceErrors, CapabilityErrors, GraphErrors, Staged, BatchShape;
    PassesParts(h, s, b, m, first);
    SourcesAndGenerations(h, s, b, m, first);
    BatchShapeParts(b, m);
  }

  /** Every lifecycle clause holds of the staged snapshot, from the transitions alone. */
  lemma LifecycleNext(h: Hooks, s: Snapshot, b: Batch, m: Mono, first: bool)
    requires Passes(h, s, b, m, first)
    ensures LifecycleOk(Staged(s, b, m, first))
  {
    hide Passes, WellKeyed, LifecycleOk, SourcesHaveCursor, ContentErrors, KeyShapes, GraphFaults, HeaderFenced, Regressed,
         NoRetiredUpserts, UpsertShapes, StepErrors, GenerationsPass, BindingsPass, MoveErrors, SourcesPass,
         LinkErrors, ServiceErrors, CapabilityErrors, GraphErrors, Staged, BatchShape, SameContent, NextSources, NextBindings,
         NextLinks, NextServices, NextCapabilities, NextFences, NextCursors, NextFacts, NextRetained, RebuildEnvelopes, OneOpenGeneration,
         LinkOk, ServiceOk, CapabilityOk, BindingOk, CursorsOk, FencesOk, AllRetainedOk;
    PassesFacts(h, s, b, m, first);
    StagedContent(s, b, m, first);
    var n, t := Raw(s, b, m), Staged(s, b, m, first);
    LifecycleParts(s);
    PassParts(s, b);
    CursorsNext(s, b, n);
    OneOpenNext(s, b, n);
    forall id | id in n.bindings ensures BindingOk(n, n.bindings[id].body) { BindingNext(s, b, n, id); }
    forall id | id in n.links ensures LinkOk(n, id, n.links[id].body) { LinkNext(s, b, n, id); }
    forall id | id in n.services ensures ServiceOk(n, n.services[id].body) { ServiceNext(h, s, b, n, id); }
    forall id | id in n.capabilities ensures CapabilityOk(n, n.capabilities[id].body) {
      CapabilityServices(t, n, id);
      CapabilityNext(h, s, b, n, id);
    }
    RetainedNext(s, b, n, m);
    LifecycleWhole(n);
    LifecycleByContent(t, n);
  }

  lemma LifecycleParts(s: Snapshot)
    requires LifecycleOk(s)
    ensures FencesOk(s) && CursorsOk(s) && OneOpenGeneration(s) && BindingsOk(s) && LinksOk(s)
    ensures ServicesOk(s) && CapabilitiesOk(s) && AllRetainedOk(s)
  {}

  lemma LifecycleWhole(s: Snapshot)
    requires FencesOk(s) && CursorsOk(s) && OneOpenGeneration(s) && BindingsOk(s) && LinksOk(s)
    requires ServicesOk(s) && CapabilitiesOk(s) && AllRetainedOk(s)
    ensures LifecycleOk(s)
  {}

  lemma PassParts(s: Snapshot, b: Batch)
    requires BindingsPass(s, b) && SourcesPass(s, b)
    ensures BindingErrors(s, b) == {} && HeaderOwned(s.asset, b) && NoFencedUpserts(b) && HeaderEpochOpen(s, b)
  {}

  /** Condition a caller can check: no source upsert opens an epoch other than the header's. */
  predicate NoStrayEpoch(s: Snapshot, b: Batch) {
    forall k :: k in b.sources ==> k in s.sources || k == SourceOf(b.header)
  }

  lemma SourcesCovered(h: Hooks, s: Snapshot, b: Batch, m: Mono, first: bool)
    requires Passes(h, s, b, m, first)
    ensures SourcesHaveCursor(Staged(s, b, m, first)) <==> NoStrayEpoch(s, b)
  {
    hide Passes, WellKeyed, ContentErrors, KeyShapes, GraphFaults, HeaderFenced, Regressed, BindingsOk, LinksOk, ServicesOk, CapabilitiesOk,
         NoRetiredUpserts, UpsertShapes, StepErrors, GenerationsPass, BindingsPass, MoveErrors, AllRetainedOk, OneOpenGeneration,
         LinkErrors, ServiceErrors, CapabilityErrors, GraphErrors, Staged, BatchShape, NextBindings,
         NextLinks, NextServices, NextCapabilities, NextFences, NextFacts, NextRetained, RebuildEnvelopes, FencesOk, NextSources, NextCursors,
         CursorsOk, SourcesHaveCursor, NoStrayEpoch;
    PassesFacts(h, s, b, m, first);
    StagedContent(s, b, m, first);
    NextKeys(s, b);
    CoveredKeys(s, b, Staged(s, b, m, first));
  }

  lemma NextKeys(s: Snapshot, b: Batch)
    ensures NextSources(s, b).Keys == s.sources.Keys + b.sources.Keys && NextCursors(s, b).Keys == s.cursors.Keys + {b.header}
  {}

  lemma CoveredKeys(s: Snapshot, b: Batch, t: Snapshot)
    requires SourcesHaveCursor(s) && CursorsOk(s)
    requires t.sources.Keys == s.sources.Keys + b.sources.Keys && t.cursors.Keys == s.cursors.Keys + {b.header}
    ensures SourcesHaveCursor(t) <==> NoStrayEpoch(s, b)
  {
    forall k | k in s.sources ensures HasCursor(t, k) {
      assert HasCursor(s, k);
      var c :| c in s.cursors && SourceOf(c) == k;
      assert c in t.cursors;
    }
    assert HasCursor(t, SourceOf(b.header)) by { assert b.header in t.cursors; }
    if SourcesHaveCursor(t) {
      forall k | k in b.sources ensures k in s.sources || k == SourceOf(b.header) {
        assert HasCursor(t, k);
        var c :| c in t.cursors && SourceOf(c) == k;
      }
    }
  }

  lemma KeyedNext(h: Hooks, s: Snapshot, b: Batch, m: Mono, first: bool)
    requires Passes(h, s, b, m, first)
    ensures WellKeyed(Staged(s, b, m, first)) && KeyShapes(Staged(s, b, m, first)) == {} && GraphFaults(Staged(s, b, m, first)) == {}
  {
    hide Passes, LifecycleOk, SourcesHaveCursor, ContentErrors, KeyShapes, GraphFaults, HeaderFenced, Regressed,
         NoRetiredUpserts, UpsertShapes, StepErrors, GenerationsPass, BindingsPass, MoveErrors, SourcesPass,
         LinkErrors, ServiceErrors, CapabilityErrors, GraphErrors, Staged, BatchShape, NextSources, NextBindings,
         NextLinks, NextServices, NextCapabilities, NextFences, NextCursors, NextFacts, NextRetained, SameBodies,
         BindingsOk, HeaderEpochOpen, HeaderOwned, BindingErrors, CursorsOk, FencesOk, AllRetainedOk, NoFencedUpserts;
    PassesFacts(h, s, b, m, first);
    StagedContent(s, b, m, first);
    var n, t := Raw(s, b, m), Staged(s, b, m, first);
    LifecycleParts(s);
    PassParts(s, b);
    CursorsNext(s, b, n);
    forall id | id in n.bindings ensures BindingOk(n, n.bindings[id].body) { BindingNext(s, b, n, id); }
    AllBindings(n);
    RetainedNext(s, b, n, m);
    KeyShapesNext(s, b, m, t);
    GraphNext(s, b, t);
  }

  lemma AllBindings(n: Snapshot)
    requires forall id :: id in n.bindings ==> BindingOk(n, n.bindings[id].body)
    ensures BindingsOk(n)
  {}

  /**
   * The final check refuses nothing that the transitions let through, except a
   * source epoch left without a cursor; exactly then it reports a dangling reference.
   */
  lemma FinalCheckExact(h: Hooks, s: Snapshot, b: Batch, m: Mono, first: bool)
    requires Passes(h, s, b, m, first)
    ensures var t := Staged(s, b, m, first);
            && WellKeyed(t)
            && ValidateErrors(t) == (if NoStrayEpoch(s, b) then {} else {DanglingReference})
  {
    hide Passes, LifecycleOk, SourcesHaveCursor, ContentErrors, KeyShapes, GraphFaults, Staged, StepErrors, LifecycleErrors,
         RevisionsShape, WellKeyed, NoStrayEpoch;
    var t := Staged(s, b, m, first);
    PassesParts(h, s, b, m, first);
    LifecycleNext(h, s, b, m, first);
    KeyedNext(h, s, b, m, first);
    SourcesCovered(h, s, b, m, first);
    LifecycleErrorsExact(t);
  }
}
