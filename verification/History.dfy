/** What holds over whole runs of the publication kernel: sequences of batches, accepted or not. */
module History {
  import opened Graphs
  import opened Freshness
  import opened Records
  import opened Snapshots
  import opened Publication
  import opened Validity
  import opened Batches
  import opened Lifecycle
  import opened Kernel

  datatype Request = Request(batch: Batch, mono: Mono)

  ghost function Run(h: Hooks, k: State, requests: seq<Request>): State
    decreases |requests|
  {
    if requests == [] then k
    else
      var last := requests[|requests| - 1];
      Step(h, Run(h, k, requests[..|requests| - 1]), last.batch, last.mono)
  }

  lemma {:induction false} RunKeepsInv(h: Hooks, k: State, requests: seq<Request>)
    requires KernelInv(k)
    ensures KernelInv(Run(h, k, requests)) && Run(h, k, requests).asset == k.asset
    decreases |requests|
  {
    hide KernelInv, Decide;
    if requests != [] {
      var last := requests[|requests| - 1];
      RunKeepsInv(h, k, requests[..|requests| - 1]);
      StepKeepsInv(h, Run(h, k, requests[..|requests| - 1]), last.batch, last.mono);
    }
  }

  lemma InitialInv(asset: Id)
    ensures KernelInv(Initial(asset))
  {}

  lemma {:induction false} RunSplit(h: Hooks, k: State, p: seq<Request>, q: seq<Request>)
    ensures Run(h, k, p + q) == Run(h, Run(h, k, p), q)
    decreases |q|
  {
    hide Step;
    if q == [] {
      assert p + q == p;
    } else {
      var n := |q| - 1;
      assert (p + q)[..|p + q| - 1] == p + q[..n];
      RunSplit(h, k, p, q[..n]);
    }
  }

  // ---------------------------------------------------------------- irreversibility

  function StateRank(s: BindingState): nat {
    match s
    case BindingCurrent => 0
    case BindingFenced => 1
    case BindingRetired => 2
  }

  predicate BindingAdvances(x: Binding, y: Binding) {
    SameBinding(x, y) && StateRank(x.state) <= StateRank(y.state)
  }

  ghost predicate FencesKept(s: Snapshot, t: Snapshot) {
    forall k :: k in s.fences ==> k in t.fences && t.fences[k] == s.fences[k]
  }

  ghost predicate CursorsAdvance(s: Snapshot, t: Snapshot) {
    forall k :: k in s.cursors ==>
      && k in t.cursors && s.cursors[k].lastSequence <= t.cursors[k].lastSequence
      && (s.cursors[k].fenced ==> t.cursors[k] == s.cursors[k])
  }

  ghost predicate RetiredSourcesFrozen(s: Snapshot, t: Snapshot) {
    forall k :: k in s.sources ==> k in t.sources && (!IsCurrent(s.sources, k) ==> t.sources[k] == s.sources[k])
  }

  ghost predicate BindingsAdvance(s: Snapshot, t: Snapshot) {
    forall id :: id in s.bindings ==> id in t.bindings && BindingAdvances(s.bindings[id].body, t.bindings[id].body)
  }

  ghost predicate WithdrawnFrozen(s: Snapshot, t: Snapshot) {
    && (forall id :: id in s.services ==>
          id in t.services && (s.services[id].body.availability == Withdrawn ==> t.services[id] == s.services[id]))
    && (forall id :: id in s.capabilities ==>
          id in t.capabilities && (s.capabilities[id].body.availability == Withdrawn ==> t.capabilities[id] == s.capabilities[id]))
  }

  /** Nothing that one snapshot made final is undone in the other. */
  ghost predicate Evolves(s: Snapshot, t: Snapshot) {
    FencesKept(s, t) && CursorsAdvance(s, t) && RetiredSourcesFrozen(s, t) && BindingsAdvance(s, t) && WithdrawnFrozen(s, t)
  }

  lemma EvolvesSelf(s: Snapshot)
    ensures Evolves(s, s)
  {}

  lemma BindingsTrans(r: Snapshot, s: Snapshot, t: Snapshot)
    requires BindingsAdvance(r, s) && BindingsAdvance(s, t)
    ensures BindingsAdvance(r, t)
  {
    hide StateRank;
  }

  lemma EvolvesTrans(r: Snapshot, s: Snapshot, t: Snapshot)
    requires Evolves(r, s) && Evolves(s, t)
    ensures Evolves(r, t)
  {
    hide BindingsAdvance;
    BindingsTrans(r, s, t);
  }

  // one step at a time

  lemma FencesAndCursorsStep(s: Snapshot, b: Batch, t: Snapshot)
    requires GenerationsPass(s, b) && !HeaderFenced(s, b) && IsNew(s, b)
    requires t.fences == NextFences(s, b) && t.cursors == NextCursors(s, b)
    ensures FencesKept(s, t) && CursorsAdvance(s, t)
  {
    hide GenerationNotStale, OlderGenerationsFenced;
  }

  lemma SourcesStep(s: Snapshot, b: Batch, t: Snapshot)
    requires SourcesPass(s, b) && NoRetiredUpserts(b) && t.sources == Normalize(s.sources, NextSources(s, b))
    ensures RetiredSourcesFrozen(s, t)
  {
    hide NextSources, SourcesPass, NoRetiredUpserts;
    forall k | k in s.sources ensures k in t.sources && (!IsCurrent(s.sources, k) ==> t.sources[k] == s.sources[k]) {
      SourceAfter(s, b, k);
    }
  }

  lemma BindingsStep(s: Snapshot, b: Batch, t: Snapshot)
    requires BindingsPass(s, b) && HeaderEpochOpen(s, b) && BindingsOk(s) && SameBodies(t.bindings, NextBindings(s, b))
    ensures BindingsAdvance(s, t)
  {
    hide NextBindings, BindingErrors, HeaderOwned, NewFences, HeaderEpochOpen, BindingOk;
    forall id | id in s.bindings ensures id in t.bindings && BindingAdvances(s.bindings[id].body, t.bindings[id].body) {
      BindingFrom(s, b, id);
      if s.bindings[id].body.state == BindingRetired {
        RetiredNotFenced(s, b, s.bindings[id].body);
      }
    }
  }

  /** A withdrawn service is not touched by any operation of a batch that passes. */
  lemma ServiceFrozen(h: Hooks, s: Snapshot, b: Batch, id: Id)
    requires ServiceErrors(h, s, b) == {} && MoveErrors(s, b) == {} && ServicesOk(s) && id in s.services
    ensures id in NextServices(s, b)
    ensures s.services[id].body.availability == Withdrawn ==> NextServices(s, b)[id].body == s.services[id].body
  {
    hide NextBindings, Moved, MoveErrors, ServiceErrors, PriorErrors, Hit;
    assert ServiceOk(s, s.services[id].body);
    MovedKeys(s, b);
    MovedService(s, b, id);
    if id in b.services { NoServiceErrors(h, s, b, id); }
  }

  lemma CapabilityFrozen(h: Hooks, s: Snapshot, b: Batch, id: Id)
    requires CapabilityErrors(h, s, b) == {} && MoveErrors(s, b) == {} && CapabilitiesOk(s) && id in s.capabilities
    ensures id in NextCapabilities(s, b)
    ensures s.capabilities[id].body.availability == Withdrawn ==> NextCapabilities(s, b)[id].body == s.capabilities[id].body
  {
    hide NextBindings, NextServices, Moved, MoveErrors, CapabilityErrors, PriorErrors, Hit, ServiceGone;
    assert CapabilityOk(s, s.capabilities[id].body);
    MovedKeys(s, b);
    MovedCapability(s, b, id);
    if id in b.capabilities { NoCapabilityErrors(h, s, b, id); }
  }

  lemma WithdrawnStep(h: Hooks, s: Snapshot, b: Batch, t: Snapshot)
    requires ServiceErrors(h, s, b) == {} && CapabilityErrors(h, s, b) == {} && MoveErrors(s, b) == {}
    requires ServicesOk(s) && CapabilitiesOk(s)
    requires t.services == Normalize(s.services, NextServices(s, b)) && t.capabilities == Normalize(s.capabilities, NextCapabilities(s, b))
    ensures WithdrawnFrozen(s, t)
  {
    hide NextServices, NextCapabilities, ServiceErrors, CapabilityErrors, MoveErrors, ServicesOk, CapabilitiesOk;
    forall id | id in s.services
      ensures id in t.services && (s.services[id].body.availability == Withdrawn ==> t.services[id] == s.services[id])
    {
      ServiceFrozen(h, s, b, id);
    }
    forall id | id in s.capabilities
      ensures id in t.capabilities && (s.capabilities[id].body.availability == Withdrawn ==> t.capabilities[id] == s.capabilities[id])
    {
      CapabilityFrozen(h, s, b, id);
    }
  }

  lemma StagedMaps(s: Snapshot, b: Batch, m: Mono, first: bool)
    ensures var t := Staged(s, b, m, first);
            && t.sources == Normalize(s.sources, NextSources(s, b)) && t.bindings == Normalize(s.bindings, NextBindings(s, b))
            && t.links == Normalize(s.links, NextLinks(s, b)) && t.services == Normalize(s.services, NextServices(s, b))
            && t.capabilities == Normalize(s.capabilities, NextCapabilities(s, b))
            && t.fences == NextFences(s, b) && t.cursors == NextCursors(s, b) && t.facts == NextFacts(s, b)
            && t.envelopes == RebuildEnvelopes(s, NextFacts(s, b)) && t.retained == NextRetained(s, b, m)
            && t.asset == s.asset && t.revisions == NextRevisions(s, t, first)
  {
    hide NextSources, NextBindings, NextLinks, NextServices, NextCapabilities, NextFences, NextCursors, NextFacts,
         NextRetained, RebuildEnvelopes, Normalize;
  }

  /** One accepted batch undoes nothing. */
  lemma StepEvolves(h: Hooks, s: Snapshot, b: Batch, m: Mono, first: bool)
    requires Passes(h, s, b, m, first) && IsNew(s, b)
    ensures Evolves(s, Staged(s, b, m, first))
  {
    hide Passes, Staged, NextSources, NextBindings, NextLinks, NextServices, NextCapabilities, NextFences, NextCursors, NextFacts,
         NextRetained, RebuildEnvelopes, NextRevisions, Normalize, SourcesPass, GenerationsPass, BindingsPass, MoveErrors, LinkErrors,
         ServiceErrors, CapabilityErrors, GraphErrors, ContentErrors, LifecycleOk, WellKeyed, SourcesHaveCursor, KeyShapes, GraphFaults,
         BatchShape, UpsertShapes, NoRetiredUpserts, HeaderFenced, IsNew, FencesKept, CursorsAdvance, RetiredSourcesFrozen,
         BindingsAdvance, WithdrawnFrozen, BindingsOk, ServicesOk, CapabilitiesOk, SameBodies, BindingErrors, HeaderOwned, HeaderEpochOpen;
    var t := Staged(s, b, m, first);
    PassesFacts(h, s, b, m, first);
    LifecycleParts(s);
    PassParts(s, b);
    StagedMaps(s, b, m, first);
    NormalizedBodies(s.bindings, NextBindings(s, b));
    FencesAndCursorsStep(s, b, t);
    SourcesStep(s, b, t);
    BindingsStep(s, b, t);
    WithdrawnStep(h, s, b, t);
  }

  /** Over any run: once published, a snapshot is only ever succeeded by ones that undo nothing. */
  lemma {:induction false} RunEvolves(h: Hooks, k: State, requests: seq<Request>)
    requires KernelInv(k) && k.current.Some?
    ensures var n := Run(h, k, requests);
            n.current.Some? && Evolves(k.current.value, n.current.value)
            && k.current.value.revisions.semantic <= n.current.value.revisions.semantic
    decreases |requests|
  {
    hide KernelInv, Decide, Evolves, Passes, Staged, Valid, NoStrayEpoch, OrderErrors, HeaderOwned, IsNew;
    EvolvesSelf(k.current.value);
    if requests != [] {
      var before := requests[..|requests| - 1];
      var last := requests[|requests| - 1];
      RunEvolves(h, k, before);
      RunKeepsInv(h, k, before);
      var mid := Run(h, k, before);
      if Decide(h, mid, last.batch, last.mono).Accepted? {
        AcceptedMeans(h, mid, last.batch, last.mono);
        StepEvolves(h, Base(mid), last.batch, last.mono, false);
        SemanticStep(Base(mid), last.batch, last.mono);
        EvolvesTrans(k.current.value, mid.current.value, Run(h, k, requests).current.value);
      }
    }
  }

  lemma SemanticStep(s: Snapshot, b: Batch, m: Mono)
    ensures Staged(s, b, m, false).revisions.semantic == s.revisions.semantic + 1
  {
    hide Content;
  }
}
