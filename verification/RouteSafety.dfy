/** Publication and routing together: what a run has fenced or retired is never routable again. */
module RouteSafety {
  import opened Errors
  import opened Graphs
  import opened Freshness
  import opened Records
  import opened Snapshots
  import opened Publication
  import opened Validity
  import opened Kernel
  import opened History
  import opened Evaluation
  import opened Routing
  import opened Admission

  /** An eligible capability stands on a current binding of a current source at its own path. */
  lemma RoutableIsCurrent(r: RouteHooks, t: Snapshot, i: Intent, id: Id)
    requires Routable(r, t, i, id)
    ensures id in t.capabilities && t.capabilities[id].body.binding in t.bindings
    ensures var b := t.bindings[t.capabilities[id].body.binding].body;
            b.state == BindingCurrent && RouteOf(t, id).path == b.path && IsCurrent(t.sources, SourceOf(b.path))
  {
    hide CandidateErrors, Offered, IdentityErrors, UseErrors;
    RoutableBound(r, t, i, id);
  }

  /** In a valid snapshot no eligible route runs over a fenced generation or a retired epoch. */
  lemma ValidRoutes(r: RouteHooks, t: Snapshot, i: Intent, id: Id, path: CursorKey)
    requires BindingsOk(t) && FencesOk(t) && RoutesOver(r, t, i, id, path)
    ensures !OutOfService(t, path)
  {
    hide Routable;
    RoutableIsCurrent(r, t, i, id);
    assert BindingOk(t, t.bindings[t.capabilities[id].body.binding].body);
  }

  ghost predicate RoutesOver(r: RouteHooks, t: Snapshot, i: Intent, id: Id, path: CursorKey) {
    Routable(r, t, i, id) && t.capabilities[id].body.binding in t.bindings && RouteOf(t, id).path == path
  }

  /** The path is out of service for good: its generation is fenced or its epoch retired. */
  predicate OutOfService(s: Snapshot, path: CursorKey) {
    path in s.fences || (SourceOf(path) in s.sources && s.sources[SourceOf(path)].body.state == SourceRetired)
  }

  lemma OutOfServiceStays(s: Snapshot, t: Snapshot, path: CursorKey)
    requires Evolves(s, t) && OutOfService(s, path)
    ensures OutOfService(t, path)
  {
    hide CursorsAdvance, BindingsAdvance, WithdrawnFrozen;
  }

  /** The run has committed s as its newest snapshot. */
  ghost predicate Shows(h: Hooks, asset: Id, requests: seq<Request>, s: Snapshot) {
    Run(h, Initial(asset), requests).current == Some(s)
  }

  /**
   * Once any prefix of a run has fenced a generation or retired an epoch, the
   * snapshot after any continuation offers no intent a route over it.
   */
  lemma OutOfServiceNeverRoutable(h: Hooks, asset: Id, before: seq<Request>, after: seq<Request>, s: Snapshot, t: Snapshot,
                                  r: RouteHooks, i: Intent, id: Id, path: CursorKey)
    requires Shows(h, asset, before, s) && OutOfService(s, path) && Shows(h, asset, before + after, t)
    ensures !RoutesOver(r, t, i, id, path)
  {
    hide Run, Evolves, OutOfService, RoutesOver, KernelInv, FencesOk, BindingsOk;
    var k := Run(h, Initial(asset), before);
    InitialInv(asset);
    RunKeepsInv(h, Initial(asset), before);
    RunKeepsInv(h, k, after);
    RunSplit(h, Initial(asset), before, after);
    RunEvolves(h, k, after);
    OutOfServiceStays(s, t, path);
    RunLifecycle(Run(h, k, after));
    if RoutesOver(r, t, i, id, path) {
      ValidRoutes(r, t, i, id, path);
    }
  }

  /** So a fresh admission against that snapshot is granted only on a path still in service. */
  lemma FreshAdmissionInService(h: Hooks, asset: Id, before: seq<Request>, after: seq<Request>, s: Snapshot, t: Snapshot,
                                a: AdmitHooks, c: Context, i: Intent, authority: Option<Authority>, g: Grant, path: CursorKey)
    requires Shows(h, asset, before, s) && OutOfService(s, path) && Shows(h, asset, before + after, t)
    requires Verdict(a, t, c, i, authority) == Success(g)
    ensures g.route.path != path && RoutesOver(a.routes, t, i, g.route.capability, g.route.path)
  {
    hide Shows, OutOfService, Verdict, Met, RoutableIds, CandidateErrors, Offered;
    AdmittedMeans(a, t, c, i, authority, g);
    RoutableIsCurrent(a.routes, t, i, g.route.capability);
    if g.route.path == path {
      OutOfServiceNeverRoutable(h, asset, before, after, s, t, a.routes, i, g.route.capability, path);
    }
  }

  lemma RunLifecycle(k: State)
    requires KernelInv(k) && k.current.Some?
    ensures BindingsOk(k.current.value) && FencesOk(k.current.value)
  {
    hide Valid, BindingsOk, FencesOk, CursorsOk, OneOpenGeneration, LinksOk, ServicesOk, CapabilitiesOk, AllRetainedOk,
         SourcesHaveCursor, ContentErrors, KeyShapes, GraphFaults, WellKeyed;
    ValidMeans(k.current.value);
  }
}
