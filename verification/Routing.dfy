/** Intents and the search for the one capability of a snapshot that may carry them out. */
module Routing {
  import opened Errors
  import opened Graphs
  import opened Freshness
  import opened Records
  import opened Snapshots

  type Bytes = seq<nat>

  datatype Requirement = Requirement(definition: Id, versions: Id, instance: Option<Id>, allowDegraded: bool)
  datatype Precondition = Precondition(fact: Id, candidate: Id, revision: nat, details: Id)
  datatype Causal = Causal(reflected: bool, firstSeen: TimePoint, expires: TimePoint, path: seq<Id>, hops: nat, maxHops: nat, details: Id)

  datatype Intent = Intent(key: Id, asset: Id, required: Requirement, semantic: nat, capabilities: nat, instanceRevision: nat,
                           epoch: Id, generation: nat, preconditions: seq<Precondition>, effect: Id,
                           deadline: TimePoint, causal: Causal, details: Id)

  datatype Route = Route(capability: Id, service: Id, binding: Id, path: CursorKey)

  datatype VersionMatch = Matches(inRange: bool) | BadRange(error: Err)

  /** Pack registry and pack hooks, as far as routing asks them; all arbitrary. */
  datatype RouteHooks = RouteHooks(names: (Requirement, Id) -> bool, version: (Requirement, Id) -> VersionMatch,
                                   definition: Id -> Option<Err>, constraints: (Versioned<Capability>, Intent) -> bool)

  function Opt(e: Option<Err>): set<Err> { if e.Some? then {e.value} else {} }

  /** The capability has the required definition on the intended asset. */
  predicate Named(h: RouteHooks, i: Intent, c: Capability) { c.asset == i.asset && h.names(i.required, c.definition) }

  /** It also has a version in range and, when the intent names an instance, is that instance. */
  predicate Offered(h: RouteHooks, i: Intent, id: Id, c: Capability) {
    && Named(h, i, c) && h.version(i.required, c.definition) == Matches(true)
    && (i.required.instance.Some? ==> id == i.required.instance.value)
  }

  predicate Unavailable(i: Intent, c: Capability, s: Service) {
    || c.availability == Availability.Unavailable || c.availability == Withdrawn
    || s.availability == Availability.Unavailable || s.availability == Withdrawn
    || ((c.availability == Degraded || s.availability == Degraded) && !i.required.allowDegraded)
  }

  function IdentityErrors(i: Intent, links: Links, binding: Id): set<Err> {
    When(binding !in links || links[binding].body.asset != i.asset || links[binding].body.state != LinkQualified, IdentityNotQualified)
  }

  function OwnerErrors(i: Intent, c: Capability, b: Binding, s: Service): set<Err> {
    When(b.asset != i.asset || s.asset != i.asset || s.binding != c.binding, IdentityNotQualified)
    + When(b.path.epoch != i.epoch || c.epoch != i.epoch || s.epoch != i.epoch, StaleSourceEpoch)
    + When(b.path.generation != i.generation || c.generation != i.generation || s.generation != i.generation, StaleDriverGeneration)
  }

  function CurrentErrors(sources: Sources, b: Binding): set<Err> {
    When(SourceOf(b.path) !in sources || sources[SourceOf(b.path)].body.state != SourceCurrent, StaleSourceEpoch)
    + When(b.state == BindingFenced, StaleDriverGeneration) + When(b.state == BindingRetired, StaleSourceEpoch)
  }

  function UseErrors(h: RouteHooks, i: Intent, v: Versioned<Capability>, s: Service, ask: bool): set<Err> {
    var c := v.body;
    When(c.qualification != Qualified || s.qualification != Qualified, CapabilityNotQualified)
    + When(Unavailable(i, c, s), CapabilityUnavailable) + Opt(h.definition(c.definition))
    + When(h.definition(c.definition).None? && ask && !h.constraints(v, i), AmbiguousRoute)
  }

  /** Why an offered capability cannot carry the intent; ask says whether the constraint hook may be called. */
  function CandidateErrors(h: RouteHooks, s: Snapshot, i: Intent, id: Id, ask: bool): set<Err>
    requires id in s.capabilities
  {
    var v := s.capabilities[id]; var c := v.body;
    When(v.revision != i.instanceRevision, RevisionConflict)
    + if c.binding !in s.bindings || c.service !in s.services then {DanglingReference} else
      var b := s.bindings[c.binding].body; var service := s.services[c.service].body;
      IdentityErrors(i, s.links, c.binding) + OwnerErrors(i, c, b, service) + CurrentErrors(s.sources, b) + UseErrors(h, i, v, service, ask)
  }

  predicate Routable(h: RouteHooks, s: Snapshot, i: Intent, id: Id) {
    id in s.capabilities && Offered(h, i, id, s.capabilities[id].body) && CandidateErrors(h, s, i, id, true) == {}
  }

  function RouteOf(s: Snapshot, id: Id): Route
    requires id in s.capabilities && s.capabilities[id].body.binding in s.bindings
  {
    var c := s.capabilities[id].body;
    Route(id, c.service, c.binding, CursorKey(s.bindings[c.binding].body.path.source, c.epoch, c.generation))
  }

  function RoutableIds(h: RouteHooks, s: Snapshot, i: Intent): set<Id> {
    set id | id in s.capabilities && Routable(h, s, i, id)
  }

  /** Errors one capability contributes when no route is found. */
  function ErrorsOf(h: RouteHooks, s: Snapshot, i: Intent, id: Id, ask: bool): set<Err>
    requires id in s.capabilities
  {
    var c := s.capabilities[id].body;
    if !Named(h, i, c) then {}
    else if h.version(i.required, c.definition).BadRange? then {h.version(i.required, c.definition).error}
    else if !Offered(h, i, id, c) then {}
    else CandidateErrors(h, s, i, id, ask)
  }

  function ErrorsAmong(h: RouteHooks, s: Snapshot, i: Intent, ask: bool, ids: set<Id>): set<Err>
    requires ids <= s.capabilities.Keys
  {
    set id, e | id in ids && e in ErrorsOf(h, s, i, id, ask) :: e
  }

  /** A capability whose constraints would have been asked about. */
  predicate Skipped(h: RouteHooks, s: Snapshot, i: Intent, id: Id) {
    && id in s.capabilities && Offered(h, i, id, s.capabilities[id].body)
    && s.capabilities[id].body.binding in s.bindings && s.capabilities[id].body.service in s.services
    && h.definition(s.capabilities[id].body.definition).None?
  }

  /** Found a route, found none with a reason, or could not tell because constraints were not asked. */
  datatype Search = Found(route: Route) | NotFound(error: Err) | Undecided

  lemma RoutableBound(h: RouteHooks, s: Snapshot, i: Intent, id: Id)
    requires Routable(h, s, i, id)
    ensures s.capabilities[id].body.binding in s.bindings && s.capabilities[id].body.service in s.services
    ensures IdentityErrors(i, s.links, s.capabilities[id].body.binding) == {}
    ensures var c := s.capabilities[id].body; var b := s.bindings[c.binding].body; var service := s.services[c.service].body;
            && OwnerErrors(i, c, b, service) == {} && CurrentErrors(s.sources, b) == {}
            && UseErrors(h, i, s.capabilities[id], service, true) == {} && s.capabilities[id].revision == i.instanceRevision
  {
    hide IdentityErrors, OwnerErrors, CurrentErrors, UseErrors;
  }

  ghost function SearchOf(h: RouteHooks, s: Snapshot, i: Intent, ask: bool): Search {
    var ids := if ask then RoutableIds(h, s, i) else {};
    var errs := ErrorsAmong(h, s, i, ask, s.capabilities.Keys);
    if |ids| > 1 then NotFound(AmbiguousRoute)
    else if |ids| == 1 then
      var id :| id in ids;
      RoutableBound(h, s, i, id);
      Found(RouteOf(s, id))
    else if errs != {} then NotFound(Least(errs).value)
    else if !ask && exists id :: Skipped(h, s, i, id) then Undecided
    else NotFound(AmbiguousRoute)
  }

  /** Binding, source, link, service and path all stand behind the capability on the intended asset. */
  predicate Standing(s: Snapshot, i: Intent, c: Capability) {
    && c.binding in s.bindings && c.service in s.services && c.binding in s.links
    && var b := s.bindings[c.binding].body; var service := s.services[c.service].body; var link := s.links[c.binding].body;
       && b.asset == service.asset == link.asset == i.asset && service.binding == c.binding
       && b.state == BindingCurrent && link.state == LinkQualified
       && SourceOf(b.path) in s.sources && s.sources[SourceOf(b.path)].body.state == SourceCurrent
       && b.path.epoch == service.epoch == c.epoch == i.epoch && b.path.generation == service.generation == c.generation == i.generation
  }

  predicate Usable(i: Intent, qualification: Qualification, availability: Availability) {
    qualification == Qualified && (availability == Available || (availability == Degraded && i.required.allowDegraded))
  }

  /** Which capabilities an intent asks for at all. */
  lemma OfferedExact(h: RouteHooks, i: Intent, id: Id, c: Capability)
    ensures Offered(h, i, id, c) <==>
            && c.asset == i.asset && h.names(i.required, c.definition) && h.version(i.required, c.definition) == Matches(true)
            && i.required.instance in {None, Some(id)}
  {}

  /** Routability, without going through error classes. */
  lemma RoutableExact(h: RouteHooks, s: Snapshot, i: Intent, id: Id)
    ensures Routable(h, s, i, id) <==>
            && id in s.capabilities && Offered(h, i, id, s.capabilities[id].body)
            && var v := s.capabilities[id]; var c := v.body;
               && v.revision == i.instanceRevision && Standing(s, i, c) && Usable(i, c.qualification, c.availability)
               && Usable(i, s.services[c.service].body.qualification, s.services[c.service].body.availability)
               && h.definition(c.definition).None? && h.constraints(v, i)
  {
    hide Offered;
    if Routable(h, s, i, id) { RoutableBound(h, s, i, id); }
  }

  lemma RoutableIff(h: RouteHooks, s: Snapshot, i: Intent, id: Id)
    requires id in s.capabilities
    ensures Routable(h, s, i, id) <==> Offered(h, i, id, s.capabilities[id].body) && ErrorsOf(h, s, i, id, true) == {}
    ensures Routable(h, s, i, id) ==> s.capabilities[id].body.binding in s.bindings
  {
    hide CandidateErrors;
    if Routable(h, s, i, id) { RoutableBound(h, s, i, id); }
  }

  /** What the loop over the capabilities has gathered from those already seen. */
  ghost predicate Gathered(h: RouteHooks, s: Snapshot, i: Intent, ask: bool, seen: set<Id>,
                           routes: map<Id, Route>, best: Option<Err>, skipped: bool) {
    && seen <= s.capabilities.Keys && best == Least(ErrorsAmong(h, s, i, ask, seen))
    && (skipped <==> !ask && exists id :: id in seen && Skipped(h, s, i, id))
    && (forall id :: id in routes <==> ask && id in seen && Routable(h, s, i, id))
    && (forall id :: id in routes ==> s.capabilities[id].body.binding in s.bindings && routes[id] == RouteOf(s, id))
  }

  lemma GatherErrors(h: RouteHooks, s: Snapshot, i: Intent, ask: bool, seen: set<Id>, id: Id)
    requires seen <= s.capabilities.Keys && id in s.capabilities
    ensures Least(ErrorsAmong(h, s, i, ask, seen + {id})) ==
            Best(Least(ErrorsAmong(h, s, i, ask, seen)), Least(ErrorsOf(h, s, i, id, ask)))
  {
    hide ErrorsOf;
    assert ErrorsAmong(h, s, i, ask, seen + {id}) == ErrorsAmong(h, s, i, ask, seen) + ErrorsOf(h, s, i, id, ask);
    LeastOfUnion(ErrorsAmong(h, s, i, ask, seen), ErrorsOf(h, s, i, id, ask));
  }

  /** One more capability. */
  lemma GatherOne(h: RouteHooks, s: Snapshot, i: Intent, ask: bool, seen: set<Id>, routes: map<Id, Route>, best: Option<Err>,
                  skipped: bool, id: Id, more: map<Id, Route>)
    requires Gathered(h, s, i, ask, seen, routes, best, skipped) && id in s.capabilities && id !in seen
    requires Routable(h, s, i, id) ==> s.capabilities[id].body.binding in s.bindings
    requires more == if ask && Routable(h, s, i, id) then routes[id := RouteOf(s, id)] else routes
    ensures Gathered(h, s, i, ask, seen + {id}, more, Best(best, Least(ErrorsOf(h, s, i, id, ask))), skipped || (!ask && Skipped(h, s, i, id)))
  {
    hide ErrorsOf, Routable, Skipped, RouteOf, ErrorsAmong;
    GatherErrors(h, s, i, ask, seen, id);
  }

  method FindRoute(h: RouteHooks, s: Snapshot, i: Intent, ask: bool) returns (r: Search)
    ensures r == SearchOf(h, s, i, ask)
  {
    hide CandidateErrors, ErrorsOf, Skipped, Gathered, Offered, SearchOf, RouteOf, Routable;
    var routes: map<Id, Route> := map[];
    var best: Option<Err>, skipped := None, false;
    var todo := s.capabilities.Keys;
    ghost var seen: set<Id> := {};
    assert Gathered(h, s, i, ask, seen, routes, best, skipped) by { GatherNone(h, s, i, ask); }
    while todo != {}
      invariant seen + todo == s.capabilities.Keys && seen !! todo
      invariant Gathered(h, s, i, ask, seen, routes, best, skipped)
      decreases |todo|
    {
      var id :| id in todo;
      var errs := ErrorsOf(h, s, i, id, ask);
      var worst := LeastOf(errs);
      var more := routes;
      RoutableIff(h, s, i, id);
      if ask && errs == {} && Offered(h, i, id, s.capabilities[id].body) {
        more := routes[id := RouteOf(s, id)];
      }
      GatherOne(h, s, i, ask, seen, routes, best, skipped, id, more);
      skipped := skipped || (!ask && Skipped(h, s, i, id));
      routes, best := more, Best(best, worst);
      todo, seen := todo - {id}, seen + {id};
    }
    assert seen == s.capabilities.Keys;
    r := Choose(h, s, i, ask, routes, best, skipped);
  }

  lemma GatherNone(h: RouteHooks, s: Snapshot, i: Intent, ask: bool)
    ensures Gathered(h, s, i, ask, {}, map[], None, false)
  {
    assert ErrorsAmong(h, s, i, ask, {}) == {};
  }

  lemma OnlyOne(ids: set<Id>, id: Id)
    requires |ids| == 1 && id in ids
    ensures ids == {id}
  {
    assert |ids - {id}| == 0;
  }

  /** The verdict once every capability has been seen. */
  method Choose(h: RouteHooks, s: Snapshot, i: Intent, ask: bool, routes: map<Id, Route>, best: Option<Err>, skipped: bool) returns (r: Search)
    requires Gathered(h, s, i, ask, s.capabilities.Keys, routes, best, skipped)
    ensures r == SearchOf(h, s, i, ask)
  {
    hide ErrorsOf, Routable, Offered, RouteOf, CandidateErrors, ErrorsAmong;
    ghost var ids := if ask then RoutableIds(h, s, i) else {};
    assert routes.Keys == ids;
    assert |routes| == |routes.Keys|;
    if |routes| > 1 {
      r := NotFound(AmbiguousRoute);
    } else if |routes| == 1 {
      var id :| id in routes;
      OnlyOne(ids, id);
      r := Found(routes[id]);
    } else if best.Some? {
      r := NotFound(best.value);
    } else {
      r := if skipped then Undecided else NotFound(AmbiguousRoute);
    }
  }

  /** A found route is the only eligible capability of the snapshot, reproduced field by field. */
  lemma FoundIsUnique(h: RouteHooks, s: Snapshot, i: Intent, ask: bool, route: Route)
    requires SearchOf(h, s, i, ask) == Found(route)
    ensures ask && Routable(h, s, i, route.capability) && RoutableIds(h, s, i) == {route.capability}
    ensures var c := s.capabilities[route.capability].body;
            && c.binding == route.binding && c.service == route.service && route.binding in s.bindings
            && s.bindings[route.binding].body.path == route.path && route.path.epoch == i.epoch && route.path.generation == i.generation
  {
    hide ErrorsOf, CandidateErrors, IdentityErrors, UseErrors, CurrentErrors, Offered;
    var ids := RoutableIds(h, s, i);
    var id :| id in ids;
    OnlyOne(ids, id);
    RoutableBound(h, s, i, id);
  }

  /** The route repeats the records of its capability, field by field. */
  predicate IsRouteOf(h: RouteHooks, s: Snapshot, i: Intent, r: Route) {
    && Routable(h, s, i, r.capability) && r.binding in s.bindings
    && s.capabilities[r.capability].body.binding == r.binding && s.capabilities[r.capability].body.service == r.service
    && s.capabilities[r.capability].revision == i.instanceRevision
    && s.bindings[r.binding].body.path == r.path && r.path.epoch == i.epoch && r.path.generation == i.generation
  }

  /**
   * A route is found exactly when constraints may be asked and one capability is
   * routable, whatever is wrong with the others; several are ambiguous; only
   * unasked constraints leave the matter open.
   */
  lemma SearchExact(h: RouteHooks, s: Snapshot, i: Intent, ask: bool, route: Route)
    ensures SearchOf(h, s, i, ask) == Found(route) <==> ask && RoutableIds(h, s, i) == {route.capability} && IsRouteOf(h, s, i, route)
    ensures ask && |RoutableIds(h, s, i)| > 1 ==> SearchOf(h, s, i, ask) == NotFound(AmbiguousRoute)
    ensures ask && RoutableIds(h, s, i) == {} ==> SearchOf(h, s, i, ask).NotFound?
    ensures SearchOf(h, s, i, ask) == Undecided ==> !ask
  {
    hide Routable, ErrorsOf, ErrorsAmong, Skipped;
    var ids := RoutableIds(h, s, i);
    if SearchOf(h, s, i, ask) == Found(route) {
      FoundIsUnique(h, s, i, ask, route);
      RoutableBound(h, s, i, route.capability);
    }
    if ask && ids == {route.capability} && IsRouteOf(h, s, i, route) {
      assert route.capability in ids;
      RoutableBound(h, s, i, route.capability);
      assert |ids| == 1;
    }
  }

  /** Unasked constraints leave the search open exactly when some offered capability has no other fault and none has any. */
  lemma UndecidedExact(h: RouteHooks, s: Snapshot, i: Intent, ask: bool)
    ensures SearchOf(h, s, i, ask) == Undecided <==>
            && !ask && (forall id :: id in s.capabilities ==> ErrorsOf(h, s, i, id, false) == {})
            && (exists id :: id in s.capabilities && Offered(h, i, id, s.capabilities[id].body))
  {
    hide Offered, ErrorsOf, Named;
    var errs := ErrorsAmong(h, s, i, false, s.capabilities.Keys);
    assert errs == {} <==> forall id :: id in s.capabilities ==> ErrorsOf(h, s, i, id, false) == {} by {
      if errs == {} {
        forall id | id in s.capabilities ensures ErrorsOf(h, s, i, id, false) == {} {
          assert forall e :: e in ErrorsOf(h, s, i, id, false) ==> e in errs;
        }
      }
    }
    forall id | id in s.capabilities && ErrorsOf(h, s, i, id, false) == {}
      ensures Skipped(h, s, i, id) <==> Offered(h, i, id, s.capabilities[id].body) {
      SkippedWhenClean(h, s, i, id);
    }
  }

  lemma SkippedWhenClean(h: RouteHooks, s: Snapshot, i: Intent, id: Id)
    requires id in s.capabilities && ErrorsOf(h, s, i, id, false) == {}
    ensures Skipped(h, s, i, id) <==> Offered(h, i, id, s.capabilities[id].body)
  {
    hide IdentityErrors, OwnerErrors, CurrentErrors, Unavailable;
  }

  // ---------------------------------------------------------------- classes

  lemma IdentityClasses(i: Intent, links: Links, c: Capability, b: Binding, f: Service)
    ensures IdentityErrors(i, links, c.binding) + OwnerErrors(i, c, b, f) <= {IdentityNotQualified, StaleSourceEpoch, StaleDriverGeneration}
    ensures IdentityNotQualified in IdentityErrors(i, links, c.binding) + OwnerErrors(i, c, b, f) <==>
            || c.binding !in links || links[c.binding].body.asset != i.asset || links[c.binding].body.state != LinkQualified
            || b.asset != i.asset || f.asset != i.asset || f.binding != c.binding
    ensures StaleSourceEpoch in IdentityErrors(i, links, c.binding) + OwnerErrors(i, c, b, f) <==>
            b.path.epoch != i.epoch || c.epoch != i.epoch || f.epoch != i.epoch
    ensures StaleDriverGeneration in IdentityErrors(i, links, c.binding) + OwnerErrors(i, c, b, f) <==>
            b.path.generation != i.generation || c.generation != i.generation || f.generation != i.generation
  {}

  lemma CurrentClasses(sources: Sources, b: Binding)
    ensures CurrentErrors(sources, b) <= {StaleSourceEpoch, StaleDriverGeneration}
    ensures StaleSourceEpoch in CurrentErrors(sources, b) <==>
            b.state == BindingRetired || !(SourceOf(b.path) in sources && sources[SourceOf(b.path)].body.state == SourceCurrent)
    ensures StaleDriverGeneration in CurrentErrors(sources, b) <==> b.state == BindingFenced
  {}

  lemma UseClasses(h: RouteHooks, i: Intent, v: Versioned<Capability>, f: Service, ask: bool)
    requires h.definition(v.body.definition).None?
    ensures UseErrors(h, i, v, f, ask) <= {CapabilityNotQualified, CapabilityUnavailable, AmbiguousRoute}
    ensures CapabilityNotQualified in UseErrors(h, i, v, f, ask) <==> v.body.qualification != Qualified || f.qualification != Qualified
    ensures CapabilityUnavailable in UseErrors(h, i, v, f, ask) <==>
            || v.body.availability in {Availability.Unavailable, Withdrawn} || f.availability in {Availability.Unavailable, Withdrawn}
            || (Degraded in {v.body.availability, f.availability} && !i.required.allowDegraded)
    ensures AmbiguousRoute in UseErrors(h, i, v, f, ask) <==> ask && !h.constraints(v, i)
  {}

  /** The faults of an offered capability are those of its identity, its path, its use and its own revision. */
  lemma CandidateClasses(h: RouteHooks, s: Snapshot, i: Intent, id: Id, ask: bool)
    requires id in s.capabilities
    ensures var v := s.capabilities[id]; var c := v.body; var errs := CandidateErrors(h, s, i, id, ask);
            && (v.revision != i.instanceRevision ==> RevisionConflict in errs)
            && (if c.binding !in s.bindings || c.service !in s.services then errs == {DanglingReference} + When(v.revision != i.instanceRevision, RevisionConflict)
                else
                  var b := s.bindings[c.binding].body; var f := s.services[c.service].body;
                  errs == When(v.revision != i.instanceRevision, RevisionConflict)
                          + ((IdentityErrors(i, s.links, c.binding) + OwnerErrors(i, c, b, f)) + CurrentErrors(s.sources, b) + UseErrors(h, i, v, f, ask)))
  {
    hide IdentityErrors, OwnerErrors, CurrentErrors, UseErrors;
  }
}
