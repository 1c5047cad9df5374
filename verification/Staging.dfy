/**
 * The staging loops of a batch: upserts and withdrawals applied one by one, in
 * any order, each diagnosed as it is met.  What they leave behind is the closed
 * form of the step, so neither the result nor the diagnostics depend on order.
 */
module Staging {
  import opened Errors
  import opened Graphs
  import opened Records
  import opened Lineage
  import opened Resolver
  import opened Snapshots
  import opened Transition
  import opened Publication
  import opened Batches

  /** The part of an upsert map already visited, laid over the old map. */
  ghost function Over<K, V>(before: map<K, V>, upserts: map<K, V>, todo: set<K>): map<K, V> {
    before + map k | k in upserts && k !in todo :: upserts[k]
  }

  lemma OverNext<K, V>(before: map<K, V>, upserts: map<K, V>, todo: set<K>, k: K)
    requires k in upserts && k in todo
    ensures Over(before, upserts, todo - {k}) == Over(before, upserts, todo)[k := upserts[k]]
  {}

  lemma OverAll<K, V>(before: map<K, V>, upserts: map<K, V>)
    ensures Over(before, upserts, {}) == before + upserts && Over(before, upserts, upserts.Keys) == before
  {
    assert (map k | k in upserts && k !in {} :: upserts[k]) == upserts;
  }

  /** Between two maps with the same keys: the visited keys already have their new value. */
  ghost function Part<K, V>(before: map<K, V>, after: map<K, V>, todo: set<K>): map<K, V>
    requires before.Keys == after.Keys
  {
    map k | k in before :: if k in todo then before[k] else after[k]
  }

  lemma PartNext<K, V>(before: map<K, V>, after: map<K, V>, todo: set<K>, k: K)
    requires before.Keys == after.Keys && k in todo
    ensures Part(before, after, todo).Keys == before.Keys && (k in before ==> Part(before, after, todo)[k] == before[k])
    ensures k in before && before[k] == after[k] ==> Part(before, after, todo - {k}) == Part(before, after, todo)
    ensures Part(before, after, todo - {k}) == if k in before then Part(before, after, todo)[k := after[k]] else Part(before, after, todo)
  {}

  lemma PartEnds<K, V>(before: map<K, V>, after: map<K, V>, todo: set<K>)
    requires before.Keys == after.Keys && forall k :: k in before && k !in todo ==> before[k] == after[k]
    ensures Part(before, after, todo) == before && Part(before, after, {}) == after
  {}

  /** Upserts with no condition of their own. */
  method UpsertAll<K(==), V>(before: map<K, V>, upserts: map<K, V>) returns (r: map<K, V>)
    ensures r == before + upserts
  {
    hide Over;
    r := before;
    var todo := upserts.Keys;
    OverAll(before, upserts);
    while todo != {}
      invariant todo <= upserts.Keys && r == Over(before, upserts, todo)
      decreases |todo|
    {
      var k :| k in todo;
      OverNext(before, upserts, todo, k);
      r := r[k := upserts[k]];
      todo := todo - {k};
    }
  }

  /** Retire epoch by epoch whatever the upserts left of it. */
  method RetireSources(b: Batch, staged: Sources) returns (sources: Sources)
    ensures sources.Keys == staged.Keys
    ensures forall k :: k in sources ==> sources[k] == if Retiring(b, k) then RetireSource(staged[k]) else staged[k]
  {
    hide RetireSource;
    sources := staged;
    var epochs := b.retirements;
    while epochs != {}
      invariant epochs <= b.retirements && sources.Keys == staged.Keys
      invariant forall k :: k in sources ==> sources[k] == if Retiring(b, k) && k.epoch !in epochs then RetireSource(staged[k]) else staged[k]
      decreases |epochs|
    {
      var epoch :| epoch in epochs;
      var key := SourceKey(b.header.source, epoch);
      if key in sources {
        sources := sources[key := RetireSource(sources[key])];
      }
      epochs := epochs - {epoch};
    }
  }

  method DiagnoseRetirements(s: Snapshot, b: Batch) returns (ok: bool)
    ensures ok == RetirementsCurrent(s, b)
  {
    ok := true;
    var todo := b.retirements;
    while todo != {}
      invariant todo <= b.retirements
      invariant ok <==> forall e :: e in b.retirements && e !in todo ==> IsCurrent(s.sources, SourceKey(b.header.source, e))
      decreases |todo|
    {
      var e :| e in todo;
      if !IsCurrent(s.sources, SourceKey(b.header.source, e)) { ok := false; }
      todo := todo - {e};
    }
  }

  method DiagnoseUpserts(s: Snapshot, b: Batch) returns (open: bool, steps: bool)
    ensures open == SourceUpsertsOpen(s, b) && steps == SourceUpsertsStep(s, b)
  {
    hide SourceUpsertOpen, RevisionStep;
    open, steps := true, true;
    var todo := b.sources.Keys;
    while todo != {}
      invariant todo <= b.sources.Keys
      invariant open <==> forall k :: k in b.sources && k !in todo && k in s.sources ==> SourceUpsertOpen(s, b, k)
      invariant steps <==> forall k :: k in b.sources && k !in todo && k in s.sources ==> RevisionStep(s.sources[k], b.sources[k])
      decreases |todo|
    {
      var k :| k in todo;
      if k in s.sources {
        if !SourceUpsertOpen(s, b, k) { open := false; }
        if !RevisionStep(s.sources[k], b.sources[k]) { steps := false; }
      }
      todo := todo - {k};
    }
  }

  /** Retirements, the other current epochs and the upserts are each looked at in any order. */
  method DiagnoseSources(s: Snapshot, b: Batch) returns (errs: set<Err>)
    ensures errs == SourceErrors(s, b)
  {
    hide RetirementsCurrent, OtherEpochsRetire, HeaderEpochOpen, SourceUpsertsOpen, SourceUpsertsStep, StagedSources;
    var retirable := DiagnoseRetirements(s, b);
    var others := DiagnoseEpochs(s, b);
    var open, steps := DiagnoseUpserts(s, b);
    errs := When(!(retirable && others && HeaderEpochOpen(s, b) && open), StaleSourceEpoch) + When(!steps, RevisionConflict)
            + When(SourceOf(b.header) !in StagedSources(s, b), DanglingReference);
  }

  method DiagnoseEpochs(s: Snapshot, b: Batch) returns (ok: bool)
    ensures ok == OtherEpochsRetire(s, b)
  {
    ok := true;
    var todo := s.sources.Keys;
    while todo != {}
      invariant todo <= s.sources.Keys
      invariant ok <==> forall k :: k in s.sources && k !in todo && OtherEpoch(s, b, k) ==> k.epoch in b.retirements
      decreases |todo|
    {
      var k :| k in todo;
      if OtherEpoch(s, b, k) && k.epoch !in b.retirements { ok := false; }
      todo := todo - {k};
    }
  }

  /** The cursors are visited in any order, twice: for a regressed header and for open generations of its epoch. */
  method DiagnoseRegression(s: Snapshot, b: Batch) returns (regressed: bool)
    ensures regressed == Regressed(s, b)
  {
    regressed := false;
    var todo := s.cursors.Keys;
    while todo != {}
      invariant todo <= s.cursors.Keys
      invariant regressed <==> exists k :: k in s.cursors && k !in todo && SameEpoch(k, b.header) && b.header.generation < k.generation
      decreases |todo|
    {
      var k :| k in todo;
      if SameEpoch(k, b.header) && b.header.generation < k.generation { regressed := true; }
      todo := todo - {k};
    }
  }

  predicate OpenInEpoch(s: Snapshot, b: Batch, k: CursorKey) { k in s.cursors && SameEpoch(k, b.header) && !s.cursors[k].fenced }

  method DiagnoseOpen(s: Snapshot, b: Batch) returns (notStale: bool, complete: bool)
    ensures notStale == GenerationNotStale(s, b) && complete == OlderGenerationsFenced(s, b)
  {
    notStale, complete := true, true;
    var todo := s.cursors.Keys;
    while todo != {}
      invariant todo <= s.cursors.Keys
      invariant notStale <==> forall k :: k in s.cursors && k !in todo && OpenInEpoch(s, b, k) ==> k.generation <= b.header.generation
      invariant complete <==> forall k :: k in s.cursors && k !in todo && OpenInEpoch(s, b, k) && k.generation < b.header.generation ==> k in b.fences
      decreases |todo|
    {
      var k :| k in todo;
      if OpenInEpoch(s, b, k) {
        if b.header.generation < k.generation { notStale := false; }
        if k.generation < b.header.generation && k !in b.fences { complete := false; }
      }
      todo := todo - {k};
    }
  }

  method DiagnoseFences(s: Snapshot, b: Batch) returns (known: bool, isNew: bool)
    ensures known == FencesKnown(s, b) && isNew == FencesNew(s, b)
  {
    known, isNew := true, true;
    var todo := b.fences.Keys;
    while todo != {}
      invariant todo <= b.fences.Keys
      invariant known <==> forall k :: k in b.fences && k !in todo ==> k in s.cursors
      invariant isNew <==> forall k :: k in b.fences && k !in todo && k in s.cursors ==> NewFence(s, b, k)
      decreases |todo|
    {
      var k :| k in todo;
      if k !in s.cursors { known := false; }
      else if !NewFence(s, b, k) { isNew := false; }
      todo := todo - {k};
    }
  }

  method DiagnoseGenerations(s: Snapshot, b: Batch) returns (errs: set<Err>)
    ensures errs == GenerationErrors(s, b)
  {
    hide GenerationNotStale, OlderGenerationsFenced, FencesKnown, FencesNew, HeaderGenerationOpen;
    var notStale, complete := DiagnoseOpen(s, b);
    var known, isNew := DiagnoseFences(s, b);
    errs := When(!(notStale && isNew && HeaderGenerationOpen(b)), StaleDriverGeneration)
            + When(!complete, GenerationTransitionIncomplete) + When(!known, DanglingReference);
  }

  method StageSources(s: Snapshot, b: Batch) returns (sources: Sources)
    ensures sources == NextSources(s, b)
  {
    hide Retiring, RetireSource;
    var staged := UpsertAll(s.sources, b.sources);
    sources := RetireSources(b, staged);
    assert sources == NextSources(s, b);
  }

  /** A fence goes on record when its cursor is known. */
  method StageFences(s: Snapshot, b: Batch) returns (fences: Fences)
    ensures fences == NextFences(s, b)
  {
    fences := s.fences;
    var todo := b.fences.Keys;
    OverNone(s.fences, NewFences(s, b), todo);
    OverAll(s.fences, NewFences(s, b));
    while todo != {}
      invariant todo <= b.fences.Keys && fences == Over(s.fences, NewFences(s, b), todo)
      decreases |todo|
    {
      hide Over;
      var k :| k in todo;
      OverStep(s.fences, NewFences(s, b), todo, k);
      if k in s.cursors {
        fences := fences[k := b.fences[k]];
      }
      todo := todo - {k};
    }
  }

  /** Fences close their cursors; the header's cursor records the batch. */
  method StageCursors(s: Snapshot, b: Batch) returns (cursors: Cursors)
    ensures cursors == NextCursors(s, b)
  {
    cursors := s.cursors;
    var todo := b.fences.Keys;
    while todo != {}
      invariant todo <= b.fences.Keys && cursors.Keys == s.cursors.Keys
      invariant forall k :: k in cursors ==> cursors[k] == if k in b.fences && k !in todo then s.cursors[k].(fenced := true) else s.cursors[k]
      decreases |todo|
    {
      var k :| k in todo;
      todo := todo - {k};
      if k in cursors {
        cursors := cursors[k := cursors[k].(fenced := true)];
      }
    }
    assert cursors == FencedCursors(s, b);
    cursors := cursors[b.header := Cursor(b.sequence, b.digest, b.header in b.fences)];
  }

  method StageBindings(s: Snapshot, b: Batch, moved: Objects) returns (bindings: Bindings, errs: set<Err>)
    requires moved == Moved(s, b)
    ensures bindings == NextBindings(s, b) && errs == BindingErrors(s, b)
  {
    hide Over, Moved, BindingErrorsOf, NextBindings, BindingErrors;
    bindings, errs := moved.bindings, {};
    var todo := b.bindings.Keys;
    OverAll(moved.bindings, b.bindings);
    while todo != {}
      invariant todo <= b.bindings.Keys && bindings == Over(moved.bindings, b.bindings, todo)
      invariant forall e :: e in errs <==> exists id :: id in b.bindings && id !in todo && e in BindingErrorsOf(s, b, id)
      decreases |todo|
    {
      var id :| id in todo;
      errs := errs + BindingErrorsOf(s, b, id);
      OverNext(moved.bindings, b.bindings, todo, id);
      bindings := bindings[id := b.bindings[id]];
      todo := todo - {id};
    }
    BindingsDone(s, b, errs);
  }

  lemma BindingsDone(s: Snapshot, b: Batch, errs: set<Err>)
    requires forall e :: e in errs <==> exists id :: id in b.bindings && e in BindingErrorsOf(s, b, id)
    ensures Moved(s, b).bindings + b.bindings == NextBindings(s, b) && errs == BindingErrors(s, b)
  {
    hide Moved, BindingErrorsOf;
  }

  method StageLinks(s: Snapshot, b: Batch, moved: Objects, bindings: Bindings) returns (links: Links, errs: set<Err>)
    requires moved == Moved(s, b) && bindings == NextBindings(s, b)
    ensures links == NextLinks(s, b) && errs == LinkErrors(s, b)
  {
    hide Over, Moved, NextBindings, LinkErrorsOf;
    links, errs := moved.links, {};
    ghost var known := map id | id in b.links && id in bindings :: b.links[id];
    var todo := b.links.Keys;
    OverAll(moved.links, known);
    assert Over(moved.links, known, todo) == moved.links by { OverNone(moved.links, known, todo); }
    while todo != {}
      invariant todo <= b.links.Keys && links == Over(moved.links, known, todo)
      invariant forall e :: e in errs <==> exists id :: id in b.links && id !in todo && e in LinkErrorsOf(s, b, id)
      decreases |todo|
    {
      var id :| id in todo;
      errs := errs + LinkErrorsOf(s, b, id);
      OverStep(moved.links, known, todo, id);
      if id in bindings {
        links := links[id := b.links[id]];
      }
      todo := todo - {id};
    }
    assert errs == LinkErrors(s, b);
  }

  lemma OverNone<K, V>(before: map<K, V>, upserts: map<K, V>, todo: set<K>)
    requires upserts.Keys <= todo
    ensures Over(before, upserts, todo) == before
  {}

  lemma OverStep<K, V>(before: map<K, V>, upserts: map<K, V>, todo: set<K>, k: K)
    requires k in todo
    ensures Over(before, upserts, todo - {k}) == if k in upserts then Over(before, upserts, todo)[k := upserts[k]] else Over(before, upserts, todo)
  {}

  method StageServices(h: Hooks, s: Snapshot, b: Batch, moved: Objects, bindings: Bindings) returns (services: Services, errs: set<Err>)
    requires moved == Moved(s, b) && bindings == NextBindings(s, b)
    ensures services == StagedServices(s, b)
    ensures forall e :: e in errs <==> exists id :: id in b.services && e in ServiceErrorsOf(h, s, b, id)
  {
    hide Over, Moved, NextBindings, ServiceErrorsOf;
    services, errs := moved.services, {};
    ghost var known := map id | id in b.services && b.services[id].body.binding in bindings :: b.services[id];
    var todo := b.services.Keys;
    OverAll(moved.services, known);
    OverNone(moved.services, known, todo);
    while todo != {}
      invariant todo <= b.services.Keys && services == Over(moved.services, known, todo)
      invariant forall e :: e in errs <==> exists id :: id in b.services && id !in todo && e in ServiceErrorsOf(h, s, b, id)
      decreases |todo|
    {
      var id :| id in todo;
      errs := errs + ServiceErrorsOf(h, s, b, id);
      OverStep(moved.services, known, todo, id);
      if b.services[id].body.binding in bindings {
        services := services[id := b.services[id]];
      }
      todo := todo - {id};
    }
  }

  method WithdrawServices(s: Snapshot, b: Batch, staged: Services) returns (services: Services, errs: set<Err>)
    requires staged == StagedServices(s, b)
    ensures services == NextServices(s, b)
    ensures forall e :: e in errs <==> exists id :: id in b.serviceWithdrawals && e in ServiceWithdrawalErrorsOf(s, b, id)
  {
    hide StagedServices, NextServices, ServiceWithdrawalErrorsOf, WithdrawService, Part;
    services, errs := staged, {};
    var todo := b.serviceWithdrawals;
    NextServicesAt(s, b, staged);
    PartEnds(staged, NextServices(s, b), todo);
    while todo != {}
      invariant todo <= b.serviceWithdrawals && services == Part(staged, NextServices(s, b), todo)
      invariant forall e :: e in errs <==> exists id :: id in b.serviceWithdrawals && id !in todo && e in ServiceWithdrawalErrorsOf(s, b, id)
      decreases |todo|
    {
      var id :| id in todo;
      errs := errs + ServiceWithdrawalErrorsOf(s, b, id);
      PartNext(staged, NextServices(s, b), todo, id);
      if id in s.services && id in services {
        services := services[id := WithdrawService(services[id])];
      }
      todo := todo - {id};
    }
  }

  lemma NextServicesAt(s: Snapshot, b: Batch, staged: Services)
    requires staged == StagedServices(s, b)
    ensures NextServices(s, b).Keys == staged.Keys
    ensures forall id :: id in staged ==>
      NextServices(s, b)[id] == if id in b.serviceWithdrawals && id in s.services then WithdrawService(staged[id]) else staged[id]
  {
    hide StagedServices, WithdrawService;
  }

  method StageCapabilities(h: Hooks, s: Snapshot, b: Batch, moved: Objects, bindings: Bindings, services: Services)
    returns (capabilities: Capabilities, errs: set<Err>)
    requires moved == Moved(s, b) && bindings == NextBindings(s, b) && services == NextServices(s, b)
    ensures capabilities == StagedCapabilities(s, b)
    ensures forall e :: e in errs <==> exists id :: id in b.capabilities && e in CapabilityErrorsOf(h, s, b, id)
  {
    hide Over, Moved, NextBindings, NextServices, CapabilityErrorsOf;
    capabilities, errs := moved.capabilities, {};
    ghost var known := map id | id in b.capabilities && b.capabilities[id].body.binding in bindings && b.capabilities[id].body.service in services
                         :: b.capabilities[id];
    var todo := b.capabilities.Keys;
    OverAll(moved.capabilities, known);
    OverNone(moved.capabilities, known, todo);
    while todo != {}
      invariant todo <= b.capabilities.Keys && capabilities == Over(moved.capabilities, known, todo)
      invariant forall e :: e in errs <==> exists id :: id in b.capabilities && id !in todo && e in CapabilityErrorsOf(h, s, b, id)
      decreases |todo|
    {
      var id :| id in todo;
      errs := errs + CapabilityErrorsOf(h, s, b, id);
      OverStep(moved.capabilities, known, todo, id);
      if b.capabilities[id].body.binding in bindings && b.capabilities[id].body.service in services {
        capabilities := capabilities[id := b.capabilities[id]];
      }
      todo := todo - {id};
    }
  }

  method WithdrawCapabilities(s: Snapshot, b: Batch, staged: Capabilities) returns (capabilities: Capabilities, errs: set<Err>)
    requires staged == StagedCapabilities(s, b)
    ensures capabilities == NextCapabilities(s, b)
    ensures forall e :: e in errs <==> exists id :: id in b.capabilityWithdrawals && e in CapabilityWithdrawalErrorsOf(s, b, id)
  {
    hide StagedCapabilities, NextCapabilities, CapabilityWithdrawalErrorsOf, WithdrawCapability, Part;
    capabilities, errs := staged, {};
    var todo := b.capabilityWithdrawals;
    NextCapabilitiesAt(s, b, staged);
    PartEnds(staged, NextCapabilities(s, b), todo);
    while todo != {}
      invariant todo <= b.capabilityWithdrawals && capabilities == Part(staged, NextCapabilities(s, b), todo)
      invariant forall e :: e in errs <==> exists id :: id in b.capabilityWithdrawals && id !in todo && e in CapabilityWithdrawalErrorsOf(s, b, id)
      decreases |todo|
    {
      var id :| id in todo;
      errs := errs + CapabilityWithdrawalErrorsOf(s, b, id);
      PartNext(staged, NextCapabilities(s, b), todo, id);
      if id in s.capabilities && id in capabilities {
        capabilities := capabilities[id := WithdrawCapability(capabilities[id])];
      }
      todo := todo - {id};
    }
  }

  lemma NextCapabilitiesAt(s: Snapshot, b: Batch, staged: Capabilities)
    requires staged == StagedCapabilities(s, b)
    ensures NextCapabilities(s, b).Keys == staged.Keys
    ensures forall id :: id in staged ==>
      NextCapabilities(s, b)[id] == if id in b.capabilityWithdrawals && id in s.capabilities then WithdrawCapability(staged[id]) else staged[id]
  {
    hide StagedCapabilities, WithdrawCapability;
  }

  // ---------------------------------------------------------------- facts and their withdrawal

  /** Upserted facts are staged and diagnosed one by one; a new one that finds the stage full is a bounds error. */
  method StageFacts(h: Hooks, s: Snapshot, b: Batch) returns (facts: Candidates, errs: set<Err>, full: bool)
    ensures facts == s.facts + b.facts && full == Overfull(s, b)
    ensures forall e :: e in errs <==> exists id :: id in b.facts && e in FactErrorsOf(h, s, b, id)
  {
    hide Over, FactErrorsOf, Overfull, Full;
    facts, errs, full := s.facts, {}, false;
    var todo := b.facts.Keys;
    FullAtEnds(s, b);
    OverAll(s.facts, b.facts);
    while todo != {}
      invariant todo <= b.facts.Keys && facts == Over(s.facts, b.facts, todo) && (full <==> Full(s.facts, facts))
      invariant forall e :: e in errs <==> exists id :: id in b.facts && id !in todo && e in FactErrorsOf(h, s, b, id)
      decreases |todo|
    {
      var id :| id in todo;
      errs := errs + FactErrorsOf(h, s, b, id);
      FullNext(s, b, todo, id);
      full := full || (id !in facts && |facts| >= MAX_STAGED_NODES);
      OverNext(s.facts, b.facts, todo, id);
      facts := facts[id := b.facts[id]];
      todo := todo - {id};
    }
  }

  /** More than the limit, and not only by what was published before. */
  ghost predicate Full(before: Candidates, facts: Candidates) { |facts| > MAX_STAGED_NODES && !(facts.Keys <= before.Keys) }

  /** One more candidate: full exactly when it or an earlier new one found the limit reached. */
  lemma FullNext(s: Snapshot, b: Batch, todo: set<Id>, id: Id)
    requires todo <= b.facts.Keys && id in todo
    ensures var facts := Over(s.facts, b.facts, todo);
            Full(s.facts, facts[id := b.facts[id]]) <==> Full(s.facts, facts) || (id !in facts && |facts| >= MAX_STAGED_NODES)
  {
    var facts := Over(s.facts, b.facts, todo);
    var next := facts[id := b.facts[id]];
    assert s.facts.Keys <= facts.Keys;
    assert |next| == |next.Keys| && |facts| == |facts.Keys|;
    if id in facts {
      assert next.Keys == facts.Keys;
    } else {
      assert next.Keys == facts.Keys + {id};
    }
  }

  lemma FullAtEnds(s: Snapshot, b: Batch)
    ensures !Full(s.facts, s.facts) && (Overfull(s, b) <==> Full(s.facts, s.facts + b.facts))
  {
    assert (s.facts + b.facts).Keys == s.facts.Keys + b.facts.Keys;
  }

  /** The running records under one candidate, in whatever order they are met. */
  method MatchesOf(retained: RetainedRecords, id: Id) returns (matches: set<RetainedKey>)
    ensures matches == set k | k in retained && k.candidate == id
  {
    matches := {};
    var todo := retained.Keys;
    while todo != {}
      invariant todo <= retained.Keys && matches == set k | k in retained && k.candidate == id && k !in todo
      decreases |todo|
    {
      var k :| k in todo;
      if k.candidate == id { matches := matches + {k}; }
      todo := todo - {k};
    }
  }

  /** Diagnose every match and delete it from the running map. */
  method DropMatches(s: Snapshot, b: Batch, id: Id, bindings: Bindings, retained: RetainedRecords)
    returns (rest: RetainedRecords, bad: bool, found: bool)
    requires bindings == NextBindings(s, b) && retained.Keys <= s.retained.Keys && forall k :: k in retained ==> retained[k] == s.retained[k]
    ensures rest == map k | k in retained && k.candidate != id :: retained[k]
    ensures bad <==> exists k :: k in retained && k.candidate == id && !RetainedWithdrawable(s, b, s.retained[k].record.body)
    ensures found <==> exists k :: k in retained && k.candidate == id
  {
    hide NextBindings, RetainedWithdrawable;
    var matches := MatchesOf(retained, id);
    found := matches != {};
    rest, bad := retained, false;
    var todo := matches;
    while todo != {}
      invariant todo <= matches && rest.Keys == retained.Keys - (matches - todo) && forall k :: k in rest ==> rest[k] == retained[k]
      invariant bad <==> exists k :: k in matches && k !in todo && !RetainedWithdrawable(s, b, s.retained[k].record.body)
      decreases |todo|
    {
      var k :| k in todo;
      if !RetainedWithdrawable(s, b, retained[k].record.body) { bad := true; }
      rest := rest - {k};
      todo := todo - {k};
    }
    assert rest == map k | k in retained && k.candidate != id :: retained[k];
  }

  /** The retained records when these candidates are still to be withdrawn. */
  ghost function RetainedLeft(s: Snapshot, b: Batch, todo: set<Id>): RetainedRecords {
    map k | k in s.retained && (k.candidate in todo || k.candidate !in b.factWithdrawals) :: s.retained[k]
  }

  lemma LeftNext(s: Snapshot, b: Batch, todo: set<Id>, id: Id)
    requires todo <= b.factWithdrawals && id in todo
    ensures var r := RetainedLeft(s, b, todo);
            && (map k | k in r && k.candidate != id :: r[k]) == RetainedLeft(s, b, todo - {id})
            && (forall k :: k in r && k.candidate == id <==> k in s.retained && k.candidate == id)
            && r.Keys <= s.retained.Keys && forall k :: k in r ==> r[k] == s.retained[k]
  {}

  lemma LeftEnds(s: Snapshot, b: Batch)
    ensures RetainedLeft(s, b, b.factWithdrawals) == s.retained && RetainedLeft(s, b, {}) == KeptRetained(s, b)
  {}

  /** The errors of one withdrawal, told from its matches in the running map. */
  function WithdrawalErrors(s: Snapshot, b: Batch, id: Id, found: bool, bad: bool): set<Err> {
    if id !in s.facts && !found then {DanglingReference} else
    (if id in s.facts && IsObserved(s.facts[id]) then
       var v := s.facts[id].body;
       When(Overlaps(b, v) || !(v.binding.Some? && v.binding.value in s.bindings && Covered(b, s.bindings[v.binding.value].body.path)), InvalidValue)
     else {})
    + When(bad, InvalidValue)
  }

  lemma WithdrawalErrorsExact(s: Snapshot, b: Batch, id: Id, found: bool, bad: bool)
    requires found <==> exists k :: k in s.retained && k.candidate == id
    requires bad <==> exists k :: k in s.retained && k.candidate == id && !RetainedWithdrawable(s, b, s.retained[k].record.body)
    ensures WithdrawalErrors(s, b, id, found, bad) == FactWithdrawalErrorsOf(s, b, id)
    ensures FactWithdrawn(s, b, id) <==> id in b.factWithdrawals && (id in s.facts || found)
  {
    hide RetainedWithdrawable, Overlaps, Covered;
    assert found <==> RetainedUnder(s, id) != {} by {
      if k :| k in s.retained && k.candidate == id { assert k in RetainedUnder(s, id); }
      if RetainedUnder(s, id) != {} { var k :| k in RetainedUnder(s, id); }
    }
  }

  /**
   * Withdrawals in any order: each is diagnosed against the running retained
   * map, its matches there are deleted, and so is the staged fact.
   */
  method WithdrawFacts(s: Snapshot, b: Batch, bindings: Bindings, all: Candidates)
    returns (facts: Candidates, retained: RetainedRecords, errs: set<Err>)
    requires bindings == NextBindings(s, b) && all == s.facts + b.facts
    ensures facts == StagedFacts(s, b) && retained == KeptRetained(s, b)
    ensures forall e :: e in errs <==> exists id :: id in b.factWithdrawals && e in FactWithdrawalErrorsOf(s, b, id)
  {
    hide NextBindings, FactWithdrawn, FactWithdrawalErrorsOf, WithdrawalErrors, RetainedWithdrawable, RetainedLeft, KeptRetained;
    facts, retained, errs := all, s.retained, {};
    var todo := b.factWithdrawals;
    LeftEnds(s, b);
    assert facts == FactsLeft(s, b, todo) by { FactsLeftEnds(s, b); }
    while todo != {}
      invariant todo <= b.factWithdrawals && retained == RetainedLeft(s, b, todo) && facts == FactsLeft(s, b, todo)
      invariant forall e :: e in errs <==> exists id :: id in b.factWithdrawals && id !in todo && e in FactWithdrawalErrorsOf(s, b, id)
      decreases |todo|
    {
      hide FactsLeft;
      var id :| id in todo;
      LeftNext(s, b, todo, id);
      var rest, bad, found := DropMatches(s, b, id, bindings, retained);
      WithdrawalErrorsExact(s, b, id, found, bad);
      errs := errs + WithdrawalErrors(s, b, id, found, bad);
      FactsLeftNext(s, b, todo, id);
      if id in s.facts || found { facts := facts - {id}; }
      retained := rest;
      todo := todo - {id};
    }
    FactsLeftEnds(s, b);
  }

  /** The staged facts when these candidates are still to be withdrawn. */
  ghost function FactsLeft(s: Snapshot, b: Batch, todo: set<Id>): Candidates {
    map id | id in s.facts + b.facts && (id in todo || !FactWithdrawn(s, b, id)) :: (s.facts + b.facts)[id]
  }

  lemma FactsLeftNext(s: Snapshot, b: Batch, todo: set<Id>, id: Id)
    requires todo <= b.factWithdrawals && id in todo
    ensures FactsLeft(s, b, todo - {id}) == if FactWithdrawn(s, b, id) then FactsLeft(s, b, todo) - {id} else FactsLeft(s, b, todo)
  {
    hide FactWithdrawn;
  }

  lemma FactsLeftEnds(s: Snapshot, b: Batch)
    ensures FactsLeft(s, b, b.factWithdrawals) == s.facts + b.facts && FactsLeft(s, b, {}) == StagedFacts(s, b)
  {
    hide RetainedUnder;
  }
}
