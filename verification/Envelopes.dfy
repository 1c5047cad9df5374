/** Rebuilding the fact envelopes: grouping by key, conflict derivation and envelope revisions, in any visiting order. */
module Envelopes {
  import opened Errors
  import opened Graphs
  import opened Decimals
  import opened Records
  import opened Snapshots
  import opened Publication

  /** Collect the promoted, qualified candidates; two different values open one conflict naming all of them. */
  method DeriveConflicts(group: Candidates) returns (r: Option<Conflict>)
    ensures r == DeriveConflict(group)
  {
    var eligible: set<Id>, values: set<Value>, evidence: set<Id> := {}, {}, {};
    var todo := group.Keys;
    while todo != {}
      invariant todo <= group.Keys
      invariant forall id :: id in eligible <==> id in group && id !in todo && Eligible(group[id].body)
      invariant forall v :: v in values <==> exists id :: id in eligible && id in group && Eligible(group[id].body) && group[id].body.value.value == v
      invariant forall e :: e in evidence <==> exists id :: id in eligible && id in group && e in group[id].body.evidence
      decreases |todo|
    {
      var id :| id in todo;
      todo := todo - {id};
      var candidate := group[id].body;
      if Eligible(candidate) {
        eligible, values, evidence := eligible + {id}, values + {candidate.value.value}, evidence + candidate.evidence;
      }
    }
    assert values == EligibleValues(group) && eligible == EligibleIds(group) && evidence == EligibleEvidence(group);
    if |values| < 2 {
      return None;
    }
    r := Some(Conflict(eligible, evidence));
  }

  /** Candidates seen so far, under their keys. */
  ghost predicate Grouped(facts: Candidates, todo: set<Id>, groups: map<Id, Candidates>) {
    && (forall key :: key in groups ==> groups[key] == Group(facts - todo, key) && key in FactKeys(facts))
    && (forall id :: id in facts && id !in todo ==> facts[id].body.key in groups)
  }

  method GroupByKey(facts: Candidates) returns (groups: map<Id, Candidates>)
    ensures groups.Keys == FactKeys(facts) && forall key :: key in groups ==> groups[key] == Group(facts, key)
  {
    groups := map[];
    var todo := facts.Keys;
    while todo != {}
      invariant todo <= facts.Keys && Grouped(facts, todo, groups)
      decreases |todo|
    {
      var id :| id in todo;
      var key := facts[id].body.key;
      var prior: Candidates := if key in groups then groups[key] else map[];
      NextGroup(facts, todo, groups, id);
      groups := groups[key := prior[id := facts[id]]];
      todo := todo - {id};
    }
    assert facts - {} == facts;
  }

  lemma NextGroup(facts: Candidates, todo: set<Id>, groups: map<Id, Candidates>, id: Id)
    requires todo <= facts.Keys && Grouped(facts, todo, groups) && id in todo
    ensures var key := facts[id].body.key; var prior := if key in groups then groups[key] else map[];
            Grouped(facts, todo - {id}, groups[key := prior[id := facts[id]]])
  {
    var key := facts[id].body.key;
    var prior := if key in groups then groups[key] else map[];
    assert prior == Group(facts - todo, key);
    assert prior[id := facts[id]] == Group(facts - (todo - {id}), key);
    forall other | other in groups && other != key ensures groups[other] == Group(facts - (todo - {id}), other) {
      assert Group(facts - todo, other) == Group(facts - (todo - {id}), other);
    }
  }

  /** One envelope per key; its revision moves exactly when its candidates or its conflict do. */
  method Rebuild(s: Snapshot, facts: Candidates) returns (r: Envelopes)
    ensures r == RebuildEnvelopes(s, facts)
  {
    hide Group, DeriveConflict, FactKeys;
    var groups := GroupByKey(facts);
    r := map[];
    var todo := groups.Keys;
    while todo != {}
      invariant todo <= groups.Keys && r.Keys == groups.Keys - todo
      invariant forall key :: key in r ==> r[key] == Envelope(DeriveConflict(Group(facts, key)), EnvelopeRevision(s, facts, key))
      decreases |todo|
    {
      var key :| key in todo;
      todo := todo - {key};
      var conflict := DeriveConflicts(groups[key]);
      var revision := 1;
      if key in s.envelopes {
        var old_ := s.envelopes[key];
        revision := old_.revision;
        if Group(s.facts, key) != groups[key] || old_.conflict != conflict {
          revision := revision + 1;
        }
      }
      r := r[key := Envelope(conflict, revision)];
    }
  }

  // ---------------------------------------------------------------- derived conflicts are well formed

  ghost function ValuesOf(group: Candidates, ids: set<Id>): set<Value>
    requires ids <= EligibleIds(group)
  {
    set id | id in ids :: group[id].body.value.value
  }

  ghost function EvidenceOf(group: Candidates, ids: set<Id>): set<Id>
    requires ids <= group.Keys
  {
    set id, e | id in ids && e in group[id].body.evidence :: e
  }

  lemma {:induction false} ValueCount(group: Candidates, ids: set<Id>)
    requires ids <= EligibleIds(group)
    ensures |ValuesOf(group, ids)| <= |ids|
    decreases |ids|
  {
    if ids != {} {
      var id :| id in ids;
      var rest := ids - {id};
      ValueCount(group, rest);
      assert ValuesOf(group, ids) == ValuesOf(group, rest) + {group[id].body.value.value};
      UnionSize(ValuesOf(group, rest), {group[id].body.value.value});
    }
  }

  lemma {:induction false} EvidenceCount(group: Candidates, ids: set<Id>)
    requires ids <= group.Keys && forall id :: id in group ==> 1 <= |group[id].body.evidence| <= MAX_EVIDENCE
    ensures |EvidenceOf(group, ids)| <= MAX_EVIDENCE * |ids|
    ensures ids != {} ==> 1 <= |EvidenceOf(group, ids)|
    decreases |ids|
  {
    hide EvidenceOf;
    if ids != {} {
      var id :| id in ids;
      var rest := ids - {id};
      EvidenceCount(group, rest);
      EvidenceOne(group, ids, id);
      UnionSize(EvidenceOf(group, rest), group[id].body.evidence);
    } else {
      EvidenceNone(group);
    }
  }

  lemma EvidenceOne(group: Candidates, ids: set<Id>, id: Id)
    requires ids <= group.Keys && id in ids
    ensures EvidenceOf(group, ids) == EvidenceOf(group, ids - {id}) + group[id].body.evidence
  {}

  lemma EvidenceNone(group: Candidates)
    ensures EvidenceOf(group, {}) == {}
  {}

  /** Never more values than candidates, nor more evidence than they carry. */
  lemma EligibleCounts(group: Candidates)
    requires forall id :: id in group ==> 1 <= |group[id].body.evidence| <= MAX_EVIDENCE
    ensures |EligibleValues(group)| <= |EligibleIds(group)| <= |group|
    ensures |EligibleEvidence(group)| <= MAX_EVIDENCE * |EligibleIds(group)|
    ensures EligibleIds(group) != {} ==> 1 <= |EligibleEvidence(group)|
  {
    hide Eligible;
    var ids := EligibleIds(group);
    SubsetCard(ids, group.Keys);
    ValueCount(group, ids);
    EvidenceCount(group, ids);
    assert EligibleValues(group) == ValuesOf(group, ids) && EligibleEvidence(group) == EvidenceOf(group, ids);
  }

  lemma UnionSize<T>(a: set<T>, b: set<T>)
    ensures |a| <= |a + b| <= |a| + |b| && |b| <= |a + b|
  {
    assert a + b == a + (b - a);
    SubsetCard(b - a, b);
    SubsetCard(b, a + b);
  }

  lemma DerivedConflictShape(group: Candidates)
    requires |group| <= MAX_CANDIDATES && DeriveConflict(group).Some?
    requires forall id :: id in group ==> 1 <= |group[id].body.evidence| <= MAX_EVIDENCE
    ensures ConflictShape(DeriveConflict(group).value) == {}
  {
    hide EligibleIds, EligibleValues, EligibleEvidence;
    EligibleCounts(group);
  }

  /**
   * Rebuilt envelopes pass the whole envelope check, the derived conflict's own
   * included, except for a key with too many candidates or an exhausted revision.
   */
  lemma RebuiltRederive(s: Snapshot, facts: Candidates, key: Id)
    requires key in RebuildEnvelopes(s, facts)
    requires forall id :: id in facts ==> CandidateShape(id, facts[id]) == {}
    ensures EnvelopeShape(facts, key, RebuildEnvelopes(s, facts)[key]) ==
            When(!Positive(EnvelopeRevision(s, facts, key)), InvalidIdentifier) + When(|Group(facts, key)| > MAX_CANDIDATES, BoundsExceeded)
  {
    hide DeriveConflict, CandidateShape, EnvelopeRevision, ConflictShape;
    var group := Group(facts, key);
    var id :| id in facts && facts[id].body.key == key;
    assert id in group;
    forall i | i in group ensures 1 <= |group[i].body.evidence| <= MAX_EVIDENCE { CarriesEvidence(i, facts[i]); }
    if DeriveConflict(group).Some? {
      OnlyBounds(DeriveConflict(group).value);
      if |group| <= MAX_CANDIDATES { DerivedConflictShape(group); }
    }
  }

  lemma OnlyBounds(c: Conflict)
    ensures ConflictShape(c) <= {BoundsExceeded}
  {}

  lemma CarriesEvidence(id: Id, v: Versioned<Candidate>)
    requires CandidateShape(id, v) == {}
    ensures 1 <= |v.body.evidence| <= MAX_EVIDENCE
  {
    hide InputsShape, ObservedShape, InferredShape;
  }
}
