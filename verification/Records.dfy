/**
 * The records of a snapshot and of a publication batch.
 *
 * Collections that the wire form keeps sorted and free of repetition are maps
 * from the collection key; a record does not repeat its own key.  Fields that
 * no rule reads are gathered in one token per record.  Revisions and counters
 * are unbounded here: an increment past 2^64 - 1 is representable and is what
 * the range checks must refuse.
 */
module Records {
  import opened Errors
  import opened Graphs
  import opened Freshness
  import opened Decimals

  predicate Positive(n: nat) { 0 < n < TWO64 }

  datatype SourceKey = SourceKey(source: Id, epoch: Id)
  datatype CursorKey = CursorKey(source: Id, epoch: Id, generation: nat)

  function SourceOf(k: CursorKey): SourceKey { SourceKey(k.source, k.epoch) }

  /** A record body with its object revision. */
  datatype Versioned<T> = Versioned(body: T, revision: nat)

  datatype SourceState = SourceCurrent | SourceRetired
  datatype Source = Source(profile: Id, details: Id, state: SourceState)

  datatype BindingState = BindingCurrent | BindingFenced | BindingRetired
  datatype Binding = Binding(asset: Id, path: CursorKey, resource: Id, state: BindingState)

  datatype LinkState = LinkCandidate | LinkQualified | LinkRejected | LinkConflict | LinkWithdrawn
  datatype Link = Link(asset: Id, state: LinkState, basis: set<Id>)

  datatype Qualification = CandidateOnly | Qualified | Unsupported | QualificationUnknown | QualificationRejected
  datatype Availability = Available | Degraded | Unavailable | Withdrawn

  datatype Service = Service(asset: Id, definition: Id, binding: Id, epoch: Id, generation: nat,
                             qualification: Qualification, availability: Availability)

  datatype Capability = Capability(asset: Id, service: Id, definition: Id, binding: Id, epoch: Id, generation: nat,
                                   qualification: Qualification, availability: Availability, details: Id)

  datatype Fence = Fence(reason: Id, evidence: set<Id>, revision: nat)
  datatype Cursor = Cursor(lastSequence: nat, lastDigest: Id, fenced: bool)

  /** One native path an observation came through. */
  datatype PathRef = PathRef(path: CursorKey, binding: Id)

  datatype Input = Input(candidate: Id, revision: nat, paths: seq<PathRef>)

  datatype Assertion = Observed | Inferred
  datatype Validity = Good | Suspect | Bad | ValidityUnknown
  datatype Quality = Quality(assertion: Assertion, qualification: Qualification, promoted: bool,
                             validity: Validity, availability: Availability)

  datatype Candidate = Candidate(key: Id, value: Option<Value>, quality: Quality, times: Times, policy: Policy,
                                 binding: Option<Id>, epoch: Option<Id>, generation: Option<nat>,
                                 originSource: Option<Id>, derivation: Option<seq<Input>>,
                                 evidence: set<Id>, details: Id)

  type Candidates = map<Id, Versioned<Candidate>>
  type Bindings = map<Id, Versioned<Binding>>

  /** A state change that refuses further publication names the stronger of its two causes. */
  function LifecycleError(b: Binding): Err {
    if b.state == BindingRetired then StaleSourceEpoch else StaleDriverGeneration
  }
}
