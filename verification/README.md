# Verified model of the semantic registry kernels

This project models, in Dafny, the three state machines at the heart of the
semantic registry (`semreg/v1`) and proves what they promise over every input
and every run:

* **the publication kernel** of one asset: a batch diagnoses, fences, retires,
  upserts, withdraws, closes the derivation graph, retains history, normalizes
  revisions, is validated once more and is committed atomically;
* **evaluation** of a snapshot at an explicit time: uncertainty intervals across
  clock epochs and freshness that ages through derivations;
* **the operation kernel**: routing of an intent to the one capability that may
  carry it out, idempotent admission, and append-only execution records whose
  chronology spans several clocks.

Two smaller cores complete it: the canonical JSON writer and canonical decimals.

`dafny verify dfyconfig.toml` checks the whole project.

## How it is built

Each component has a closed form (functions, with one total error set per
check) and, where the original works by updating maps, stacks and buffers, the
loops or the object that compute it. Go map iteration is an arbitrary pick
(`:|`), so a loop proved equal to its closed form is proved independent of the
visiting order. The clauses of snapshot validation, which only accumulate
errors, are closed forms. Error choice is the lowest rank of a set of
diagnostics.

| modules | content |
|---|---|
| `Errors`, `Sorting`, `Graphs` | ranked error choice; sorting with unique results; reachability as saturated sets |
| `Cycles`, `Lineage`, `Resolver`, `Closure` | Tarjan's components; grounded candidates; memoised resolution; one-pass closure |
| `Records`, `Snapshots`, `Decimals`, `Envelopes` | records; snapshots and batches; exact decimals; conflicts and envelopes |
| `Transition`, `Publication`, `Staging`, `Validity`, `Batches` | one step of the kernel: transitions, upserts, errors, validity |
| `Lifecycle`, `Effects` | the invariant derived from the transitions; the effect of a batch |
| `SnapshotRules`, `Rules`, `Acceptance` | what is valid and what is acceptable, as rules without staging order or error classes, equivalent to the checks |
| `Isolation` | sources do not interfere, over steps and runs |
| `Kernel`, `History`, `Retention`, `Replay` | decisions, runs, irreversibility, conservation, replay |
| `PublicationKernels` | the kernel object and its loops |
| `Freshness`, `Evaluation` | ages of single observations and of whole snapshots |
| `Routing`, `RouteSafety`, `Admission` | routes, cross-kernel safety, the admission verdict |
| `Chronology`, `Execution`, `CausalPaths` | order of instants; execution records; causal chains |
| `OperationTable`, `OperationKernels` | the idempotency table under any interleaving; the kernel object |
| `StrayEpoch`, `Witnesses` | concrete runs: an accepted batch and one refused last; an intent granted, applied and read back |
| `JsonText`, `CanonicalJson`, `JsonWriter`, `JsonReader` | UTF-8, UTF-16 order, escaping; canonical trees; the writing buffer; the round trip |

Every check has a second, positive form: `Acceptance.AcceptedIffAcceptable`,
`SnapshotRules.ValidIff`, `Admission.GrantedIff` and `Execution.AppendedIff` say
that a batch is accepted, a snapshot valid, an intent granted and a record
appended exactly when plainly stated conditions hold.

Two expectations turned out false of the code, and the code is kept as it is:

* The final validation before a commit is not redundant. `Kernel.AcceptedIff` and
  `Lifecycle.FinalCheckExact` prove that it refuses a batch to which no earlier
  check objects exactly when a source upsert opens an epoch other than the
  header's, and `StrayEpoch.StrayEpochRefusedLast` gives such a batch in a
  reachable state.
* Freshness across clock epochs is not monotone in time: `unknown` may become
  `stale` or `fresh`, and `expired` may become `unknown`.
  `Freshness.CrossEpochNotMonotone` gives an input for each, and
  `Freshness.CrossEpochMonotoneUnless` the exact condition for any two readings,
  whatever their clocks and uncertainties.

## Model

| member | source | states |
|---|---|---|
| `Errors.BestError` | semreg/v1/validation.go:97-113 | the ranking loop returns the lowest rank among the errors present, whatever their order |
| `Errors.LeastOfUnion` | semreg/v1/validation.go:84-113 | splitting or reordering diagnostics does not change the reported class |
| `Errors.LeastOf` | semreg/v1/operation/validation.go:36-52 | visiting the diagnostics in any order reports the same class |
| `Errors.RankOrder` | semreg/v1/validation.go:84-95 | the order of the classes, most urgent first |
| `Graphs.ReachIsPath` | semreg/v1/publication.go:1528-1590 | reachability, stated by saturated sets, is exactly the existence of a path |
| `Cycles.FindCycles` | semreg/v1/publication.go:1528-1590 | two candidates share an entry exactly when mutually reachable, entries are sorted and duplicate-free, and no acyclic node has one |
| `Cycles.CycleFinder.Visit` | semreg/v1/publication.go:1535-1584 | one depth-first visit keeps the stack, index and low-link invariant and finishes every component it leaves |
| `Cycles.ComponentExact` | semreg/v1/publication.go:1557-1583 | the nodes popped at a root are exactly its strongly connected component |
| `Lineage.SurvivesIffClean` | semreg/v1/publication.go:1441-1522 | a candidate is inductively grounded within the depth limit exactly when no error lies at or below it |
| `Lineage.CyclicNeverGrounded` | semreg/v1/publication.go:1592-1616 | no candidate on a cycle is grounded at any depth |
| `Lineage.SurvivorsSurvive` | semreg/v1/publication.go:1937-1943 | one pass is a fixpoint: closing the survivors again removes and refuses nothing |
| `Lineage.SurvivorRestsOnCurrent` | semreg/v1/publication.go:1463-1521 | every observed candidate reachable from a survivor stands on a current binding at its own path |
| `Lineage.ListsUnique` | semreg/v1/publication.go:1500-1521 | the sorted duplicate-free path list of a lineage is unique, so declared and computed lists can be compared |
| `Lineage.EdgeExact` | semreg/v1/publication.go:1541-1546 | an edge of the graph is an input that names a staged candidate at exactly its revision |
| `Lineage.GroundedExact` | semreg/v1/publication.go:1441-1522 | groundedness one level at a time: on its current binding, or with all inputs found, declared with their own paths, within 32 levels and 32 paths |
| `Lineage.LeavesExact` | semreg/v1/publication.go:1463-1521 | a lineage is the set of paths of all observations reachable |
| `Lineage.PathLeqExact` | semreg/v1/validation.go:478-489 | the order of paths: source, epoch, generation, binding |
| `Lineage.ObservedClasses` | semreg/v1/publication.go:1463-1478 | the class an ungrounded observation is reported as |
| `Lineage.DerivedClasses` | semreg/v1/publication.go:1479-1521 | the classes an ungrounded derivation is reported as |
| `Resolver.CandidateResolver.Resolve` | semreg/v1/publication.go:1441-1522 | the memoised result is the ranked error of everything below, the sorted list of all observed leaves' paths and the exact depth; it terminates on every graph and never meets a candidate in progress |
| `Resolver.CandidateResolver.ResolveCycle` | semreg/v1/publication.go:1592-1616 | all members of a component get the ranked error of everything below any of them |
| `Resolver.NodeErrors` | semreg/v1/publication.go:1463-1521 | the errors below a derived candidate are its own and those below its exact inputs |
| `Closure.CloseCandidateGraph` | semreg/v1/publication.go:1390-1425 | the kept map and the reported error of the closure |
| `Closure.ClosureExact` | semreg/v1/publication.go:1390-1425 | closure succeeds iff every upsert is grounded and the survivors fit the limit, and then keeps exactly the grounded candidates |
| `Closure.StrictClosureAccepts` | semreg/v1/publication.go:1937-1943 | the strict closure accepts a successful result unchanged |
| `Decimals.DecimalUnique` | semreg/v1/validation.go:537-542 | two valid decimals are numerically equal iff they are the same text |
| `Decimals.PackEqualIsIdentity` | semreg/v1/packs/storage/validator.go:281-295 | the packs' rational equality agrees with identity of canonical values |
| `Decimals.CompareSign` | semreg/v1/packs/storage/validator.go:281-289 | comparison has the sign of the difference of the two numbers written at a common exponent |
| `Decimals.CoefficientSign` | semreg/v1/validation.go:537-542 | the sign of a coefficient is its minus sign, and only zero is zero |
| `Snapshots.ConflictIffNumericallyDifferent` | semreg/v1/validation.go:1350-1398 | for one unit a conflict opens exactly when two qualified, promoted numbers differ |
| `Snapshots.ConflictExact` | semreg/v1/validation.go:1350-1398 | for any values, a conflict opens iff two qualified, promoted candidates differ, and names exactly all such candidates and their evidence |
| `Envelopes.DeriveConflicts` | semreg/v1/validation.go:1350-1398 | the collecting loop, in any order, names all eligible candidates and their evidence exactly when two values differ |
| `Envelopes.Rebuild` | semreg/v1/publication.go:1618-1665 | one envelope per key, revised exactly when its candidates or conflict changed, in any order |
| `Envelopes.DerivedConflictShape` | semreg/v1/validation.go:1320-1344 | every derived conflict is between 2 and 32 candidates with 1 to 1024 pieces of evidence |
| `Envelopes.RebuiltRederive` | semreg/v1/validation.go:1399-1441 | a rebuilt envelope passes the whole envelope check, its conflict's own and the re-derivation included, except for too many candidates under its key or an exhausted revision |
| `Transition.TransitionBinding` | semreg/v1/publication.go:1218-1247 | one binding's transition of itself, its link, services and capabilities |
| `Transition.TransitionMore` | semreg/v1/publication.go:808-831 | transitions of different bindings compose to the joint closed form, so they commute |
| `Transition.TransitionAll` | semreg/v1/publication.go:808-831 | visiting the affected bindings in any order gives the closed form and the same failure |
| `Staging.StageSources` | semreg/v1/publication.go:736-755 | source upserts, then retirements, in any order |
| `Staging.StageFences` | semreg/v1/publication.go:797-806 | the fences on record after the batch, whatever the order of the fence list |
| `Staging.StageCursors` | semreg/v1/publication.go:797-807 | the cursors after the batch: fenced ones closed, the header's advanced |
| `Staging.StageBindings` | semreg/v1/publication.go:835-853 | binding upserts over the transitioned bindings and all their diagnostics |
| `Staging.StageLinks` | semreg/v1/publication.go:855-876 | link upserts and all their diagnostics |
| `Staging.StageFacts` | semreg/v1/publication.go:880-910 | fact upserts and all their diagnostics, and whether a new one finds the stage full |
| `Staging.DropMatches` | semreg/v1/publication.go:920-946 | the matches of one withdrawal in the running retained map, each diagnosed and deleted, in any order |
| `Staging.WithdrawFacts` | semreg/v1/publication.go:911-949 | withdrawals in any order: the staged facts, the retained records they leave and all their diagnostics |
| `Staging.DiagnoseSources` | semreg/v1/publication.go:711-757 | the diagnostics of retirements, current epochs and source upserts, in any order |
| `Staging.DiagnoseGenerations` | semreg/v1/publication.go:760-795 | the diagnostics of open generations and fences, whatever the order of the cursor map |
| `Staging.DiagnoseRegression` | semreg/v1/publication.go:412-416 | whether a newer generation has published, whatever the order of the cursor map |
| `Staging.StageServices` | semreg/v1/publication.go:951-975 | service upserts and all their diagnostics |
| `Staging.WithdrawServices` | semreg/v1/publication.go:976-991 | service withdrawals and all their diagnostics |
| `Staging.StageCapabilities` | semreg/v1/publication.go:993-1029 | capability upserts and all their diagnostics |
| `Staging.WithdrawCapabilities` | semreg/v1/publication.go:1030-1045 | capability withdrawals and all their diagnostics |
| `Validity.ValidMeans` | semreg/v1/publication.go:1699-1898 | a snapshot without validation errors satisfies every lifecycle clause |
| `SnapshotRules.CandidateExact` | semreg/v1/validation.go:869-919 | the record rules of a candidate: origin, derivation, times, evidence, and when it has a value |
| `SnapshotRules.ContentExact` | semreg/v1/publication.go:1142-1182 | no content error iff sizes, epochs, services and every single record keep their rules |
| `SnapshotRules.LifecycleExact` | semreg/v1/publication.go:1735-1891 | no lifecycle error iff paths, bindings, dependents and retained records keep their rules |
| `SnapshotRules.ValidIff` | semreg/v1/publication.go:1699-1898 | a snapshot passes validation iff it keeps all these rules and every fact is grounded |
| `Lifecycle.LifecycleNext` | semreg/v1/publication.go:711-1045 | derived from the transitions alone: at most one open generation per current epoch, cursor fenced iff a fence exists, current bindings only on current sources with open cursors, nothing live on a binding that is not current |
| `Lifecycle.FinalCheckExact` | semreg/v1/publication.go:455-461 | the final validation refuses a batch that passed every step check iff a source upsert opens a foreign epoch, then with a dangling reference |
| `Lifecycle.GraphNext` | semreg/v1/publication.go:1047-1049 | the published candidates are exactly the grounded staged ones and stay grounded among themselves |
| `Lifecycle.PublishedGrounded` | semreg/v1/publication.go:1842-1891 | every fact of a valid snapshot is grounded; an observed one on its own current binding |
| `StrayEpoch.FirstAccepted` | semreg/v1/publication.go:349-467 | a first batch of an asset and the snapshot it commits |
| `StrayEpoch.StrayEpochRefusedLast` | semreg/v1/publication.go:1768-1772 | in the state after it, a batch that draws no diagnostic before the final check and is refused by it as a dangling reference |
| `Effects.AcceptedEffect` | semreg/v1/publication.go:659-1136 | the exact effect of an accepted batch on every collection, object by object and independent of staging order: what it names, what it closes, and that everything else is untouched |
| `Kernel.AcceptedMeans` | semreg/v1/publication.go:349-467 | acceptance implies a new sequence, every check, a valid snapshot and one atomic commit |
| `Kernel.AcceptedIff` | semreg/v1/publication.go:349-467 | a batch is accepted iff it is new, draws no diagnostic and opens no foreign epoch; failing only the last it is a dangling reference |
| `Rules.SourcesExact` | semreg/v1/publication.go:711-757 | the source checks raise nothing iff only current epochs retire, none other stays current, and a profile changes only with its epoch |
| `Rules.GenerationsExact` | semreg/v1/publication.go:760-795 | the generation checks raise nothing iff older open generations are fenced, none is newer, and each fence closes an open one |
| `Rules.ClosingExact` | semreg/v1/publication.go:1218-1247 | the transitions raise nothing iff each closed link has room for its fence's evidence |
| `Rules.BindingsExact` | semreg/v1/publication.go:835-853 | the binding rule over the published state and the batch alone |
| `Rules.LinksExact` | semreg/v1/publication.go:855-876 | the link rule: a binding that stays open on the header's generation, an unwithdrawn link |
| `Rules.FactsExact` | semreg/v1/publication.go:880-949 | the fact rules, upserts and withdrawals |
| `Rules.FactWithdrawalExact` | semreg/v1/publication.go:911-949 | a published observation is withdrawn by its own open generation only, a retained one by its own source only |
| `Rules.ServicesExact` | semreg/v1/publication.go:951-991 | the service rules, upserts and withdrawals |
| `Rules.CapabilitiesExact` | semreg/v1/publication.go:993-1045 | the capability rules, upserts and withdrawals |
| `Rules.GraphExact` | semreg/v1/publication.go:1047-1049 | the closure raises nothing iff every upsert is grounded in what will be published and that is not too much |
| `Rules.RetentionExact` | semreg/v1/publication.go:1050-1093 | retention raises nothing iff everything retained can be aged and the unexpired fit |
| `Rules.BindingClasses` | semreg/v1/publication.go:835-853 | the class each fault of a binding upsert is reported as |
| `Rules.LinkClasses` | semreg/v1/publication.go:855-876 | the class each fault of a link upsert is reported as |
| `Rules.FactClasses` | semreg/v1/publication.go:1350-1369 | the class each fault of an observation is reported as |
| `Rules.ServiceClasses` | semreg/v1/publication.go:951-975 | the class each fault of a service upsert is reported as |
| `Acceptance.BatchExact` | semreg/v1/publication.go:110-191 | the structural checks of a batch as rules |
| `Acceptance.OwnedExact` | semreg/v1/publication.go:472-515 | everything a batch spells out is of the asset and the header's path |
| `Acceptance.SequenceExact` | semreg/v1/publication.go:386-432 | the order checks as rules: next on an open cursor or first on a new one, for this state and these bytes |
| `Acceptance.NothingForeign` | semreg/v1/publication.go:517-604 | a batch that keeps the rules touches nothing another source is known to own |
| `Acceptance.ForeignExact` | semreg/v1/publication.go:517-604 | exactly which operations touch what another source owns |
| `Acceptance.ForeignRefusedFirst` | semreg/v1/publication.go:371-385 | such a batch is refused ahead of every reference or lifecycle error |
| `Acceptance.OrderClasses` | semreg/v1/publication.go:405-430 | the class each fault of order is reported as |
| `Acceptance.SourceClasses` | semreg/v1/publication.go:711-757 | the class each fault of sources is reported as |
| `Acceptance.GenerationClasses` | semreg/v1/publication.go:760-795 | the class each fault of generations is reported as |
| `Acceptance.AcceptedIffAcceptable` | semreg/v1/publication.go:349-467 | the kernel accepts a batch iff it keeps all rules, stated over the published state and the batch |
| `Isolation.SourceIsolation` | semreg/v1/publication.go:517-604 | an accepted batch leaves every source, cursor, fence, binding, link, service, capability and observation of every other source as it was, record for record |
| `Isolation.RunIsolation` | semreg/v1/publication.go:517-604 | over any run in which a source publishes nothing, everything of that source stays as it was |
| `Isolation.WithdrawsOwn` | semreg/v1/publication.go:934-940 | a batch withdraws only retained records of its own source |
| `Isolation.LossExplained` | semreg/v1/publication.go:911-949 | over any run a retained record is lost only to expiry or to an accepted batch of its own source |
| `Kernel.StepKeepsInv` | semreg/v1/publication.go:349-467 | every step, accepted or not, keeps snapshot validity and the agreement of replay table and cursors |
| `PublicationKernels.PublicationKernel.Apply` | semreg/v1/publication.go:349-467 | the object's answer and new state are the decision and step of the model; a refused batch changes nothing |
| `PublicationKernels.Stage` | semreg/v1/publication.go:659-1136 | staging computes the closed-form snapshot and the ranked diagnostic |
| `PublicationKernels.Validate` | semreg/v1/publication.go:1699-1898 | the ranked error of a complete validation, on any snapshot |
| `PublicationKernels.NormalizeObjects` | semreg/v1/publication.go:1275-1299 | revisions normalized against the old state, in any order |
| `PublicationKernels.RetainDisplaced` | semreg/v1/publication.go:1055-1080 | displaced observations join the retained records, in any order |
| `PublicationKernels.ExpireRetained` | semreg/v1/publication.go:1081-1093 | exactly the expired records go, and a record that cannot be aged is reported |
| `History.RunKeepsInv` | semreg/v1/publication.go:349-467 | the invariant holds after every run |
| `History.StepEvolves` | semreg/v1/publication.go:711-1100 | one accepted batch undoes nothing: fences, retired sources, withdrawn services and capabilities are frozen, cursors and binding states only advance |
| `History.RunEvolves` | semreg/v1/publication.go:711-1100 | the same over every run, and the semantic revision never falls |
| `Retention.DisplacedIsRetained` | semreg/v1/publication.go:1050-1093 | an observed fact whose binding stops being current is retained unchanged, for the reason its binding shows, unless already expired at the batch's time |
| `Retention.IdentityExact` | semreg/v1/publication.go:1920-1929 | when two observations are the same: candidate, revision, fact and path |
| `Retention.RetainedStep` | semreg/v1/publication.go:911-949 | a retained record leaves a step exactly by withdrawal or expiry and never changes |
| `Retention.HistoricForever` | semreg/v1/publication.go:1920-1929 | over every run a historic identity is never published again and, once gone from the retained records, never returns |
| `Retention.RetainedOverRun` | semreg/v1/publication.go:911-949 | a retained record is there after any run, unchanged, exactly when no accepted batch of the run withdrew it or found it expired; its identity is not published meanwhile |
| `Replay.TableIsLog` | semreg/v1/publication.go:463-466 | after every run the replay table has exactly the cursors that ever committed, each with the snapshot of its last commit |
| `Replay.ExactReplay` | semreg/v1/publication.go:339-345 | an exact repetition returns the committed snapshot and changes nothing |
| `Replay.StaleOrChanged` | semreg/v1/publication.go:386-405 | an older sequence or changed bytes are refused with a sequence conflict and change nothing |
| `Replay.ReplayAnswered` | semreg/v1/publication.go:363-405 | after any number of intervening batches the last accepted batch of a cursor is answered with the snapshot it committed |
| `Replay.RevisionsExactlyOnce` | semreg/v1/publication.go:606-634 | semantic revision plus one; each component, object and envelope plus one iff its content changed; no revision out of range |
| `Replay.FactsMoveOnce` | semreg/v1/publication.go:1301-1317 | a surviving fact is unchanged or has new content at exactly the next revision |
| `Freshness.PossibleIsTrueElapsed` | semreg/v1/evaluation_selection.go:258-285 | an elapsed time is possible iff it is the difference of two true times within the stated uncertainties |
| `Freshness.CrossEpochExact` | semreg/v1/evaluation_selection.go:258-304 | a definite class iff every possible elapsed time has it; unknown iff two possible times differ |
| `Freshness.CrossEpochErrors` | semreg/v1/evaluation_selection.go:271-288 | the cross-epoch time errors exactly; the check on the lower bound never adds one |
| `Freshness.SameEpochExact` | semreg/v1/evaluation_selection.go:243-256 | within one clock epoch: a time error iff the context reads earlier, else fresh, stale or expired by the difference of the readings |
| `Freshness.CrossEpochUsed` | semreg/v1/evaluation_selection.go:243-256 | different epochs are compared by the walls, and malformed input is a time error |
| `Freshness.CrossEpochClasses` | semreg/v1/evaluation_selection.go:258-304 | across epochs: exactly when each class and the time error is returned, by the bounds of the interval |
| `Freshness.SameEpochMonotone` | semreg/v1/evaluation_selection.go:243-256 | within one clock epoch a later evaluation exists and is never fresher |
| `Freshness.CrossEpochNotMonotone` | semreg/v1/evaluation_selection.go:294-303 | across epochs a later reading may be fresher: unknown to stale, unknown to fresh, expired to unknown |
| `Freshness.CrossEpochMonotoneUnless` | semreg/v1/evaluation_selection.go:294-330 | exactly when, for any two readings in order: a vague result becomes surely unexpired, or a sure expiry becomes vague |
| `Evaluation.Evaluator.Evaluate` | semreg/v1/evaluation_selection.go:136-169 | the memoised traversal gives the maximum of the fact's own and all transitive inputs' classes, or a time error caused by one of them |
| `Evaluation.InputsBelow` | semreg/v1/evaluation_selection.go:140-146 | on a closed snapshot every input is exact and strictly below, so the dangling and cycle branches are unreachable |
| `Evaluation.EvaluateSnapshot` | semreg/v1/evaluation_selection.go:120-204 | one entry per fact in id order with its transitive class, the unexpired retained records, and exactly when which error is returned |
| `Evaluation.WallRefusedExact` | semreg/v1/evaluation_selection.go:221-241 | a context is refused exactly when no pair of true times lets it follow the snapshot |
| `Evaluation.ContextRefusedExact` | semreg/v1/evaluation_selection.go:206-241 | exactly which contexts are refused as earlier than the snapshot |
| `Evaluation.AvailabilityWorsens` | semreg/v1/evaluation_selection.go:332-343 | the effective availability is the worse of the stored one and the best its age allows, so age only costs availability |
| `Evaluation.LaterNeverFresher` | semreg/v1/evaluation_selection.go:306-330 | when every receipt shares the contexts' clock epoch, the transitive class of a fact is never fresher at a later time |
| `Evaluation.LaterViewExists` | semreg/v1/evaluation_selection.go:128-186 | with all receipts in the contexts' clock epoch, the later view exists, lists the same facts, none fresher or more available, and no retained record comes back |
| `Chronology.WallExact` | semreg/v1/operation/validation.go:378-396 | the UTC comparison accepts exactly what holds for all pairs of true times |
| `Chronology.ContextsOrdered` | semreg/v1/operation/validation.go:367-376 | accepted contexts are ordered in every consistent assignment of true times |
| `Chronology.RefusedIsPossible` | semreg/v1/operation/validation.go:367-396 | refused comparable contexts of two epochs are misordered in some consistent assignment |
| `Chronology.RefusedSameEpoch` | semreg/v1/operation/validation.go:367-376 | within one epoch the comparison is exact in every consistent assignment |
| `Chronology.WeaklyOrdered` | semreg/v1/operation/validation.go:367-376 | if equal readings of one epoch may be different times, an accepted pair can be misordered at equal readings only, a strict one never |
| `Chronology.MisorderedExactly` | semreg/v1/operation/validation.go:367-376 | and is so in some assignment iff the readings are equal and the walls do not settle the order |
| `Chronology.ReceiptFollows` | semreg/v1/operation/record.go:333-344 | an accepted receipt truly follows the completed dispatch, even if equal readings are not taken as one time |
| `Chronology.ReceiptExact` | semreg/v1/operation/record.go:333-344 | a receipt is accepted iff the strict comparison of the two instants accepts it |
| `Chronology.OtherClocks` | semreg/v1/operation/validation.go:367-396 | what incomparable clocks answer |
| `Chronology.AcknowledgementExact` | semreg/v1/operation/record.go:148-164 | on one named clock an acknowledgement passes iff it certainly does not precede the start |
| `Chronology.DeadlineExact` | semreg/v1/operation/admission.go:371-388 | a deadline passes iff it certainly lies ahead |
| `Routing.FindRoute` | semreg/v1/operation/admission.go:490-612 | the loop over the capabilities, in any order: the only routable one, the ranked reason, or undecided when constraints may not be asked |
| `Routing.OfferedExact` | semreg/v1/operation/admission.go:512-524 | which capabilities an intent asks for: asset, definition, version range and instance |
| `Routing.RoutableExact` | semreg/v1/operation/admission.go:518-598 | routability without error classes: a current binding and source, a qualified link, one path, qualified and available service and capability, constraints met |
| `Routing.FoundIsUnique` | semreg/v1/operation/admission.go:588-611 | a found route is the single routable capability of its snapshot |
| `Routing.SearchExact` | semreg/v1/operation/admission.go:597-611 | a route is found iff constraints may be asked and exactly one capability is routable, whatever is wrong with others; several are ambiguous |
| `Routing.UndecidedExact` | semreg/v1/operation/admission.go:602-606 | exactly when unasked constraints leave the search open |
| `Routing.CandidateClasses` | semreg/v1/operation/admission.go:531-582 | the faults of an offered capability |
| `Routing.IdentityClasses` | semreg/v1/operation/admission.go:536-548 | the class of faults of identity, epoch and generation |
| `Routing.CurrentClasses` | semreg/v1/operation/admission.go:549-560 | the class of a source or binding that is not current |
| `Routing.UseClasses` | semreg/v1/operation/admission.go:561-581 | the class of faults of qualification, availability and constraints |
| `RouteSafety.ValidRoutes` | semreg/v1/publication.go:1793-1806 | in a valid snapshot no route runs over a fenced generation or a retired epoch |
| `RouteSafety.OutOfServiceNeverRoutable` | semreg/v1/publication.go:797-832 | once a run fences a generation or retires an epoch, no later snapshot of the run offers any intent a route over it |
| `RouteSafety.FreshAdmissionInService` | semreg/v1/operation/admission.go:293-328 | so a fresh admission against a later snapshot is never granted on it |
| `Admission.CheckPreconditions` | semreg/v1/operation/admission.go:427-459 | the ranked error of the preconditions, each judged on the transitive freshness of its exact candidate |
| `Admission.MetExact` | semreg/v1/operation/admission.go:435-457 | when a precondition is met, clause by clause |
| `Admission.TrustedUncontested` | semreg/v1/operation/admission.go:476-488 | a candidate outside open conflicts is uncontradicted: every promoted, qualified candidate of its fact has the same value |
| `Admission.Judge` | semreg/v1/operation/admission.go:271-309 | the verdict: the ranked diagnostic, or a grant on the found route |
| `Admission.GrantedIff` | semreg/v1/operation/admission.go:249-328 | an intent is granted iff typed, pack-approved, made for this state, surely before its deadline and causal expiry, not reflected, backed by fresh facts, authorized, and routable over exactly one capability |
| `Admission.StateClasses` | semreg/v1/operation/admission.go:279-290 | the class each fault of time and state is reported as |
| `CausalPaths.EnterCausal` | semreg/v1/operation/admission.go:405-425 | the ingress order: validity, origin and expiry, echo, capacity |
| `CausalPaths.ChainIsBounded` | semreg/v1/operation/admission.go:405-425 | an accepted chain visits no receiver twice, stays within the hop budget of its origin and ends before expiry |
| `CausalPaths.EnterExact` | semreg/v1/operation/admission.go:405-425 | exactly when a hop is accepted, and that an echo is refused as one |
| `CausalPaths.CausalClean` | semreg/v1/validation.go:826-868 | a valid causal context, clause by clause |
| `Execution.EvidenceDecides` | semreg/v1/operation/validation.go:323-365 | only a confirming readback ends as applied, and exactly the unsent ends as no contact |
| `Execution.CombinesExact` | semreg/v1/operation/validation.go:323-365 | the evidence each outcome needs, outcome by outcome |
| `Execution.RouteCurrentExact` | semreg/v1/operation/record.go:272-331 | the later snapshot raises nothing about the route iff every record it names stands on its path |
| `Execution.ReadbackExact` | semreg/v1/operation/record.go:166-258 | a readback is good iff it names this later snapshot, the standing route and a convincing candidate related as the pack says |
| `Execution.AppendedIff` | semreg/v1/operation/record.go:14-69 | a record is appended iff it is recordable: owned, first, well combined, of this admission, in order, and with a good readback |
| `Execution.ReadbackIsOn` | semreg/v1/operation/record.go:166-258 | an accepted readback was observed on the admitted route, still current in the later snapshot, at a strictly later semantic revision |
| `Execution.AppliedMeans` | semreg/v1/operation/record.go:42-57 | an accepted applied record implies that the pack confirms the effect and, in every consistent assignment of true times, admitted <= started <= completed < receipt, on the admitted route; without equating equal readings, completed < receipt still holds and the rest fails at equal readings only |
| `Execution.AppendedIsNotRejection` | semreg/v1/operation/admission.go:719-730 | only a grant can take a record, and never a rejection |
| `OperationTable.InterleavingKeeps` | semreg/v1/operation/admission.go:311-328 | under every interleaving of the critical sections the table stays within its bound, bytes and grants never change, a terminal record never changes, every readback is good and every applied record is proven |
| `OperationTable.KeyHistory` | semreg/v1/operation/record.go:74-134 | a rejected key never yields guard claims, an admitted one keeps its claims and never becomes rejected |
| `OperationTable.LookupExact` | semreg/v1/operation/admission.go:358-369 | a lookup answers nothing, the admission of these very bytes, or a conflict |
| `OperationTable.InstallEffect` | semreg/v1/operation/admission.go:311-328 | answer and table of an installation: a free key while there is room, and what is there stays |
| `OperationTable.RejectEffect` | semreg/v1/operation/record.go:74-134 | answer and table of a rejection |
| `OperationTable.AppendEffect` | semreg/v1/operation/record.go:14-69 | an append answers with the record that then stands |
| `OperationTable.AdmitEffect` | semreg/v1/operation/admission.go:249-328 | the table gains a key by admission iff the key is free, there is room and the intent is admissible |
| `OperationTable.ReflectedNeverAdmitted` | semreg/v1/operation/admission.go:390-402 | a reflected intent is never granted, whatever the table, hooks, snapshot and authority |
| `OperationTable.LookupStable` | semreg/v1/operation/admission.go:358-369 | once a key is answered, every later lookup of the same bytes returns the same admission with at most its record added, and other bytes stay refused |
| `OperationTable.ClaimsReproduceRoute` | semreg/v1/operation/admission.go:672-692 | the guard claims of a fresh admission are the records of the single routable capability of its snapshot |
| `Witnesses.WishGranted` | semreg/v1/operation/admission.go:249-328 | a concrete intent granted on the one capability of a valid snapshot |
| `Witnesses.AppliedHappens` | semreg/v1/operation/record.go:14-69 | a concrete grant entered and its applied record accepted |
| `OperationKernels.NewKernel` | semreg/v1/operation/admission.go:96-125 | a retention bound outside 1 to 65536 is refused |
| `OperationKernels.OperationKernel.Find` | semreg/v1/operation/admission.go:358-369 | the lookup section answers as the table does |
| `OperationKernels.OperationKernel.Enter` | semreg/v1/operation/admission.go:311-328 | the install section changes the table as the model says |
| `OperationKernels.OperationKernel.Admit` | semreg/v1/operation/admission.go:249-328 | answer and new table of a complete admission |
| `OperationKernels.OperationKernel.RecordRejection` | semreg/v1/operation/record.go:74-134 | answer and new table of a rejection |
| `OperationKernels.OperationKernel.Record` | semreg/v1/operation/record.go:14-69 | answer and new state of an append; a handle not held under the record's key changes nothing |
| `OperationKernels.CheckReadback` | semreg/v1/operation/record.go:166-258 | the ranked readback error |
| `JsonText.Utf8Injective` | semreg/v1/validation.go:2130-2160 | UTF-8 output determines the text |
| `JsonText.RuneRoundTrip` | semreg/v1/validation.go:2130-2160 | each character is encoded in the shortest UTF-8 form and reads back |
| `JsonText.KeyLeqExact` | semreg/v1/validation.go:2112-2129 | members are written in ascending order: prefix first, else the smaller UTF-16 unit at the first difference |
| `JsonText.UnitsDecode` | semreg/v1/validation.go:2112-2113 | UTF-16 units: one for the basic plane, else a surrogate pair that gives the character back |
| `JsonText.KeyOrder` | semreg/v1/validation.go:2112-2129 | UTF-16 key order is total, and only equal keys compare as equal (section 3.2.3 of RFC 8785) |
| `JsonText.CompareKeysLoop` | semreg/v1/validation.go:2112-2129 | the comparison loop computes the lexicographic order of code units |
| `JsonText.StringRoundTrip` | semreg/v1/validation.go:2130-2160 | escaping is reversible: a reader of the string grammar gives the string back and leaves what follows (section 3.2.2.2 of RFC 8785) |
| `JsonText.EscapeMinimal` | semreg/v1/validation.go:2135-2157 | escapes are the shortest the grammar has, and lower case (section 3.2.2.2 of RFC 8785) |
| `CanonicalJson.TextDetermines` | semreg/v1/validation.go:2161-2208 | a written tree followed by the end of its value determines the tree up to member order, and what follows |
| `CanonicalJson.CanonicalIffSame` | semreg/v1/validation.go:2161-2208 | two duplicate-free trees have the same canonical bytes exactly when they differ by member order alone |
| `JsonReader.TextReads` | semreg/v1/validation.go:2161-2208 | a written tree followed by the end of its value reads back, by the grammar, as the same tree in member order |
| `JsonReader.CanonicalRoundTrip` | semreg/v1/validation.go:2161-2208 | canonical text reads back as its tree up to member order, with every object's keys ascending |
| `JsonWriter.Buffer.WriteString` | semreg/v1/validation.go:2130-2160 | the escaping loop appends exactly the quoted text |
| `JsonWriter.Buffer.Write` | semreg/v1/validation.go:2161-2208 | the writer appends exactly the canonical bytes |
| `JsonWriter.Canonicalize` | semreg/v1/validation.go:2098-2111 | canonical bytes of a tree |

## Left out

- Identifiers are ordered natural numbers, and collections that the wire form keeps sorted and duplicate-free are maps; order and duplicate checks of such lists, and nil versus empty lists, belong to the arbitrary syntax hook.
- Field syntax (patterns, text normalization, text limits), digests, snapshot identity and pack hooks are arbitrary functions passed in; every result holds for all of them.
- Fact envelopes are one candidate map plus a conflict and a revision per key.
- Error detail texts: two errors of one class are equal.
- Evidence is an opaque identifier; access and redaction metadata are not modelled.
- JSON parsing, shape checks, duplicate detection and record binding: the canonical writer is modelled from the parsed tree on, whose strings are valid UTF-8, so the writer's invalid-UTF-8 refusal has no counterpart.
- Canonical bytes of intents and execution records are an arbitrary function of the record; the writer's injectivity is proved separately and the two are not joined.
- Staging.StageFacts: once the stage is full the original drops further new candidates while the model stages them; both refuse the batch, and the class can differ only where an envelope revision is exhausted as well.
- Closure.CloseCandidateGraph: takes only maps in which no observed candidate carries a derivation; both callers refuse such a candidate with a higher-ranked error first, as `PublicationKernels.Validate` proves for arbitrary snapshots.
- PublicationKernels.Stage: the same restriction on the staged facts, established by `Apply` from the structure check.
- PublicationKernels.Validate: order and duplicate checks of lists, which maps cannot violate, and the comparison of the identifier with its digest.
- OperationKernels.NewKernel: refusals of the pack registry and of a pack without an operation hook.
- Chronology.ContextsOrdered: takes equal readings within one monotonic epoch as one true time; `Chronology.WeaklyOrdered` and `Chronology.MisorderedExactly` say what remains without that.
- The kernel's read-only accessors of the current snapshot, with or without a view.
- Mutexes, deep copies and `Fork`: each critical section is one atomic step and records are values. An append's ownership check and its write are two sections; the table results hold for whatever ownership was read in the first.
- True times are integers of nanoseconds.
- `ValidateRetry`, selection and alias boundaries, selection policies: constant refusals or thin dispatch.
- The catalog, projection, pack metadata and the collector, and pack validators other than decimal comparison: static tables and repeated branches.
- Resource and timing behaviour.
