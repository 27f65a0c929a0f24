# Fraglands: a verified model of its coordination rules

Fraglands prepares replay scenarios, allocates one game-server process per ready revision, admits
accounts through one-use join intents and stores private attempt results. Its rules live in small
lock-guarded state machines, and most operations take several critical sections. This project models
those rules in Dafny and proves what they keep under every interleaving.

## How the model is built

Each protocol is a transition system with one step per locked section: a function
`Next(state, step)` that is `None` where the step is not enabled, an invariant, and theorems over all
runs. The systems are stacked, each embedding the one below:

`Supervision` (registry of processes) < `Custody` (allocator) < `PreparationRuns` (provider runs,
cancellation, `ReplayGrants`) < `JoinProtocol` (with `LobbyAccess`) < `ResultProtocol` (leases, gate,
result store).

Beside the transition systems stand the objects the program updates in place
(`ServerLeaseAuthority`, `SummaryIngestionGate`, `ResultStore`, `Supervisor`, `Allocator`,
`LaunchedProcess`, `BoundedBuffer`, `LobbyObject`, `ScenarioPreparation`, `HMACGrantAuthority`,
`SummarySpoolWatcher`, `JoinIntent` and the orchestrator, split into the parts that join accounts
and accept results) as classes whose methods are proved equal to the functions the theorems are
about. Loops are loops with invariants. The `Outcomes` modules say of each protocol what its calls come
to: when one may be refused, what it has done once it returns, and that none is ever stuck.

Fields marked as history in the states (who reserved a generation, which call holds a digest, which
intent recorded an admission) are never read by a step's guard; they name witnesses for the theorems.

| file | subject |
|---|---|
| `Prelude.dfy`, `Decimal.dfy` | shared types, decimal printing and parsing |
| `ResultProtocol.dfy`, `ResultOutcomes.dfy`, `ResultPath.dfy` | result acceptance: interleaved, what its calls come to, and one call at a time |
| `ServerLease.dfy` | server credential leases |
| `JoinProtocol.dfy`, `JoinOutcomes.dfy`, `JoinDesk.dfy`, `Admissions.dfy` | join intents, admissions, attribution |
| `PreparationRuns.dfy`, `PreparationOutcomes.dfy`, `CancelledPreparation.dfy`, `ScenarioPreparation.dfy`, `ReplayGrants.dfy` | preparation lifecycle and replay grants |
| `Supervisor.dfy`, `Custody.dfy`, `CustodyOutcomes.dfy`, `Allocator.dfy` | process registry and custody |
| `LaunchedProcess.dfy`, `BoundedBuffer.dfy` | one host process and its captured output |
| `TerminalSummary.dfy`, `ArtifactName.dfy`, `SpoolWatcher.dfy` | artifacts: decoder, names, poller |
| `RevisionCompiler.dfy` | facts to revision |
| `Lobby.dfy`, `LobbyAccess.dfy`, `LobbyOutcomes.dfy` | lobby slots, invitations |

## Where the code decides more or less than its comments say

- Revocation fences a generation only until the next `IssueLease` for it: after a revocation a commit
  may run exactly when a lease was issued since and not revoked since (`RevocationExact`).
- A result handed in directly is fenced by the lease of its generation, not by the credential its
  participant presented (`DirectOutlivesCredential`); credential-level statements hold for the gate.
- "No port, spool, or generation leaks" is false of a failed launch's generation: a refused start leaves
  the generation counter where it was exactly when the ports are exhausted (`Supervisor.Start`), and a
  consumed generation is never used again (`GenerationsUnique`).
- "No declared freshness budget never yields Complete" is false: it does exactly for eligible facts
  without heroes (`ZeroBudgetExact`, `ZeroHeroesComplete`).
- "A returned error means the preparation was transitioned to failed" is false of `PrepareScenario`: an
  error leaves the preparation failed exactly when it was still running just before, and otherwise its
  owner had already cancelled it (`PrepareErrorExact`, `PrepareErrorUnfailed`); such a run exists
  (`PrepareErrorOnCancelled`).
- The poller opens names with superfluous leading zeros that name validation then refuses
  (`CanonicalExact`); every generation has one (`PaddedName`, `LeadingZeroRecognised`).
- Distinct replay hashes with the same first sixteen characters share revision IDs at the same tick
  (`RevisionNameExact`).
- The loser of a race for one artifact may be told "duplicate" although the holder later fails, so the
  refinement is stated over stored state (`DuplicateMeansHeld`); any other refusal is one the call run
  alone would meet at that moment too (`RefusedOnlyAsAlone`).

## Model

| member | source | states |
|---|---|---|
| ResultProtocol.RunRefines | server/summary-ingestion.go:126-206 | every interleaving of gate ingestions, direct calls, lease issues, revocations and join steps reaches the state its events reach when done one at a time, each atomic and none refused; an ingestion's event is the moment its commit reads the admission under the lease lock |
| ResultProtocol.StoredAsAtomically | server/summary-ingestion.go:173-205 | whenever no commit is in progress the stored results equal those of the atomic run |
| ResultProtocol.SeenAsAtomically | server/summary-ingestion.go:173-205 | whenever no call holds a reservation the digest set equals the digests the atomic run accepted |
| ResultProtocol.AcceptedOnce | server/summary-ingestion.go:186-205 | over a whole run a call whose result is stored (or certain to be) is exactly one atomic ingestion event, any other call none |
| ResultProtocol.RefusedLeavesNothing | server/summary-ingestion.go:199-204 | a refused call, once finished, is no event, holds no reservation and accepted no digest |
| ResultProtocol.WinnerIsAtomic | app/composition.go:81-98 | a commit that has just read its account under the lease lock and will store it does exactly what the whole atomic ingestion does at that moment |
| ResultProtocol.StepRefines | app/composition.go:81-98 | every step of the interleaved system is either no change of the atomic state or exactly one succeeding atomic event |
| ResultProtocol.RunInv | server/summary-ingestion.go:126-206 | the invariant of the result path (lock holder, reservations, accepted digests, stored results, lease facts of calls in flight) holds in every reachable state |
| ResultProtocol.DigestSetExact | server/summary-ingestion.go:173-180 | the digest set is exactly the accepted digests plus those reserved by calls in flight; each digest has exactly one holder |
| ResultProtocol.RollbackExact | server/summary-ingestion.go:199-204 | a rollback removes the call's own reservation and nothing else, never an accepted digest, and changes no result |
| ResultProtocol.DuplicateMeansHeld | server/summary-ingestion.go:145-148 | a call is refused as a duplicate only while another call holds, or has had accepted, the same artifact |
| ResultProtocol.OneResultPerAttempt | orchestrator/admission.go:41-70 | over every run the stored results of one process generation that no direct commit stored belong to one account, and there is at most one per attempt generation across all accounts |
| ResultProtocol.OneResultThroughGate | core/result.go:53-69 | so when no direct commit ran, two stored results with equal process and attempt generation are one result |
| ResultProtocol.StoredThroughGate | server/summary-ingestion.go:186-205 | over every run each stored result that no direct commit stored came from an accepted artifact |
| ResultProtocol.DigestsMatchResults | server/summary-ingestion.go:173-205 | over every run accepted digests and gate-stored results are one-to-one |
| ResultProtocol.OwnerRead | orchestrator/admission.go:41-70 | the account attributed under the lease lock is the one account whose results the gate ever stored for that generation |
| ResultProtocol.ResultsEarned | orchestrator/scenario.go:236-263 | in every run each stored result has a used intent with the same account, generation and revision, issued at a moment when its preparation was ready with that revision, its Allocate call had handed out the process of that generation as ready, and the account held a slot it was entitled to |
| ResultProtocol.StoredUnderLease | core/server-lease.go:234-251 | at the step that stores a gate result, the presented credential authenticates the very participant the result is bound to |
| ResultProtocol.NothingStoredWhileRevoked | core/server-lease.go:197-228 | between a revocation of a generation and the next lease issued for it, no result of that generation is stored, by the gate or directly |
| ResultProtocol.RevocationExact | core/server-lease.go:153-228 | at any moment after a revocation a commit for the generation may run iff a lease was issued for it since and not revoked since |
| ResultProtocol.StoppedNeverStores | core/server-lease.go:234-251 | the gate never stores under a credential that has stopped authenticating at any earlier moment |
| ResultProtocol.SupersededNeverStores | core/server-lease.go:137-171 | nor under a credential superseded by a later issue for its generation |
| ResultProtocol.DirectOutlivesCredential | orchestrator/scenario.go:256-262 | a re-issue for the generation never makes a direct call refuse the lease: the direct path is fenced by generation only |
| ResultProtocol.AddNeedsLease | core/server-lease.go:214-228 | any step that adds a result of a generation finds that generation's lease active and unrevoked |
| ResultOutcomes.RefusedOnlyAsAlone | server/summary-ingestion.go:126-206 | over every run a section refuses an ingestion only as a duplicate, of what another call holds or had accepted, or where the whole ingestion run alone at that moment is refused too, for the same cause unless its credential or the attribution fails before that |
| ResultOutcomes.RefusedForCause | server/summary-ingestion.go:199-204 | the cause a refused ingestion reports is one some section of it was lawfully refused for |
| ResultOutcomes.NeverStuck | core/server-lease.go:234-251 | in every reachable state an unfinished ingestion can take its next section, unless it waits for the lease lock, and then the holder can |
| ResultOutcomes.SectionsBounded | server/summary-ingestion.go:126-206 | an ingestion takes at most seven sections after its first, so it ends |
| ResultOutcomes.LockExact | core/server-lease.go:214-251 | lease operations, authentications and commits wait for the holder of the lease lock and for nothing else; join steps and the checks of direct calls do not wait |
| ResultOutcomes.DirectAsAlone | orchestrator/scenario.go:236-263 | over every run a direct call is answered, where it is checked or where it commits, exactly as the whole call run alone at that moment |
| ResultOutcomes.StoredFields | app/composition.go:90-97 | over every run the result of an accepted artifact is stored under its account and generations and says field by field what that artifact decodes to, under its own name, for an account admitted on that generation against that revision |
| ResultPath.IngestExact | server/summary-ingestion.go:126-206 | an atomic ingestion succeeds iff the credential is the active unrevoked lease, the artifact is new and well formed under its own name for that generation, and the sole admitted account has no result for the attempt; it then adds one result that names that account and says field by field what the artifact says, and records the digest |
| ResultPath.IngestRefused | server/summary-ingestion.go:121-125 | a refused ingestion changes nothing; an accepted one had a sole admission |
| ResultPath.CauseExact | server/summary-ingestion.go:126-171 | each cause before the reservation is given exactly when its check fails and those before it pass |
| ResultPath.AcceptExact | orchestrator/scenario.go:236-263 | a direct call stores its result as handed in iff its account is admitted on that generation against that revision, the lease stands and the attempt has no result; otherwise nothing changes |
| ResultPath.InspectExact | server/summary-ingestion.go:150-171 | the checks between the duplicate check and the reservation pass iff the artifact decodes, carries the writer's exact name, and is from the participant's and the expected process generation |
| ResultPath.CommitEffect | app/composition.go:82-98 | a refused commit leaves no trace and an accepted one adds one result, whatever digests are reserved besides |
| ResultPath.SummaryIngestionGate.Ingest | server/summary-ingestion.go:126-206 | run alone, Ingest is the atomic ingestion: same refusal, same new state, no reservation left |
| ResultPath.SummaryIngestionGate.ExamineArtifact | server/summary-ingestion.go:130-171 | steps 1 to 6 compute exactly the specified participant and summary or the first refusal that applies, changing nothing |
| ResultPath.SummaryIngestionGate.ReserveAndCommit | server/summary-ingestion.go:173-205 | reserve, commit under the exact credential, roll back on refusal |
| ResultPath.SummaryIngestionGate.AttributeAndAccept | app/composition.go:82-97 | the commit closure attributes the summary and accepts the result after the lease |
| ResultPath.ResultOrchestrator.AcceptResult | orchestrator/scenario.go:236-263 | direct acceptance equals the specified checks in order, fenced by the generation's lease or not |
| ResultPath.ResultStore.Accept | core/result.go:53-69 | a second result for the same account and attempt is refused and the first stands |
| ResultPath.ResultStore.Lookup | core/result.go:73-85 | finds exactly the stored result |
| ServerLease.RunInv | core/server-lease.go:137-206 | over every run, each generation's issued versions are exactly 1 to n, the active lease is number n, and at most one credential per generation authenticates |
| ServerLease.StoppedForever | core/server-lease.go:177-206 | a credential that once stopped authenticating never authenticates again |
| ServerLease.AuthenticatesExact | core/server-lease.go:137-206 | over every run a credential authenticates as a participant of a generation iff it was issued to it and nothing was issued or revoked for that generation since |
| ServerLease.CommitExact | core/server-lease.go:214-251 | a commit may run under a credential iff it authenticates for the generation; under the generation iff it may under its active credential |
| ServerLease.StepInv | core/server-lease.go:137-206 | issuing and revoking keep versions distinct, gapless and topped by the active lease |
| ServerLease.StepLater | core/server-lease.go:137-206 | no operation changes an issued lease's binding or revives a credential |
| ServerLease.ServerLeaseAuthority.IssueLease | core/server-lease.go:137-171 | refuses an incomplete binding or a failing source, else files a fresh credential as version one more than the last for its generation |
| ServerLease.ServerLeaseAuthority.NewLeaseCredential | core/server-lease.go:255-266 | the first draw that no lease has, or none iff all are taken |
| ServerLease.ServerLeaseAuthority.AuthenticateServer | core/server-lease.go:177-191 | unknown, revoked, superseded or the bound participant |
| ServerLease.ServerLeaseAuthority.Revoke | core/server-lease.go:197-206 | flags exactly the active lease of the generation, if any |
| ServerLease.ServerLeaseAuthority.CheckLease | core/server-lease.go:214-228 | the guard of CommitLease |
| ServerLease.ServerLeaseAuthority.CheckCredential | core/server-lease.go:234-251 | the guard of CommitCredential |
| JoinProtocol.IntentsEarned | orchestrator/join.go:21-82 | in every run every intent was issued at a moment when its preparation was ready with the intent's revision, its Allocate call had handed out the process of that generation as ready, and the account held a slot it was entitled to |
| JoinProtocol.AdmissionsEarned | orchestrator/join.go:119-140 | in every run every admission comes from a used intent with the same account, generation and revision, earned as above: ready preparation, process handed out as ready, slot held and entitled to |
| JoinProtocol.AdmissionsOnlyGrow | orchestrator/join.go:126-138 | no admission is ever withdrawn or changes its revision |
| JoinProtocol.IntentConsumedOnce | core/join-intent.go:41-58 | an intent is consumed by at most one step of any run |
| JoinProtocol.GenerationHasOneRevision | orchestrator/join.go:71-76 | over every run all intents and all admissions of one process generation carry one revision |
| JoinProtocol.RunInv | orchestrator/join.go:21-140 | the invariant over calls, intents, admissions, preparations and lobbies holds in every reachable state; a nil revision is never read |
| JoinProtocol.UseIsConsume | orchestrator/join.go:119-124 | the consuming section is the intent's own Consume and touches no other intent |
| JoinProtocol.AnswerOk | orchestrator/join.go:29-81 | each section of IssueJoinIntent keeps what the earlier ones established, although each reads a different moment |
| JoinOutcomes.IssueRefusedLawfully | orchestrator/join.go:21-82 | over every run an issuing call is refused only if the call run alone would have been refused at that moment, or where it captured the preparation's process |
| JoinOutcomes.IssueNeverStuck | orchestrator/join.go:21-82 | an issuing call neither refused nor issued can always go on |
| JoinOutcomes.IntentsBound | orchestrator/join.go:21-82 | over every run an intent binds the account, the Steam identity and the preparation of one call that asked for it |
| JoinOutcomes.ConsumeExact | orchestrator/join.go:91-140 | over every run the sections of a consuming call: it goes on for a known intent of the presented generation, uses it iff unused and every fact matches, and then files the admission of its account on its generation against its revision |
| JoinOutcomes.ConsumeNeverStuck | orchestrator/join.go:91-140 | a consuming call neither refused nor admitted can always go on |
| JoinDesk.JoinOrchestrator.IssueJoinIntent | orchestrator/join.go:21-82 | run alone: issued iff no check refuses (first failing check named), under a new number, bound to revision, generation and the principal's own identity; earlier intents stand |
| JoinDesk.JoinOrchestrator.ConsumeJoinIntent | orchestrator/join.go:91-140 | run alone: consumed and admitted iff known for this generation and every fact matches an unused intent; otherwise nothing changes |
| JoinDesk.JoinOrchestrator.NextIntentID | orchestrator/join.go:143-150 | a number no intent was ever filed under, above all that were |
| JoinDesk.AllocatedProcess.MarkReady | orchestrator/allocated-process.go:26-40 | the first evidence makes the process ready and stands; later calls report false |
| Admissions.ConsumedOnce | core/join-intent.go:41-58 | however often presented, an intent is consumed at most once, and exactly when some presentation carries all its facts |
| Admissions.PresentedExact | core/join-intent.go:41-58 | a presentation consumes iff the intent is unused and all facts match; a refusal names the first that fails |
| Admissions.JoinIntent.Consume | core/join-intent.go:41-58 | used, revision, generation and Steam identity are checked in that order; a refused consume never marks the intent |
| Admissions.AttributeExact | orchestrator/admission.go:31-70 | an account is attributed iff it is the only one admitted on the generation against the revision; ambiguous iff two are; unadmitted iff nobody is admitted on the generation; and not of this revision iff somebody is, but nobody against it |
| Admissions.AdmittedAccountFor | orchestrator/admission.go:41-70 | the one-pass loop, in any map order, computes that attribution and its three refusals |
| PreparationRuns.RunInv | orchestrator/scenario.go:136-199 | the invariant tying record, grant, process and phase of every preparation holds under every interleaving with cancellation |
| PreparationRuns.LifecycleExact | provider/provider.go:84-164 | revision iff ready, failure iff failed; Prepare returns only with the preparation terminal; a process or an allocation failure is recorded exactly for an ended ready run, never both |
| PreparationRuns.TerminalForever | core/scenario-preparation.go:194-228 | along every run a terminal record, a recorded process or allocation failure, an owner and a replay are never changed |
| PreparationRuns.PrepareErrorExact | core/prepare.go:43-76 | over every run PrepareScenario errs iff a cancel had already marked the preparation or the compiler refuses; the preparation is then failed iff it was running just before, and cancelled iff it was cancelled before |
| PreparationRuns.PrepareErrorUnfailed | core/prepare.go:43-76 | an error without a failed preparation means its owner had begun to cancel it |
| CancelledPreparation.PrepareErrorOnCancelled | core/prepare.go:74-76 | a run exists in which PrepareScenario errs on a preparation that is cancelled and not failed |
| PreparationRuns.ReadyUsedItsGrant | provider/provider.go:115-148 | a ready preparation's grant was used, for its own replay, and never revoked |
| PreparationRuns.ReadyFetchedOnce | provider/verifying-store.go:37-42 | over every run, once a preparation's bytes are in hand (so for every running or ready one) its own request, with its own replay and token, reached the inner store, exactly once and no other for that preparation |
| PreparationRuns.NotReadyIsDenied | orchestrator/scenario.go:136-199 | once the run of a preparation that is not ready ended, or a cancel of it succeeded, it never becomes ready and no request for it or with its token verifies, then or later |
| PreparationRuns.CancelledByOwner | orchestrator/scenario.go:173-199 | over every run only a cancel call of the owner ever cancels a preparation |
| PreparationRuns.NoSharedProcess | orchestrator/scenario.go:152-167 | over every run no two preparations record the same process generation |
| PreparationOutcomes.ProcessExact | orchestrator/scenario.go:152-167 | over every run a preparation has a process recorded iff its run ended and its Allocate call handed that process out |
| PreparationOutcomes.SectionExact | provider/provider.go:84-164 | over every run what each section of a run does to its record: check, verification of exactly a usable grant, fetch, start, ready with the compiled revision or failed with the refusal, failure of a live record only, allocation of a ready one |
| PreparationOutcomes.MintedExact | orchestrator/scenario.go:14-68 | over every run minting files an unused grant for the preparation's own owner and replay, good for the whole lifetime, under the token its run carries; or the preparation ends there |
| PreparationOutcomes.CancelExact | orchestrator/scenario.go:173-199 | over every run the owner's cancel, and no one else's, cancels a preparation that is not terminal, whatever its run is doing, and leaves its grant spent; a terminal one it leaves alone |
| PreparationOutcomes.CancelledUnfetched | provider/provider.go:84-95 | a preparation cancelled before its run's first check is never fetched |
| PreparationOutcomes.NeverStuck | orchestrator/scenario.go:136-168 | a run that has not ended can always go on, unless it waits for its Allocate call to return |
| ScenarioPreparations.MarksSound | core/scenario-preparation.go:168-228 | whatever marks are attempted, the record stays sound and never leaves its first terminal state |
| ScenarioPreparations.ApplySound | core/scenario-preparation.go:194-228 | one mark: a refused one changes nothing, a terminal record refuses all, failing or cancelling a live one succeeds |
| ScenarioPreparations.ApplyExact | core/scenario-preparation.go:168-228 | which marks succeed from which state, what they leave, and the cause of each refusal |
| ScenarioPreparations.ScenarioPreparation.Transition | core/scenario-preparation.go:194-228 | the locked transition of the object is the specified one |
| ScenarioPreparations.ScenarioPreparation.MarkReady | core/scenario-preparation.go:173-178 | needs a revision and a running preparation |
| ScenarioPreparations.ScenarioPreparation.MarkFailed | core/scenario-preparation.go:181-186 | needs a reason |
| ScenarioPreparations.ScenarioPreparation.MarkRunning | core/scenario-preparation.go:168-170 | only from queued |
| ScenarioPreparations.ScenarioPreparation.MarkCancelled | core/scenario-preparation.go:189-191 | from any live state |
| ScenarioPreparations.Provider.Prepare | provider/provider.go:84-164 | run alone it always ends terminal and sound; it succeeds iff the preparation was queued, every check passes, the grant verifies, the store gives the bytes and they compile, and the grant is then spent on the one fetch; a terminal preparation is refused without consulting the store |
| ScenarioPreparations.Provider.DoPrepare | provider/provider.go:96-148 | the checks in order, each with its error and no effect; a refused grant leaves the store unreached; a verified one is spent on one fetch, and the bytes are denied iff the store denies them, unusable or compiled |
| ScenarioPreparations.FailureCodes | provider/errors.go:49-92 | each reason code belongs to exactly one kind of failure |
| ScenarioPreparations.Provider.PrepareScenario | core/prepare.go:45-78 | moves a queued preparation exactly once, to ready with the revision or to failed with the refusal |
| ReplayGrants.FetchedOnce | provider/verifying-store.go:37-42 | over any run the inner store is reached at most once per preparation and grant, only with a used grant and for its replay |
| ReplayGrants.GrantsConsistent | core/grant.go:237-330 | over any run token and preparation maps stay mutually inverse and no grant is both used and revoked |
| ReplayGrants.MintInv | core/grant.go:237-281 | minting keeps the maps inverse and binds a fresh token to one preparation |
| ReplayGrants.MintExact | core/grant.go:237-281 | a mint succeeds iff the binding is complete, the preparation has no grant and a nonce is drawn; the grant returned says what was filed; each cause iff its check fails first |
| ReplayGrants.VerifyCause | core/grant.go:288-312 | an unknown, mismatched, revoked, used or expired grant is refused for that cause |
| ReplayGrants.VerifyInv | core/grant.go:288-312 | verification succeeds iff the request carries the preparation's own token, for its replay, and the grant is unused, unrevoked and unexpired; it then uses the grant up and nothing else |
| ReplayGrants.RevokeInv | core/grant.go:317-330 | after a revocation the preparation's grant is used or revoked |
| ReplayGrants.SpentRefused | core/grant.go:288-312 | a spent grant never verifies, whatever the request |
| ReplayGrants.HMACGrantAuthority.Mint | core/grant.go:237-281 | the object follows the specification |
| ReplayGrants.HMACGrantAuthority.Verify | core/grant.go:288-312 | the object follows the specification |
| ReplayGrants.HMACGrantAuthority.Revoke | core/grant.go:317-330 | the object follows the specification |
| ReplayGrants.VerifyingStore.Replay | provider/verifying-store.go:37-42 | verifies first; the inner store sees the request iff verification succeeded |
| Custody.CustodyExact | worker/allocator.go:135-349 | every process that came up is in exactly one of in flight, handed out, retained, reaped; in flight or retained it is registered under the same handle |
| Custody.ReapedOnce | worker/allocator.go:331-349 | along every run no process is reaped twice by the allocator and a handed-out one never |
| Custody.HandedOutForever | worker/allocator.go:154-170 | a handed-out process stays handed out |
| Custody.NothingLost | worker/allocator.go:206-237 | once every call returned, each process was handed out, is retained and registered, or was reaped |
| Custody.RunInv | worker/allocator.go:135-349 | custody and the supervisor's isolation hold in every reachable state of concurrent Allocate, Recover and RecoverAll |
| CustodyOutcomes.CleanupExact | worker/allocator.go:331-349 | over every run a cleanup does not stop a process known to be dead, fails only for one that still lives, and sweeps exactly a dead one, which thereby leaves the registry |
| CustodyOutcomes.AllocateExact | worker/allocator.go:135-170 | over every run an Allocate call launches the next generation unless the ports are exhausted, leaves no registration after a failed launch, registers a launched process under its own spec, and hands it out on readiness evidence or cleans it up |
| CustodyOutcomes.AllocateSettles | worker/allocator.go:206-237 | in every reachable state a failed allocation ends without its process, which is swept, or with it retained and still registered |
| CustodyOutcomes.RecoverExact | worker/allocator.go:262-301 | over every run a Recover call answers success iff its generation is not retained any more; otherwise its process is retained and registered still; it never keeps the recovery lock |
| CustodyOutcomes.NeverStuck | worker/allocator.go:262-301 | an unfinished call can always take a step, unless it waits for the recovery lock, and then its owner can |
| Allocation.Allocator.Allocate | worker/allocator.go:135-170 | run alone: no process iff none was launched; otherwise handed out with readiness evidence iff the wait for it succeeded, or reaped again, or retained, named by the error and still registered |
| Allocation.Allocator.FailWithCleanup | worker/allocator.go:206-237 | tears the process down or retains exactly its handle |
| Allocation.Allocator.Cleanup | worker/allocator.go:331-349 | a live process is asked to stop, once, and a terminal one is not; released from the registry iff it reports success; the cause of a failure is true of the process |
| Allocation.Allocator.AwaitReadiness | worker/allocator.go:152-170 | success only on readiness evidence; otherwise the process is cleaned up or retained |
| Allocation.Allocator.Recover | worker/allocator.go:262-301 | forgets a retained process only once it is reaped |
| Allocation.Allocator.RecoverAll | worker/allocator.go:306-314 | exactly the processes that could not be reclaimed stay retained, exactly those are reported, and the registry loses exactly the reservations of the others |
| Allocation.Allocator.FailedCleanupGenerations | worker/allocator.go:243-252 | the retained generations, ascending |
| Supervision.RegistryIsolated | server/supervisor.go:61-154 | along every run reserved ports and spools are exactly those of registered IDs, pairwise distinct, and the next generation stays within 65537 minus the base port |
| Supervision.ReserveOutcome | server/supervisor.go:89-116 | a reservation fails only by port exhaustion, and exactly then: port in use, spool in use and an invalid spec cannot occur |
| Supervision.ReserveFresh | server/supervisor.go:89-116 | a reserved generation, port, spool and ID are all new |
| Supervision.FirstReservation | server/supervisor.go:89-116 | on a fresh registry the first generation gets the base port, its own directory and its own ID, at concrete values |
| Supervision.GenerationsUnique | server/supervisor.go:96-96 | no generation is ever reserved twice in a run |
| Supervision.RunMonotone | server/supervisor.go:96-96 | the generation counter never goes back |
| Supervision.Supervisor.Start | server/supervisor.go:61-85 | reserve, launch, register, or roll port, spool and ID back; it returns what the launcher gave; a refused start keeps the generation counter where it was iff the ports are exhausted |
| Supervision.Supervisor.AllocateSpecLocked | server/supervisor.go:89-116 | the object follows the specification, the generation consumed before the later checks |
| Supervision.Supervisor.Reap | server/supervisor.go:135-154 | releases exactly a registered terminal process |
| LaunchedProcesses.LifecycleExact | server/hostexec/launcher.go:494-670 | over every interleaving of reaper, watcher and callers: wait and done channels closed exactly once iff terminal, ready channel exactly once iff fact or terminal, never otherwise; crashed iff a reason; terminal entered at most once |
| LaunchedProcesses.EndingExact | server/hostexec/launcher.go:494-567 | stopped iff Stop was called and readiness did not time out; readiness-timeout crash iff it did, and then no fact; otherwise the reason that names how the child exited; output delivered in every case |
| LaunchedProcesses.ReadinessExact | server/hostexec/launcher.go:571-604 | over every run a line the watcher acts on is recorded on a process that has not ended, launching or running, which becomes ready with its ready channel closed; the timeout leaves a crash pending and a stop requested; an ended process is left alone |
| LaunchedProcesses.PrintedIsRecorded | server/hostexec/launcher.go:441-484 | the first ready line the child prints is the one the watcher takes and, unless the process has ended by then, records |
| LaunchedProcesses.FactWasPrinted | server/hostexec/launcher.go:466-484 | a recorded readiness fact is a line the child printed before |
| LaunchedProcesses.OutputDelivered | server/hostexec/launcher.go:494-535 | over every run the artifacts of a process that ended are what its child printed before it exited, standard output first |
| LaunchedProcesses.CallersServed | server/hostexec/launcher.go:612-670 | over every run neither reaper nor watcher is ever stuck; a waiting Stop caller returns iff the process has ended, with how; a readiness waiter iff there is a fact or an end |
| LaunchedProcesses.StopBeginsExact | server/hostexec/launcher.go:612-640 | over every run a Stop call waits, with a stop requested, iff the process has not ended; otherwise it returns at once with how it ended |
| LaunchedProcesses.TerminalForever | server/hostexec/launcher.go:832-841 | a terminal state, its reason and a readiness fact are never left or changed |
| LaunchedProcesses.CallersExact | server/hostexec/launcher.go:612-670 | no Stop caller dereferences a missing reason; nil means stopped, an error names the recorded crash; no readiness waiter misses its fact |
| LaunchedProcesses.RunInv | server/hostexec/launcher.go:441-535 | the invariant of record, channels, actors and callers over every run |
| LaunchedProcesses.LaunchedProcess.Reap | server/hostexec/launcher.go:494-535 | the last section records the ending as specified |
| LaunchedProcesses.LaunchedProcess.MarkReady | server/hostexec/launcher.go:571-586 | the watcher's readiness section, which `ReadinessExact` describes |
| LaunchedProcesses.LaunchedProcess.ReadinessTimeout | server/hostexec/launcher.go:590-604 | the watcher's timeout section |
| LaunchedProcesses.LaunchedProcess.BeginStop | server/hostexec/launcher.go:612-640 | the first section of Stop |
| LaunchedProcesses.LaunchedProcess.TerminalLocked | server/hostexec/launcher.go:832-841 | state, reason and channels in one section |
| LaunchedProcesses.LaunchedProcess.CloseReadyChLocked | server/hostexec/launcher.go:845-851 | afterwards the channel is closed, and one closed before was not closed a second time |
| LaunchedProcesses.LaunchedProcess.DeliverArtifact | server/hostexec/launcher.go:800-808 | appends before the terminal state only |
| LaunchedProcesses.LaunchedProcess.ReadFact | server/hostexec/launcher.go:783-796 | a waiter that saw the channel closed gets the recorded fact, or else learns that the process ended without one |
| BoundedCapture.ClosedForm | server/hostexec/launcher.go:871-903 | after any lines with limit at least 1, the snapshot is the whole stream if it fits, else its first limit - 1 bytes and a newline |
| BoundedCapture.BoundedBuffer.WriteLine | server/hostexec/launcher.go:871-890 | the byte-level object follows the specified capture |
| BoundedCapture.BoundedBuffer.MarkOverflow | server/hostexec/launcher.go:893-897 | the truncation mark |
| BoundedCapture.BoundedBuffer.Snapshot | server/hostexec/launcher.go:900-904 | a copy of what was captured |
| TerminalSummaries.DecodeExact | server/terminal-summary.go:171-294 | the decoder accepts with a summary iff the artifact has at most 65536 bytes, its members are a reordering of that summary's eight under their wire names, and every rule of the contract holds |
| TerminalSummaries.SpellsExact | server/terminal-summary.go:180-236 | a list spells a summary iff it is a reordering of its eight members, none missing, repeated or added |
| TerminalSummaries.OrderIrrelevant | server/terminal-summary.go:171-236 | the answer does not depend on the order of the members |
| TerminalSummaries.VersionRefusalExact | server/terminal-summary.go:205-236 | an unknown-version refusal means complete, typed members for another contract |
| TerminalSummaries.VisitExact | server/terminal-summary.go:180-236 | the visit ends with every field and this summary iff the list spells it |
| TerminalSummaries.ParseTerminalSummaryArtifact | server/terminal-summary.go:171-236 | the visitor loop and its in-place summary compute that decoding |
| TerminalSummaries.FieldDecodes | server/terminal-summary.go:240-294 | a lawful value of a field is accepted and stored as it is |
| ArtifactName.ValidateExact | server/terminal-summary.go:134-152 | validation accepts exactly one name per attempt generation, the writer's, and tells an empty, a foreign and a numberless name apart |
| ArtifactName.CanonicalRoundTrip | server/summary-spool-watcher.go:215-234 | printing a uint64 generation into a name and recognising it gives it back |
| ArtifactName.CanonicalExact | server/summary-spool-watcher.go:215-234 | a recognised name is the writer's name of its number iff it has no superfluous leading zero |
| ArtifactName.PaddedName | server/summary-spool-watcher.go:215-234 | the zero-padded name of any uint64 generation is recognised as that generation and validated for none |
| ArtifactName.LeadingZeroRecognised | server/summary-spool-watcher.go:215-234 | for one, "runback_summary_gen01.json" is recognised as generation 1 and refused for it |
| ArtifactName.FramedLength | server/summary-spool-watcher.go:216-220 | prefix and suffix never overlap, so slicing out the digits stays in range |
| ArtifactName.NameInjective | server/terminal-summary.go:134-152 | distinct generations have distinct names |
| Decimal.ParsePrint | server/summary-spool-watcher.go:229-233 | every uint64 parses back from its printed form |
| Decimal.PrintInjective | server/supervisor.go:89-116 | distinct numbers print differently |
| SpoolWatcher.AcceptedOncePerAttempt | server/summary-spool-watcher.go:141-201 | over any polls and stops on any changing directory, accepted names and attempt generations correspond one-to-one, each the writer's exact name and from this process |
| SpoolWatcher.NoneAfterTheEnd | server/summary-spool-watcher.go:105-156 | after a stop, and after a poll that refused an entry, saw its context end or found the watcher over, nothing is accepted any more and every later poll says so |
| SpoolWatcher.OverExact | server/summary-spool-watcher.go:110-149 | a watcher is over iff one of its operations was a stop or such a poll |
| SpoolWatcher.PollEnds | server/summary-spool-watcher.go:141-156 | a poll answers that it refused an entry iff it leaves the watcher terminal, and that its context ended iff it stops it |
| SpoolWatcher.PollCovers | server/summary-spool-watcher.go:158-201 | a poll that comes through leaves no listed file with a summary name unprocessed unless it was gone when read; a poll refuses only over an unreadable file or one the gate refused as no duplicate |
| SpoolWatcher.VisitExact | server/summary-spool-watcher.go:163-199 | an entry is accepted iff it reaches the gate and the gate takes it, and is recorded with what its artifact decodes to; other names and processed files are left alone |
| SpoolWatcher.TakenIsWellFormed | server/summary-spool-watcher.go:189-199 | whatever state the gate is in, it takes only a well-formed summary under its own name |
| SpoolWatcher.SummarySpoolWatcher.PollOnce | server/summary-spool-watcher.go:141-201 | one poll over the gate object: the loop follows the specified visits, each file meeting the gate as the earlier ones left it, and stops where they stop |
| SpoolWatcher.SummarySpoolWatcher.PollFiles | server/summary-spool-watcher.go:158-201 | the loop over the listing and what it leaves of watcher and gate |
| SpoolWatcher.SummarySpoolWatcher.VisitEntry | server/summary-spool-watcher.go:163-199 | one entry: ignored, skipped, given to the gate, or the end of the poll; the gate sees exactly the files that get that far |
| SpoolWatcher.SummarySpoolWatcher.Refuse | server/summary-spool-watcher.go:203-210 | terminal for good, whether or not the file could be moved |
| SpoolWatcher.SummarySpoolWatcher.Stop | server/summary-spool-watcher.go:110-114 | stopped for good |
| RevisionCompiler.OmissionsExact | core/provider.go:191-268 | the list is the eligibility entry if the facts are ineligible, then in row order one entry for each (hero, column) that is not present, recent and fully supported; each entry names its column and is not observed, with the parser's reason, iff not present, stale iff present and not recent, unsupported iff recent and not supported |
| RevisionCompiler.NothingOmitted | core/provider.go:191-278 | nothing is omitted iff the facts are not marked ineligible and every field of every hero passes; every entry is required |
| RevisionCompiler.ZeroBudgetExact | core/provider.go:97-100 | with no declared freshness budget nothing is omitted iff the facts are eligible and have no heroes |
| RevisionCompiler.ZeroHeroesComplete | core/provider.go:207-209 | zero heroes omit nothing, even with a zero freshness budget |
| RevisionCompiler.Compile | core/provider.go:147-179 | refuses with the first reason that applies, or builds one revision, Complete iff nothing is omitted (with no budget: iff eligible and without heroes), with the exact lead-in |
| RevisionCompiler.CollectOmissions | core/provider.go:191-211 | the loop over heroes builds the specified list |
| RevisionCompiler.HeroOmissions | core/provider.go:216-268 | the loop over nine fields builds one hero's part of the list `OmissionsExact` describes |
| RevisionCompiler.GrantedFidelity | core/provider.go:271-278 | Preview iff some entry is required |
| RevisionCompiler.LeadInStartTick | core/provider.go:292-302 | max(0, takeover - floor(5 / interval)) whenever the quotient fits 32 bits, and never after the takeover |
| RevisionCompiler.LeadInFits | core/provider.go:283-302 | that many ticks is the longest whole lead-in within five seconds |
| RevisionCompiler.RevisionNameExact | core/prepare.go:18-32 | two facts records share a revision ID iff tick and replay key agree |
| RevisionCompiler.SourceKeyExact | core/prepare.go:20-32 | the replay's part of the ID: the first sixteen characters of the hash, else the match number, else a fixed word |
| RevisionCompiler.RevisionNamed | core/prepare.go:18-32 | for one, the ID at concrete values |
| RevisionCompiler.RevisionID | core/prepare.go:20-32 | the method computes that name |
| Lobbies.ClaimExact | core/lobby.go:39-60 | a claim takes the least free slot, keeps slots and accounts inverse within the capacity, and is refused iff full; the final full-lobby return is unreachable |
| Lobbies.ReleaseExact | core/lobby.go:64-78 | a release frees exactly that account's slot, or refuses and changes nothing |
| Lobbies.ReleaseUndoesClaim | core/lobby.go:39-78 | claiming then releasing a new account restores the lobby |
| Lobbies.Pigeonhole | core/lobby.go:50-59 | fewer holders than slots leave a slot free |
| Lobbies.FirstFreeLeast | core/lobby.go:50-57 | the search finds the least free slot |
| Lobbies.LobbyObject.Claim | core/lobby.go:39-60 | the object follows the specification |
| Lobbies.LobbyObject.Release | core/lobby.go:64-78 | the object follows the specification |
| LobbyAccess.SlotsAreEarned | orchestrator/claim.go:17-184 | in every interleaved run every slot holder owns the preparation or consumed an invitation bound to it and to this preparation; no invitation was consumed twice; no lobby exceeds its capacity |
| LobbyAccess.StepInv | orchestrator/claim.go:17-184 | each locked section keeps it and never takes entitlement away |
| LobbyAccess.OneSlotEach | core/lobby.go:39-60 | as many accounts as slots held, never more than the capacity |
| LobbyOutcomes.LetThroughExact | orchestrator/claim.go:17-150 | over every run a claim or release is let through iff the preparation is registered and the caller its owner or slot holder; an authorized claim by anyone but the owner goes on to redeem |
| LobbyOutcomes.RedeemExact | orchestrator/claim.go:155-184 | over every run a redemption lets the call through iff the invitation is for it, unused and unexpired, and then uses up that invitation alone |
| LobbyOutcomes.InviteExact | orchestrator/claim.go:105-135 | over every run an inviting call files an invitation valid for its account and preparation until it expires |
| LobbyOutcomes.ChangeExact | core/lobby.go:39-78 | over every run, after a claim that was let through the account holds a slot iff it held one or one was free; after a release it holds none; nobody else is affected |
| LobbyAccess.Access.Claim | orchestrator/claim.go:17-41 | refused without touching the lobby unless the caller may view the preparation |
| LobbyAccess.Access.Invite | orchestrator/claim.go:105-135 | only the owner invites, for a named account |
| LobbyAccess.Access.ClaimAuthorized | orchestrator/claim.go:141-184 | the owner claims; anyone else consumes a matching, unused, unexpired invitation first, even if the claim then fails |
| LobbyAccess.Access.CanViewLocked | orchestrator/scenario.go:121-131 | owner or slot holder |

## Left out

- HTTP transport, sessions, templates, the API, web and command packages: they add no coordination rule.
- Cryptography: grant tokens, credentials and invitation tokens are fresh opaque values, and the SHA-256 digest is taken to be injective, so an artifact's bytes stand for its digest.
- JSON tokenising: an artifact carries the key/value list its visitor walks, or none if it is not an object.
- Replay parsing, tick-interval proof and facts extraction: arbitrary outcomes.
- Operating-system work (exec, signals, pipes, the filesystem, quarantine renames): arbitrary success or failure; the spool directory is an arbitrary listing per poll.
- The wall clock is a parameter; context deadlines and cancellations are steps that may happen anywhere.
- Integer width of counters (preparation, intent and lease-version numbers): unbounded naturals; generations in artifacts keep their 64-bit and 32-bit bounds.
- Identifiers of preparations and intents: preparations and intents are filed by their sequence number, since printing is injective (`Decimal.PrintInjective`).
- Nil arguments, constructor checks and getters: they would add only easy members.
- The readiness field of an allocated process in `JoinProtocol`: a recorded process is one the allocator handed out as ready, as the theorems on earned intents, admissions and results conclude; `JoinDesk` keeps the check itself.
- Public setters of `LaunchedProcess` called from outside: nothing in the repository calls them; the reaper, the watcher, Stop and readiness waiters are the actors.
- A composition without the lease authority: the model wires the authority in, as the composition root with leases does.
- Allocation.Allocator.RecoverAll: describes one run of the loop alone; its interleavings with other calls are the Recover steps of `Custody`.
- Supervision.Supervisor.Start: launches under no concurrency here; the launch between two locked sections is interleaved in `Supervision` and `Custody`.
- SpoolWatcher.SummarySpoolWatcher.PollOnce: here the gate is used by nobody else during the poll; the theorems about polls let it be in any state at each file, and let it refuse for a race it lost.
- RevisionCompiler.LeadInStartTick: exact reals instead of floating point; the value of a float-to-integer conversion out of range is left open.
- The replay catalogue check of `Prepare` and the default capability table: lookups without a rule of their own.
- Debrief reading, replay source listing and preparation status queries: they only read.
