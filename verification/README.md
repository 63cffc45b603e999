# Verified model of vtafarm-api

A Dafny 4.11 model of the parts of vtafarm-api whose correctness only shows over whole runs or whole
inputs: the VTA claim and pool protocol, the activation hand-off, the capacity simulator, wallet sign-in,
the per-stack maintenance lease, base58btc and did:key, and the sliding-window rate limiter.
`dafny verify dfyconfig.toml` checks the whole project.

## How it is organised

| file | what it models |
|---|---|
| `Rows.dfy`, `Protocol.dfy` | the rows of sessions and reservations; the rule every step obeys, the invariant it keeps, what lasts between any two states |
| `Connection.dfy`, `Store.dfy` | the transactions of `internal/connection` as functions, each proved to obey the rule; the same transactions as methods on a database object, with their writes and rollbacks |
| `Pool.dfy`, `PoolStore.dfy`, `Admission.dfy` | the pool: reserving, confirming, retrying, cleaning up, closing; admission with its retry loops and partial inserts |
| `Outcomes.dfy`, `PoolOutcomes.dfy` | when each of these transactions goes through and what it leaves in the rows, field by field, apart from the functions that compute it |
| `Runs.dfy` | every interleaving of all those steps with the orchestrator's, and the theorems about whole runs |
| `Script.dfy`, `Activation.dfy`, `ActivationGate.dfy` | the activation script as a program that may crash anywhere and whose ACL probe may break, the Deployment it runs in, and the gate that reads claim and Deployment |
| `HandOff.dfy` | all of it together: specs built from claims read earlier, pods started from any past Deployment, polling a gate that reads stale states, on one volume |
| `Capacity.dfy` | worst-fit placement of pods and replicas, what it counts, and that the count is optimal and conserving |
| `WalletSignIn.dfy` | one sign-in request: handlers that decide on stale copies and write by compare-and-set |
| `Lease.dfy` | lock, lease, check, recheck and the registry worker that clears the lease |
| `Base58.dfy`, `Division.dfy` | base conversion, base58btc, did:key |
| `RateLimit.dfy` | the limiter over its shared slices, against a log that never forgets, with requests in any order of their times |

A transaction is one atomic step. It commits new tables or leaves no trace, so the "lapsed" and "expired"
writes that precede an error are written and put back. Code that writes step by step is a method on an
object and is proved against a function of the old state (`ChangeTx`, `ClaimTx`, `UpdateTx`, `RedeemStep`, ...);
the theorems are about those functions, over sequences of them.

What the surrounding system is assumed to do:

- The orchestrator moves a session's status but neither into nor out of `deleting`, and never changes `admin_did` of
  an existing session or any reservation. Its own writes do not ensure this: they name the session by id alone
  (`internal/setup/orchestrator_vtc.go:51-53`, `internal/setup/orchestrator_fullstack.go:111`,
  `internal/setup/orchestrator.go:440-444` and `internal/setup/orchestrator.go:689`), and `admin_did` is written back as it was
  read before. The assumption rests on teardown's Cancel (`internal/setup/orchestrator.go:165-199`) having stopped the session's
  workers; a write already on its way when the session becomes `deleting` is not modelled.
- A teardown has moved its session to `deleting` before it closes it.
- Times are whatever each step read, in any order: a step may act on a reading older than the step before it. Only two
  things are asked. A claim or a confirmation, which reads the clock under the lock of its session, reads no time before
  the ones that row was written with under the same lock; and the readings of one reservation loop do not decrease.
- The limiter asks nothing of its clock; each result says what order of times it needs. A request's time is read before the
  limiter's lock is taken, so in the order of the lock times may go back by as much as a request waits.
- A public reservation meets no other one: both hold the pool's lock (`internal/pool/store.go:42-43`).
- The API server's other writers leave both activation annotations alone and only copy activation containers.
- Connection identifiers and wallet session identifiers are new; SHA-256 digests, activation identities and gate URLs are
  injective; proof checks are booleans.

Random identifiers, clock readings, query results and the order in which other transactions interleave are parameters or
universally quantified; a candidate list, a copy of a row or a list of accounts may be any earlier answer.

## Results worth knowing

- **The maintenance lease does not give mutual exclusion.** `Lease.ExclusionFails` builds two runs, each
  without any crash or takeover. In one, a maintenance operation acquires its lease, the registry is enabled,
  its worker clears the lease, fails and leaves, and only then does the maintenance recheck: the recheck looks at
  the registry state, finds it quiet, and passes without a lease. In the other, a second request to enable the
  registry lost its lease to the worker of the first and sets `enabling` while a maintenance is at work.
  `RecheckIsSafeIff` and `EnableIsSafeIff` give the exact condition for each step, and `CarefulRunIsExclusive`
  proves exclusion over all runs that meet it. Checking that the lease still carries one's own timestamp is
  enough (`OwnLeaseIsCareful`).
- **The limiting resource's figure can exceed the count.** The comment at `internal/capacity/capacity.go:113-120`
  says the two agree. `LimitingFigureOverstates` is an example with 11 against 2, and `LimitingFigureAgreesIff`
  says exactly when they do agree for a one-component mode.
- **A sign-in request can expire before its deadline.** A redeem that read the request while it was pending may
  expire it after it was claimed in time: the update tests the state, not the deadline that applies to it
  (`internal/handler/trust_task_oob.go:392-395`). `ExpiresEarlyIff` says exactly when, `EarlyExpiryHappens` that it happens.
- **The limiter can admit more than `max` in a window.** A request that read its time before another one and got the lock
  after it no longer finds what the other one dropped. `Slices.ThreeInAMinute` has three admissions within 60 where two are
  allowed, after a delay of 1. `DecidesOtherwiseIff` says exactly when a decision differs from that of a log that
  never forgets, `AtMostMaxSkewed` proves the bound for every interval shorter than the window less the delay, and
  `SkewAdmitsMore` that no longer interval has it.
- **import-did can be invoked again on an entry that exists.** The script takes every failure of `vta acl get` for absence
  (`internal/k8s/vta_resources.go:255-257`). `ImportsExistingIff` says that it happens exactly after a probe that
  broke on an entry that was there, `BrokenProbeImportsTwice` gives such a run; `ImportsAtMostOnce` holds while every
  probe answers, and what a completed execution leaves is the same even so, unless import-did itself overwrites the entry.
- **A repeated redeem can hand out a token nobody honours.** Two redeems that read a sign-in request while it was approved may
  each select an account of its DID; the second finds the session of the first and signs a token for that session and its
  own user (`internal/handler/trust_task_oob.go:534-566`), which the session lookup does not match. `TokenIsOwnIff` says exactly
  when a token fits its session, `TokenOfAnotherAccount` gives the run.

## Model

| member | source | states |
|---|---|---|
| `Protocol.RuleKeepsInv` | internal/connection/store.go:155-603 | every step under the rule keeps: one active reservation per session and it is the newest, a deleting session has none, once there is an administrator nobody contends for the VTA, one handover per session, one reservation per public digest, and every row's deadlines, claimant and valid DID |
| `Protocol.RuleIsLater` | internal/connection/store.go:134-141 | a step only moves a reservation along its life, never out of a final status, and never rewrites an administrator, a confirmation or a digest |
| `Protocol.LaterTransitive` | internal/connection/store.go:134-141 | what lasts over one step lasts over any number of them, deletions and later sessions included |
| `Protocol.ActiveIsCurrent` | internal/connection/store.go:111-121 | an active reservation is the only one of its session and the one the newest-first query returns |
| `Protocol.CurrentUnique` | internal/connection/store.go:111-121 | the newest reservation is unique, ties on the creation time included |
| `Protocol.CleanableStays` | internal/handler/setup.go:1039-1049 | deleting, without administrator and never confirmed stays so until the session is gone |
| `Protocol.CleanableWasNeverHandedOver` | internal/handler/setup.go:1039-1049 | a session found fit for destruction had no administrator and no confirmed reservation at any earlier moment |
| `Protocol.HandedOverIsNotCleanable` | internal/handler/setup.go:1039-1049 | one confirmed reservation excludes the session from cleanup from then on |
| `Protocol.HandoverIsWriteOnce` | internal/connection/store.go:392-440 | whoever was provisioned is the administrator from then on, and no other provision_vta reservation of the session ever is |
| `Protocol.FinalIsAbsorbing` | internal/connection/store.go:134-141 | a final reservation keeps status and terms |
| `Protocol.HandoverInTime` | internal/connection/store.go:288-359 | a confirmed reservation was claimed before its QR code expired and confirmed before the claim did, by a valid did:key that is the recorded claimant; so a release always finds its digest right |
| `Transactions.ChangeObeys` | internal/connection/store.go:155-236 | creating, refreshing and cancelling keep the rule; a new reservation is open, newer than all others and the only active one |
| `Transactions.ClaimObeys` | internal/connection/store.go:261-329 | claiming keeps the rule: only from open and before the QR code expires, only for what the session offers at that moment, by a valid DID |
| `Transactions.ConfirmObeys` | internal/connection/store.go:331-359 | confirming keeps the rule: only before the claim's deadline |
| `Transactions.RejectObeys` | internal/connection/store.go:361-390 | rejecting keeps the rule: only before the claim's deadline |
| `Transactions.StartObeys` | internal/connection/store.go:394-440 | starting to provision keeps the rule although it does not look at readiness again |
| `Transactions.StartSettles` | internal/connection/store.go:394-440 | at that moment the session has no administrator and is not deleting, and nobody else was or can still be provisioned |
| `Transactions.ReleaseObeys` | internal/connection/store.go:442-476 | releasing keeps the rule |
| `Transactions.FailObeys` | internal/connection/store.go:478-487 | failing ends only confirmed or provisioning grant_acl reservations, and keeps the rule |
| `Transactions.ReconcileOpenObeys` | internal/connection/store.go:499-507 | lapsing by a stale copy of an open row keeps the rule |
| `Transactions.ReconcileClaimedObeys` | internal/connection/store.go:508-516 | lapsing by a stale copy of a claimed row keeps the rule: never before the deadline of the claim |
| `Transactions.ReconcileIsNeverEarly` | internal/connection/store.go:491-507 | however stale the copy, a reservation lapses only once its own deadline has passed |
| `Transactions.AcceptSettles` | internal/connection/store.go:526-566 | the owner's own administrator meets no contender: the check for an active claim leaves the session without one |
| `Transactions.AcceptObeys` | internal/connection/store.go:526-566 | accepting a DID by hand keeps the rule |
| `Transactions.AcceptResumes` | internal/connection/store.go:542-547 | accepting the same DID again resumes what accepting it began, without resume it is refused, and another DID always is |
| `Transactions.CancelPendingObeys` | internal/connection/store.go:568-575 | lapsing the open reservations of a session keeps the rule |
| `Transactions.StopObeys` | internal/connection/store.go:585-603 | stopping ends every active reservation of the session and keeps the rule |
| `ConnectionStore.Current` | internal/connection/store.go:111-121 | the loop over the rows finds the newest reservation of the session |
| `ConnectionStore.Change` | internal/connection/store.go:155-236 | refuses a newest row other than the expected one, pool inventory outside the pool, a claim in progress and a second code within the cooldown; repeats an open one on create; otherwise lapses it and inserts a blank one under the fresh id; an error changes nothing |
| `ConnectionStore.Claim` | internal/connection/store.go:261-329 | an invalid DID, an unknown handle, an old claim, an expired code, a session that offers nothing and a lost replay row each have their error and leave the tables as they were, although the last two were written first; otherwise exactly this row is claimed, by this DID, until now plus the window |
| `ConnectionStore.Confirm` | internal/connection/store.go:331-359 | confirms exactly a claimed row before its deadline; after it the lapse is written and rolled back |
| `ConnectionStore.Reject` | internal/connection/store.go:361-390 | rejects exactly a claimed row before its deadline and forgets whose it was; after it the lapse is written and rolled back |
| `ConnectionStore.StartProvisioning` | internal/connection/store.go:392-440 | a confirmed row becomes provisioning and, for provision_vta, its DID the administrator and its session one that begins, as `Outcomes.StartTakes` says; a started or released row is returned unchanged; everything else is refused unchanged |
| `ConnectionStore.MarkReleased` | internal/connection/store.go:442-460 | releases exactly a provisioning row, once |
| `ConnectionStore.Reconcile` | internal/connection/store.go:489-524 | the copy read before decides which one of the two conditional lapses and the release is tried, on whatever the row has become since, and follows what it did |
| `ConnectionStore.AcceptManual` | internal/connection/store.go:526-566 | pool inventory, a claim in progress, another administrator and an unready session are refused unchanged; the same administrator resumes; otherwise the DID becomes administrator of a session that begins, as `Outcomes.AcceptTakes` says, and every open reservation of the session lapses |
| `ConnectionStore.Stop` | internal/connection/store.go:585-603 | the session is deleting, its open and claimed reservations lapse, its confirmed and provisioning ones are cancelled, all without a DID; other sessions stay |
| `Outcomes.CancelLapses` | internal/connection/store.go:175-184 | a cancel lapses the newest reservation exactly if it is open and the expected one, and is refused otherwise |
| `Outcomes.ChangeInserts` | internal/connection/store.go:186-236 | a create or refresh inserts exactly if the session offers something to whoever asks and the newest reservation is over or open and older than the cooldown; a refresh lapses the open one, a create finds it again while unexpired; every other row stays |
| `Outcomes.ClaimTakes` | internal/connection/store.go:261-329 | when a claim takes effect, both directions, and every field it writes |
| `Outcomes.ConfirmTakes` | internal/connection/store.go:331-359 | a claimed row is confirmed exactly before its deadline, and nothing else changes |
| `Outcomes.RejectTakes` | internal/connection/store.go:361-390 | a claimed row is rejected exactly before its deadline, and whose it was forgotten |
| `Outcomes.StartTakes` | internal/connection/store.go:238-440 | starting a confirmed reservation goes through for every provision_vta, and for a grant_acl while the VTA runs; the session of the first goes to step_import_admin_did if it is a full stack and to provisioning if not, with this administrator and nothing else changed |
| `Outcomes.StartElse` | internal/connection/store.go:414-419 | what was started or released is returned unchanged, what was not confirmed refused |
| `Outcomes.ReleaseTakes` | internal/connection/store.go:442-456 | a provisioning row is released now, a released one stays, any other is refused |
| `Outcomes.FailTakes` | internal/connection/store.go:478-487 | exactly the confirmed and provisioning grant_acl rows fail |
| `Outcomes.ReconcileLapses` | internal/connection/store.go:489-516 | a row still open or claimed after its deadline lapses by every copy read since it was so, and not before |
| `Outcomes.ReleaseDueIff` | internal/connection/store.go:517-522 | a release is due while the VTA runs; on reads of one moment the comparison of the administrators never decides |
| `Outcomes.AcceptTakes` | internal/connection/store.go:526-566 | a DID is accepted by hand exactly if no claim is in progress and the session awaits an administrator outside the pool; its status is then the one a started reservation gives it |
| `Outcomes.CancelPendingTakes` | internal/connection/store.go:568-575 | exactly the open reservations of the session lapse |
| `Outcomes.StopTakes` | internal/connection/store.go:585-603 | the session is deleting, and where each of its reservations ends |
| `PoolOutcomes.CandidateIff` | internal/pool/store.go:404-418 | the query finds exactly the waiting members of eligible batches that are nobody's and have no claim in progress |
| `PoolOutcomes.PublicBatchesAre` | internal/pool/store.go:469-498 | the batches open to the public are the public ones that are switched on |
| `PoolOutcomes.ReservePublicDecides` | internal/pool/store.go:446-526 | a digest of 32 bytes, what is bound to it, and otherwise a refusal exactly while no batch is open to the public |
| `PoolOutcomes.PoolConfirmTakes` | internal/pool/store.go:563-590 | a claim in time is provisioned and its session begins in one commit, a late one is refused |
| `PoolOutcomes.PoolRejectTakes` | internal/pool/store.go:592-615 | an open reservation of a member always lapses, a claimed one is rejected before its deadline |
| `PoolOutcomes.RetryActivationTakes` | internal/pool/store.go:622-660 | when a failed member is provisioned again, both directions, and that only its status changes |
| `PoolOutcomes.RetryBuildTakes` | internal/pool/store.go:662-694 | when a failed member goes back to the start of its build, both directions, and that only its status changes |
| `PoolOutcomes.RetriesRefuseOthers` | internal/pool/store.go:622-675 | what is no member, or gone, is not retried |
| `PoolOutcomes.BuildErrorTakes` | internal/pool/runner.go:152-158 | every session not being deleted fails |
| `PoolOutcomes.QueueCleanupTakes` | internal/pool/store.go:696-827 | a list goes through exactly if it names somebody, nobody twice, and nothing keeps any of them; then what happens to each session and each row |
| `PoolOutcomes.QueueBatchCleanupTakes` | internal/pool/store.go:717-745 | an empty batch goes with its additions, one with members is stamped exactly if the list of them goes through |
| `PoolOutcomes.QueuedBatchStays` | internal/pool/store.go:717-735 | an unknown batch is an error, and a queued one is not queued again |
| `PoolOutcomes.FinalizeTakes` | internal/pool/store.go:829-835 | exactly a queued batch without members goes, with its additions |
| `PoolOutcomes.SetPublicTakes` | internal/pool/store.go:528-561 | only a public batch not queued for cleanup is switched, and one already on keeps its moment |
| `PoolOutcomes.CloseTakes` | internal/handler/setup.go:960-1008 | unless held back, exactly the session, its reservations and membership, an owner nothing keeps, and a queued batch that waited for it go |
| `PoolTransactions.ReserveIsExclusive` | internal/pool/store.go:396-439 | on any earlier answer of the candidate query, reserving inserts one new open reservation for a session without a live claim and touches no other session, or returns an open one made since; it comes back empty exactly when every candidate is locked, no longer waiting or blocked |
| `PoolTransactions.ChangeReserves` | internal/pool/store.go:422-431 | a waiting session is refused exactly if it is a full stack or its newest reservation is in a claim or too recent; otherwise an open unexpired one is returned and any other replaced |
| `PoolTransactions.ReserveObeys` | internal/pool/store.go:396-439 | the whole loop is one step under the rule |
| `PoolTransactions.BindObeys` | internal/pool/store.go:513-517 | binding a digest nobody has keeps digests unique |
| `PoolTransactions.PublicIsIdempotent` | internal/pool/store.go:449-467 | repeating a public reservation at any later moment returns the same row and changes nothing |
| `PoolTransactions.PoolConfirmHandsOver` | internal/pool/store.go:563-590 | confirming hands the VTA over in the same transaction, and confirming again returns the same row unchanged |
| `PoolTransactions.PoolConfirmIsLater` | internal/pool/store.go:563-590 | the nested confirmation and start, or their rollback, keep the invariant and all that lasts |
| `PoolTransactions.RetryKeepsHandover` | internal/pool/store.go:622-660 | a retried activation keeps every reservation, and the one it retries is the one that is provisioned |
| `PoolTransactions.DoomObeys` | internal/pool/store.go:747-827 | queueing disposable members for cleanup keeps the rule and leaves each fit for destruction |
| `PoolTransactions.CleanupProtects` | internal/pool/store.go:696-713 | a committed cleanup leaves every named session exactly as its destruction will demand, and every other session and reservation alone |
| `PoolTransactions.CleanupRefusesHandedOver` | internal/pool/store.go:763-818 | one administrator, one confirmed reservation or one passkey refuses the whole request |
| `PoolTransactions.CleanupDestroysOnlyUnused` | internal/handler/setup.go:1023-1060 | what the separate reads of a cleanup saw still holds when it closes, whatever ran in between |
| `PoolTransactions.CloseObeys` | internal/handler/setup.go:960-1008 | the closing transaction removes a deleting session with its reservations and nothing else |
| `PoolTransactions.CloseSpares` | internal/handler/setup.go:960-1008 | it removes a user only when nothing keeps them, and a batch only when asked for and empty |
| `PoolTransactions.BatchCleanupProtects` | internal/pool/store.go:717-745 | a batch is protected as a whole or refused as a whole |
| `PoolStore.Reserve` | internal/pool/store.go:394-439 | whatever committed since the query, the reservation is an open one that was not there then, of an unlocked member of the batch that was unclaimed then; it is the new one if nobody reserved meanwhile; the only failure is an empty answer |
| `PoolStore.ReservePublic` | internal/pool/store.go:446-526 | the returned reservation is bound to the digest; unless it was bound before, it is open, was not there when the query ran, and is the new one if nobody reserved meanwhile |
| `PoolStore.Confirm` | internal/pool/store.go:563-590 | a member's claim is confirmed and provisioning in one commit; a confirmed, provisioning or released one is returned unchanged; a start that fails takes the confirmation back |
| `PoolStore.Reject` | internal/pool/store.go:592-615 | cancels an open and rejects a claimed reservation of a member, and refuses every other unchanged |
| `PoolStore.RetryActivation` | internal/pool/store.go:622-660 | a failed member goes back to provisioning if and only if it has an administrator and a confirmed or provisioning reservation of theirs |
| `PoolStore.RetryBuild` | internal/pool/store.go:662-694 | a failed member goes back to building if and only if it has no administrator and no reservation of it was ever confirmed |
| `PoolStore.QueueCleanup` | internal/pool/store.go:696-713 | an empty or repeating list and any session that is not disposable refuse the whole list unchanged; otherwise all are deleting and their expired reservations lapsed |
| `PoolStore.QueueCleanupBulk` | internal/pool/store.go:747-827 | goes through if and only if every session is disposable; expired reservations that lapsed come back when another one is left |
| `PoolStore.SessionsDisposable` | internal/pool/store.go:748-790 | the checks on memberships, sessions, users and passkeys, both directions |
| `PoolStore.QueueBatchCleanup` | internal/pool/store.go:717-745 | an unknown batch is an error, a queued one returns its members again, an empty one goes with its additions, and any other is queued and stamped as a whole or refused as a whole |
| `PoolStore.CloseTeardown` | internal/handler/setup.go:960-1008 | session, reservations and membership go; the user and the batch only if nothing keeps them; it fails exactly when a missing user or an unread membership holds it back, and then nothing changed |
| `PoolStore.CleanupPoolSession` | internal/handler/setup.go:1020-1060 | with anything committed between its reads, its stop and its close: refuses what is not deleting, has an administrator or a confirmed reservation, and otherwise stops the session and closes it by the membership read again |
| `PoolStore.CleanupIsSafe` | internal/handler/setup.go:1023-1060 | so whatever runs in between, what it closes is fit for destruction, and none of its reservations was confirmed when it began or when it ends |
| `PoolStore.RunOne` | internal/pool/runner.go:100-150 | a turn of a worker leaves waiting, running and failed sessions alone, and cleans a deleting one up; any other goes where preparing and building took it, on the tables they find, and to failed, on the tables found then, if they failed; anything may commit in between |
| `Admissions.GenerateUniqueIDs` | internal/pool/store.go:367-384 | exactly that many distinct new values, each of them drawn, within 20 draws per value and 100 more |
| `Admissions.CreateUsers` | internal/pool/store.go:257-283 | over up to five partial inserts, exactly that many new anonymous users with unique names |
| `Admissions.InsertUsers` | internal/pool/store.go:271-275 | rows whose name is taken are left out, and names stay unique |
| `Admissions.CreateSetupSessions` | internal/pool/store.go:285-341 | over up to five partial inserts, exactly one session of the template for each user, under unique names; draws that all give new names always succeed |
| `Admissions.InsertSessions` | internal/pool/store.go:318-334 | each inserted session belongs to one of the pending users, none to two |
| `Admissions.OneEach` | internal/pool/store.go:285-341 | no pending user left means as many sessions as users |
| `Admissions.AdmitBatchRow` | internal/pool/store.go:113-135 | the batch row goes in if and only if there is room for it and its key is new |
| `Admissions.Admit` | internal/pool/store.go:75-111 | an invalid request changes nothing, a used key is replayed or refused, no room is a capacity error with what is left, and otherwise a batch with exactly its users, sessions and memberships is added, or nothing but drawn sequence numbers when names run out, which they do not while every draw gives a new one |
| `Admissions.AddInventory` | internal/pool/store.go:177-244 | the same for additions, with unknown, closing and differently imaged batches refused first, and the batch's total raised by exactly the count |
| `Admissions.PopulatedCounts` | internal/pool/store.go:343-365 | a creation adds exactly the count to users, sessions, memberships and the members not running |
| `Admissions.NewMembersAreUnbuilt` | internal/pool/store.go:298-307 | every new member is pool_creating, nobody's, and of the template's DID, image and kind, so no reservation can find it; every old one is as it was |
| `Admissions.AdmitMakes` | internal/pool/store.go:113-135 | every field of the new batch, open to the public from now on exactly if that is its purpose, and that its members are the unbuilt ones returned |
| `Admissions.AddMakes` | internal/pool/store.go:215-240 | the addition row, the raised total, and that the sessions returned are exactly the new, unbuilt members |
| `Admissions.AdmitDecides` | internal/pool/store.go:113-156 | a new valid request is refused exactly for want of room, with what is left, and otherwise creates or runs out of names |
| `Admissions.AddDecides` | internal/pool/store.go:177-213 | which refusal an addition meets, or that it creates or runs out of names |
| `Admissions.ValidRequestIff` | internal/pool/store.go:75-79 | a count, a key of at most 128 characters and an image, and for an addition a batch |
| `Admissions.RunningFreesAPlace` | internal/pool/store.go:246-252 | a member takes a place until it runs, and then frees exactly one |
| `Admissions.OthersTakeNone` | internal/pool/store.go:246-252 | a session that is no member takes no place |
| `Admissions.AdmitStaysWithinCapacity` | internal/pool/store.go:113-135 | after an admission the members not running are within its capacity |
| `Admissions.AddStaysWithinCapacity` | internal/pool/store.go:207-213 | after an addition the members not running are within its capacity |
| `Admissions.AdmitIsIdempotent` | internal/pool/store.go:62-69 | a used key with its digest returns the batch and changes no table, whatever the capacity is now; with another digest it is refused |
| `Admissions.AdmitTwiceIsOnce` | internal/pool/store.go:75-98 | a request sent twice admits once |
| `Admissions.AddIsIdempotent` | internal/pool/store.go:168-196 | the same for additions, whose batch must match too |
| `Admissions.AdmitSetsFirstCount` | internal/pool/store.go:116-128 | an admitted batch starts with exactly its count and no additions |
| `Admissions.AddKeepsFirstCount` | internal/pool/store.go:215-240 | an addition moves the total and its own row by the same amount |
| `Runs.EmptyTablesStartRuns` | migrations/000039_mobile_connections.up.sql:1-15 | empty tables meet the invariant, the keys and the references, so every history since the tables were created is a run |
| `Runs.HandoverHappens` | internal/connection/store.go:155-440 | from empty tables there is a run that hands a VTA over, to the DID of any key |
| `Runs.NextIsLater` | internal/pool/store.go:396-835 | each of the twenty-nine kinds of step keeps the invariant and all that lasts |
| `Runs.NextKeepsTidy` | internal/pool/store.go:113-365 | each step keeps the keys and references: unique names and idempotency keys, memberships of existing sessions and batches, public signup only where it is the purpose |
| `Runs.RunHasOneActive` | internal/connection/store.go:155-236 | over every run, at most one active reservation per session, and it is the current one |
| `Runs.RunKeepsFinal` | internal/connection/store.go:134-141 | over every run, no reservation leaves a final status |
| `Runs.RunHandsOverOnce` | internal/connection/store.go:392-440 | over every run, any two provisioned provision_vta reservations of a session are one, and its DID is the administrator at both moments |
| `Runs.RunKeepsAdministrator` | internal/connection/store.go:238-244 | over every run, an administrator never changes |
| `Runs.RunHandsOverInTime` | internal/connection/store.go:288-359 | over every run, whoever is provisioned claimed and confirmed in time, with a valid administrator DID |
| `Runs.RunReadsAreEarlier` | internal/connection/store.go:489-524 | over every run, whatever was read of a row earlier is a copy a reconciliation may act on |
| `Runs.RunAnswersAreEarlier` | internal/pool/store.go:404-418 | over every run, whatever the candidate query returned earlier is an answer a reservation may act on |
| `Runs.RunBindsUnderLock` | internal/pool/store.go:449-520 | over every run, between two moments without a public reservation no reservation gets a digest, and none is made with one |
| `Runs.RunMakesNone` | internal/pool/store.go:396-439 | over every run, no reservation of a candidate is made between two moments unless by a pool reservation, which the lock keeps out, or by an owner while the session does not wait in the pool |
| `Runs.RunReservesNew` | internal/pool/store.go:396-439 | so a reservation that acts on the query's answer of an earlier moment, without such a step since, inserts a new row or comes back empty |
| `Runs.ReserveIsUnbound` | internal/pool/store.go:499-517 | so the reservation about to be bound, new or made since the query, has no digest yet |
| `Runs.RetryObeys` | internal/pool/runner.go:152-158 | retrying an activation, retrying a build and recording a build error keep the rule, whatever the session is |
| `Runs.WithoutBatchIsTidy` | internal/pool/store.go:829-835 | a batch that goes once it has no members takes its additions along and leaves no reference behind |
| `Runs.BatchStepKeepsTidy` | internal/pool/store.go:528-561 | queueing, finalising and switching a batch keep its key, every reference, and public signup only where it is the purpose |
| `Runs.RunRetriesOnlyUnused` | internal/pool/store.go:662-694 | over every run, a build is retried only for a member none of whose reservations was ever confirmed |
| `Runs.RunCleansOnlyUnused` | internal/pool/store.go:747-827 | once queued, a session stays fit for destruction until it is gone, and at no moment of the run was one of its reservations confirmed |
| `Runs.RunCleansBatchesOnlyUnused` | internal/pool/store.go:717-745 | the same for every member of a batch queued as a whole |
| `Runs.RunClosesOnlyUnused` | internal/handler/setup.go:1023-1060 | a teardown that saw a deleting session without administrator and no confirmed reservation destroys nothing that was ever handed over |
| `Runs.RunBindsOnce` | internal/pool/store.go:460-467 | over every run, a public digest is bound to one reservation while that exists |
| `Runs.RunKeepsFirstCount` | internal/pool/store.go:235-240 | over every run, requested_count less the additions of a batch is what it was admitted with |
| `Script.VtaActivationCommand` | internal/k8s/vta_resources.go:219-272 | builds the program for every valid specification and refuses every other |
| `Script.ValidSpecIff` | internal/k8s/vta_resources.go:220-232 | sixteen bytes in hexadecimal, a session, an image, an administrator, and an absolute HTTPS URL if there is a gate |
| `Script.ActivatedLeaves` | internal/k8s/vta_resources.go:250-271 | what is then in the ACL, the control server and the receipts, given what was there |
| `Script.CompletedIsActivated` | internal/k8s/vta_resources.go:235-272 | whatever crashes and broken probes it went through, a completed execution left exactly the activation of the volume it started on, with the script's label on an entry that import-did overwrote |
| `Script.CrashSafe` | internal/k8s/vta_resources.go:215-272 | an uninterrupted run completes once released, and every completed execution in which import-did overwrote no entry ends in the same ACL, server and receipts |
| `Script.ImportsExistingIff` | internal/k8s/vta_resources.go:255-257 | import-did is invoked on an entry that exists if and only if the step before was a probe that broke on that entry |
| `Script.BrokenProbeImportsTwice` | internal/k8s/vta_resources.go:252-260 | a run that invokes import-did twice: it succeeds, the process dies before the receipt, the next probe breaks |
| `Script.ImportsAtMostOnce` | internal/k8s/vta_resources.go:252-260 | while every probe answers, over all restarts import-did is invoked at most once, and never for an entry that was there |
| `Script.HonestNeverOverwrites` | internal/k8s/vta_resources.go:255-257 | while every probe answers, import-did never meets an entry to overwrite |
| `Script.ImportsOnlyAbsentEntries` | internal/k8s/vta_resources.go:255-257 | while every probe answers, whenever import-did is next the entry is absent |
| `Script.GateHolds` | internal/k8s/vta_resources.go:239-250 | until the gate releases it, a gated container changes nothing on the volume |
| `Script.StepConsistent` | internal/k8s/vta_resources.go:219-272 | every step and every crash keeps what the script's position says about the volume |
| `Deployments.PrewarmThenCancel` | internal/k8s/vta_resources.go:284-314 | cancelling a prewarm restores the Deployment exactly if and only if it carried none of the marks before |
| `Deployments.PrewarmThenActivate` | internal/k8s/vta_resources.go:101-107 | after a prewarm the same activation always goes through, leaves pod template and replicas alone, and ends without either prewarm mark unless the Deployment was authorized for it before |
| `Deployments.UpdateGoesThroughIff` | internal/k8s/vta_resources.go:121-168 | when an update goes through, both directions, by what is installed and authorized |
| `Deployments.UpdateWrites` | internal/k8s/vta_resources.go:170-199 | authorizing takes both prewarm marks away, prewarming puts both there, the activation runs its own container, and every other annotation, label, pod annotation and container stays |
| `Deployments.DoneStays` | internal/k8s/vta_resources.go:166-168 | what runs this activation already, authorized if it is to be, is not written |
| `Deployments.CancelTakes` | internal/k8s/vta_resources.go:286-314 | exactly a prewarm not authorized is cancelled, and what is then gone and what stays |
| `Deployments.OthersConcat` | internal/k8s/vta_resources.go:299-305 | the filter goes container by container, in order |
| `Deployments.OthersOfOne` | internal/k8s/vta_resources.go:299-305 | and drops exactly the activation's |
| `Deployments.FourRivalsLose` | internal/k8s/vta_resources.go:114-204 | with four rivals or fewer an update fails only where the object found last refuses it, and a cancellation never |
| `Deployments.AuthorizedIsNotListed` | internal/k8s/vta_resources.go:316-330 | over every history whose other writers leave the marks alone, an authorized Deployment is never listed as a prewarm |
| `Deployments.UpdateIsIdempotent` | internal/k8s/vta_resources.go:109-204 | prewarming or activating twice is doing it once |
| `Deployments.CancelIsIdempotent` | internal/k8s/vta_resources.go:286-314 | cancelling twice is cancelling once |
| `Deployments.OtherActivationRefused` | internal/k8s/vta_resources.go:121-125 | once an activation is installed a different one is always refused |
| `Deployments.ChangeKeepsAuthorization` | internal/k8s/vta_resources.go:184-196 | authorization is gained only by activating and lost by nothing |
| `Deployments.AuthorizationLasts` | internal/k8s/vta_resources.go:284-294 | over every history of the Deployment, authorization is never undone and never moves to another activation |
| `Deployments.Deployment.Install` | internal/k8s/vta_resources.go:170-199 | the edits in place amount to one updated object, nil maps included, which `UpdateWrites` says entry by entry; a prewarm of an authorized Deployment fails with the copy half edited |
| `Deployments.Deployment.DropActivation` | internal/k8s/vta_resources.go:299-305 | the filter in place keeps the other init containers in order |
| `Deployments.Cluster.FindActivation` | internal/k8s/vta_resources.go:144-156 | whether there is an activation container, and whether each is acceptable, both directions |
| `Deployments.Cluster.UpdateParkedVtaDeployment` | internal/k8s/vta_resources.go:109-204 | every refusal leaves the stored object alone, the half-edited copy included; a finished one is not written; a write that loses to a rival's is tried again on what the rival wrote, five attempts in all; `UpdateGoesThroughIff` and `UpdateWrites` say when and what it writes |
| `Deployments.AttemptsMean` | internal/k8s/vta_resources.go:109-204 | whatever the rivals wrote, success means the object carries this activation and is the update of what was found last, failure leaves it as somebody else wrote it |
| `Deployments.Cluster.CancelPoolPrewarm` | internal/k8s/vta_resources.go:284-314 | an authorized or differently prewarmed object is left alone; otherwise every mark and activation container goes and it is scaled to zero; a write that loses to a rival's is tried again on what the rival wrote, five attempts in all |
| `Deployments.CancelMeans` | internal/k8s/vta_resources.go:284-314 | whatever the rivals wrote, success means that no such prewarm is left and only what was found last was touched, never an authorized object; failure leaves what a rival wrote |
| `ActivationGate.GateAnswers` | internal/handler/pool_activation_gate.go:32-85 | when the gate answers 404, 410, 202, 503 and 200, exactly |
| `ActivationGate.GoneIsFinal` | internal/handler/pool_activation_gate.go:52-76 | over every run, a claim that ended unreleased is never let go later, whatever the gate reads |
| `ActivationGate.ReleaseMeansConfirmed` | internal/handler/pool_activation_gate.go:43-87 | over all runs and stale reads, a 200 means the newest claim has this identity and was confirmed, its DID is the administrator and the Deployment is authorized for this identity, then and ever after; `HandOff` ties it to the script |
| `ActivationGate.OneActivationPerSession` | internal/handler/pool_activation_gate.go:43-87 | all 200s of a session are for one activation and one claim |
| `ActivationGate.UnconfirmedNeverReleases` | internal/handler/pool_activation_gate.go:52-77 | a claim never confirmed, or cancelled since, gets no 200 whatever the Deployment says |
| `HandOff.ImportsOnlyTheAdministrator` | internal/setup/pool_activation.go:53-66 | over every run of database, Deployment and pods, import-did is only ever invoked with a DID whose claim was confirmed before and that is the session's administrator from then on |
| `HandOff.AclGrowsByTheAdministrator` | internal/k8s/vta_resources.go:252-260 | every entry the pods add to the ACL is that administrator's |
| `HandOff.OneDidIsImported` | internal/setup/pool_prewarm.go:84-101 | all imports of a session, by however many pods, prewarms and activations, are of one DID |
| `HandOff.AuthorizedIsConfirmed` | internal/setup/pool_activation.go:60-66 | a Deployment is authorized only with the identity of a confirmed claim, whose DID is the administrator |
| `HandOff.ReleasedIsConfirmed` | internal/handler/pool_activation_gate.go:43-87 | a spec built from a claim and let through the gate, or built for an activation, carries the DID of the confirmed claim |
| `HandOff.SameClaimant` | internal/connection/store.go:310-329 | the DID a prewarm read from a claimed reservation is the DID it was confirmed with |
| `HandOff.ActKeepsSound` | internal/k8s/vta_resources.go:109-204 | every act keeps: each activation container and each process runs a spec built from a claim, and none is past its gate before that opened |
| `Optimality.DiskFirst` | internal/capacity/capacity.go:222-245 | a volume places exactly when enough distinct disks fit a replica |
| `Optimality.DiskStep` | internal/capacity/capacity.go:222-245 | taking the emptiest disks keeps exactly the room for one volume less |
| `Optimality.DiskProgress` | internal/capacity/capacity.go:222-245 | room for n volumes means the next one places |
| `Optimality.PodStep` | internal/capacity/capacity.go:204-220 | placing one pod keeps exactly the room for one less, whichever fitting node it takes |
| `SessionCount.OneComponentOptimal` | internal/capacity/capacity.go:173-245 | n sessions of a one-component mode place greedily if and only if the nodes hold n pods, each at most what its own free resources allow, and the sum over the disks of min(n, disk / size) is at least replicas times n |
| `SessionCount.OneComponentCount` | internal/capacity/capacity.go:173-184 | the count is the largest such n within the bound, in whatever order worst-fit picks |
| `SessionCount.OneComponentSlots` | internal/capacity/capacity.go:137-146 | with positive costs the count is the minimum of the bound, the slots summed over the nodes and the storage optimum |
| `SessionCount.StorageOptimal` | internal/capacity/capacity.go:247-266 | the storage figure of one volume is the largest n within the bound with a sum over the disks of min(n, disk / size) of at least replicas times n, on nodes not all overdrawn |
| `SessionCount.ReserveAgrees` | internal/capacity/capacity.go:148-184 | reserving n succeeds if and only if n is at most the estimate, and the estimate of what is left is the difference |
| `SessionCount.CountUnique` | internal/capacity/capacity.go:173-184 | the estimate is determined by the headroom |
| `SessionCount.CountIsLowerBound` | internal/capacity/capacity.go:247-266 | for a one-component mode no single-resource figure is below the count |
| `SessionCount.FiguresUnique` | internal/capacity/capacity.go:247-290 | for any mode, all figures of an estimate and the resource it names are determined by headroom and components |
| `SessionCount.LimitingFigureAgreesIff` | internal/capacity/capacity.go:113-120 | the limiting figure equals the count if and only if one resource is scarcer on every node, or storage or the bound stops the count first |
| `SessionCount.LimitingFigureOverstates` | internal/capacity/capacity.go:113-120 | two nodes on which the figure says 11 and 2 sessions fit |
| `Assignment.PlacementLog` | internal/capacity/capacity.go:186-245 | a successful placement is an assignment of every pod to a node and every replica to distinct disks, with nothing overcommitted |
| `Assignment.CountFits` | internal/capacity/capacity.go:171-184 | for any mode, the counted sessions have such an assignment |
| `Assignment.SessionsConserve` | internal/capacity/capacity.go:186-245 | each total falls by exactly n times the cost, storage times the replicas |
| `Assignment.AllConserve` | internal/capacity/capacity.go:186-200 | the same for the components of one session |
| `Capacity.PlanningHeadroom` | internal/capacity/capacity.go:88-99 | the largest budget that respects reservations and use, never negative |
| `Capacity.PlacePodInPlace` | internal/capacity/capacity.go:202-220 | deducts from the slice what worst-fit says |
| `Capacity.PlaceVolumeInPlace` | internal/capacity/capacity.go:222-245 | all replicas on distinct disks, or none |
| `Capacity.PickDisk` | internal/capacity/capacity.go:227-235 | the emptiest fitting disk not yet chosen |
| `Capacity.PlaceSession` | internal/capacity/capacity.go:186-200 | a partial placement is left as the code leaves it |
| `Capacity.Simulate` | internal/capacity/capacity.go:171-184 | the count is the most sessions that place in a row, within the bound; the caller's slices are unchanged |
| `Capacity.ReserveMode` | internal/capacity/capacity.go:148-169 | the headroom after that many sessions, on copies |
| `Capacity.PerResourceCounts` | internal/capacity/capacity.go:247-266 | each figure is the count of the same components, each with its own CPU, memory or storage and nothing else |
| `Capacity.LimitingResource` | internal/capacity/capacity.go:278-290 | the named resource's figure is the smallest, every figure before it in the order CPU, memory, storage is strictly larger, and unknown storage is never named |
| `Capacity.EstimateMode` | internal/capacity/capacity.go:132-146 | the count and the three single-resource figures of those components, fewer than one replica counting as one |
| `WalletSignIn.NextWrites` | internal/handler/trust_task_oob.go:163-645 | each step, on whatever stale copy, writes nothing or one later value of the row, and logs it |
| `WalletSignIn.WroteKeeps` | internal/handler/trust_task_oob.go:163-645 | fields are written once, the log of what happened is what the row says, and the account and the one backing the grant belong to the identified DID |
| `WalletSignIn.OverIsFinal` | internal/handler/trust_task_oob.go:594-645 | declined, cancelled, expired and consumed are left by no step of any run |
| `WalletSignIn.OneSession` | internal/handler/trust_task_oob.go:527-573 | over every run a request creates at most one wallet session |
| `WalletSignIn.SessionIsEarned` | internal/handler/trust_task_oob.go:220-573 | that session came after claim, number match and context match in this order, each before its deadline, the grant a valid approval of what was shown, backed by an account of the identified DID; its own account belongs to that DID too, and it ends by the grant's end and within a day |
| `WalletSignIn.AccountIsOwn` | internal/handler/trust_task_oob.go:280-389 | over every run, the account of a request, from its proof or the starter's choice, belongs to the DID it identified |
| `WalletSignIn.RequestIsPending` | internal/handler/trust_task_oob.go:143-153 | a new request is pending for two minutes, with nothing filled in |
| `WalletSignIn.ClaimDecides` | internal/handler/trust_task_oob.go:163-218 | a request is claimed exactly while it is pending and its two minutes last, and what that writes |
| `WalletSignIn.ProveDecides` | internal/handler/trust_task_oob.go:235-296 | a proof on time leaves a request still claimed declined exactly if it is bad, a wrong number included, and identified if it is good; the account goes in exactly if it is the only one; nothing else has any effect |
| `WalletSignIn.OneWrongNumber` | internal/handler/trust_task_oob.go:251-253 | over every run there is at most one wrong number: the request stays declined and never has a session |
| `WalletSignIn.RespondDecides` | internal/handler/trust_task_oob.go:312-354 | a grant on time leaves a request still identified declined exactly if it is mismatched, ended, unbacked or refusing, and approved until its end otherwise |
| `WalletSignIn.SelectDecides` | internal/handler/trust_task_oob.go:369-389 | exactly an active account of the identified DID goes in |
| `WalletSignIn.ExpireDecides` | internal/handler/trust_task_oob.go:391-395 | a copy past its deadline expires exactly a row still pending, claimed or identified |
| `WalletSignIn.RedeemDecides` | internal/handler/trust_task_oob.go:527-573 | when the session is created, both directions, and that it lasts until the grant's end or for a day |
| `WalletSignIn.TokenIff` | internal/handler/trust_task_oob.go:534-573 | a redeem hands out a token exactly if its copy is redeemable and the request's session is created now or lasts |
| `WalletSignIn.CancelDecides` | internal/handler/trust_task_oob.go:594-615 | starter and approver cancel exactly what is not over |
| `WalletSignIn.ExpiresEarlyIff` | internal/handler/trust_task_oob.go:391-395 | an expiry comes before the row's own deadline exactly when the copy is still pending and the row was claimed meanwhile |
| `WalletSignIn.EarlyExpiryHappens` | internal/handler/trust_task_oob.go:391-395 | a run in which it does |
| `WalletSignIn.WalletLogin.OobRequest` | internal/handler/trust_task_oob.go:143-153 | a new request is pending with nothing filled in |
| `WalletSignIn.WalletLogin.OobClaim` | internal/handler/trust_task_oob.go:163-218 | claims exactly a pending request before it closes; the expiry before the other refusal is rolled back |
| `WalletSignIn.WalletLogin.OobProve` | internal/handler/trust_task_oob.go:220-298 | a copy of another approver, state or decision window writes nothing; a bad proof, a DID without active accounts or a wrong number declines; otherwise the row is identified only if it is still claimed by this approver, with the account if there is one only |
| `WalletSignIn.WalletLogin.OobRespond` | internal/handler/trust_task_oob.go:300-356 | a foreign or late answer writes nothing; a bad, mismatched, ended or refusing grant declines, and so does one that no active account of the DID, or not the request's own, backs; an approval takes only while the row is still identified |
| `WalletSignIn.WalletLogin.SelectAccount` | internal/handler/trust_task_oob.go:369-389 | an account of the identified DID goes in while the request is still open |
| `WalletSignIn.WalletLogin.ExpireIfDue` | internal/handler/trust_task_oob.go:391-395 | the conditional expiry; the copy reads expired whether or not it took |
| `WalletSignIn.WalletLogin.RedeemApproved` | internal/handler/trust_task_oob.go:527-573 | creates the session exactly when the row is still approved and the copy's account is an active one of its identified DID; a consumed request returns the session it created, while valid; the token names the user of the copy's account |
| `WalletSignIn.TokenIsOwnIff` | internal/handler/trust_task_oob.go:534-573 | the token's user is the user of its session if and only if the copy's account has the same user as the session's, and then the session lookup honours it while that account is not revoked; always so for the redeem that creates the session |
| `WalletSignIn.RowShowsSessionIff` | internal/handler/trust_task_oob.go:380-389 | over every run, the account the row shows is that of its session if and only if the redeem that created the session had the account the row showed then |
| `WalletSignIn.TokenOfAnotherAccount` | internal/middleware/auth.go:85-95 | a run in which it is neither: two redeems each select an account of an approved request, and the second one's token names a user its session does not belong to |
| `WalletSignIn.WalletLogin.OobCancel` | internal/handler/trust_task_oob.go:594-615 | starter or approver end any open request; a cancelled one stays, and a request otherwise over is refused |
| `Lease.BeginsIff` | internal/handler/admin_platform_stack_admins.go:99-104 | a maintenance begins unless the registry is enabling, a request only while it is disabled or broken, one worker at a time while it is enabling |
| `Lease.LeaseTakenIff` | internal/handler/admin_platform_stack_admins.go:318-329 | a lease fifteen minutes old or older is taken, a younger one is not |
| `Lease.LeasedDecides` | internal/handler/admin_platform_stack_admins.go:111-120 | what recheck and compare-and-set decide by the registry's state |
| `Lease.LeaseDropped` | internal/handler/setup_trust_registry.go:191-202 | a worker's first statement clears any lease, a last one only the operation's own |
| `Lease.CarefulKeepsInv` | internal/handler/admin_platform_stack_admins.go:99-160 | a careful step keeps: whoever is at work owns the lease, nobody enables the registry while that is a maintenance, one worker at a time, one lock per replica |
| `Lease.CarefulRunIsExclusive` | internal/handler/admin_platform_stack_admins.go:99-160 | over careful runs no two operations are past their guard together, takeovers, crashes and the clearing worker included |
| `Lease.RecheckIsSafeIff` | internal/handler/admin_platform_stack_admins.go:111-120 | a passing recheck can lead to two operations at work if and only if the lease no longer carries its timestamp |
| `Lease.EnableIsSafeIff` | internal/handler/setup_trust_registry.go:121-129 | setting the registry to enabling can lead to two operations at work if and only if a maintenance is at work, which is never so while the request owns the lease |
| `Lease.OwnLeaseIsCareful` | internal/handler/admin_platform_stack_admins.go:318-329 | an operation that owns the lease is careful |
| `Lease.LateReleaseFreesNobody` | internal/handler/admin_platform_stack_admins.go:331-337 | over every run, careful or not, a late release frees nobody else's lease |
| `Lease.RecheckExposed` | internal/handler/admin_platform_stack_admins.go:99-121 | the first weak point is reached by careful steps from an empty state |
| `Lease.EnableExposed` | internal/handler/setup_trust_registry.go:110-137 | the second weak point is reached by careful steps from an empty state |
| `Lease.ExclusionFails` | internal/handler/setup_trust_registry.go:191-202 | from both, two operations end up at work together |
| `Lease.AclJobLockSet.TryLock` | internal/handler/admin_platform_stack_admins.go:72-80 | succeeds if and only if nobody in this process holds the session |
| `Lease.AclJobLockSet.Unlock` | internal/handler/admin_platform_stack_admins.go:82-86 | frees exactly that session |
| `Lease.Stacks.AcquireVtaAclMaintenance` | internal/handler/admin_platform_stack_admins.go:318-329 | takes the lease if and only if it is free or stale |
| `Lease.Stacks.ReleaseVtaAclMaintenance` | internal/handler/admin_platform_stack_admins.go:331-337 | frees the lease only if it carries this timestamp |
| `Lease.Stacks.AcquireStackMaintenance` | internal/handler/admin_platform_stack_admins.go:143-160 | lock and lease, or neither |
| `Lease.Stacks.AcquireSessionMaintenance` | internal/handler/admin_platform_stack_admins.go:99-122 | both checks and both holds, or no hold left |
| `Radix.RecodeInverse` | internal/didresolver/didkey.go:61-111 | changing base and back, leading zeros kept, is the identity |
| `Radix.TwoDigitsPerWideDigit` | internal/didresolver/didkey.go:91-96 | a byte takes at most two base-58 digits |
| `Base58.DecodeEncode` | internal/didresolver/didkey.go:61-111 | decoding an encoding gives the bytes back, for every non-empty byte string |
| `Base58.EncodeDecode` | internal/didresolver/didkey.go:41-51 | encoding a decoding gives the text back, for every non-empty alphabet text, so the canonical check never fails |
| `Base58.EncodingLength` | internal/didresolver/didkey.go:91-96 | an encoding is at most twice as long as its bytes |
| `Base58.EncodeBase58BTC` | internal/didresolver/didkey.go:90-111 | the loop over the big integer computes the encoding |
| `Base58.ReverseText` | internal/didkey/didkey.go:51-53 | the swaps in place reverse the digits |
| `Base58.DecodeBase58BTC` | internal/didresolver/didkey.go:60-88 | the loop computes the decoding, or names the first bad offset, or refuses the empty text |
| `Base58.AlphabetIndexes` | internal/didresolver/didkey.go:65-71 | the table maps exactly the alphabet to its positions |
| `Base58.AlphabetRanges` | internal/didresolver/didkey.go:12-12 | the alphabet is the digits without 0 and the letters without I, O and l |
| `DidKey.FromPublicKey` | internal/didkey/didkey.go:21-32 | the did:key of every 32-byte key, and of no other |
| `DidKey.DecodeEd25519Multikey` | internal/didresolver/didkey.go:41-58 | accepts exactly the multikeys of 32-byte keys and returns the key; never answers that an encoding is not canonical |
| `DidKey.ResolveAuthenticationKey` | internal/didresolver/didkey.go:18-39 | resolves exactly the did:keys to their keys |
| `DidKey.ValidateAdminDID` | internal/connection/store.go:38-48 | accepts, up to surrounding whitespace, exactly what FromPublicKey produces |
| `DidKey.DidSurvivesPadding` | internal/connection/store.go:38-48 | whitespace around a did:key is removed without loss |
| `DidKey.TrimSplits` | internal/connection/store.go:38-39 | trimming takes whitespace off both ends and nothing else |
| `DidKey.DidInjective` | internal/didkey/didkey.go:21-32 | different keys have different DIDs |
| `DidKey.DidStartsZ6Mk` | migrations/000047_keyring_wallet_sign_in.up.sql:10-10 | every such DID meets the prefix the database demands |
| `AdmissionLog.AtMostMax` | internal/middleware/ratelimit.go:18-44 | by a log that never forgets, any interval shorter than the window holds at most max admitted requests of a client |
| `AdmissionLog.WithinIsLive` | internal/middleware/ratelimit.go:31-36 | requests of such an interval are all still counted when its last one is decided |
| `RateLimit.KeepLive` | internal/middleware/ratelimit.go:30-35 | the filter over its own backing array keeps the live times in order |
| `RateLimit.RateLimiter.Allow` | internal/middleware/ratelimit.go:25-66 | whatever the order of the times, the slices decide and are afterwards what the requests so far make them |
| `Slices.Split` | internal/middleware/ratelimit.go:30-62 | of what was admitted, what a slice holds and what was dropped add up, by any count |
| `Slices.RefusalIsDue` | internal/middleware/ratelimit.go:36-43 | a client is refused only when max of its admissions are less than a window old, unconditionally |
| `Slices.DecidesOtherwiseIff` | internal/middleware/ratelimit.go:25-43 | the decision differs from that of a log that never forgets exactly when dropped hits that are live again make up what the slice lacks |
| `Slices.HoldsAllLiveIff` | internal/middleware/ratelimit.go:30-62 | a slice holds every live admission exactly when none that was dropped is live |
| `Slices.InOrderIsExact` | internal/middleware/ratelimit.go:25-43 | a request no earlier than all before it is decided as by the log, sweeps included |
| `Slices.OrderedIsExact` | internal/middleware/ratelimit.go:25-66 | requests in order of time are admitted exactly as by the log |
| `Slices.AtMostMaxSkewed` | internal/middleware/ratelimit.go:18-44 | when times go back by at most d, any interval shorter than the window less d holds at most max admissions of a client |
| `Slices.SkewAdmitsMore` | internal/middleware/ratelimit.go:25-43 | for every window and every d, three admissions of two allowed within the window less d and one more |
| `Slices.ThreeInAMinute` | internal/middleware/ratelimit.go:25-43 | such a run: window 60, requests in the order of the lock at 0, 0, 60 and 59 |
| `Slices.SweepsIff` | internal/middleware/ratelimit.go:46-50 | the slices are swept exactly after an admitted request that leaves more than 4096 clients |
| `RateLimit.RateLimiter.Sweep` | internal/middleware/ratelimit.go:48-62 | the loop over the map filters every slice and forgets exactly the clients without a live hit |
| `Slices.SweepShowsIff` | internal/middleware/ratelimit.go:48-62 | a later decision sees that there was a sweep exactly when a hit it dropped is live then, so never at a later time |

## Left out

- Handlers' parsing, JSON and status texts, and every network call (Cloudflare, GHCR, DID hosting, Vault, Kubernetes): their outcomes are parameters.
- Cryptography: signatures are booleans and digests are injective; a claimant digest is stored as the DID it stands for.
- The orchestrator, the upgrade runner, templates and SQL listing queries; candidate and member lists are taken as what their queries are defined to return.
- Both base58 encoders are one method here: `base58Encode` and `EncodeBase58BTC` have the same body. Lengths are counted in characters, which for the texts accepted is bytes.
- Rows inherited from the flow before reservations (statuses pending and accepted, released without confirmation): the runs start from tables without them.
- `provision_error`, `error_msg`, redeem polls of reservations and the workload_resources rows: nothing decided here reads them.
- The wallet login binding a release inserts (`internal/connection/store.go:457-474`); in `WalletSignIn.dfy` bindings come and are revoked by the environment and never change owner.
- The limit of five open sign-in requests per network, which counts and inserts without a lock, and the polling loop of redeem, which only re-reads.
- Teardown's own clearing of the lease and the recovery that re-enables a registry: `Lease.dfy` takes enableTrustRegistry as the only source of enabling.
- Liveness: a claimed row that expired but was not reconciled blocks its session, and a gated pod may wait for good.
- 64-bit overflow in the capacity simulator: amounts are unbounded integers.
- Any claim that the count of a multi-component mode is at most its single-resource figures: greedy packing of unequal pods is not monotone.
