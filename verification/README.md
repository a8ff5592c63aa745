# AGmind-SAIS in Dafny

A model of the parts of AGmind-SAIS on which its safety rests, and proofs about them:

- the **actuator** (`host/actuatord`): the signed, hash-chained action journal, the containment
  life cycle it drives, restart and recovery;
- the **control-receipt journal** of the observer (`host/observerd/control_receipts.go`): an
  append followed by an anchor commit in a second file, at byte level;
- the **boot-transition chain** and its archive;
- **canonical JSON**: the printer whose output is hashed, and the guards in front of the parser;
- the **delivery queue** of the core runtime.

`dafny verify dfyconfig.toml` checks everything.

## How the model is built

| file | what it holds |
|---|---|
| `ActuatorRecords.dfy` | records, tables, constants, clocks, the state graph |
| `ActuatorReplay.dfy` | restart: rebuilding the tables frame by frame |
| `ActuatorAcceptance.dfy` | which journals a restart accepts, said of the frames alone, and that replay is that |
| `ActuatorAppend.dfy` | the checks, the record and the table update of each append; `Permitted` |
| `ActuatorSafety.dfy` | the invariants of the tables and that every permitted frame keeps them |
| `ActuatorLogs.dfy` | positions and counts in whole logs |
| `ActuatorRuns.dfy` | runs with append failures, crashes, kernel flushes and restarts; the main theorems |
| `ActuatorRecovery.dfy` | the wrapping 64-bit deadline arithmetic of recovery |
| `ActuatorJournal.dfy` | the journal as a class |
| `ActuatorService.dfy` | the service calls as a class; every call extends a ghost run |
| `ActuatorExample.dfy` | one complete containment as a concrete run, and a run into a colliding plan ID |
| `DurableFrames.dfy` | the AGF1 frame, encoded and decoded byte by byte |
| `ControlReceipt*.dfy` | receipt histories, the two inspectors, the storage layer's recovery, the journal class, a refused start |
| `BootChain.dfy` | hops, chains, both validators, the archive class |
| `Canonical*.dfy`, `IntegerTokens.dfy` | printer, UTF-8 bytes, depth scanner, integer tokens |
| `JsonReader.dfy` | a JSON reader from the grammar, which reads back what the printer prints |
| `DeliveryQueue.dfy` | the runtime's queue as a class |
| `Sweeps.dfy` | visiting the keys of a table in sorted order |
| `Wrappers.dfy` | optional values and outcomes |

Identifiers and digests are opaque numbers, times are integer nanoseconds, and hashes,
checksums, payload sizes and serialisation are arbitrary functions, so the results hold for all
of them. The clock, the observer, the target process, the nftables backend, the disk and the
random source are oracles: arbitrary choices, or a parameter where the choice matters later.
Methods return what the oracles answered as ghost results, and their contracts say what follows
from each answer.

A state of the actuator is reached by a *run*: permitted appends whose frame ends up synced,
lost, or written although the append reported failure; flushes of the staged kernel batch; and
restarts, which forget everything but the whole frames on disk. The service class carries such a
run as ghost state, and each of its methods is proved to extend it, so what is proved of all runs
holds after any sequence of calls.

Two findings are stated as exact conditions. The appending side never checks that a drawn plan
ID is new; a PREPARED frame is replayable exactly when it is (`PreparedAgreesIffFresh`, with the
run `CollidingPlanIdIsUnreplayable`). And after a crash the receipt journal opens exactly if no
live spool item lacks its receipt or some bytes lie behind the anchor (`ReceiptJournal.Recover`).
So an item is refused at every start if it was spooled and nothing of its receipt's frame is in
the file, whether the write never began or an interrupted recovery cut a torn frame off
(`UnwrittenItemIsRefused`). A commit that reports failure although the new anchor became durable
does no harm: the next start opens with the receipt (`ReceiptJournal.StoreAndRestart`).

A prepared plan never lacks room: no record of its life is refused because the journal is full.
Only a reservation can be (`RunRefusesNoDecision` and its companions, and the contracts of the
appending methods).

## Model

| member | source | states |
|---|---|---|
| ActuatorRecords.OpenIsInsideWindow | host/actuatord/approval.go:441-463 | the ordered checks of the expiry rule leave the window open exactly for samples on the plan's boot and inside both five-minute windows |
| ActuatorRecords.ExpiryIsExact | host/actuatord/approval.go:441-463 | a sample is inside the window, or late with the first of reboot, wall clock and boot-time clock as its reason, or from a clock that cannot be right |
| ActuatorAcceptance.RecoverPreparedStates | host/actuatord/journal.go:320-528 | the recovery loop accepts exactly the journals, up to the record bound, whose every frame carries its hash, is linked to the one before, continues its plan's life and agrees with the earlier frames it refers to; the tables hold entry by entry what the latest frames recorded |
| ActuatorAcceptance.ReplayAcceptsExactly | host/actuatord/journal.go:320-528 | of any sequence of frames, replay accepts it if and only if each frame fits those before it, by a definition over the frames alone |
| ActuatorAcceptance.ReplayableIsLinked | host/actuatord/journal.go:144-165 | every accepted frame carries its own hash and is linked, the first to the zero digest |
| ActuatorAcceptance.NothingHappensTwice | host/actuatord/journal.go:320-528 | in an accepted journal no plan is prepared, approved, attempted, applied or ended twice |
| ActuatorAcceptance.DecidedOnce | host/actuatord/approval.go:168-235 | in an accepted journal at most one decision is taken on a plan |
| ActuatorAcceptance.ApprovalsAreTimely | host/actuatord/approval.go:168-235 | every accepted approval names an earlier preparation of the same hash and was made by a person, on its boot and inside both five-minute windows |
| ActuatorAcceptance.TransitionRule | host/actuatord/apply_journal.go:372-391 | the transition table allows exactly the steps of the plan's life, from preparation over approval, attempt, application and proof to its end |
| ActuatorAcceptance.SharesCoverTheRest | host/actuatord/apply_journal.go:437-457 | the frames kept for a live plan are one more than its longest remaining life has, one for a dirty plan and none for an ended one |
| ActuatorAcceptance.DecisionRule | host/actuatord/approval.go:168-235 | the recovery check on a decision accepts exactly the right reason, basis, authority and side of the window |
| ActuatorAcceptance.MoveRule | host/actuatord/apply_journal.go:393-435 | the recovery check on a life-cycle record accepts exactly the right predecessor, reason, boot and evidence |
| ActuatorReplay.ReplayPrefix | host/actuatord/journal.go:320-528 | every prefix of a replayable journal is replayable |
| ActuatorReplay.ReplayFrameCounts | host/actuatord/journal.go:520-526 | an accepted frame advances the record count by one and becomes the new chain head |
| ActuatorAppend.ReservationAgrees | host/actuatord/journal.go:144-165 | a permitted reservation is accepted on replay, to the very tables held in memory |
| ActuatorAppend.AttemptAgrees | host/actuatord/apply_journal.go:166-200 | the same for an apply attempt |
| ActuatorAppend.PreparedAgreesIffFresh | host/actuatord/journal.go:777-867 | a PREPARED frame that passed every append check replays, to the tables held in memory, if and only if its plan ID is new |
| ActuatorService.CollisionIsFatal | host/actuatord/journal.go:430-439 | a written PREPARED frame that repeats a plan ID makes the whole journal unreadable |
| ActuatorAppend.DecisionAgrees | host/actuatord/approval.go:168-235 | a permitted decision passes the separately written recovery check and rebuilds the same tables |
| ActuatorAppend.LifecycleAgrees | host/actuatord/apply_journal.go:393-435 | the same for a life-cycle record |
| ActuatorAppend.AppendAgreesWithReplay | host/actuatord/journal.go:320-528 | whatever may be appended, a restart accepts, rebuilding exactly the updated tables |
| ActuatorSafety.BudgetAfterMove | host/actuatord/apply_journal.go:459-471 | moving one plan changes the frame budget by exactly that plan's share |
| ActuatorSafety.ReservedFramesFit | host/actuatord/apply_journal.go:473-489 | with capacity reserved, a transition that owes at least one frame less always fits, for any frame up to the maximum size |
| ActuatorSafety.DecisionNeverRefused | host/actuatord/approval.go:237-329 | no decision on a prepared plan is refused for lack of room if its payload fits a frame |
| ActuatorSafety.AttemptNeverRefused | host/actuatord/apply_journal.go:202-281 | nor is an apply attempt |
| ActuatorSafety.MoveIsPaidFor | host/actuatord/apply_journal.go:372-457 | every allowed transition lowers the frames a plan may still need by at least one |
| ActuatorSafety.LifecycleNeverRefused | host/actuatord/apply_journal.go:513-615 | nor is any life-cycle record |
| ActuatorSafety.PreparedNeverRefused | host/actuatord/journal.go:692-761 | nor is the PREPARED record directly after its reservation |
| ActuatorSafety.AttemptKeepsExclusive | host/actuatord/apply.go:238-250 | after an attempt from an unlocked journal the mutation of that plan, and no other, is unsettled |
| ActuatorSafety.AttemptKeepsContained | host/actuatord/apply.go:289-310 | an attempt keeps at most five active containments on pairwise distinct container generations |
| ActuatorSafety.MoveKeepsContained | host/actuatord/apply_journal.go:372-391 | no decision or life-cycle record activates another containment |
| ActuatorSafety.WindowWithinRecent | host/actuatord/journal.go:666-686 | any half-open window ending after now holds no more reservations than the backward count at now |
| ActuatorSafety.RateStaysBounded | host/actuatord/journal.go:666-686 | an admitted reservation keeps the history sorted and every 60-second window at 3, every hour at 20 |
| ActuatorSafety.PermittedKeepsSafe | host/actuatord/journal.go:692-867 | every permitted frame keeps all table invariants together: soundness, exclusion, containment, capacity, rate |
| ActuatorLogs.GoodLogIsSafe | host/actuatord/journal.go:320-528 | a log of permitted frames replays and its tables have every invariant |
| ActuatorLogs.CountsMatchTables | host/actuatord/journal.go:320-528 | the tables mention a plan's preparation, decision, attempt and application exactly as often as the log does, which is at most once |
| ActuatorLogs.LogIsAuthorised | host/actuatord/approval.go:531-618 | every approval and attempt anywhere in a log was made on the plan's boot, inside both windows, approvals by a non-system authority |
| ActuatorLogs.AppliedIsAuthorised | host/actuatord/apply.go:483-601 | before an APPLIED record the log holds exactly one preparation, one approval and one attempt of that plan and hash, all authorised |
| ActuatorLogs.AppliedFollowsAttempt | host/actuatord/apply_journal.go:393-435 | an APPLIED record may only follow the attempt in the tables: it names that attempt as its predecessor and shows the rule set the attempt announced |
| ActuatorLogs.AttemptIsRemembered | host/actuatord/journal.go:320-528 | the tables keep an attempt as its frame in the log recorded it |
| ActuatorLogs.AppliedNamesItsAttempt | host/actuatord/apply_journal.go:393-435 | an APPLIED record names the attempt frame that precedes it in the log and shows the rule set announced there |
| ActuatorLogs.DirtyIsRemembered | host/actuatord/apply_journal.go:372-391 | a plan once FAILED_DIRTY is so in every later table |
| ActuatorLogs.NoAttemptAfterDirty | host/actuatord/apply.go:386-389 | no apply attempt follows a FAILED_DIRTY record in a log |
| ActuatorRuns.StepKeepsInv | host/actuatord/service.go:94-147 | every step of a run, including lost and half-reported appends, flushes and restarts, keeps the run invariant |
| ActuatorRuns.LogOnlyGrows | host/actuatord/journal.go:548-636 | over a run, restarts included, the log is only ever extended |
| ActuatorRuns.ReplayRebuildsHistory | host/actuatord/journal.go:320-528 | at any point every prefix of the log replays, and the prefix that was on disk at an earlier moment replays to exactly the tables held then; if an append had just been reported as failed, that prefix or the one without its last frame does |
| ActuatorRuns.RestartIsAlwaysPossible | host/actuatord/journal.go:530-636 | in every reachable state the journal can be reopened: it replays, within the record bound, with its reserved capacity |
| ActuatorRuns.RecordCountIsLength | host/actuatord/journal.go:520-526 | the rebuilt record count is the number of frames |
| ActuatorRuns.FlushedAtMostOnce | host/actuatord/apply.go:511-552 | over any crashes and restarts a plan has at most one durable attempt, its batch is flushed at most once, and only once that attempt is on disk |
| ActuatorRuns.RunStaysSafe | host/actuatord/apply.go:238-310 | in every reachable state, in memory even after a failed append, and for every prefix of the log: one unsettled mutation at most, five containments on distinct generations, rate windows, reserved capacity, a non-zero deadline for every verified plan, true open count |
| ActuatorRuns.OpenCountIsExact | host/actuatord/journal.go:688-690 | the open count obtained by subtraction is the number of undecided plans |
| ActuatorRuns.DirtyLatches | host/actuatord/apply.go:386-389 | in every run, no attempt is ever recorded after a FAILED_DIRTY record |
| ActuatorRuns.RunAppliesOnlyAuthorised | host/actuatord/apply.go:369-629 | in every run, every APPLIED record has one timely approval by a person and one timely attempt before it, and names that attempt and its rule set |
| ActuatorRuns.RunRefusesNoDecision | host/actuatord/approval.go:237-329 | in every run, a decision on a prepared plan whose record fits a frame is not refused for lack of room |
| ActuatorRuns.RunRefusesNoAttempt | host/actuatord/apply_journal.go:202-281 | in every run, nor is an apply attempt |
| ActuatorRuns.RunRefusesNoLifecycle | host/actuatord/apply_journal.go:513-615 | in every run, nor is a life-cycle record |
| ActuatorRuns.RunRefusesNoPreparation | host/actuatord/journal.go:777-867 | in every run, nor is the PREPARED record right after its reservation |
| ActuatorExample.AContainmentRun | host/actuatord/apply.go:369-629 | a concrete run reserves, prepares, approves, attempts, flushes, applies and verifies one plan, so the runs spoken about include the intended one |
| ActuatorExample.CollidingPlanIdIsUnreplayable | host/actuatord/journal.go:430-439 | a legal run of three appends after which a second plan with the first one's ID passes every append check, and a restart refuses the journal with its frame |
| ActuatorRecovery.BoundedIsExact | host/actuatord/recovery.go:30-72 | on machine words the wrapping check decides exactly the integer question; behind its guards every intermediate word is the integer it stands for; a plan already applied is never accepted with more time left or smaller counters than on record |
| ActuatorRecovery.AuditDeadlineIsExact | host/actuatord/recovery.go:315-320 | the audit deadline is the exact sum, or absent exactly when no 64-bit word holds it |
| ActuatorRecovery.AcceptedDeadlineIsBounded | host/actuatord/recovery.go:277-340 | an accepted observation is audited less than TTL plus 20 seconds after the attempt |
| ActuatorJournal.ActionJournal.constructor | host/actuatord/journal.go:610-626 | a journal opened on nothing has empty tables |
| ActuatorJournal.ActionJournal.FutureFrameBudget | host/actuatord/apply_journal.go:459-471 | the loop sums the shares of all prepared plans |
| ActuatorJournal.ActionJournal.IsMutationLocked | host/actuatord/apply.go:238-250 | found locked exactly when some plan is under way or dirty |
| ActuatorJournal.ActionJournal.NextApprovedPlan | host/actuatord/apply.go:256-287 | returns the approved, unattempted plan that is least by preparation text and plan ID, and none only if there is none |
| ActuatorJournal.ActionJournal.ActiveContainmentAllowed | host/actuatord/apply.go:289-310 | true exactly when fewer than five other containments are active and none of them has the plan's container and start time |
| ActuatorJournal.ActionJournal.CheckRate | host/actuatord/journal.go:666-686 | admits exactly when the clock is not behind any reservation and both windows have room, and tells the two refusals apart |
| ActuatorJournal.ActionJournal.CountPending | host/actuatord/journal.go:763-775 | counts the intents whose plan is undecided and unexpired |
| ActuatorJournal.ActionJournal.Stream | internal/durablefile/journal.go:558-590 | a failed stream refuses, an oversized payload is refused, otherwise the frame is synced, lost or unsynced and any failure sticks |
| ActuatorJournal.ActionJournal.CheckReservation | host/actuatord/journal.go:692-740 | decides the reservation record or its refusal as the append rules do |
| ActuatorJournal.ActionJournal.CheckPrepared | host/actuatord/journal.go:777-850 | the same for the PREPARED record, which must directly follow its reservation |
| ActuatorJournal.ActionJournal.EnsureTransitionCapacity | host/actuatord/apply_journal.go:473-489 | true exactly when records and bytes still suffice for every plan after the transition |
| ActuatorJournal.ActionJournal.CheckDecision | host/actuatord/approval.go:237-305 | the same for a decision, at most one per plan |
| ActuatorJournal.ActionJournal.CheckAttempt | host/actuatord/apply_journal.go:202-260 | the same for an attempt, at most one per plan and only when approved |
| ActuatorJournal.ActionJournal.CheckLifecycle | host/actuatord/apply_journal.go:513-595 | the same for a life-cycle record |
| ActuatorJournal.ActionJournal.Install | host/actuatord/apply_journal.go:600-614 | the in-memory update after an append is the table update used in the refinement |
| ActuatorJournal.ActionJournal.Write | host/actuatord/approval.go:308-329 | an append is refused untouched or ends in one of the three fates; the tables change only if it was synced |
| ActuatorJournal.ActionJournal.Open | host/actuatord/journal.go:548-636 | opens exactly when the frames are acceptable, within the bounds and with reserved capacity, to tables that hold what the frames recorded, and to their byte count |
| ActuatorService.Service.constructor | host/actuatord/service.go:94-147 | the first start is the initial state of a run |
| ActuatorService.Service.Append | host/actuatord/approval.go:308-329 | writing a record that passed checks and guard extends the run by that step; any other record leaves a failed handle or one more frame |
| ActuatorService.Service.AppendLifecycle | host/actuatord/apply_journal.go:513-615 | on success exactly one outcome moves, its evidence is kept and one frame is added; on failure the tables are untouched; a legal move is refused only by the disk or because this very record is too large for a frame, never for lack of room |
| ActuatorService.Service.ReserveIntent | host/actuatord/journal.go:692-761 | on success the reservation is added to the table and to the end of the rate history, and room is left for the plan and all its records; without equivocation it is refused only by the disk, by its size, or because it, the plan and its six records do not fit, which writes nothing |
| ActuatorService.Service.AppendPrepared | host/actuatord/journal.go:777-867 | on success the plan is entered under its intent and its ID; directly after its reservation it is refused only by the disk, by its size or for a clock running backwards, never for lack of room; with an ID already in use, what is written no restart can read |
| ActuatorService.Service.AppendDecision | host/actuatord/approval.go:237-329 | on success the plan's outcome is set by a record quoting authority, sample and basis; a first decision with its proper reason is refused only by the disk or by its size |
| ActuatorService.Service.AppendApplyAttempt | host/actuatord/apply_journal.go:202-281 | on success the attempt is recorded and the staged batch may be flushed once; for a ready plan on its own boot it is refused only by the disk or by its size |
| ActuatorService.BuildPreparedPlan | host/actuatord/plan.go:222-371 | a plan is built exactly when the target is bound, allowed and on its boot; it binds the intent, derives its ID from the nonce, and both its wall-clock and its boot-time deadline are five minutes after the sample taken |
| ActuatorService.Service.AdmitIntent | host/actuatord/service.go:198-216 | the checks in order: another intent under a reserved ID is an equivocation, then clock, rate and pending limit decide exactly; an admitted intent meets the reservation guard |
| ActuatorService.Service.Prepare | host/actuatord/service.go:163-239 | at most one plan per intent: the same intent again returns it and writes nothing, a different one is refused; a new plan costs exactly a reservation and a plan frame and ends on both clocks five minutes after its sample; blocked calls change nothing; a full journal refuses before anything is written, later only the disk, the size of the refused record or a clock running backwards can; if the drawn plan ID is in use, success is a journal no restart can read |
| ActuatorService.Service.SetManualKillSwitch | host/actuatord/kill_switch.go:131-158 | a setting that cannot be stored turns the switch on |
| ActuatorService.Service.Decide | host/actuatord/approval.go:531-618 | a decision succeeds only for an administrator, on the plan named by ID, hash and nonce, once, and inside the window; there only a missing clock, the disk or the size of its record can stop it; a late one is recorded as expiry for the true reason; the record quotes authority, sample, reason and basis |
| ActuatorService.Service.FindUndecided | host/actuatord/approval.go:531-583 | a plan is found if and only if an administrator names it by exact ID, hash and nonce, it is undecided, and the journal works |
| ActuatorService.Service.DecideAt | host/actuatord/approval.go:584-618 | at one clock sample: as desired exactly inside the window unless the append fails, expired when late with the true reason, an error when the clock cannot be right |
| ActuatorService.CheckBeforeMutation | host/actuatord/apply.go:403-512 | an attempt is cleared exactly when every check passes and the window is open before and after them; every abort carries a state and reason the journal accepts, rejected over a foreign rule and stale otherwise |
| ActuatorService.CheckFacts | host/actuatord/apply.go:422-480 | the first failing check decides: give up, abort as stale, or reject the intent |
| ActuatorService.CheckWindow | host/actuatord/apply.go:403-421 | the window check stops exactly outside the window, and aborts as stale or gives up on the clock |
| ActuatorService.Service.AppendTerminal | host/actuatord/apply.go:325-343 | a plan that may end is ended alone, as asked and at the given sample, unless no sample can be taken or the journal refuses, which only the disk or the record's size makes it do; then everything is left as it was |
| ActuatorService.Service.EndAbsent | host/actuatord/apply.go:521-573 | a batch that was not sent ends the plan as REJECTED for proven absence, unless no sample can be taken or the journal refuses; then everything is left as it was |
| ActuatorService.Service.FailDirtyAfterAttempt | host/actuatord/apply.go:345-367 | an unknown result makes the plan dirty, unless no sample can be taken or the journal refuses; then everything is left as it was |
| ActuatorService.Service.AfterFlush | host/actuatord/apply.go:551-629 | what the flush reported decides how the attempt ends: proven unsent is rejected, doubtful is dirty, exact is applied and then verified with the observation and its deadline, in that order and in two frames |
| ActuatorService.Service.ApplyAttempted | host/actuatord/apply.go:521-629 | the batch is flushed exactly if released; never sent ends REJECTED, a result that cannot be told ends dirty, each unless the clock is missing or the record refused; an exact one is verified in two frames with its observation and deadline if and only if the clock was there, the deadline not yet reached and no record refused, else left for recovery; only the disk, a record's size or a reboot makes the journal refuse |
| ActuatorService.Service.RecordProof | host/actuatord/apply.go:587-628 | an exact readback becomes VERIFIED with its observation and the deadline of sample plus remaining time plus five seconds, if and only if the samples are there, the second before the deadline, and no record is refused; a deadline that no word holds makes the plan dirty; otherwise it stays APPROVED or APPLIED, as far as the records got |
| ActuatorService.Service.RecordExact | host/actuatord/apply.go:601-628 | two records in order, the observation and then its deadline; a late or missing second sample stops after the first; nothing else moves |
| ActuatorService.Service.EndUnsent | host/actuatord/apply.go:521-573 | an attempt whose batch was never sent ends REJECTED at the given sample with its reason, or stays under way without sample or record |
| ActuatorService.Service.Attempt | host/actuatord/apply.go:511-551 | the attempt is the next frame on disk before the batch can be flushed |
| ActuatorService.Service.ApplyOne | host/actuatord/apply.go:394-629 | for the chosen plan: an attempt frame, a flush exactly if released, and the end the facts tell; or no attempt and an abort in one frame with the state of its error, or nothing; above the containment limit there is no attempt |
| ActuatorService.Service.Abort | host/actuatord/apply.go:394-512 | a ready plan that fails a check ends as stale or rejected, whichever fits the reported error, with nothing flushed, or is left untouched when it cannot be recorded |
| ActuatorService.Service.ApplyNext | host/actuatord/apply.go:369-629 | applies the first ready plan in apply order and touches no other; when blocked or idle nothing changes; the batch is flushed at most once, only after the attempt is the next frame on disk and exactly if released; success records the observation and the audit deadline of its sample; a failure after the attempt leaves the plan rejected or mutations locked; the journal refuses its records only for the disk or for their size |
| ActuatorService.ObserveContainerGeneration | host/actuatord/expiry.go:71-121 | a generation is reported gone exactly with host integrity, no container of the same start, a continued observation and a valid sample on the plan's boot |
| ActuatorService.Service.SettleAbsent | host/actuatord/recovery.go:110-152 | an absent mutation ends REJECTED if unconfirmed and EXPIRED if applied, for the given reason and sample, and the move is never illegal |
| ActuatorService.Service.MarkDirty | host/actuatord/recovery.go:14-28 | an uncertain mutation of an active plan can always be recorded as dirty |
| ActuatorService.Service.AppendApplied | host/actuatord/recovery.go:296-309 | only an observation that fits plan and announced rule set is recorded as applied |
| ActuatorService.Service.AppendVerified | host/actuatord/recovery.go:321-339 | a proof is recorded with its audit deadline, before that deadline and on the plan's boot; it is withheld exactly otherwise |
| ActuatorService.Service.SettleIfGone | host/actuatord/recovery.go:159-181 | a failed reopening settles as absent exactly on proof that the generation is gone |
| ActuatorService.Service.ReadBack | host/actuatord/recovery.go:182-276 | the whole table: unreadable, foreign or on another boot is dirty, an empty readback is absent, an unextended element is verified and an extended one dirty; a target that moved settles only if gone |
| ActuatorService.Service.ConfirmApplied | host/actuatord/recovery.go:277-340 | without error the plan is VERIFIED if and only if the element was not extended, with the exact deadline of the readback, below attempt time plus TTL plus 20 seconds, and FAILED_DIRTY otherwise |
| ActuatorService.Service.RecordConfirmed | host/actuatord/recovery.go:294-340 | APPLIED unless on record already, then VERIFIED with the deadline of the readback plus its remaining time plus five seconds |
| ActuatorService.Service.ReconcileOne | host/actuatord/recovery.go:101-340 | one interrupted mutation is settled exactly as clock, generation and readback say, or left because they say nothing or the record could not be written; no other plan changes |
| ActuatorService.SweepIsShort | host/actuatord/recovery.go:91-99 | the list of interrupted mutations has at most one entry |
| ActuatorService.Service.ReconcileIncomplete | host/actuatord/recovery.go:74-342 | without error nothing is left under way, each plan that was is settled as the findings say, and mutations are locked exactly when some plan is dirty; plans not under way are untouched; a record is refused only by the disk or by its size |
| ActuatorService.Service.ExpireOne | host/actuatord/approval.go:502-525 | a late plan is recorded as expired by the system for the true reason, one inside its window stays, a clock that cannot be right is an error; the record is refused only by the disk or by its size |
| ActuatorService.Service.ExpirePlans | host/actuatord/approval.go:492-526 | without error every plan is decided or inside its window |
| ActuatorService.Service.AuditOne | host/actuatord/expiry.go:136-291 | a verified plan is not yet due, or is settled as boot, generation and readback say: EXPIRED when gone, dirty when unclear; only when nothing can be told is the uncertainty raised, and the plan stays verified |
| ActuatorService.Service.AuditReadBack | host/actuatord/expiry.go:209-291 | an element that is gone expires the plan, anything unclear makes it dirty, a target that moved settles only if gone |
| ActuatorService.Service.AuditDue | host/actuatord/expiry.go:123-295 | only a sweep through all verified plans clears the uncertainty, and every early exit leaves a verified plan behind |
| ActuatorService.Service.ExpireDue | host/actuatord/approval.go:465-529 | without error no audit is uncertain, every plan is decided or in its window and every verified plan is not yet due; an uncertain audit always has a verified plan behind it, so the early exit cannot orphan it |
| ActuatorService.Service.CountUndecided | host/actuatord/journal.go:688-690 | the service's open count is the true one |
| ActuatorService.Service.OpenJournal | host/actuatord/journal.go:548-636 | after a crash at any moment the journal opens, to exactly the tables its frames rebuild to |
| ActuatorService.Service.OpenService | host/actuatord/service.go:94-147 | a daemon that comes up has nothing under way, is locked only by dirty plans, has no uncertain audit, has swept all plans at one sample and has flushed nothing |
| Sweeps.SortedIds | host/actuatord/recovery.go:91-99 | the keys in increasing order, each once |
| DurableFrames.PutUint32RoundTrip | internal/durablefile/frame.go:68-72 | big-endian lengths round-trip both ways |
| DurableFrames.EncodeFrame | internal/durablefile/frame.go:52-91 | a frame is 76 bytes longer than its payload |
| DurableFrames.DecodeEncoded | internal/durablefile/frame.go:94-150 | decoding undoes encoding |
| DurableFrames.DecodedIsEncoded | internal/durablefile/frame.go:94-150 | bytes that decode are exactly the encoding of what they decode to |
| DurableFrames.PrefixIsTorn | internal/durablefile/frame.go:107-122 | every proper prefix of a frame decodes as torn, never as damaged or whole |
| ControlReceipts.HistoryIsFunctional | host/observerd/control_receipts.go:172-196 | in a history a key is bound to one receipt for ever, events are not reused and sequences strictly increase |
| ControlReceipts.ReceiptsAreBound | host/observerd/control_receipts.go:91-121 | every receipt in a history is filed under the key and hash of its own item's request |
| ControlReceipts.KeysAreOperations | host/observerd/core_control_contracts.go:84-150 | two requests share a key exactly if they are the same kind of operation on the same identifier |
| ControlReceiptInspection.KeyIsBoundForEver | host/observerd/control_receipts.go:172-196 | however a history grows, the entry of a key in the lookup table never changes |
| ControlReceipts.CompletionsAreAuthorised | host/observerd/control_receipts.go:123-170 | every repair completion is preceded by its authorization, equal in segment, bytes, frame hash and chain head |
| ControlReceipts.GoodAnchor | host/observerd/control_receipts.go:43-53 | the anchor of a history is valid |
| ControlReceiptInspection.CausalAgrees | host/observerd/control_receipts.go:123-170 | looking the authorization up in the table is the same as finding it in the history |
| ControlReceiptInspection.CausalSelf | host/observerd/control_receipts.go:345-352 | it makes no difference that the replaying side has already entered the receipt itself |
| ControlReceiptInspection.ValidateCandidate | host/observerd/control_receipts.go:172-196 | the appending side's loop over the table accepts exactly the receipts that may follow the history |
| ControlReceiptInspection.CheckReplayed | host/observerd/control_receipts.go:317-356 | the replaying side's running tables accept exactly the canonical text of such receipts |
| ControlReceiptParsing.CanonicalReplays | host/observerd/control_receipts.go:172-196 | so appending and replaying accept the same receipts |
| ControlReceiptParsing.AdvanceAgrees | host/observerd/control_receipts.go:55-82 | advancing the anchor by a frame gives the anchor of the longer history, or fails exactly at the quota |
| ControlReceiptParsing.ParseSound | host/observerd/control_receipts.go:264-389 | bytes that parse are a good history's file followed by nothing or an unfinished frame |
| ControlReceiptParsing.ParseComplete | host/observerd/control_receipts.go:264-389 | parsing a history's file recovers that history |
| ControlReceiptParsing.CrashPointsAreClassified | host/observerd/control_receipts.go:264-389 | a file cut after any number of bytes of the next frame is exact, an incomplete tail at the committed anchor, or a complete tail with that receipt; after the commit it is exact |
| ControlReceiptParsing.InspectionIsSound | host/observerd/control_receipts.go:264-389 | conversely a result other than corruption tells which history is on disk and which part of it is anchored |
| ControlReceiptInspectors.InspectBytes | host/observerd/control_receipts.go:264-389 | the byte-level loop computes the inspection result of the file |
| ControlReceiptInspectors.InspectRecords | host/observerd/control_receipts.go:421-509 | the record-level loop computes the same result from the file's recovered frames |
| ControlReceiptRecovery.RecoverLocked | internal/durablefile/journal.go:223-323 | the storage layer's loop splits a file into whole frames and a torn tail, or finds it broken |
| ControlReceiptRecovery.RecoveredIsChained | internal/durablefile/journal.go:223-323 | of any file: the records recovered are chained, spell the file out up to the verified length, and behind it lies nothing or a torn tail |
| ControlReceiptRecovery.InspectRecovered | host/observerd/control_receipts.go:421-509 | on any file, inspecting the recovered records gives what inspecting their bytes gives |
| ControlReceiptRecovery.LayersAgreeOnTails | internal/durablefile/journal.go:239-273 | the two layers judge a tail differently in exactly two cases: four to seven bytes that are no magic, and a cut header with an oversized length |
| ControlReceiptRecovery.CrashRecovers | internal/durablefile/journal.go:223-323 | after a crash the storage layer recovers exactly the committed receipts, or one more if its frame was finished |
| ControlReceiptJournal.DiskInspects | host/observerd/control_receipts.go:391-419 | what the inspector reports in each state a crash can leave |
| ControlReceiptJournal.ReceiptJournal.constructor | host/observerd/control_receipts.go:1095-1132 | a new journal holds no receipt |
| ControlReceiptJournal.ReceiptJournal.WriteFrame | internal/durablefile/journal.go:558-590 | any piece of the frame may reach the disk; only a complete and synced one is reported |
| ControlReceiptJournal.ReceiptJournal.Commit | host/observerd/envelope.go:1237-1257 | the anchor moves by exactly the pending receipt or not at all; a commit reported as failed may be either |
| ControlReceiptJournal.ReceiptJournal.Preview | host/observerd/control_receipts.go:1177-1202 | frame and anchor of the next receipt, refused exactly when payload or quota are exceeded |
| ControlReceiptJournal.ReceiptJournal.Store | host/observerd/control_receipts.go:1244-1316 | repeating a request returns the first item and writes nothing, another request under the key conflicts; a receipt is refused exactly when it may not follow, is too large or over the quota; one reported stored is in the history, a failed write leaves the history alone, a failed commit leaves it alone or adds exactly this receipt, and both stop the journal |
| ControlReceiptJournal.ReceiptJournal.OpenLocked | host/observerd/control_receipts.go:1095-1132 | opening through the storage layer finds the committed history, or one finished receipt more |
| ControlReceiptJournal.ReceiptJournal.AcceptTail | host/observerd/control_receipts.go:640-684 | a torn tail is cut off only if it is a proper piece of exactly the frame about to be written, for a receipt that may follow and that the spool backs |
| ControlReceiptJournal.ReceiptJournal.Reconcile | host/observerd/control_receipts.go:603-733 | success extends the anchored history by exactly the proved receipt; it succeeds for the receipt whose frame was begun unless disk or state store fail; then the frame is begun again, or the receipt is anchored after all; any other refusal changes nothing |
| ControlReceiptJournal.MissingAfterCrash | host/observerd/control_receipts.go:755-789 | before the pending receipt is anchored it alone is missing, afterwards none is |
| ControlReceiptJournal.HistoryIsBacked | host/observerd/control_receipts.go:853-887 | a history the spool still holds passes the recovered-set check |
| ControlReceiptJournal.ChecksMeanVouched | host/observerd/control_receipts.go:755-887 | the two checks on recovered receipts pass if and only if the spool vouches for the history, receipt by receipt |
| ControlReceiptJournal.ReceiptJournal.Recover | host/observerd/control_receipts.go:905-1048 | recovery reconciles at most one receipt, which bounds its recursion, and none that would exceed the limit; after a crash, short of new failures, it opens if and only if no live item lacks its receipt or bytes lie behind the anchor; after a new failure the same condition decides the next start; after a crash or not, an open journal holds the receipt of every live item, and the spool was filled that far, trusts every receipt and still holds each unacknowledged one; without bytes behind the anchor these conditions decide exactly |
| ControlReceiptJournal.ReceiptJournal.StoreAndRestart | host/observerd/control_receipts.go:905-1048 | storing and then restarting: if the journal opens it holds the receipt, and it opens after a stored receipt and after a commit reported as failed, durable or not |
| ControlReceiptJournal.ReceiptJournal.AnchorBegun | host/observerd/control_receipts.go:950-1026 | after a crash with bytes behind the anchor, exactly the begun receipt is anchored, or the files are again as after a crash |
| ControlReceiptJournal.OpensUnlessUnwritten | host/observerd/control_receipts.go:1027-1030 | the condition for opening fails exactly when an item was spooled and nothing of its frame is in the file |
| ControlReceiptJournal.AfterReconciling | host/observerd/control_receipts.go:603-733 | reconciling the begun receipt, completed or interrupted anywhere, leaves files as after a crash |
| ControlReceiptExample.UnwrittenItemIsRefused | host/observerd/control_receipts.go:1027-1030 | a concrete lawful codec, a history of one receipt and a spooled second item: refused with nothing of its frame in the file, opened with one byte of it |
| ControlReceiptExample.RefusedAtEveryStart | host/observerd/control_receipts.go:1027-1030 | on that journal, once the first receipt is stored, one start after the other is refused |
| BootChain.HopValidatorsAgree | internal/contracts/validation.go:620-678 | the core's and the observer's hop validators accept the same hops, wrapping and guards included |
| BootChain.SequenceExtends | core/agmind_immune/canonicaljson.py:286-308 | a chain goes on by one hop exactly if the hop clashes with no event or boot so far and links to the last |
| BootChain.CoreValidate | core/agmind_immune/canonicaljson.py:262-311 | the core's loop accepts exactly the valid chains |
| BootChain.ObserverValidate | internal/contracts/validation.go:680-727 | so does the observer's, which derives end sequences differently |
| BootChain.SubChainIsValid | host/observerd/pcc_boundary_archive.go:859-876 | every contiguous part of a valid chain is a valid chain |
| BootChain.BootsNeverRepeat | core/agmind_immune/canonicaljson.py:296-298 | no boot occurs twice on the path of a chain |
| BootChain.ChainsCompose | host/observerd/pcc_boundary_archive.go:833-878 | the hops from a to b and from b to c, joined, are the hops from a to c |
| BootChain.LaterHopsChangeNothing | host/observerd/pcc_boundary_archive.go:833-878 | hops recorded later do not change an answer |
| BootChain.Archive.constructor | host/observerd/pcc_boundary_archive.go:463-470 | an empty archive is valid |
| BootChain.Archive.RecordCommittedBoundary | host/observerd/pcc_boundary_archive.go:719-831 | the last hop again changes nothing; a hop that breaks the chain or a storage failure stops the archive and keeps its hops |
| BootChain.Archive.Chain | host/observerd/pcc_boundary_archive.go:833-878 | returns the hops between two boots exactly when they exist, and the final re-validation never fails |
| CanonicalText.QuoteLoop | core/agmind_immune/canonicaljson.py:40-65 | the loop escapes every character and refuses surrogates |
| JsonReader.ReadQuoted | core/agmind_immune/canonicaljson.py:40-65 | read by the grammar of section 7 of RFC 8259, a quoted string is the text it was made from |
| JsonReader.EscapeForm | core/agmind_immune/canonicaljson.py:48-64 | exactly control characters, quote and backslash are escaped, in the short form where there is one, else with four lower-case hexadecimal digits |
| CanonicalText.EscapeIsPrefixFree | core/agmind_immune/canonicaljson.py:48-64 | no escape is the beginning of another |
| CanonicalText.QuoteIsUnique | core/agmind_immune/canonicaljson.py:40-65 | a quoted string determines its text and where it ends |
| CanonicalText.DecimalIsUnique | core/agmind_immune/canonicaljson.py:77-80 | a printed integer determines its value |
| CanonicalText.SortedKeys | core/agmind_immune/canonicaljson.py:97-104 | keys are printed each once, in ascending code-point order |
| CanonicalJson.EncodeIsUnique | core/agmind_immune/canonicaljson.py:68-105 | a printed value can be read back wherever in a document it stands |
| CanonicalJson.EncodeIsInjective | core/agmind_immune/canonicaljson.py:68-105 | two documents with the same canonical text are the same document |
| JsonReader.CanonicalTextDenotes | core/agmind_immune/canonicaljson.py:68-105 | read by the grammar of RFC 8259, the canonical text of a document is that document |
| JsonReader.ReadEncoded | core/agmind_immune/canonicaljson.py:68-105 | wherever in a document a printed value stands, it reads as the value that was printed |
| CanonicalBytes.Utf8IsInjective | core/agmind_immune/canonicaljson.py:108-109 | texts without surrogates that have the same UTF-8 bytes are the same |
| CanonicalBytes.BytesDetermineTheDocument | core/agmind_immune/canonicaljson.py:108-109 | printed text is never refused by UTF-8, and two documents with the same canonical bytes are the same document |
| CanonicalBytes.BytesDenoteTheDocument | core/agmind_immune/canonicaljson.py:108-109 | the canonical bytes, read by section 3 of RFC 3629 and then as JSON, are the document |
| CanonicalGuards.EncodeIsDefined | core/agmind_immune/canonicaljson.py:68-105 | the printer accepts exactly the values with in-range integers, no surrogates, nothing unsupported and nesting up to 64 |
| CanonicalGuards.ValidateDepth | core/agmind_immune/contracts.py:102-122 | the scanning loop accepts exactly the texts whose scanned depth never exceeds 64 |
| CanonicalGuards.EncodeRun | core/agmind_immune/contracts.py:102-122 | the scanner passes over a printed value having seen exactly its nesting, whatever its strings contain |
| CanonicalGuards.ScannerIsExact | core/agmind_immune/contracts.py:102-122 | on printed text the scanned depth is the nesting, so everything printed passes |
| IntegerTokens.ComparisonIsNumeric | core/agmind_immune/contracts.py:85-88 | longer, or equally long and later in text order, is exactly the larger number |
| IntegerTokens.ParseIntegerIsExact | core/agmind_immune/contracts.py:79-90 | apart from the spelling -0, a token is accepted exactly when its value lies in the canonical range |
| IntegerTokens.ParseIntegerRoundTrip | core/agmind_immune/contracts.py:79-90 | parsing undoes printing |
| DeliveryQueue.ExactlyOnePlace | core/agmind_immune/runtime.py:217-225 | a decision that needs approval is prepared, quarantined or queued, and only one of these |
| DeliveryQueue.CoreRuntime.constructor | core/agmind_immune/runtime.py:58-113 | a new runtime holds nothing |
| DeliveryQueue.CoreRuntime.TakeCommit | core/agmind_immune/runtime.py:178-225 | a changed decision is an error, a new one that needs approval is queued once |
| DeliveryQueue.CoreRuntime.RefreshCommits | core/agmind_immune/runtime.py:175-225 | after a refresh over all durable decisions each one is known and each that needs approval has its place; only a changed decision is an error |
| DeliveryQueue.CoreRuntime.Deliver | core/agmind_immune/runtime.py:239-259 | what the actuator answers decides: prepared and counted, quarantined, to be retried, or an error; without an answer nothing changes |
| DeliveryQueue.CoreRuntime.RetryOne | core/agmind_immune/runtime.py:284-289 | the front entry is attempted and goes to the back if it must be retried |
| DeliveryQueue.CoreRuntime.RetryDurableDeliveries | core/agmind_immune/runtime.py:282-289 | exactly the first four entries are attempted, once each, and all others move up by four |
| DeliveryQueue.CoreRuntime.ProcessCandidate | core/agmind_immune/runtime.py:361-376 | a candidate that is not denied is recorded, and if it needs approval it is prepared, quarantined or queued; a known or denied one, or an error before the decision is recorded, changes nothing; nothing is forgotten |
| DeliveryQueue.CoreRuntime.Tick | core/agmind_immune/runtime.py:396-420 | one round takes every durable decision in, keeps queue, set and counters consistent, moves the queue up by one batch, and decides or turns away every candidate |
| DeliveryQueue.CoreRuntime.RunTicks | core/agmind_immune/runtime.py:422-436 | an entry at position p is attempted within p / 4 + 1 rounds, whatever is queued behind it |

## Left out

- ActuatorService.Service.Prepare: after a colliding plan ID was drawn, what further calls do to that handle is not followed.
- ControlReceiptInspectors.InspectBytes: assumes of the opaque codec that strict decoding undoes canonical encoding and that no frame hash is all zeros; so do the other members on receipts that mention Lawful.
- DeliveryQueue.CoreRuntime.ProcessCandidate: the controller's decision is an arbitrary one for the candidate it was asked about, as its admission check guarantees.
- ControlReceiptJournal.ReceiptJournal.Recover: the condition is stated for spools in which at most one live item lacks its receipt, which is what publishing one control item at a time leaves.
- DeliveryQueue.CoreRuntime.RunTicks: counts rounds that complete; a round that ends in an exception promises only a consistent state.
- ActuatorJournal.ActionJournal.NextApprovedPlan: preparation times are ranked by their text, as in the code, so nothing is claimed about chronological order.
- Signatures, SHA-256, CRC-32C and hexadecimal text: arbitrary functions here.
- RFC 3339 text, regular-expression field checks and JSON schemas of records: times are integers and identifiers opaque.
- Torn tails of the action journal at byte level: a lost append stands for every tail that the storage layer cuts off; the byte-level argument is carried out for the receipt journal.
- Locking and context cancellation: calls are atomic, and a cancellation is an arbitrary early return where a loop checks for it.
- Loading the kill switch from its file at start-up and the status report of its reasons.
- nftables, process and Docker inspection: oracles that return an arbitrary validated observation.
- Target revalidation and hard limits of a plan: the outcome of those checks is an arbitrary choice.
- Spool, keyring and state store of the observer: the spool is a table of receipts its live items prove, the state store a single anchor.
- Acknowledgement, retention and genesis rules around the boundary archive, and the conversion of archive records into hops.
- The parser of JSON documents: only the printer and the guards in front of the parser are modelled.
- The hunter, policy and retention steps of the core runtime, and its network clients.
- HTTP and socket handlers, configuration, command-line tools, and the legacy application.
