/**
 The actuator service: the calls that drive the journal. The clock, the observer, the target
 process and the nftables backend are oracles, modelled by arbitrary choices.

 Every call extends a ghost run, so what is proved of all runs holds of the state that any
 sequence of calls leaves behind.
 */
module ActuatorService {
  import opened Wrappers
  import opened ActuatorRecords
  import opened ActuatorReplay
  import opened ActuatorAppend
  import opened ActuatorSafety
  import opened ActuatorLogs
  import opened ActuatorRuns
  import opened ActuatorRecovery
  import opened Sweeps
  import opened ActuatorJournal

  // ---------------------------------------------------------------------------------------
  // A record that passed its checks, issued under its guard, is a permitted one
  // ---------------------------------------------------------------------------------------

  ghost predicate Issuable(env: Env, m: Memory, bytes: nat, built: Result<Body, JournalError>) {
    built.Success? ==>
      && WellTyped(built.value)
      && (env.payloadSize(built.value) <= MAX_FRAME_PAYLOAD ==> Permitted(env, m, bytes, built.value))
  }

  /** The disk failed, or the very record that was tried is too large for a frame. Room is never what it lacks. */
  ghost predicate Refusal(env: Env, tried: Option<Body>, e: JournalError) {
    || e == JournalFailed || e == AppendFailed
    || ((e == FrameTooLarge || e == PendingLimit) && tried.Some? && env.payloadSize(tried.value) > MAX_FRAME_PAYLOAD)
  }

  lemma IssuableIsPermitted(env: Env, m: Memory, bytes: nat, built: Result<Body, JournalError>)
    requires Issuable(env, m, bytes, built) && built.Success? && env.payloadSize(built.value) <= MAX_FRAME_PAYLOAD
    ensures WellTyped(built.value) && Permitted(env, m, bytes, built.value)
  {}

  lemma IssuableIsTyped(env: Env, m: Memory, bytes: nat, built: Result<Body, JournalError>)
    ensures Issuable(env, m, bytes, built) && built.Success? ==> WellTyped(built.value)
  {
    hide WellTyped, Permitted;
  }

  /** What a record that may not be issued leaves: a failed handle on the same frames, or one more frame. */
  ghost predicate Stray(env: Env, s: Store, body: Body, s': Store) {
    (s'.failed && s'.log == s.log) || (!s.failed && s'.log == s.log + [SealedFrame(env, body)])
  }

  lemma ReservationIssuable(env: Env, m: Memory, bytes: nat, i: IntentId, sha: Digest, now: int)
    ensures ReservationGuard(m, i, now) ==> Issuable(env, m, bytes, BuildReservation(env, m, bytes, i, sha, now))
  {
    hide ReservationGuard;
  }

  lemma PreparedIssuable(env: Env, m: Memory, bytes: nat, plan: Plan, sha: Digest, deadline: nat)
    ensures PreparedGuard(env, m, plan, sha, deadline) && plan.planId !in m.byPlan ==>
              Issuable(env, m, bytes, BuildPrepared(env, m, bytes, plan, sha, deadline))
  {
    hide PreparedGuard;
  }

  lemma DecisionIssuable(env: Env, m: Memory, bytes: nat, prepared: PreparedState, authority: Authority, sample: Sample,
                         state: ActionState, reason: Reason, basis: Basis)
    ensures var p := prepared.plan.planId;
            p in m.byPlan && m.byPlan[p] == prepared && DecisionGuard(prepared, authority, sample, state, basis) ==>
              Issuable(env, m, bytes, BuildDecision(env, m, bytes, prepared, authority, sample, state, reason, basis))
  {
    hide DecisionGuard, TransitionFits;
  }

  lemma AttemptIssuable(env: Env, m: Memory, bytes: nat, prepared: PreparedState, sample: Sample, ruleset: Digest)
    ensures var p := prepared.plan.planId;
            p in m.byPlan && m.byPlan[p] == prepared && AttemptGuard(m, prepared, sample) ==>
              Issuable(env, m, bytes, BuildAttempt(env, m, bytes, prepared, sample, ruleset))
  {
    hide AttemptGuard, TransitionFits;
  }

  lemma LifecycleIssuable(env: Env, m: Memory, bytes: nat, prepared: PreparedState, sample: Sample, state: ActionState,
                          reason: Reason, basis: Basis, extra: Extra)
    ensures var p := prepared.plan.planId;
            p in m.byPlan && m.byPlan[p] == prepared && LifecycleGuard(m, p, state, extra) ==>
              Issuable(env, m, bytes, BuildLifecycle(env, m, bytes, prepared, sample, state, reason, basis, extra))
  {
    hide LifecycleGuard, TransitionFits, LifecycleReasonAllowed;
  }

  /** The append succeeded durably, or it failed and the tables are as before. */
  ghost predicate Landed(env: Env, s: Store, built: Result<Body, JournalError>, s': Store, r: Result<Frame, JournalError>) {
    match r
    case Success(frame) =>
      && built.Success? && WellTyped(built.value) && frame == SealedFrame(env, built.value)
      && !s.failed && s' == Written(env, s, built.value, Durable)
    case Failure(e) =>
      && s'.mem == s.mem && s'.bytes == s.bytes && s.log <= s'.log && (s.failed ==> s' == s)
      && (built.Failure? ==> s' == s && (s.failed || e == built.error))
      && (built.Success? ==>
            s.failed || e == AppendFailed || (e == FrameTooLarge && env.payloadSize(built.value) > MAX_FRAME_PAYLOAD))
  }

  lemma OutcomeLands(env: Env, s: Store, built: Result<Body, JournalError>, s': Store, r: Result<Frame, JournalError>,
                     fate: Fate)
    ensures AppendOutcome(env, s, built, s', r, fate) ==> Landed(env, s, built, s', r)
  {
    hide Installed, WellTyped;
  }

  /** The tables after a lifecycle record: one outcome moved, its evidence kept, nothing else. */
  function Moved(m: Memory, p: PlanId, state: ActionState, extra: Extra, wall: int, sha: Digest): Memory {
    m.(previous := sha, recordCount := m.recordCount + 1,
       outcomes := m.outcomes[p := Outcome(state, sha, wall)],
       applied := if extra.AppliedExtra? then m.applied[p := extra.observation] else m.applied,
       verified := if extra.VerifiedExtra? then m.verified[p := extra.auditDeadline] else m.verified)
  }

  /** A move that the journal's own rules cannot refuse: legal transition, reason, sample and evidence. */
  ghost predicate LegalMove(m: Memory, prepared: PreparedState, sample: Sample, state: ActionState, reason: Reason,
                            basis: Basis, extra: Extra) {
    var p := prepared.plan.planId;
    && p in m.outcomes
    && LifecycleTransitionAllowed(m.outcomes[p].state, p in m.attempts, state)
    && LifecycleReasonAllowed(state, reason, basis)
    && sample.Valid()
    && LifecycleDetailsOk(LifecycleBody(m, prepared, sample, state, reason, basis, extra), PlanPredecessor(m, p), prepared)
  }

  lemma BuiltIsLegal(env: Env, m: Memory, bytes: nat, prepared: PreparedState, sample: Sample, state: ActionState,
                     reason: Reason, basis: Basis, extra: Extra)
    requires BuildLifecycle(env, m, bytes, prepared, sample, state, reason, basis, extra).Success?
    ensures LegalMove(m, prepared, sample, state, reason, basis, extra)
    ensures BuildLifecycle(env, m, bytes, prepared, sample, state, reason, basis, extra).value
            == LifecycleBody(m, prepared, sample, state, reason, basis, extra)
  {
    hide TransitionFits, LifecycleReasonAllowed, LifecycleTransitionAllowed, LifecycleDetailsOk, LifecycleFutureFrames, FrameSize;
  }

  lemma LegalIsNotRefused(env: Env, m: Memory, bytes: nat, prepared: PreparedState, sample: Sample, state: ActionState,
                          reason: Reason, basis: Basis, extra: Extra)
    requires LegalMove(m, prepared, sample, state, reason, basis, extra)
    ensures prepared.plan.planId in m.outcomes
    ensures var built := BuildLifecycle(env, m, bytes, prepared, sample, state, reason, basis, extra);
            built == Success(LifecycleBody(m, prepared, sample, state, reason, basis, extra)) || built == Failure(PendingLimit)
  {
    hide TransitionFits, LifecycleReasonAllowed, LifecycleTransitionAllowed, LifecycleDetailsOk, LifecycleFutureFrames, FrameSize;
  }

  lemma EvidenceMatches(m: Memory, prepared: PreparedState, sample: Sample, state: ActionState, reason: Reason,
                        basis: Basis, extra: Extra)
    ensures LegalMove(m, prepared, sample, state, reason, basis, extra) ==>
              && prepared.plan.planId in m.outcomes && state != PREPARED
              && (extra.AppliedExtra? <==> state == APPLIED) && (extra.VerifiedExtra? <==> state == VERIFIED)
  {
    hide LifecycleReasonAllowed, AppliedObservationOk;
  }

  lemma InstalledIsMoved(env: Env, m: Memory, prepared: PreparedState, sample: Sample, state: ActionState,
                         reason: Reason, basis: Basis, extra: Extra)
    requires prepared.plan.planId in m.outcomes && state != PREPARED
    requires (extra.AppliedExtra? <==> state == APPLIED) && (extra.VerifiedExtra? <==> state == VERIFIED)
    ensures var frame := SealedFrame(env, LifecycleBody(m, prepared, sample, state, reason, basis, extra));
            WellTyped(frame.body)
            && Installed(m, frame) == Moved(m, prepared.plan.planId, state, extra, sample.wall, frame.sha)
  {}

  lemma LifecycleLands(env: Env, s: Store, prepared: PreparedState, sample: Sample, state: ActionState, reason: Reason,
                       basis: Basis, extra: Extra, s': Store, r: Result<Frame, JournalError>)
    ensures var m := s.mem;
            Landed(env, s, BuildLifecycle(env, m, s.bytes, prepared, sample, state, reason, basis, extra), s', r) ==>
              && (r.Success? ==> s'.mem == Moved(m, prepared.plan.planId, state, extra, sample.wall, r.value.sha) && !s'.failed
                                 && s'.log == s.log + [r.value] && prepared.plan.planId in m.outcomes
                                 && r.value.body == LifecycleBody(m, prepared, sample, state, reason, basis, extra))
              && (r.Failure? ==> s'.mem == m && s.log <= s'.log)
  {
    hide BuildLifecycle, LegalMove, Installed, Moved, WellTyped;
    if BuildLifecycle(env, s.mem, s.bytes, prepared, sample, state, reason, basis, extra).Success? {
      BuiltIsLegal(env, s.mem, s.bytes, prepared, sample, state, reason, basis, extra);
      EvidenceMatches(s.mem, prepared, sample, state, reason, basis, extra);
      InstalledIsMoved(env, s.mem, prepared, sample, state, reason, basis, extra);
    }
  }

  function Reserved(m: Memory, i: IntentId, state: ReservationState): Memory {
    m.(previous := state.sha, recordCount := m.recordCount + 1, reservations := m.reservations[i := state],
       rateHistory := m.rateHistory + [state])
  }

  function Planned(m: Memory, state: PreparedState): Memory {
    m.(previous := state.sha, recordCount := m.recordCount + 1,
       byIntent := m.byIntent[state.plan.intent.intentId := state], byPlan := m.byPlan[state.plan.planId := state])
  }

  function Attempted(m: Memory, p: PlanId, state: AttemptState): Memory {
    m.(previous := state.sha, recordCount := m.recordCount + 1, attempts := m.attempts[p := state])
  }

  lemma ReservationLands(env: Env, s: Store, i: IntentId, sha: Digest, now: int, s': Store, r: Result<Frame, JournalError>)
    requires Landed(env, s, BuildReservation(env, s.mem, s.bytes, i, sha, now), s', r) && r.Success?
    ensures s'.mem == Reserved(s.mem, i, ReservationState(sha, now, r.value.sha))
    ensures !s'.failed && s'.log == s.log + [r.value]
  {}

  lemma PreparedLands(env: Env, s: Store, plan: Plan, sha: Digest, deadline: nat, s': Store, r: Result<Frame, JournalError>)
    requires Landed(env, s, BuildPrepared(env, s.mem, s.bytes, plan, sha, deadline), s', r) && r.Success?
    ensures s'.mem == Planned(s.mem, PreparedState(plan, sha, deadline, r.value.sha))
    ensures !s'.failed && s'.log == s.log + [r.value]
  {}

  lemma ReasonsFor(prepared: PreparedState, sample: Sample)
    ensures DecisionReason(APPROVED, LocalAdminApproval) == Some(LocalAdminApproved)
    ensures DecisionReason(REJECTED, LocalAdminRejection) == Some(LocalAdminRejected)
    ensures var basis := LateBasis(prepared, sample);
            DecisionReason(EXPIRED_UNAPPLIED, basis) == Some(LateReason(basis))
  {}

  /** Whatever the window rules, there is a reason code for the decision that results. */
  lemma RulingHasReason(prepared: PreparedState, sample: Sample, desired: ActionState)
    requires desired == APPROVED || desired == REJECTED
    ensures ExpiryBasis(prepared, sample).Due? ==>
              DecisionReason(EXPIRED_UNAPPLIED, ExpiryBasis(prepared, sample).basis).Some?
    ensures DecisionReason(desired, if desired == REJECTED then LocalAdminRejection else LocalAdminApproval).Some?
  {}

  lemma DecisionNotRefused(env: Env, m: Memory, bytes: nat, prepared: PreparedState, authority: Authority, sample: Sample,
                           state: ActionState, reason: Reason, basis: Basis)
    requires prepared.plan.planId !in m.outcomes && DecisionReason(state, basis) == Some(reason)
    requires authority.basis == SystemExpiry ==> state == EXPIRED_UNAPPLIED
    ensures var built := BuildDecision(env, m, bytes, prepared, authority, sample, state, reason, basis);
            || built == Success(DecisionBody(m.previous, prepared, authority, sample, state, reason, basis))
            || built == Failure(PendingLimit)
  {
    hide TransitionFits, FrameSize, DecisionReason;
  }

  lemma AttemptNotRefused(env: Env, m: Memory, bytes: nat, prepared: PreparedState, sample: Sample, ruleset: Digest)
    requires ReadyToApply(m, prepared.plan.planId) && PlanValid(env, prepared.plan)
    requires sample.Valid() && sample.bootId == prepared.plan.bootId
    ensures prepared.plan.planId in m.outcomes
    ensures var built := BuildAttempt(env, m, bytes, prepared, sample, ruleset);
            built == Success(AttemptRecord(m, prepared, sample, ruleset)) || built == Failure(PendingLimit)
  {
    hide TransitionFits, FrameSize;
  }

  lemma ReservationNotRefused(env: Env, m: Memory, bytes: nat, i: IntentId, sha: Digest, now: int)
    requires i in m.reservations ==> m.reservations[i].intentSha == sha
    ensures var built := BuildReservation(env, m, bytes, i, sha, now);
            built == Success(ReservationBody(i, sha, now, m.previous)) || built == Failure(PendingLimit)
  {}

  /** The plan's reservation is the last record of the journal. */
  predicate JustReserved(m: Memory, i: IntentId, sha: Digest) {
    i in m.reservations && m.reservations[i].intentSha == sha && m.reservations[i].sha == m.previous
  }

  lemma BuiltIsPrepared(env: Env, m: Memory, bytes: nat, plan: Plan, sha: Digest, deadline: nat)
    ensures var built := BuildPrepared(env, m, bytes, plan, sha, deadline);
            built.Success? ==> WellTyped(built.value) && built.value == PreparedBody(m.previous, plan, sha, deadline)
  {}

  /** A frame that repeats a plan ID makes the journal unreadable. */
  lemma CollisionIsFatal(env: Env, log: seq<Frame>, m: Memory, bytes: nat, plan: Plan, sha: Digest, deadline: nat)
    requires Replay(env, log) == Some(m) && plan.planId in m.byPlan && PreparedGuard(env, m, plan, sha, deadline)
    requires BuildPrepared(env, m, bytes, plan, sha, deadline).Success?
    ensures Replay(env, log + [SealedFrame(env, BuildPrepared(env, m, bytes, plan, sha, deadline).value)]) == None
  {
    hide PreparedGuard, BuildPrepared, ReplayFrame;
    PreparedAgreesIffFresh(env, m, bytes, plan, sha, deadline);
    var frame := SealedFrame(env, BuildPrepared(env, m, bytes, plan, sha, deadline).value);
    assert (log + [frame])[..|log|] == log;
  }

  lemma PreparedNotRefused(env: Env, m: Memory, bytes: nat, plan: Plan, sha: Digest, deadline: nat)
    requires JustReserved(m, plan.intent.intentId, sha)
    ensures var built := BuildPrepared(env, m, bytes, plan, sha, deadline);
            || built == Success(PreparedBody(m.previous, plan, sha, deadline))
            || built == Failure(PendingLimit) || built == Failure(ClockBackwards)
  {}

  /** Room for the PREPARED record of one more plan, and for all that may follow it. */
  ghost predicate RoomForPlan(m: Memory, bytes: nat) {
    && m.recordCount + Budget(m) + 1 + LIFECYCLE_FRAMES_PER_PLAN <= MAX_RECORDS
    && bytes + FullFrames(Budget(m) + 1 + LIFECYCLE_FRAMES_PER_PLAN) <= MAX_JOURNAL_BYTES
  }

  /** Not enough for the reservation, the plan's record and the six that may follow, beside what is reserved already. */
  ghost predicate NoRoomForTwo(m: Memory, bytes: nat, frame: nat) {
    || m.recordCount + 8 + Budget(m) > MAX_RECORDS
    || bytes + frame + FullFrames(7 + Budget(m)) > MAX_JOURNAL_BYTES
  }

  lemma RefusedForRoom(env: Env, m: Memory, bytes: nat, i: IntentId, sha: Digest, now: int)
    requires BuildReservation(env, m, bytes, i, sha, now) == Failure(PendingLimit)
    ensures NoRoomForTwo(m, bytes, FrameSize(env, ReservationBody(i, sha, now, m.previous)))
  {}

  lemma ReservationLeavesRoom(env: Env, s: Store, i: IntentId, sha: Digest, now: int, s': Store, r: Result<Frame, JournalError>)
    requires Landed(env, s, BuildReservation(env, s.mem, s.bytes, i, sha, now), s', r) && r.Success?
    ensures RoomForPlan(s'.mem, s'.bytes)
  {
    OwedUnchanged(s.mem, s'.mem, s.mem.byPlan.Keys);
  }

  lemma PreparedFindsRoom(env: Env, m: Memory, bytes: nat, plan: Plan, sha: Digest, deadline: nat)
    requires RoomForPlan(m, bytes) && env.payloadSize(PreparedBody(m.previous, plan, sha, deadline)) <= MAX_FRAME_PAYLOAD
    ensures BuildPrepared(env, m, bytes, plan, sha, deadline) != Failure(PendingLimit)
  {}

  lemma LandedRefusal(env: Env, s: Store, built: Result<Body, JournalError>, body: Body, s': Store, r: Result<Frame, JournalError>)
    requires Landed(env, s, built, s', r) && r.Failure? && !s.failed
    requires built.Success? ==> built.value == body
    requires built == Failure(PendingLimit) ==> env.payloadSize(body) > MAX_FRAME_PAYLOAD
    ensures Refusal(env, Some(body), r.error) || (built.Failure? && built.error == r.error != PendingLimit)
  {}

  lemma DecisionLands(env: Env, s: Store, prepared: PreparedState, authority: Authority, sample: Sample, state: ActionState,
                      reason: Reason, basis: Basis, s': Store, r: Result<Frame, JournalError>)
    requires Landed(env, s, BuildDecision(env, s.mem, s.bytes, prepared, authority, sample, state, reason, basis), s', r)
    requires r.Success?
    ensures s'.mem == Moved(s.mem, prepared.plan.planId, state, NoExtra, sample.wall, r.value.sha)
    ensures !s'.failed && s'.log == s.log + [r.value]
    ensures r.value.body == DecisionBody(s.mem.previous, prepared, authority, sample, state, reason, basis)
  {
    hide TransitionFits, FrameSize;
  }

  lemma AttemptLands(env: Env, s: Store, prepared: PreparedState, sample: Sample, ruleset: Digest, s': Store,
                     r: Result<Frame, JournalError>)
    requires Landed(env, s, BuildAttempt(env, s.mem, s.bytes, prepared, sample, ruleset), s', r) && r.Success?
    ensures s'.mem == Attempted(s.mem, prepared.plan.planId,
                                AttemptState(r.value.sha, sample.wall, sample.bootId, sample.bootTime, prepared.plan.netns,
                                             ruleset))
    ensures !s'.failed && s'.log == s.log + [r.value]
    ensures r.value.body.AttemptBody? && r.value.body.planId == prepared.plan.planId
  {
    hide TransitionFits, FrameSize;
  }

  // ---------------------------------------------------------------------------------------
  // Moves that settle a mutation
  // ---------------------------------------------------------------------------------------

  datatype ServiceError =
    | Stopped | NoClock | KillSwitch | NothingApproved | ObserverUnhealthy | TargetStale | IntentRejected
    | Unsupported | ForeignCollision | NotApplied | MutationUncertain | LacksDeadline | Corrupt
    | PlanNotFound | ApprovalMismatch | AlreadyDecided | ApprovalExpired | ApprovalClock | NotAnAdmin
    | TooManyPending | Equivocation | RateRefused | BadRequest
    | Journal(cause: JournalError)

  /** Not an error of the call itself: whatever it asked of the journal was legal. */
  ghost predicate NotIllegal(env: Env, tried: Option<Body>, e: Option<ServiceError>) {
    !Internal(e) && (e.Some? && e.value.Journal? ==> Refusal(env, tried, e.value.cause))
  }

  /** Errors that only a damaged journal could cause. */
  predicate Internal(e: Option<ServiceError>) { e == Some(LacksDeadline) || e == Some(Corrupt) }

  /** Only this plan's outcome (and its evidence) changed. */
  ghost predicate OnlyMoved(m: Memory, m': Memory, p: PlanId) {
    && m'.byPlan == m.byPlan && m'.byIntent == m.byIntent && m'.attempts == m.attempts
    && m'.reservations == m.reservations && m'.rateHistory == m.rateHistory
    && m'.outcomes.Keys == m.outcomes.Keys
    && (forall q :: q in m.outcomes && q != p ==> m'.outcomes[q] == m.outcomes[q])
    && (forall q :: q in m.verified && q != p ==> q in m'.verified && m'.verified[q] == m.verified[q])
  }

  lemma MovedOnlyMoves(m: Memory, p: PlanId, state: ActionState, extra: Extra, wall: int, sha: Digest)
    requires p in m.outcomes
    ensures var m' := Moved(m, p, state, extra, wall, sha);
            OnlyMoved(m, m', p) && m'.outcomes[p] == Outcome(state, sha, wall) && m'.previous == sha
            && m'.verified == (if extra.VerifiedExtra? then m.verified[p := extra.auditDeadline] else m.verified)
            && m'.applied == (if extra.AppliedExtra? then m.applied[p := extra.observation] else m.applied)
  {}

  lemma InFlightFacts(env: Env, m: Memory, p: PlanId)
    requires PlansSound(env, m) && OutcomesSound(m) && IsActive(m, p)
    ensures p in m.byPlan && m.byPlan[p].plan.planId == p && PlanValid(env, m.byPlan[p].plan)
    ensures p in m.outcomes && p in m.attempts && m.attempts[p].bootTime <= MAX_U64
  {
    assert OutcomeSound(m, p);
  }

  lemma VerifiedHasDeadline(m: Memory, p: PlanId)
    requires OutcomesSound(m) && p in m.outcomes && m.outcomes[p].state == VERIFIED
    ensures p in m.verified && m.verified[p] > 0
  {
    assert OutcomeSound(m, p);
  }

  lemma NothingMoved(m: Memory, p: PlanId)
    ensures OnlyMoved(m, m, p)
  {}

  lemma OnlyMovedTwice(m: Memory, m': Memory, m'': Memory, p: PlanId)
    requires OnlyMoved(m, m', p) && OnlyMoved(m', m'', p)
    ensures OnlyMoved(m, m'', p)
  {}

  /** How a mutation that is proved absent ends: it never happened, or its timeout ran out. */
  function AbsentState(prior: ActionState): ActionState { if prior == APPLIED then EXPIRED else REJECTED }
  function AbsentReason(prior: ActionState): Reason { if prior == APPLIED then NativeTimeoutExpired else NftApplyProvenAbsent }

  predicate ProvesAbsence(basis: Basis) {
    basis == KernelTimeoutObserved || basis == NamespaceDestroyed || basis == HostBootChanged
  }

  lemma AbsentIsLegal(m: Memory, prepared: PreparedState, sample: Sample, basis: Basis)
    requires OutcomesSound(m) && InFlight(m, prepared.plan.planId) && sample.Valid() && ProvesAbsence(basis)
    ensures var prior := m.outcomes[prepared.plan.planId].state;
            LegalMove(m, prepared, sample, AbsentState(prior), AbsentReason(prior), basis, NoExtra)
  {
    hide AppliedObservationOk, OutcomesSound;
    ActiveIsAttempted(m, prepared.plan.planId);
    if m.outcomes[prepared.plan.planId].state == APPLIED {
      assert LegalMove(m, prepared, sample, EXPIRED, NativeTimeoutExpired, basis, NoExtra);
    } else {
      assert LegalMove(m, prepared, sample, REJECTED, NftApplyProvenAbsent, basis, NoExtra);
    }
  }

  lemma ActiveIsAttempted(m: Memory, p: PlanId)
    requires OutcomesSound(m) && IsActive(m, p)
    ensures p in m.attempts
  {
    assert OutcomeSound(m, p);
  }

  lemma ExpiredIsLegal(m: Memory, prepared: PreparedState, sample: Sample, basis: Basis)
    requires OutcomesSound(m) && sample.Valid() && ProvesAbsence(basis)
    requires prepared.plan.planId in m.outcomes && m.outcomes[prepared.plan.planId].state == VERIFIED
    ensures LegalMove(m, prepared, sample, EXPIRED, NativeTimeoutExpired, basis, NoExtra)
  {
    assert OutcomeSound(m, prepared.plan.planId);
  }

  lemma DirtyIsLegal(m: Memory, prepared: PreparedState, sample: Sample, text: string)
    requires OutcomesSound(m) && IsActive(m, prepared.plan.planId)
    requires sample.Valid() && sample.bootId == prepared.plan.bootId && text != ""
    ensures LegalMove(m, prepared, sample, FAILED_DIRTY, NftResultUncertain, FreeText(text), NoExtra)
  {
    hide OutcomesSound, IsActive;
    DirtyIsAllowed(m, prepared.plan.planId);
  }

  lemma UnderWayMayFail(m: Memory, prepared: PreparedState, sample: Sample, text: string)
    requires prepared.plan.planId in m.outcomes && prepared.plan.planId in m.attempts
    requires m.outcomes[prepared.plan.planId].state == APPROVED
    requires sample.Valid() && sample.bootId == prepared.plan.bootId && text != ""
    ensures LegalMove(m, prepared, sample, FAILED_DIRTY, NftResultUncertain, FreeText(text), NoExtra)
  {}

  lemma DirtyIsAllowed(m: Memory, p: PlanId)
    requires OutcomesSound(m) && IsActive(m, p)
    ensures p in m.outcomes && LifecycleTransitionAllowed(m.outcomes[p].state, p in m.attempts, FAILED_DIRTY)
  {
    assert OutcomeSound(m, p);
  }

  /** The plan may end here without evidence. */
  predicate MayEnd(m: Memory, p: PlanId, state: ActionState, reason: Reason, basis: Basis) {
    && (state == STALE_ABORT || state == REJECTED)
    && p in m.outcomes && LifecycleTransitionAllowed(m.outcomes[p].state, p in m.attempts, state)
    && LifecycleReasonAllowed(state, reason, basis)
  }

  lemma EndIsLegal(m: Memory, prepared: PreparedState, sample: Sample, state: ActionState, reason: Reason, basis: Basis)
    requires MayEnd(m, prepared.plan.planId, state, reason, basis) && sample.Valid()
    ensures LegalMove(m, prepared, sample, state, reason, basis, NoExtra)
  {
    hide LifecycleReasonAllowed;
  }

  lemma AppliedIsLegal(m: Memory, prepared: PreparedState, sample: Sample, observation: Observation)
    requires InFlight(m, prepared.plan.planId) && m.outcomes[prepared.plan.planId].state == APPROVED
    requires sample.Valid() && sample.bootId == prepared.plan.bootId && AppliedObservationOk(prepared.plan, observation)
    ensures LegalMove(m, prepared, sample, APPLIED, NftApplyObserved, ExactKernelReadback,
                      AppliedExtra(m.attempts[prepared.plan.planId].sha, observation))
  {}

  lemma VerifiedIsLegal(m: Memory, prepared: PreparedState, sample: Sample, deadline: nat)
    requires prepared.plan.planId in m.attempts
    requires prepared.plan.planId in m.outcomes && m.outcomes[prepared.plan.planId].state == APPLIED
    requires sample.Valid() && sample.bootId == prepared.plan.bootId && sample.bootTime < deadline <= MAX_U64
    ensures LegalMove(m, prepared, sample, VERIFIED, NftApplyVerified, ProofCommitted,
                      VerifiedExtra(m.outcomes[prepared.plan.planId].sha, deadline))
  {}

  function TtlNanoseconds(plan: Plan): nat { plan.intent.ttlSeconds * 1_000_000_000 }

  predicate Settled(state: ActionState) {
    state == REJECTED || state == EXPIRED || state == FAILED_DIRTY || state == VERIFIED
  }

  /** What recovery promises of a plan it has settled. */
  ghost predicate Recovered(m: Memory, p: PlanId) {
    && p in m.outcomes && Settled(m.outcomes[p].state)
    && (m.outcomes[p].state == VERIFIED ==>
          && p in m.byPlan && p in m.attempts && p in m.verified
          && m.verified[p] < m.attempts[p].bootTime + TtlNanoseconds(m.byPlan[p].plan) + 20_000_000_000)
  }

  /** The last record of the journal moves this plan there, for this reason, on this basis and at this sample. */
  ghost predicate LastMove(log: seq<Frame>, p: PlanId, state: ActionState, reason: Reason, basis: Basis, at: Sample) {
    && log != []
    && var b := log[|log| - 1].body;
    && b.ActionBody? && b.planId == p && b.state == state && b.reason == reason && b.observedAt == at.wall
    && b.details.LifecycleDetails? && b.details.movedOn == basis
    && b.details.movedBoot == at.bootId && b.details.movedBootTime == at.bootTime
  }

  lemma LifecycleIsLastMove(log: seq<Frame>, frame: Frame, m: Memory, prepared: PreparedState, sample: Sample,
                            state: ActionState, reason: Reason, basis: Basis, extra: Extra)
    requires prepared.plan.planId in m.outcomes
    requires frame.body == LifecycleBody(m, prepared, sample, state, reason, basis, extra)
    ensures LastMove(log + [frame], prepared.plan.planId, state, reason, basis, sample)
  {}

  // ---------------------------------------------------------------------------------------
  // What a readback of the kernel amounts to
  // ---------------------------------------------------------------------------------------

  datatype Generation = Unclear | StillThere | Gone(at: Sample)

  /** What the kernel showed through a handle on the plan's target, and whether the target was still the same after. */
  datatype Reading = Reading(inspected: bool, present: bool, observation: Observation, rechecked: bool)

  /** Everything the oracles answered while one interrupted or expired mutation was looked into. */
  datatype Findings = Findings(clock: Option<Sample>, seen: Generation, resolved: bool, reading: Reading,
                               readback: Option<Sample>, again: Generation)

  const NO_READING := Reading(false, false, Observation(0, 0, 0, 0, 0, 0, 0, 0), false)
  const NOTHING_FOUND := Findings(None, Unclear, false, NO_READING, None, Unclear)

  datatype Verdict = Pending | NotYet | Absent(basis: Basis, at: Sample) | Uncertain(text: string, at: Sample)
                   | Proved(observation: Observation, at: Sample)

  function IfGone(again: Generation): Verdict { if again.Gone? then Absent(NamespaceDestroyed, again.at) else Pending }

  /** The readback: unreadable, foreign or on another boot is uncertain; gone is absent; else it must not have been extended. */
  ghost function ReadingVerdict(m: Memory, p: PlanId, sample: Sample, reading: Reading, readback: Option<Sample>,
                                again: Generation): Verdict
    requires p in m.byPlan && p in m.attempts && p in m.outcomes
  {
    var plan := m.byPlan[p].plan;
    var ambiguous := Uncertain("recovery_readback_ambiguous", SampleOnBoot(plan, sample, readback));
    if !reading.inspected || reading.observation.ruleset != m.attempts[p].expectedRuleset then ambiguous
    else if reading.present && !AppliedObservationOk(plan, reading.observation) then ambiguous
    else if !reading.rechecked then IfGone(again)
    else if readback.None? || readback.value.bootId != plan.bootId then ambiguous
    else if !reading.present then Absent(KernelTimeoutObserved, readback.value)
    else if Unextended(m, p, m.outcomes[p].state, reading.observation, readback.value, TtlNanoseconds(plan)) then
      Proved(reading.observation, readback.value)
    else Uncertain("recovery_timeout_or_counter_extended", sample)
  }

  /** The sample of the readback if it is on the plan's boot, else the one before. */
  function SampleOnBoot(plan: Plan, sample: Sample, readback: Option<Sample>): Sample {
    if readback.Some? && readback.value.bootId == plan.bootId then readback.value else sample
  }

  ghost function RecoveryVerdict(m: Memory, p: PlanId, f: Findings): Verdict
    requires p in m.byPlan && p in m.attempts && p in m.outcomes
  {
    if f.clock.None? then Pending
    else if f.clock.value.bootId != m.byPlan[p].plan.bootId then Absent(HostBootChanged, f.clock.value)
    else if f.seen.Unclear? then Pending
    else if f.seen.Gone? then Absent(NamespaceDestroyed, f.seen.at)
    else if !f.resolved then IfGone(f.again)
    else ReadingVerdict(m, p, f.clock.value, f.reading, f.readback, f.again)
  }

  /** The evidence of a mutation is on record, and it must have timed out five seconds after the time it had left. */
  ghost predicate Proven(m: Memory, p: PlanId, observation: Observation, at: Sample) {
    && p in m.outcomes && m.outcomes[p].state == VERIFIED
    && p in m.verified && m.verified[p] == at.bootTime + observation.remainingMs * 1_000_000 + 5_000_000_000
  }

  /** What recovery makes of each verdict: an absent mutation never happened or has timed out. */
  ghost predicate SettledAs(s: Store, s': Store, p: PlanId, verdict: Verdict) {
    && p in s.mem.outcomes && p in s'.mem.outcomes
    && var prior, state := s.mem.outcomes[p].state, s'.mem.outcomes[p].state;
    && match verdict
       case Absent(basis, at) =>
         && state == (if prior == APPLIED then EXPIRED else REJECTED)
         && LastMove(s'.log, p, state, if prior == APPLIED then NativeTimeoutExpired else NftApplyProvenAbsent, basis, at)
       case Uncertain(text, at) =>
         state == FAILED_DIRTY && LastMove(s'.log, p, state, NftResultUncertain, FreeText(text), at)
       case Proved(observation, at) =>
         && Proven(s'.mem, p, observation, at)
         && (prior == APPROVED ==> p in s'.mem.applied && s'.mem.applied[p] == observation)
         && (prior != APPROVED ==> s'.mem.applied == s.mem.applied)
       case _ => false
  }

  /** A plan proved by an unextended readback is audited less than TTL plus twenty seconds after its attempt. */
  lemma ProvedIsRecovered(m: Memory, m': Memory, p: PlanId, observation: Observation, at: Sample)
    requires OnlyMoved(m, m', p) && Proven(m', p, observation, at) && p in m.byPlan && p in m.attempts && p in m.outcomes
    requires Unextended(m, p, m.outcomes[p].state, observation, at, TtlNanoseconds(m.byPlan[p].plan))
    ensures Recovered(m', p)
  {
    hide TtlNanoseconds;
  }

  lemma DirtyIsAudited(s: Store, s': Store, p: PlanId, text: string, at: Sample, step: AuditStep)
    requires p in s.mem.outcomes && p in s'.mem.outcomes && !step.NotDue?
    requires step.AuditFailed? ==> step.error.Journal?
    requires step.Advanced? ==>
               && s'.mem.outcomes[p].state == FAILED_DIRTY
               && LastMove(s'.log, p, FAILED_DIRTY, NftResultUncertain, FreeText(text), at)
    ensures AuditedAs(s, s', p, Uncertain(text, at), step, false)
  {
    hide LastMove;
  }

  lemma ExpiredIsAudited(s: Store, s': Store, p: PlanId, basis: Basis, at: Sample, step: AuditStep)
    requires p in s.mem.outcomes && p in s'.mem.outcomes && !step.NotDue?
    requires step.AuditFailed? ==> step.error.Journal?
    requires step.Advanced? ==>
               s'.mem.outcomes[p].state == EXPIRED && LastMove(s'.log, p, EXPIRED, NativeTimeoutExpired, basis, at)
    ensures AuditedAs(s, s', p, Absent(basis, at), step, false)
  {
    hide LastMove;
  }

  lemma DirtyIsSettled(s: Store, s': Store, p: PlanId, text: string, at: Sample)
    requires p in s.mem.outcomes
    ensures && p in s'.mem.outcomes && s'.mem.outcomes[p].state == FAILED_DIRTY
            && LastMove(s'.log, p, FAILED_DIRTY, NftResultUncertain, FreeText(text), at) ==>
              SettledAs(s, s', p, Uncertain(text, at)) && Recovered(s'.mem, p)
  {
    hide LastMove;
  }

  lemma AbsentIsRecovered(s: Store, s': Store, p: PlanId, basis: Basis, at: Sample)
    ensures SettledAs(s, s', p, Absent(basis, at)) ==> Recovered(s'.mem, p)
  {}

  /** The audit of a verified plan: not yet due, or settled by a changed boot, a generation that is gone or an empty readback. */
  ghost function AuditVerdict(m: Memory, p: PlanId, sample: Sample, f: Findings): Verdict
    requires p in m.byPlan && p in m.attempts && p in m.verified
  {
    var plan := m.byPlan[p].plan;
    if sample.bootId != plan.bootId then Absent(HostBootChanged, sample)
    else if sample.bootTime < m.verified[p] then NotYet
    else if f.seen.Unclear? then Pending
    else if f.seen.Gone? then Absent(NamespaceDestroyed, f.seen.at)
    else if !f.resolved then IfGone(f.again)
    else AuditReading(m, p, sample, f.reading, f.readback, f.again)
  }

  ghost function AuditReading(m: Memory, p: PlanId, sample: Sample, reading: Reading, readback: Option<Sample>,
                              again: Generation): Verdict
    requires p in m.byPlan && p in m.attempts
  {
    var plan := m.byPlan[p].plan;
    var ambiguous := Uncertain("expiry_readback_ambiguous", SampleOnBoot(plan, sample, readback));
    if !reading.inspected || reading.observation.ruleset != m.attempts[p].expectedRuleset || reading.present then ambiguous
    else if !reading.rechecked then IfGone(again)
    else if readback.None? || readback.value.bootId != plan.bootId then ambiguous
    else Absent(KernelTimeoutObserved, readback.value)
  }

  /** What an audit makes of each verdict. Whatever else happens, only Pending raises the uncertainty flag. */
  ghost predicate AuditedAs(s: Store, s': Store, p: PlanId, verdict: Verdict, step: AuditStep, raised: bool) {
    && p in s.mem.outcomes && p in s'.mem.outcomes
    && match verdict
       case NotYet => step == NotDue && s' == s && !raised
       case Pending => step == AuditFailed(TargetStale) && s' == s && raised
       case Absent(basis, at) =>
         && !raised && !step.NotDue?
         && (step.AuditFailed? ==> step.error.Journal?)
         && (step.Advanced? ==>
               s'.mem.outcomes[p].state == EXPIRED && LastMove(s'.log, p, EXPIRED, NativeTimeoutExpired, basis, at))
       case Uncertain(text, at) =>
         && !raised && !step.NotDue?
         && (step.AuditFailed? ==> step.error.Journal?)
         && (step.Advanced? ==>
               && s'.mem.outcomes[p].state == FAILED_DIRTY
               && LastMove(s'.log, p, FAILED_DIRTY, NftResultUncertain, FreeText(text), at))
       case Proved(_, _) => false
  }

  /** Why recovery may leave a plan as it is. */
  ghost predicate MayStay(verdict: Verdict, clock: Option<Sample>, e: ServiceError) {
    match verdict
    case Pending => e == if clock.None? then NoClock else TargetStale
    case Proved(_, _) => e.Journal? || e == MutationUncertain
    case _ => e.Journal?
  }

  ghost predicate ReadAs(s: Store, s': Store, p: PlanId, reading: Reading, readback: Option<Sample>, again: Generation,
                         sample: Sample, error: Option<ServiceError>) {
    && p in s.mem.byPlan && p in s.mem.attempts && p in s.mem.outcomes
    && var verdict := ReadingVerdict(s.mem, p, sample, reading, readback, again);
    && if error.None? then SettledAs(s, s', p, verdict) else MayStay(verdict, Some(sample), error.value)
  }

  /** An element that is there as announced: proved unless it was extended. */
  ghost predicate ConfirmedAs(s: Store, s': Store, p: PlanId, sample: Sample, observation: Observation, readback: Sample,
                              error: Option<ServiceError>) {
    && p in s.mem.byPlan && p in s.mem.outcomes
    && var verdict := if Unextended(s.mem, p, s.mem.outcomes[p].state, observation, readback, TtlNanoseconds(s.mem.byPlan[p].plan))
                      then Proved(observation, readback) else Uncertain("recovery_timeout_or_counter_extended", sample);
    && if error.None? then SettledAs(s, s', p, verdict)
       else error.value.Journal? || (verdict.Proved? && error.value == MutationUncertain)
  }

  ghost predicate AuditReadAs(s: Store, s': Store, p: PlanId, sample: Sample, reading: Reading, readback: Option<Sample>,
                              again: Generation, step: AuditStep, was: bool, now: bool) {
    && p in s.mem.byPlan && p in s.mem.attempts
    && var verdict := AuditReading(s.mem, p, sample, reading, readback, again);
    && AuditedAs(s, s', p, verdict, step, verdict.Pending?) && now == (was || verdict.Pending?)
  }

  ghost predicate AuditJudged(s: Store, s': Store, p: PlanId, sample: Sample, found: Findings, step: AuditStep, was: bool,
                              now: bool)
  {
    && p in s.mem.byPlan && p in s.mem.attempts && p in s.mem.verified
    && var verdict := AuditVerdict(s.mem, p, sample, found);
    && AuditedAs(s, s', p, verdict, step, verdict.Pending?) && now == (was || verdict.Pending?)
  }

  lemma UncertainIsConfirmed(s: Store, s': Store, p: PlanId, sample: Sample, observation: Observation, readback: Sample,
                             error: Option<ServiceError>)
    requires p in s.mem.byPlan && p in s.mem.outcomes && p in s'.mem.outcomes
    requires !Unextended(s.mem, p, s.mem.outcomes[p].state, observation, readback, TtlNanoseconds(s.mem.byPlan[p].plan))
    requires if error.Some? then error.value.Journal?
             else && s'.mem.outcomes[p].state == FAILED_DIRTY
                  && LastMove(s'.log, p, FAILED_DIRTY, NftResultUncertain, FreeText("recovery_timeout_or_counter_extended"), sample)
    ensures ConfirmedAs(s, s', p, sample, observation, readback, error)
  {
    hide Unextended, TtlNanoseconds;
  }

  lemma ProvedIsConfirmed(s: Store, s': Store, p: PlanId, sample: Sample, observation: Observation, readback: Sample,
                          error: Option<ServiceError>)
    requires p in s.mem.byPlan && p in s.mem.outcomes
    requires Unextended(s.mem, p, s.mem.outcomes[p].state, observation, readback, TtlNanoseconds(s.mem.byPlan[p].plan))
    requires if error.Some? then error.value.Journal? || error.value == MutationUncertain
             else && Proven(s'.mem, p, observation, readback)
                  && s'.mem.applied == if s.mem.outcomes[p].state == APPROVED then s.mem.applied[p := observation]
                                       else s.mem.applied
    ensures ConfirmedAs(s, s', p, sample, observation, readback, error)
  {
    hide Unextended, TtlNanoseconds;
  }

  lemma ConfirmedIsRead(s: Store, s': Store, p: PlanId, sample: Sample, reading: Reading, readback: Option<Sample>,
                        error: Option<ServiceError>)
    requires p in s.mem.byPlan && p in s.mem.attempts && readback.Some? && readback.value.bootId == s.mem.byPlan[p].plan.bootId
    requires reading.inspected && reading.present && reading.rechecked
    requires reading.observation.ruleset == s.mem.attempts[p].expectedRuleset
    requires AppliedObservationOk(s.mem.byPlan[p].plan, reading.observation)
    requires ConfirmedAs(s, s', p, sample, reading.observation, readback.value, error)
    ensures ReadAs(s, s', p, reading, readback, Unclear, sample, error)
  {
    hide SettledAs, Unextended, TtlNanoseconds, AppliedObservationOk;
  }

  /** The plan was settled as the findings demand, or left for a good reason. */
  ghost predicate Reconciled(s: Store, s': Store, p: PlanId, found: Findings, error: Option<ServiceError>) {
    && p in s.mem.byPlan && p in s.mem.attempts && p in s.mem.outcomes
    && var verdict := RecoveryVerdict(s.mem, p, found);
    && if error.None? then SettledAs(s, s', p, verdict) else MayStay(verdict, found.clock, error.value)
  }

  // ---------------------------------------------------------------------------------------
  // Oracles
  // ---------------------------------------------------------------------------------------

  /** A validated clock sample, or none. */
  method Clock() returns (sample: Option<Sample>)
    ensures sample.Some? ==> sample.value.Valid()
  {
    var reading: Sample, working: bool := *, *;
    return if working && reading.Valid() then Some(reading) else None;
  }

  datatype BuiltPlan = BuiltPlan(plan: Plan, deadline: nat)

  /** What the host told while a plan was built. */
  datatype TargetFacts = TargetFacts(healthy: bool, bound: bool, allowed: bool, netns: nat, boot: BootId, planHash: Digest,
                                     preparedText: nat)

  /**
   Binds an intent to the facts found on the host, or refuses. `nonce` is the random input. Both
   windows of the plan, on the wall clock and on the boot-time clock, end five minutes after the
   sample taken last.
   */
  method BuildPreparedPlan(env: Env, intent: Intent, nonce: nat)
    returns (r: Result<BuiltPlan, ServiceError>, ghost facts: TargetFacts, ghost at: Option<Sample>)
    ensures r.Success? <==>
              && 30 <= intent.ttlSeconds <= 300 && facts.healthy && facts.bound && facts.netns != 0
              && at.Some? && at.value.bootId == facts.boot && facts.allowed && at.value.bootTime + 300_000_000_000 <= MAX_U64
    ensures r.Success? ==>
              && PlanValid(env, r.value.plan) && r.value.plan.intent == intent
              && r.value.plan.planId == env.planIdOf(intent.intentId, nonce)
              && r.value.plan.netns == facts.netns && r.value.plan.bootId == at.value.bootId
              && r.value.plan.preparedAt == at.value.wall && r.value.plan.expiresAt == at.value.wall + 300_000_000_000
              && r.value.deadline == at.value.bootTime + 300_000_000_000 <= MAX_U64 && at.value.bootTime > 0
    ensures r.Failure? ==> !r.error.Journal?
  {
    var told: TargetFacts := *;
    facts, at := told, None;
    if intent.ttlSeconds < MIN_TTL_SECONDS || intent.ttlSeconds > MAX_TTL_SECONDS {
      return Failure(IntentRejected), facts, at;
    }
    if !told.healthy {
      return Failure(ObserverUnhealthy), facts, at;
    }
    if !told.bound || told.netns == 0 {
      return Failure(TargetStale), facts, at;
    }
    var clock := Clock();
    at := clock;
    if clock.None? {
      return Failure(NoClock), facts, at;
    }
    var now := clock.value;
    if now.bootId != told.boot {
      return Failure(TargetStale), facts, at;
    }
    if !told.allowed || now.bootTime > MAX_U64 - APPROVAL_TTL {
      return Failure(IntentRejected), facts, at;
    }
    var plan := Plan(intent, env.planIdOf(intent.intentId, nonce), told.planHash, nonce, told.boot, told.netns, now.wall,
                     told.preparedText, now.wall + APPROVAL_TTL);
    return Success(BuiltPlan(plan, now.bootTime + APPROVAL_TTL)), facts, at;
  }

  datatype FlushReport = Observed(observation: Observation) | NotSent | Ambiguous

  /**
   What the oracles answer between the recorded attempt and its proof: the kernel, then the clock
   when asked for the applied, for the verified and for an ending record. Last, why the journal
   refused one of these records, if it did.
   */
  datatype ApplyFacts = ApplyFacts(inTime: bool, sameTarget: bool, report: FlushReport, rechecked: bool, hostUnchanged: bool,
                                   applied: Option<Sample>, verified: Option<Sample>, closed: Option<Sample>,
                                   refusal: Option<JournalError>)

  method AskKernel() returns (told: ApplyFacts)
    ensures ClocksValid(told)
  {
    told := *;
    var applied := Clock();
    var verified := Clock();
    var closed := Clock();
    told := told.(applied := applied, verified := verified, closed := closed);
  }

  /** The record that ends an attempt was written, unless there was no sample or the journal refused it. */
  predicate Closed(f: ApplyFacts) { f.closed.Some? && f.refusal.None? }

  predicate ClocksValid(f: ApplyFacts) {
    && (f.applied.Some? ==> f.applied.value.Valid())
    && (f.verified.Some? ==> f.verified.value.Valid())
    && (f.closed.Some? ==> f.closed.value.Valid())
  }

  predicate Rebooted(plan: Plan, sample: Option<Sample>) { sample.Some? && sample.value.bootId != plan.bootId }

  /** The proof may still be recorded: same boot, before the audit deadline. */
  predicate Timely(plan: Plan, sample: Option<Sample>, deadline: int) {
    sample.Some? && sample.value.bootId == plan.bootId && sample.value.bootTime < deadline
  }

  /** Only the disk, the size of the record or a new boot makes the journal refuse. */
  ghost predicate FairlyRefused(env: Env, tried: Option<Body>, plan: Plan, f: ApplyFacts) {
    f.refusal.Some? ==> Refusal(env, tried, f.refusal.value) || Rebooted(plan, f.applied) || Rebooted(plan, f.closed)
  }

  predicate Released(f: ApplyFacts) { f.inTime && f.sameTarget }

  predicate NeverSent(f: ApplyFacts) { !Released(f) || f.report.NotSent? }

  /** The kernel shows exactly what the attempt announced, on an unchanged target and host. */
  predicate ShownExactly(plan: Plan, ruleset: Digest, f: ApplyFacts) {
    && f.report.Observed? && AppliedObservationOk(plan, f.report.observation) && f.report.observation.ruleset == ruleset
    && f.rechecked && f.hostUnchanged
  }

  /**
   How an attempt ends. A batch that was never sent: rejected, unless that could not be recorded. A
   result that cannot be told, or a deadline that no word holds: dirty, unless that could not be
   recorded. An exact result: verified, with the observation and the audit deadline of the sample
   taken after it, unless a record was refused, that sample is missing or the next one comes too
   late; then left for recovery.
   */
  ghost predicate AttemptEnds(m: Memory, p: PlanId, f: ApplyFacts, r: Result<PlanId, ServiceError>) {
    && p in m.byPlan && p in m.outcomes && p in m.attempts
    && var state := m.outcomes[p].state;
    && if NeverSent(f) then
         && r.Failure? && state == (if Closed(f) then REJECTED else APPROVED)
         && r.error == (if Closed(f) then NotApplied else if f.closed.None? then NoClock else Journal(f.refusal.value))
       else if !ShownExactly(m.byPlan[p].plan, m.attempts[p].expectedRuleset, f) || Overflows(f) then
         r == Failure(MutationUncertain) && state == if Closed(f) then FAILED_DIRTY else APPROVED
       else ProofEnds(m, p, f, r)
  }

  /** What recording an exact result comes to. */
  ghost predicate ProofEnds(m: Memory, p: PlanId, f: ApplyFacts, r: Result<PlanId, ServiceError>)
    requires p in m.byPlan && p in m.outcomes && f.report.Observed?
  {
    var state := m.outcomes[p].state;
    && (r.Success? <==> f.refusal.None? && f.applied.Some? && Timely(m.byPlan[p].plan, f.verified, DueAt(f)))
    && if r.Success? then
         Proven(m, p, f.report.observation, f.applied.value) && p in m.applied && m.applied[p] == f.report.observation
       else
         && r.error == MutationUncertain && (state == APPROVED || state == APPLIED)
         && (f.applied.None? ==> state == APPROVED)
         && (f.applied.Some? && f.refusal.None? ==> state == APPLIED)
  }

  /** When the element must have timed out, as seen by the first sample after the readback. */
  function DueAt(f: ApplyFacts): int
    requires f.report.Observed? && f.applied.Some?
  {
    f.applied.value.bootTime + f.report.observation.remainingMs * 1_000_000 + 5_000_000_000
  }

  /** No machine word holds the audit deadline. */
  predicate Overflows(f: ApplyFacts) {
    f.report.Observed? && f.applied.Some? && DueAt(f) > MAX_U64
  }

  lemma NeverSentEnds(env: Env, tried: Option<Body>, m: Memory, p: PlanId, f: ApplyFacts, e: ServiceError)
    requires p in m.byPlan && p in m.outcomes && p in m.attempts && NeverSent(f)
    requires m.outcomes[p].state == if Closed(f) then REJECTED else APPROVED
    requires e == if Closed(f) then NotApplied else if f.closed.None? then NoClock else Journal(f.refusal.value)
    requires f.refusal.Some? ==> Refusal(env, tried, f.refusal.value)
    ensures AttemptEnds(m, p, f, Failure(e)) && FairlyRefused(env, tried, m.byPlan[p].plan, f)
  {
    hide Refusal;
  }

  lemma UncertainEnds(m: Memory, p: PlanId, f: ApplyFacts)
    requires p in m.byPlan && p in m.outcomes && p in m.attempts && !NeverSent(f)
    requires !ShownExactly(m.byPlan[p].plan, m.attempts[p].expectedRuleset, f)
    requires m.outcomes[p].state == if Closed(f) then FAILED_DIRTY else APPROVED
    ensures AttemptEnds(m, p, f, Failure(MutationUncertain))
  {
    hide ShownExactly, Overflows;
  }

  lemma ExactEnds(m: Memory, p: PlanId, f: ApplyFacts, r: Result<PlanId, ServiceError>)
    requires p in m.byPlan && p in m.outcomes && p in m.attempts && !NeverSent(f)
    requires ShownExactly(m.byPlan[p].plan, m.attempts[p].expectedRuleset, f)
    requires r.Failure? ==> r.error == MutationUncertain
    requires if Overflows(f) then r.Failure? && m.outcomes[p].state == if Closed(f) then FAILED_DIRTY else APPROVED
             else ProofEnds(m, p, f, r)
    ensures AttemptEnds(m, p, f, r)
  {
    hide ShownExactly, ProofEnds, Overflows;
  }

  lemma ProofMissing(m: Memory, p: PlanId, f: ApplyFacts)
    requires p in m.byPlan && p in m.outcomes && f.report.Observed?
    requires f.applied.None? || f.refusal.Some? || !Timely(m.byPlan[p].plan, f.verified, DueAt(f))
    requires m.outcomes[p].state == APPROVED || m.outcomes[p].state == APPLIED
    requires f.applied.None? ==> m.outcomes[p].state == APPROVED
    requires f.applied.Some? && f.refusal.None? ==> m.outcomes[p].state == APPLIED
    ensures ProofEnds(m, p, f, Failure(MutationUncertain))
  {
    hide Timely;
  }

  lemma ProofMade(m: Memory, p: PlanId, f: ApplyFacts)
    requires p in m.byPlan && p in m.outcomes && f.report.Observed? && f.refusal.None? && f.applied.Some?
    requires Timely(m.byPlan[p].plan, f.verified, DueAt(f)) && m.outcomes[p].state == VERIFIED
    requires p in m.verified && m.verified[p] == DueAt(f) && p in m.applied && m.applied[p] == f.report.observation
    ensures ProofEnds(m, p, f, Success(p))
  {
    hide Timely;
  }

  lemma EndsSafely(m: Memory, p: PlanId, f: ApplyFacts, r: Result<PlanId, ServiceError>)
    requires AttemptEnds(m, p, f, r)
    ensures p in m.outcomes && (r.Success? ==> m.outcomes[p].state == VERIFIED)
    ensures r.Failure? ==> Unsafe(m, p) && r.error !in {TargetStale, IntentRejected, ForeignCollision}
    ensures r == Failure(NotApplied) ==> m.outcomes[p].state == REJECTED
  {
    hide ShownExactly, Overflows;
  }

  datatype Preflight = Clear(sample: Sample, ruleset: Digest) | Abort(at: Option<Sample>, state: ActionState, reason: Reason,
                                                                 basis: Basis, cause: Option<ServiceError>)
                     | GiveUp(error: ServiceError)

  function WindowBasis(due: Basis): Basis {
    match due
    case HostBootChanged => FreeText("approval_window_host_boot_changed")
    case WallDeadline => FreeText("approval_window_wall_deadline")
    case _ => FreeText("approval_window_boottime_deadline")
  }

  /** What the oracles answered before the attempt: the clock twice, and each check in between. */
  datatype PreflightFacts =
    PreflightFacts(first: Option<Sample>, healthy: bool, matching: bool, overLimit: bool, specOk: bool, supported: bool,
                   collision: bool, staged: bool, rechecked: bool, last: Option<Sample>, ruleset: Digest)

  /** Nothing speaks against the attempt: fresh facts, a staged batch, and the window open before and after. */
  ghost predicate AllClear(prepared: PreparedState, f: PreflightFacts) {
    && f.first.Some? && InsideWindow(prepared, f.first.value)
    && f.healthy && f.matching && f.specOk && f.supported && !f.collision && f.staged && f.rechecked
    && f.last.Some? && InsideWindow(prepared, f.last.value)
  }

  /** An abort that the journal accepts: a stale target or plan, or one rejected over a foreign rule. */
  predicate Acceptable(stop: Preflight) {
    stop.Abort? ==>
      && LifecycleReasonAllowed(stop.state, stop.reason, stop.basis) && (stop.at.Some? ==> stop.at.value.Valid())
      && (stop.cause == None || stop.cause.value in {TargetStale, IntentRejected, ForeignCollision})
      && stop.state == (if stop.cause == Some(ForeignCollision) then REJECTED else STALE_ABORT)
  }

  /** Stops before a closed window, or where a clock cannot tell. */
  method CheckWindow(prepared: PreparedState, clock: Option<Sample>) returns (stop: Option<Preflight>)
    requires clock.Some? ==> clock.value.Valid()
    ensures stop.None? <==> clock.Some? && InsideWindow(prepared, clock.value)
    ensures stop.None? ==> ExpiryBasis(prepared, clock.value) == Open && clock.value.bootId == prepared.plan.bootId
    ensures stop.Some? ==>
              && Acceptable(stop.value) && !stop.value.Clear?
              && (if clock.None? then stop.value == GiveUp(NoClock)
                  else stop.value == GiveUp(ApprovalClock) || (stop.value.Abort? && stop.value.cause == Some(TargetStale)))
  {
    if clock.None? {
      return Some(GiveUp(NoClock));
    }
    OpenIsInsideWindow(prepared, clock.value);
    match ExpiryBasis(prepared, clock.value) {
      case ClockError => return Some(GiveUp(ApprovalClock));
      case Due(basis) => return Some(Abort(clock, STALE_ABORT, TargetRevalidationFailed, WindowBasis(basis), Some(TargetStale)));
      case Open => return None;
    }
  }

  /** Stops at the first check that fails, in the order in which they are made. */
  method CheckFacts(f: PreflightFacts) returns (stop: Option<Preflight>)
    ensures stop.None? <==> f.healthy && f.matching && f.specOk && f.supported && !f.collision && f.staged && f.rechecked
    ensures stop.Some? ==> Acceptable(stop.value) && !stop.value.Clear?
    ensures stop.Some? ==>
              if !f.healthy then stop.value == GiveUp(ObserverUnhealthy)
              else if !f.matching then
                stop.value.Abort? && stop.value.cause == Some(if f.overLimit then IntentRejected else TargetStale)
              else if !f.specOk then stop.value.Abort? && stop.value.cause == None
              else if !f.supported then stop.value == GiveUp(Unsupported)
              else if f.collision then stop.value.Abort? && stop.value.cause == Some(ForeignCollision)
              else if !f.staged then stop.value == GiveUp(Unsupported)
              else stop.value.Abort? && stop.value.cause == Some(TargetStale)
  {
    if !f.healthy {
      return Some(GiveUp(ObserverUnhealthy));
    }
    if !f.matching {
      return Some(Abort(None, STALE_ABORT, TargetRevalidationFailed, FreeText("fresh_fact_mismatch"),
                        Some(if f.overLimit then IntentRejected else TargetStale)));
    }
    if !f.specOk {
      return Some(Abort(None, STALE_ABORT, TargetRevalidationFailed, FreeText("invalid_fixed_nft_spec"), None));
    }
    if !f.supported {
      return Some(GiveUp(Unsupported));
    }
    if f.collision {
      return Some(Abort(None, REJECTED, NftPreflightRejected, FreeText("foreign_nft_collision"), Some(ForeignCollision)));
    }
    if !f.staged {
      return Some(GiveUp(Unsupported));
    }
    if !f.rechecked {
      return Some(Abort(None, STALE_ABORT, TargetRevalidationFailed, FreeText("final_kernel_recheck"), Some(TargetStale)));
    }
    return None;
  }

  /**
   Everything between choosing an approved plan and recording the attempt: fresh facts, staged
   batch, last recheck, and the approval window on the clock sample the attempt will carry.
   */
  method CheckBeforeMutation(prepared: PreparedState) returns (r: Preflight, ghost facts: PreflightFacts)
    ensures r.Clear? <==> AllClear(prepared, facts)
    ensures r.Clear? ==> r.sample.Valid() && facts.last == Some(r.sample) && r.ruleset == facts.ruleset
    ensures r.Clear? ==> r.sample.bootId == prepared.plan.bootId && ExpiryBasis(prepared, r.sample) == Open
    ensures Acceptable(r)
    ensures r.Abort? && r.cause == Some(ForeignCollision) ==> facts.collision
    ensures r.Abort? && r.cause == Some(IntentRejected) ==> !facts.matching && facts.overLimit
    ensures r.Abort? && r.cause == None ==> !facts.specOk
    ensures r.GiveUp? ==> r.error in {NoClock, ApprovalClock, ObserverUnhealthy, Unsupported}
  {
    hide LifecycleReasonAllowed, InsideWindow, ExpiryBasis;
    var told: PreflightFacts := *;
    facts := told.(first := None, last := None);
    var current := Clock();
    facts := facts.(first := current);
    var stop := CheckWindow(prepared, current);
    if stop.Some? {
      return stop.value, facts;
    }
    stop := CheckFacts(told);
    if stop.Some? {
      return stop.value, facts;
    }
    var last := Clock();
    facts := facts.(last := last);
    if last.Some? && last.value.bootId != prepared.plan.bootId {
      OtherBootIsOutside(prepared, last.value);
      return Abort(last, STALE_ABORT, TargetRevalidationFailed, FreeText("host_boot_changed"), Some(TargetStale)), facts;
    }
    stop := CheckWindow(prepared, last);
    if stop.Some? {
      return stop.value, facts;
    }
    return Clear(last.value, told.ruleset), facts;
  }

  lemma OtherBootIsOutside(prepared: PreparedState, sample: Sample)
    requires sample.bootId != prepared.plan.bootId
    ensures !InsideWindow(prepared, sample)
    ensures LifecycleReasonAllowed(STALE_ABORT, TargetRevalidationFailed, FreeText("host_boot_changed"))
  {}

  /** What the host told about the plan's container. */
  datatype HostFacts = HostFacts(integrity: bool, found: bool, sameStart: bool, continued: bool)

  /** Is the plan's container generation provably gone, on the plan's own boot? */
  method ObserveContainerGeneration(plan: Plan) returns (seen: Generation, ghost facts: HostFacts, ghost at: Option<Sample>)
    ensures seen.Gone? ==> seen.at.Valid() && seen.at.bootId == plan.bootId && at == Some(seen.at)
    ensures seen.StillThere? <==> facts.integrity && facts.found && facts.sameStart
    ensures seen.Gone? <==>
              && facts.integrity && !(facts.found && facts.sameStart) && facts.continued
              && at.Some? && at.value.bootId == plan.bootId
  {
    var host: HostFacts := *;
    facts, at := host, None;
    if !host.integrity {
      return Unclear, facts, at;
    }
    if host.found && host.sameStart {
      return StillThere, facts, at;
    }
    var sample := Clock();
    at := sample;
    if !host.continued || sample.None? || sample.value.bootId != plan.bootId {
      return Unclear, facts, at;
    }
    return Gone(sample.value), facts, at;
  }

  // ---------------------------------------------------------------------------------------
  // Sweeps
  // ---------------------------------------------------------------------------------------

  /** At most one mutation is unsettled, so a sweep over the unsettled ones has at most one plan to visit. */
  lemma SweepIsShort(m: Memory, ids: seq<PlanId>)
    requires Exclusive(m)
    requires Increasing(ids) && forall x :: x in ids ==> InFlight(m, x)
    ensures |ids| <= 1
  {
    forall i, j | 0 <= i < |ids| && 0 <= j < |ids| ensures ids[i] == ids[j] {
      assert InFlight(m, ids[i]) && InFlight(m, ids[j]);
    }
    if |ids| >= 2 {
      FirstTwoDiffer(ids);
    }
  }

  ghost predicate SomeVerified(m: Memory) { exists p :: p in m.outcomes && m.outcomes[p].state == VERIFIED }

  /** Plans, attempts and the outcomes of plans that were not under way are as they were. */
  ghost predicate OnlySettles(m: Memory, m': Memory) {
    && m'.byPlan == m.byPlan && m'.attempts == m.attempts
    && forall q :: q in m.outcomes && !InFlight(m, q) ==> q in m'.outcomes && m'.outcomes[q] == m.outcomes[q]
  }

  lemma MovingUnsettledOnlySettles(m: Memory, m': Memory, p: PlanId)
    requires m' == m || (OnlyMoved(m, m', p) && InFlight(m, p))
    ensures OnlySettles(m, m')
    ensures SomeVerified(m) ==> SomeVerified(m')
  {
    if SomeVerified(m) {
      var q :| q in m.outcomes && m.outcomes[q].state == VERIFIED;
      assert !InFlight(m, q);
      assert q in m'.outcomes && m'.outcomes[q].state == VERIFIED;
    }
  }

  /** What a sweep that settled the first `n` of its at most one plan has done. */
  ghost predicate Swept(m: Memory, m': Memory, ids: seq<PlanId>, n: nat) {
    && n <= |ids| <= 1
    && if n == 0 then m' == m else OnlyMoved(m, m', ids[0]) && Recovered(m', ids[0])
  }

  /** Nothing is under way, everything that was is settled, and only dirty plans lock mutations. */
  ghost predicate Quiescent(m: Memory, m': Memory) {
    && (forall p :: !InFlight(m', p))
    && (MutationLocked(m') <==> exists p :: Dirty(m', p))
    && (forall p :: InFlight(m, p) ==> Recovered(m', p))
  }

  lemma InFlightIsListed(m: Memory, ids: seq<PlanId>)
    requires |ids| <= 1 && forall p :: p in ids <==> p in m.outcomes && InFlight(m, p)
    ensures forall p :: InFlight(m, p) ==> |ids| == 1 && p == ids[0]
  {
    forall p | InFlight(m, p) ensures |ids| == 1 && p == ids[0] {
      assert p in ids;
    }
  }

  lemma RecoveryCompletes(m: Memory, m': Memory, ids: seq<PlanId>)
    requires forall p :: p in ids <==> p in m.outcomes && InFlight(m, p)
    requires Swept(m, m', ids, |ids|)
    ensures Quiescent(m, m')
  {
    forall p ensures !InFlight(m', p) {
      if |ids| == 1 && p != ids[0] && InFlight(m', p) {
        assert InFlight(m, p);
      }
    }
  }

  /** The audit of this plan is over, or not yet due at the sample. */
  predicate AuditPassed(m: Memory, p: PlanId, sample: Sample) {
    && p in m.outcomes
    && (m.outcomes[p].state == VERIFIED ==>
          && p in m.byPlan && sample.bootId == m.byPlan[p].plan.bootId
          && p in m.verified && sample.bootTime < m.verified[p])
  }

  predicate AuditedState(m: Memory, p: PlanId) {
    p in m.outcomes && (m.outcomes[p].state == VERIFIED || m.outcomes[p].state == EXPIRED || m.outcomes[p].state == FAILED_DIRTY)
  }

  /** No plan went under way. */
  ghost predicate StartsNothing(m: Memory, m': Memory) { forall p :: InFlight(m', p) ==> InFlight(m, p) }

  /** An audit sweep that has visited `ids[..n]`. */
  ghost predicate Audited(m: Memory, m': Memory, ids: seq<PlanId>, n: nat, sample: Sample) {
    && n <= |ids|
    && m'.byPlan == m.byPlan && m'.attempts == m.attempts && m'.outcomes.Keys == m.outcomes.Keys
    && (forall q :: q in m.outcomes && q !in ids[..n] ==> m'.outcomes[q] == m.outcomes[q])
    && (forall q :: q in ids[..n] ==> AuditPassed(m', q, sample) && AuditedState(m', q))
  }

  lemma AuditStartsNothing(m: Memory, m': Memory, ids: seq<PlanId>, n: nat, sample: Sample)
    requires Audited(m, m', ids, n, sample)
    ensures StartsNothing(m, m')
  {
    forall p | InFlight(m', p) ensures InFlight(m, p) {
      assert p in ids[..n] ==> AuditedState(m', p);
    }
  }

  lemma AuditAdvances(m: Memory, m': Memory, m'': Memory, ids: seq<PlanId>, n: nat, sample: Sample)
    requires Increasing(ids) && n < |ids| && Audited(m, m', ids, n, sample)
    requires OnlyMoved(m', m'', ids[n]) && AuditPassed(m'', ids[n], sample) && AuditedState(m'', ids[n])
    ensures Audited(m, m'', ids, n + 1, sample)
  {
    assert ids[..n + 1] == ids[..n] + [ids[n]];
    forall q | q in ids[..n + 1] ensures AuditPassed(m'', q, sample) && AuditedState(m'', q) {
      if q != ids[n] {
        assert AuditPassed(m', q, sample) && AuditedState(m', q);
      }
    }
  }

  lemma AuditCompletes(m: Memory, m': Memory, ids: seq<PlanId>, sample: Sample)
    requires forall p :: p in ids <==> p in m.outcomes && m.outcomes[p].state == VERIFIED
    requires Audited(m, m', ids, |ids|, sample)
    ensures forall q :: q in m'.outcomes ==> AuditPassed(m', q, sample)
  {
    assert ids[..|ids|] == ids;
    forall q | q in m'.outcomes ensures AuditPassed(m', q, sample) {
      if q !in ids {
        assert m'.outcomes[q] == m.outcomes[q];
      }
    }
  }

  /** The last record is this decision on the plan, in every detail. */
  ghost predicate LastDecision(s: Store, s': Store, p: PlanId, authority: Authority, sample: Sample, state: ActionState,
                               reason: Reason, basis: Basis) {
    && p in s.mem.byPlan && |s'.log| == |s.log| + 1 && s.log <= s'.log
    && s'.log[|s.log|].body == DecisionBody(s.mem.previous, s.mem.byPlan[p], authority, sample, state, reason, basis)
  }

  function LateReason(basis: Basis): Reason { if basis == HostBootChanged then HostBootChangedReason else ApprovalDeadlineElapsed }

  /** One plan of the expiry sweep: late plans expire for the true reason, open ones stay, a wrong clock is an error. */
  ghost predicate ExpiredAs(s: Store, s': Store, p: PlanId, sample: Sample, error: Option<ServiceError>) {
    && p in s.mem.byPlan
    && var prepared := s.mem.byPlan[p];
    && if InsideWindow(prepared, sample) then error == None && s' == s
       else if !Late(prepared, sample) then error == Some(ApprovalClock) && s' == s
       else if error.Some? then error.value.Journal? && s'.mem == s.mem
       else var basis := LateBasis(prepared, sample);
         LastDecision(s, s', p, SYSTEM_EXPIRY, sample, EXPIRED_UNAPPLIED, LateReason(basis), basis)
  }

  /** A person's decision at one sample: as desired inside the window, as an expiry when late. */
  ghost predicate DecidedAs(s: Store, s': Store, p: PlanId, authority: Authority, sample: Sample, desired: ActionState,
                            r: Result<Frame, ServiceError>) {
    && p in s.mem.byPlan
    && var prepared, basis := s.mem.byPlan[p], LateBasis(s.mem.byPlan[p], sample);
    && if r.Failure? && r.error.Journal? then s'.mem == s.mem
       else if InsideWindow(prepared, sample) then
         && r.Success?
         && (if desired == APPROVED
             then LastDecision(s, s', p, authority, sample, APPROVED, LocalAdminApproved, LocalAdminApproval)
             else LastDecision(s, s', p, authority, sample, REJECTED, LocalAdminRejected, LocalAdminRejection))
       else if Late(prepared, sample) then
         && r == Failure(ApprovalExpired)
         && LastDecision(s, s', p, authority, sample, EXPIRED_UNAPPLIED, LateReason(basis), basis)
       else r == Failure(ApprovalClock) && s' == s
  }

  lemma NothingRuled(s: Store, p: PlanId, authority: Authority, sample: Sample, desired: ActionState)
    requires p in s.mem.byPlan && !InsideWindow(s.mem.byPlan[p], sample) && !Late(s.mem.byPlan[p], sample)
    ensures DecidedAs(s, s, p, authority, sample, desired, Failure(ApprovalClock))
  {
    hide InsideWindow, Late, LateBasis;
  }

  lemma NothingWritten(s: Store, s': Store, p: PlanId, authority: Authority, sample: Sample, desired: ActionState, e: JournalError)
    requires p in s.mem.byPlan && s'.mem == s.mem
    ensures DecidedAs(s, s', p, authority, sample, desired, Failure(Journal(e)))
  {
    hide InsideWindow, Late, LateBasis;
  }

  lemma RulingIsRecorded(s: Store, s': Store, p: PlanId, authority: Authority, sample: Sample, desired: ActionState,
                         state: ActionState, reason: Reason, basis: Basis, r: Result<Frame, ServiceError>)
    requires LastDecision(s, s', p, authority, sample, state, reason, basis) && DecisionReason(state, basis) == Some(reason)
    requires (desired == APPROVED || desired == REJECTED) && p in s.mem.byPlan
    requires if InsideWindow(s.mem.byPlan[p], sample)
             then && state == desired && r.Success?
                  && basis == if desired == REJECTED then LocalAdminRejection else LocalAdminApproval
             else && Late(s.mem.byPlan[p], sample) && state == EXPIRED_UNAPPLIED && r == Failure(ApprovalExpired)
                  && basis == LateBasis(s.mem.byPlan[p], sample)
    ensures DecidedAs(s, s', p, authority, sample, desired, r)
  {
    hide InsideWindow, Late, LateBasis, LastDecision;
    ReasonsFor(s.mem.byPlan[p], sample);
  }

  /** The plan is decided, or its approval window is open at the sample. */
  predicate WindowChecked(m: Memory, p: PlanId, sample: Sample) {
    p in m.byPlan && (p in m.outcomes || ExpiryBasis(m.byPlan[p], sample) == Open)
  }

  /** No decision was changed and at most this plan was decided. */
  ghost predicate OnlyDecided(m: Memory, m': Memory, p: PlanId) {
    && m'.byPlan == m.byPlan && m'.byIntent == m.byIntent && m'.attempts == m.attempts
    && m'.applied == m.applied && m'.verified == m.verified
    && (forall q :: q in m.outcomes ==> q in m'.outcomes && m'.outcomes[q] == m.outcomes[q])
    && (forall q :: q in m'.outcomes ==> q in m.outcomes || q == p)
  }

  lemma MovedOnlyDecides(m: Memory, p: PlanId, state: ActionState, wall: int, sha: Digest)
    requires p !in m.outcomes
    ensures var m' := Moved(m, p, state, NoExtra, wall, sha);
            OnlyDecided(m, m', p) && p in m'.outcomes && m'.outcomes[p] == Outcome(state, sha, wall)
  {}

  lemma NothingDecided(m: Memory, p: PlanId)
    ensures OnlyDecided(m, m, p)
  {}

  /** An expiry sweep that has visited `ids[..n]`. */
  ghost predicate Expired(m: Memory, m': Memory, ids: seq<PlanId>, n: nat, sample: Sample) {
    && n <= |ids|
    && m'.byPlan == m.byPlan && m'.attempts == m.attempts
    && (forall q :: q in m.outcomes ==> q in m'.outcomes && m'.outcomes[q] == m.outcomes[q])
    && (forall q :: q in m'.outcomes ==> q in m.outcomes || (q in ids[..n] && m'.outcomes[q].state == EXPIRED_UNAPPLIED))
    && (forall q :: q in ids[..n] ==> WindowChecked(m', q, sample))
  }

  lemma ExpiryAdvances(m: Memory, m': Memory, m'': Memory, ids: seq<PlanId>, n: nat, sample: Sample)
    requires n < |ids| && Expired(m, m', ids, n, sample)
    requires OnlyDecided(m', m'', ids[n]) && WindowChecked(m'', ids[n], sample)
    requires ids[n] in m''.outcomes ==> m''.outcomes[ids[n]].state == EXPIRED_UNAPPLIED
    ensures Expired(m, m'', ids, n + 1, sample)
  {
    assert ids[..n + 1] == ids[..n] + [ids[n]];
    forall q | q in ids[..n + 1] ensures WindowChecked(m'', q, sample) {
      if q != ids[n] {
        assert WindowChecked(m', q, sample);
      }
    }
  }

  lemma ExpiryCompletes(m: Memory, m': Memory, ids: seq<PlanId>, sample: Sample)
    requires forall p :: p in ids <==> p in m.byPlan && p !in m.outcomes
    requires Expired(m, m', ids, |ids|, sample)
    ensures forall q :: q in m'.byPlan ==> WindowChecked(m', q, sample)
  {
    assert ids[..|ids|] == ids;
    forall q | q in m'.byPlan ensures WindowChecked(m', q, sample) {
      if q !in ids {
        assert q in m.outcomes;
      }
    }
  }

  lemma WindowsStay(m: Memory, m': Memory, sample: Sample)
    requires m'.byPlan == m.byPlan && m'.outcomes.Keys == m.outcomes.Keys
    requires forall q :: q in m.byPlan ==> WindowChecked(m, q, sample)
    ensures forall q :: q in m'.byPlan ==> WindowChecked(m', q, sample)
  {
    forall q | q in m'.byPlan ensures WindowChecked(m', q, sample) {
      assert WindowChecked(m, q, sample);
    }
  }

  lemma DecidingKeepsVerified(m: Memory, m': Memory)
    requires forall q :: q in m.outcomes ==> q in m'.outcomes && m'.outcomes[q] == m.outcomes[q]
    ensures SomeVerified(m) ==> SomeVerified(m')
  {
    if SomeVerified(m) {
      var q :| q in m.outcomes && m.outcomes[q].state == VERIFIED;
      assert q in m'.outcomes && m'.outcomes[q].state == VERIFIED;
    }
  }

  lemma ExpiryStartsNothing(m: Memory, m': Memory, m'': Memory, ids: seq<PlanId>, n: nat, sample: Sample, p: PlanId)
    requires Expired(m, m', ids, n, sample) && OnlyDecided(m', m'', p)
    requires p !in m'.outcomes && p in m''.outcomes ==> m''.outcomes[p].state == EXPIRED_UNAPPLIED
    ensures StartsNothing(m, m'')
  {}

  lemma NothingStarted(m: Memory, m': Memory, m'': Memory)
    ensures StartsNothing(m, m)
    ensures StartsNothing(m, m') && StartsNothing(m', m'') ==> StartsNothing(m, m'')
  {}

  lemma DecidedKeepsPlans(m: Memory, m': Memory, p: PlanId)
    requires OnlyDecided(m, m', p)
    ensures m'.byPlan == m.byPlan
  {}

  lemma DecidedKeepsVerified(m: Memory, m': Memory, p: PlanId)
    requires OnlyDecided(m, m', p)
    ensures SomeVerified(m) ==> SomeVerified(m')
  {
    hide SomeVerified;
    DecidingKeepsVerified(m, m');
  }

  datatype AuditStep = Advanced | NotDue | AuditFailed(error: ServiceError)

  /** After an attempt: proved absent, or still holding the lock on mutations. */
  predicate Unsafe(m: Memory, p: PlanId) {
    p in m.outcomes && (m.outcomes[p].state == REJECTED || InFlight(m, p) || Dirty(m, p))
  }

  /**
   What applying plan `p` may come to. Only that plan is touched. Either an attempt was recorded as
   the next frame on disk: then the batch was flushed exactly if it was released, the plan ends as
   the facts tell, success is a verified plan in three frames, and a failure leaves it rejected or
   mutations locked. Or there was no attempt and no flush: then the plan was aborted in a single
   frame, with the state that fits the error, or nothing was changed. No failure is one of the
   journal's rules.
   */
  ghost predicate ApplyResult(env: Env, tried: Option<Body>, s: Store, f: seq<PlanId>, p: PlanId, s': Store, f': seq<PlanId>,
                              facts: Option<ApplyFacts>, r: Result<PlanId, ServiceError>) {
    && s.log <= s'.log && OnlyTouched(s.mem, s'.mem, p) && p in s'.mem.outcomes
    && f' == (if facts.Some? && Released(facts.value) then f + [p] else f)
    && (r.Failure? ==> NotIllegal(env, tried, Some(r.error)))
    && var state := s'.mem.outcomes[p].state;
    && match facts
       case Some(told) =>
         && |s.log| < |s'.log| && FrameIs(AttemptOf, p, s'.log[|s.log|])
         && AttemptEnds(s'.mem, p, told, r) && FairlyRefused(env, tried, s'.mem.byPlan[p].plan, told)
         && (if r.Success? then r.value == p && |s'.log| == |s.log| + 3
             else Unsafe(s'.mem, p) && r.error !in {TargetStale, IntentRejected, ForeignCollision})
       case None =>
         && s'.mem.attempts == s.mem.attempts && p in s.mem.byPlan
         && if r.Success? || r.error in {TargetStale, IntentRejected, ForeignCollision} then
              && (r.Success? ==> r.value == p) && |s'.log| == |s.log| + 1
              && AbortFits(s.mem, s.mem.byPlan[p].plan, state, if r.Success? then None else Some(r.error))
            else s'.mem == s.mem
  }

  lemma GaveUp(env: Env, tried: Option<Body>, s: Store, f: seq<PlanId>, p: PlanId, s': Store, e: ServiceError)
    requires p in s.mem.outcomes && p in s.mem.byPlan && s'.mem == s.mem && s.log <= s'.log
    requires NotIllegal(env, tried, Some(e)) && e !in {TargetStale, IntentRejected, ForeignCollision}
    ensures ApplyResult(env, tried, s, f, p, s', f, None, Failure(e))
  {
    hide NotIllegal;
  }

  lemma Ended(env: Env, tried: Option<Body>, s: Store, f: seq<PlanId>, p: PlanId, s': Store, r: Result<PlanId, ServiceError>)
    requires p in s'.mem.outcomes && OnlyMoved(s.mem, s'.mem, p) && s.log <= s'.log && |s'.log| == |s.log| + 1
    requires p in s.mem.byPlan && (r.Success? ==> r.value == p)
    requires AbortFits(s.mem, s.mem.byPlan[p].plan, s'.mem.outcomes[p].state, if r.Success? then None else Some(r.error))
    requires r.Failure? ==> NotIllegal(env, tried, Some(r.error))
    ensures ApplyResult(env, tried, s, f, p, s', f, None, r)
  {
    hide NotIllegal;
    MovedTouches(s.mem, s'.mem, p);
  }

  lemma ResultTouches(env: Env, tried: Option<Body>, s: Store, f: seq<PlanId>, p: PlanId, s': Store, f': seq<PlanId>,
                      facts: Option<ApplyFacts>, r: Result<PlanId, ServiceError>)
    requires ApplyResult(env, tried, s, f, p, s', f', facts, r)
    ensures OnlyTouched(s.mem, s'.mem, p) && s'.mem.byPlan == s.mem.byPlan && s.log <= s'.log
    ensures r.Failure? ==> NotIllegal(env, tried, Some(r.error))
    ensures r.Failure? && f' != f ==> p in s'.mem.outcomes && (s'.mem.outcomes[p].state == REJECTED || MutationLocked(s'.mem))
  {
    if r.Failure? && f' != f {
      UnsafeLocks(s'.mem, p);
    }
  }

  lemma UnsafeLocks(m: Memory, p: PlanId)
    requires Unsafe(m, p)
    ensures p in m.outcomes && (m.outcomes[p].state == REJECTED || MutationLocked(m))
  {}

  /** Which error goes with which end: above the containment limit and over a foreign rule the plan is rejected, else stale. */
  ghost predicate AbortFits(m: Memory, plan: Plan, state: ActionState, cause: Option<ServiceError>) {
    match cause
    case None => state == STALE_ABORT
    case Some(TargetStale) => state == STALE_ABORT
    case Some(ForeignCollision) => state == REJECTED
    case Some(IntentRejected) =>
      m.outcomes.Keys <= m.byPlan.Keys && state == if ContainmentAllowed(m, plan) then STALE_ABORT else REJECTED
    case _ => false
  }

  lemma AbortCauses(m: Memory, plan: Plan, state: ActionState, cause: Option<ServiceError>)
    requires AbortFits(m, plan, state, cause)
    ensures cause.Some? ==> cause.value in {TargetStale, IntentRejected, ForeignCollision}
    ensures state == STALE_ABORT || state == REJECTED
  {
    hide ContainmentAllowed;
  }

  /** Only this plan was attempted or moved. */
  ghost predicate OnlyTouched(m: Memory, m': Memory, p: PlanId) {
    && m'.byPlan == m.byPlan && m'.byIntent == m.byIntent && m'.outcomes.Keys == m.outcomes.Keys
    && (forall q :: q in m.outcomes && q != p ==> m'.outcomes[q] == m.outcomes[q])
    && (forall q :: q != p ==> (q in m'.attempts <==> q in m.attempts) && (q in m.attempts ==> m'.attempts[q] == m.attempts[q]))
  }

  lemma PreflightReason(text: string)
    requires text != ""
    ensures LifecycleReasonAllowed(REJECTED, NftPreflightRejected, FreeText(text))
  {}

  lemma AttemptedFields(m: Memory, p: PlanId, state: AttemptState)
    ensures var m' := Attempted(m, p, state);
            m'.byPlan == m.byPlan && m'.outcomes == m.outcomes && p in m'.attempts && m'.attempts[p] == state
  {}

  lemma MovedKeepsPlans(m: Memory, m': Memory, p: PlanId)
    requires OnlyMoved(m, m', p)
    ensures m'.byPlan == m.byPlan && m'.attempts == m.attempts && m'.outcomes.Keys == m.outcomes.Keys
  {}

  lemma ReadyFacts(env: Env, m: Memory)
    requires PlansSound(env, m) && OutcomesSound(m)
    ensures m.outcomes.Keys <= m.byPlan.Keys
    ensures forall p :: p in m.byPlan ==> PlanValid(env, m.byPlan[p].plan)
  {
    hide PlanValid;
  }

  /** A valid observation's remaining time is small enough for the deadline arithmetic. */
  lemma ObservationIsShort(env: Env, plan: Plan, observation: Observation)
    requires PlanValid(env, plan) && AppliedObservationOk(plan, observation)
    ensures observation.remainingMs <= MAX_TTL_SECONDS * 1000 && 0 < TtlNanoseconds(plan) <= MAX_U64
  {}

  lemma AttemptThenMove(m: Memory, m': Memory, m'': Memory, p: PlanId, state: AttemptState)
    requires m' == Attempted(m, p, state) && OnlyMoved(m', m'', p)
    ensures OnlyTouched(m, m'', p)
  {}

  lemma MovedTouches(m: Memory, m': Memory, p: PlanId)
    requires OnlyMoved(m, m', p)
    ensures OnlyTouched(m, m', p)
  {}

  lemma TouchingApprovedKeepsVerified(m: Memory, m': Memory, p: PlanId)
    requires OnlyTouched(m, m', p) && p in m.outcomes && m.outcomes[p].state == APPROVED
    ensures SomeVerified(m) ==> SomeVerified(m')
  {
    if SomeVerified(m) {
      var q :| q in m.outcomes && m.outcomes[q].state == VERIFIED;
      assert q in m'.outcomes && m'.outcomes[q].state == VERIFIED;
    }
  }

  lemma QuietStays(m: Memory, m': Memory)
    requires (forall p :: !InFlight(m, p)) && StartsNothing(m, m')
    ensures forall p :: !InFlight(m', p)
    ensures MutationLocked(m') <==> exists p :: Dirty(m', p)
  {}

  lemma RestartSteps(env: Env, s: Sys, s': Sys)
    requires Openable(env, s.store.log)
    requires s' == Sys(Store(s.store.log, Tables(env, s.store.log), LogBytes(env, s.store.log), false), None, s.flushed)
    ensures Step(env, s, Restart, s')
  {
    hide Openable, Tables, LogBytes;
  }

  lemma RunLength(env: Env, states: seq<Sys>, actions: seq<Action>)
    requires LegalRun(env, states, actions)
    ensures |states| == |actions| + 1
  {}

  class Service {
    const env: Env
    const journal: ActionJournal
    var manualKillSwitch: bool
    var manualKillSwitchExact: bool
    var auditUncertain: bool

    // The kernel's side, the legal record that the journal refused last, and the run so far.
    ghost var armed: Option<PlanId>
    ghost var tried: Option<Body>
    ghost var flushed: seq<PlanId>
    ghost var states: seq<Sys>
    ghost var actions: seq<Action>

    ghost function Now(): Sys
      reads this, journal
    {
      Sys(journal.View(), armed, flushed)
    }

    /** The state is the last one of a legal run. */
    ghost predicate Tracked()
      reads this, journal
    {
      && journal.env == env
      && LegalRun(env, states, actions)
      && states[|actions|] == Now()
    }

    /** The very first start, on an empty journal. */
    constructor (env: Env)
      ensures fresh(journal) && this.env == env && Tracked() && Now() == INITIAL && !auditUncertain
    {
      this.env := env;
      journal := new ActionJournal(env);
      manualKillSwitch, manualKillSwitchExact, auditUncertain := false, true, false;
      armed, tried, flushed, states, actions := None, None, [], [INITIAL], [];
    }

    /**
     Writes a record. If it is one that may be issued, the run is extended by it; otherwise the run
     goes on only if nothing came of it.
     */
    method Append(built: Result<Body, JournalError>) returns (r: Result<Frame, JournalError>)
      requires Tracked()
      requires Issuable(env, journal.Mem(), journal.byteCount, built) || (built.Success? ==> WellTyped(built.value))
      modifies this`armed, this`states, this`actions, journal
      ensures journal.env == env && old(states) <= states
      ensures Landed(env, old(journal.View()), built, journal.View(), r)
      ensures old(Issuable(env, journal.Mem(), journal.byteCount, built)) ==> Tracked()
      ensures Tracked() || (built.Success? && Stray(env, old(journal.View()), built.value, journal.View()))
      ensures r.Success? && built.value.AttemptBody? && Tracked() ==> armed == Some(built.value.planId)
    {
      hide Permitted, Installed, Landed, WellTyped, Issuable;
      ghost var before := Now();
      IssuableIsTyped(env, journal.Mem(), journal.byteCount, built);
      ghost var fate;
      r, fate := journal.Write(built);
      OutcomeLands(env, before.store, built, journal.View(), r, fate);
      if !before.store.failed && built.Success? && env.payloadSize(built.value) <= MAX_FRAME_PAYLOAD {
        if Issuable(env, before.store.mem, before.store.bytes, built) {
          IssuableIsPermitted(env, before.store.mem, before.store.bytes, built);
          ghost var after := AfterAppend(env, before, built.value, fate);
          armed := after.armed;
          RunExtends(env, states, actions, Action.Append(built.value, fate), after);
          states, actions := states + [after], actions + [Action.Append(built.value, fate)];
        }
      }
    }

    method AppendLifecycle(prepared: PreparedState, sample: Sample, state: ActionState, reason: Reason, basis: Basis,
                           extra: Extra) returns (r: Result<Frame, JournalError>)
      requires Tracked()
      requires prepared.plan.planId in journal.byPlan && journal.byPlan[prepared.plan.planId] == prepared
      requires LifecycleGuard(journal.Mem(), prepared.plan.planId, state, extra)
      modifies this`armed, this`tried, this`states, this`actions, journal
      ensures Tracked() && old(states) <= states
      ensures r.Success? ==>
                && journal.Mem() == Moved(old(journal.Mem()), prepared.plan.planId, state, extra, sample.wall, r.value.sha)
                && !journal.failed && journal.log == old(journal.log) + [r.value]
                && prepared.plan.planId in old(journal.outcomes)
                && r.value.body == old(LifecycleBody(journal.Mem(), prepared, sample, state, reason, basis, extra))
      ensures r.Failure? ==> journal.Mem() == old(journal.Mem()) && old(journal.log) <= journal.log
      ensures r.Failure? && !old(journal.failed) && old(LegalMove(journal.Mem(), prepared, sample, state, reason, basis, extra)) ==>
                && prepared.plan.planId in old(journal.outcomes)
                && tried == Some(old(LifecycleBody(journal.Mem(), prepared, sample, state, reason, basis, extra)))
                && Refusal(env, tried, r.error)
    {
      hide LegalRun, LegalMove, LifecycleGuard, Landed, Issuable, Moved, BuildLifecycle, LifecycleBody;
      ghost var before, run, steps := journal.View(), states, actions;
      RunLength(env, states, actions);
      var built := journal.CheckLifecycle(prepared, sample, state, reason, basis, extra);
      LifecycleIssuable(env, journal.Mem(), journal.byteCount, prepared, sample, state, reason, basis, extra);
      r := Append(built);
      LifecycleLands(env, before, prepared, sample, state, reason, basis, extra, journal.View(), r);
      if r.Failure? && !before.failed && LegalMove(before.mem, prepared, sample, state, reason, basis, extra) {
        LegalIsNotRefused(env, before.mem, before.bytes, prepared, sample, state, reason, basis, extra);
        var body := LifecycleBody(before.mem, prepared, sample, state, reason, basis, extra);
        if env.payloadSize(body) <= MAX_FRAME_PAYLOAD {
          RunRefusesNoLifecycle(env, run, steps, |steps|, prepared, sample, state, reason, basis, extra);
        }
        tried := Some(body);
        LandedRefusal(env, before, built, body, journal.View(), r);
      }
    }

    /** The one append that the journal may turn away because it is full: a plan that is not yet prepared. */
    method ReserveIntent(i: IntentId, sha: Digest, now: int) returns (r: Result<Frame, JournalError>)
      requires Tracked() && ReservationGuard(journal.Mem(), i, now)
      modifies this`armed, this`tried, this`states, this`actions, journal
      ensures Tracked() && old(states) <= states
      ensures r.Success? ==>
                && journal.Mem() == Reserved(old(journal.Mem()), i, ReservationState(sha, now, r.value.sha))
                && !journal.failed && journal.log == old(journal.log) + [r.value]
                && RoomForPlan(journal.Mem(), journal.byteCount)
      ensures r.Failure? ==> journal.Mem() == old(journal.Mem()) && old(journal.log) <= journal.log
      ensures r == Failure(PendingLimit) && !old(journal.failed) ==>
                && journal.log == old(journal.log)
                && NoRoomForTwo(old(journal.Mem()), old(journal.byteCount),
                                FrameSize(env, ReservationBody(i, sha, now, old(journal.previous))))
      ensures (&& r.Failure? && !old(journal.failed)
               && (i in old(journal.reservations) ==> old(journal.reservations)[i].intentSha == sha)) ==>
                && tried == Some(ReservationBody(i, sha, now, old(journal.previous)))
                && (Refusal(env, tried, r.error) || r.error == PendingLimit)
    {
      hide LegalRun, ReservationGuard, Issuable, BuildReservation, Reserved, RoomForPlan, NoRoomForTwo;
      ghost var before := journal.View();
      var built := journal.CheckReservation(i, sha, now);
      ReservationIssuable(env, journal.Mem(), journal.byteCount, i, sha, now);
      r := Append(built);
      if r.Success? {
        ReservationLands(env, before, i, sha, now, journal.View(), r);
        ReservationLeavesRoom(env, before, i, sha, now, journal.View(), r);
      } else if !before.failed && (i in before.mem.reservations ==> before.mem.reservations[i].intentSha == sha) {
        tried := Some(ReservationBody(i, sha, now, before.mem.previous));
        ReservationNotRefused(env, before.mem, before.bytes, i, sha, now);
        if built.Success? {
          LandedRefusal(env, before, built, built.value, journal.View(), r);
        }
      }
      if built == Failure(PendingLimit) {
        RefusedForRoom(env, before.mem, before.bytes, i, sha, now);
      }
    }

    /** No restart can read the journal, or this handle has failed. */
    ghost predicate Doomed()
      reads this, journal
    {
      Replay(env, journal.log) == None || journal.failed
    }

    lemma NowReplays()
      requires Tracked()
      ensures !journal.failed ==> Replay(env, journal.log) == Some(journal.Mem())
    {
      hide Step, Replay;
      ReplayRebuildsHistory(env, states, actions, |actions|, |actions|, 0);
      assert journal.log[..|journal.log|] == journal.log;
    }

    /**
     The journal does not ask whether the plan's ID is new. If it is not, a record that is written
     is one that no restart can read.
     */
    method AppendPrepared(plan: Plan, sha: Digest, deadline: nat) returns (r: Result<Frame, JournalError>)
      requires Tracked() && PreparedGuard(env, journal.Mem(), plan, sha, deadline)
      modifies this`armed, this`tried, this`states, this`actions, journal
      ensures journal.env == env && old(states) <= states
      ensures Tracked() || (plan.planId in old(journal.byPlan) && Doomed())
      ensures r.Success? && plan.planId in old(journal.byPlan) ==> Replay(env, journal.log) == None
      ensures r.Success? ==>
                && journal.Mem() == Planned(old(journal.Mem()), PreparedState(plan, sha, deadline, r.value.sha))
                && !journal.failed && journal.log == old(journal.log) + [r.value]
      ensures r.Failure? ==> journal.Mem() == old(journal.Mem()) && old(journal.log) <= journal.log
      ensures (&& r.Failure? && !old(journal.failed) && old(JustReserved(journal.Mem(), plan.intent.intentId, sha))
               && old(RoomForPlan(journal.Mem(), journal.byteCount))) ==>
                && tried == Some(PreparedBody(old(journal.previous), plan, sha, deadline))
                && (Refusal(env, tried, r.error) || r.error == ClockBackwards)
    {
      hide LegalRun, PreparedGuard, Issuable, BuildPrepared, Planned, RoomForPlan, PreparedBody, WellTyped, Replay, SealedFrame;
      ghost var before := journal.View();
      var built := journal.CheckPrepared(plan, sha, deadline);
      PreparedIssuable(env, journal.Mem(), journal.byteCount, plan, sha, deadline);
      BuiltIsPrepared(env, journal.Mem(), journal.byteCount, plan, sha, deadline);
      NowReplays();
      r := Append(built);
      if plan.planId in before.mem.byPlan && built.Success? && !before.failed {
        CollisionIsFatal(env, before.log, before.mem, before.bytes, plan, sha, deadline);
      }
      if r.Success? {
        PreparedLands(env, before, plan, sha, deadline, journal.View(), r);
      } else if !before.failed && JustReserved(before.mem, plan.intent.intentId, sha) && RoomForPlan(before.mem, before.bytes) {
        PreparedNotRefused(env, before.mem, before.bytes, plan, sha, deadline);
        var body := PreparedBody(before.mem.previous, plan, sha, deadline);
        tried := Some(body);
        if env.payloadSize(body) <= MAX_FRAME_PAYLOAD {
          PreparedFindsRoom(env, before.mem, before.bytes, plan, sha, deadline);
        }
        LandedRefusal(env, before, built, body, journal.View(), r);
      }
    }

    method AppendDecision(prepared: PreparedState, authority: Authority, sample: Sample, state: ActionState,
                          reason: Reason, basis: Basis) returns (r: Result<Frame, JournalError>)
      requires Tracked()
      requires prepared.plan.planId in journal.byPlan && journal.byPlan[prepared.plan.planId] == prepared
      requires DecisionGuard(prepared, authority, sample, state, basis)
      modifies this`armed, this`tried, this`states, this`actions, journal
      ensures Tracked() && old(states) <= states
      ensures r.Success? ==>
                && journal.Mem() == Moved(old(journal.Mem()), prepared.plan.planId, state, NoExtra, sample.wall, r.value.sha)
                && !journal.failed && journal.log == old(journal.log) + [r.value]
                && r.value.body == DecisionBody(old(journal.previous), prepared, authority, sample, state, reason, basis)
      ensures r.Failure? ==> journal.Mem() == old(journal.Mem()) && old(journal.log) <= journal.log
      ensures (&& r.Failure? && !old(journal.failed) && prepared.plan.planId !in old(journal.outcomes)
               && DecisionReason(state, basis) == Some(reason)
               && (authority.basis == SystemExpiry ==> state == EXPIRED_UNAPPLIED)) ==>
                && tried == Some(DecisionBody(old(journal.previous), prepared, authority, sample, state, reason, basis))
                && Refusal(env, tried, r.error)
    {
      hide LegalRun, DecisionGuard, Issuable, BuildDecision, DecisionBody, Moved, DecisionReason;
      ghost var before, run, steps := journal.View(), states, actions;
      RunLength(env, states, actions);
      var built := journal.CheckDecision(prepared, authority, sample, state, reason, basis);
      DecisionIssuable(env, journal.Mem(), journal.byteCount, prepared, authority, sample, state, reason, basis);
      r := Append(built);
      if r.Success? {
        DecisionLands(env, before, prepared, authority, sample, state, reason, basis, journal.View(), r);
      } else if !before.failed && prepared.plan.planId !in before.mem.outcomes && DecisionReason(state, basis) == Some(reason)
                && (authority.basis == SystemExpiry ==> state == EXPIRED_UNAPPLIED) {
        DecisionNotRefused(env, before.mem, before.bytes, prepared, authority, sample, state, reason, basis);
        var body := DecisionBody(before.mem.previous, prepared, authority, sample, state, reason, basis);
        tried := Some(body);
        if env.payloadSize(body) <= MAX_FRAME_PAYLOAD {
          RunRefusesNoDecision(env, run, steps, |steps|, prepared, authority, sample, state, reason, basis);
        }
        LandedRefusal(env, before, built, body, journal.View(), r);
      }
    }

    method AppendApplyAttempt(prepared: PreparedState, sample: Sample, ruleset: Digest)
      returns (r: Result<Frame, JournalError>)
      requires Tracked()
      requires prepared.plan.planId in journal.byPlan && journal.byPlan[prepared.plan.planId] == prepared
      requires AttemptGuard(journal.Mem(), prepared, sample)
      modifies this`armed, this`tried, this`states, this`actions, journal
      ensures Tracked() && old(states) <= states
      ensures r.Success? ==>
                && journal.Mem() == Attempted(old(journal.Mem()), prepared.plan.planId,
                                              AttemptState(r.value.sha, sample.wall, sample.bootId, sample.bootTime,
                                                           prepared.plan.netns, ruleset))
                && !journal.failed && journal.log == old(journal.log) + [r.value]
                && armed == Some(prepared.plan.planId)
                && r.value.body.AttemptBody? && r.value.body.planId == prepared.plan.planId
      ensures r.Failure? ==> journal.Mem() == old(journal.Mem()) && old(journal.log) <= journal.log
      ensures (&& r.Failure? && !old(journal.failed) && old(ReadyToApply(journal.Mem(), prepared.plan.planId))
               && PlanValid(env, prepared.plan) && sample.Valid() && sample.bootId == prepared.plan.bootId) ==>
                && prepared.plan.planId in old(journal.outcomes)
                && tried == Some(old(AttemptRecord(journal.Mem(), prepared, sample, ruleset)))
                && Refusal(env, tried, r.error)
    {
      hide LegalRun, AttemptGuard, Issuable, BuildAttempt, AttemptRecord, Attempted, PlanValid, ReadyToApply;
      ghost var before, run, steps := journal.View(), states, actions;
      RunLength(env, states, actions);
      var built := journal.CheckAttempt(prepared, sample, ruleset);
      AttemptIssuable(env, journal.Mem(), journal.byteCount, prepared, sample, ruleset);
      r := Append(built);
      if r.Success? {
        AttemptLands(env, before, prepared, sample, ruleset, journal.View(), r);
      } else if !before.failed && ReadyToApply(before.mem, prepared.plan.planId) && PlanValid(env, prepared.plan)
                && sample.Valid() && sample.bootId == prepared.plan.bootId {
        AttemptNotRefused(env, before.mem, before.bytes, prepared, sample, ruleset);
        var body := AttemptRecord(before.mem, prepared, sample, ruleset);
        tried := Some(body);
        if env.payloadSize(body) <= MAX_FRAME_PAYLOAD {
          RunRefusesNoAttempt(env, run, steps, |steps|, prepared, sample, ruleset);
        }
        LandedRefusal(env, before, built, body, journal.View(), r);
      }
    }

    // -------------------------------------------------------------------------------------
    // Invariant
    // -------------------------------------------------------------------------------------

    /** Besides being a state of a legal run: an uncertain audit always has a verified plan behind it. */
    ghost predicate Valid()
      reads this, journal
    {
      && Tracked()
      && (auditUncertain ==> SomeVerified(journal.Mem()))
    }

    lemma NowSafe()
      requires Tracked() && !journal.failed
      ensures MemSafe(env, journal.Mem(), journal.byteCount)
    {
      hide Step, GoodLog, MemSafe, FlushesCovered;
      RunKeepsInv(env, states, actions, |actions|);
      GoodLogIsSafe(env, journal.log);
    }

    // -------------------------------------------------------------------------------------
    // Settling one mutation
    // -------------------------------------------------------------------------------------

    /** Closes an unsettled mutation that is proved absent. */
    method SettleAbsent(prepared: PreparedState, sample: Sample, basis: Basis) returns (error: Option<ServiceError>)
      requires Tracked() && !journal.failed && OutcomesSound(journal.Mem())
      requires prepared.plan.planId in journal.byPlan && journal.byPlan[prepared.plan.planId] == prepared
      requires InFlight(journal.Mem(), prepared.plan.planId) && sample.Valid() && ProvesAbsence(basis)
      modifies this`armed, this`tried, this`states, this`actions, journal
      ensures Tracked() && old(states) <= states
      ensures error.None? ==>
                && !journal.failed && OnlyMoved(old(journal.Mem()), journal.Mem(), prepared.plan.planId)
                && prepared.plan.planId in journal.outcomes
                && SettledAs(old(journal.View()), journal.View(), prepared.plan.planId, Absent(basis, sample))
      ensures error.Some? ==> journal.Mem() == old(journal.Mem()) && NotIllegal(env, tried, error) && error.value.Journal?
    {
      hide LegalRun, LegalMove, OutcomesSound, OnlyMoved, Moved, LastMove, LifecycleBody, Refusal;
      var p := prepared.plan.planId;
      var prior := journal.outcomes[p].state;
      ghost var m := journal.Mem();
      AbsentIsLegal(m, prepared, sample, basis);
      var r := AppendLifecycle(prepared, sample, AbsentState(prior), AbsentReason(prior), basis, NoExtra);
      if r.Failure? {
        return Some(Journal(r.error));
      }
      MovedOnlyMoves(m, p, AbsentState(prior), NoExtra, sample.wall, r.value.sha);
      LifecycleIsLastMove(old(journal.log), r.value, m, prepared, sample, AbsentState(prior), AbsentReason(prior), basis, NoExtra);
      return None;
    }

    /** Records that the result of a plan's mutation cannot be told. */
    method MarkDirty(prepared: PreparedState, sample: Sample, text: string) returns (error: Option<ServiceError>)
      requires Tracked() && !journal.failed && OutcomesSound(journal.Mem())
      requires prepared.plan.planId in journal.byPlan && journal.byPlan[prepared.plan.planId] == prepared
      requires IsActive(journal.Mem(), prepared.plan.planId) && text != ""
      requires sample.Valid() && sample.bootId == prepared.plan.bootId
      modifies this`armed, this`tried, this`states, this`actions, journal
      ensures Tracked() && old(states) <= states
      ensures error.None? ==>
                && !journal.failed && OnlyMoved(old(journal.Mem()), journal.Mem(), prepared.plan.planId)
                && prepared.plan.planId in journal.outcomes
                && journal.outcomes[prepared.plan.planId].state == FAILED_DIRTY
                && LastMove(journal.log, prepared.plan.planId, FAILED_DIRTY, NftResultUncertain, FreeText(text), sample)
      ensures error.Some? ==> journal.Mem() == old(journal.Mem()) && NotIllegal(env, tried, error) && error.value.Journal?
    {
      hide LegalRun, LegalMove, OutcomesSound, OnlyMoved, Moved, LastMove, LifecycleBody, Refusal;
      ghost var m := journal.Mem();
      DirtyIsLegal(m, prepared, sample, text);
      var r := AppendLifecycle(prepared, sample, FAILED_DIRTY, NftResultUncertain, FreeText(text), NoExtra);
      if r.Failure? {
        return Some(Journal(r.error));
      }
      MovedOnlyMoves(m, prepared.plan.planId, FAILED_DIRTY, NoExtra, sample.wall, r.value.sha);
      LifecycleIsLastMove(old(journal.log), r.value, m, prepared, sample, FAILED_DIRTY, NftResultUncertain, FreeText(text),
                          NoExtra);
      return None;
    }

    /** Records the proof of a plan's mutation, and until when it must have timed out. */
    method AppendVerified(prepared: PreparedState, deadline: nat, sample: Option<Sample>) returns (error: Option<ServiceError>)
      requires Tracked() && !journal.failed
      requires prepared.plan.planId in journal.byPlan && journal.byPlan[prepared.plan.planId] == prepared
      requires prepared.plan.planId in journal.attempts
      requires prepared.plan.planId in journal.outcomes && journal.outcomes[prepared.plan.planId].state == APPLIED
      requires deadline <= MAX_U64 && (sample.Some? ==> sample.value.Valid())
      modifies this`armed, this`tried, this`states, this`actions, journal
      ensures Tracked() && old(states) <= states
      ensures error.None? ==>
                && !journal.failed && OnlyMoved(old(journal.Mem()), journal.Mem(), prepared.plan.planId)
                && prepared.plan.planId in journal.outcomes
                && journal.outcomes[prepared.plan.planId].state == VERIFIED
                && journal.verified == old(journal.verified)[prepared.plan.planId := deadline]
                && journal.applied == old(journal.applied)
                && |journal.log| == |old(journal.log)| + 1 && old(journal.log) <= journal.log
      ensures error.Some? ==>
                && journal.Mem() == old(journal.Mem()) && old(journal.log) <= journal.log && NotIllegal(env, tried, error)
                && (error.value.Journal? || error.value == MutationUncertain)
      ensures error == Some(MutationUncertain) <==> !Timely(prepared.plan, sample, deadline)
    {
      hide LegalRun, LegalMove, OnlyMoved, Moved;
      var p := prepared.plan.planId;
      if sample.None? || sample.value.bootId != prepared.plan.bootId || sample.value.bootTime >= deadline {
        return Some(MutationUncertain);
      }
      ghost var m := journal.Mem();
      var extra := VerifiedExtra(journal.outcomes[p].sha, deadline);
      VerifiedIsLegal(m, prepared, sample.value, deadline);
      var r := AppendLifecycle(prepared, sample.value, VERIFIED, NftApplyVerified, ProofCommitted, extra);
      if r.Failure? {
        return Some(Journal(r.error));
      }
      MovedOnlyMoves(m, p, VERIFIED, extra, sample.value.wall, r.value.sha);
      return None;
    }

    /** Records that the kernel holds exactly what the attempt announced. */
    method AppendApplied(prepared: PreparedState, sample: Sample, observation: Observation)
      returns (error: Option<ServiceError>)
      requires Tracked() && !journal.failed
      requires prepared.plan.planId in journal.byPlan && journal.byPlan[prepared.plan.planId] == prepared
      requires prepared.plan.planId in journal.attempts
      requires prepared.plan.planId in journal.outcomes && journal.outcomes[prepared.plan.planId].state == APPROVED
      requires sample.Valid() && AppliedObservationOk(prepared.plan, observation)
      requires observation.ruleset == journal.attempts[prepared.plan.planId].expectedRuleset
      modifies this`armed, this`tried, this`states, this`actions, journal
      ensures Tracked() && old(states) <= states
      ensures error.None? ==>
                && !journal.failed && OnlyMoved(old(journal.Mem()), journal.Mem(), prepared.plan.planId)
                && prepared.plan.planId in journal.outcomes
                && journal.outcomes[prepared.plan.planId].state == APPLIED
                && journal.verified == old(journal.verified)
                && journal.applied == old(journal.applied)[prepared.plan.planId := observation]
                && |journal.log| == |old(journal.log)| + 1 && old(journal.log) <= journal.log
      ensures error.Some? ==> journal.Mem() == old(journal.Mem()) && old(journal.log) <= journal.log && error.value.Journal?
      ensures sample.bootId == prepared.plan.bootId ==> NotIllegal(env, tried, error)
    {
      hide LegalRun, LegalMove, OnlyMoved, Moved;
      var p := prepared.plan.planId;
      ghost var m := journal.Mem();
      var extra := AppliedExtra(journal.attempts[p].sha, observation);
      if sample.bootId == prepared.plan.bootId {
        AppliedIsLegal(m, prepared, sample, observation);
      }
      var r := AppendLifecycle(prepared, sample, APPLIED, NftApplyObserved, ExactKernelReadback, extra);
      if r.Failure? {
        return Some(Journal(r.error));
      }
      MovedOnlyMoves(m, p, APPLIED, extra, sample.wall, r.value.sha);
      return None;
    }

    // -------------------------------------------------------------------------------------
    // Recovery
    // -------------------------------------------------------------------------------------

    /** The readback failed after the target moved: settle only on proof that the generation is gone. */
    method SettleIfGone(prepared: PreparedState) returns (error: Option<ServiceError>, ghost again: Generation)
      requires Tracked() && !journal.failed && OutcomesSound(journal.Mem())
      requires prepared.plan.planId in journal.byPlan && journal.byPlan[prepared.plan.planId] == prepared
      requires InFlight(journal.Mem(), prepared.plan.planId)
      modifies this`armed, this`tried, this`states, this`actions, journal
      ensures Tracked() && old(states) <= states && NotIllegal(env, tried, error)
      ensures OnlyMoved(old(journal.Mem()), journal.Mem(), prepared.plan.planId)
      ensures error.None? ==>
                && !journal.failed && Recovered(journal.Mem(), prepared.plan.planId)
                && SettledAs(old(journal.View()), journal.View(), prepared.plan.planId, IfGone(again))
      ensures error.Some? ==> if again.Gone? then error.value.Journal? else error.value == TargetStale
    {
      hide LegalRun, OutcomesSound, LastMove, Refusal;
      NothingMoved(journal.Mem(), prepared.plan.planId);
      var seen;
      ghost var facts, at;
      seen, facts, at := ObserveContainerGeneration(prepared.plan);
      again := seen;
      if seen.Gone? {
        error := SettleAbsent(prepared, seen.at, NamespaceDestroyed);
      } else {
        error := Some(TargetStale);
      }
    }

    /** Records an accepted readback: APPLIED unless that is on record already, then VERIFIED with its audit deadline. */
    method RecordConfirmed(prepared: PreparedState, readback: Sample, observation: Observation)
      returns (error: Option<ServiceError>)
      requires Tracked() && !journal.failed && PlanValid(env, prepared.plan)
      requires prepared.plan.planId in journal.byPlan && journal.byPlan[prepared.plan.planId] == prepared
      requires InFlight(journal.Mem(), prepared.plan.planId) && prepared.plan.planId in journal.attempts
      requires readback.Valid() && readback.bootId == prepared.plan.bootId && AppliedObservationOk(prepared.plan, observation)
      requires observation.ruleset == journal.attempts[prepared.plan.planId].expectedRuleset
      modifies this`armed, this`tried, this`states, this`actions, journal
      ensures Tracked() && old(states) <= states && NotIllegal(env, tried, error)
      ensures OnlyMoved(old(journal.Mem()), journal.Mem(), prepared.plan.planId)
      ensures if error.Some? then error.value.Journal? || error.value == MutationUncertain
              else && !journal.failed && Proven(journal.Mem(), prepared.plan.planId, observation, readback)
                   && journal.applied == if old(journal.outcomes[prepared.plan.planId].state) == APPROVED
                                         then old(journal.applied)[prepared.plan.planId := observation] else old(journal.applied)
    {
      hide LegalRun, AuditDeadline, OnlyMoved, PlanValid, Refusal, AppliedObservationOk;
      var p := prepared.plan.planId;
      ghost var m := journal.Mem();
      NothingMoved(m, p);
      ObservationIsShort(env, prepared.plan, observation);
      AuditDeadlineIsExact(readback.bootTime, observation.remainingMs);
      if journal.outcomes[p].state == APPROVED {
        error := AppendApplied(prepared, readback, observation);
        if error.Some? {
          return;
        }
        MovedKeepsPlans(m, journal.Mem(), p);
      }
      var deadline := AuditDeadline(readback.bootTime, observation.remainingMs);
      if deadline.None? {
        return Some(MutationUncertain);
      }
      ghost var m' := journal.Mem();
      var sample := Clock();
      error := AppendVerified(prepared, deadline.value, sample);
      if error.None? {
        OnlyMovedTwice(m, m', journal.Mem(), p);
      }
    }

    /** The element is there as announced: accept it unless it outlives or undercuts what is on record. */
    method ConfirmApplied(prepared: PreparedState, sample: Sample, readback: Sample, observation: Observation)
      returns (error: Option<ServiceError>)
      requires Tracked() && !journal.failed && OutcomesSound(journal.Mem()) && PlanValid(env, prepared.plan)
      requires prepared.plan.planId in journal.byPlan && journal.byPlan[prepared.plan.planId] == prepared
      requires InFlight(journal.Mem(), prepared.plan.planId) && prepared.plan.planId in journal.attempts
      requires journal.attempts[prepared.plan.planId].bootTime <= MAX_U64
      requires sample.Valid() && sample.bootId == prepared.plan.bootId
      requires readback.Valid() && readback.bootId == prepared.plan.bootId
      requires AppliedObservationOk(prepared.plan, observation)
      requires observation.ruleset == journal.attempts[prepared.plan.planId].expectedRuleset
      modifies this`armed, this`tried, this`states, this`actions, journal
      ensures Tracked() && old(states) <= states && NotIllegal(env, tried, error)
      ensures OnlyMoved(old(journal.Mem()), journal.Mem(), prepared.plan.planId)
      ensures error.None? ==> !journal.failed && Recovered(journal.Mem(), prepared.plan.planId)
      ensures ConfirmedAs(old(journal.View()), journal.View(), prepared.plan.planId, sample, observation, readback, error)
    {
      hide LegalRun, OutcomesSound, RecoveryObservationBounded, OnlyMoved, PlanValid, Refusal, AppliedObservationOk, Unextended,
           LastMove, ConfirmedAs, TtlNanoseconds, Proven, Recovered;
      var p := prepared.plan.planId;
      ghost var s := journal.View();
      NothingMoved(s.mem, p);
      ObservationIsShort(env, prepared.plan, observation);
      var prior := journal.outcomes[p].state;
      var ttl := TtlNanoseconds(prepared.plan);
      BoundedIsExact(journal.Mem(), p, prior, observation, readback, ttl);
      if !RecoveryObservationBounded(journal.Mem(), p, prior, observation, readback, ttl) {
        error := MarkDirty(prepared, sample, "recovery_timeout_or_counter_extended");
        UncertainIsConfirmed(s, journal.View(), p, sample, observation, readback, error);
        DirtyIsSettled(s, journal.View(), p, "recovery_timeout_or_counter_extended", sample);
        return;
      }
      error := RecordConfirmed(prepared, readback, observation);
      ProvedIsConfirmed(s, journal.View(), p, sample, observation, readback, error);
      if error.None? {
        ProvedIsRecovered(s.mem, journal.Mem(), p, observation, readback);
      }
    }

    /**
     Decides what became of one interrupted mutation: absent, uncertain or proved, as the findings
     say. It is left as it was only if they say nothing or the record could not be written.
     */
    method ReconcileOne(p: PlanId) returns (error: Option<ServiceError>, ghost found: Findings)
      requires Tracked() && !journal.failed && OutcomesSound(journal.Mem()) && PlansSound(env, journal.Mem())
      requires InFlight(journal.Mem(), p)
      modifies this`armed, this`tried, this`states, this`actions, journal
      ensures Tracked() && old(states) <= states && NotIllegal(env, tried, error)
      ensures OnlyMoved(old(journal.Mem()), journal.Mem(), p)
      ensures error.None? ==> !journal.failed && Recovered(journal.Mem(), p)
      ensures Reconciled(old(journal.View()), journal.View(), p, found, error)
    {
      hide LegalRun, OnlyMoved, PlanValid, PlansSound, OutcomesSound, InFlight, Refusal, SettledAs, ReadingVerdict;
      found := NOTHING_FOUND;
      InFlightFacts(env, journal.Mem(), p);
      NothingMoved(journal.Mem(), p);
      var prepared := journal.byPlan[p];
      var clock := Clock();
      found := found.(clock := clock);
      if clock.None? {
        return Some(NoClock), found;
      }
      var sample := clock.value;
      if sample.bootId != prepared.plan.bootId {
        error := SettleAbsent(prepared, sample, HostBootChanged);
        AbsentIsRecovered(old(journal.View()), journal.View(), p, HostBootChanged, sample);
        return;
      }
      var seen;
      ghost var facts, at;
      seen, facts, at := ObserveContainerGeneration(prepared.plan);
      found := found.(seen := seen);
      if seen.Unclear? {
        return Some(TargetStale), found;
      }
      if seen.Gone? {
        error := SettleAbsent(prepared, seen.at, NamespaceDestroyed);
        AbsentIsRecovered(old(journal.View()), journal.View(), p, NamespaceDestroyed, seen.at);
        return;
      }
      var resolved: bool := *;
      found := found.(resolved := resolved);
      if !resolved {
        ghost var again;
        error, again := SettleIfGone(prepared);
        found := found.(again := again);
        return;
      }
      ghost var reading, readback, again;
      error, reading, readback, again := ReadBack(prepared, sample);
      found := found.(reading := reading, readback := readback, again := again);
    }

    /** Reads the kernel back through a freshly opened handle on the plan's own target. */
    method ReadBack(prepared: PreparedState, sample: Sample)
      returns (error: Option<ServiceError>, ghost reading: Reading, ghost readback: Option<Sample>, ghost again: Generation)
      requires Tracked() && !journal.failed && OutcomesSound(journal.Mem()) && PlanValid(env, prepared.plan)
      requires prepared.plan.planId in journal.byPlan && journal.byPlan[prepared.plan.planId] == prepared
      requires InFlight(journal.Mem(), prepared.plan.planId) && prepared.plan.planId in journal.attempts
      requires journal.attempts[prepared.plan.planId].bootTime <= MAX_U64
      requires sample.Valid() && sample.bootId == prepared.plan.bootId
      modifies this`armed, this`tried, this`states, this`actions, journal
      ensures Tracked() && old(states) <= states && NotIllegal(env, tried, error)
      ensures OnlyMoved(old(journal.Mem()), journal.Mem(), prepared.plan.planId)
      ensures error.None? ==> !journal.failed && Recovered(journal.Mem(), prepared.plan.planId)
      ensures ReadAs(old(journal.View()), journal.View(), prepared.plan.planId, reading, readback, again, sample, error)
    {
      hide LegalRun, OnlyMoved, OutcomesSound, PlanValid, Refusal, Unextended, SettledAs, AppliedObservationOk, Recovered,
           TtlNanoseconds, LastMove, ConfirmedAs;
      NothingMoved(journal.Mem(), prepared.plan.planId);
      ghost var s := journal.View();
      var shown: Reading := *;
      reading, readback, again := shown, None, Unclear;
      var consistent := shown.inspected && shown.observation.ruleset == journal.attempts[prepared.plan.planId].expectedRuleset
                        && (shown.present ==> AppliedObservationOk(prepared.plan, shown.observation));
      var clock := Clock();
      readback := clock;
      if consistent && !shown.rechecked {
        error, again := SettleIfGone(prepared);
        return;
      }
      var sameBoot := clock.Some? && clock.value.bootId == prepared.plan.bootId;
      if !consistent || !sameBoot {
        error := MarkDirty(prepared, if sameBoot then clock.value else sample, "recovery_readback_ambiguous");
        DirtyIsSettled(s, journal.View(), prepared.plan.planId, "recovery_readback_ambiguous",
                       SampleOnBoot(prepared.plan, sample, clock));
        return;
      }
      if !shown.present {
        error := SettleAbsent(prepared, clock.value, KernelTimeoutObserved);
        AbsentIsRecovered(s, journal.View(), prepared.plan.planId, KernelTimeoutObserved, clock.value);
        return;
      }
      error := ConfirmApplied(prepared, sample, clock.value, shown.observation);
      ConfirmedIsRead(s, journal.View(), prepared.plan.planId, sample, shown, clock, error);
    }

    method Unsettled() returns (ids: seq<PlanId>)
      ensures Increasing(ids)
      ensures forall p :: p in ids <==> p in journal.outcomes && InFlight(journal.Mem(), p)
    {
      ids := SortedIds(set p | p in journal.outcomes && InFlight(journal.Mem(), p));
    }

    /**
     Settles whatever was under way when the daemon stopped. Without error, nothing is left
     unsettled, so that mutations are locked exactly when some plan is dirty; plans that were not
     under way are untouched, and no append is refused as an illegal move.
     */
    method ReconcileIncomplete() returns (reconciled: nat, error: Option<ServiceError>, ghost found: Findings)
      requires Valid()
      modifies this`armed, this`tried, this`states, this`actions, journal
      ensures Valid() && old(states) <= states && NotIllegal(env, tried, error) && reconciled <= 1
      ensures OnlySettles(old(journal.Mem()), journal.Mem())
      ensures error.None? ==> !journal.failed && Quiescent(old(journal.Mem()), journal.Mem())
      ensures error.None? ==>
                forall p :: old(InFlight(journal.Mem(), p)) ==> Reconciled(old(journal.View()), journal.View(), p, found, None)
    {
      hide LegalRun, OnlyMoved, Recovered, Quiescent, OnlySettles, SomeVerified, PlansSound, OutcomesSound, Exclusive, InFlight,
           Refusal, Contained, CapacityReserved, RateBounded, IntentsSound, Reconciled;
      reconciled, found := 0, NOTHING_FOUND;
      ghost var m, s := journal.Mem(), journal.View();
      MovingUnsettledOnlySettles(m, m, 0);
      if journal.failed {
        return reconciled, Some(Stopped), found;
      }
      NowSafe();
      var ids := Unsettled();
      SweepIsShort(m, ids);
      while reconciled < |ids|
        invariant Tracked() && old(states) <= states && !journal.failed
        invariant Swept(m, journal.Mem(), ids, reconciled)
        invariant if reconciled == 0 then journal.View() == s else Reconciled(s, journal.View(), ids[0], found, None)
        invariant OnlySettles(m, journal.Mem()) && (SomeVerified(m) ==> SomeVerified(journal.Mem()))
      {
        var cancelled: bool := *;
        if cancelled {
          return reconciled, Some(Stopped), found;
        }
        assert ids[0] in ids;
        error, found := ReconcileOne(ids[0]);
        MovingUnsettledOnlySettles(m, journal.Mem(), ids[0]);
        if error.Some? {
          return;
        }
        reconciled := reconciled + 1;
      }
      RecoveryCompletes(m, journal.Mem(), ids);
      InFlightIsListed(m, ids);
      return reconciled, None, found;
    }

    // -------------------------------------------------------------------------------------
    // Expiry
    // -------------------------------------------------------------------------------------

    method ExpireVerified(prepared: PreparedState, sample: Sample, basis: Basis) returns (step: AuditStep)
      requires Tracked() && !journal.failed && OutcomesSound(journal.Mem())
      requires prepared.plan.planId in journal.byPlan && journal.byPlan[prepared.plan.planId] == prepared
      requires prepared.plan.planId in journal.outcomes && journal.outcomes[prepared.plan.planId].state == VERIFIED
      requires sample.Valid() && ProvesAbsence(basis)
      modifies this`armed, this`tried, this`states, this`actions, journal
      ensures Tracked() && old(states) <= states && !step.NotDue?
      ensures step.Advanced? ==>
                && !journal.failed && OnlyMoved(old(journal.Mem()), journal.Mem(), prepared.plan.planId)
                && prepared.plan.planId in journal.outcomes && journal.outcomes[prepared.plan.planId].state == EXPIRED
                && LastMove(journal.log, prepared.plan.planId, EXPIRED, NativeTimeoutExpired, basis, sample)
      ensures step.AuditFailed? ==>
                journal.Mem() == old(journal.Mem()) && NotIllegal(env, tried, Some(step.error)) && step.error.Journal?
    {
      hide LegalRun, LegalMove, OutcomesSound, OnlyMoved, Moved, LastMove, LifecycleBody, Refusal;
      ghost var m := journal.Mem();
      ExpiredIsLegal(m, prepared, sample, basis);
      var r := AppendLifecycle(prepared, sample, EXPIRED, NativeTimeoutExpired, basis, NoExtra);
      if r.Failure? {
        return AuditFailed(Journal(r.error));
      }
      MovedOnlyMoves(m, prepared.plan.planId, EXPIRED, NoExtra, sample.wall, r.value.sha);
      LifecycleIsLastMove(old(journal.log), r.value, m, prepared, sample, EXPIRED, NativeTimeoutExpired, basis, NoExtra);
      return Advanced;
    }

    /** Like SettleIfGone, but an audit that cannot tell raises the uncertainty flag. */
    method ExpireIfGone(prepared: PreparedState) returns (step: AuditStep, ghost again: Generation)
      requires Tracked() && !journal.failed && OutcomesSound(journal.Mem())
      requires prepared.plan.planId in journal.byPlan && journal.byPlan[prepared.plan.planId] == prepared
      requires prepared.plan.planId in journal.outcomes && journal.outcomes[prepared.plan.planId].state == VERIFIED
      modifies this`armed, this`tried, this`states, this`actions, this`auditUncertain, journal
      ensures Tracked() && old(states) <= states && !step.NotDue?
      ensures step.Advanced? ==>
                && !journal.failed && OnlyMoved(old(journal.Mem()), journal.Mem(), prepared.plan.planId)
                && prepared.plan.planId in journal.outcomes && journal.outcomes[prepared.plan.planId].state == EXPIRED
      ensures step.AuditFailed? ==> journal.Mem() == old(journal.Mem()) && NotIllegal(env, tried, Some(step.error))
      ensures AuditedAs(old(journal.View()), journal.View(), prepared.plan.planId, IfGone(again), step, !again.Gone?)
      ensures auditUncertain == (old(auditUncertain) || !again.Gone?) && (step.Advanced? ==> again.Gone?)
    {
      hide LegalRun, OutcomesSound, OnlyMoved, LastMove, Refusal;
      var seen;
      ghost var facts, at;
      seen, facts, at := ObserveContainerGeneration(prepared.plan);
      again := seen;
      if seen.Gone? {
        step := ExpireVerified(prepared, seen.at, NamespaceDestroyed);
      } else {
        auditUncertain := true;
        step := AuditFailed(TargetStale);
      }
    }

    /** Audits one verified plan: has its native timeout removed the element? */
    method AuditOne(p: PlanId, sample: Sample) returns (step: AuditStep, ghost found: Findings)
      requires Tracked() && !journal.failed && OutcomesSound(journal.Mem()) && PlansSound(env, journal.Mem())
      requires p in journal.outcomes && journal.outcomes[p].state == VERIFIED && sample.Valid()
      modifies this`armed, this`tried, this`states, this`actions, this`auditUncertain, journal
      ensures Tracked() && old(states) <= states
      ensures !step.AuditFailed? ==>
                && auditUncertain == old(auditUncertain) && !journal.failed
                && OnlyMoved(old(journal.Mem()), journal.Mem(), p)
                && AuditPassed(journal.Mem(), p, sample) && AuditedState(journal.Mem(), p)
      ensures step.AuditFailed? ==> journal.Mem() == old(journal.Mem()) && NotIllegal(env, tried, Some(step.error))
      ensures AuditJudged(old(journal.View()), journal.View(), p, sample, found, step, old(auditUncertain), auditUncertain)
    {
      hide LegalRun, OnlyMoved, PlanValid, PlansSound, OutcomesSound, InFlight, Refusal, LastMove, AuditReading;
      found := NOTHING_FOUND;
      InFlightFacts(env, journal.Mem(), p);
      NothingMoved(journal.Mem(), p);
      VerifiedHasDeadline(journal.Mem(), p);
      var prepared := journal.byPlan[p];
      if p !in journal.verified || journal.verified[p] == 0 {
        return AuditFailed(LacksDeadline), found;
      }
      if sample.bootId != prepared.plan.bootId {
        step := ExpireVerified(prepared, sample, HostBootChanged);
        return;
      }
      if sample.bootTime < journal.verified[p] {
        return NotDue, found;
      }
      var seen;
      ghost var facts, at;
      seen, facts, at := ObserveContainerGeneration(prepared.plan);
      found := found.(seen := seen);
      if seen.Unclear? {
        auditUncertain := true;
        return AuditFailed(TargetStale), found;
      }
      if seen.Gone? {
        step := ExpireVerified(prepared, seen.at, NamespaceDestroyed);
        return;
      }
      var resolved: bool := *;
      found := found.(resolved := resolved);
      ghost var reading, readback, again := NO_READING, None, Unclear;
      if !resolved {
        step, again := ExpireIfGone(prepared);
      } else {
        step, reading, readback, again := AuditReadBack(prepared, sample);
      }
      found := found.(reading := reading, readback := readback, again := again);
    }

    method AuditReadBack(prepared: PreparedState, sample: Sample)
      returns (step: AuditStep, ghost reading: Reading, ghost readback: Option<Sample>, ghost again: Generation)
      requires Tracked() && !journal.failed && OutcomesSound(journal.Mem())
      requires prepared.plan.planId in journal.byPlan && journal.byPlan[prepared.plan.planId] == prepared
      requires prepared.plan.planId in journal.outcomes && journal.outcomes[prepared.plan.planId].state == VERIFIED
      requires prepared.plan.planId in journal.attempts
      requires sample.Valid() && sample.bootId == prepared.plan.bootId
      modifies this`armed, this`tried, this`states, this`actions, this`auditUncertain, journal
      ensures Tracked() && old(states) <= states
      ensures !step.AuditFailed? ==>
                && auditUncertain == old(auditUncertain) && !journal.failed
                && OnlyMoved(old(journal.Mem()), journal.Mem(), prepared.plan.planId)
                && AuditPassed(journal.Mem(), prepared.plan.planId, sample) && AuditedState(journal.Mem(), prepared.plan.planId)
      ensures step.AuditFailed? ==> journal.Mem() == old(journal.Mem()) && NotIllegal(env, tried, Some(step.error))
      ensures AuditReadAs(old(journal.View()), journal.View(), prepared.plan.planId, sample, reading, readback, again, step,
                          old(auditUncertain), auditUncertain)
    {
      hide LegalRun, OnlyMoved, OutcomesSound, Refusal, AuditedAs, LastMove;
      ghost var s := journal.View();
      var shown: Reading := *;
      reading, readback, again := shown, None, Unclear;
      var consistent := shown.inspected && shown.observation.ruleset == journal.attempts[prepared.plan.planId].expectedRuleset
                        && !shown.present;
      var clock := Clock();
      readback := clock;
      if consistent && !shown.rechecked {
        step, again := ExpireIfGone(prepared);
        return;
      }
      var sameBoot := clock.Some? && clock.value.bootId == prepared.plan.bootId;
      if !consistent || !sameBoot {
        var error := MarkDirty(prepared, if sameBoot then clock.value else sample, "expiry_readback_ambiguous");
        step := if error.Some? then AuditFailed(error.value) else Advanced;
        DirtyIsAudited(s, journal.View(), prepared.plan.planId, "expiry_readback_ambiguous",
                       SampleOnBoot(prepared.plan, sample, clock), step);
        return;
      }
      step := ExpireVerified(prepared, clock.value, KernelTimeoutObserved);
      ExpiredIsAudited(s, journal.View(), prepared.plan.planId, KernelTimeoutObserved, clock.value, step);
    }

    method VerifiedPlans() returns (ids: seq<PlanId>)
      ensures Increasing(ids)
      ensures forall p :: p in ids <==> p in journal.outcomes && journal.outcomes[p].state == VERIFIED
    {
      ids := SortedIds(set p | p in journal.outcomes && journal.outcomes[p].state == VERIFIED);
    }

    /** Audits every verified plan; only a sweep that gets through all of them clears the uncertainty. */
    method AuditDue(sample: Sample) returns (error: Option<ServiceError>)
      requires Tracked() && !journal.failed && sample.Valid()
      modifies this`armed, this`tried, this`states, this`actions, this`auditUncertain, journal
      ensures Tracked() && old(states) <= states && NotIllegal(env, tried, error)
      ensures error.None? ==>
                && !journal.failed && !auditUncertain
                && (forall q :: q in journal.outcomes ==> AuditPassed(journal.Mem(), q, sample))
      ensures error.Some? ==> SomeVerified(journal.Mem())
      ensures journal.byPlan == old(journal.byPlan) && journal.outcomes.Keys == old(journal.outcomes.Keys)
      ensures StartsNothing(old(journal.Mem()), journal.Mem())
    {
      hide LegalRun, OnlyMoved, AuditPassed, AuditedState, StartsNothing, InFlight, PlansSound, OutcomesSound,
           Exclusive, Contained, CapacityReserved, RateBounded, AuditJudged, Refusal;
      ghost var m := journal.Mem();
      var ids := VerifiedPlans();
      var n := 0;
      while n < |ids|
        invariant Tracked() && old(states) <= states && !journal.failed
        invariant auditUncertain == old(auditUncertain)
        invariant Audited(m, journal.Mem(), ids, n, sample)
      {
        assert ids[n] in ids && ids[n] !in ids[..n];
        ghost var m' := journal.Mem();
        AuditStartsNothing(m, m', ids, n, sample);
        var cancelled: bool := *;
        if cancelled {
          return Some(Stopped);
        }
        NowSafe();
        var step;
        ghost var found;
        step, found := AuditOne(ids[n], sample);
        if step.AuditFailed? {
          return Some(step.error);
        }
        AuditAdvances(m, m', journal.Mem(), ids, n, sample);
        n := n + 1;
      }
      AuditStartsNothing(m, journal.Mem(), ids, n, sample);
      AuditCompletes(m, journal.Mem(), ids, sample);
      auditUncertain := false;
      return None;
    }

    /** Expires one undecided plan if its approval window has closed. */
    method ExpireOne(p: PlanId, sample: Sample) returns (error: Option<ServiceError>)
      requires Tracked() && !journal.failed && sample.Valid()
      requires p in journal.byPlan && journal.byPlan[p].plan.planId == p && p !in journal.outcomes
      modifies this`armed, this`tried, this`states, this`actions, journal
      ensures Tracked() && old(states) <= states
      ensures OnlyDecided(old(journal.Mem()), journal.Mem(), p)
      ensures error.None? ==> !journal.failed && WindowChecked(journal.Mem(), p, sample)
      ensures NotIllegal(env, tried, error)
      ensures p in journal.outcomes ==> journal.outcomes[p].state == EXPIRED_UNAPPLIED
      ensures ExpiredAs(old(journal.View()), journal.View(), p, sample, error)
    {
      hide LegalRun, OnlyDecided, Moved, InsideWindow, Late, LateBasis, ExpiryBasis, Refusal;
      var prepared := journal.byPlan[p];
      ghost var m := journal.Mem();
      NothingDecided(m, p);
      ExpiryIsExact(prepared, sample);
      ReasonsFor(prepared, sample);
      match ExpiryBasis(prepared, sample) {
        case ClockError => return Some(ApprovalClock);
        case Open => return None;
        case Due(basis) =>
          var reason := if basis == HostBootChanged then HostBootChangedReason else ApprovalDeadlineElapsed;
          var r := AppendDecision(prepared, SYSTEM_EXPIRY, sample, EXPIRED_UNAPPLIED, reason, basis);
          if r.Failure? {
            return Some(Journal(r.error));
          }
          MovedOnlyDecides(m, p, EXPIRED_UNAPPLIED, sample.wall, r.value.sha);
          return None;
      }
    }

    method UndecidedPlans() returns (ids: seq<PlanId>)
      ensures Increasing(ids)
      ensures forall p :: p in ids <==> p in journal.byPlan && p !in journal.outcomes
    {
      ids := SortedIds(journal.byPlan.Keys - journal.outcomes.Keys);
    }

    method ExpirePlans(sample: Sample) returns (error: Option<ServiceError>)
      requires Tracked() && !journal.failed && sample.Valid()
      modifies this`armed, this`tried, this`states, this`actions, journal
      ensures Tracked() && old(states) <= states && NotIllegal(env, tried, error)
      ensures error.None? ==>
                && !journal.failed
                && (forall q :: q in journal.byPlan ==> WindowChecked(journal.Mem(), q, sample))
      ensures SomeVerified(old(journal.Mem())) ==> SomeVerified(journal.Mem())
      ensures StartsNothing(old(journal.Mem()), journal.Mem())
    {
      hide LegalRun, OnlyDecided, WindowChecked, StartsNothing, InFlight, OutcomesSound, IntentsSound, Exclusive, Contained,
           CapacityReserved, RateBounded, SomeVerified, PlanValid, Refusal;
      ghost var m := journal.Mem();
      var ids := UndecidedPlans();
      var n := 0;
      while n < |ids|
        invariant Tracked() && old(states) <= states && !journal.failed
        invariant Expired(m, journal.Mem(), ids, n, sample)
      {
        ghost var m' := journal.Mem();
        DecidingKeepsVerified(m, m');
        NothingDecided(m', ids[n]);
        ExpiryStartsNothing(m, m', m', ids, n, sample, ids[n]);
        assert ids[n] in ids && ids[n] !in ids[..n];
        var cancelled: bool := *;
        if cancelled {
          return Some(Stopped);
        }
        NowSafe();
        error := ExpireOne(ids[n], sample);
        DecidedKeepsVerified(m', journal.Mem(), ids[n]);
        ExpiryStartsNothing(m, m', journal.Mem(), ids, n, sample, ids[n]);
        if error.Some? {
          return;
        }
        ExpiryAdvances(m, m', journal.Mem(), ids, n, sample);
        n := n + 1;
      }
      DecidingKeepsVerified(m, journal.Mem());
      NothingDecided(journal.Mem(), 0);
      ExpiryStartsNothing(m, journal.Mem(), journal.Mem(), ids, n, sample, 0);
      ExpiryCompletes(m, journal.Mem(), ids, sample);
      return None;
    }

    /**
     The periodic sweep. When it ends without error, every plan is decided or inside its window,
     every verified plan is not yet due, and no audit is left uncertain: the early return cannot
     orphan the flag, because an uncertain audit always has a verified plan behind it.
     */
    method ExpireDue() returns (error: Option<ServiceError>, ghost at: Option<Sample>)
      requires Valid()
      modifies this`armed, this`tried, this`states, this`actions, this`auditUncertain, journal
      ensures Valid() && old(states) <= states && NotIllegal(env, tried, error)
      ensures error.None? ==> !journal.failed && !auditUncertain
      ensures error.None? && at.None? ==>
                unchanged(journal) && Undecided(journal.Mem()) == {} && !SomeVerified(journal.Mem())
      ensures error.None? && at.Some? ==>
                && (forall q :: q in journal.byPlan ==> WindowChecked(journal.Mem(), q, at.value))
                && (forall q :: q in journal.outcomes ==> AuditPassed(journal.Mem(), q, at.value))
      ensures StartsNothing(old(journal.Mem()), journal.Mem())
    {
      hide LegalRun, WindowChecked, AuditPassed, MemSafe, StartsNothing, Refusal, OutcomesSound;
      at := None;
      ghost var m0 := journal.Mem();
      NothingStarted(m0, m0, m0);
      if journal.failed {
        return Some(Stopped), at;
      }
      var verified := VerifiedPlans();
      CountUndecided();
      if |journal.byPlan| - |journal.outcomes| == 0 && verified == [] {
        return None, at;
      }
      var clock := Clock();
      if clock.None? {
        return Some(NoClock), at;
      }
      at := clock;
      error := ExpirePlans(clock.value);
      if error.Some? {
        return;
      }
      ghost var m := journal.Mem();
      error := AuditDue(clock.value);
      WindowsStay(m, journal.Mem(), clock.value);
      NothingStarted(m0, m, journal.Mem());
    }

    /** The open count kept by subtraction is the true number of undecided plans. */
    lemma CountUndecided()
      requires Tracked() && !journal.failed
      ensures |journal.byPlan| - |journal.outcomes| == |Undecided(journal.Mem())|
    {
      hide LegalRun, PlansSound, IntentsSound, Exclusive, Contained, CapacityReserved, RateBounded;
      NowSafe();
      OpenCountIsExact(journal.Mem());
    }

    // -------------------------------------------------------------------------------------
    // Decisions
    // -------------------------------------------------------------------------------------

    /** An administrator names an undecided plan by ID, hash and nonce, and asks for a decision there is. */
    ghost predicate Decidable(authority: Authority, p: PlanId, planHash: Digest, nonce: nat, desired: ActionState)
      reads this, journal
    {
      && !journal.failed && authority.Valid() && authority.basis != SystemExpiry && (desired == APPROVED || desired == REJECTED)
      && p in journal.byPlan && journal.byPlan[p].plan.planHash == planHash && journal.byPlan[p].plan.nonce == nonce
      && p !in journal.outcomes
    }

    /**
     Approves or rejects exactly one prepared plan, named by ID, hash and nonce. It succeeds only
     for an administrator, once, and inside both clocks' approval windows, and there nothing but
     the clock, the disk or a record too large for a frame stands in its way; a decision that
     comes too late is recorded as an expiry instead.
     */
    method Decide(authority: Authority, p: PlanId, planHash: Digest, nonce: nat, desired: ActionState)
      returns (r: Result<Frame, ServiceError>, ghost at: Option<Sample>)
      requires Valid()
      modifies this`armed, this`tried, this`states, this`actions, journal
      ensures Valid() && old(states) <= states
      ensures OnlyDecided(old(journal.Mem()), journal.Mem(), p)
      ensures r.Success? ==>
                && at.Some? && p in journal.byPlan && InsideWindow(journal.byPlan[p], at.value)
                && journal.byPlan[p].plan.planHash == planHash && journal.byPlan[p].plan.nonce == nonce
                && authority.Valid() && authority.basis != SystemExpiry
                && p !in old(journal.outcomes) && p in journal.outcomes && journal.outcomes[p].state == desired
                && (desired == APPROVED || desired == REJECTED)
                && journal.log == old(journal.log) + [r.value]
                && r.value.body.ActionBody? && r.value.body.planId == p && r.value.body.state == desired
                && r.value.body.details.DecisionDetails? && r.value.body.details.authority == authority
      ensures r.Success? ==> old(Decidable(authority, p, planHash, nonce, desired))
      ensures old(Decidable(authority, p, planHash, nonce, desired)) && r.Failure? ==>
                match at
                case None => r.error == NoClock
                case Some(sample) =>
                  old(InsideWindow(journal.byPlan[p], sample)) ==> r.error.Journal? && Refusal(env, tried, r.error.cause)
      ensures old(Decidable(authority, p, planHash, nonce, desired)) && at.Some? ==>
                DecidedAs(old(journal.View()), journal.View(), p, authority, at.value, desired, r)
      ensures r.Failure? ==> NotIllegal(env, tried, Some(r.error))
      ensures r == Failure(BadRequest) ==> desired != APPROVED && desired != REJECTED
      ensures r.Failure? && p in journal.outcomes && p !in old(journal.outcomes) ==>
                && journal.outcomes[p].state == EXPIRED_UNAPPLIED && r.error == ApprovalExpired
                && at.Some? && p in journal.byPlan && !InsideWindow(journal.byPlan[p], at.value)
    {
      hide LegalRun, OnlyDecided, InsideWindow, SomeVerified, Refusal, DecidedAs;
      at := None;
      ghost var m := journal.Mem();
      NothingDecided(m, p);
      var found := FindUndecided(authority, p, planHash, nonce, desired);
      if found.Failure? {
        return Failure(found.error), at;
      }
      var clock := Clock();
      if clock.None? {
        return Failure(NoClock), at;
      }
      at := clock;
      r := DecideAt(found.value, authority, clock.value, desired);
      DecidedKeepsVerified(m, journal.Mem(), p);
    }

    /** The plan named by ID, hash and nonce, if the caller may decide it and nobody has. */
    method FindUndecided(authority: Authority, p: PlanId, planHash: Digest, nonce: nat, desired: ActionState)
      returns (r: Result<PreparedState, ServiceError>)
      requires Valid()
      ensures r.Success? <==> Decidable(authority, p, planHash, nonce, desired)
      ensures r.Success? ==> r.value == journal.byPlan[p] && r.value.plan.planId == p
      ensures r.Failure? ==> NotIllegal(env, tried, Some(r.error))
      ensures r == Failure(BadRequest) ==> desired != APPROVED && desired != REJECTED
    {
      hide LegalRun, PlanValid, IntentsSound, OutcomesSound, Exclusive, Contained, CapacityReserved, RateBounded;
      if !authority.Valid() || authority.basis == SystemExpiry {
        return Failure(NotAnAdmin);
      }
      if desired != APPROVED && desired != REJECTED {
        return Failure(BadRequest);
      }
      if journal.failed {
        return Failure(Stopped);
      }
      NowSafe();
      if p !in journal.byPlan {
        return Failure(PlanNotFound);
      }
      var prepared := journal.byPlan[p];
      if prepared.plan.planHash != planHash || prepared.plan.nonce != nonce {
        return Failure(ApprovalMismatch);
      }
      if p in journal.outcomes {
        return Failure(if journal.outcomes[p].state == EXPIRED_UNAPPLIED then ApprovalExpired else AlreadyDecided);
      }
      return Success(prepared);
    }

    /** Decides an undecided plan at one clock sample: as desired inside the window, as expired behind it. */
    method DecideAt(prepared: PreparedState, authority: Authority, sample: Sample, desired: ActionState)
      returns (r: Result<Frame, ServiceError>)
      requires Tracked() && !journal.failed && sample.Valid() && authority.Valid() && authority.basis != SystemExpiry
      requires desired == APPROVED || desired == REJECTED
      requires prepared.plan.planId in journal.byPlan && journal.byPlan[prepared.plan.planId] == prepared
      requires prepared.plan.planId !in journal.outcomes
      modifies this`armed, this`tried, this`states, this`actions, journal
      ensures Tracked() && old(states) <= states
      ensures OnlyDecided(old(journal.Mem()), journal.Mem(), prepared.plan.planId) && journal.byPlan == old(journal.byPlan)
      ensures r.Success? ==>
                && InsideWindow(prepared, sample)
                && prepared.plan.planId in journal.outcomes && journal.outcomes[prepared.plan.planId].state == desired
                && journal.log == old(journal.log) + [r.value]
                && r.value.body.ActionBody? && r.value.body.planId == prepared.plan.planId && r.value.body.state == desired
                && r.value.body.details.DecisionDetails? && r.value.body.details.authority == authority
      ensures r.Failure? && InsideWindow(prepared, sample) ==> r.error.Journal?
      ensures DecidedAs(old(journal.View()), journal.View(), prepared.plan.planId, authority, sample, desired, r)
      ensures r.Failure? ==> NotIllegal(env, tried, Some(r.error)) && r.error != BadRequest
      ensures r.Failure? && prepared.plan.planId in journal.outcomes ==>
                && journal.outcomes[prepared.plan.planId].state == EXPIRED_UNAPPLIED && r.error == ApprovalExpired
                && !InsideWindow(prepared, sample)
    {
      hide LegalRun, OnlyDecided, Moved, ExpiryBasis, InsideWindow, Late, LateBasis, DecisionReason, Refusal, DecidedAs;
      ghost var m, s := journal.Mem(), journal.View();
      NothingDecided(m, prepared.plan.planId);
      ExpiryIsExact(prepared, sample);
      ReasonsFor(prepared, sample);
      RulingHasReason(prepared, sample, desired);
      var expiry := ExpiryBasis(prepared, sample);
      if expiry.ClockError? {
        NothingRuled(s, prepared.plan.planId, authority, sample, desired);
        return Failure(ApprovalClock);
      }
      var state, basis := desired, if desired == REJECTED then LocalAdminRejection else LocalAdminApproval;
      if expiry.Due? {
        state, basis := EXPIRED_UNAPPLIED, expiry.basis;
      }
      var reason := DecisionReason(state, basis).value;
      var written := AppendDecision(prepared, authority, sample, state, reason, basis);
      if written.Failure? {
        NothingWritten(s, journal.View(), prepared.plan.planId, authority, sample, desired, written.error);
        return Failure(Journal(written.error));
      }
      MovedOnlyDecides(m, prepared.plan.planId, state, sample.wall, written.value.sha);
      DecidedKeepsPlans(m, journal.Mem(), prepared.plan.planId);
      r := if state == EXPIRED_UNAPPLIED then Failure(ApprovalExpired) else Success(written.value);
      RulingIsRecorded(s, journal.View(), prepared.plan.planId, authority, sample, desired, state, reason, basis, r);
    }

    // -------------------------------------------------------------------------------------
    // Preparation
    // -------------------------------------------------------------------------------------

    /** Sets the kill switch by hand. If the setting cannot be stored, the switch is on, whatever was asked. */
    method SetManualKillSwitch(enabled: bool) returns (stored: bool)
      requires Valid()
      modifies this`manualKillSwitch, this`manualKillSwitchExact
      ensures Valid() && (manualKillSwitch <==> enabled || !stored) && (manualKillSwitchExact <==> stored)
      ensures !enabled && !stored ==> Blocked()
      ensures old(Blocked() && !manualKillSwitch) ==> Blocked()
    {
      hide LegalRun, SomeVerified, MutationLocked;
      if manualKillSwitch == enabled && manualKillSwitchExact {
        return true;
      }
      stored := *;
      manualKillSwitch, manualKillSwitchExact := enabled || !stored, stored;
    }

    /** The checks that stop a new intent before a token is spent on it, in their order. */
    method AdmitIntent(intentId: IntentId, intentSha: Digest) returns (r: Result<Sample, ServiceError>, ghost at: Option<Sample>)
      requires !MutationLocked(journal.Mem()) && intentId !in journal.byIntent
      ensures r == if intentId in journal.reservations && journal.reservations[intentId].intentSha != intentSha
                   then Failure(Equivocation)
                   else if at.None? then Failure(NoClock)
                   else if !RateAllowed(journal.rateHistory, at.value.wall) then Failure(RateRefused)
                   else if |PendingAt(journal.Mem(), at.value.wall)| >= 32 then Failure(TooManyPending)
                   else Success(at.value)
      ensures r.Success? ==> r.value.Valid() && ReservationGuard(journal.Mem(), intentId, r.value.wall)
    {
      at := None;
      if intentId in journal.reservations && journal.reservations[intentId].intentSha != intentSha {
        return Failure(Equivocation), at;
      }
      var clock := Clock();
      at := clock;
      if clock.None? {
        return Failure(NoClock), at;
      }
      var refused := journal.CheckRate(clock.value.wall);
      if refused.Some? {
        return Failure(RateRefused), at;
      }
      var pending := journal.CountPending(clock.value.wall);
      if pending >= MAX_PENDING_PLANS {
        return Failure(TooManyPending), at;
      }
      return Success(clock.value), at;
    }

    /** New mutations are blocked: by hand, by an uncertain audit, by an unsettled or dirty plan, or by the journal. */
    ghost predicate Blocked()
      reads this, journal
    {
      journal.failed || manualKillSwitch || auditUncertain || MutationLocked(journal.Mem())
    }

    /**
     Prepares a plan for an intent, at most once per intent: asking again with the same intent
     returns the first plan and writes nothing, asking with another intent under the same ID is
     refused. A new plan costs exactly two frames, the reservation and the plan itself. A full
     journal turns it away at its reservation, before anything is written, and at no later point.
     That the drawn plan ID is new is not checked; if it is not, success is a journal no restart
     can read.
     */
    method Prepare(intent: Intent, nonce: nat) returns (r: Result<Plan, ServiceError>, ghost at: Option<Sample>)
      requires Valid()
      modifies this`armed, this`tried, this`states, this`actions, journal
      ensures old(states) <= states && (Valid() || (old(env.planIdOf(intent.intentId, nonce) in journal.byPlan) && Doomed()))
      ensures (&& r.Success? && intent.intentId !in old(journal.byIntent)
               && env.planIdOf(intent.intentId, nonce) in old(journal.byPlan)) ==> Replay(env, journal.log) == None
      ensures journal.outcomes == old(journal.outcomes) && journal.attempts == old(journal.attempts)
      ensures old(Blocked()) || old(intent.intentId in journal.byIntent) ==> unchanged(journal)
      ensures old(Blocked()) ==> r.Failure?
      ensures !old(Blocked()) && old(intent.intentId in journal.byIntent) ==>
                r == if old(journal.byIntent[intent.intentId].intentSha) == env.intentHash(intent)
                     then Success(old(journal.byIntent[intent.intentId].plan)) else Failure(Equivocation)
      ensures r.Failure? ==> journal.byIntent == old(journal.byIntent) && journal.byPlan == old(journal.byPlan)
      ensures r.Failure? && r.error.Journal? ==>
                || Refusal(env, tried, r.error.cause) || r.error.cause == ClockBackwards
                || (r.error.cause == PendingLimit && journal.log == old(journal.log))
      ensures r.Success? && intent.intentId !in old(journal.byIntent) ==>
                && intent.intentId in journal.byIntent && journal.byIntent[intent.intentId].plan == r.value
                && journal.byIntent[intent.intentId].intentSha == env.intentHash(intent)
                && r.value.intent == intent && PlanValid(env, r.value)
                && journal.byIntent == old(journal.byIntent)[intent.intentId := journal.byIntent[intent.intentId]]
                && journal.byPlan == old(journal.byPlan)[r.value.planId := journal.byIntent[intent.intentId]]
                && at.Some? && r.value.bootId == at.value.bootId && r.value.preparedAt == at.value.wall
                && r.value.expiresAt == at.value.wall + 300_000_000_000
                && journal.byIntent[intent.intentId].deadline == at.value.bootTime + 300_000_000_000
                && |journal.rateHistory| == |old(journal.rateHistory)| + 1
                && |journal.log| == |old(journal.log)| + 2 && old(journal.log) <= journal.log
    {
      hide LegalRun, MutationLocked, SomeVerified, Replay, RoomForPlan, PlanValid, ReservationGuard, Refusal;
      at := None;
      if journal.failed {
        return Failure(Stopped), at;
      }
      var locked := journal.IsMutationLocked();
      if manualKillSwitch || auditUncertain || locked {
        return Failure(KillSwitch), at;
      }
      var intentSha := env.intentHash(intent);
      if intent.intentId in journal.byIntent {
        var existing := journal.byIntent[intent.intentId];
        return if existing.intentSha == intentSha then Success(existing.plan) else Failure(Equivocation), at;
      }
      var admitted;
      ghost var admittedAt;
      admitted, admittedAt := AdmitIntent(intent.intentId, intentSha);
      if admitted.Failure? {
        return Failure(admitted.error), at;
      }
      var reserved := ReserveIntent(intent.intentId, intentSha, admitted.value.wall);
      if reserved.Failure? {
        return Failure(Journal(reserved.error)), at;
      }
      var built;
      ghost var facts;
      built, facts, at := BuildPreparedPlan(env, intent, nonce);
      if built.Failure? {
        return Failure(built.error), at;
      }
      var planned := AppendPrepared(built.value.plan, intentSha, built.value.deadline);
      if planned.Failure? {
        return Failure(Journal(planned.error)), at;
      }
      return Success(built.value.plan), at;
    }

    // -------------------------------------------------------------------------------------
    // Applying
    // -------------------------------------------------------------------------------------

    /** Ends a plan at the given sample; no evidence is attached. */
    method AppendEnd(prepared: PreparedState, sample: Sample, state: ActionState, reason: Reason, basis: Basis)
      returns (r: Result<Frame, ServiceError>)
      requires Tracked() && state != APPLIED
      requires prepared.plan.planId in journal.byPlan && journal.byPlan[prepared.plan.planId] == prepared
      requires prepared.plan.planId in journal.outcomes
      modifies this`armed, this`tried, this`states, this`actions, journal
      ensures Tracked() && old(states) <= states && old(journal.log) <= journal.log
      ensures OnlyMoved(old(journal.Mem()), journal.Mem(), prepared.plan.planId)
      ensures prepared.plan.planId in journal.outcomes
      ensures r.Success? ==>
                && !journal.failed && |journal.log| == |old(journal.log)| + 1
                && journal.outcomes[prepared.plan.planId].state == state
                && LastMove(journal.log, prepared.plan.planId, state, reason, basis, sample)
      ensures r.Failure? ==> journal.Mem() == old(journal.Mem()) && r.error.Journal?
      ensures r.Failure? && !old(journal.failed)
              && old(LegalMove(journal.Mem(), prepared, sample, state, reason, basis, NoExtra)) ==>
                Refusal(env, tried, r.error.cause)
    {
      hide LegalRun, LegalMove, OnlyMoved, Moved, Refusal, LastMove, LifecycleBody;
      ghost var m := journal.Mem();
      NothingMoved(m, prepared.plan.planId);
      var w := AppendLifecycle(prepared, sample, state, reason, basis, NoExtra);
      if w.Failure? {
        return Failure(Journal(w.error));
      }
      MovedOnlyMoves(m, prepared.plan.planId, state, NoExtra, sample.wall, w.value.sha);
      LifecycleIsLastMove(old(journal.log), w.value, m, prepared, sample, state, reason, basis, NoExtra);
      return Success(w.value);
    }

    /** Ends a plan at a given or a fresh sample, and says whether the record was written. */
    method AppendTerminal(prepared: PreparedState, at: Option<Sample>, state: ActionState, reason: Reason, basis: Basis)
      returns (error: Option<ServiceError>, ghost taken: Option<Sample>)
      requires Tracked() && !journal.failed && state != APPLIED && (at.Some? ==> at.value.Valid())
      requires prepared.plan.planId in journal.byPlan && journal.byPlan[prepared.plan.planId] == prepared
      requires MayEnd(journal.Mem(), prepared.plan.planId, state, reason, basis)
      modifies this`armed, this`tried, this`states, this`actions, journal
      ensures Tracked() && old(states) <= states && old(journal.log) <= journal.log
      ensures OnlyMoved(old(journal.Mem()), journal.Mem(), prepared.plan.planId)
      ensures prepared.plan.planId in journal.outcomes
      ensures error.None? ==>
                && !journal.failed && |journal.log| == |old(journal.log)| + 1
                && journal.outcomes[prepared.plan.planId].state == state
      ensures error.Some? ==> journal.Mem() == old(journal.Mem())
      ensures NotIllegal(env, tried, error) && (at.Some? ==> taken == at)
      ensures if taken.None? then error == Some(NoClock) else error.None? || error.value.Journal?
      ensures error.None? ==> LastMove(journal.log, prepared.plan.planId, state, reason, basis, taken.value)
    {
      hide LegalRun, LegalMove, OnlyMoved, LifecycleReasonAllowed, LifecycleTransitionAllowed, Refusal, LastMove;
      NothingMoved(journal.Mem(), prepared.plan.planId);
      var sample := at;
      if at.None? {
        sample := Clock();
        if sample.None? {
          return Some(NoClock), sample;
        }
      }
      EndIsLegal(journal.Mem(), prepared, sample.value, state, reason, basis);
      var r := AppendEnd(prepared, sample.value, state, reason, basis);
      return if r.Failure? then Some(r.error) else None, sample;
    }

    /** The kernel batch leaves for the kernel. */
    ghost method Flush(p: PlanId)
      requires Tracked() && armed == Some(p)
      modifies this`armed, this`flushed, this`states, this`actions
      ensures Tracked() && old(states) <= states && flushed == old(flushed) + [p]
    {
      var after := Now().(armed := None, flushed := flushed + [p]);
      RunExtends(env, states, actions, Action.Flush(p), after);
      armed, flushed := None, flushed + [p];
      states, actions := states + [after], actions + [Action.Flush(p)];
    }

    /** The batch was not sent: the plan ends as proved absent, or stays under way if that cannot be recorded. */
    method EndAbsent(prepared: PreparedState, text: string, sample: Option<Sample>)
      returns (error: ServiceError, ghost refusal: Option<JournalError>)
      requires Tracked() && !journal.failed && text != "" && (sample.Some? ==> sample.value.Valid())
      requires prepared.plan.planId in journal.byPlan && journal.byPlan[prepared.plan.planId] == prepared
      requires prepared.plan.planId in journal.outcomes && journal.outcomes[prepared.plan.planId].state == APPROVED
      requires prepared.plan.planId in journal.attempts
      modifies this`armed, this`tried, this`states, this`actions, journal
      ensures Tracked() && old(states) <= states && old(journal.log) <= journal.log
      ensures OnlyMoved(old(journal.Mem()), journal.Mem(), prepared.plan.planId)
      ensures Unsafe(journal.Mem(), prepared.plan.planId) && NotIllegal(env, tried, Some(error))
      ensures error == if sample.None? then NoClock else if refusal.Some? then Journal(refusal.value) else NotApplied
      ensures if sample.Some? && refusal.None?
              then && journal.outcomes[prepared.plan.planId].state == REJECTED
                   && LastMove(journal.log, prepared.plan.planId, REJECTED, NftApplyProvenAbsent, FreeText(text), sample.value)
              else journal.Mem() == old(journal.Mem())
      ensures refusal.Some? ==> Refusal(env, tried, refusal.value)
      ensures error !in {TargetStale, IntentRejected, ForeignCollision}
    {
      hide LegalRun, OnlyMoved, LastMove, Refusal;
      NothingMoved(journal.Mem(), prepared.plan.planId);
      if sample.None? {
        return NoClock, None;
      }
      var e;
      ghost var taken;
      e, taken := AppendTerminal(prepared, sample, REJECTED, NftApplyProvenAbsent, FreeText(text));
      return if e.Some? then e.value else NotApplied, if e.Some? then Some(e.value.cause) else None;
    }

    /** How an attempt whose batch was not sent ends. */
    method EndUnsent(prepared: PreparedState, told: ApplyFacts, text: string) returns (e: ServiceError, ghost facts: ApplyFacts)
      requires Tracked() && !journal.failed && text != "" && ClocksValid(told) && NeverSent(told)
      requires prepared.plan.planId in journal.byPlan && journal.byPlan[prepared.plan.planId] == prepared
      requires prepared.plan.planId in journal.outcomes && journal.outcomes[prepared.plan.planId].state == APPROVED
      requires prepared.plan.planId in journal.attempts
      modifies this`armed, this`tried, this`states, this`actions, journal
      ensures Tracked() && old(states) <= states && old(journal.log) <= journal.log
      ensures OnlyMoved(old(journal.Mem()), journal.Mem(), prepared.plan.planId)
      ensures facts == told.(refusal := facts.refusal) && FairlyRefused(env, tried, prepared.plan, facts)
      ensures AttemptEnds(journal.Mem(), prepared.plan.planId, facts, Failure(e)) && NotIllegal(env, tried, Some(e))
      ensures e == NotApplied ==> LastMove(journal.log, prepared.plan.planId, REJECTED, NftApplyProvenAbsent, FreeText(text),
                                           told.closed.value)
    {
      hide LegalRun, OnlyMoved, Refusal, LastMove, AttemptEnds, FairlyRefused, Unsafe;
      ghost var m := journal.Mem();
      ghost var refusal;
      e, refusal := EndAbsent(prepared, text, told.closed);
      facts := told.(refusal := refusal);
      MovedKeepsPlans(m, journal.Mem(), prepared.plan.planId);
      NeverSentEnds(env, tried, journal.Mem(), prepared.plan.planId, facts, e);
    }

    /** What the batch did is not known: the plan is marked dirty, or stays under way if that cannot be recorded. */
    method FailDirtyAfterAttempt(prepared: PreparedState, text: string, sample: Option<Sample>)
      returns (ghost refusal: Option<JournalError>)
      requires Tracked() && !journal.failed && text != "" && (sample.Some? ==> sample.value.Valid())
      requires prepared.plan.planId in journal.byPlan && journal.byPlan[prepared.plan.planId] == prepared
      requires prepared.plan.planId in journal.outcomes && journal.outcomes[prepared.plan.planId].state == APPROVED
      requires prepared.plan.planId in journal.attempts
      modifies this`armed, this`tried, this`states, this`actions, journal
      ensures Tracked() && old(states) <= states && old(journal.log) <= journal.log
      ensures OnlyMoved(old(journal.Mem()), journal.Mem(), prepared.plan.planId)
      ensures if sample.Some? && refusal.None?
              then && Dirty(journal.Mem(), prepared.plan.planId)
                   && LastMove(journal.log, prepared.plan.planId, FAILED_DIRTY, NftResultUncertain, FreeText(text), sample.value)
              else journal.Mem() == old(journal.Mem())
      ensures refusal.Some? ==> Rebooted(prepared.plan, sample) || Refusal(env, tried, refusal.value)
    {
      hide LegalRun, OnlyMoved, LegalMove, Refusal, LastMove;
      refusal := None;
      NothingMoved(journal.Mem(), prepared.plan.planId);
      if sample.Some? {
        if sample.value.bootId == prepared.plan.bootId {
          UnderWayMayFail(journal.Mem(), prepared, sample.value, text);
        }
        var end := AppendEnd(prepared, sample.value, FAILED_DIRTY, NftResultUncertain, FreeText(text));
        refusal := if end.Failure? then Some(end.error.cause) else None;
      }
    }

    /** From the recorded attempt to the proof: flush once, read back, record what is certain. */
    method ApplyAttempted(prepared: PreparedState, ruleset: Digest)
      returns (r: Result<PlanId, ServiceError>, ghost facts: ApplyFacts)
      requires Tracked() && !journal.failed && PlanValid(env, prepared.plan) && armed == Some(prepared.plan.planId)
      requires prepared.plan.planId in journal.byPlan && journal.byPlan[prepared.plan.planId] == prepared
      requires prepared.plan.planId in journal.outcomes && journal.outcomes[prepared.plan.planId].state == APPROVED
      requires prepared.plan.planId in journal.attempts
      requires journal.attempts[prepared.plan.planId].expectedRuleset == ruleset
      modifies this`armed, this`tried, this`flushed, this`states, this`actions, journal
      ensures Tracked() && old(states) <= states && old(journal.log) <= journal.log
      ensures OnlyMoved(old(journal.Mem()), journal.Mem(), prepared.plan.planId)
      ensures flushed == if Released(facts) then old(flushed) + [prepared.plan.planId] else old(flushed)
      ensures AttemptEnds(journal.Mem(), prepared.plan.planId, facts, r) && FairlyRefused(env, tried, prepared.plan, facts)
      ensures r.Success? ==>
                && !journal.failed && |journal.log| == |old(journal.log)| + 2 && r.value == prepared.plan.planId
                && prepared.plan.planId in journal.outcomes && journal.outcomes[prepared.plan.planId].state == VERIFIED
      ensures r.Failure? ==> Unsafe(journal.Mem(), prepared.plan.planId) && NotIllegal(env, tried, Some(r.error))
      ensures r == Failure(NotApplied) ==> journal.outcomes[prepared.plan.planId].state == REJECTED
      ensures r.Failure? ==> r.error !in {TargetStale, IntentRejected, ForeignCollision}
    {
      hide LegalRun, OnlyMoved, AppliedObservationOk, PlanValid, Refusal, LastMove, AttemptEnds, FairlyRefused, Unsafe,
           NotIllegal, ClocksValid;
      var p := prepared.plan.planId;
      var told := AskKernel();
      if !told.inTime || !told.sameTarget {
        var e;
        e, facts := EndUnsent(prepared, told,
                              if told.inTime then "pre_flush_target_changed" else "pre_flush_deadline_elapsed");
        r := Failure(e);
      } else {
        Flush(p);
        r, facts := AfterFlush(prepared, ruleset, told);
      }
      EndsSafely(journal.Mem(), p, facts, r);
    }

    /** What the kernel reported about a batch that was released. */
    method AfterFlush(prepared: PreparedState, ruleset: Digest, told: ApplyFacts)
      returns (r: Result<PlanId, ServiceError>, ghost facts: ApplyFacts)
      requires Tracked() && !journal.failed && PlanValid(env, prepared.plan) && Released(told) && ClocksValid(told)
      requires prepared.plan.planId in journal.byPlan && journal.byPlan[prepared.plan.planId] == prepared
      requires prepared.plan.planId in journal.outcomes && journal.outcomes[prepared.plan.planId].state == APPROVED
      requires prepared.plan.planId in journal.attempts
      requires journal.attempts[prepared.plan.planId].expectedRuleset == ruleset
      modifies this`armed, this`tried, this`states, this`actions, journal
      ensures Tracked() && old(states) <= states && old(journal.log) <= journal.log
      ensures OnlyMoved(old(journal.Mem()), journal.Mem(), prepared.plan.planId)
      ensures facts == told.(refusal := facts.refusal) && FairlyRefused(env, tried, prepared.plan, facts)
      ensures AttemptEnds(journal.Mem(), prepared.plan.planId, facts, r)
      ensures r.Success? ==> !journal.failed && |journal.log| == |old(journal.log)| + 2 && r.value == prepared.plan.planId
      ensures r.Failure? ==> NotIllegal(env, tried, Some(r.error))
    {
      hide LegalRun, OnlyMoved, AppliedObservationOk, PlanValid, Refusal, LastMove, Proven, AttemptEnds;
      var p := prepared.plan.planId;
      ghost var m := journal.Mem();
      ghost var refusal;
      var report := told.report;
      if report.NotSent? {
        var e;
        e, facts := EndUnsent(prepared, told, "flush_not_sent");
        return Failure(e), facts;
      }
      if !report.Observed? || !AppliedObservationOk(prepared.plan, report.observation)
         || report.observation.ruleset != ruleset || !told.rechecked || !told.hostUnchanged {
        refusal := FailDirtyAfterAttempt(prepared, "apply_or_readback_ambiguous", told.closed);
        facts := told.(refusal := refusal);
        MovedKeepsPlans(m, journal.Mem(), p);
        UncertainEnds(journal.Mem(), p, facts);
        return Failure(MutationUncertain), facts;
      }
      r, refusal := RecordProof(prepared, told);
      MovedKeepsPlans(m, journal.Mem(), p);
      facts := told.(refusal := refusal);
      ExactEnds(journal.Mem(), p, facts, r);
    }

    /** Records an exact readback as applied and verified, at the sample taken after it. */
    method RecordProof(prepared: PreparedState, told: ApplyFacts)
      returns (r: Result<PlanId, ServiceError>, ghost refusal: Option<JournalError>)
      requires Tracked() && !journal.failed && PlanValid(env, prepared.plan) && ClocksValid(told)
      requires prepared.plan.planId in journal.byPlan && journal.byPlan[prepared.plan.planId] == prepared
      requires prepared.plan.planId in journal.outcomes && journal.outcomes[prepared.plan.planId].state == APPROVED
      requires prepared.plan.planId in journal.attempts
      requires told.report.Observed? && AppliedObservationOk(prepared.plan, told.report.observation)
      requires told.report.observation.ruleset == journal.attempts[prepared.plan.planId].expectedRuleset
      modifies this`armed, this`tried, this`states, this`actions, journal
      ensures Tracked() && old(states) <= states && old(journal.log) <= journal.log
      ensures OnlyMoved(old(journal.Mem()), journal.Mem(), prepared.plan.planId)
      ensures prepared.plan.planId in journal.outcomes && FairlyRefused(env, tried, prepared.plan, told.(refusal := refusal))
      ensures r.Failure? ==> r.error == MutationUncertain
      ensures prepared.plan.planId in journal.byPlan && journal.byPlan[prepared.plan.planId] == prepared
      ensures if Overflows(told) then
                && r.Failure?
                && journal.outcomes[prepared.plan.planId].state ==
                     if Closed(told.(refusal := refusal)) then FAILED_DIRTY else APPROVED
              else ProofEnds(journal.Mem(), prepared.plan.planId, told.(refusal := refusal), r)
      ensures r.Success? ==> !journal.failed && |journal.log| == |old(journal.log)| + 2 && r.value == prepared.plan.planId
    {
      hide LegalRun, OnlyMoved, LastMove, AuditDeadline, AppliedObservationOk, PlanValid, Refusal, ProofEnds, Timely, Proven;
      var p, observation := prepared.plan.planId, told.report.observation;
      ghost var m := journal.Mem();
      NothingMoved(m, p);
      refusal := None;
      if told.applied.None? {
        ProofMissing(m, p, told.(refusal := None));
        return Failure(MutationUncertain), None;
      }
      var deadline := AuditDeadline(told.applied.value.bootTime, observation.remainingMs);
      ObservationIsShort(env, prepared.plan, observation);
      AuditDeadlineIsExact(told.applied.value.bootTime, observation.remainingMs);
      if deadline.None? {
        refusal := FailDirtyAfterAttempt(prepared, "expiry_deadline_overflow", told.closed);
        MovedKeepsPlans(m, journal.Mem(), p);
        return Failure(MutationUncertain), refusal;
      }
      var error := RecordExact(prepared, told.applied.value, told.verified, observation, deadline.value);
      MovedKeepsPlans(m, journal.Mem(), p);
      if error.Some? {
        refusal := if error.value.Journal? then Some(error.value.cause) else None;
        ProofMissing(journal.Mem(), p, told.(refusal := refusal));
        return Failure(MutationUncertain), refusal;
      }
      ProofMade(journal.Mem(), p, told.(refusal := None));
      return Success(p), None;
    }

    /** The two records of an exact readback: the observation, and then its audit deadline. */
    method RecordExact(prepared: PreparedState, applied: Sample, verified: Option<Sample>, observation: Observation,
                       deadline: nat)
      returns (error: Option<ServiceError>)
      requires Tracked() && !journal.failed && deadline <= MAX_U64
      requires applied.Valid() && (verified.Some? ==> verified.value.Valid())
      requires prepared.plan.planId in journal.byPlan && journal.byPlan[prepared.plan.planId] == prepared
      requires prepared.plan.planId in journal.outcomes && journal.outcomes[prepared.plan.planId].state == APPROVED
      requires prepared.plan.planId in journal.attempts
      requires AppliedObservationOk(prepared.plan, observation)
      requires observation.ruleset == journal.attempts[prepared.plan.planId].expectedRuleset
      modifies this`armed, this`tried, this`states, this`actions, journal
      ensures Tracked() && old(states) <= states && old(journal.log) <= journal.log
      ensures OnlyMoved(old(journal.Mem()), journal.Mem(), prepared.plan.planId) && prepared.plan.planId in journal.outcomes
      ensures error.None? ==>
                && !journal.failed && |journal.log| == |old(journal.log)| + 2 && Timely(prepared.plan, verified, deadline)
                && journal.outcomes[prepared.plan.planId].state == VERIFIED
                && journal.verified == old(journal.verified)[prepared.plan.planId := deadline]
                && journal.applied == old(journal.applied)[prepared.plan.planId := observation]
      ensures error == Some(MutationUncertain) ==>
                journal.outcomes[prepared.plan.planId].state == APPLIED && !Timely(prepared.plan, verified, deadline)
      ensures error.Some? && error.value != MutationUncertain ==>
                && error.value.Journal? && journal.outcomes[prepared.plan.planId].state in {APPROVED, APPLIED}
                && (Refusal(env, tried, error.value.cause) || applied.bootId != prepared.plan.bootId)
    {
      hide LegalRun, OnlyMoved, AppliedObservationOk, Refusal, Timely;
      var p := prepared.plan.planId;
      ghost var m := journal.Mem();
      NothingMoved(m, p);
      error := AppendApplied(prepared, applied, observation);
      if error.Some? {
        return;
      }
      ghost var m' := journal.Mem();
      MovedKeepsPlans(m, m', p);
      error := AppendVerified(prepared, deadline, verified);
      if error.None? {
        OnlyMovedTwice(m, m', journal.Mem(), p);
      }
    }

    /**
     Applies the approved plan that comes first in apply order, if mutations are not blocked; see
     ApplyResult for what that may come to. Blocked or without a ready plan, nothing happens.
     */
    method ApplyNext()
      returns (r: Result<PlanId, ServiceError>, ghost chosen: Option<PlanId>, ghost facts: Option<ApplyFacts>)
      requires Valid()
      modifies this`armed, this`tried, this`flushed, this`states, this`actions, journal
      ensures Valid() && old(states) <= states && (r.Failure? ==> NotIllegal(env, tried, Some(r.error)))
      ensures old(Blocked()) || chosen.None? ==> r.Failure? && unchanged(journal) && flushed == old(flushed)
      ensures !old(Blocked()) && chosen.None? ==> forall q :: !ReadyToApply(journal.Mem(), q)
      ensures chosen.Some? ==>
                && !old(Blocked()) && old(ReadyToApply(journal.Mem(), chosen.value))
                && ApplyResult(env, tried, old(journal.View()), old(flushed), chosen.value, journal.View(), flushed, facts, r)
                && chosen.value in journal.byPlan
                && (forall q :: old(ReadyToApply(journal.Mem(), q)) ==>
                      q in journal.byPlan && AppliesBefore(journal.byPlan[chosen.value], journal.byPlan[q]))
      ensures r.Failure? && flushed != old(flushed) ==>
                && chosen.Some? && chosen.value in journal.outcomes
                && (journal.outcomes[chosen.value].state == REJECTED || MutationLocked(journal.Mem()))
    {
      hide LegalRun, ApplyResult, OnlyTouched, SomeVerified, MutationLocked, AppliesBefore, PlanValid, OutcomesSound, PlansSound,
           IntentsSound, Exclusive, Contained, CapacityReserved, RateBounded, Refusal;
      chosen, facts := None, None;
      if journal.failed {
        return Failure(Stopped), None, None;
      }
      var locked := journal.IsMutationLocked();
      if manualKillSwitch || auditUncertain || locked {
        return Failure(KillSwitch), None, None;
      }
      NowSafe();
      var next := journal.NextApprovedPlan();
      if next.None? {
        return Failure(NothingApproved), None, None;
      }
      var p := next.value.plan.planId;
      chosen := Some(p);
      ReadyFacts(env, journal.Mem());
      ghost var s, f := journal.View(), flushed;
      r, facts := ApplyOne(next.value);
      ResultTouches(env, tried, s, f, p, journal.View(), flushed, facts, r);
      TouchingApprovedKeepsVerified(s.mem, journal.Mem(), p);
    }

    /** One chosen plan, from the containment limit to its end. */
    method ApplyOne(prepared: PreparedState) returns (r: Result<PlanId, ServiceError>, ghost facts: Option<ApplyFacts>)
      requires Tracked() && !journal.failed && PlanValid(env, prepared.plan) && !MutationLocked(journal.Mem())
      requires journal.outcomes.Keys <= journal.byPlan.Keys
      requires prepared.plan.planId in journal.byPlan && journal.byPlan[prepared.plan.planId] == prepared
      requires ReadyToApply(journal.Mem(), prepared.plan.planId)
      modifies this`armed, this`tried, this`flushed, this`states, this`actions, journal
      ensures Tracked() && old(states) <= states
      ensures ApplyResult(env, tried, old(journal.View()), old(flushed), prepared.plan.planId, journal.View(), flushed, facts, r)
      ensures !old(ContainmentAllowed(journal.Mem(), prepared.plan)) ==> facts.None? && r.Failure?
    {
      hide LegalRun, OnlyMoved, ApplyResult, MutationLocked, ContainmentAllowed, ExpiryBasis, PlanValid, LifecycleReasonAllowed;
      var p := prepared.plan.planId;
      facts := None;
      ghost var s := journal.View();
      var allowed := journal.ActiveContainmentAllowed(prepared);
      if !allowed {
        PreflightReason("active_containment_limit");
        r := Abort(prepared, None, REJECTED, NftPreflightRejected, FreeText("active_containment_limit"), Some(IntentRejected));
        return;
      }
      var preflight;
      ghost var checks;
      preflight, checks := CheckBeforeMutation(prepared);
      match preflight {
        case GiveUp(error) =>
          GaveUp(env, tried, s, flushed, p, s, error);
          return Failure(error), None;
        case Abort(at, state, reason, basis, cause) =>
          r := Abort(prepared, at, state, reason, basis, cause);
        case Clear(sample, ruleset) =>
          r, facts := Attempt(prepared, sample, ruleset);
      }
    }

    /** Ends a ready plan before its attempt. Without a cause the call counts as a success. */
    method Abort(prepared: PreparedState, at: Option<Sample>, state: ActionState, reason: Reason, basis: Basis,
                 cause: Option<ServiceError>) returns (r: Result<PlanId, ServiceError>)
      requires Tracked() && !journal.failed && ReadyToApply(journal.Mem(), prepared.plan.planId)
      requires prepared.plan.planId in journal.byPlan && journal.byPlan[prepared.plan.planId] == prepared
      requires (state == STALE_ABORT || state == REJECTED) && LifecycleReasonAllowed(state, reason, basis)
      requires at.Some? ==> at.value.Valid()
      requires AbortFits(journal.Mem(), prepared.plan, state, cause)
      modifies this`armed, this`tried, this`states, this`actions, journal
      ensures Tracked() && old(states) <= states
      ensures ApplyResult(env, tried, old(journal.View()), flushed, prepared.plan.planId, journal.View(), flushed, None, r)
      ensures cause.Some? ==> r.Failure?
    {
      hide LegalRun, OnlyMoved, ApplyResult, LifecycleReasonAllowed, Refusal, AbortFits, ContainmentAllowed;
      var p := prepared.plan.planId;
      ghost var s := journal.View();
      AbortCauses(s.mem, prepared.plan, state, cause);
      var e;
      ghost var taken;
      e, taken := AppendTerminal(prepared, at, state, reason, basis);
      if e.Some? {
        GaveUp(env, tried, s, flushed, p, journal.View(), e.value);
        return Failure(e.value);
      }
      r := if cause.Some? then Failure(cause.value) else Success(p);
      Ended(env, tried, s, flushed, p, journal.View(), r);
    }

    /** Records the attempt, and only then lets the batch go. */
    method Attempt(prepared: PreparedState, sample: Sample, ruleset: Digest)
      returns (r: Result<PlanId, ServiceError>, ghost facts: Option<ApplyFacts>)
      requires Tracked() && !journal.failed && PlanValid(env, prepared.plan)
      requires prepared.plan.planId in journal.byPlan && journal.byPlan[prepared.plan.planId] == prepared
      requires ReadyToApply(journal.Mem(), prepared.plan.planId) && AttemptGuard(journal.Mem(), prepared, sample)
      requires sample.Valid() && sample.bootId == prepared.plan.bootId
      modifies this`armed, this`tried, this`flushed, this`states, this`actions, journal
      ensures Tracked() && old(states) <= states
      ensures ApplyResult(env, tried, old(journal.View()), old(flushed), prepared.plan.planId, journal.View(), flushed, facts, r)
    {
      hide LegalRun, OnlyMoved, OnlyTouched, AttemptEnds, AttemptGuard, PlanValid, Attempted, Unsafe;
      var p := prepared.plan.planId;
      ghost var s := journal.View();
      var attempt := AppendApplyAttempt(prepared, sample, ruleset);
      if attempt.Failure? {
        GaveUp(env, tried, s, flushed, p, journal.View(), Journal(attempt.error));
        return Failure(Journal(attempt.error)), None;
      }
      ghost var m', started := journal.Mem(), AttemptState(attempt.value.sha, sample.wall, sample.bootId, sample.bootTime,
                                                          prepared.plan.netns, ruleset);
      AttemptedFields(s.mem, p, started);
      ghost var told;
      r, told := ApplyAttempted(prepared, ruleset);
      facts := Some(told);
      AttemptThenMove(s.mem, m', journal.Mem(), p, started);
    }

    // -------------------------------------------------------------------------------------
    // Restart
    // -------------------------------------------------------------------------------------

    /**
     A crash at any moment, then a new daemon on the same journal. The journal always opens, to
     exactly the tables its frames rebuild to; what was staged in memory is gone.
     */
    method OpenJournal() returns (ok: bool)
      requires Tracked()
      modifies this`armed, this`tried, this`states, this`actions, this`auditUncertain, journal
      ensures ok && Valid() && !journal.failed && !auditUncertain && old(states) <= states
      ensures journal.log == old(journal.log) && journal.Mem() == Tables(env, journal.log)
    {
      hide Step, Tables, LogBytes, Openable;
      RestartIsAlwaysPossible(env, states, actions, |actions|);
      ghost var before := Now();
      ok := journal.Open();
      auditUncertain := false;
      ghost var after := Sys(Store(before.store.log, Tables(env, before.store.log), LogBytes(env, before.store.log), false),
                             None, flushed);
      armed := None;
      RestartSteps(env, before, after);
      RunExtends(env, states, actions, Restart, after);
      states, actions := states + [after], actions + [Restart];
    }

    /**
     The whole start-up: open, settle what was under way, sweep. A daemon that comes up has no
     mutation under way, is locked only by dirty plans, has swept all plans at one sample, and has
     flushed nothing on the way.
     */
    method OpenService() returns (error: Option<ServiceError>, ghost found: Findings, ghost at: Option<Sample>)
      requires Tracked()
      modifies this`armed, this`tried, this`states, this`actions, this`auditUncertain, journal
      ensures Valid() && old(states) <= states && NotIllegal(env, tried, error)
      ensures error.None? ==>
                && !journal.failed && !auditUncertain
                && (forall p :: !InFlight(journal.Mem(), p))
                && (MutationLocked(journal.Mem()) <==> exists p :: Dirty(journal.Mem(), p))
                && (at.None? ==> Undecided(journal.Mem()) == {} && !SomeVerified(journal.Mem()))
                && (at.Some? ==>
                      && (forall q :: q in journal.byPlan ==> WindowChecked(journal.Mem(), q, at.value))
                      && (forall q :: q in journal.outcomes ==> AuditPassed(journal.Mem(), q, at.value)))
    {
      found, at := NOTHING_FOUND, None;
      hide LegalRun, WindowChecked, AuditPassed, Recovered, OnlySettles, SomeVerified, InFlight, Dirty, MutationLocked,
           StartsNothing;
      var ok := OpenJournal();
      if !ok {
        return Some(Corrupt), found, at;
      }
      var reconciled;
      reconciled, error, found := ReconcileIncomplete();
      if error.Some? {
        return;
      }
      ghost var m := journal.Mem();
      error, at := ExpireDue();
      QuietStays(m, journal.Mem());
    }
  }
}
