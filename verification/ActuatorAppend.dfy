/**
 The appending side of the action journal: for each kind of record, the checks made before a
 frame is written, the frame that results, and the update of the in-memory tables.

 `Permitted` collects, for one frame, the journal's own checks and the guards of the service
 call that issues it. It is a relation over the frame and the tables alone, so it can be asked
 of every position of a log.
 */
module ActuatorAppend {
  import opened Wrappers
  import opened ActuatorRecords
  import opened ActuatorReplay

  datatype JournalError =
    | JournalFailed | FrameTooLarge | AppendFailed
    | PendingLimit | IntentEquivocation | LacksReservation | ClockBackwards | RateLimited
    | ApprovalReplay | InvalidDecision
    | NoApprovedPlan | KillSwitchActive | InvalidAttempt
    | LacksApprovedPlan | InvalidLifecycle

  // ---------------------------------------------------------------------------------------
  // Frame budget
  // ---------------------------------------------------------------------------------------

  function PlanOwes(m: Memory, p: PlanId): nat {
    LifecycleFutureFrames(if p in m.outcomes then Some(m.outcomes[p].state) else None, p in m.attempts)
  }

  ghost function OwedBy(m: Memory, plans: set<PlanId>): nat {
    if plans == {} then 0
    else
      var p :| p in plans;
      PlanOwes(m, p) + OwedBy(m, plans - {p})
  }

  /** Frames that must stay available so that every prepared plan can run its course. */
  ghost function Budget(m: Memory): nat { OwedBy(m, m.byPlan.Keys) }

  ghost predicate TransitionFits(m: Memory, bytes: nat, p: PlanId, frameSize: nat, newBudget: nat) {
    var newTotal := Budget(m) - PlanOwes(m, p) + newBudget;
    && newTotal >= 0
    && m.recordCount + 1 + newTotal <= MAX_RECORDS
    && frameSize + FullFrames(newTotal) <= MAX_JOURNAL_BYTES - bytes
  }

  // ---------------------------------------------------------------------------------------
  // Rate limit and pending plans
  // ---------------------------------------------------------------------------------------

  ghost predicate ClockNotBackwards(history: seq<ReservationState>, now: int) {
    forall i :: 0 <= i < |history| ==> history[i].reservedAt <= now
  }

  /** How many reservations are younger than `window` at `now`. */
  function RecentCount(history: seq<ReservationState>, now: int, window: nat): nat {
    if history == [] then 0
    else
      var last := history[|history| - 1];
      RecentCount(history[..|history| - 1], now, window) + if now - last.reservedAt < window then 1 else 0
  }

  ghost predicate RateAllowed(history: seq<ReservationState>, now: int) {
    && ClockNotBackwards(history, now)
    && RecentCount(history, now, MINUTE) < PER_MINUTE_INTENTS
    && RecentCount(history, now, HOUR) < PER_HOUR_INTENTS
  }

  function PendingAt(m: Memory, now: int): set<IntentId> {
    set i | i in m.byIntent && m.byIntent[i].plan.planId !in m.outcomes && now < m.byIntent[i].plan.expiresAt
  }

  // ---------------------------------------------------------------------------------------
  // The checks and the record of each append
  // ---------------------------------------------------------------------------------------

  ghost function BuildReservation(env: Env, m: Memory, bytes: nat, intentId: IntentId, intentSha: Digest,
                                  reservedAt: int): Result<Body, JournalError> {
    if intentId in m.reservations && m.reservations[intentId].intentSha != intentSha then Failure(IntentEquivocation)
    else if m.recordCount + Budget(m) + 2 + LIFECYCLE_FRAMES_PER_PLAN > MAX_RECORDS || bytes >= MAX_JOURNAL_BYTES then
      Failure(PendingLimit)
    else
      var body := ReservationBody(intentId, intentSha, reservedAt, m.previous);
      if FrameSize(env, body) + FullFrames(Budget(m) + 1 + LIFECYCLE_FRAMES_PER_PLAN) > MAX_JOURNAL_BYTES - bytes then
        Failure(PendingLimit)
      else Success(body)
  }

  function PreparedBody(previous: Digest, plan: Plan, intentSha: Digest, deadline: nat): Body {
    ActionBody(plan.planId, plan.planHash, PREPARED, IntentPrepared, plan.preparedAt, previous,
               PreparedDetails(plan, intentSha, deadline))
  }

  ghost function BuildPrepared(env: Env, m: Memory, bytes: nat, plan: Plan, intentSha: Digest, deadline: nat)
    : Result<Body, JournalError>
  {
    if m.recordCount + Budget(m) + 1 + LIFECYCLE_FRAMES_PER_PLAN > MAX_RECORDS || bytes >= MAX_JOURNAL_BYTES then
      Failure(PendingLimit)
    else if !(&& plan.intent.intentId in m.reservations
              && m.reservations[plan.intent.intentId].intentSha == intentSha
              && m.reservations[plan.intent.intentId].sha == m.previous) then Failure(LacksReservation)
    else if plan.preparedAt < m.reservations[plan.intent.intentId].reservedAt then Failure(ClockBackwards)
    else
      var body := PreparedBody(m.previous, plan, intentSha, deadline);
      if FrameSize(env, body) + FullFrames(Budget(m) + LIFECYCLE_FRAMES_PER_PLAN) > MAX_JOURNAL_BYTES - bytes then
        Failure(PendingLimit)
      else Success(body)
  }

  function DecisionBody(previous: Digest, prepared: PreparedState, authority: Authority, sample: Sample,
                        state: ActionState, reason: Reason, basis: Basis): Body {
    ActionBody(prepared.plan.planId, prepared.plan.planHash, state, reason, sample.wall, previous,
               DecisionDetails(prepared.sha, sample.bootId, sample.bootTime, authority, basis))
  }

  ghost function BuildDecision(env: Env, m: Memory, bytes: nat, prepared: PreparedState, authority: Authority,
                               sample: Sample, state: ActionState, reason: Reason, basis: Basis)
    : Result<Body, JournalError>
  {
    var p := prepared.plan.planId;
    if p in m.outcomes then Failure(ApprovalReplay)
    else if DecisionReason(state, basis) != Some(reason) then Failure(InvalidDecision)
    else if authority.basis == SystemExpiry && state != EXPIRED_UNAPPLIED then Failure(InvalidDecision)
    else
      var body := DecisionBody(m.previous, prepared, authority, sample, state, reason, basis);
      if TransitionFits(m, bytes, p, FrameSize(env, body), LifecycleFutureFrames(Some(state), false)) then Success(body)
      else Failure(PendingLimit)
  }

  function AttemptRecord(m: Memory, prepared: PreparedState, sample: Sample, ruleset: Digest): Body
    requires prepared.plan.planId in m.outcomes
  {
    var plan := prepared.plan;
    AttemptBody(plan.planId, plan.planHash, sample.wall, sample.bootId, sample.bootTime, plan.netns,
                plan.intent.destination, plan.intent.ttlSeconds, ruleset, m.outcomes[plan.planId].sha, m.previous)
  }

  ghost function BuildAttempt(env: Env, m: Memory, bytes: nat, prepared: PreparedState, sample: Sample, ruleset: Digest)
    : Result<Body, JournalError>
  {
    var plan := prepared.plan;
    var p := plan.planId;
    if p !in m.outcomes || m.outcomes[p].state != APPROVED then Failure(NoApprovedPlan)
    else if p in m.attempts then Failure(KillSwitchActive)
    else if !sample.Valid() || sample.bootId != plan.bootId then Failure(InvalidAttempt)
    else if plan.netns == 0 || !(MIN_TTL_SECONDS <= plan.intent.ttlSeconds <= MAX_TTL_SECONDS) then
      Failure(InvalidAttempt)
    else
      var body := AttemptRecord(m, prepared, sample, ruleset);
      if TransitionFits(m, bytes, p, FrameSize(env, body), LifecycleFutureFrames(Some(APPROVED), true)) then
        Success(body)
      else Failure(PendingLimit)
  }

  function LifecycleBody(m: Memory, prepared: PreparedState, sample: Sample, state: ActionState, reason: Reason,
                         basis: Basis, extra: Extra): Body
    requires prepared.plan.planId in m.outcomes
  {
    var p := prepared.plan.planId;
    ActionBody(p, prepared.plan.planHash, state, reason, sample.wall, m.previous,
               LifecycleDetails(PlanPredecessor(m, p), sample.bootId, sample.bootTime, basis, extra))
  }

  ghost function BuildLifecycle(env: Env, m: Memory, bytes: nat, prepared: PreparedState, sample: Sample,
                                state: ActionState, reason: Reason, basis: Basis, extra: Extra)
    : Result<Body, JournalError>
  {
    var p := prepared.plan.planId;
    if p !in m.outcomes then Failure(LacksApprovedPlan)
    else if !LifecycleTransitionAllowed(m.outcomes[p].state, p in m.attempts, state) then Failure(InvalidLifecycle)
    else if !LifecycleReasonAllowed(state, reason, basis) || !sample.Valid() then Failure(InvalidLifecycle)
    else
      var body := LifecycleBody(m, prepared, sample, state, reason, basis, extra);
      if !LifecycleDetailsOk(body, PlanPredecessor(m, p), prepared) then Failure(InvalidLifecycle)
      else if !TransitionFits(m, bytes, p, FrameSize(env, body), LifecycleFutureFrames(Some(state), p in m.attempts)) then
        Failure(PendingLimit)
      else Success(body)
  }

  // ---------------------------------------------------------------------------------------
  // Which frames the service may issue
  // ---------------------------------------------------------------------------------------

  /** An intent may reserve: unknown so far, no mutation in doubt, both rate windows open, few pending plans. */
  ghost predicate ReservationGuard(m: Memory, intentId: IntentId, now: int) {
    && !MutationLocked(m)
    && intentId !in m.byIntent
    && RateAllowed(m.rateHistory, now)
    && |PendingAt(m, now)| < MAX_PENDING_PLANS
  }

  /** A built plan binds its intent, carries a boot-time deadline, and its intent is not yet prepared. */
  ghost predicate PreparedGuard(env: Env, m: Memory, plan: Plan, intentSha: Digest, deadline: nat) {
    && PlanValid(env, plan)
    && intentSha == env.intentHash(plan.intent)
    && APPROVAL_TTL < deadline <= MAX_U64
    && plan.intent.intentId !in m.byIntent
  }

  /** Approve and reject only inside the window, expire only outside it and for the true reason. */
  ghost predicate DecisionGuard(prepared: PreparedState, authority: Authority, sample: Sample, state: ActionState,
                                basis: Basis) {
    && sample.Valid()
    && authority.Valid()
    && (match ExpiryBasis(prepared, sample)
        case ClockError => false
        case Open => (state == APPROVED || state == REJECTED) && authority.basis != SystemExpiry
        case Due(due) => state == EXPIRED_UNAPPLIED && basis == due)
  }

  ghost predicate ContainmentAllowed(m: Memory, plan: Plan)
    requires m.outcomes.Keys <= m.byPlan.Keys
  {
    && (forall q :: q in Active(m) && q != plan.planId && m.byPlan[q].plan.intent.container == plan.intent.container ==>
          m.byPlan[q].plan.intent.startedAt != plan.intent.startedAt)
    && |Active(m) - {plan.planId}| < MAX_ACTIVE_CONTAINMENTS
  }

  ghost predicate AttemptGuard(m: Memory, prepared: PreparedState, sample: Sample) {
    && !MutationLocked(m)
    && m.outcomes.Keys <= m.byPlan.Keys
    && ContainmentAllowed(m, prepared.plan)
    && ExpiryBasis(prepared, sample) == Open
  }

  /** An APPLIED record may only quote the rule set its attempt announced. */
  ghost predicate LifecycleGuard(m: Memory, p: PlanId, state: ActionState, extra: Extra) {
    state == APPLIED ==>
      p in m.attempts && extra.AppliedExtra? && extra.observation.ruleset == m.attempts[p].expectedRuleset
  }

  ghost predicate PermittedAction(env: Env, m: Memory, bytes: nat, b: Body)
    requires b.ActionBody?
  {
    if b.state == PREPARED then
      && b.details.PreparedDetails?
      && PreparedGuard(env, m, b.details.plan, b.details.intentSha, b.details.deadline)
      && b.details.plan.planId !in m.byPlan
      && BuildPrepared(env, m, bytes, b.details.plan, b.details.intentSha, b.details.deadline) == Success(b)
    else if b.planId !in m.byPlan then false
    else if b.planId !in m.outcomes then
      && b.details.DecisionDetails?
      && var sample := Sample(b.observedAt, b.details.decidedBootTime, b.details.decidedBoot);
      && DecisionGuard(m.byPlan[b.planId], b.details.authority, sample, b.state, b.details.decidedOn)
      && BuildDecision(env, m, bytes, m.byPlan[b.planId], b.details.authority, sample, b.state, b.reason,
                       b.details.decidedOn) == Success(b)
    else
      && b.details.LifecycleDetails?
      && var sample := Sample(b.observedAt, b.details.movedBootTime, b.details.movedBoot);
      && LifecycleGuard(m, b.planId, b.state, b.details.extra)
      && BuildLifecycle(env, m, bytes, m.byPlan[b.planId], sample, b.state, b.reason, b.details.movedOn,
                        b.details.extra) == Success(b)
  }

  /** The frame `b` is one the service may append to a journal with tables `m` and `bytes` bytes. */
  ghost predicate Permitted(env: Env, m: Memory, bytes: nat, b: Body) {
    && env.payloadSize(b) <= MAX_FRAME_PAYLOAD
    && match b
       case ReservationBody(i, sha, at, _) =>
         && ReservationGuard(m, i, at)
         && BuildReservation(env, m, bytes, i, sha, at) == Success(b)
       case AttemptBody(p, _, at, boot, bootTime, _, _, _, ruleset, _, _) =>
         && p in m.byPlan
         && AttemptGuard(m, m.byPlan[p], Sample(at, bootTime, boot))
         && BuildAttempt(env, m, bytes, m.byPlan[p], Sample(at, bootTime, boot), ruleset) == Success(b)
       case ActionBody(_, _, _, _, _, _, _) => PermittedAction(env, m, bytes, b)
  }

  // ---------------------------------------------------------------------------------------
  // Updating the tables after a successful append
  // ---------------------------------------------------------------------------------------

  predicate WellTyped(b: Body) {
    b.ActionBody? ==>
      && (b.state == PREPARED ==> b.details.PreparedDetails?)
      && (b.state == APPLIED ==> b.details.LifecycleDetails? && b.details.extra.AppliedExtra?)
      && (b.state == VERIFIED ==> b.details.LifecycleDetails? && b.details.extra.VerifiedExtra?)
  }

  function Installed(m: Memory, frame: Frame): Memory
    requires WellTyped(frame.body)
  {
    var counted := m.(previous := frame.sha, recordCount := m.recordCount + 1);
    match frame.body
    case ReservationBody(i, sha, at, _) =>
      var state := ReservationState(sha, at, frame.sha);
      counted.(reservations := m.reservations[i := state], rateHistory := m.rateHistory + [state])
    case AttemptBody(p, _, at, boot, bootTime, netns, _, _, ruleset, _, _) =>
      counted.(attempts := m.attempts[p := AttemptState(frame.sha, at, boot, bootTime, netns, ruleset)])
    case ActionBody(p, _, state, _, at, _, details) =>
      if state == PREPARED then
        var prepared := PreparedState(details.plan, details.intentSha, details.deadline, frame.sha);
        counted.(byIntent := m.byIntent[details.plan.intent.intentId := prepared],
                 byPlan := m.byPlan[details.plan.planId := prepared])
      else
        counted.(outcomes := m.outcomes[p := Outcome(state, frame.sha, at)],
                 applied := if state == APPLIED then m.applied[p := details.extra.observation] else m.applied,
                 verified := if state == VERIFIED then m.verified[p := details.extra.auditDeadline] else m.verified)
  }

  // ---------------------------------------------------------------------------------------
  // Agreement of the two sides
  // ---------------------------------------------------------------------------------------

  /** The tables are keyed by the plans they hold, and those plans are sound. */
  ghost predicate PlansSound(env: Env, m: Memory) {
    forall p :: p in m.byPlan ==>
      && m.byPlan[p].plan.planId == p
      && PlanValid(env, m.byPlan[p].plan)
      && APPROVAL_TTL < m.byPlan[p].deadline <= MAX_U64
  }

  lemma ReservationAgrees(env: Env, m: Memory, bytes: nat, b: Body)
    requires b.ReservationBody? && Permitted(env, m, bytes, b)
    ensures ReplayFrame(env, m, SealedFrame(env, b)) == Some(Installed(m, SealedFrame(env, b)))
  {}

  lemma AttemptAgrees(env: Env, m: Memory, bytes: nat, b: Body)
    requires b.AttemptBody? && Permitted(env, m, bytes, b) && PlansSound(env, m)
    ensures ReplayFrame(env, m, SealedFrame(env, b)) == Some(Installed(m, SealedFrame(env, b)))
  {
    hide TransitionFits, FrameSize;
  }

  /**
   Without the freshness of the plan ID, which the append side never checks, a PREPARED frame that
   passed every other check can be replayed exactly when its plan ID is new.
   */
  lemma PreparedAgreesIffFresh(env: Env, m: Memory, bytes: nat, plan: Plan, intentSha: Digest, deadline: nat)
    requires PreparedGuard(env, m, plan, intentSha, deadline)
    requires BuildPrepared(env, m, bytes, plan, intentSha, deadline).Success?
    ensures var frame := SealedFrame(env, BuildPrepared(env, m, bytes, plan, intentSha, deadline).value);
            ReplayFrame(env, m, frame) == if plan.planId in m.byPlan then None else Some(Installed(m, frame))
  {}

  lemma DecisionAgrees(env: Env, m: Memory, bytes: nat, b: Body)
    requires b.ActionBody? && b.state != PREPARED && b.planId !in m.outcomes
    requires PermittedAction(env, m, bytes, b) && PlansSound(env, m)
    ensures WellTyped(b)
    ensures ReplayFrame(env, m, SealedFrame(env, b)) == Some(Installed(m, SealedFrame(env, b)))
  {
    var prepared := m.byPlan[b.planId];
    var sample := Sample(b.observedAt, b.details.decidedBootTime, b.details.decidedBoot);
    assert b == DecisionBody(m.previous, prepared, b.details.authority, sample, b.state, b.reason, b.details.decidedOn);
    OpenIsInsideWindow(prepared, sample);
    assert RecoveredDecisionOk(m, b, prepared);
  }

  lemma LifecycleAgrees(env: Env, m: Memory, bytes: nat, b: Body)
    requires b.ActionBody? && b.state != PREPARED && b.planId in m.outcomes
    requires PermittedAction(env, m, bytes, b) && PlansSound(env, m)
    ensures WellTyped(b)
    ensures ReplayFrame(env, m, SealedFrame(env, b)) == Some(Installed(m, SealedFrame(env, b)))
  {
    assert RecoveredLifecycleOk(m, b, m.byPlan[b.planId]);
  }

  /** Whatever the service may append, a restart accepts, and it rebuilds the very tables held in memory. */
  lemma AppendAgreesWithReplay(env: Env, m: Memory, bytes: nat, b: Body)
    requires Permitted(env, m, bytes, b) && PlansSound(env, m)
    ensures WellTyped(b)
    ensures ReplayFrame(env, m, SealedFrame(env, b)) == Some(Installed(m, SealedFrame(env, b)))
  {
    match b
    case ReservationBody(_, _, _, _) => ReservationAgrees(env, m, bytes, b);
    case AttemptBody(_, _, _, _, _, _, _, _, _, _, _) => AttemptAgrees(env, m, bytes, b);
    case ActionBody(_, _, _, _, _, _, _) =>
      if b.state == PREPARED {
        PreparedAgreesIffFresh(env, m, bytes, b.details.plan, b.details.intentSha, b.details.deadline);
      } else if b.planId in m.outcomes {
        LifecycleAgrees(env, m, bytes, b);
      } else {
        DecisionAgrees(env, m, bytes, b);
      }
  }
}
