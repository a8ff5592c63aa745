/**
 The durable records of the actuator's action journal, the in-memory tables the journal keeps
 beside them, and the pure rules (constants, clocks, state graph) that both the appending side
 and the replaying side consult.

 Identifiers and digests are opaque numbers: the code only compares them for equality, and for
 plan IDs by the total order of their fixed-width text. Times are integer nanoseconds.
 */
module ActuatorRecords {
  import opened Wrappers

  type Digest = nat
  type PlanId = nat
  type IntentId = nat
  type BootId = nat

  const ZERO_DIGEST: Digest := 0
  const MAX_U64: nat := 0xFFFF_FFFF_FFFF_FFFF
  const MILLISECOND: nat := 1_000_000
  const SECOND: nat := 1_000_000_000
  const MINUTE: nat := 60 * SECOND
  const HOUR: nat := 3600 * SECOND

  const APPROVAL_TTL: nat := 5 * MINUTE
  const MIN_TTL_SECONDS: nat := 30
  const MAX_TTL_SECONDS: nat := 300
  const MAX_PENDING_PLANS: nat := 32
  const MAX_ACTIVE_CONTAINMENTS: nat := 5
  const PER_MINUTE_INTENTS: nat := 3
  const PER_HOUR_INTENTS: nat := 20

  const MAX_FRAME_PAYLOAD: nat := 65_536
  const FRAME_OVERHEAD: nat := 76
  const MAX_JOURNAL_BYTES: nat := 64 * 1024 * 1024
  const MAX_RECORDS: nat := 65_536
  const LIFECYCLE_FRAMES_PER_PLAN: nat := 6

  // The largest frame the stream accepts: MAX_FRAME_PAYLOAD plus FRAME_OVERHEAD.
  const FULL_FRAME: nat := 65_612

  /** Bytes taken by this many frames of the largest size. */
  function FullFrames(frames: int): int { 65_612 * frames }

  datatype ActionState =
    | PROPOSED | POLICY_ADMITTED
    | PREPARED
    | APPROVED | REJECTED | EXPIRED_UNAPPLIED
    | STALE_ABORT | APPLIED | VERIFIED | EXPIRED | FAILED_DIRTY

  datatype Reason =
    | IntentPrepared
    | LocalAdminApproved | LocalAdminRejected | ApprovalDeadlineElapsed | HostBootChangedReason
    | TargetRevalidationFailed | NftPreflightRejected | NftApplyProvenAbsent
    | NftResultUncertain | NftApplyObserved | NftApplyVerified | NativeTimeoutExpired

  datatype Basis =
    | LocalAdminApproval | LocalAdminRejection
    | WallDeadline | BootTimeDeadline | HostBootChanged
    | ExactKernelReadback | ProofCommitted
    | KernelTimeoutObserved | NamespaceDestroyed
    | FreeText(text: string)

  // `basis != ""`: only free text can be empty.
  predicate Named(basis: Basis) { basis.FreeText? ==> basis.text != "" }

  datatype AuthorityBasis = Root | PrimaryGroup | SupplementaryGroup | SystemExpiry | Unknown

  datatype Authority = Authority(uid: nat, gid: nat, basis: AuthorityBasis) {
    predicate Valid() {
      match basis
      case Root => uid == 0
      case PrimaryGroup => uid != 0
      case SupplementaryGroup => uid != 0
      case SystemExpiry => uid == 0 && gid == 0
      case Unknown => false
    }
  }

  const SYSTEM_EXPIRY := Authority(0, 0, SystemExpiry)

  datatype Sample = Sample(wall: int, bootTime: nat, bootId: BootId) {
    predicate Valid() { 0 < bootTime <= MAX_U64 }
  }

  // `facts` stands for the intent fields that no rule modelled here inspects.
  datatype Intent = Intent(intentId: IntentId, container: nat, startedAt: nat, destination: nat,
                           ttlSeconds: nat, facts: nat)

  // `preparedText` ranks the text of the preparation time, which is what the apply queue sorts by.
  datatype Plan = Plan(intent: Intent, planId: PlanId, planHash: Digest, nonce: nat, bootId: BootId,
                       netns: nat, preparedAt: int, preparedText: nat, expiresAt: int)

  datatype Observation = Observation(netns: nat, ruleset: Digest, configuredMs: nat, remainingMs: nat,
                                     packets: nat, byteCount: nat, hostBefore: nat, hostAfter: nat)

  datatype Extra =
    | NoExtra
    | AppliedExtra(attemptSha: Digest, observation: Observation)
    | VerifiedExtra(appliedSha: Digest, auditDeadline: nat)

  datatype Details =
    | PreparedDetails(plan: Plan, intentSha: Digest, deadline: nat)
    | DecisionDetails(decidedFrom: Digest, decidedBoot: BootId, decidedBootTime: nat, authority: Authority,
                      decidedOn: Basis)
    | LifecycleDetails(movedFrom: Digest, movedBoot: BootId, movedBootTime: nat, movedOn: Basis, extra: Extra)

  datatype Body =
    | ReservationBody(intentId: IntentId, intentSha: Digest, reservedAt: int, previous: Digest)
    | AttemptBody(planId: PlanId, planHash: Digest, startedAt: int, bootId: BootId, bootTime: nat,
                  netns: nat, destination: nat, ttlSeconds: nat, expectedRuleset: Digest,
                  approvedFrom: Digest, previous: Digest)
    | ActionBody(planId: PlanId, planHash: Digest, state: ActionState, reason: Reason, observedAt: int,
                 previous: Digest, details: Details)

  datatype Frame = Frame(body: Body, sha: Digest)

  /** The derivations the daemon treats as black boxes. Every result holds for all of them. */
  datatype Env = Env(recordHash: Body -> Digest, payloadSize: Body -> nat, intentHash: Intent -> Digest,
                     planIdOf: (IntentId, nat) -> PlanId)

  datatype ReservationState = ReservationState(intentSha: Digest, reservedAt: int, sha: Digest)
  datatype PreparedState = PreparedState(plan: Plan, intentSha: Digest, deadline: nat, sha: Digest)
  datatype Outcome = Outcome(state: ActionState, sha: Digest, observedAt: int)
  datatype AttemptState = AttemptState(sha: Digest, startedAt: int, bootId: BootId, bootTime: nat, netns: nat,
                                       expectedRuleset: Digest)

  /** Everything the journal remembers about its frames. */
  datatype Memory = Memory(
    previous: Digest,
    byIntent: map<IntentId, PreparedState>,
    byPlan: map<PlanId, PreparedState>,
    reservations: map<IntentId, ReservationState>,
    rateHistory: seq<ReservationState>,
    outcomes: map<PlanId, Outcome>,
    attempts: map<PlanId, AttemptState>,
    applied: map<PlanId, Observation>,
    verified: map<PlanId, nat>,
    recordCount: nat)

  const EMPTY_MEMORY := Memory(ZERO_DIGEST, map[], map[], map[], [], map[], map[], map[], map[], 0)

  function FrameSize(env: Env, body: Body): nat { env.payloadSize(body) + FRAME_OVERHEAD }

  function SealedFrame(env: Env, body: Body): Frame { Frame(body, env.recordHash(body)) }

  predicate PlanValid(env: Env, plan: Plan) {
    && MIN_TTL_SECONDS <= plan.intent.ttlSeconds <= MAX_TTL_SECONDS
    && plan.netns != 0
    && plan.expiresAt == plan.preparedAt + APPROVAL_TTL
    && plan.planId == env.planIdOf(plan.intent.intentId, plan.nonce)
  }

  // ---------------------------------------------------------------------------------------
  // Approval window
  // ---------------------------------------------------------------------------------------

  datatype Expiry = ClockError | Open | Due(basis: Basis)

  /** Where a clock sample falls with respect to a prepared plan's approval window. */
  function ExpiryBasis(prepared: PreparedState, sample: Sample): Expiry {
    if prepared.deadline <= APPROVAL_TTL then ClockError
    else if sample.bootId != prepared.plan.bootId then Due(HostBootChanged)
    else if sample.wall >= prepared.plan.expiresAt then Due(WallDeadline)
    else if sample.bootTime >= prepared.deadline then Due(BootTimeDeadline)
    else if sample.wall < prepared.plan.preparedAt || sample.bootTime < prepared.deadline - APPROVAL_TTL then ClockError
    else Open
  }

  /** The window stated from the outside: same boot, and inside both clocks' five minutes. */
  ghost predicate InsideWindow(prepared: PreparedState, sample: Sample) {
    && sample.bootId == prepared.plan.bootId
    && prepared.plan.preparedAt <= sample.wall < prepared.plan.expiresAt
    && 0 < prepared.deadline - APPROVAL_TTL <= sample.bootTime < prepared.deadline
  }

  lemma OpenIsInsideWindow(prepared: PreparedState, sample: Sample)
    ensures ExpiryBasis(prepared, sample) == Open <==> InsideWindow(prepared, sample)
  {}

  /** Too late: the host has rebooted, or one of the two clocks has passed its deadline. */
  ghost predicate Late(prepared: PreparedState, sample: Sample) {
    && prepared.deadline > APPROVAL_TTL
    && (|| sample.bootId != prepared.plan.bootId || sample.wall >= prepared.plan.expiresAt
        || sample.bootTime >= prepared.deadline)
  }

  /** Why: a reboot counts before the wall clock, and that before the boot-time clock. */
  ghost function LateBasis(prepared: PreparedState, sample: Sample): Basis {
    if sample.bootId != prepared.plan.bootId then HostBootChanged
    else if sample.wall >= prepared.plan.expiresAt then WallDeadline
    else BootTimeDeadline
  }

  /** The ordered checks, stated from the outside: inside the window, late and why, or a clock that cannot be right. */
  lemma ExpiryIsExact(prepared: PreparedState, sample: Sample)
    ensures ExpiryBasis(prepared, sample)
            == if InsideWindow(prepared, sample) then Open
               else if Late(prepared, sample) then Due(LateBasis(prepared, sample)) else ClockError
    ensures !(InsideWindow(prepared, sample) && Late(prepared, sample))
  {}

  function DecisionReason(state: ActionState, basis: Basis): Option<Reason> {
    match (state, basis)
    case (APPROVED, LocalAdminApproval) => Some(LocalAdminApproved)
    case (REJECTED, LocalAdminRejection) => Some(LocalAdminRejected)
    case (EXPIRED_UNAPPLIED, WallDeadline) => Some(ApprovalDeadlineElapsed)
    case (EXPIRED_UNAPPLIED, BootTimeDeadline) => Some(ApprovalDeadlineElapsed)
    case (EXPIRED_UNAPPLIED, HostBootChanged) => Some(HostBootChangedReason)
    case _ => None
  }

  // ---------------------------------------------------------------------------------------
  // Lifecycle state graph
  // ---------------------------------------------------------------------------------------

  predicate LifecycleReasonAllowed(state: ActionState, reason: Reason, basis: Basis) {
    match state
    case STALE_ABORT => reason == TargetRevalidationFailed && Named(basis)
    case REJECTED => (reason == NftPreflightRejected || reason == NftApplyProvenAbsent) && Named(basis)
    case FAILED_DIRTY => reason == NftResultUncertain && Named(basis)
    case APPLIED => reason == NftApplyObserved && basis == ExactKernelReadback
    case VERIFIED => reason == NftApplyVerified && basis == ProofCommitted
    case EXPIRED =>
      && reason == NativeTimeoutExpired
      && (basis == KernelTimeoutObserved || basis == NamespaceDestroyed || basis == HostBootChanged)
    case _ => false
  }

  predicate LifecycleTransitionAllowed(prior: ActionState, hasAttempt: bool, next: ActionState) {
    match prior
    case APPROVED =>
      if hasAttempt then next == APPLIED || next == REJECTED || next == FAILED_DIRTY
      else next == STALE_ABORT || next == REJECTED
    case APPLIED => hasAttempt && (next == VERIFIED || next == EXPIRED || next == FAILED_DIRTY)
    case VERIFIED => hasAttempt && (next == EXPIRED || next == FAILED_DIRTY)
    case _ => false
  }

  /** The frames a plan may still need, given its latest outcome (None: undecided). */
  function LifecycleFutureFrames(state: Option<ActionState>, hasAttempt: bool): nat {
    match state
    case None => LIFECYCLE_FRAMES_PER_PLAN
    case Some(APPROVED) => if hasAttempt then 4 else 5
    case Some(APPLIED) => 3
    case Some(VERIFIED) => 2
    case Some(FAILED_DIRTY) => 1
    case Some(_) => 0
  }

  // ---------------------------------------------------------------------------------------
  // Lifecycle record contents, checked identically before an append and on replay
  // ---------------------------------------------------------------------------------------

  predicate AppliedObservationOk(plan: Plan, observation: Observation) {
    && observation.netns == plan.netns
    && observation.configuredMs == plan.intent.ttlSeconds * 1000
    && 0 < observation.remainingMs <= observation.configuredMs
    && observation.hostBefore != 0
    && observation.hostBefore == observation.hostAfter
  }

  predicate LifecycleDetailsOk(body: Body, expectedFrom: Digest, prepared: PreparedState)
    requires body.ActionBody?
  {
    && body.details.LifecycleDetails?
    && var d := body.details;
    && d.movedFrom == expectedFrom
    && LifecycleReasonAllowed(body.state, body.reason, d.movedOn)
    && 0 < d.movedBootTime <= MAX_U64
    && (body.state != EXPIRED && body.state != STALE_ABORT && body.state != REJECTED ==>
          d.movedBoot == prepared.plan.bootId)
    && match body.state
       case APPLIED =>
         && d.extra.AppliedExtra?
         && AppliedObservationOk(prepared.plan, d.extra.observation)
         && d.extra.attemptSha == expectedFrom
       case VERIFIED =>
         && d.extra.VerifiedExtra?
         && d.extra.appliedSha == expectedFrom
         && d.movedBootTime < d.extra.auditDeadline <= MAX_U64
       case _ => d.extra == NoExtra
  }

  /** The record a lifecycle record must name as its predecessor for the same plan. */
  function PlanPredecessor(m: Memory, p: PlanId): Digest
    requires p in m.outcomes
  {
    if m.outcomes[p].state == APPROVED && p in m.attempts then m.attempts[p].sha else m.outcomes[p].sha
  }

  // ---------------------------------------------------------------------------------------
  // What the tables say about a plan
  // ---------------------------------------------------------------------------------------

  /** A mutation of this plan may be under way: attempt recorded and its result not settled. */
  predicate InFlight(m: Memory, p: PlanId) {
    && p in m.outcomes
    && (m.outcomes[p].state == APPLIED || (m.outcomes[p].state == APPROVED && p in m.attempts))
  }

  predicate Dirty(m: Memory, p: PlanId) { p in m.outcomes && m.outcomes[p].state == FAILED_DIRTY }

  ghost predicate MutationLocked(m: Memory) { exists p :: p in m.outcomes && (InFlight(m, p) || Dirty(m, p)) }

  predicate IsActive(m: Memory, p: PlanId) { InFlight(m, p) || (p in m.outcomes && m.outcomes[p].state == VERIFIED) }

  function Active(m: Memory): set<PlanId> { set p | p in m.outcomes && IsActive(m, p) }

  function Undecided(m: Memory): set<PlanId> { m.byPlan.Keys - m.outcomes.Keys }

  predicate SameGeneration(a: Plan, b: Plan) {
    a.intent.container == b.intent.container && a.intent.startedAt == b.intent.startedAt
  }
}
