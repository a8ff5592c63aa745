/**
 Which journals a restart accepts, said of the frames alone: each frame carries its own hash, is
 linked to the one before, continues its plan's life, and agrees with the earlier frames that it
 refers to. No tables appear in the definition; that the tables rebuilt by replay amount to the
 same is proved below, for every sequence of frames.
 */
module ActuatorAcceptance {
  import opened Wrappers
  import opened ActuatorRecords
  import opened ActuatorReplay

  // ---------------------------------------------------------------------------------------
  // The life of a plan
  // ---------------------------------------------------------------------------------------

  datatype Event = State(state: ActionState) | Attempted
  datatype Stage = Unseen | Undecided | Approved | UnderWay | Applied | Verified | Closed | Impossible

  function Next(stage: Stage, e: Event): Stage {
    match (stage, e)
    case (Unseen, State(PREPARED)) => Stage.Undecided
    case (Undecided, State(APPROVED)) => Approved
    case (Undecided, State(REJECTED)) => Closed
    case (Undecided, State(EXPIRED_UNAPPLIED)) => Closed
    case (Approved, Attempted) => UnderWay
    case (Approved, State(STALE_ABORT)) => Closed
    case (Approved, State(REJECTED)) => Closed
    case (UnderWay, State(APPLIED)) => Applied
    case (UnderWay, State(REJECTED)) => Closed
    case (UnderWay, State(FAILED_DIRTY)) => Closed
    case (Applied, State(VERIFIED)) => Verified
    case (Applied, State(EXPIRED)) => Closed
    case (Applied, State(FAILED_DIRTY)) => Closed
    case (Verified, State(EXPIRED)) => Closed
    case (Verified, State(FAILED_DIRTY)) => Closed
    case _ => Impossible
  }

  predicate Concerns(b: Body, p: PlanId) { !b.ReservationBody? && b.planId == p }

  function EventOf(b: Body): Event
    requires !b.ReservationBody?
  {
    if b.AttemptBody? then Attempted else State(b.state)
  }

  ghost function StageOf(log: seq<Frame>, p: PlanId): Stage {
    if log == [] then Unseen
    else
      var before, b := StageOf(log[..|log| - 1], p), log[|log| - 1].body;
      if Concerns(b, p) then Next(before, EventOf(b)) else before
  }

  // ---------------------------------------------------------------------------------------
  // Earlier frames
  // ---------------------------------------------------------------------------------------

  datatype Query =
    | PreparationOf(planId: PlanId) | OutcomeOf(planId: PlanId) | AttemptAt(planId: PlanId)
    | ApplicationOf(planId: PlanId) | ProofOf(planId: PlanId)
    | PreparationFor(intentId: IntentId) | ReservationFor(intentId: IntentId)

  predicate Answers(b: Body, q: Query) {
    match q
    case PreparationOf(p) => b.ActionBody? && b.state == PREPARED && b.planId == p
    case OutcomeOf(p) => b.ActionBody? && b.state != PREPARED && b.planId == p
    case AttemptAt(p) => b.AttemptBody? && b.planId == p
    case ApplicationOf(p) => b.ActionBody? && b.state == APPLIED && b.planId == p
    case ProofOf(p) => b.ActionBody? && b.state == VERIFIED && b.planId == p
    case PreparationFor(i) =>
      b.ActionBody? && b.state == PREPARED && b.details.PreparedDetails? && b.details.plan.intent.intentId == i
    case ReservationFor(i) => b.ReservationBody? && b.intentId == i
  }

  /** The last frame that answers. */
  ghost function Latest(log: seq<Frame>, q: Query): Option<Frame> {
    if log == [] then None
    else if Answers(log[|log| - 1].body, q) then Some(log[|log| - 1])
    else Latest(log[..|log| - 1], q)
  }

  ghost function Head(log: seq<Frame>): Digest { if log == [] then ZERO_DIGEST else log[|log| - 1].sha }

  // ---------------------------------------------------------------------------------------
  // What a frame must say
  // ---------------------------------------------------------------------------------------

  predicate Person(a: Authority) {
    (a.basis == Root && a.uid == 0) || ((a.basis == PrimaryGroup || a.basis == SupplementaryGroup) && a.uid != 0)
  }

  predicate System(a: Authority) { a.basis == SystemExpiry && a.uid == 0 && a.gid == 0 }

  /** The reservation is the very frame before, for the same intent and not later than the plan. */
  ghost predicate PreparationFits(env: Env, log: seq<Frame>, b: Body)
    requires b.ActionBody?
  {
    && b.reason == IntentPrepared && b.details.PreparedDetails?
    && var plan := b.details.plan;
    && b.planId == plan.planId == env.planIdOf(plan.intent.intentId, plan.nonce)
    && b.planHash == plan.planHash && b.observedAt == plan.preparedAt
    && 30 <= plan.intent.ttlSeconds <= 300 && plan.netns != 0 && plan.expiresAt == plan.preparedAt + 300_000_000_000
    && 0 < b.details.deadline <= MAX_U64 && b.details.intentSha == env.intentHash(plan.intent)
    && Latest(log, PreparationFor(plan.intent.intentId)).None?
    && var token := Latest(log, ReservationFor(plan.intent.intentId));
    && token.Some? && token.value.body.ReservationBody?
    && token.value.sha == b.previous && token.value.body.intentSha == b.details.intentSha
    && token.value.body.reservedAt <= plan.preparedAt
  }

  /** Approved and rejected by a person inside both clocks' five minutes on the plan's boot; expired only outside. */
  predicate DecisionFits(f: Frame, b: Body)
    requires f.body.ActionBody? && f.body.details.PreparedDetails? && b.ActionBody?
  {
    && var plan, deadline := f.body.details.plan, f.body.details.deadline;
    && b.planHash == plan.planHash && b.details.DecisionDetails?
    && var d := b.details;
    && d.decidedFrom == f.sha && 0 < d.decidedBootTime <= MAX_U64 && deadline > 300_000_000_000
    && if b.state == EXPIRED_UNAPPLIED then
         && (Person(d.authority) || System(d.authority))
         && match d.decidedOn
            case HostBootChanged => b.reason == HostBootChangedReason && d.decidedBoot != plan.bootId
            case WallDeadline =>
              b.reason == ApprovalDeadlineElapsed && d.decidedBoot == plan.bootId && b.observedAt >= plan.expiresAt
            case BootTimeDeadline =>
              b.reason == ApprovalDeadlineElapsed && d.decidedBoot == plan.bootId && d.decidedBootTime >= deadline
            case _ => false
       else
         && Person(d.authority) && d.decidedBoot == plan.bootId
         && plan.preparedAt <= b.observedAt < plan.expiresAt
         && deadline - 300_000_000_000 <= d.decidedBootTime < deadline
         && if b.state == APPROVED then b.reason == LocalAdminApproved && d.decidedOn == LocalAdminApproval
            else b.reason == LocalAdminRejected && d.decidedOn == LocalAdminRejection
  }

  /** The attempt names the approval and repeats the plan's target, boot and timeout. */
  predicate AttemptFits(f: Frame, approval: Frame, b: Body)
    requires f.body.ActionBody? && f.body.details.PreparedDetails? && b.AttemptBody?
  {
    var plan := f.body.details.plan;
    && b.approvedFrom == approval.sha && b.planHash == plan.planHash
    && b.bootId == plan.bootId && 0 < b.bootTime <= MAX_U64
    && b.netns == plan.netns != 0 && b.destination == plan.intent.destination
    && b.ttlSeconds == plan.intent.ttlSeconds && 30 <= b.ttlSeconds <= 300
  }

  /** The move names the record it follows, has its state's reason, and carries its state's evidence and no other. */
  predicate MoveFits(f: Frame, follows: Frame, b: Body)
    requires f.body.ActionBody? && f.body.details.PreparedDetails? && b.ActionBody?
  {
    && var plan := f.body.details.plan;
    && b.planHash == plan.planHash && b.details.LifecycleDetails?
    && var d := b.details;
    && d.movedFrom == follows.sha && 0 < d.movedBootTime <= MAX_U64
    && match b.state
       case STALE_ABORT => b.reason == TargetRevalidationFailed && d.movedOn != FreeText("") && d.extra == NoExtra
       case REJECTED =>
         && (b.reason == NftPreflightRejected || b.reason == NftApplyProvenAbsent)
         && d.movedOn != FreeText("") && d.extra == NoExtra
       case FAILED_DIRTY =>
         && b.reason == NftResultUncertain && d.movedOn != FreeText("") && d.extra == NoExtra && d.movedBoot == plan.bootId
       case EXPIRED =>
         && b.reason == NativeTimeoutExpired && d.extra == NoExtra
         && (d.movedOn == KernelTimeoutObserved || d.movedOn == NamespaceDestroyed || d.movedOn == HostBootChanged)
       case APPLIED =>
         && b.reason == NftApplyObserved && d.movedOn == ExactKernelReadback && d.movedBoot == plan.bootId
         && d.extra.AppliedExtra? && d.extra.attemptSha == follows.sha
         && follows.body.AttemptBody? && d.extra.observation.ruleset == follows.body.expectedRuleset
         && var seen := d.extra.observation;
         && seen.netns == plan.netns && seen.configuredMs == plan.intent.ttlSeconds * 1000
         && 0 < seen.remainingMs <= seen.configuredMs && seen.hostBefore == seen.hostAfter != 0
       case VERIFIED =>
         && b.reason == NftApplyVerified && d.movedOn == ProofCommitted && d.movedBoot == plan.bootId
         && d.extra.VerifiedExtra? && d.extra.appliedSha == follows.sha
         && d.movedBootTime < d.extra.auditDeadline <= MAX_U64
       case _ => false
  }

  /** The record that a move follows: the attempt while the mutation is under way, else the plan's last outcome. */
  ghost function Follows(log: seq<Frame>, p: PlanId): Option<Frame> {
    if StageOf(log, p) == UnderWay then Latest(log, AttemptAt(p)) else Latest(log, OutcomeOf(p))
  }

  ghost predicate PlanFrameFits(env: Env, log: seq<Frame>, b: Body)
    requires !b.ReservationBody?
  {
    && var stage := StageOf(log, b.planId);
    && Next(stage, EventOf(b)) != Impossible
    && if b.ActionBody? && b.state == PREPARED then PreparationFits(env, log, b)
       else
         var f := Latest(log, PreparationOf(b.planId));
         && f.Some? && f.value.body.ActionBody? && f.value.body.details.PreparedDetails?
         && if stage == Stage.Undecided then b.ActionBody? && DecisionFits(f.value, b)
            else
              var follows := Follows(log, b.planId);
              && follows.Some?
              && if b.AttemptBody? then AttemptFits(f.value, follows.value, b) else MoveFits(f.value, follows.value, b)
  }

  ghost predicate Fits(env: Env, log: seq<Frame>, frame: Frame) {
    && frame.sha == env.recordHash(frame.body)
    && frame.body.previous == Head(log)
    && match frame.body
       case ReservationBody(i, intentSha, _, _) =>
         && Latest(log, PreparationFor(i)).None?
         && var token := Latest(log, ReservationFor(i));
         && (token.Some? ==> token.value.body.ReservationBody? && token.value.body.intentSha == intentSha)
       case _ => PlanFrameFits(env, log, frame.body)
  }

  ghost predicate Acceptable(env: Env, log: seq<Frame>) {
    forall i :: 0 <= i < |log| ==> Fits(env, log[..i], log[i])
  }

  // ---------------------------------------------------------------------------------------
  // The tables, read off the frames
  // ---------------------------------------------------------------------------------------

  predicate Holds<T(==)>(entry: Option<T>, f: Option<Frame>, value: Frame -> Option<T>) {
    entry == if f.Some? then value(f.value) else None
  }

  function Entry<K, T>(m: map<K, T>, k: K): Option<T> { if k in m then Some(m[k]) else None }

  function AsPrepared(f: Frame): Option<PreparedState> {
    if f.body.ActionBody? && f.body.details.PreparedDetails?
    then Some(PreparedState(f.body.details.plan, f.body.details.intentSha, f.body.details.deadline, f.sha)) else None
  }

  function AsOutcome(f: Frame): Option<Outcome> {
    if f.body.ActionBody? then Some(Outcome(f.body.state, f.sha, f.body.observedAt)) else None
  }

  function AsAttempt(f: Frame): Option<AttemptState> {
    match f.body
    case AttemptBody(_, _, at, boot, bootTime, netns, _, _, ruleset, _, _) =>
      Some(AttemptState(f.sha, at, boot, bootTime, netns, ruleset))
    case _ => None
  }

  function AsObservation(f: Frame): Option<Observation> {
    if f.body.ActionBody? && f.body.details.LifecycleDetails? && f.body.details.extra.AppliedExtra?
    then Some(f.body.details.extra.observation) else None
  }

  function AsDeadline(f: Frame): Option<nat> {
    if f.body.ActionBody? && f.body.details.LifecycleDetails? && f.body.details.extra.VerifiedExtra?
    then Some(f.body.details.extra.auditDeadline) else None
  }

  function AsReservation(f: Frame): Option<ReservationState> {
    match f.body
    case ReservationBody(_, sha, at, _) => Some(ReservationState(sha, at, f.sha))
    case _ => None
  }

  ghost function Tokens(log: seq<Frame>): seq<ReservationState> {
    if log == [] then []
    else
      var last := AsReservation(log[|log| - 1]);
      Tokens(log[..|log| - 1]) + if last.Some? then [last.value] else []
  }

  /** What the tables say about a plan, at each stage of its life. */
  predicate Tells(m: Memory, p: PlanId, stage: Stage) {
    match stage
    case Impossible => false
    case Unseen => p !in m.byPlan && p !in m.outcomes && p !in m.attempts
    case Undecided => p in m.byPlan && p !in m.outcomes && p !in m.attempts
    case Approved => p in m.byPlan && p in m.outcomes && m.outcomes[p].state == APPROVED && p !in m.attempts
    case UnderWay => p in m.byPlan && p in m.outcomes && m.outcomes[p].state == APPROVED && p in m.attempts
    case Applied => p in m.byPlan && p in m.outcomes && m.outcomes[p].state == APPLIED && p in m.attempts
    case Verified => p in m.byPlan && p in m.outcomes && m.outcomes[p].state == VERIFIED && p in m.attempts
    case Closed =>
      p in m.byPlan && p in m.outcomes && m.outcomes[p].state in {REJECTED, EXPIRED_UNAPPLIED, STALE_ABORT, EXPIRED, FAILED_DIRTY}
  }

  /** Every table entry about the plan is what its latest frame recorded. */
  ghost predicate PlanTabled(m: Memory, log: seq<Frame>, p: PlanId) {
    && Holds(Entry(m.byPlan, p), Latest(log, PreparationOf(p)), AsPrepared)
    && Holds(Entry(m.outcomes, p), Latest(log, OutcomeOf(p)), AsOutcome)
    && Holds(Entry(m.attempts, p), Latest(log, AttemptAt(p)), AsAttempt)
    && Holds(Entry(m.applied, p), Latest(log, ApplicationOf(p)), AsObservation)
    && Holds(Entry(m.verified, p), Latest(log, ProofOf(p)), AsDeadline)
    && (p in m.byPlan ==> m.byPlan[p].plan.planId == p)
    && Tells(m, p, StageOf(log, p))
  }

  ghost predicate IntentTabled(m: Memory, log: seq<Frame>, i: IntentId) {
    && Holds(Entry(m.byIntent, i), Latest(log, PreparationFor(i)), AsPrepared)
    && Holds(Entry(m.reservations, i), Latest(log, ReservationFor(i)), AsReservation)
  }

  ghost predicate Tabulates(m: Memory, log: seq<Frame>) {
    && m.previous == Head(log) && m.recordCount == |log| && m.rateHistory == Tokens(log)
    && (forall p :: PlanTabled(m, log, p))
    && (forall i :: IntentTabled(m, log, i))
  }

  // ---------------------------------------------------------------------------------------
  // One more frame
  // ---------------------------------------------------------------------------------------

  lemma {:induction false} LatestAnswers(log: seq<Frame>, q: Query)
    ensures Latest(log, q).Some? ==> Answers(Latest(log, q).value.body, q)
    decreases |log|
  {
    hide Answers;
    if log != [] && !Answers(log[|log| - 1].body, q) {
      LatestAnswers(log[..|log| - 1], q);
    }
  }

  lemma Extends(log: seq<Frame>, f: Frame)
    ensures Head(log + [f]) == f.sha
    ensures Tokens(log + [f]) == Tokens(log) + if AsReservation(f).Some? then [AsReservation(f).value] else []
  {
    assert (log + [f])[..|log|] == log;
  }

  lemma LatestExtends(log: seq<Frame>, f: Frame, q: Query)
    ensures Latest(log + [f], q) == if Answers(f.body, q) then Some(f) else Latest(log, q)
  {
    hide Answers;
    assert (log + [f])[..|log|] == log;
  }

  lemma StageExtends(log: seq<Frame>, f: Frame, p: PlanId)
    ensures StageOf(log + [f], p) == if Concerns(f.body, p) then Next(StageOf(log, p), EventOf(f.body)) else StageOf(log, p)
  {
    hide Next;
    assert (log + [f])[..|log|] == log;
  }

  /** Where the plan's own frames are found, and that they are of the right kind. */
  lemma PlanFrames(m: Memory, log: seq<Frame>, p: PlanId)
    requires PlanTabled(m, log, p)
    ensures var f := Latest(log, PreparationOf(p));
            p in m.byPlan ==> f.Some? && f.value.body.ActionBody? && Some(m.byPlan[p]) == AsPrepared(f.value)
    ensures var o := Latest(log, OutcomeOf(p));
            p in m.outcomes ==> o.Some? && Some(m.outcomes[p]) == AsOutcome(o.value)
    ensures var a := Latest(log, AttemptAt(p));
            p in m.attempts ==> a.Some? && a.value.body.AttemptBody? && Some(m.attempts[p]) == AsAttempt(a.value)
  {
    hide Latest, StageOf, Tells;
    LatestAnswers(log, PreparationOf(p));
    LatestAnswers(log, OutcomeOf(p));
    LatestAnswers(log, AttemptAt(p));
  }

  // ---------------------------------------------------------------------------------------
  // The code's rules say the same
  // ---------------------------------------------------------------------------------------

  lemma DecisionRule(m: Memory, f: Frame, b: Body)
    requires b.ActionBody? && AsPrepared(f).Some? && AsPrepared(f).value.plan.planId == b.planId
    requires b.state == APPROVED || b.state == REJECTED || b.state == EXPIRED_UNAPPLIED
    ensures RecoveredDecisionOk(m, b, AsPrepared(f).value) <==> b.previous == m.previous && DecisionFits(f, b)
  {}

  /** What a move that follows the frame `follows` relies on. */
  ghost predicate Predecessor(m: Memory, p: PlanId, follows: Frame) {
    && p in m.outcomes && follows.sha == PlanPredecessor(m, p)
    && (m.outcomes[p].state == APPROVED && p in m.attempts ==> AsAttempt(follows) == Some(m.attempts[p]))
  }

  lemma MoveRule(m: Memory, f: Frame, follows: Frame, b: Body)
    requires b.ActionBody? && AsPrepared(f).Some? && AsPrepared(f).value.plan.planId == b.planId
    requires b.state != PREPARED && Predecessor(m, b.planId, follows)
    requires LifecycleTransitionAllowed(m.outcomes[b.planId].state, b.planId in m.attempts, b.state)
    ensures RecoveredLifecycleOk(m, b, AsPrepared(f).value) <==> b.previous == m.previous && MoveFits(f, follows, b)
  {
    hide PlanPredecessor;
  }

  /** The transition table, met by a plan at this stage. */
  lemma TransitionRule(m: Memory, p: PlanId, stage: Stage, state: ActionState)
    requires Tells(m, p, stage) && p in m.outcomes && state != PREPARED
    ensures LifecycleTransitionAllowed(m.outcomes[p].state, p in m.attempts, state) <==> Next(stage, State(state)) != Impossible
  {}

  lemma ReservationRule(m: Memory, log: seq<Frame>, frame: Frame)
    requires frame.body.ReservationBody? && m.previous == Head(log) && IntentTabled(m, log, frame.body.intentId)
    ensures ReplayReservation(m, frame).Some? <==>
            && frame.body.previous == Head(log)
            && Latest(log, PreparationFor(frame.body.intentId)).None?
            && var token := Latest(log, ReservationFor(frame.body.intentId));
            && (token.Some? ==> token.value.body.ReservationBody? && token.value.body.intentSha == frame.body.intentSha)
  {
    hide Latest, Head;
    LatestAnswers(log, PreparationFor(frame.body.intentId));
    LatestAnswers(log, ReservationFor(frame.body.intentId));
  }

  lemma PreparationRule(env: Env, m: Memory, log: seq<Frame>, frame: Frame)
    requires frame.body.ActionBody? && frame.body.state == PREPARED && m.previous == Head(log)
    requires PlanTabled(m, log, frame.body.planId)
    requires frame.body.details.PreparedDetails? ==> IntentTabled(m, log, frame.body.details.plan.intent.intentId)
    ensures ReplayPrepared(env, m, frame).Some? <==> frame.body.previous == Head(log) && PlanFrameFits(env, log, frame.body)
  {
    hide Latest, Head, StageOf;
    if frame.body.details.PreparedDetails? {
      LatestAnswers(log, PreparationFor(frame.body.details.plan.intent.intentId));
      LatestAnswers(log, ReservationFor(frame.body.details.plan.intent.intentId));
    }
  }

  lemma AttemptRule(env: Env, m: Memory, log: seq<Frame>, frame: Frame)
    requires frame.body.AttemptBody? && m.previous == Head(log) && PlanTabled(m, log, frame.body.planId)
    ensures ReplayAttempt(m, frame).Some? <==> frame.body.previous == Head(log) && PlanFrameFits(env, log, frame.body)
  {
    hide Latest, Head, StageOf;
    PlanFrames(m, log, frame.body.planId);
  }

  lemma ActionRule(env: Env, m: Memory, log: seq<Frame>, frame: Frame)
    requires frame.body.ActionBody? && frame.body.state != PREPARED && m.previous == Head(log)
    requires PlanTabled(m, log, frame.body.planId)
    ensures ReplayAction(m, frame).Some? <==> frame.body.previous == Head(log) && PlanFrameFits(env, log, frame.body)
  {
    hide Latest, Head, StageOf, RecoveredDecisionOk, RecoveredLifecycleOk, DecisionFits, MoveFits, LifecycleTransitionAllowed;
    var b := frame.body;
    var p := b.planId;
    PlanFrames(m, log, p);
    if p in m.byPlan {
      var f := Latest(log, PreparationOf(p)).value;
      if p !in m.outcomes {
        if b.state == APPROVED || b.state == REJECTED || b.state == EXPIRED_UNAPPLIED {
          DecisionRule(m, f, b);
        }
      } else {
        TransitionRule(m, p, StageOf(log, p), b.state);
        assert Predecessor(m, p, Follows(log, p).value);
        if LifecycleTransitionAllowed(m.outcomes[p].state, p in m.attempts, b.state) {
          MoveRule(m, f, Follows(log, p).value, b);
        } else {
          NotAllowed(m, b, m.byPlan[p]);
        }
      }
    }
  }

  lemma NotAllowed(m: Memory, b: Body, prepared: PreparedState)
    requires b.ActionBody? && b.planId in m.outcomes
    requires !LifecycleTransitionAllowed(m.outcomes[b.planId].state, b.planId in m.attempts, b.state)
    ensures !RecoveredLifecycleOk(m, b, prepared)
  {
    hide LifecycleTransitionAllowed;
  }

  /** A frame is accepted by replay exactly if it fits the frames before it. */
  lemma FrameRule(env: Env, m: Memory, log: seq<Frame>, frame: Frame)
    requires Tabulates(m, log)
    ensures ReplayFrame(env, m, frame).Some? <==> Fits(env, log, frame)
  {
    hide ReplayReservation, ReplayAttempt, ReplayPrepared, ReplayAction, PlanFrameFits, PlanTabled, IntentTabled, Latest, Head,
         Tokens;
    match frame.body
    case ReservationBody(i, _, _, _) =>
      assert IntentTabled(m, log, i);
      ReservationRule(m, log, frame);
    case AttemptBody(p, _, _, _, _, _, _, _, _, _, _) =>
      assert PlanTabled(m, log, p);
      AttemptRule(env, m, log, frame);
    case ActionBody(p, _, state, _, _, _, details) =>
      assert PlanTabled(m, log, p);
      if state == PREPARED {
        assert details.PreparedDetails? ==> IntentTabled(m, log, details.plan.intent.intentId);
        PreparationRule(env, m, log, frame);
      } else {
        ActionRule(env, m, log, frame);
      }
  }

  // ---------------------------------------------------------------------------------------
  // The tables keep up
  // ---------------------------------------------------------------------------------------

  ghost predicate SamePlan(m: Memory, m': Memory, p: PlanId) {
    && Entry(m'.byPlan, p) == Entry(m.byPlan, p) && Entry(m'.outcomes, p) == Entry(m.outcomes, p)
    && Entry(m'.attempts, p) == Entry(m.attempts, p) && Entry(m'.applied, p) == Entry(m.applied, p)
    && Entry(m'.verified, p) == Entry(m.verified, p)
  }

  ghost predicate SameIntents(m: Memory, m': Memory) { m'.byIntent == m.byIntent && m'.reservations == m.reservations }

  /** The frame became the head of the chain, and the rate history grew by a reservation only. */
  ghost predicate Chained(m: Memory, m': Memory, frame: Frame) {
    && m'.previous == frame.sha && m'.recordCount == m.recordCount + 1
    && m'.rateHistory == m.rateHistory + if AsReservation(frame).Some? then [AsReservation(frame).value] else []
  }

  lemma ReservationKeeps(m: Memory, frame: Frame, p: PlanId)
    requires frame.body.ReservationBody? && ReplayReservation(m, frame).Some?
    ensures SamePlan(m, ReplayReservation(m, frame).value, p) && Chained(m, ReplayReservation(m, frame).value, frame)
  {}

  lemma AttemptKeeps(m: Memory, frame: Frame, p: PlanId)
    requires frame.body.AttemptBody? && ReplayAttempt(m, frame).Some?
    ensures var m' := ReplayAttempt(m, frame).value;
            (p != frame.body.planId ==> SamePlan(m, m', p)) && SameIntents(m, m') && Chained(m, m', frame)
  {}

  lemma PreparationKeeps(env: Env, m: Memory, frame: Frame, p: PlanId)
    requires frame.body.ActionBody? && ReplayPrepared(env, m, frame).Some?
    ensures var m' := ReplayPrepared(env, m, frame).value;
            (p != frame.body.planId ==> SamePlan(m, m', p)) && Chained(m, m', frame)
  {
    hide PlanValid;
  }

  lemma ActionKeeps(m: Memory, frame: Frame, p: PlanId)
    requires frame.body.ActionBody? && frame.body.state != PREPARED && ReplayAction(m, frame).Some?
    ensures var m' := ReplayAction(m, frame).value;
            (p != frame.body.planId ==> SamePlan(m, m', p)) && SameIntents(m, m') && Chained(m, m', frame)
  {
    hide RecoveredDecisionOk, RecoveredLifecycleOk;
  }

  lemma FrameKeeps(env: Env, m: Memory, frame: Frame, p: PlanId)
    requires ReplayFrame(env, m, frame).Some?
    ensures var m' := ReplayFrame(env, m, frame).value;
            && (!Concerns(frame.body, p) ==> SamePlan(m, m', p)) && Chained(m, m', frame)
            && (frame.body.ReservationBody? || (frame.body.ActionBody? && frame.body.state == PREPARED) || SameIntents(m, m'))
  {
    hide ReplayReservation, ReplayAttempt, ReplayPrepared, ReplayAction, SamePlan, SameIntents, Chained;
    match frame.body
    case ReservationBody(_, _, _, _) => ReservationKeeps(m, frame, p);
    case AttemptBody(_, _, _, _, _, _, _, _, _, _, _) => AttemptKeeps(m, frame, p);
    case ActionBody(_, _, state, _, _, _, _) =>
      if state == PREPARED {
        PreparationKeeps(env, m, frame, p);
      } else {
        ActionKeeps(m, frame, p);
      }
  }

  lemma PlanUntouched(m: Memory, m': Memory, log: seq<Frame>, frame: Frame, p: PlanId)
    requires PlanTabled(m, log, p) && !Concerns(frame.body, p) && SamePlan(m, m', p)
    ensures PlanTabled(m', log + [frame], p)
  {
    hide Latest, StageOf;
    LatestExtends(log, frame, PreparationOf(p));
    LatestExtends(log, frame, OutcomeOf(p));
    LatestExtends(log, frame, AttemptAt(p));
    LatestExtends(log, frame, ApplicationOf(p));
    LatestExtends(log, frame, ProofOf(p));
    StageExtends(log, frame, p);
    assert p in m.byPlan ==> Entry(m.byPlan, p) == Some(m.byPlan[p]);
    assert p in m'.byPlan ==> Entry(m'.byPlan, p) == Some(m'.byPlan[p]);
    assert p in m.outcomes ==> Entry(m.outcomes, p) == Some(m.outcomes[p]);
    assert p in m'.outcomes ==> Entry(m'.outcomes, p) == Some(m'.outcomes[p]);
  }

  lemma OtherPlans(env: Env, m: Memory, log: seq<Frame>, frame: Frame, p: PlanId)
    requires PlanTabled(m, log, p) && !Concerns(frame.body, p) && ReplayFrame(env, m, frame).Some?
    ensures PlanTabled(ReplayFrame(env, m, frame).value, log + [frame], p)
  {
    hide PlanTabled, ReplayFrame, SamePlan;
    FrameKeeps(env, m, frame, p);
    PlanUntouched(m, ReplayFrame(env, m, frame).value, log, frame, p);
  }

  lemma AttemptTabled(m: Memory, log: seq<Frame>, frame: Frame)
    requires frame.body.AttemptBody? && PlanTabled(m, log, frame.body.planId) && ReplayAttempt(m, frame).Some?
    ensures PlanTabled(ReplayAttempt(m, frame).value, log + [frame], frame.body.planId)
  {
    hide Latest, StageOf;
    var p := frame.body.planId;
    LatestExtends(log, frame, PreparationOf(p));
    LatestExtends(log, frame, OutcomeOf(p));
    LatestExtends(log, frame, AttemptAt(p));
    LatestExtends(log, frame, ApplicationOf(p));
    LatestExtends(log, frame, ProofOf(p));
    StageExtends(log, frame, p);
  }

  lemma PreparationTabled(env: Env, m: Memory, log: seq<Frame>, frame: Frame)
    requires frame.body.ActionBody? && frame.body.state == PREPARED
    requires PlanTabled(m, log, frame.body.planId) && ReplayPrepared(env, m, frame).Some?
    ensures PlanTabled(ReplayPrepared(env, m, frame).value, log + [frame], frame.body.planId)
  {
    hide Latest, StageOf, PlanValid;
    var p := frame.body.planId;
    LatestExtends(log, frame, PreparationOf(p));
    LatestExtends(log, frame, OutcomeOf(p));
    LatestExtends(log, frame, AttemptAt(p));
    LatestExtends(log, frame, ApplicationOf(p));
    LatestExtends(log, frame, ProofOf(p));
    StageExtends(log, frame, p);
  }

  /** What the checks on a decision or a move leave to know about it. */
  lemma ActionFacts(m: Memory, frame: Frame, stage: Stage)
    requires frame.body.ActionBody? && frame.body.state != PREPARED && ReplayAction(m, frame).Some?
    requires Tells(m, frame.body.planId, stage)
    ensures Next(stage, State(frame.body.state)) != Impossible
    ensures frame.body.state == APPLIED ==> AsObservation(frame).Some?
    ensures frame.body.state == VERIFIED ==> AsDeadline(frame).Some?
  {
    hide LifecycleTransitionAllowed, LifecycleReasonAllowed, AppliedObservationOk;
    var p := frame.body.planId;
    if p in m.outcomes {
      TransitionRule(m, p, stage, frame.body.state);
    }
  }

  lemma ActionTabled(m: Memory, log: seq<Frame>, frame: Frame)
    requires frame.body.ActionBody? && frame.body.state != PREPARED
    requires PlanTabled(m, log, frame.body.planId) && ReplayAction(m, frame).Some?
    ensures PlanTabled(ReplayAction(m, frame).value, log + [frame], frame.body.planId)
  {
    hide Latest, StageOf, ReplayAction;
    var p := frame.body.planId;
    ActionFacts(m, frame, StageOf(log, p));
    ActionEntered(m, frame);
    LatestExtends(log, frame, PreparationOf(p));
    LatestExtends(log, frame, OutcomeOf(p));
    LatestExtends(log, frame, AttemptAt(p));
    LatestExtends(log, frame, ApplicationOf(p));
    LatestExtends(log, frame, ProofOf(p));
    StageExtends(log, frame, p);
  }

  lemma ActionEntered(m: Memory, frame: Frame)
    requires frame.body.ActionBody? && frame.body.state != PREPARED && ReplayAction(m, frame).Some?
    ensures var m', b := ReplayAction(m, frame).value, frame.body;
            && m'.byPlan == m.byPlan && m'.attempts == m.attempts
            && m'.outcomes == m.outcomes[b.planId := Outcome(b.state, frame.sha, b.observedAt)]
            && (if b.state == APPLIED then
                  AsObservation(frame).Some? && m'.applied == m.applied[b.planId := AsObservation(frame).value]
                else m'.applied == m.applied)
            && (if b.state == VERIFIED then
                  AsDeadline(frame).Some? && m'.verified == m.verified[b.planId := AsDeadline(frame).value]
                else m'.verified == m.verified)
  {
    hide LifecycleTransitionAllowed, LifecycleReasonAllowed, AppliedObservationOk, RecoveredDecisionOk;
  }

  lemma OwnPlan(env: Env, m: Memory, log: seq<Frame>, frame: Frame)
    requires !frame.body.ReservationBody? && PlanTabled(m, log, frame.body.planId) && ReplayFrame(env, m, frame).Some?
    ensures PlanTabled(ReplayFrame(env, m, frame).value, log + [frame], frame.body.planId)
  {
    hide PlanTabled, ReplayAttempt, ReplayPrepared, ReplayAction;
    match frame.body
    case AttemptBody(_, _, _, _, _, _, _, _, _, _, _) => AttemptTabled(m, log, frame);
    case ActionBody(_, _, state, _, _, _, _) =>
      if state == PREPARED {
        PreparationTabled(env, m, log, frame);
      } else {
        ActionTabled(m, log, frame);
      }
  }

  lemma ReservationEntered(m: Memory, log: seq<Frame>, frame: Frame, i: IntentId)
    requires frame.body.ReservationBody? && IntentTabled(m, log, i) && ReplayReservation(m, frame).Some?
    ensures IntentTabled(ReplayReservation(m, frame).value, log + [frame], i)
  {
    hide Latest;
    LatestExtends(log, frame, PreparationFor(i));
    LatestExtends(log, frame, ReservationFor(i));
  }

  lemma PreparationEntered(env: Env, m: Memory, log: seq<Frame>, frame: Frame, i: IntentId)
    requires frame.body.ActionBody? && frame.body.state == PREPARED
    requires IntentTabled(m, log, i) && ReplayPrepared(env, m, frame).Some?
    ensures IntentTabled(ReplayPrepared(env, m, frame).value, log + [frame], i)
  {
    hide Latest, PlanValid;
    LatestExtends(log, frame, PreparationFor(i));
    LatestExtends(log, frame, ReservationFor(i));
  }

  lemma IntentsUntouched(m: Memory, m': Memory, log: seq<Frame>, frame: Frame, i: IntentId)
    requires IntentTabled(m, log, i) && SameIntents(m, m')
    requires frame.body.AttemptBody? || (frame.body.ActionBody? && frame.body.state != PREPARED)
    ensures IntentTabled(m', log + [frame], i)
  {
    hide Latest;
    LatestExtends(log, frame, PreparationFor(i));
    LatestExtends(log, frame, ReservationFor(i));
  }

  lemma Intents(env: Env, m: Memory, log: seq<Frame>, frame: Frame, i: IntentId)
    requires IntentTabled(m, log, i) && ReplayFrame(env, m, frame).Some?
    ensures IntentTabled(ReplayFrame(env, m, frame).value, log + [frame], i)
  {
    hide IntentTabled, ReplayReservation, ReplayAttempt, ReplayPrepared, ReplayAction, SamePlan, SameIntents, Chained;
    FrameKeeps(env, m, frame, 0);
    if frame.body.ReservationBody? {
      ReservationEntered(m, log, frame, i);
    } else if frame.body.ActionBody? && frame.body.state == PREPARED {
      PreparationEntered(env, m, log, frame, i);
    } else {
      IntentsUntouched(m, ReplayFrame(env, m, frame).value, log, frame, i);
    }
  }

  lemma TablesKeepUp(env: Env, m: Memory, log: seq<Frame>, frame: Frame)
    requires Tabulates(m, log) && ReplayFrame(env, m, frame).Some?
    ensures Tabulates(ReplayFrame(env, m, frame).value, log + [frame])
  {
    hide PlanTabled, IntentTabled, ReplayFrame, Head, Tokens, AsReservation;
    var m' := ReplayFrame(env, m, frame).value;
    FrameKeeps(env, m, frame, 0);
    Extends(log, frame);
    forall p ensures PlanTabled(m', log + [frame], p) {
      assert PlanTabled(m, log, p);
      if Concerns(frame.body, p) {
        OwnPlan(env, m, log, frame);
      } else {
        OtherPlans(env, m, log, frame, p);
      }
    }
    forall i ensures IntentTabled(m', log + [frame], i) {
      assert IntentTabled(m, log, i);
      Intents(env, m, log, frame, i);
    }
  }

  lemma NothingTabled()
    ensures Tabulates(EMPTY_MEMORY, [])
  {}

  // ---------------------------------------------------------------------------------------
  // Main results
  // ---------------------------------------------------------------------------------------

  /**
   Of any sequence of frames: a restart rebuilds tables from it if and only if every frame fits the
   frames before it, and the tables then hold, entry by entry, what the latest frames recorded.
   */
  lemma {:induction false} ReplayAcceptsExactly(env: Env, log: seq<Frame>)
    ensures Replay(env, log).Some? <==> Acceptable(env, log)
    ensures Replay(env, log).Some? ==> Tabulates(Replay(env, log).value, log)
    decreases |log|
  {
    hide Fits, ReplayFrame, Tabulates;
    if log == [] {
      NothingTabled();
    } else {
      var before, last := log[..|log| - 1], log[|log| - 1];
      ReplayAcceptsExactly(env, before);
      AcceptableExtends(env, before, last);
      assert before + [last] == log;
      if Replay(env, before).Some? {
        FrameRule(env, Replay(env, before).value, before, last);
        if ReplayFrame(env, Replay(env, before).value, last).Some? {
          TablesKeepUp(env, Replay(env, before).value, before, last);
        }
      }
    }
  }

  lemma AcceptableExtends(env: Env, log: seq<Frame>, frame: Frame)
    ensures Acceptable(env, log + [frame]) <==> Acceptable(env, log) && Fits(env, log, frame)
  {
    hide Fits;
    var grown := log + [frame];
    assert forall i :: 0 <= i < |log| ==> grown[..i] == log[..i] && grown[i] == log[i];
    assert grown[..|log|] == log && grown[|log|] == frame;
    if Acceptable(env, grown) {
      forall i | 0 <= i < |log| ensures Fits(env, log[..i], log[i]) {
        assert Fits(env, grown[..i], grown[i]);
      }
      assert Fits(env, grown[..|log|], grown[|log|]);
    }
  }

  /** The recovery loop of a restarting daemon: it accepts exactly the acceptable journals, to what their frames record. */
  method RecoverPreparedStates(env: Env, records: seq<Frame>) returns (r: Option<Memory>)
    ensures r.Some? <==> |records| <= MAX_RECORDS && Acceptable(env, records)
    ensures r.Some? ==> Tabulates(r.value, records)
    ensures |records| <= MAX_RECORDS ==> r == Replay(env, records)
  {
    hide Acceptable, Tabulates, ReplayFrame;
    ReplayAcceptsExactly(env, records);
    if |records| > MAX_RECORDS {
      return None;
    }
    var recovered := EMPTY_MEMORY;
    for i := 0 to |records|
      invariant Replay(env, records[..i]) == Some(recovered)
    {
      var next := ReplayFrame(env, recovered, records[i]);
      assert records[..i + 1][..i] == records[..i];
      match next {
        case None =>
          assert Replay(env, records[..i + 1]) == None;
          if Replay(env, records).Some? {
            ReplayPrefix(env, records, i + 1);
          }
          return None;
        case Some(m) =>
          recovered := m;
      }
    }
    assert records[..|records|] == records;
    return Some(recovered);
  }

  /** Every frame carries its own hash, and the frames are linked from the zero digest on. */
  lemma ReplayableIsLinked(env: Env, log: seq<Frame>, i: nat)
    requires Replay(env, log).Some? && i < |log|
    ensures log[i].sha == env.recordHash(log[i].body)
    ensures log[i].body.previous == if i == 0 then ZERO_DIGEST else log[i - 1].sha
  {
    hide Replay, PlanFrameFits, Latest;
    ReplayAcceptsExactly(env, log);
    assert Fits(env, log[..i], log[i]);
  }

  function Rank(stage: Stage): nat {
    match stage
    case Unseen => 0
    case Undecided => 1
    case Approved => 2
    case UnderWay => 3
    case Applied => 4
    case Verified => 5
    case _ => 6
  }

  lemma EventsAdvance(stage: Stage, e: Event)
    requires Next(stage, e) != Impossible
    ensures Rank(stage) < Rank(Next(stage, e))
  {}

  lemma {:induction false} LivesAdvance(env: Env, log: seq<Frame>, p: PlanId, i: nat, j: nat)
    requires Acceptable(env, log) && i <= j <= |log|
    ensures Rank(StageOf(log[..i], p)) <= Rank(StageOf(log[..j], p))
    ensures i < j && Concerns(log[i].body, p) ==>
              && Next(StageOf(log[..i], p), EventOf(log[i].body)) != Impossible
              && Rank(Next(StageOf(log[..i], p), EventOf(log[i].body))) <= Rank(StageOf(log[..j], p))
    decreases j
  {
    hide Latest, StageOf, Next, Rank, PreparationFits, DecisionFits, AttemptFits, MoveFits;
    if i < j {
      var k := j - 1;
      LivesAdvance(env, log, p, i, k);
      assert Fits(env, log[..k], log[k]);
      assert log[..k] + [log[k]] == log[..j];
      StageExtends(log[..k], log[k], p);
      if Concerns(log[k].body, p) {
        EventsAdvance(StageOf(log[..k], p), EventOf(log[k].body));
      }
    }
  }

  lemma SameEventSameRank(a: Stage, b: Stage, e: Event)
    requires Next(a, e) != Impossible && Next(b, e) != Impossible
    ensures Rank(Next(a, e)) == Rank(Next(b, e))
  {}

  /** Nothing happens to a plan twice: no two preparations, approvals, attempts, applications, and so on. */
  lemma NothingHappensTwice(env: Env, log: seq<Frame>, p: PlanId, i: nat, j: nat)
    requires Replay(env, log).Some? && i < j < |log| && Concerns(log[i].body, p) && Concerns(log[j].body, p)
    ensures EventOf(log[i].body) != EventOf(log[j].body)
  {
    hide Replay, StageOf, Next, Rank, Fits;
    ReplayAcceptsExactly(env, log);
    LivesAdvance(env, log, p, i, j);
    LivesAdvance(env, log, p, j, j + 1);
    EventsAdvance(StageOf(log[..j], p), EventOf(log[j].body));
    if EventOf(log[i].body) == EventOf(log[j].body) {
      SameEventSameRank(StageOf(log[..i], p), StageOf(log[..j], p), EventOf(log[i].body));
    }
  }

  /** A frame with the details of a decision comes when the plan is prepared and undecided. */
  lemma DecisionsDecide(env: Env, log: seq<Frame>, frame: Frame)
    requires Fits(env, log, frame) && frame.body.ActionBody? && frame.body.details.DecisionDetails?
    ensures StageOf(log, frame.body.planId) == Stage.Undecided
    ensures var f := Latest(log, PreparationOf(frame.body.planId));
            && f.Some? && f.value.body.ActionBody? && f.value.body.details.PreparedDetails? && DecisionFits(f.value, frame.body)
  {
    hide Latest, StageOf, Next, DecisionFits;
  }

  /** And at most one decision is taken on a plan. */
  lemma DecidedOnce(env: Env, log: seq<Frame>, p: PlanId, i: nat, j: nat)
    requires Replay(env, log).Some? && i < j < |log| && Concerns(log[i].body, p) && Concerns(log[j].body, p)
    requires log[i].body.ActionBody? && log[i].body.details.DecisionDetails?
    ensures !(log[j].body.ActionBody? && log[j].body.details.DecisionDetails?)
  {
    hide Replay, StageOf, Next, Fits, Latest, DecisionFits;
    ReplayAcceptsExactly(env, log);
    assert Fits(env, log[..i], log[i]) && Fits(env, log[..j], log[j]);
    LivesAdvance(env, log, p, i, j);
    DecisionsDecide(env, log[..i], log[i]);
    EventsAdvance(StageOf(log[..i], p), EventOf(log[i].body));
    if log[j].body.ActionBody? && log[j].body.details.DecisionDetails? {
      DecisionsDecide(env, log[..j], log[j]);
    }
  }

  lemma {:induction false} LatestIndex(log: seq<Frame>, q: Query) returns (j: nat)
    requires Latest(log, q).Some?
    ensures j < |log| && log[j] == Latest(log, q).value && Answers(log[j].body, q)
    decreases |log|
  {
    hide Answers;
    j := |log| - 1;
    if !Answers(log[j].body, q) {
      j := LatestIndex(log[..j], q);
    }
  }

  /**
   Every APPROVED record names an earlier PREPARED record of the same plan and hash, and was made
   by a person, not by the system, on the plan's boot and inside both five-minute windows.
   */
  lemma ApprovalsAreTimely(env: Env, log: seq<Frame>, i: nat) returns (j: nat)
    requires Replay(env, log).Some? && i < |log| && log[i].body.ActionBody? && log[i].body.state == APPROVED
    ensures j < i && log[j].body.ActionBody? && log[j].body.state == PREPARED && log[j].body.details.PreparedDetails?
    ensures log[i].body.details.DecisionDetails?
    ensures var plan, deadline, d := log[j].body.details.plan, log[j].body.details.deadline, log[i].body.details;
            && log[i].body.planId == log[j].body.planId && log[i].body.planHash == plan.planHash && d.decidedFrom == log[j].sha
            && Person(d.authority) && d.decidedBoot == plan.bootId
            && plan.preparedAt <= log[i].body.observedAt < plan.expiresAt
            && deadline - 300_000_000_000 <= d.decidedBootTime < deadline
  {
    hide Replay, StageOf, Latest, MoveFits;
    ReplayAcceptsExactly(env, log);
    assert Fits(env, log[..i], log[i]);
    j := LatestIndex(log[..i], PreparationOf(log[i].body.planId));
  }

  // ---------------------------------------------------------------------------------------
  // The frames a plan may still need
  // ---------------------------------------------------------------------------------------

  /** The longest life still ahead. */
  function Ahead(stage: Stage): nat {
    match stage
    case Unseen => 6
    case Undecided => 5
    case Approved => 4
    case UnderWay => 3
    case Applied => 2
    case Verified => 1
    case _ => 0
  }

  function SomeNext(stage: Stage): Event {
    match stage
    case Unseen => State(PREPARED)
    case Undecided => State(APPROVED)
    case Approved => Attempted
    case UnderWay => State(APPLIED)
    case Applied => State(VERIFIED)
    case _ => State(EXPIRED)
  }

  lemma AheadIsLongest(stage: Stage, e: Event)
    ensures Next(stage, e) != Impossible ==> Ahead(Next(stage, e)) < Ahead(stage)
    ensures Ahead(stage) > 0 ==>
              Next(stage, SomeNext(stage)) != Impossible && Ahead(Next(stage, SomeNext(stage))) == Ahead(stage) - 1
  {}

  /** A live plan keeps one frame more than its longest life needs, a dirty one keeps one, an ended one none. */
  lemma SharesCoverTheRest(m: Memory, p: PlanId, stage: Stage)
    requires Tells(m, p, stage) && p in m.byPlan
    ensures LifecycleFutureFrames(if p in m.outcomes then Some(m.outcomes[p].state) else None, p in m.attempts)
            == if Dirty(m, p) then 1 else if stage == Closed then 0 else Ahead(stage) + 1
  {}
}
