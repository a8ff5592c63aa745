/**
 Restart: rebuilding the journal's tables from its frames. Each frame is checked against the
 tables rebuilt so far; the first one that does not fit makes the whole journal corrupt.
 */
module ActuatorReplay {
  import opened Wrappers
  import opened ActuatorRecords

  function ReplayReservation(m: Memory, frame: Frame): Option<Memory>
    requires frame.body.ReservationBody?
  {
    var b := frame.body;
    if b.previous != m.previous then None
    else if b.intentId in m.byIntent then None
    else if b.intentId in m.reservations && m.reservations[b.intentId].intentSha != b.intentSha then None
    else
      var state := ReservationState(b.intentSha, b.reservedAt, frame.sha);
      Some(m.(reservations := m.reservations[b.intentId := state],
              rateHistory := m.rateHistory + [state],
              previous := frame.sha,
              recordCount := m.recordCount + 1))
  }

  function ReplayAttempt(m: Memory, frame: Frame): Option<Memory>
    requires frame.body.AttemptBody?
  {
    var b := frame.body;
    if b.planId !in m.byPlan || b.planId !in m.outcomes then None
    else if b.planId in m.attempts then None
    else
      var plan := m.byPlan[b.planId].plan;
      if !(&& 0 < b.bootTime <= MAX_U64
           && b.netns != 0
           && MIN_TTL_SECONDS <= b.ttlSeconds <= MAX_TTL_SECONDS
           && m.outcomes[b.planId].state == APPROVED
           && b.previous == m.previous
           && b.approvedFrom == m.outcomes[b.planId].sha
           && b.planId == plan.planId
           && b.planHash == plan.planHash
           && b.bootId == plan.bootId
           && b.netns == plan.netns
           && b.destination == plan.intent.destination
           && b.ttlSeconds == plan.intent.ttlSeconds) then None
      else
        var state := AttemptState(frame.sha, b.startedAt, b.bootId, b.bootTime, b.netns, b.expectedRuleset);
        Some(m.(attempts := m.attempts[b.planId := state],
                previous := frame.sha,
                recordCount := m.recordCount + 1))
  }

  function ReplayPrepared(env: Env, m: Memory, frame: Frame): Option<Memory>
    requires frame.body.ActionBody?
  {
    var b := frame.body;
    if !(b.reason == IntentPrepared && b.previous == m.previous && b.details.PreparedDetails?) then None
    else
      var plan := b.details.plan;
      if !(&& PlanValid(env, plan)
           && 0 < b.details.deadline <= MAX_U64
           && b.details.intentSha == env.intentHash(plan.intent)
           && b.planId == plan.planId
           && b.planHash == plan.planHash
           && b.observedAt == plan.preparedAt) then None
      else if plan.intent.intentId !in m.reservations then None
      else
        var reservation := m.reservations[plan.intent.intentId];
        if reservation.intentSha != b.details.intentSha || reservation.sha != b.previous then None
        else if plan.preparedAt < reservation.reservedAt then None
        else if plan.intent.intentId in m.byIntent || plan.planId in m.byPlan then None
        else
          var state := PreparedState(plan, b.details.intentSha, b.details.deadline, frame.sha);
          Some(m.(byIntent := m.byIntent[plan.intent.intentId := state],
                  byPlan := m.byPlan[plan.planId := state],
                  previous := frame.sha,
                  recordCount := m.recordCount + 1))
  }

  /** A recovered decision must name its PREPARED record and lie on the right side of the window. */
  predicate RecoveredDecisionOk(m: Memory, body: Body, prepared: PreparedState)
    requires body.ActionBody?
  {
    && body.previous == m.previous
    && body.planId == prepared.plan.planId
    && body.planHash == prepared.plan.planHash
    && body.details.DecisionDetails?
    && var d := body.details;
    && 0 < d.decidedBootTime <= MAX_U64
    && d.authority.Valid()
    && d.decidedFrom == prepared.sha
    && DecisionReason(body.state, d.decidedOn) == Some(body.reason)
    && prepared.deadline > APPROVAL_TTL
    && match body.state
       case EXPIRED_UNAPPLIED =>
         (match d.decidedOn
          case WallDeadline => d.decidedBoot == prepared.plan.bootId && body.observedAt >= prepared.plan.expiresAt
          case BootTimeDeadline => d.decidedBoot == prepared.plan.bootId && d.decidedBootTime >= prepared.deadline
          case HostBootChanged => d.decidedBoot != prepared.plan.bootId
          case _ => true)
       case _ =>
         && d.authority.basis != SystemExpiry
         && d.decidedBoot == prepared.plan.bootId
         && prepared.plan.preparedAt <= body.observedAt < prepared.plan.expiresAt
         && prepared.deadline - APPROVAL_TTL <= d.decidedBootTime < prepared.deadline
  }

  predicate RecoveredLifecycleOk(m: Memory, body: Body, prepared: PreparedState)
    requires body.ActionBody? && body.planId in m.outcomes
  {
    var p := body.planId;
    && body.previous == m.previous
    && p == prepared.plan.planId
    && body.planHash == prepared.plan.planHash
    && LifecycleTransitionAllowed(m.outcomes[p].state, p in m.attempts, body.state)
    && LifecycleDetailsOk(body, PlanPredecessor(m, p), prepared)
    && (body.state == APPLIED ==>
          p in m.attempts && body.details.extra.observation.ruleset == m.attempts[p].expectedRuleset)
  }

  function ReplayAction(m: Memory, frame: Frame): Option<Memory>
    requires frame.body.ActionBody? && frame.body.state != PREPARED
  {
    var b := frame.body;
    var p := b.planId;
    var decidable := b.state == APPROVED || b.state == REJECTED || b.state == EXPIRED_UNAPPLIED;
    var movable := b.state in {APPLIED, VERIFIED, EXPIRED, STALE_ABORT, FAILED_DIRTY};
    if !decidable && !movable then None
    else if p !in m.byPlan then None
    else if p !in m.outcomes then
      if decidable && RecoveredDecisionOk(m, b, m.byPlan[p]) then
        Some(m.(outcomes := m.outcomes[p := Outcome(b.state, frame.sha, b.observedAt)],
                previous := frame.sha,
                recordCount := m.recordCount + 1))
      else None
    else if !RecoveredLifecycleOk(m, b, m.byPlan[p]) then None
    else
      Some(m.(outcomes := m.outcomes[p := Outcome(b.state, frame.sha, b.observedAt)],
              applied := if b.state == APPLIED then m.applied[p := b.details.extra.observation] else m.applied,
              verified := if b.state == VERIFIED then m.verified[p := b.details.extra.auditDeadline] else m.verified,
              previous := frame.sha,
              recordCount := m.recordCount + 1))
  }

  /** One frame of recovery: the frame must carry its own hash and fit the tables so far. */
  function ReplayFrame(env: Env, m: Memory, frame: Frame): Option<Memory> {
    if frame.sha != env.recordHash(frame.body) then None
    else match frame.body
      case ReservationBody(_, _, _, _) => ReplayReservation(m, frame)
      case AttemptBody(_, _, _, _, _, _, _, _, _, _, _) => ReplayAttempt(m, frame)
      case ActionBody(_, _, state, _, _, _, _) =>
        if state == PREPARED then ReplayPrepared(env, m, frame) else ReplayAction(m, frame)
  }

  /** The tables that a whole log rebuilds to, or None when some frame does not fit. */
  function Replay(env: Env, log: seq<Frame>): Option<Memory> {
    if log == [] then Some(EMPTY_MEMORY)
    else
      match Replay(env, log[..|log| - 1])
      case None => None
      case Some(m) => ReplayFrame(env, m, log[|log| - 1])
  }

  predicate CountsOne(m: Memory, frame: Frame, next: Option<Memory>) {
    next.Some? ==> next.value.recordCount == m.recordCount + 1 && next.value.previous == frame.sha
  }

  lemma ReplayActionCounts(m: Memory, frame: Frame)
    requires frame.body.ActionBody? && frame.body.state != PREPARED
    ensures CountsOne(m, frame, ReplayAction(m, frame))
  {
    hide RecoveredDecisionOk, RecoveredLifecycleOk;
  }

  lemma ReplayFrameCounts(env: Env, m: Memory, frame: Frame)
    ensures CountsOne(m, frame, ReplayFrame(env, m, frame))
  {
    hide PlanValid, ReplayAction;
    if frame.body.ActionBody? && frame.body.state != PREPARED {
      ReplayActionCounts(m, frame);
    }
  }

  /** A journal that replays has only replayable prefixes. */
  lemma {:induction false} ReplayPrefix(env: Env, log: seq<Frame>, k: nat)
    requires k <= |log| && Replay(env, log).Some?
    ensures Replay(env, log[..k]).Some?
    decreases |log|
  {
    if k < |log| {
      assert log[..|log| - 1][..k] == log[..k];
      ReplayPrefix(env, log[..|log| - 1], k);
    } else {
      assert log[..k] == log;
    }
  }
}
