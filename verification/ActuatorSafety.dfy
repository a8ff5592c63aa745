/**
 What every frame the service may append keeps true of the journal's tables, and hence what
 holds of every log built only from such frames.
 */
module ActuatorSafety {
  import opened Wrappers
  import opened ActuatorRecords
  import opened ActuatorReplay
  import opened ActuatorAppend

  // ---------------------------------------------------------------------------------------
  // Table invariants
  // ---------------------------------------------------------------------------------------

  /** Both plan tables hold the same plans, one per intent. */
  ghost predicate IntentsSound(m: Memory) {
    && (forall i :: i in m.byIntent ==>
          var s := m.byIntent[i];
          s.plan.intent.intentId == i && s.plan.planId in m.byPlan && m.byPlan[s.plan.planId] == s)
    && (forall p :: p in m.byPlan ==>
          m.byPlan[p].plan.intent.intentId in m.byIntent && m.byIntent[m.byPlan[p].plan.intent.intentId] == m.byPlan[p])
  }

  predicate OutcomeSound(m: Memory, p: PlanId)
    requires p in m.outcomes
  {
    var state := m.outcomes[p].state;
    && state != PROPOSED && state != POLICY_ADMITTED && state != PREPARED
    && (state == EXPIRED_UNAPPLIED || state == STALE_ABORT ==> p !in m.attempts)
    && (state == APPLIED || state == VERIFIED || state == EXPIRED || state == FAILED_DIRTY ==> p in m.attempts)
    && (state == APPLIED || state == VERIFIED ==> p in m.applied)
    && (state == APPROVED ==> p !in m.applied)
    && (state == VERIFIED ==> p in m.verified && m.verified[p] > 0)
    && (p in m.attempts ==> m.attempts[p].bootTime <= MAX_U64)
  }

  /** Decided plans were prepared, attempted plans were decided, and side tables are there when needed. */
  ghost predicate OutcomesSound(m: Memory) {
    && m.outcomes.Keys <= m.byPlan.Keys
    && m.attempts.Keys <= m.outcomes.Keys
    && m.applied.Keys <= m.attempts.Keys
    && forall p :: p in m.outcomes ==> OutcomeSound(m, p)
  }

  /** At most one plan's mutation is unsettled. */
  ghost predicate Exclusive(m: Memory) { forall p, q :: InFlight(m, p) && InFlight(m, q) ==> p == q }

  /** At most five active containments, never two on one container generation. */
  ghost predicate Contained(m: Memory) {
    && m.outcomes.Keys <= m.byPlan.Keys
    && |Active(m)| <= 5
    && (forall p, q :: p in Active(m) && q in Active(m) && p != q ==>
          m.byPlan[p].plan.intent.container != m.byPlan[q].plan.intent.container
          || m.byPlan[p].plan.intent.startedAt != m.byPlan[q].plan.intent.startedAt)
  }

  /** Room is left for every frame that a prepared plan may still need. */
  ghost predicate CapacityReserved(m: Memory, bytes: nat) {
    && m.recordCount + Budget(m) <= MAX_RECORDS
    && bytes + FullFrames(Budget(m)) <= MAX_JOURNAL_BYTES
  }

  /** Reservations with `t <= reservedAt < t + window`. */
  function WindowCount(history: seq<ReservationState>, t: int, window: nat): nat {
    if history == [] then 0
    else
      var last := history[|history| - 1];
      WindowCount(history[..|history| - 1], t, window) + if t <= last.reservedAt < t + window then 1 else 0
  }

  ghost predicate RateBounded(history: seq<ReservationState>) {
    && (forall i, j :: 0 <= i <= j < |history| ==> history[i].reservedAt <= history[j].reservedAt)
    && (forall t: int :: WindowCount(history, t, 60_000_000_000) <= 3)
    && (forall t: int :: WindowCount(history, t, 3600_000_000_000) <= 20)
  }

  ghost predicate MemSafe(env: Env, m: Memory, bytes: nat) {
    && PlansSound(env, m)
    && IntentsSound(m)
    && OutcomesSound(m)
    && Exclusive(m)
    && Contained(m)
    && CapacityReserved(m, bytes)
    && RateBounded(m.rateHistory)
  }

  // ---------------------------------------------------------------------------------------
  // Frame budget arithmetic
  // ---------------------------------------------------------------------------------------

  lemma {:induction false} OwedSplit(m: Memory, plans: set<PlanId>, p: PlanId)
    requires p in plans
    ensures OwedBy(m, plans) == PlanOwes(m, p) + OwedBy(m, plans - {p})
    decreases |plans|
  {
    var q :| q in plans && OwedBy(m, plans) == PlanOwes(m, q) + OwedBy(m, plans - {q});
    if q != p {
      OwedSplit(m, plans - {q}, p);
      OwedSplit(m, plans - {p}, q);
      assert plans - {q} - {p} == plans - {p} - {q};
    }
  }

  lemma {:induction false} OwedUnchanged(m: Memory, m': Memory, plans: set<PlanId>)
    requires forall p :: p in plans ==> PlanOwes(m, p) == PlanOwes(m', p)
    ensures OwedBy(m, plans) == OwedBy(m', plans)
    decreases |plans|
  {
    if plans != {} {
      var p :| p in plans;
      OwedSplit(m, plans, p);
      OwedSplit(m', plans, p);
      OwedUnchanged(m, m', plans - {p});
    }
  }

  /** Moving one plan changes the budget by that plan's share alone. */
  lemma BudgetAfterMove(m: Memory, m': Memory, p: PlanId)
    requires p in m.byPlan && m'.byPlan.Keys == m.byPlan.Keys
    requires forall q :: q in m.byPlan && q != p ==> PlanOwes(m, q) == PlanOwes(m', q)
    ensures Budget(m') == Budget(m) - PlanOwes(m, p) + PlanOwes(m', p)
  {
    OwedSplit(m, m.byPlan.Keys, p);
    OwedSplit(m', m.byPlan.Keys, p);
    OwedUnchanged(m, m', m.byPlan.Keys - {p});
  }

  /** A prepared plan's own frames are always paid for, so none of them is refused for lack of room. */
  lemma ReservedFramesFit(m: Memory, bytes: nat, p: PlanId, frameSize: nat, newBudget: nat)
    requires CapacityReserved(m, bytes) && p in m.byPlan
    requires frameSize <= FULL_FRAME && newBudget + 1 <= PlanOwes(m, p)
    ensures TransitionFits(m, bytes, p, frameSize, newBudget)
  {
    OwedSplit(m, m.byPlan.Keys, p);
  }

  /** A decision on a prepared plan that fits a frame is never turned away for lack of room. */
  lemma DecisionNeverRefused(env: Env, m: Memory, bytes: nat, prepared: PreparedState, authority: Authority,
                             sample: Sample, state: ActionState, reason: Reason, basis: Basis)
    requires CapacityReserved(m, bytes) && OutcomesSound(m) && prepared.plan.planId in m.byPlan
    requires env.payloadSize(DecisionBody(m.previous, prepared, authority, sample, state, reason, basis)) <= MAX_FRAME_PAYLOAD
    ensures BuildDecision(env, m, bytes, prepared, authority, sample, state, reason, basis) != Failure(PendingLimit)
  {
    hide CapacityReserved, TransitionFits;
    var p := prepared.plan.planId;
    var body := DecisionBody(m.previous, prepared, authority, sample, state, reason, basis);
    if p !in m.outcomes && DecisionReason(state, basis) == Some(reason) {
      ReservedFramesFit(m, bytes, p, FrameSize(env, body), LifecycleFutureFrames(Some(state), false));
    }
  }

  /** Nor is the apply attempt of an approved plan. */
  lemma AttemptNeverRefused(env: Env, m: Memory, bytes: nat, prepared: PreparedState, sample: Sample, ruleset: Digest)
    requires CapacityReserved(m, bytes) && prepared.plan.planId in m.byPlan
    requires prepared.plan.planId in m.outcomes ==>
               env.payloadSize(AttemptRecord(m, prepared, sample, ruleset)) <= MAX_FRAME_PAYLOAD
    ensures BuildAttempt(env, m, bytes, prepared, sample, ruleset) != Failure(PendingLimit)
  {
    hide CapacityReserved, TransitionFits;
    var p := prepared.plan.planId;
    if p in m.outcomes && m.outcomes[p].state == APPROVED && p !in m.attempts {
      ReservedFramesFit(m, bytes, p, FrameSize(env, AttemptRecord(m, prepared, sample, ruleset)),
                        LifecycleFutureFrames(Some(APPROVED), true));
    }
  }

  lemma MoveIsPaidFor(m: Memory, p: PlanId, state: ActionState)
    requires p in m.outcomes
    ensures LifecycleTransitionAllowed(m.outcomes[p].state, p in m.attempts, state) ==>
              LifecycleFutureFrames(Some(state), p in m.attempts) + 1 <= PlanOwes(m, p)
  {}

  lemma LifecycleLacksRoom(env: Env, m: Memory, bytes: nat, prepared: PreparedState, sample: Sample,
                           state: ActionState, reason: Reason, basis: Basis, extra: Extra)
    requires BuildLifecycle(env, m, bytes, prepared, sample, state, reason, basis, extra) == Failure(PendingLimit)
    ensures var p := prepared.plan.planId;
            && p in m.outcomes && LifecycleTransitionAllowed(m.outcomes[p].state, p in m.attempts, state)
            && !TransitionFits(m, bytes, p, FrameSize(env, LifecycleBody(m, prepared, sample, state, reason, basis, extra)),
                               LifecycleFutureFrames(Some(state), p in m.attempts))
  {
    hide TransitionFits, LifecycleDetailsOk, LifecycleReasonAllowed, LifecycleTransitionAllowed, LifecycleFutureFrames, FrameSize;
  }

  /** Nor any later record of its lifecycle. */
  lemma LifecycleNeverRefused(env: Env, m: Memory, bytes: nat, prepared: PreparedState, sample: Sample,
                              state: ActionState, reason: Reason, basis: Basis, extra: Extra)
    requires CapacityReserved(m, bytes) && prepared.plan.planId in m.byPlan
    requires prepared.plan.planId in m.outcomes ==>
               env.payloadSize(LifecycleBody(m, prepared, sample, state, reason, basis, extra)) <= MAX_FRAME_PAYLOAD
    ensures BuildLifecycle(env, m, bytes, prepared, sample, state, reason, basis, extra) != Failure(PendingLimit)
  {
    hide CapacityReserved, TransitionFits, LifecycleBody, LifecycleTransitionAllowed, LifecycleFutureFrames, PlanOwes,
         BuildLifecycle;
    var p := prepared.plan.planId;
    if BuildLifecycle(env, m, bytes, prepared, sample, state, reason, basis, extra) == Failure(PendingLimit) {
      LifecycleLacksRoom(env, m, bytes, prepared, sample, state, reason, basis, extra);
      MoveIsPaidFor(m, p, state);
      ReservedFramesFit(m, bytes, p, FrameSize(env, LifecycleBody(m, prepared, sample, state, reason, basis, extra)),
                        LifecycleFutureFrames(Some(state), p in m.attempts));
    }
  }

  /** And the PREPARED record that directly follows its reservation always fits. */
  lemma PreparedNeverRefused(env: Env, m: Memory, bytes: nat, reserved: Body, plan: Plan, intentSha: Digest, deadline: nat)
    requires reserved.ReservationBody?
    requires BuildReservation(env, m, bytes, reserved.intentId, reserved.intentSha, reserved.reservedAt) == Success(reserved)
    ensures var m' := Installed(m, SealedFrame(env, reserved));
            env.payloadSize(PreparedBody(m'.previous, plan, intentSha, deadline)) <= MAX_FRAME_PAYLOAD ==>
              BuildPrepared(env, m', bytes + FrameSize(env, reserved), plan, intentSha, deadline) != Failure(PendingLimit)
  {
    OwedUnchanged(m, Installed(m, SealedFrame(env, reserved)), m.byPlan.Keys);
  }

  // ---------------------------------------------------------------------------------------
  // One permitted frame keeps each invariant
  // ---------------------------------------------------------------------------------------

  /** Frames that leave decisions and attempts alone and never replace a plan. */
  ghost predicate OnlyAddsPlans(m: Memory, m': Memory) {
    && m'.outcomes == m.outcomes && m'.attempts == m.attempts && m'.applied == m.applied && m'.verified == m.verified
    && forall p :: p in m.byPlan ==> p in m'.byPlan && m'.byPlan[p] == m.byPlan[p]
  }

  /** An apply attempt starts from an unlocked journal, for an approved plan with room for one more containment. */
  ghost predicate StartsAttempt(m: Memory, p: PlanId) {
    && m.outcomes.Keys <= m.byPlan.Keys
    && p in m.outcomes && m.outcomes[p].state == APPROVED && p !in m.attempts
    && !MutationLocked(m)
    && m.byPlan[p].plan.planId == p
    && ContainmentAllowed(m, m.byPlan[p].plan)
  }

  /** A decision starts a plan's outcome and a lifecycle frame moves it along the state graph. */
  ghost predicate Moves(m: Memory, p: PlanId, state: ActionState) {
    && p in m.byPlan
    && if p in m.outcomes then LifecycleTransitionAllowed(m.outcomes[p].state, p in m.attempts, state)
       else p !in m.attempts && (state == APPROVED || state == REJECTED || state == EXPIRED_UNAPPLIED)
  }

  // The effects below are stated as implications: a caller that already knows the frame to be
  // permitted need not establish it conjunct by conjunct.

  lemma ReservationEffect(env: Env, m: Memory, bytes: nat, b: Body)
    ensures b.ReservationBody? && Permitted(env, m, bytes, b) ==>
              && OnlyAddsPlans(m, Installed(m, SealedFrame(env, b)))
              && RateAllowed(m.rateHistory, b.reservedAt)
              && m.recordCount + 1 + Budget(m) <= MAX_RECORDS
              && bytes + FrameSize(env, b) + FullFrames(Budget(m)) <= MAX_JOURNAL_BYTES
  {}

  lemma PreparedEffect(env: Env, m: Memory, bytes: nat, b: Body)
    ensures b.ActionBody? && b.state == PREPARED && Permitted(env, m, bytes, b) ==>
              && b.details.PreparedDetails? && b.planId == b.details.plan.planId
              && b.planId !in m.byPlan && b.details.plan.intent.intentId !in m.byIntent
              && PlanValid(env, b.details.plan) && APPROVAL_TTL < b.details.deadline <= MAX_U64
              && OnlyAddsPlans(m, Installed(m, SealedFrame(env, b)))
              && m.recordCount + 1 + Budget(m) + LIFECYCLE_FRAMES_PER_PLAN <= MAX_RECORDS
              && bytes + FrameSize(env, b) + FullFrames(Budget(m) + LIFECYCLE_FRAMES_PER_PLAN) <= MAX_JOURNAL_BYTES
  {}

  lemma AttemptEffect(env: Env, m: Memory, bytes: nat, b: Body)
    ensures b.AttemptBody? && Permitted(env, m, bytes, b) && PlansSound(env, m) ==>
              && b.planId in m.byPlan && StartsAttempt(m, b.planId) && b.bootTime <= MAX_U64
              && TransitionFits(m, bytes, b.planId, FrameSize(env, b),
                                PlanOwes(Installed(m, SealedFrame(env, b)), b.planId))
  {}

  ghost predicate PaysItsWay(env: Env, m: Memory, bytes: nat, b: Body)
    requires b.ActionBody?
  {
    && WellTyped(b)
    && TransitionFits(m, bytes, b.planId, FrameSize(env, b), PlanOwes(Installed(m, SealedFrame(env, b)), b.planId))
  }

  lemma DecisionEffect(env: Env, m: Memory, bytes: nat, b: Body)
    ensures b.ActionBody? && b.state != PREPARED && b.planId !in m.outcomes && Permitted(env, m, bytes, b)
            && OutcomesSound(m) ==>
              && b.planId in m.byPlan && Moves(m, b.planId, b.state) && b.details.DecisionDetails?
              && PaysItsWay(env, m, bytes, b)
  {}

  lemma LifecycleEffect(env: Env, m: Memory, bytes: nat, b: Body)
    ensures b.ActionBody? && b.state != PREPARED && b.planId in m.outcomes && Permitted(env, m, bytes, b) ==>
              && b.planId in m.byPlan && Moves(m, b.planId, b.state) && b.details.LifecycleDetails?
              && PaysItsWay(env, m, bytes, b)
              && (b.state == VERIFIED ==> b.details.extra.auditDeadline > 0)
  {}

  lemma MoveEffect(env: Env, m: Memory, bytes: nat, b: Body)
    ensures b.ActionBody? && b.state != PREPARED && Permitted(env, m, bytes, b) && OutcomesSound(m) ==>
              && b.planId in m.byPlan && Moves(m, b.planId, b.state)
              && (if b.planId in m.outcomes then b.details.LifecycleDetails? else b.details.DecisionDetails?)
              && PaysItsWay(env, m, bytes, b)
              && (b.state == VERIFIED ==> b.details.extra.auditDeadline > 0)
  {
    hide Permitted, TransitionFits, Moves, OutcomesSound;
    DecisionEffect(env, m, bytes, b);
    LifecycleEffect(env, m, bytes, b);
  }

  lemma AddingPlansKeeps(m: Memory, m': Memory)
    requires OnlyAddsPlans(m, m') && OutcomesSound(m) && Exclusive(m) && Contained(m)
    ensures OutcomesSound(m') && Exclusive(m') && Contained(m')
  {
    assert forall p :: InFlight(m', p) == InFlight(m, p);
    assert Active(m') == Active(m);
    forall p | p in m'.outcomes ensures OutcomeSound(m', p) {
      assert OutcomeSound(m, p);
    }
  }

  lemma AttemptKeepsSound(m: Memory, frame: Frame)
    requires frame.body.AttemptBody? && StartsAttempt(m, frame.body.planId) && OutcomesSound(m)
    requires frame.body.bootTime <= MAX_U64
    ensures OutcomesSound(Installed(m, frame))
  {
    hide MutationLocked, ContainmentAllowed;
    var m' := Installed(m, frame);
    forall q | q in m'.outcomes ensures OutcomeSound(m', q) {
      assert OutcomeSound(m, q);
    }
  }

  /** An attempt leaves exactly its own plan's mutation unsettled. */
  lemma AttemptKeepsExclusive(m: Memory, frame: Frame)
    requires frame.body.AttemptBody? && StartsAttempt(m, frame.body.planId)
    ensures forall q :: InFlight(Installed(m, frame), q) <==> q == frame.body.planId
    ensures Exclusive(Installed(m, frame))
  {
    hide ContainmentAllowed;
    var m' := Installed(m, frame);
    forall q ensures InFlight(m', q) <==> q == frame.body.planId {
      assert !InFlight(m, q);
    }
  }

  lemma AttemptActivates(m: Memory, frame: Frame, q: PlanId)
    requires frame.body.AttemptBody? && StartsAttempt(m, frame.body.planId)
    ensures var m' := Installed(m, frame);
            (q in Active(m') <==> q == frame.body.planId || q in Active(m)) && frame.body.planId !in Active(m)
  {
    hide MutationLocked, ContainmentAllowed;
  }

  lemma AttemptKeepsContained(m: Memory, frame: Frame)
    requires frame.body.AttemptBody? && StartsAttempt(m, frame.body.planId) && Contained(m)
    ensures Contained(Installed(m, frame))
  {
    hide MutationLocked, Active, Contained, ContainmentAllowed;
    var p := frame.body.planId;
    forall q ensures q in Active(Installed(m, frame)) <==> q in Active(m) + {p} {
      AttemptActivates(m, frame, q);
    }
    AttemptActivates(m, frame, p);
    OneMoreContained(m, Installed(m, frame), p);
  }

  lemma OneMoreContained(m: Memory, m': Memory, p: PlanId)
    requires Contained(m) && m'.outcomes == m.outcomes && m'.byPlan == m.byPlan
    requires p in m.outcomes && p !in Active(m) && Active(m') == Active(m) + {p}
    requires m.byPlan[p].plan.planId == p && ContainmentAllowed(m, m.byPlan[p].plan)
    ensures Contained(m')
  {
    hide Active, IsActive;
    assert Active(m) - {p} == Active(m);
  }

  lemma MoveKeepsSound(m: Memory, frame: Frame)
    requires frame.body.ActionBody? && frame.body.state != PREPARED && WellTyped(frame.body)
    requires Moves(m, frame.body.planId, frame.body.state)
    requires frame.body.state == VERIFIED ==> frame.body.details.extra.auditDeadline > 0
    requires OutcomesSound(m)
    ensures OutcomesSound(Installed(m, frame))
  {
    var m' := Installed(m, frame);
    forall q | q in m'.outcomes ensures OutcomeSound(m', q) {
      if q in m.outcomes {
        assert OutcomeSound(m, q);
      }
    }
  }

  lemma MoveKeepsInFlight(m: Memory, frame: Frame, q: PlanId)
    requires frame.body.ActionBody? && frame.body.state != PREPARED && WellTyped(frame.body)
    requires Moves(m, frame.body.planId, frame.body.state)
    ensures InFlight(Installed(m, frame), q) ==> InFlight(m, q)
    ensures IsActive(Installed(m, frame), q) ==> IsActive(m, q)
  {}

  lemma MoveKeepsExclusive(m: Memory, frame: Frame)
    requires frame.body.ActionBody? && frame.body.state != PREPARED && WellTyped(frame.body)
    requires Moves(m, frame.body.planId, frame.body.state) && Exclusive(m)
    ensures Exclusive(Installed(m, frame))
  {
    hide Installed, Moves;
    forall p, q | InFlight(Installed(m, frame), p) && InFlight(Installed(m, frame), q) ensures p == q {
      MoveKeepsInFlight(m, frame, p);
      MoveKeepsInFlight(m, frame, q);
    }
  }

  lemma MoveKeepsContained(m: Memory, frame: Frame)
    requires frame.body.ActionBody? && frame.body.state != PREPARED && WellTyped(frame.body)
    requires Moves(m, frame.body.planId, frame.body.state) && Contained(m)
    ensures Contained(Installed(m, frame))
  {
    var m' := Installed(m, frame);
    assert m'.byPlan == m.byPlan && m'.outcomes.Keys == m.outcomes.Keys + {frame.body.planId};
    hide Installed, IsActive;
    forall q ensures q in Active(m') ==> q in Active(m) {
      MoveKeepsInFlight(m, frame, q);
      assert IsActive(m, q) ==> q in m.outcomes by { ActiveDecided(m, q); }
    }
    CardinalityMonotone(Active(m'), Active(m));
  }

  lemma ActiveDecided(m: Memory, q: PlanId)
    ensures IsActive(m, q) ==> q in m.outcomes
  {}

  lemma CardinalityMonotone(a: set<PlanId>, b: set<PlanId>)
    requires a <= b
    ensures |a| <= |b|
  {
    assert b == a + (b - a);
  }

  lemma PreparedKeepsPlans(env: Env, m: Memory, frame: Frame)
    requires frame.body.ActionBody? && frame.body.state == PREPARED && frame.body.details.PreparedDetails?
    requires var d := frame.body.details;
             && d.plan.planId !in m.byPlan && d.plan.intent.intentId !in m.byIntent
             && PlanValid(env, d.plan) && APPROVAL_TTL < d.deadline <= MAX_U64
    requires PlansSound(env, m) && IntentsSound(m)
    ensures var m' := Installed(m, frame); PlansSound(env, m') && IntentsSound(m')
  {}

  lemma MoveKeepsCapacity(m: Memory, m': Memory, bytes: nat, p: PlanId, frameSize: nat)
    requires p in m.byPlan && m'.byPlan.Keys == m.byPlan.Keys && m'.recordCount == m.recordCount + 1
    requires forall q :: q in m.byPlan && q != p ==> PlanOwes(m, q) == PlanOwes(m', q)
    requires TransitionFits(m, bytes, p, frameSize, PlanOwes(m', p))
    ensures CapacityReserved(m', bytes + frameSize)
  {
    BudgetAfterMove(m, m', p);
  }

  lemma PreparedBudget(m: Memory, m': Memory, p: PlanId)
    requires p !in m.byPlan && p !in m.outcomes && m'.byPlan.Keys == m.byPlan.Keys + {p}
    requires m'.outcomes == m.outcomes && m'.attempts == m.attempts
    ensures Budget(m') == Budget(m) + LIFECYCLE_FRAMES_PER_PLAN
  {
    OwedSplit(m', m'.byPlan.Keys, p);
    assert m'.byPlan.Keys - {p} == m.byPlan.Keys;
    OwedUnchanged(m, m', m.byPlan.Keys);
  }

  /** Seen from the newest reservation, a window that contains it is covered by the recent ones. */
  lemma {:induction false} WindowWithinRecent(history: seq<ReservationState>, now: int, t: int, window: nat)
    requires t <= now < t + window
    ensures WindowCount(history, t, window) <= RecentCount(history, now, window)
  {
    if history != [] {
      WindowWithinRecent(history[..|history| - 1], now, t, window);
    }
  }

  lemma RateStaysBounded(history: seq<ReservationState>, entry: ReservationState)
    requires RateBounded(history) && RateAllowed(history, entry.reservedAt)
    ensures RateBounded(history + [entry])
  {
    var history' := history + [entry];
    assert history'[..|history|] == history;
    forall t: int ensures WindowCount(history', t, MINUTE) <= PER_MINUTE_INTENTS
                          && WindowCount(history', t, HOUR) <= PER_HOUR_INTENTS {
      assert WindowCount(history, t, MINUTE) <= PER_MINUTE_INTENTS && WindowCount(history, t, HOUR) <= PER_HOUR_INTENTS;
      if t <= entry.reservedAt < t + MINUTE {
        WindowWithinRecent(history, entry.reservedAt, t, MINUTE);
      }
      if t <= entry.reservedAt < t + HOUR {
        WindowWithinRecent(history, entry.reservedAt, t, HOUR);
      }
    }
  }

  /** Every permitted frame keeps every invariant of the tables. */
  lemma PermittedKeepsSafe(env: Env, m: Memory, bytes: nat, b: Body)
    requires Permitted(env, m, bytes, b) && MemSafe(env, m, bytes)
    ensures WellTyped(b)
    ensures MemSafe(env, Installed(m, SealedFrame(env, b)), bytes + FrameSize(env, b))
  {
    match b
    case ReservationBody(_, _, _, _) => ReservationKeepsSafe(env, m, bytes, b);
    case AttemptBody(_, _, _, _, _, _, _, _, _, _, _) => AttemptKeepsSafe(env, m, bytes, b);
    case ActionBody(_, _, _, _, _, _, _) =>
      if b.state == PREPARED {
        PreparedKeepsSafe(env, m, bytes, b);
      } else {
        MoveKeepsSafe(env, m, bytes, b);
      }
  }

  lemma PlansUntouched(env: Env, m: Memory, m': Memory)
    requires m'.byPlan == m.byPlan && m'.byIntent == m.byIntent
    requires PlansSound(env, m) && IntentsSound(m)
    ensures PlansSound(env, m') && IntentsSound(m')
  {}

  lemma ReservationKeepsSafe(env: Env, m: Memory, bytes: nat, b: Body)
    requires b.ReservationBody? && Permitted(env, m, bytes, b) && MemSafe(env, m, bytes)
    ensures MemSafe(env, Installed(m, SealedFrame(env, b)), bytes + FrameSize(env, b))
  {
    hide Permitted, PlansSound, IntentsSound, OutcomesSound, Exclusive, Contained, RateBounded, RateAllowed, OnlyAddsPlans;
    var m' := Installed(m, SealedFrame(env, b));
    ReservationEffect(env, m, bytes, b);
    PlansUntouched(env, m, m');
    AddingPlansKeeps(m, m');
    OwedUnchanged(m, m', m.byPlan.Keys);
    RateStaysBounded(m.rateHistory, ReservationState(b.intentSha, b.reservedAt, env.recordHash(b)));
  }

  lemma PreparedKeepsSafe(env: Env, m: Memory, bytes: nat, b: Body)
    requires b.ActionBody? && b.state == PREPARED && Permitted(env, m, bytes, b) && MemSafe(env, m, bytes)
    ensures WellTyped(b)
    ensures MemSafe(env, Installed(m, SealedFrame(env, b)), bytes + FrameSize(env, b))
  {
    hide Permitted, PlansSound, IntentsSound, Exclusive, Contained, RateBounded;
    PreparedEffect(env, m, bytes, b);
    assert b.planId !in m.outcomes;
    hide OutcomesSound;
    var m' := Installed(m, SealedFrame(env, b));
    PreparedKeepsPlans(env, m, SealedFrame(env, b));
    AddingPlansKeeps(m, m');
    PreparedBudget(m, m', b.planId);
  }

  lemma AttemptKeepsSafe(env: Env, m: Memory, bytes: nat, b: Body)
    requires b.AttemptBody? && Permitted(env, m, bytes, b) && MemSafe(env, m, bytes)
    ensures MemSafe(env, Installed(m, SealedFrame(env, b)), bytes + FrameSize(env, b))
  {
    hide Permitted, TransitionFits, StartsAttempt, PlansSound, IntentsSound, OutcomesSound, Exclusive, Contained, RateBounded;
    var m' := Installed(m, SealedFrame(env, b));
    PlansUntouched(env, m, m');
    AttemptEffect(env, m, bytes, b);
    AttemptKeepsSound(m, SealedFrame(env, b));
    AttemptKeepsExclusive(m, SealedFrame(env, b));
    AttemptKeepsContained(m, SealedFrame(env, b));
    MoveKeepsCapacity(m, m', bytes, b.planId, FrameSize(env, b));
  }

  lemma MoveKeepsSafe(env: Env, m: Memory, bytes: nat, b: Body)
    requires b.ActionBody? && b.state != PREPARED && Permitted(env, m, bytes, b) && MemSafe(env, m, bytes)
    ensures WellTyped(b)
    ensures MemSafe(env, Installed(m, SealedFrame(env, b)), bytes + FrameSize(env, b))
  {
    hide Permitted, TransitionFits, Moves, PlansSound, IntentsSound, OutcomesSound, Exclusive, Contained, RateBounded;
    MoveEffect(env, m, bytes, b);
    var m' := Installed(m, SealedFrame(env, b));
    PlansUntouched(env, m, m');
    MoveKeepsSound(m, SealedFrame(env, b));
    MoveKeepsExclusive(m, SealedFrame(env, b));
    MoveKeepsContained(m, SealedFrame(env, b));
    MoveKeepsCapacity(m, m', bytes, b.planId, FrameSize(env, b));
  }
}
