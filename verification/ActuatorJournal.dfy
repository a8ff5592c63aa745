/**
 The action journal as an object: an append-only stream of frames and the tables that mirror it.
 Every append method is proved against the pure description of its checks, its record and its
 table update; the read-only queries are proved against what they are meant to find.
 */
module ActuatorJournal {
  import opened Wrappers
  import opened ActuatorRecords
  import opened ActuatorReplay
  import opened ActuatorAppend
  import opened ActuatorSafety
  import opened ActuatorLogs
  import opened ActuatorRuns
  import Acceptance = ActuatorAcceptance

  /** How one append call may end: refused untouched, or written with one of the three fates. */
  ghost predicate AppendOutcome(env: Env, s: Store, built: Result<Body, JournalError>, s': Store,
                                r: Result<Frame, JournalError>, fate: Fate) {
    if s.failed then s' == s && r.Failure?
    else match built
      case Failure(e) => s' == s && r == Failure(e)
      case Success(b) =>
        if env.payloadSize(b) > MAX_FRAME_PAYLOAD then s' == s && r == Failure(FrameTooLarge)
        else
          && WellTyped(b)
          && s' == Written(env, s, b, fate)
          && r == if fate == Durable then Success(SealedFrame(env, b)) else Failure(AppendFailed)
  }

  /** Apply order: by the text of the preparation time, then by plan ID. */
  predicate AppliesBefore(a: PreparedState, b: PreparedState) {
    a.plan.preparedText < b.plan.preparedText
    || (a.plan.preparedText == b.plan.preparedText && a.plan.planId <= b.plan.planId)
  }

  predicate ReadyToApply(m: Memory, p: PlanId) {
    p in m.outcomes && m.outcomes[p].state == APPROVED && p !in m.attempts
  }

  /** How many elements a scan has met so far, when `rest` is still to be visited. */
  ghost function Met<T>(whole: set<T>, rest: set<T>): nat { |whole - rest| }

  lemma MetStep<T>(whole: set<T>, rest: set<T>, x: T)
    requires x in rest
    ensures Met(whole, rest - {x}) == Met(whole, rest) + if x in whole then 1 else 0
  {
    assert whole - (rest - {x}) == if x in whole then (whole - rest) + {x} else whole - rest;
  }

  lemma MetEnds<T>(whole: set<T>, all: set<T>)
    requires whole <= all
    ensures Met(whole, all) == 0 && Met(whole, {}) == |whole|
  {
    assert whole - all == {} && whole - {} == whole;
  }

  /** Active containments other than the plan's own. */
  ghost function OtherActive(m: Memory, plan: Plan): set<PlanId> { Active(m) - {plan.planId} }

  lemma OtherActiveMember(m: Memory, plan: Plan, q: PlanId)
    ensures q in OtherActive(m, plan) <==> q in m.outcomes && q != plan.planId && IsActive(m, q)
  {}

  lemma OtherActiveWithin(m: Memory, plan: Plan)
    ensures OtherActive(m, plan) <= m.outcomes.Keys
  {}

  lemma ContainmentDecided(m: Memory, plan: Plan)
    requires m.outcomes.Keys <= m.byPlan.Keys
    ensures ContainmentAllowed(m, plan) <==>
            && (forall q :: q in OtherActive(m, plan) && q in m.byPlan ==> !SameGeneration(m.byPlan[q].plan, plan))
            && |OtherActive(m, plan)| < MAX_ACTIVE_CONTAINMENTS
  {
    hide IsActive;
  }

  lemma LifecycleRefused(env: Env, m: Memory, bytes: nat, prepared: PreparedState, sample: Sample, state: ActionState,
                         reason: Reason, basis: Basis, extra: Extra)
    requires prepared.plan.planId in m.outcomes
    requires !(LifecycleTransitionAllowed(m.outcomes[prepared.plan.planId].state, prepared.plan.planId in m.attempts, state)
               && LifecycleReasonAllowed(state, reason, basis) && sample.Valid())
    ensures BuildLifecycle(env, m, bytes, prepared, sample, state, reason, basis, extra) == Failure(InvalidLifecycle)
  {
    hide LifecycleTransitionAllowed, LifecycleReasonAllowed, LifecycleDetailsOk, TransitionFits;
  }

  lemma LifecycleChecked(env: Env, m: Memory, bytes: nat, prepared: PreparedState, sample: Sample, state: ActionState,
                         reason: Reason, basis: Basis, extra: Extra)
    requires prepared.plan.planId in m.outcomes
    requires LifecycleTransitionAllowed(m.outcomes[prepared.plan.planId].state, prepared.plan.planId in m.attempts, state)
    requires LifecycleReasonAllowed(state, reason, basis) && sample.Valid()
    ensures var p := prepared.plan.planId;
            var body := LifecycleBody(m, prepared, sample, state, reason, basis, extra);
            body.ActionBody? &&
            BuildLifecycle(env, m, bytes, prepared, sample, state, reason, basis, extra) ==
              if !LifecycleDetailsOk(body, PlanPredecessor(m, p), prepared) then Failure(InvalidLifecycle)
              else if TransitionFits(m, bytes, p, FrameSize(env, body), LifecycleFutureFrames(Some(state), p in m.attempts)) then
                Success(body)
              else Failure(PendingLimit)
  {
    hide LifecycleTransitionAllowed, LifecycleReasonAllowed, LifecycleDetailsOk, TransitionFits, LifecycleFutureFrames;
  }

  lemma LifecycleUnknown(env: Env, m: Memory, bytes: nat, prepared: PreparedState, sample: Sample, state: ActionState,
                         reason: Reason, basis: Basis, extra: Extra)
    requires prepared.plan.planId !in m.outcomes
    ensures BuildLifecycle(env, m, bytes, prepared, sample, state, reason, basis, extra) == Failure(LacksApprovedPlan)
  {}

  lemma CapacityDefinition(m: Memory, bytes: nat)
    ensures CapacityReserved(m, bytes) <==>
            m.recordCount + Budget(m) <= MAX_RECORDS && bytes + FullFrames(Budget(m)) <= MAX_JOURNAL_BYTES
  {}

  /** Of the plans outside `rest` that are ready to apply, `r` comes first. */
  ghost predicate FirstReady(m: Memory, rest: set<PlanId>, r: Option<PreparedState>) {
    match r
    case None => forall p :: ReadyToApply(m, p) ==> p in rest
    case Some(s) =>
      && s.plan.planId in m.byPlan && m.byPlan[s.plan.planId] == s && ReadyToApply(m, s.plan.planId)
      && forall p :: ReadyToApply(m, p) && p !in rest ==> p in m.byPlan && AppliesBefore(s, m.byPlan[p])
  }

  lemma FirstReadyStep(env: Env, m: Memory, rest: set<PlanId>, r: Option<PreparedState>, p: PlanId)
    requires m.outcomes.Keys <= m.byPlan.Keys && PlansSound(env, m) && FirstReady(m, rest, r) && p in rest && p in m.outcomes
    ensures FirstReady(m, rest - {p},
                       if ReadyToApply(m, p) && (r.None? || !AppliesBefore(r.value, m.byPlan[p])) then Some(m.byPlan[p]) else r)
  {}

  class ActionJournal {
    const env: Env

    // The stream: whole frames on disk, and whether an append has failed since it was opened.
    var log: seq<Frame>
    var failed: bool

    var previous: Digest
    var byIntent: map<IntentId, PreparedState>
    var byPlan: map<PlanId, PreparedState>
    var reservations: map<IntentId, ReservationState>
    var rateHistory: seq<ReservationState>
    var outcomes: map<PlanId, Outcome>
    var attempts: map<PlanId, AttemptState>
    var applied: map<PlanId, Observation>
    var verified: map<PlanId, nat>
    var recordCount: nat
    var byteCount: nat

    function Mem(): Memory
      reads this
    {
      Memory(previous, byIntent, byPlan, reservations, rateHistory, outcomes, attempts, applied, verified, recordCount)
    }

    ghost function View(): Store
      reads this
    {
      Store(log, Mem(), byteCount, failed)
    }

    constructor (env: Env)
      ensures this.env == env && View() == INITIAL.store
    {
      this.env := env;
      log, failed, byteCount := [], false, 0;
      previous, byIntent, byPlan, reservations, rateHistory := ZERO_DIGEST, map[], map[], map[], [];
      outcomes, attempts, applied, verified, recordCount := map[], map[], map[], map[], 0;
    }

    // -------------------------------------------------------------------------------------
    // Queries
    // -------------------------------------------------------------------------------------

    method FutureFrameBudget() returns (total: nat)
      ensures total == Budget(Mem())
    {
      total := 0;
      var rest := byPlan.Keys;
      while rest != {}
        invariant rest <= byPlan.Keys
        invariant total + OwedBy(Mem(), rest) == Budget(Mem())
        decreases |rest|
      {
        var p :| p in rest;
        OwedSplit(Mem(), rest, p);
        total := total + PlanShare(p);
        rest := rest - {p};
      }
    }

    function PlanShare(p: PlanId): (share: nat)
      reads this
      ensures share == PlanOwes(Mem(), p)
    {
      LifecycleFutureFrames(if p in outcomes then Some(outcomes[p].state) else None, p in attempts)
    }

    method IsMutationLocked() returns (locked: bool)
      ensures locked <==> MutationLocked(Mem())
    {
      var rest := outcomes.Keys;
      while rest != {}
        invariant rest <= outcomes.Keys
        invariant forall p :: p in outcomes.Keys - rest ==> !InFlight(Mem(), p) && !Dirty(Mem(), p)
        decreases |rest|
      {
        var p :| p in rest;
        var state := outcomes[p].state;
        if state == FAILED_DIRTY || state == APPLIED || (state == APPROVED && p in attempts) {
          assert InFlight(Mem(), p) || Dirty(Mem(), p);
          return true;
        }
        rest := rest - {p};
      }
      return false;
    }

    /** The approved, not yet attempted plan that comes first in apply order, if there is one. */
    method NextApprovedPlan() returns (r: Option<PreparedState>)
      requires OutcomesSound(Mem()) && PlansSound(env, Mem())
      ensures r.None? ==> forall p :: !ReadyToApply(Mem(), p)
      ensures r.Some? ==>
                && r.value.plan.planId in byPlan && byPlan[r.value.plan.planId] == r.value
                && ReadyToApply(Mem(), r.value.plan.planId)
                && forall p :: ReadyToApply(Mem(), p) ==> AppliesBefore(r.value, byPlan[p])
    {
      hide PlansSound, AppliesBefore;
      r := None;
      var rest := outcomes.Keys;
      while rest != {}
        invariant rest <= outcomes.Keys && FirstReady(Mem(), rest, r)
        decreases |rest|
      {
        var p :| p in rest;
        FirstReadyStep(env, Mem(), rest, r, p);
        if outcomes[p].state == APPROVED && p !in attempts && (r.None? || !AppliesBefore(r.value, byPlan[p])) {
          r := Some(byPlan[p]);
        }
        rest := rest - {p};
      }
    }

    method ActiveContainmentAllowed(prepared: PreparedState) returns (allowed: bool)
      requires outcomes.Keys <= byPlan.Keys
      ensures allowed <==> ContainmentAllowed(Mem(), prepared.plan)
    {
      hide Met, ContainmentAllowed, OtherActive, SameGeneration;
      ghost var m := Mem();
      ghost var others := OtherActive(m, prepared.plan);
      ContainmentDecided(m, prepared.plan);
      OtherActiveWithin(m, prepared.plan);
      var activeHost := 0;
      var rest := outcomes.Keys;
      MetEnds(others, rest);
      while rest != {}
        invariant rest <= outcomes.Keys && activeHost == Met(others, rest)
        invariant forall q :: q in others && q !in rest && q in byPlan ==> !SameGeneration(byPlan[q].plan, prepared.plan)
        decreases |rest|
      {
        var q :| q in rest;
        var state := outcomes[q].state;
        OtherActiveMember(m, prepared.plan, q);
        MetStep(others, rest, q);
        if q != prepared.plan.planId && (state == APPLIED || state == VERIFIED || (state == APPROVED && q in attempts)) {
          activeHost := activeHost + 1;
          if SameGeneration(byPlan[q].plan, prepared.plan) {
            return false;
          }
        }
        rest := rest - {q};
      }
      return activeHost < MAX_ACTIVE_CONTAINMENTS;
    }

    method CheckRate(now: int) returns (refused: Option<JournalError>)
      ensures refused.None? <==> RateAllowed(rateHistory, now)
      ensures refused == Some(ClockBackwards) <==> !ClockNotBackwards(rateHistory, now)
    {
      var minuteCount, hourCount := 0, 0;
      for i := 0 to |rateHistory|
        invariant minuteCount == RecentCount(rateHistory[..i], now, MINUTE)
        invariant hourCount == RecentCount(rateHistory[..i], now, HOUR)
        invariant ClockNotBackwards(rateHistory[..i], now)
      {
        var reservedAt := rateHistory[i].reservedAt;
        if reservedAt > now {
          return Some(ClockBackwards);
        }
        assert rateHistory[..i + 1][..i] == rateHistory[..i];
        if now - reservedAt < MINUTE {
          minuteCount := minuteCount + 1;
        }
        if now - reservedAt < HOUR {
          hourCount := hourCount + 1;
        }
      }
      assert rateHistory[..|rateHistory|] == rateHistory;
      if minuteCount >= PER_MINUTE_INTENTS || hourCount >= PER_HOUR_INTENTS {
        return Some(RateLimited);
      }
      return None;
    }

    method CountPending(now: int) returns (count: nat)
      ensures count == |PendingAt(Mem(), now)|
    {
      hide Met;
      ghost var pending := PendingAt(Mem(), now);
      count := 0;
      var rest := byIntent.Keys;
      MetEnds(pending, rest);
      while rest != {}
        invariant rest <= byIntent.Keys && count == Met(pending, rest)
        decreases |rest|
      {
        var i :| i in rest;
        var plan := byIntent[i].plan;
        MetStep(pending, rest, i);
        if plan.planId !in outcomes && now < plan.expiresAt {
          count := count + 1;
        }
        rest := rest - {i};
      }
    }

    // -------------------------------------------------------------------------------------
    // The stream
    // -------------------------------------------------------------------------------------

    /** Writes one frame. What the disk makes of it is not determined. */
    method Stream(body: Body) returns (error: Option<JournalError>, ghost fate: Fate)
      modifies this`log, this`failed
      ensures old(failed) ==> error == Some(JournalFailed) && log == old(log) && failed
      ensures !old(failed) && env.payloadSize(body) > MAX_FRAME_PAYLOAD ==>
                error == Some(FrameTooLarge) && log == old(log) && !failed
      ensures !old(failed) && env.payloadSize(body) <= MAX_FRAME_PAYLOAD ==>
                && error == (if fate == Durable then None else Some(AppendFailed))
                && log == (if fate == Lost then old(log) else old(log) + [SealedFrame(env, body)])
                && failed == (fate != Durable)
    {
      if failed {
        return Some(JournalFailed), Lost;
      }
      if env.payloadSize(body) > MAX_FRAME_PAYLOAD {
        return Some(FrameTooLarge), Lost;
      }
      var disk: Fate := *;
      fate := disk;
      match disk {
        case Durable =>
          log := log + [SealedFrame(env, body)];
          error := None;
        case Lost =>
          failed := true;
          error := Some(AppendFailed);
        case Unsynced =>
          log := log + [SealedFrame(env, body)];
          failed := true;
          error := Some(AppendFailed);
      }
    }

    // -------------------------------------------------------------------------------------
    // Checks: the record an append would write, or why it would be refused
    // -------------------------------------------------------------------------------------

    method CheckReservation(intentId: IntentId, intentSha: Digest, reservedAt: int)
      returns (built: Result<Body, JournalError>)
      ensures built == BuildReservation(env, Mem(), byteCount, intentId, intentSha, reservedAt)
    {
      if intentId in reservations && reservations[intentId].intentSha != intentSha {
        return Failure(IntentEquivocation);
      }
      var owed := FutureFrameBudget();
      if recordCount + owed + 2 + LIFECYCLE_FRAMES_PER_PLAN > MAX_RECORDS || byteCount >= MAX_JOURNAL_BYTES {
        return Failure(PendingLimit);
      }
      var body := ReservationBody(intentId, intentSha, reservedAt, previous);
      if FrameSize(env, body) + FullFrames(owed + 1 + LIFECYCLE_FRAMES_PER_PLAN) > MAX_JOURNAL_BYTES - byteCount {
        return Failure(PendingLimit);
      }
      return Success(body);
    }

    method CheckPrepared(plan: Plan, intentSha: Digest, deadline: nat) returns (built: Result<Body, JournalError>)
      ensures built == BuildPrepared(env, Mem(), byteCount, plan, intentSha, deadline)
    {
      var owed := FutureFrameBudget();
      if recordCount + owed + 1 + LIFECYCLE_FRAMES_PER_PLAN > MAX_RECORDS || byteCount >= MAX_JOURNAL_BYTES {
        return Failure(PendingLimit);
      }
      var intentId := plan.intent.intentId;
      if intentId !in reservations || reservations[intentId].intentSha != intentSha || reservations[intentId].sha != previous {
        return Failure(LacksReservation);
      }
      if plan.preparedAt < reservations[intentId].reservedAt {
        return Failure(ClockBackwards);
      }
      var body := PreparedBody(previous, plan, intentSha, deadline);
      if FrameSize(env, body) + FullFrames(owed + LIFECYCLE_FRAMES_PER_PLAN) > MAX_JOURNAL_BYTES - byteCount {
        return Failure(PendingLimit);
      }
      return Success(body);
    }

    method EnsureTransitionCapacity(p: PlanId, frameSize: nat, newBudget: nat) returns (fits: bool)
      ensures fits <==> TransitionFits(Mem(), byteCount, p, frameSize, newBudget)
    {
      var total := FutureFrameBudget();
      var newTotal := total - PlanShare(p) + newBudget;
      fits := newTotal >= 0 && recordCount + 1 + newTotal <= MAX_RECORDS
              && frameSize + FullFrames(newTotal) <= MAX_JOURNAL_BYTES - byteCount;
    }

    method CheckDecision(prepared: PreparedState, authority: Authority, sample: Sample, state: ActionState,
                         reason: Reason, basis: Basis) returns (built: Result<Body, JournalError>)
      ensures built == BuildDecision(env, Mem(), byteCount, prepared, authority, sample, state, reason, basis)
    {
      hide TransitionFits;
      var p := prepared.plan.planId;
      if p in outcomes {
        return Failure(ApprovalReplay);
      }
      if DecisionReason(state, basis) != Some(reason) {
        return Failure(InvalidDecision);
      }
      if authority.basis == SystemExpiry && state != EXPIRED_UNAPPLIED {
        return Failure(InvalidDecision);
      }
      var body := DecisionBody(previous, prepared, authority, sample, state, reason, basis);
      var fits := EnsureTransitionCapacity(p, FrameSize(env, body), LifecycleFutureFrames(Some(state), false));
      return if fits then Success(body) else Failure(PendingLimit);
    }

    method CheckAttempt(prepared: PreparedState, sample: Sample, ruleset: Digest)
      returns (built: Result<Body, JournalError>)
      ensures built == BuildAttempt(env, Mem(), byteCount, prepared, sample, ruleset)
    {
      hide TransitionFits;
      var plan := prepared.plan;
      var p := plan.planId;
      if p !in outcomes || outcomes[p].state != APPROVED {
        return Failure(NoApprovedPlan);
      }
      if p in attempts {
        return Failure(KillSwitchActive);
      }
      if !sample.Valid() || sample.bootId != plan.bootId || plan.netns == 0
         || plan.intent.ttlSeconds < MIN_TTL_SECONDS || plan.intent.ttlSeconds > MAX_TTL_SECONDS {
        return Failure(InvalidAttempt);
      }
      var body := AttemptBody(p, plan.planHash, sample.wall, sample.bootId, sample.bootTime, plan.netns,
                              plan.intent.destination, plan.intent.ttlSeconds, ruleset, outcomes[p].sha, previous);
      var fits := EnsureTransitionCapacity(p, FrameSize(env, body), LifecycleFutureFrames(Some(APPROVED), true));
      return if fits then Success(body) else Failure(PendingLimit);
    }

    method CheckLifecycle(prepared: PreparedState, sample: Sample, state: ActionState, reason: Reason, basis: Basis,
                          extra: Extra) returns (built: Result<Body, JournalError>)
      ensures built == BuildLifecycle(env, Mem(), byteCount, prepared, sample, state, reason, basis, extra)
    {
      hide *;
      var m := Mem();
      var p := prepared.plan.planId;
      if p !in m.outcomes {
        LifecycleUnknown(env, m, byteCount, prepared, sample, state, reason, basis, extra);
        return Failure(LacksApprovedPlan);
      }
      var attempted := p in m.attempts;
      if !LifecycleTransitionAllowed(m.outcomes[p].state, attempted, state)
         || !LifecycleReasonAllowed(state, reason, basis) || !sample.Valid() {
        LifecycleRefused(env, m, byteCount, prepared, sample, state, reason, basis, extra);
        return Failure(InvalidLifecycle);
      }
      var body := LifecycleBody(m, prepared, sample, state, reason, basis, extra);
      LifecycleChecked(env, m, byteCount, prepared, sample, state, reason, basis, extra);
      if !LifecycleDetailsOk(body, PlanPredecessor(m, p), prepared) {
        return Failure(InvalidLifecycle);
      }
      var fits := EnsureTransitionCapacity(p, FrameSize(env, body), LifecycleFutureFrames(Some(state), attempted));
      return if fits then Success(body) else Failure(PendingLimit);
    }

    // -------------------------------------------------------------------------------------
    // Writing a checked record and updating the tables
    // -------------------------------------------------------------------------------------

    method Install(frame: Frame)
      requires WellTyped(frame.body)
      modifies this`previous, this`byIntent, this`byPlan, this`reservations, this`rateHistory, this`outcomes,
               this`attempts, this`applied, this`verified, this`recordCount
      ensures Mem() == Installed(old(Mem()), frame)
    {
      previous := frame.sha;
      recordCount := recordCount + 1;
      match frame.body {
        case ReservationBody(intentId, intentSha, reservedAt, _) =>
          var state := ReservationState(intentSha, reservedAt, frame.sha);
          reservations := reservations[intentId := state];
          rateHistory := rateHistory + [state];
        case AttemptBody(p, _, startedAt, bootId, bootTime, netns, _, _, ruleset, _, _) =>
          attempts := attempts[p := AttemptState(frame.sha, startedAt, bootId, bootTime, netns, ruleset)];
        case ActionBody(p, _, state, _, observedAt, _, details) =>
          if state == PREPARED {
            var prepared := PreparedState(details.plan, details.intentSha, details.deadline, frame.sha);
            byIntent := byIntent[details.plan.intent.intentId := prepared];
            byPlan := byPlan[details.plan.planId := prepared];
          } else {
            outcomes := outcomes[p := Outcome(state, frame.sha, observedAt)];
            if state == APPLIED {
              applied := applied[p := details.extra.observation];
            }
            if state == VERIFIED {
              verified := verified[p := details.extra.auditDeadline];
            }
          }
      }
    }

    method Write(built: Result<Body, JournalError>) returns (r: Result<Frame, JournalError>, ghost fate: Fate)
      requires built.Success? ==> WellTyped(built.value)
      modifies this
      ensures AppendOutcome(env, old(View()), built, View(), r, fate)
    {
      hide Installed;
      fate := Lost;
      if built.Failure? {
        return Failure(built.error), fate;
      }
      var body := built.value;
      var error, f := Stream(body);
      fate := f;
      if error.Some? {
        return Failure(error.value), fate;
      }
      var frame := SealedFrame(env, body);
      Install(frame);
      byteCount := byteCount + FrameSize(env, body);
      return Success(frame), fate;
    }

    // -------------------------------------------------------------------------------------
    // Opening
    // -------------------------------------------------------------------------------------

    method VerifiedBytes() returns (total: nat)
      ensures total == LogBytes(env, log)
    {
      total := 0;
      for i := 0 to |log|
        invariant total == LogBytes(env, log[..i])
      {
        assert log[..i + 1][..i] == log[..i];
        total := total + FrameSize(env, log[i].body);
      }
      assert log[..|log|] == log;
    }

    method LoadPlans(m: Memory)
      modifies this`previous, this`byIntent, this`byPlan, this`reservations, this`rateHistory, this`recordCount
      ensures previous == m.previous && byIntent == m.byIntent && byPlan == m.byPlan && reservations == m.reservations
      ensures rateHistory == m.rateHistory && recordCount == m.recordCount
    {
      previous, byIntent, byPlan, reservations := m.previous, m.byIntent, m.byPlan, m.reservations;
      rateHistory, recordCount := m.rateHistory, m.recordCount;
    }

    method LoadOutcomes(m: Memory)
      modifies this`outcomes, this`attempts, this`applied, this`verified
      ensures outcomes == m.outcomes && attempts == m.attempts && applied == m.applied && verified == m.verified
    {
      outcomes, attempts, applied, verified := m.outcomes, m.attempts, m.applied, m.verified;
    }

    method Load(m: Memory, bytes: nat)
      modifies this
      ensures View() == Store(old(log), m, bytes, false)
    {
      LoadPlans(m);
      LoadOutcomes(m);
      failed, byteCount := false, bytes;
    }

    /** Rebuilds the tables from the frames on disk; it opens exactly when the journal may be reopened. */
    method Open() returns (ok: bool)
      modifies this
      ensures ok <==> Openable(env, old(log))
      ensures ok ==> Acceptance.Acceptable(env, log) && Acceptance.Tabulates(Mem(), log)
      ensures !ok && |log| <= MAX_RECORDS && Acceptance.Acceptable(env, log) ==>
                Replay(env, log).Some? && !CapacityReserved(Tables(env, log), LogBytes(env, log))
      ensures ok ==> View() == Store(old(log), Tables(env, old(log)), LogBytes(env, old(log)), false)
      ensures !ok ==> log == old(log)
    {
      hide Replay, CapacityReserved, Acceptance.Acceptable, Acceptance.Tabulates;
      var recovered := Acceptance.RecoverPreparedStates(env, log);
      if recovered.None? {
        return false;
      }
      var bytes := VerifiedBytes();
      Load(recovered.value, bytes);
      var futureFrames := FutureFrameBudget();
      ok := recordCount + futureFrames <= MAX_RECORDS && byteCount + FullFrames(futureFrames) <= MAX_JOURNAL_BYTES;
      CapacityDefinition(Mem(), byteCount);
    }
  }
}
