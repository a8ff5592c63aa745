/**
 Whole logs: a log is good when each of its frames was permitted by the tables that the frames
 before it rebuild to. The results here speak about positions and counts in such logs.
 */
module ActuatorLogs {
  import opened Wrappers
  import opened ActuatorRecords
  import opened ActuatorReplay
  import opened ActuatorAppend
  import opened ActuatorSafety

  function LogBytes(env: Env, log: seq<Frame>): nat {
    if log == [] then 0 else LogBytes(env, log[..|log| - 1]) + FrameSize(env, log[|log| - 1].body)
  }

  /** The tables a log rebuilds to; empty tables stand for a corrupt log. */
  function Tables(env: Env, log: seq<Frame>): Memory {
    match Replay(env, log) { case Some(m) => m case None => EMPTY_MEMORY }
  }

  ghost predicate GoodLog(env: Env, log: seq<Frame>) {
    log == [] ||
    var before, last := log[..|log| - 1], log[|log| - 1];
    && GoodLog(env, before)
    && last == SealedFrame(env, last.body)
    && Permitted(env, Tables(env, before), LogBytes(env, before), last.body)
  }

  lemma GoodLogExtends(env: Env, log: seq<Frame>, b: Body)
    ensures GoodLog(env, log) && Permitted(env, Tables(env, log), LogBytes(env, log), b) ==>
              GoodLog(env, log + [SealedFrame(env, b)])
    ensures LogBytes(env, log + [SealedFrame(env, b)]) == LogBytes(env, log) + FrameSize(env, b)
  {
    hide Permitted, Replay;
    assert (log + [SealedFrame(env, b)])[..|log|] == log;
  }

  /** A good log replays, to tables with every invariant. */
  lemma {:induction false} GoodLogIsSafe(env: Env, log: seq<Frame>)
    requires GoodLog(env, log)
    ensures Replay(env, log) == Some(Tables(env, log))
    ensures MemSafe(env, Tables(env, log), LogBytes(env, log))
    decreases |log|
  {
    if log == [] {
      EmptyIsSafe(env);
    } else {
      hide Permitted, MemSafe, ReplayFrame;
      var before, last := log[..|log| - 1], log[|log| - 1];
      GoodLogIsSafe(env, before);
      StepIsSafe(env, Tables(env, before), LogBytes(env, before), last.body);
    }
  }

  lemma EmptyIsSafe(env: Env)
    ensures MemSafe(env, EMPTY_MEMORY, 0)
  {
    assert Active(EMPTY_MEMORY) == {};
  }

  lemma StepIsSafe(env: Env, m: Memory, bytes: nat, b: Body)
    ensures Permitted(env, m, bytes, b) && MemSafe(env, m, bytes) ==>
              && WellTyped(b)
              && ReplayFrame(env, m, SealedFrame(env, b)) == Some(Installed(m, SealedFrame(env, b)))
              && MemSafe(env, Installed(m, SealedFrame(env, b)), bytes + FrameSize(env, b))
  {
    if Permitted(env, m, bytes, b) && MemSafe(env, m, bytes) {
      AppendAgreesWithReplay(env, m, bytes, b);
      PermittedKeepsSafe(env, m, bytes, b);
    }
  }

  /** The last frame of a good log was installed on the tables of the rest. */
  lemma LastFrame(env: Env, log: seq<Frame>)
    requires GoodLog(env, log) && log != []
    ensures var before, last := log[..|log| - 1], log[|log| - 1];
            && GoodLog(env, before)
            && MemSafe(env, Tables(env, before), LogBytes(env, before))
            && Permitted(env, Tables(env, before), LogBytes(env, before), last.body)
            && WellTyped(last.body)
            && Tables(env, log) == Installed(Tables(env, before), last)
  {
    hide Permitted, MemSafe, ReplayFrame;
    var before, last := log[..|log| - 1], log[|log| - 1];
    GoodLogIsSafe(env, before);
    StepIsSafe(env, Tables(env, before), LogBytes(env, before), last.body);
  }

  lemma {:induction false} GoodLogPrefix(env: Env, log: seq<Frame>, k: nat)
    requires GoodLog(env, log) && k <= |log|
    ensures GoodLog(env, log[..k])
    decreases |log|
  {
    hide Permitted, Replay;
    if k < |log| {
      assert log[..|log| - 1][..k] == log[..k];
      GoodLogPrefix(env, log[..|log| - 1], k);
    } else {
      assert log[..k] == log;
    }
  }

  // ---------------------------------------------------------------------------------------
  // Counting records of one plan
  // ---------------------------------------------------------------------------------------

  datatype Kind = PreparedOf | DecisionOf | ApprovalOf | AttemptOf | AppliedOf | DirtyOf

  predicate FrameIs(kind: Kind, p: PlanId, frame: Frame) {
    var b := frame.body;
    match kind
    case PreparedOf => b.ActionBody? && b.state == PREPARED && b.planId == p
    case DecisionOf => b.ActionBody? && b.details.DecisionDetails? && b.planId == p
    case ApprovalOf => b.ActionBody? && b.details.DecisionDetails? && b.planId == p && b.state == APPROVED
    case AttemptOf => b.AttemptBody? && b.planId == p
    case AppliedOf => b.ActionBody? && b.state == APPLIED && b.planId == p
    case DirtyOf => b.ActionBody? && b.state == FAILED_DIRTY && b.planId == p
  }

  function Count(log: seq<Frame>, kind: Kind, p: PlanId): nat {
    if log == [] then 0
    else Count(log[..|log| - 1], kind, p) + if FrameIs(kind, p, log[|log| - 1]) then 1 else 0
  }

  function One(present: bool): nat { if present then 1 else 0 }

  /** The tables mention a plan exactly as often as the log does. */
  ghost predicate CountsMatch(log: seq<Frame>, m: Memory, p: PlanId) {
    && Count(log, PreparedOf, p) == One(p in m.byPlan)
    && Count(log, DecisionOf, p) == One(p in m.outcomes)
    && Count(log, AttemptOf, p) == One(p in m.attempts)
    && Count(log, AppliedOf, p) == One(p in m.applied)
    && Count(log, ApprovalOf, p) <= 1
    && (p in m.attempts || (p in m.outcomes && m.outcomes[p].state == APPROVED) ==> Count(log, ApprovalOf, p) == 1)
  }

  /** How one permitted frame changes which tables mention a plan. */
  ghost predicate MentionStep(m: Memory, m': Memory, frame: Frame, p: PlanId) {
    && One(p in m'.byPlan) == One(p in m.byPlan) + One(FrameIs(PreparedOf, p, frame))
    && One(p in m'.outcomes) == One(p in m.outcomes) + One(FrameIs(DecisionOf, p, frame))
    && One(p in m'.attempts) == One(p in m.attempts) + One(FrameIs(AttemptOf, p, frame))
    && One(p in m'.applied) == One(p in m.applied) + One(FrameIs(AppliedOf, p, frame))
    && (FrameIs(AttemptOf, p, frame) ==> p in m.outcomes && m.outcomes[p].state == APPROVED)
    && (p in m'.outcomes && m'.outcomes[p].state == APPROVED ==>
          FrameIs(ApprovalOf, p, frame) || (p in m.outcomes && m.outcomes[p].state == APPROVED))
    && (p !in m.outcomes ==> p !in m.attempts)
  }

  lemma MoveMentions(m: Memory, frame: Frame, p: PlanId)
    requires frame.body.ActionBody? && frame.body.state != PREPARED && WellTyped(frame.body)
    requires Moves(m, frame.body.planId, frame.body.state) && OutcomesSound(m)
    requires if frame.body.planId in m.outcomes then frame.body.details.LifecycleDetails?
             else frame.body.details.DecisionDetails?
    ensures MentionStep(m, Installed(m, frame), frame, p)
  {
    assert p in m.outcomes ==> OutcomeSound(m, p);
  }

  lemma AddingMentions(m: Memory, frame: Frame, p: PlanId)
    requires frame.body.ReservationBody? || (frame.body.ActionBody? && frame.body.state == PREPARED)
    requires WellTyped(frame.body) && OutcomesSound(m)
    requires frame.body.ActionBody? ==>
               frame.body.planId == frame.body.details.plan.planId && frame.body.planId !in m.byPlan
    ensures MentionStep(m, Installed(m, frame), frame, p)
  {}

  lemma AttemptMentions(m: Memory, frame: Frame, p: PlanId)
    requires frame.body.AttemptBody? && StartsAttempt(m, frame.body.planId) && OutcomesSound(m)
    ensures MentionStep(m, Installed(m, frame), frame, p)
  {
    hide MutationLocked, ContainmentAllowed;
  }

  lemma TablesMentionStep(env: Env, m: Memory, bytes: nat, b: Body, p: PlanId)
    requires Permitted(env, m, bytes, b) && PlansSound(env, m) && OutcomesSound(m) && WellTyped(b)
    ensures MentionStep(m, Installed(m, SealedFrame(env, b)), SealedFrame(env, b), p)
  {
    hide Permitted, MentionStep, StartsAttempt, Moves, Installed, OutcomesSound, PlansSound;
    match b
    case ReservationBody(_, _, _, _) => AddingMentions(m, SealedFrame(env, b), p);
    case AttemptBody(_, _, _, _, _, _, _, _, _, _, _) =>
      AttemptEffect(env, m, bytes, b);
      AttemptMentions(m, SealedFrame(env, b), p);
    case ActionBody(_, _, _, _, _, _, _) =>
      if b.state == PREPARED {
        PreparedEffect(env, m, bytes, b);
        AddingMentions(m, SealedFrame(env, b), p);
      } else {
        MoveEffect(env, m, bytes, b);
        MoveMentions(m, SealedFrame(env, b), p);
      }
  }

  lemma {:induction false} ApprovalsAreDecisions(log: seq<Frame>, p: PlanId)
    ensures Count(log, ApprovalOf, p) <= Count(log, DecisionOf, p)
  {
    if log != [] {
      ApprovalsAreDecisions(log[..|log| - 1], p);
    }
  }

  lemma CountsMatchStep(log: seq<Frame>, m: Memory, m': Memory, p: PlanId)
    requires log != [] && CountsMatch(log[..|log| - 1], m, p) && MentionStep(m, m', log[|log| - 1], p)
    ensures CountsMatch(log, m', p)
  {
    hide FrameIs;
    ApprovalsAreDecisions(log, p);
  }

  lemma {:induction false} CountsMatchTables(env: Env, log: seq<Frame>, p: PlanId)
    requires GoodLog(env, log)
    ensures CountsMatch(log, Tables(env, log), p)
    decreases |log|
  {
    if log != [] {
      hide Permitted, Replay, Installed, FrameIs, CountsMatch, MentionStep, OutcomesSound, PlansSound;
      var before, last := log[..|log| - 1], log[|log| - 1];
      LastFrame(env, log);
      CountsMatchTables(env, before, p);
      TablesMentionStep(env, Tables(env, before), LogBytes(env, before), last.body, p);
      CountsMatchStep(log, Tables(env, before), Tables(env, log), p);
    }
  }

  // ---------------------------------------------------------------------------------------
  // Authorisation
  // ---------------------------------------------------------------------------------------

  ghost predicate ApprovalSound(prepared: PreparedState, b: Body)
    requires b.ActionBody? && b.details.DecisionDetails?
  {
    && b.details.authority.Valid() && b.details.authority.basis != SystemExpiry
    && InsideWindow(prepared, Sample(b.observedAt, b.details.decidedBootTime, b.details.decidedBoot))
  }

  ghost predicate AttemptSound(prepared: PreparedState, b: Body)
    requires b.AttemptBody?
  {
    InsideWindow(prepared, Sample(b.startedAt, b.bootTime, b.bootId))
  }

  /** The frame speaks about a plan in the tables, under its hash, and inside its window where that matters. */
  ghost predicate FrameAuthorised(m: Memory, frame: Frame) {
    var b := frame.body;
    b.ReservationBody? ||
    (&& b.planId in m.byPlan
     && var prepared := m.byPlan[b.planId];
     && b.planHash == prepared.plan.planHash
     && (FrameIs(PreparedOf, b.planId, frame) ==>
           b.details.PreparedDetails? && b.details.plan == prepared.plan && b.details.deadline == prepared.deadline)
     && (FrameIs(ApprovalOf, b.planId, frame) ==> ApprovalSound(prepared, b))
     && (FrameIs(AttemptOf, b.planId, frame) ==> AttemptSound(prepared, b)))
  }

  /** Plans once in the tables stay there unchanged. */
  ghost predicate KeepsPlans(m: Memory, m': Memory) {
    forall p :: p in m.byPlan ==> p in m'.byPlan && m'.byPlan[p] == m.byPlan[p]
  }

  lemma AttemptFrameAuthorised(env: Env, m: Memory, bytes: nat, b: Body)
    ensures b.AttemptBody? && Permitted(env, m, bytes, b) && PlansSound(env, m) ==>
              && KeepsPlans(m, Installed(m, SealedFrame(env, b)))
              && FrameAuthorised(Installed(m, SealedFrame(env, b)), SealedFrame(env, b))
  {
    hide MutationLocked, ContainmentAllowed, TransitionFits;
  }

  lemma MoveFrameAuthorised(env: Env, m: Memory, bytes: nat, b: Body)
    ensures b.ActionBody? && b.state != PREPARED && Permitted(env, m, bytes, b) && WellTyped(b) && PlansSound(env, m) ==>
              && KeepsPlans(m, Installed(m, SealedFrame(env, b)))
              && FrameAuthorised(Installed(m, SealedFrame(env, b)), SealedFrame(env, b))
  {}

  lemma PreparedFrameAuthorised(env: Env, m: Memory, bytes: nat, b: Body)
    ensures b.ActionBody? && b.state == PREPARED && Permitted(env, m, bytes, b) && WellTyped(b) ==>
              && KeepsPlans(m, Installed(m, SealedFrame(env, b)))
              && FrameAuthorised(Installed(m, SealedFrame(env, b)), SealedFrame(env, b))
  {}

  lemma NewFrameAuthorised(env: Env, m: Memory, bytes: nat, b: Body)
    ensures Permitted(env, m, bytes, b) && PlansSound(env, m) && WellTyped(b) ==>
              && KeepsPlans(m, Installed(m, SealedFrame(env, b)))
              && FrameAuthorised(Installed(m, SealedFrame(env, b)), SealedFrame(env, b))
  {
    hide Permitted, PlansSound;
    AttemptFrameAuthorised(env, m, bytes, b);
    PreparedFrameAuthorised(env, m, bytes, b);
    MoveFrameAuthorised(env, m, bytes, b);
  }

  lemma AuthorisedStays(m: Memory, m': Memory, frame: Frame)
    requires FrameAuthorised(m, frame) && KeepsPlans(m, m')
    ensures FrameAuthorised(m', frame)
  {}

  /** Every frame of a good log is authorised by the tables the whole log rebuilds to. */
  lemma {:induction false} LogIsAuthorised(env: Env, log: seq<Frame>, i: nat)
    requires GoodLog(env, log) && i < |log|
    ensures FrameAuthorised(Tables(env, log), log[i])
    decreases |log|
  {
    hide Permitted, Replay, Installed, FrameAuthorised, KeepsPlans, PlansSound;
    var before, last := log[..|log| - 1], log[|log| - 1];
    LastFrame(env, log);
    NewFrameAuthorised(env, Tables(env, before), LogBytes(env, before), last.body);
    if i < |before| {
      LogIsAuthorised(env, before, i);
      AuthorisedStays(Tables(env, before), Tables(env, log), before[i]);
    }
  }

  /**
   No containment is recorded as applied unless, earlier in the log and under the same plan hash,
   there is exactly one PREPARED record, exactly one approval by a person, and exactly one apply
   attempt, the last two stamped on the plan's boot and inside both of its clocks' windows.
   */
  lemma AppliedIsAuthorised(env: Env, log: seq<Frame>, j: nat)
    requires GoodLog(env, log) && j < |log|
    requires log[j].body.ActionBody? && log[j].body.state == APPLIED
    ensures var p, before := log[j].body.planId, log[..j];
            && Count(before, PreparedOf, p) == 1 && Count(before, ApprovalOf, p) == 1 && Count(before, AttemptOf, p) == 1
            && Count(before, AppliedOf, p) == 0
            && p in Tables(env, before).byPlan
            && var prepared := Tables(env, before).byPlan[p];
            && prepared.plan.planHash == log[j].body.planHash
            && forall i :: 0 <= i < j && !before[i].body.ReservationBody? && before[i].body.planId == p ==>
                 FrameAuthorised(Tables(env, before), before[i])
  {
    hide Permitted, Replay, FrameAuthorised, OutcomesSound, PlansSound;
    GoodLogPrefix(env, log, j + 1);
    var upTo := log[..j + 1];
    assert upTo[..j] == log[..j];
    LastFrame(env, upTo);
    var m := Tables(env, log[..j]);
    var p := log[j].body.planId;
    AppliedFollowsAttempt(env, m, LogBytes(env, log[..j]), log[j].body);
    CountsMatchTables(env, log[..j], p);
    forall i | 0 <= i < j && !log[..j][i].body.ReservationBody? && log[..j][i].body.planId == p
      ensures FrameAuthorised(m, log[..j][i])
    {
      LogIsAuthorised(env, log[..j], i);
    }
  }

  /** The record follows this attempt, and what the kernel showed is the rule set the attempt announced. */
  ghost predicate NamesAttempt(attempt: AttemptState, b: Body) {
    && b.ActionBody? && b.details.LifecycleDetails? && b.details.extra.AppliedExtra?
    && b.details.movedFrom == attempt.sha && b.details.extra.attemptSha == attempt.sha
    && b.details.extra.observation.ruleset == attempt.expectedRuleset
  }

  ghost predicate NamesAttemptFrame(frame: Frame, b: Body) {
    && frame.body.AttemptBody? && b.ActionBody? && b.details.LifecycleDetails? && b.details.extra.AppliedExtra?
    && b.details.movedFrom == frame.sha && b.details.extra.attemptSha == frame.sha
    && b.details.extra.observation.ruleset == frame.body.expectedRuleset
  }

  /** An attempt stays in the tables as its frame recorded it. */
  ghost predicate AttemptKept(m: Memory, frame: Frame, p: PlanId)
    requires WellTyped(frame.body)
  {
    var m' := Installed(m, frame);
    && (p in m.attempts ==> !FrameIs(AttemptOf, p, frame) && p in m'.attempts && m'.attempts[p] == m.attempts[p])
    && (FrameIs(AttemptOf, p, frame) ==> p in m'.attempts && RecordsAttempt(m'.attempts[p], frame))
  }

  ghost predicate RecordsAttempt(attempt: AttemptState, frame: Frame) {
    && frame.body.AttemptBody? && attempt.sha == frame.sha && attempt.expectedRuleset == frame.body.expectedRuleset
    && attempt.bootId == frame.body.bootId && attempt.bootTime == frame.body.bootTime && attempt.startedAt == frame.body.startedAt
  }

  lemma AttemptStep(env: Env, m: Memory, bytes: nat, b: Body, p: PlanId)
    ensures Permitted(env, m, bytes, b) && WellTyped(b) && PlansSound(env, m) ==> AttemptKept(m, SealedFrame(env, b), p)
  {
    hide Permitted, PlansSound, ContainmentAllowed, TransitionFits;
    AttemptEffect(env, m, bytes, b);
  }

  lemma {:induction false} AttemptIsRemembered(env: Env, log: seq<Frame>, i: nat, p: PlanId)
    requires GoodLog(env, log) && i < |log| && FrameIs(AttemptOf, p, log[i])
    ensures p in Tables(env, log).attempts && RecordsAttempt(Tables(env, log).attempts[p], log[i])
    decreases |log|
  {
    hide Permitted, Replay, Installed, PlansSound, FrameIs, RecordsAttempt;
    var before, last := log[..|log| - 1], log[|log| - 1];
    LastFrame(env, log);
    AttemptStep(env, Tables(env, before), LogBytes(env, before), last.body, p);
    if i < |before| {
      AttemptIsRemembered(env, before, i, p);
    }
  }

  /** An APPLIED record names the apply attempt that precedes it in the log, and shows the rule set announced there. */
  lemma AppliedNamesItsAttempt(env: Env, log: seq<Frame>, i: nat, j: nat)
    requires GoodLog(env, log) && i < j < |log| && log[j].body.ActionBody? && log[j].body.state == APPLIED
    requires FrameIs(AttemptOf, log[j].body.planId, log[i])
    ensures NamesAttemptFrame(log[i], log[j].body)
  {
    hide Permitted, Replay, OutcomesSound, PlansSound, FrameIs;
    GoodLogPrefix(env, log, j + 1);
    var upTo := log[..j + 1];
    assert upTo[..j] == log[..j];
    LastFrame(env, upTo);
    AppliedFollowsAttempt(env, Tables(env, log[..j]), LogBytes(env, log[..j]), log[j].body);
    assert log[..j][i] == log[i];
    AttemptIsRemembered(env, log[..j], i, log[j].body.planId);
  }

  lemma AppliedFollowsAttempt(env: Env, m: Memory, bytes: nat, b: Body)
    requires b.ActionBody? && b.state == APPLIED && Permitted(env, m, bytes, b) && OutcomesSound(m)
    ensures b.planId in m.byPlan && b.planHash == m.byPlan[b.planId].plan.planHash
    ensures b.planId in m.attempts && b.planId !in m.applied && NamesAttempt(m.attempts[b.planId], b)
  {
    hide TransitionFits, PreparedGuard, PlanValid, AppliedObservationOk;
    if b.planId in m.outcomes {
      assert OutcomeSound(m, b.planId);
    }
  }

  // ---------------------------------------------------------------------------------------
  // Dirty latch
  // ---------------------------------------------------------------------------------------

  /** FAILED_DIRTY is final: no move leaves it and no attempt starts beside it. */
  ghost predicate DirtyKept(m: Memory, frame: Frame, p: PlanId)
    requires WellTyped(frame.body)
  {
    && (Dirty(m, p) ==> !frame.body.AttemptBody? && Dirty(Installed(m, frame), p))
    && (FrameIs(DirtyOf, p, frame) ==> Dirty(Installed(m, frame), p))
  }

  lemma MoveKeepsDirty(m: Memory, frame: Frame, p: PlanId)
    requires frame.body.ActionBody? && frame.body.state != PREPARED && WellTyped(frame.body)
    requires Moves(m, frame.body.planId, frame.body.state)
    ensures DirtyKept(m, frame, p)
  {}

  lemma DirtyStep(env: Env, m: Memory, bytes: nat, b: Body, p: PlanId)
    ensures Permitted(env, m, bytes, b) && WellTyped(b) && PlansSound(env, m) && OutcomesSound(m) ==>
              DirtyKept(m, SealedFrame(env, b), p)
  {
    hide Permitted, PlansSound, OutcomesSound, ContainmentAllowed, TransitionFits;
    if Permitted(env, m, bytes, b) && WellTyped(b) && PlansSound(env, m) && OutcomesSound(m) {
      AttemptEffect(env, m, bytes, b);
      MoveEffect(env, m, bytes, b);
      if b.ActionBody? && b.state != PREPARED {
        MoveKeepsDirty(m, SealedFrame(env, b), p);
      }
    }
  }

  /** A plan that was ever recorded FAILED_DIRTY is dirty in the tables. */
  lemma {:induction false} DirtyIsRemembered(env: Env, log: seq<Frame>, i: nat, p: PlanId)
    requires GoodLog(env, log) && i < |log| && FrameIs(DirtyOf, p, log[i])
    ensures Dirty(Tables(env, log), p)
    decreases |log|
  {
    hide Permitted, Replay, Installed, OutcomesSound, PlansSound, Dirty, FrameIs;
    var before, last := log[..|log| - 1], log[|log| - 1];
    LastFrame(env, log);
    DirtyStep(env, Tables(env, before), LogBytes(env, before), last.body, p);
    if i < |before| {
      DirtyIsRemembered(env, before, i, p);
    }
  }

  /** After a FAILED_DIRTY record no apply attempt is ever recorded again, for any plan. */
  lemma NoAttemptAfterDirty(env: Env, log: seq<Frame>, i: nat, j: nat, p: PlanId)
    requires GoodLog(env, log) && i < j < |log| && FrameIs(DirtyOf, p, log[i])
    ensures !log[j].body.AttemptBody?
  {
    hide Permitted, Replay, Installed, OutcomesSound, PlansSound, Dirty, FrameIs;
    GoodLogPrefix(env, log, j + 1);
    var upTo := log[..j + 1];
    assert upTo[..j] == log[..j];
    LastFrame(env, upTo);
    assert log[..j][i] == log[i];
    DirtyIsRemembered(env, log[..j], i, p);
    DirtyStep(env, Tables(env, log[..j]), LogBytes(env, log[..j]), log[j].body, p);
  }
}
