/**
 Runs of the actuator: any interleaving of permitted appends, kernel mutations, append failures,
 crashes and restarts. Whether a failed append left its frame on disk is up to the disk.
 */
module ActuatorRuns {
  import opened Wrappers
  import opened ActuatorRecords
  import opened ActuatorReplay
  import opened ActuatorAppend
  import opened ActuatorSafety
  import opened ActuatorLogs

  /**
   What became of an append: synced; lost (at most a torn tail, which recovery cuts off); or
   completely written although the append reported failure. After a failure the stream refuses
   all further appends until a restart.
   */
  datatype Fate = Durable | Lost | Unsynced

  /** `log` holds the whole frames a restart would read, `mem` and `bytes` what the daemon remembers. */
  datatype Store = Store(log: seq<Frame>, mem: Memory, bytes: nat, failed: bool)

  /**
   `armed` is the staged kernel batch of the apply call in progress, which only that call can
   flush; `flushed` lists the plans whose batch was sent to the kernel, over all restarts.
   */
  datatype Sys = Sys(store: Store, armed: Option<PlanId>, flushed: seq<PlanId>)

  const INITIAL := Sys(Store([], EMPTY_MEMORY, 0, false), None, [])

  datatype Action = Append(body: Body, fate: Fate) | Flush(planId: PlanId) | Restart

  function Written(env: Env, s: Store, body: Body, fate: Fate): Store
    requires WellTyped(body)
  {
    var frame := SealedFrame(env, body);
    match fate
    case Durable => Store(s.log + [frame], Installed(s.mem, frame), s.bytes + FrameSize(env, body), s.failed)
    case Lost => s.(failed := true)
    case Unsynced => s.(log := s.log + [frame], failed := true)
  }

  function AfterAppend(env: Env, s: Sys, body: Body, fate: Fate): Sys
    requires WellTyped(body)
  {
    Sys(Written(env, s.store, body, fate),
        if fate == Durable && body.AttemptBody? then Some(body.planId) else None,
        s.flushed)
  }

  /** What a restarting daemon demands of the frames it reads. */
  ghost predicate Openable(env: Env, log: seq<Frame>) {
    && |log| <= MAX_RECORDS
    && Replay(env, log).Some?
    && CapacityReserved(Tables(env, log), LogBytes(env, log))
  }

  ghost predicate Step(env: Env, s: Sys, a: Action, s': Sys) {
    match a
    case Append(body, fate) =>
      && !s.store.failed && WellTyped(body)
      && Permitted(env, s.store.mem, s.store.bytes, body)
      && s' == AfterAppend(env, s, body, fate)
    case Flush(p) =>
      && s.armed == Some(p)
      && s' == s.(armed := None, flushed := s.flushed + [p])
    case Restart =>
      && Openable(env, s.store.log)
      && s' == Sys(Store(s.store.log, Tables(env, s.store.log), LogBytes(env, s.store.log), false), None, s.flushed)
  }

  ghost predicate LegalRun(env: Env, states: seq<Sys>, actions: seq<Action>) {
    && |states| == |actions| + 1
    && states[0] == INITIAL
    && forall i :: 0 <= i < |actions| ==> Step(env, states[i], actions[i], states[i + 1])
  }

  lemma RunExtends(env: Env, states: seq<Sys>, actions: seq<Action>, a: Action, s': Sys)
    requires LegalRun(env, states, actions)
    ensures Step(env, states[|actions|], a, s') ==> LegalRun(env, states + [s'], actions + [a])
  {
    hide Step;
  }

  // ---------------------------------------------------------------------------------------
  // The invariant of every run
  // ---------------------------------------------------------------------------------------

  ghost predicate NoRepeats(ps: seq<PlanId>) { forall i, j :: 0 <= i < j < |ps| ==> ps[i] != ps[j] }

  ghost predicate FlushesCovered(s: Sys) {
    && NoRepeats(s.flushed)
    && (forall i :: 0 <= i < |s.flushed| ==> Count(s.store.log, AttemptOf, s.flushed[i]) == 1)
    && (s.armed.Some? ==> Count(s.store.log, AttemptOf, s.armed.value) == 1 && s.armed.value !in s.flushed)
  }

  ghost predicate Remembers(env: Env, s: Store, log: seq<Frame>) {
    s.mem == Tables(env, log) && s.bytes == LogBytes(env, log)
  }

  /** The daemon remembers its log; after a failed append, possibly without the frame of that append. */
  ghost predicate RunInv(env: Env, s: Sys) {
    && GoodLog(env, s.store.log)
    && (|| Remembers(env, s.store, s.store.log)
        || (s.store.failed && s.store.log != [] && Remembers(env, s.store, s.store.log[..|s.store.log| - 1])))
    && FlushesCovered(s)
  }

  lemma AppendKeepsLog(env: Env, s: Sys, body: Body, fate: Fate)
    requires RunInv(env, s) && !s.store.failed && WellTyped(body)
    requires Permitted(env, Tables(env, s.store.log), LogBytes(env, s.store.log), body)
    ensures var s' := AfterAppend(env, s, body, fate);
            && GoodLog(env, s'.store.log)
            && (|| Remembers(env, s'.store, s'.store.log)
                || (s'.store.failed && s'.store.log != [] && Remembers(env, s'.store, s'.store.log[..|s'.store.log| - 1])))
  {
    hide Permitted, FlushesCovered, Installed;
    GoodLogExtends(env, s.store.log, body);
    var log' := s.store.log + [SealedFrame(env, body)];
    assert log'[..|log'| - 1] == s.store.log;
    if fate == Durable {
      LastFrame(env, log');
    }
  }

  lemma CountExtends(log: seq<Frame>, frame: Frame, kind: Kind, p: PlanId)
    ensures Count(log + [frame], kind, p) == Count(log, kind, p) + One(FrameIs(kind, p, frame))
  {
    assert (log + [frame])[..|log|] == log;
  }

  lemma FlushedNotPermittedAgain(env: Env, log: seq<Frame>, body: Body, p: PlanId)
    requires GoodLog(env, log) && Permitted(env, Tables(env, log), LogBytes(env, log), body)
    requires Count(log, AttemptOf, p) == 1
    ensures !FrameIs(AttemptOf, p, SealedFrame(env, body))
  {
    hide Permitted, Replay, OutcomesSound, PlansSound;
    CountsMatchTables(env, log, p);
    GoodLogIsSafe(env, log);
    AttemptEffect(env, Tables(env, log), LogBytes(env, log), body);
  }

  /** A plan whose one attempt is on disk keeps it, whatever is appended. */
  lemma AttemptStaysCounted(env: Env, log: seq<Frame>, body: Body, p: PlanId)
    requires GoodLog(env, log) && Permitted(env, Tables(env, log), LogBytes(env, log), body)
    requires Count(log, AttemptOf, p) == 1
    ensures Count(log + [SealedFrame(env, body)], AttemptOf, p) == 1
  {
    hide Permitted, GoodLog, Count, FrameIs;
    CountExtends(log, SealedFrame(env, body), AttemptOf, p);
    FlushedNotPermittedAgain(env, log, body, p);
  }

  /** An attempt that may be appended is its plan's first. */
  lemma AttemptIsFirst(env: Env, log: seq<Frame>, body: Body)
    requires GoodLog(env, log) && body.AttemptBody? && Permitted(env, Tables(env, log), LogBytes(env, log), body)
    ensures Count(log, AttemptOf, body.planId) == 0
    ensures Count(log + [SealedFrame(env, body)], AttemptOf, body.planId) == 1
  {
    hide Permitted, GoodLog, Count, Replay;
    var p := body.planId;
    CountExtends(log, SealedFrame(env, body), AttemptOf, p);
    CountsMatchTables(env, log, p);
    if Count(log, AttemptOf, p) == 1 {
      FlushedNotPermittedAgain(env, log, body, p);
    }
  }

  lemma AppendKeepsFlushes(env: Env, s: Sys, body: Body, fate: Fate)
    requires RunInv(env, s) && !s.store.failed && WellTyped(body)
    requires Permitted(env, Tables(env, s.store.log), LogBytes(env, s.store.log), body)
    ensures FlushesCovered(AfterAppend(env, s, body, fate))
  {
    hide Permitted, Installed, GoodLog, Count;
    var s' := AfterAppend(env, s, body, fate);
    forall i | 0 <= i < |s.flushed| ensures Count(s'.store.log, AttemptOf, s.flushed[i]) == 1 {
      AttemptStaysCounted(env, s.store.log, body, s.flushed[i]);
    }
    if s'.armed.Some? {
      AttemptIsFirst(env, s.store.log, body);
    }
  }

  lemma StepKeepsInv(env: Env, s: Sys, a: Action, s': Sys)
    requires RunInv(env, s) && Step(env, s, a, s')
    ensures RunInv(env, s')
  {
    hide Permitted, Installed, Openable, GoodLog;
    match a
    case Append(body, fate) =>
      AppendKeepsLog(env, s, body, fate);
      AppendKeepsFlushes(env, s, body, fate);
    case Flush(_) =>
    case Restart =>
  }

  lemma {:induction false} RunKeepsInv(env: Env, states: seq<Sys>, actions: seq<Action>, i: nat)
    requires LegalRun(env, states, actions) && i < |states|
    ensures RunInv(env, states[i])
    decreases i
  {
    hide Step;
    if i > 0 {
      RunKeepsInv(env, states, actions, i - 1);
      StepKeepsInv(env, states[i - 1], actions[i - 1], states[i]);
    }
  }

  // ---------------------------------------------------------------------------------------
  // Main results
  // ---------------------------------------------------------------------------------------

  lemma StepExtendsLog(env: Env, s: Sys, a: Action, s': Sys)
    requires Step(env, s, a, s')
    ensures s.store.log <= s'.store.log
  {
    hide Permitted, Installed, Openable;
  }

  lemma {:induction false} LogOnlyGrows(env: Env, states: seq<Sys>, actions: seq<Action>, i: nat, j: nat)
    requires LegalRun(env, states, actions) && i <= j < |states|
    ensures states[i].store.log <= states[j].store.log
    decreases j
  {
    hide Step;
    if i < j {
      LogOnlyGrows(env, states, actions, i, j - 1);
      StepExtendsLog(env, states[j - 1], actions[j - 1], states[j]);
    }
  }

  /**
   Crash-replay refinement. At any later point of the run, however many crashes lie between,
   every prefix of the log replays, and the prefix that was on disk at an earlier moment replays
   to exactly the tables the daemon held at that moment. If an append had just been reported as
   failed, the daemon's tables may lack its frame: then the prefix without it replays to them.
   */
  lemma ReplayRebuildsHistory(env: Env, states: seq<Sys>, actions: seq<Action>, i: nat, j: nat, k: nat)
    requires LegalRun(env, states, actions) && i <= j < |states| && k <= |states[j].store.log|
    ensures Replay(env, states[j].store.log[..k]).Some?
    ensures states[i].store.log <= states[j].store.log
    ensures var log, s := states[j].store.log, states[i].store;
            || Replay(env, log[..|s.log|]) == Some(s.mem)
            || (s.failed && s.log != [] && Replay(env, log[..|s.log| - 1]) == Some(s.mem))
  {
    hide Step, GoodLog, Replay, Remembers, FlushesCovered;
    RunKeepsInv(env, states, actions, j);
    PrefixReplays(env, states[j].store.log, k);
    LogOnlyGrows(env, states, actions, i, j);
    RunKeepsInv(env, states, actions, i);
    MemoryReplays(env, states[i]);
    PrefixOfPrefix(states[i].store.log, states[j].store.log);
  }

  lemma PrefixReplays(env: Env, log: seq<Frame>, k: nat)
    requires GoodLog(env, log) && k <= |log|
    ensures Replay(env, log[..k]) == Some(Tables(env, log[..k]))
  {
    hide GoodLog, MemSafe, Replay;
    GoodLogPrefix(env, log, k);
    GoodLogIsSafe(env, log[..k]);
  }

  lemma MemoryReplays(env: Env, s: Sys)
    requires RunInv(env, s)
    ensures || Replay(env, s.store.log) == Some(s.store.mem)
            || (s.store.failed && s.store.log != [] && Replay(env, s.store.log[..|s.store.log| - 1]) == Some(s.store.mem))
  {
    hide GoodLog, Replay, Tables, FlushesCovered;
    var log := s.store.log;
    PrefixReplays(env, log, |log|);
    assert log[..|log|] == log;
    if log != [] {
      PrefixReplays(env, log, |log| - 1);
    }
  }

  lemma PrefixOfPrefix(log: seq<Frame>, grown: seq<Frame>)
    requires log <= grown
    ensures grown[..|log|] == log && (log != [] ==> grown[..|log| - 1] == log[..|log| - 1])
  {}

  /** A restart can always reopen the journal, whatever the disk did to the last append. */
  lemma RestartIsAlwaysPossible(env: Env, states: seq<Sys>, actions: seq<Action>, i: nat)
    requires LegalRun(env, states, actions) && i < |states|
    ensures Openable(env, states[i].store.log)
  {
    hide Step, GoodLog;
    RunKeepsInv(env, states, actions, i);
    GoodLogIsSafe(env, states[i].store.log);
    RecordCountIsLength(env, states[i].store.log);
  }

  lemma {:induction false} RecordCountIsLength(env: Env, log: seq<Frame>)
    requires Replay(env, log).Some?
    ensures Replay(env, log).value.recordCount == |log|
    decreases |log|
  {
    if log != [] {
      hide ReplayFrame;
      RecordCountIsLength(env, log[..|log| - 1]);
      ReplayFrameCounts(env, Replay(env, log[..|log| - 1]).value, log[|log| - 1]);
    }
  }

  /**
   Over any sequence of crashes and restarts the kernel batch of a plan is flushed at most once,
   and only when the plan's single apply attempt is already on disk.
   */
  lemma FlushedAtMostOnce(env: Env, states: seq<Sys>, actions: seq<Action>, i: nat, p: PlanId)
    requires LegalRun(env, states, actions) && i < |states|
    ensures NoRepeats(states[i].flushed)
    ensures Count(states[i].store.log, AttemptOf, p) <= 1
    ensures i < |actions| && actions[i] == Flush(p) ==>
              Count(states[i].store.log, AttemptOf, p) == 1 && p !in states[i].flushed
  {
    hide Permitted, GoodLog, Replay;
    RunKeepsInv(env, states, actions, i);
    CountsMatchTables(env, states[i].store.log, p);
    assert i < |actions| ==> Step(env, states[i], actions[i], states[i + 1]);
  }

  /**
   At most one mutation is unsettled, at most five containments are active and on distinct
   container generations, no 60-second or one-hour window holds too many reservations, room is
   reserved for every prepared plan, every verified plan has a non-zero audit deadline, and the
   open count the daemon reports is the number of undecided plans.
   */
  ghost predicate SafeTables(m: Memory, bytes: nat) {
    && Exclusive(m) && Contained(m) && RateBounded(m.rateHistory) && CapacityReserved(m, bytes)
    && (forall p :: p in m.outcomes && m.outcomes[p].state == VERIFIED ==> p in m.verified && m.verified[p] > 0)
    && |Undecided(m)| == |m.byPlan| - |m.outcomes|
  }

  /**
   At every moment, both in the daemon's memory, even after a failed append, and in what any prefix
   of the log rebuilds to.
   */
  lemma RunStaysSafe(env: Env, states: seq<Sys>, actions: seq<Action>, i: nat, k: nat)
    requires LegalRun(env, states, actions) && i < |states| && k <= |states[i].store.log|
    ensures SafeTables(Tables(env, states[i].store.log[..k]), LogBytes(env, states[i].store.log[..k]))
    ensures SafeTables(states[i].store.mem, states[i].store.bytes)
  {
    hide Step, GoodLog, SafeTables, FlushesCovered;
    var log := states[i].store.log;
    RunKeepsInv(env, states, actions, i);
    PrefixIsSafe(env, log, k);
    PrefixIsSafe(env, log, |log|);
    assert log[..|log|] == log;
    if log != [] {
      PrefixIsSafe(env, log, |log| - 1);
    }
  }

  lemma PrefixIsSafe(env: Env, log: seq<Frame>, k: nat)
    requires GoodLog(env, log) && k <= |log|
    ensures SafeTables(Tables(env, log[..k]), LogBytes(env, log[..k]))
  {
    hide GoodLog, MemSafe, SafeTables;
    GoodLogPrefix(env, log, k);
    GoodLogIsSafe(env, log[..k]);
    InvariantIsSafe(env, Tables(env, log[..k]), LogBytes(env, log[..k]));
  }

  lemma InvariantIsSafe(env: Env, m: Memory, bytes: nat)
    requires MemSafe(env, m, bytes)
    ensures SafeTables(m, bytes)
  {
    hide Exclusive, Contained, RateBounded, CapacityReserved, PlansSound, IntentsSound;
    forall p | p in m.outcomes && m.outcomes[p].state == VERIFIED ensures p in m.verified && m.verified[p] > 0 {
      assert OutcomeSound(m, p);
    }
    OpenCountIsExact(m);
  }

  lemma OpenCountIsExact(m: Memory)
    requires m.outcomes.Keys <= m.byPlan.Keys
    ensures |Undecided(m)| == |m.byPlan| - |m.outcomes|
  {
    assert m.byPlan.Keys == Undecided(m) + m.outcomes.Keys;
  }

  /** Once a mutation's result is recorded as uncertain, the daemon never attempts another, restarts included. */
  lemma DirtyLatches(env: Env, states: seq<Sys>, actions: seq<Action>, s: nat, i: nat, j: nat, p: PlanId)
    requires LegalRun(env, states, actions) && s < |states|
    requires i < j < |states[s].store.log| && FrameIs(DirtyOf, p, states[s].store.log[i])
    ensures !states[s].store.log[j].body.AttemptBody?
  {
    hide Step, GoodLog;
    RunKeepsInv(env, states, actions, s);
    NoAttemptAfterDirty(env, states[s].store.log, i, j, p);
  }

  /** In every run, nothing is applied without one person's timely approval and one timely attempt. */
  lemma RunAppliesOnlyAuthorised(env: Env, states: seq<Sys>, actions: seq<Action>, s: nat, j: nat)
    requires LegalRun(env, states, actions) && s < |states| && j < |states[s].store.log|
    requires states[s].store.log[j].body.ActionBody? && states[s].store.log[j].body.state == APPLIED
    ensures var p, before := states[s].store.log[j].body.planId, states[s].store.log[..j];
            && Count(before, PreparedOf, p) == 1 && Count(before, ApprovalOf, p) == 1 && Count(before, AttemptOf, p) == 1
            && p in Tables(env, before).byPlan
            && Tables(env, before).byPlan[p].plan.planHash == states[s].store.log[j].body.planHash
            && forall i :: 0 <= i < j && !before[i].body.ReservationBody? && before[i].body.planId == p ==>
                 && FrameAuthorised(Tables(env, before), before[i])
                 && (before[i].body.AttemptBody? ==> NamesAttemptFrame(before[i], states[s].store.log[j].body))
  {
    hide Step, GoodLog, FrameAuthorised, NamesAttemptFrame;
    RunKeepsInv(env, states, actions, s);
    var log := states[s].store.log;
    AppliedIsAuthorised(env, log, j);
    forall i | 0 <= i < j && log[..j][i].body.AttemptBody? && log[..j][i].body.planId == log[j].body.planId
      ensures NamesAttemptFrame(log[..j][i], log[j].body)
    {
      AppliedNamesItsAttempt(env, log, i, j);
    }
  }

  // ---------------------------------------------------------------------------------------
  // A prepared plan never lacks room
  // ---------------------------------------------------------------------------------------

  lemma MemoryKeepsInvariant(env: Env, states: seq<Sys>, actions: seq<Action>, i: nat)
    requires LegalRun(env, states, actions) && i < |states|
    ensures CapacityReserved(states[i].store.mem, states[i].store.bytes) && OutcomesSound(states[i].store.mem)
  {
    hide Step, GoodLog, FlushesCovered, CapacityReserved, OutcomesSound, PlansSound, IntentsSound;
    RunKeepsInv(env, states, actions, i);
    var log := states[i].store.log;
    GoodLogIsSafe(env, log);
    if log != [] {
      GoodLogPrefix(env, log, |log| - 1);
      GoodLogIsSafe(env, log[..|log| - 1]);
    }
  }

  /** In every run, no decision, attempt or lifecycle record of a prepared plan is turned away for lack of room. */
  lemma RunRefusesNoDecision(env: Env, states: seq<Sys>, actions: seq<Action>, i: nat, prepared: PreparedState,
                             authority: Authority, sample: Sample, state: ActionState, reason: Reason, basis: Basis)
    requires LegalRun(env, states, actions) && i < |states| && prepared.plan.planId in states[i].store.mem.byPlan
    requires env.payloadSize(DecisionBody(states[i].store.mem.previous, prepared, authority, sample, state, reason, basis))
             <= MAX_FRAME_PAYLOAD
    ensures BuildDecision(env, states[i].store.mem, states[i].store.bytes, prepared, authority, sample, state, reason, basis)
            != Failure(PendingLimit)
  {
    hide Step, CapacityReserved, OutcomesSound, BuildDecision;
    MemoryKeepsInvariant(env, states, actions, i);
    DecisionNeverRefused(env, states[i].store.mem, states[i].store.bytes, prepared, authority, sample, state, reason, basis);
  }

  lemma RunRefusesNoAttempt(env: Env, states: seq<Sys>, actions: seq<Action>, i: nat, prepared: PreparedState, sample: Sample,
                            ruleset: Digest)
    requires LegalRun(env, states, actions) && i < |states| && prepared.plan.planId in states[i].store.mem.byPlan
    requires prepared.plan.planId in states[i].store.mem.outcomes ==>
               env.payloadSize(AttemptRecord(states[i].store.mem, prepared, sample, ruleset)) <= MAX_FRAME_PAYLOAD
    ensures BuildAttempt(env, states[i].store.mem, states[i].store.bytes, prepared, sample, ruleset) != Failure(PendingLimit)
  {
    hide Step, CapacityReserved, OutcomesSound, BuildAttempt;
    MemoryKeepsInvariant(env, states, actions, i);
    AttemptNeverRefused(env, states[i].store.mem, states[i].store.bytes, prepared, sample, ruleset);
  }

  lemma RunRefusesNoLifecycle(env: Env, states: seq<Sys>, actions: seq<Action>, i: nat, prepared: PreparedState, sample: Sample,
                              state: ActionState, reason: Reason, basis: Basis, extra: Extra)
    requires LegalRun(env, states, actions) && i < |states| && prepared.plan.planId in states[i].store.mem.byPlan
    requires prepared.plan.planId in states[i].store.mem.outcomes ==>
               env.payloadSize(LifecycleBody(states[i].store.mem, prepared, sample, state, reason, basis, extra))
               <= MAX_FRAME_PAYLOAD
    ensures BuildLifecycle(env, states[i].store.mem, states[i].store.bytes, prepared, sample, state, reason, basis, extra)
            != Failure(PendingLimit)
  {
    hide Step, CapacityReserved, OutcomesSound, BuildLifecycle, LifecycleBody;
    MemoryKeepsInvariant(env, states, actions, i);
    LifecycleNeverRefused(env, states[i].store.mem, states[i].store.bytes, prepared, sample, state, reason, basis, extra);
  }

  /** Nor is the PREPARED record that comes right after its reservation. */
  lemma RunRefusesNoPreparation(env: Env, states: seq<Sys>, actions: seq<Action>, i: nat, reserved: Body, plan: Plan,
                                intentSha: Digest, deadline: nat)
    requires LegalRun(env, states, actions) && i < |actions| && actions[i] == Append(reserved, Durable) && reserved.ReservationBody?
    requires env.payloadSize(PreparedBody(states[i + 1].store.mem.previous, plan, intentSha, deadline)) <= MAX_FRAME_PAYLOAD
    ensures BuildPrepared(env, states[i + 1].store.mem, states[i + 1].store.bytes, plan, intentSha, deadline)
            != Failure(PendingLimit)
  {
    hide BuildPrepared, BuildReservation, Installed, ReservationGuard;
    assert Step(env, states[i], actions[i], states[i + 1]);
    PreparedNeverRefused(env, states[i].store.mem, states[i].store.bytes, reserved, plan, intentSha, deadline);
  }
}
