/**
 One complete containment as a concrete run: reserved, prepared, approved, attempted, flushed,
 applied, verified. It shows that the runs the theorems speak about include the intended one.
 A second run ends where two intents drew the same plan ID.
 */
module ActuatorExample {
  import opened Wrappers
  import opened ActuatorRecords
  import opened ActuatorReplay
  import opened ActuatorAppend
  import opened ActuatorSafety
  import opened ActuatorLogs
  import opened ActuatorRuns

  function World(): Env { Env(_ => 1, _ => 0, _ => 5, (_, _) => 7) }

  function ThePlan(): Plan { Plan(Intent(1, 0, 0, 0, 30, 0), 7, 0, 0, 0, 1, 0, 0, 0 + APPROVAL_TTL) }
  function ThePrepared(): PreparedState { PreparedState(ThePlan(), 5, APPROVAL_TTL + 1, 1) }
  function Now(): Sample { Sample(0, 1, 0) }
  function Seen(): Observation { Observation(1, 9, 30_000, 30_000, 0, 0, 1, 1) }

  /** The tables after preparation, with the plan's outcome and attempt still open. */
  function Base(count: nat): Memory {
    var token := ReservationState(5, 0, 1);
    Memory(1, map[1 := ThePrepared()], map[7 := ThePrepared()], map[1 := token], [token], map[], map[], map[], map[], count)
  }

  function Tables0(): Memory { EMPTY_MEMORY }
  function Tables1(): Memory {
    var token := ReservationState(5, 0, 1);
    EMPTY_MEMORY.(previous := 1, reservations := map[1 := token], rateHistory := [token], recordCount := 1)
  }
  function Tables2(): Memory { Base(2) }
  function Tables3(): Memory { Base(3).(outcomes := map[7 := Outcome(APPROVED, 1, 0)]) }
  function Tables4(): Memory { Tables3().(recordCount := 4, attempts := map[7 := AttemptState(1, 0, 0, 1, 1, 9)]) }
  function Tables5(): Memory {
    Tables4().(recordCount := 5, outcomes := map[7 := Outcome(APPLIED, 1, 0)], applied := map[7 := Seen()])
  }
  function Tables6(): Memory {
    Tables5().(recordCount := 6, outcomes := map[7 := Outcome(VERIFIED, 1, 0)], verified := map[7 := 10])
  }

  function Reservation(): Body { ReservationBody(1, 5, 0, 0) }
  function Preparation(): Body { PreparedBody(1, ThePlan(), 5, APPROVAL_TTL + 1) }
  function Approval(): Body {
    DecisionBody(1, ThePrepared(), Authority(0, 0, Root), Now(), APPROVED, LocalAdminApproved, LocalAdminApproval)
  }
  function Attempt(): Body { AttemptBody(7, 0, 0, 0, 1, 1, 0, 30, 9, 1, 1) }
  function Application(): Body {
    ActionBody(7, 0, APPLIED, NftApplyObserved, 0, 1, LifecycleDetails(1, 0, 1, ExactKernelReadback, AppliedExtra(1, Seen())))
  }
  function Verification(): Body {
    ActionBody(7, 0, VERIFIED, NftApplyVerified, 0, 1, LifecycleDetails(1, 0, 1, ProofCommitted, VerifiedExtra(1, 10)))
  }

  lemma OnePlanOwes(m: Memory)
    requires m.byPlan.Keys == {7}
    ensures Budget(m) == PlanOwes(m, 7)
  {
    OwedSplit(m, {7}, 7);
    assert {7} - {7} == {};
  }

  lemma NobodyOwes(m: Memory)
    requires m.byPlan == map[]
    ensures Budget(m) == 0
  {}

  lemma MayReserve()
    ensures Permitted(World(), Tables0(), 0, Reservation())
    ensures Installed(Tables0(), SealedFrame(World(), Reservation())) == Tables1()
  {
    NobodyOwes(Tables0());
    assert PendingAt(Tables0(), 0) == {};
    assert !MutationLocked(Tables0());
  }

  lemma MayPrepare()
    ensures Permitted(World(), Tables1(), 76, Preparation())
    ensures Installed(Tables1(), SealedFrame(World(), Preparation())) == Tables2()
  {
    NobodyOwes(Tables1());
  }

  lemma MayApprove()
    ensures Permitted(World(), Tables2(), 152, Approval())
    ensures Installed(Tables2(), SealedFrame(World(), Approval())) == Tables3()
  {
    OnePlanOwes(Tables2());
  }

  lemma MayAttempt()
    ensures Permitted(World(), Tables3(), 228, Attempt())
    ensures Installed(Tables3(), SealedFrame(World(), Attempt())) == Tables4()
  {
    OnePlanOwes(Tables3());
    assert !MutationLocked(Tables3());
    assert Active(Tables3()) == {};
  }

  lemma MayApply()
    ensures Permitted(World(), Tables4(), 304, Application())
    ensures Installed(Tables4(), SealedFrame(World(), Application())) == Tables5()
  {
    hide Permitted;
    ApplyIsPermitted();
  }

  lemma ApplyIsPermitted()
    ensures Permitted(World(), Tables4(), 304, Application())
  {
    OnePlanOwes(Tables4());
  }

  lemma MayVerify()
    ensures Permitted(World(), Tables5(), 380, Verification())
    ensures Installed(Tables5(), SealedFrame(World(), Verification())) == Tables6()
  {
    hide Permitted;
    VerifyIsPermitted();
  }

  lemma VerifyIsPermitted()
    ensures Permitted(World(), Tables5(), 380, Verification())
  {
    OnePlanOwes(Tables5());
  }

  /** A state of the run: these tables, so many bytes, nothing failed. */
  ghost predicate At(s: Sys, m: Memory, bytes: nat, flushed: seq<PlanId>) {
    s.store.mem == m && s.store.bytes == bytes && !s.store.failed && s.flushed == flushed
  }

  lemma Advance(states: seq<Sys>, actions: seq<Action>, m: Memory, bytes: nat, b: Body, m': Memory)
    returns (states': seq<Sys>, actions': seq<Action>)
    requires LegalRun(World(), states, actions) && At(states[|actions|], m, bytes, states[|actions|].flushed)
    requires WellTyped(b) && Permitted(World(), m, bytes, b) && Installed(m, SealedFrame(World(), b)) == m'
    ensures LegalRun(World(), states', actions') && |actions'| == |actions| + 1
    ensures At(states'[|actions'|], m', bytes + 76, states[|actions|].flushed)
    ensures b.AttemptBody? ==> states'[|actions'|].armed == Some(b.planId)
  {
    hide Permitted, Installed;
    var s := states[|actions|];
    var next := AfterAppend(World(), s, b, Durable);
    assert Step(World(), s, Append(b, Durable), next);
    RunExtends(World(), states, actions, Append(b, Durable), next);
    states', actions' := states + [next], actions + [Append(b, Durable)];
  }

  /** The complete containment is a legal run. */
  lemma AContainmentRun() returns (states: seq<Sys>, actions: seq<Action>)
    ensures LegalRun(World(), states, actions) && |actions| == 7
    ensures At(states[7], Tables6(), 456, [7]) && 7 in Tables6().outcomes && Tables6().outcomes[7].state == VERIFIED
  {
    hide Permitted, Installed, LegalRun;
    states, actions := Begin();
    MayReserve();
    states, actions := Advance(states, actions, Tables0(), 0, Reservation(), Tables1());
    MayPrepare();
    states, actions := Advance(states, actions, Tables1(), 76, Preparation(), Tables2());
    MayApprove();
    states, actions := Advance(states, actions, Tables2(), 152, Approval(), Tables3());
    MayAttempt();
    states, actions := Advance(states, actions, Tables3(), 228, Attempt(), Tables4());
    states, actions := Send(states, actions, Tables4(), 304);
    MayApply();
    states, actions := Advance(states, actions, Tables4(), 304, Application(), Tables5());
    MayVerify();
    states, actions := Advance(states, actions, Tables5(), 380, Verification(), Tables6());
  }

  lemma Begin() returns (states: seq<Sys>, actions: seq<Action>)
    ensures LegalRun(World(), states, actions) && actions == [] && At(states[0], Tables0(), 0, [])
  {
    states, actions := [INITIAL], [];
  }

  lemma Send(states: seq<Sys>, actions: seq<Action>, m: Memory, bytes: nat) returns (states': seq<Sys>, actions': seq<Action>)
    requires LegalRun(World(), states, actions) && At(states[|actions|], m, bytes, []) && states[|actions|].armed == Some(7)
    ensures LegalRun(World(), states', actions') && |actions'| == |actions| + 1 && At(states'[|actions'|], m, bytes, [7])
  {
    var s := states[|actions|];
    var next := s.(armed := None, flushed := s.flushed + [7]);
    RunExtends(World(), states, actions, Flush(7), next);
    states', actions' := states + [next], actions + [Flush(7)];
  }

  // ---------------------------------------------------------------------------------------
  // A colliding plan ID
  // ---------------------------------------------------------------------------------------

  function SecondPlan(): Plan { ThePlan().(intent := ThePlan().intent.(intentId := 2)) }
  function SecondReservation(): Body { ReservationBody(2, 5, 0, 1) }

  /** The first plan prepared, the second intent reserved. */
  function Crowded(): Memory {
    var token := ReservationState(5, 0, 1);
    Base(3).(reservations := map[1 := token, 2 := token], rateHistory := [token, token])
  }

  lemma MayReserveAgain()
    ensures Permitted(World(), Tables2(), 152, SecondReservation())
    ensures Installed(Tables2(), SealedFrame(World(), SecondReservation())) == Crowded()
  {
    OnePlanOwes(Tables2());
    assert PendingAt(Tables2(), 0) == {1};
    assert !MutationLocked(Tables2());
  }

  lemma MayBuildSecond()
    ensures PreparedGuard(World(), Crowded(), SecondPlan(), 5, APPROVAL_TTL + 1)
    ensures var built := BuildPrepared(World(), Crowded(), 228, SecondPlan(), 5, APPROVAL_TTL + 1);
            && built.Success? && World().payloadSize(built.value) <= MAX_FRAME_PAYLOAD
            && ReplayFrame(World(), Crowded(), SealedFrame(World(), built.value)) == None
  {
    OnePlanOwes(Crowded());
    PreparedAgreesIffFresh(World(), Crowded(), 228, SecondPlan(), 5, APPROVAL_TTL + 1);
  }

  /**
   Two intents, one plan ID. After a legal run (reserve, prepare, reserve) the second plan passes
   every check of the appending side, and a restarted daemon refuses the journal it is written to:
   nothing but the random source keeps a drawn plan ID new.
   */
  lemma CollidingPlanIdIsUnreplayable() returns (states: seq<Sys>, actions: seq<Action>)
    ensures LegalRun(World(), states, actions) && |actions| == 3 && At(states[3], Crowded(), 228, [])
    ensures SecondPlan().planId in Crowded().byPlan && SecondPlan().intent.intentId !in Crowded().byIntent
    ensures PreparedGuard(World(), Crowded(), SecondPlan(), 5, APPROVAL_TTL + 1)
    ensures var built := BuildPrepared(World(), Crowded(), 228, SecondPlan(), 5, APPROVAL_TTL + 1);
            && built.Success? && World().payloadSize(built.value) <= MAX_FRAME_PAYLOAD
            && Replay(World(), states[3].store.log + [SealedFrame(World(), built.value)]) == None
  {
    hide Permitted, Installed, LegalRun, PreparedGuard, BuildPrepared, ReplayFrame;
    states, actions := Begin();
    MayReserve();
    states, actions := Advance(states, actions, Tables0(), 0, Reservation(), Tables1());
    MayPrepare();
    states, actions := Advance(states, actions, Tables1(), 76, Preparation(), Tables2());
    MayReserveAgain();
    states, actions := Advance(states, actions, Tables2(), 152, SecondReservation(), Crowded());
    MayBuildSecond();
    RunLogReplays(states, actions);
    var log, frame := states[3].store.log,
      SealedFrame(World(), BuildPrepared(World(), Crowded(), 228, SecondPlan(), 5, APPROVAL_TTL + 1).value);
    assert (log + [frame])[..|log|] == log;
  }

  lemma RunLogReplays(states: seq<Sys>, actions: seq<Action>)
    requires LegalRun(World(), states, actions) && |actions| == 3 && !states[3].store.failed
    ensures |states| == 4 && Replay(World(), states[3].store.log) == Some(states[3].store.mem)
  {
    hide Replay, Step;
    ReplayRebuildsHistory(World(), states, actions, 3, 3, 0);
    assert states[3].store.log[..|states[3].store.log|] == states[3].store.log;
  }
}
