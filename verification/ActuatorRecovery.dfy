/**
 The deadline arithmetic of recovery, on 64-bit unsigned words that wrap. Each operation below is
 the machine's; the lemmas show that, behind the guards, it is also the mathematician's.
 */
module ActuatorRecovery {
  import opened Wrappers
  import opened ActuatorRecords

  const TWO_64: nat := 0x1_0000_0000_0000_0000
  const POST_ATTEMPT_TIMEOUT: nat := 15_000_000_000
  const AUDIT_SLACK: nat := 5_000_000_000

  function Add64(a: nat, b: nat): nat { (a + b) % TWO_64 }
  function Sub64(a: nat, b: nat): nat { (a - b) % TWO_64 }
  function Milliseconds64(ms: nat): nat { (ms * 1_000_000) % TWO_64 }

  /** May the kernel state found on recovery be the unextended result of the recorded attempt? */
  predicate RecoveryObservationBounded(m: Memory, p: PlanId, prior: ActionState, observation: Observation, sample: Sample,
                                       ttl: nat) {
    if p !in m.attempts then false
    else if sample.bootId != m.attempts[p].bootId || ttl == 0 then false
    else if observation.remainingMs > MAX_U64 / 1_000_000 then false
    else
      var remaining := Milliseconds64(observation.remainingMs);
      if remaining > Sub64(MAX_U64, MILLISECOND) || sample.bootTime > Sub64(Sub64(MAX_U64, remaining), MILLISECOND) then
        false
      else
        var expiryUpperBound := Add64(Add64(sample.bootTime, remaining), MILLISECOND);
        if ttl > Sub64(MAX_U64, POST_ATTEMPT_TIMEOUT)
           || m.attempts[p].bootTime > Sub64(Sub64(MAX_U64, POST_ATTEMPT_TIMEOUT), ttl) then false
        else
          var latest := Add64(Add64(m.attempts[p].bootTime, POST_ATTEMPT_TIMEOUT), ttl);
          if expiryUpperBound > latest then false
          else if prior != APPLIED then true
          else if p !in m.applied then false
          else
            && observation.remainingMs <= m.applied[p].remainingMs
            && observation.packets >= m.applied[p].packets
            && observation.byteCount >= m.applied[p].byteCount
  }

  /** The same question over the integers: nothing the kernel may still hold outlives the latest legitimate expiry. */
  ghost predicate Unextended(m: Memory, p: PlanId, prior: ActionState, observation: Observation, sample: Sample, ttl: nat) {
    && p in m.attempts
    && sample.bootId == m.attempts[p].bootId
    && 0 < ttl
    && sample.bootTime + observation.remainingMs * 1_000_000 + 1_000_000
       <= m.attempts[p].bootTime + 15_000_000_000 + ttl <= MAX_U64
    && (prior == APPLIED ==>
          && p in m.applied
          && observation.remainingMs <= m.applied[p].remainingMs
          && observation.packets >= m.applied[p].packets
          && observation.byteCount >= m.applied[p].byteCount)
  }

  predicate Word(n: nat) { n <= MAX_U64 }

  lemma AddFits(a: nat, b: nat)
    ensures Word(a + b) ==> Add64(a, b) == a + b
  {}

  lemma SubFits(a: nat, b: nat)
    ensures Word(a) && b <= a ==> Sub64(a, b) == a - b
  {}

  lemma MillisecondsFit(ms: nat)
    ensures ms <= MAX_U64 / 1_000_000 ==> Word(ms * 1_000_000) && Milliseconds64(ms) == ms * 1_000_000
    ensures ms > MAX_U64 / 1_000_000 ==> ms * 1_000_000 + MILLISECOND > MAX_U64
  {}

  /** Every word the check computes, in its order and behind its guards, is the integer it stands for. */
  ghost predicate NothingWraps(started: nat, remainingMs: nat, now: nat, ttl: nat) {
    var remaining := Milliseconds64(remainingMs);
    && (remainingMs <= MAX_U64 / 1_000_000 ==>
          && remaining == remainingMs * 1_000_000
          && Sub64(MAX_U64, MILLISECOND) == MAX_U64 - MILLISECOND
          && (remaining <= MAX_U64 - MILLISECOND ==>
                && Sub64(MAX_U64, remaining) == MAX_U64 - remaining
                && Sub64(Sub64(MAX_U64, remaining), MILLISECOND) == MAX_U64 - remaining - MILLISECOND
                && (now <= MAX_U64 - remaining - MILLISECOND ==>
                      && Add64(now, remaining) == now + remaining
                      && Add64(Add64(now, remaining), MILLISECOND) == now + remaining + MILLISECOND)))
    && Sub64(MAX_U64, POST_ATTEMPT_TIMEOUT) == MAX_U64 - POST_ATTEMPT_TIMEOUT
    && (ttl <= MAX_U64 - POST_ATTEMPT_TIMEOUT ==>
          && Sub64(Sub64(MAX_U64, POST_ATTEMPT_TIMEOUT), ttl) == MAX_U64 - POST_ATTEMPT_TIMEOUT - ttl
          && (started <= MAX_U64 - POST_ATTEMPT_TIMEOUT - ttl ==>
                && Add64(started, POST_ATTEMPT_TIMEOUT) == started + POST_ATTEMPT_TIMEOUT
                && Add64(Add64(started, POST_ATTEMPT_TIMEOUT), ttl) == started + POST_ATTEMPT_TIMEOUT + ttl))
  }

  lemma WordsAreExact(started: nat, remainingMs: nat, now: nat, ttl: nat)
    requires Word(started) && Word(remainingMs) && Word(now) && Word(ttl)
    ensures NothingWraps(started, remainingMs, now, ttl)
  {
    hide Add64, Sub64, Milliseconds64;
    MillisecondsFit(remainingMs);
    var remaining := remainingMs * 1_000_000;
    SubFits(MAX_U64, MILLISECOND);
    if remaining <= MAX_U64 - MILLISECOND {
      SubFits(MAX_U64, remaining);
      SubFits(MAX_U64 - remaining, MILLISECOND);
    }
    AddFits(now, remaining);
    AddFits(now + remaining, MILLISECOND);
    SubFits(MAX_U64, POST_ATTEMPT_TIMEOUT);
    if ttl <= MAX_U64 - POST_ATTEMPT_TIMEOUT {
      SubFits(MAX_U64 - POST_ATTEMPT_TIMEOUT, ttl);
    }
    AddFits(started, POST_ATTEMPT_TIMEOUT);
    AddFits(started + POST_ATTEMPT_TIMEOUT, ttl);
  }

  /** No guarded operation wraps, and so on machine words the check decides exactly the integer question. */
  lemma BoundedIsExact(m: Memory, p: PlanId, prior: ActionState, observation: Observation, sample: Sample, ttl: nat)
    requires Word(sample.bootTime) && Word(ttl) && Word(observation.remainingMs)
    requires p in m.attempts ==> Word(m.attempts[p].bootTime)
    ensures RecoveryObservationBounded(m, p, prior, observation, sample, ttl)
            <==> Unextended(m, p, prior, observation, sample, ttl)
    ensures p in m.attempts ==> NothingWraps(m.attempts[p].bootTime, observation.remainingMs, sample.bootTime, ttl)
  {
    hide Add64, Sub64, Milliseconds64;
    MillisecondsFit(observation.remainingMs);
    if p in m.attempts {
      WordsAreExact(m.attempts[p].bootTime, observation.remainingMs, sample.bootTime, ttl);
    }
  }

  /** When the native timeout must have fired, with slack; None when no machine word holds it. */
  function AuditDeadline(bootTime: nat, remainingMs: nat): Option<nat> {
    var delta := Add64(Milliseconds64(remainingMs), AUDIT_SLACK);
    if bootTime > Sub64(MAX_U64, delta) then None else Some(Add64(bootTime, delta))
  }

  lemma AuditDeadlineIsExact(bootTime: nat, remainingMs: nat)
    requires Word(bootTime) && remainingMs <= MAX_TTL_SECONDS * 1000
    ensures var exact := bootTime + remainingMs * 1_000_000 + 5_000_000_000;
            AuditDeadline(bootTime, remainingMs) == if Word(exact) then Some(exact) else None
  {}

  /** An accepted observation is audited less than TTL plus twenty seconds after the attempt. */
  lemma AcceptedDeadlineIsBounded(m: Memory, p: PlanId, prior: ActionState, observation: Observation, sample: Sample, ttl: nat)
    requires Word(sample.bootTime) && Word(ttl) && observation.remainingMs <= MAX_TTL_SECONDS * 1000
    requires p in m.attempts ==> Word(m.attempts[p].bootTime)
    requires RecoveryObservationBounded(m, p, prior, observation, sample, ttl)
    ensures var deadline := AuditDeadline(sample.bootTime, observation.remainingMs);
            deadline.Some? ==>
              && sample.bootTime < deadline.value <= MAX_U64
              && deadline.value < m.attempts[p].bootTime + ttl + 20_000_000_000
  {
    BoundedIsExact(m, p, prior, observation, sample, ttl);
    AuditDeadlineIsExact(sample.bootTime, observation.remainingMs);
  }
}
