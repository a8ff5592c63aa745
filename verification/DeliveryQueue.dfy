/**
 The core runtime's delivery of intents that need a person's approval: every such durable
 decision is prepared, quarantined or waiting, and what waits gets its turn.
 */
module DeliveryQueue {
  import opened Wrappers

  type CandidateId = nat

  const BATCH: nat := 4

  // `facts` stands for everything in a commit that the runtime only compares.
  datatype Commit = Commit(candidate: CandidateId, manual: bool, facts: nat)

  datatype Delivery = Retry | Quarantine | Plan | Fatal

  datatype Books = Books(commits: map<CandidateId, Commit>, prepared: set<CandidateId>, quarantined: set<CandidateId>,
                         queue: seq<CandidateId>, queued: set<CandidateId>, preparedPlans: nat)

  ghost predicate NoRepeats(q: seq<CandidateId>) { forall i, j :: 0 <= i < j < |q| ==> q[i] != q[j] }

  predicate Manual(b: Books, c: CandidateId) { c in b.commits && b.commits[c].manual }

  /** Queue and set agree, nobody is in two places, everybody needs approval, and the plan counter is true. */
  ghost predicate Sound(b: Books) {
    && NoRepeats(b.queue)
    && (forall c :: c in b.queued <==> c in b.queue)
    && (forall c :: c in b.prepared ==> c !in b.quarantined && c !in b.queued && Manual(b, c))
    && (forall c :: c in b.quarantined ==> c !in b.queued && Manual(b, c))
    && (forall c :: c in b.queued ==> Manual(b, c))
    && (forall c :: c in b.commits ==> b.commits[c].candidate == c)
    && b.preparedPlans == |b.prepared|
  }

  predicate Placed(b: Books, c: CandidateId) { c in b.prepared || c in b.quarantined || c in b.queued }

  /** No decision that needs approval is forgotten. */
  ghost predicate Covered(b: Books) { forall c :: Manual(b, c) ==> Placed(b, c) }

  /** The partition: exactly one of the three places. */
  lemma ExactlyOnePlace(b: Books, c: CandidateId)
    requires Sound(b) && Covered(b) && Manual(b, c)
    ensures (if c in b.prepared then 1 else 0) + (if c in b.quarantined then 1 else 0) + (if c in b.queue then 1 else 0) == 1
  {}

  lemma NoRepeatsExtends(q: seq<CandidateId>, c: CandidateId)
    requires NoRepeats(q) && c !in q
    ensures NoRepeats(q + [c])
  {}

  lemma NoRepeatsTail(q: seq<CandidateId>)
    requires NoRepeats(q) && q != []
    ensures NoRepeats(q[1..])
    ensures forall d :: d in q[1..] <==> d in q && d != q[0]
  {
    forall d | d in q && d != q[0] ensures d in q[1..] {
      var i :| 0 <= i < |q| && q[i] == d;
      assert q[1..][i - 1] == d;
    }
  }

  lemma EnqueueKeeps(b: Books, c: CandidateId)
    requires Sound(b) && Manual(b, c) && !Placed(b, c)
    ensures Sound(b.(queue := b.queue + [c], queued := b.queued + {c}))
  {
    hide NoRepeats;
    NoRepeatsExtends(b.queue, c);
  }

  lemma DequeueKeeps(b: Books)
    requires Sound(b) && b.queue != []
    ensures var c := b.queue[0];
            var b' := b.(queue := b.queue[1..], queued := b.queued - {c});
            Sound(b') && Manual(b', c) && !Placed(b', c)
  {
    hide NoRepeats;
    assert b.queue[0] in b.queue;
    NoRepeatsTail(b.queue);
  }

  lemma QuarantineKeeps(b: Books, c: CandidateId)
    requires Sound(b) && Manual(b, c) && !Placed(b, c)
    ensures Sound(b.(quarantined := b.quarantined + {c}))
  {
    hide NoRepeats;
  }

  lemma PrepareKeeps(b: Books, c: CandidateId)
    requires Sound(b) && Manual(b, c) && !Placed(b, c)
    ensures Sound(b.(prepared := b.prepared + {c}, preparedPlans := b.preparedPlans + 1))
  {
    hide NoRepeats;
  }

  lemma CommitKeeps(b: Books, r: Commit)
    requires Sound(b) && (r.candidate in b.commits ==> b.commits[r.candidate] == r)
    ensures Sound(b.(commits := b.commits[r.candidate := r]))
  {
    hide NoRepeats;
  }

  lemma RecordsCover(b: Books, records: seq<Commit>)
    requires Sound(b) && (forall c :: c in b.commits ==> b.commits[c] in records)
    requires forall r :: r in records ==> (r.manual ==> Placed(b, r.candidate))
    ensures Covered(b)
  {
    hide NoRepeats, Placed;
    forall c | Manual(b, c) ensures Placed(b, c) {
      assert b.commits[c].candidate == c;
    }
  }

  /** Commits only accumulate. */
  ghost predicate Accumulates(b: Books, b': Books) {
    && (forall c :: c in b.commits ==> c in b'.commits && b'.commits[c] == b.commits[c])
    && (forall c :: Placed(b, c) ==> Placed(b', c))
  }

  ghost predicate CommitsKept(b: Books, b': Books) {
    forall c :: c in b.commits ==> c in b'.commits && b'.commits[c] == b.commits[c]
  }

  lemma CommitsStay(b: Books, b': Books)
    ensures Accumulates(b, b') ==> CommitsKept(b, b')
  {}

  /** All but the first batch moved up by one batch, in order; nothing overtook them. */
  ghost predicate MovedUp(q: seq<CandidateId>, q': seq<CandidateId>) {
    |q| > BATCH ==> q[BATCH..] <= q'
  }

  /** After one more turn, the entries that had not had theirs still stand in front. */
  lemma OneMovedUp(q: seq<CandidateId>, i: nat, before: seq<CandidateId>, after: seq<CandidateId>)
    requires i < |q| <= |before| + i && before[..|q| - i] == q[i..] && before[1..] <= after
    ensures |q| - (i + 1) <= |after| && after[..|q| - (i + 1)] == q[i + 1..]
  {
    forall k | 0 <= k < |q| - (i + 1) ensures after[k] == q[i + 1..][k] {
      assert after[k] == before[1..][k] == before[..|q| - i][k + 1];
    }
  }

  class CoreRuntime {
    var commits: map<CandidateId, Commit>
    var prepared: set<CandidateId>
    var quarantined: set<CandidateId>
    var queue: seq<CandidateId>
    var queued: set<CandidateId>
    var preparedPlans: nat
    var feedbackReady: bool

    // Every candidate handed to the delivery step, in order.
    ghost var attempts: seq<CandidateId>

    function Ledger(): Books
      reads this
    {
      Books(commits, prepared, quarantined, queue, queued, preparedPlans)
    }

    constructor ()
      ensures Sound(Ledger()) && Covered(Ledger()) && commits == map[] && queue == [] && attempts == []
    {
      commits, prepared, quarantined, queue, queued := map[], {}, {}, [], {};
      preparedPlans, feedbackReady, attempts := 0, false, [];
    }

    method Enqueue(c: CandidateId)
      requires Sound(Ledger()) && Manual(Ledger(), c) && !Placed(Ledger(), c)
      modifies this`queue, this`queued
      ensures Sound(Ledger()) && queue == old(queue) + [c] && queued == old(queued) + {c}
    {
      hide Sound;
      EnqueueKeeps(Ledger(), c);
      queue := queue + [c];
      queued := queued + {c};
    }

    /** Takes one durable decision in. One that changed is an error. */
    method TakeCommit(record: Commit) returns (raised: bool)
      requires Sound(Ledger())
      modifies this`commits, this`queue, this`queued
      ensures Sound(Ledger()) && Accumulates(old(Ledger()), Ledger()) && old(queue) <= queue
      ensures raised <==> record.candidate in old(commits) && old(commits)[record.candidate] != record
      ensures raised ==> commits == old(commits) && queue == old(queue)
      ensures !raised ==>
                && commits == old(commits)[record.candidate := record]
                && (record.manual ==> Placed(Ledger(), record.candidate))
    {
      hide Sound;
      var c := record.candidate;
      if c in commits && commits[c] != record {
        return true;
      }
      CommitKeeps(Ledger(), record);
      commits := commits[c := record];
      if record.manual && c !in prepared && c !in quarantined && c !in queued {
        Enqueue(c);
      }
      return false;
    }

    /** Takes the durable decisions in; afterwards each of them that needs approval has its place. */
    method RefreshCommits(records: seq<Commit>) returns (raised: bool)
      requires Sound(Ledger())
      modifies this`commits, this`queue, this`queued
      ensures Sound(Ledger()) && Accumulates(old(Ledger()), Ledger()) && old(queue) <= queue
      ensures !raised ==>
                forall r :: r in records ==>
                  && r.candidate in commits && commits[r.candidate] == r
                  && (r.manual ==> Placed(Ledger(), r.candidate))
      ensures !raised && (forall c :: c in old(commits) ==> old(commits)[c] in records) ==> Covered(Ledger())
      ensures raised ==> exists r :: r in records && r.candidate in commits && commits[r.candidate] != r
    {
      hide Sound, Placed;
      ghost var b := Ledger();
      for i := 0 to |records|
        invariant Sound(Ledger()) && Accumulates(b, Ledger()) && old(queue) <= queue
        invariant forall j :: 0 <= j < i ==>
                    && records[j].candidate in commits && commits[records[j].candidate] == records[j]
                    && (records[j].manual ==> Placed(Ledger(), records[j].candidate))
        invariant forall c :: c in commits ==> (c in b.commits && commits[c] == b.commits[c]) || commits[c] in records[..i]
      {
        ghost var before := Ledger();
        raised := TakeCommit(records[i]);
        if raised {
          return;
        }
        assert records[..i + 1] == records[..i] + [records[i]];
      }
      assert records[..|records|] == records;
      if forall c :: c in b.commits ==> b.commits[c] in records {
        RecordsCover(Ledger(), records);
      }
      return false;
    }

    /** One delivery. `done` means that it need not be retried. `told` is what the actuator answered, if it was asked. */
    method Deliver(commit: Commit) returns (done: bool, raised: bool, ghost told: Option<Delivery>)
      requires Sound(Ledger()) && commit.candidate in commits && commits[commit.candidate] == commit
      requires !Placed(Ledger(), commit.candidate)
      modifies this`prepared, this`quarantined, this`preparedPlans, this`attempts
      ensures Sound(Ledger()) && attempts == old(attempts) + [commit.candidate]
      ensures Accumulates(old(Ledger()), Ledger())
      ensures done && commit.manual ==> Placed(Ledger(), commit.candidate)
      ensures !done ==> commit.manual && !Placed(Ledger(), commit.candidate)
      ensures raised ==> !done
      ensures match told
              case None => !raised && done == !commit.manual && unchanged(this`prepared, this`quarantined, this`preparedPlans)
              case Some(Fatal) => raised && !done && unchanged(this`prepared, this`quarantined, this`preparedPlans)
              case Some(Retry) => !raised && !done && unchanged(this`prepared, this`quarantined, this`preparedPlans)
              case Some(Quarantine) =>
                && !raised && done && quarantined == old(quarantined) + {commit.candidate}
                && unchanged(this`prepared, this`preparedPlans)
              case Some(Plan) =>
                && !raised && done && prepared == old(prepared) + {commit.candidate}
                && preparedPlans == old(preparedPlans) + 1 && unchanged(this`quarantined)
      ensures told.Some? ==> commit.manual && feedbackReady
    {
      hide Sound;
      told := None;
      attempts := attempts + [commit.candidate];
      if !commit.manual || commit.candidate in prepared {
        return true, false, told;
      }
      var readOnly: bool, outcome: Delivery := *, *;
      if !feedbackReady || readOnly {
        return false, false, told;
      }
      told := Some(outcome);
      QuarantineKeeps(Ledger(), commit.candidate);
      PrepareKeeps(Ledger(), commit.candidate);
      match outcome
      case Fatal => return false, true, told;
      case Retry => return false, false, told;
      case Quarantine =>
        quarantined := quarantined + {commit.candidate};
        return true, false, told;
      case Plan =>
        prepared := prepared + {commit.candidate};
        preparedPlans := preparedPlans + 1;
        return true, false, told;
    }

    /** The front of the queue gets its turn, and goes to the back if it must be retried. */
    method RetryOne() returns (raised: bool)
      requires Sound(Ledger()) && queue != []
      modifies this
      ensures Sound(Ledger()) && attempts == old(attempts) + [old(queue)[0]]
      ensures old(queue)[1..] <= queue && |queue| <= |old(queue)| && commits == old(commits)
      ensures !raised ==> Accumulates(old(Ledger()), Ledger())
      ensures feedbackReady == old(feedbackReady)
    {
      hide Sound, NoRepeats;
      ghost var before := Ledger();
      DequeueKeeps(before);
      var c := queue[0];
      queue, queued := queue[1..], queued - {c};
      assert forall d :: Placed(before, d) ==> d == c || Placed(Ledger(), d);
      var commit := commits[c];
      KnownCandidate(Ledger(), c);
      var done;
      ghost var told;
      done, raised, told := Deliver(commit);
      if !raised && !done {
        Enqueue(c);
      }
      assert !raised ==> Placed(Ledger(), c);
    }

    /** One pass: the first four entries are attempted, once each, and everybody else moves up. */
    method RetryDurableDeliveries() returns (raised: bool)
      requires Sound(Ledger())
      modifies this
      ensures Sound(Ledger()) && commits == old(commits) && old(attempts) <= attempts
      ensures !raised ==>
                && Accumulates(old(Ledger()), Ledger())
                && MovedUp(old(queue), queue)
                && attempts == old(attempts) + old(queue)[..if |old(queue)| < BATCH then |old(queue)| else BATCH]
    {
      hide Sound, Accumulates;
      ghost var b, q, a := Ledger(), queue, attempts;
      var turns := if |queue| < BATCH then |queue| else BATCH;
      AccumulatesTwice(b, b, b);
      for i := 0 to turns
        invariant Sound(Ledger()) && commits == b.commits && Accumulates(b, Ledger())
        invariant |q| - i <= |queue| && queue[..|q| - i] == q[i..]
        invariant attempts == a + q[..i]
      {
        ghost var before := Ledger();
        assert queue[0] == queue[..|q| - i][0] == q[i];
        raised := RetryOne();
        if raised {
          return;
        }
        AccumulatesTwice(b, before, Ledger());
        OneMovedUp(q, i, before.queue, queue);
        assert q[..i + 1] == q[..i] + [q[i]];
      }
      return false;
    }

    /**
     A candidate seen for the first time: unless it is denied, or an error escapes before it is
     decided, it is recorded, and delivered or queued at once. The decision is the controller's,
     which builds it for this very candidate.
     */
    method ProcessCandidate(candidate: CandidateId) returns (denied: bool, raised: bool)
      requires Sound(Ledger())
      modifies this
      ensures denied || candidate in old(commits) ==> !raised && unchanged(this)
      ensures raised && candidate !in commits ==> unchanged(this)
      ensures !denied && !raised ==> candidate in commits
      ensures !denied && !raised && candidate !in old(commits) && Manual(Ledger(), candidate) ==> Placed(Ledger(), candidate)
      ensures Sound(Ledger()) && old(queue) <= queue && old(attempts) <= attempts
      ensures !raised ==> Accumulates(old(Ledger()), Ledger())
      ensures !raised && old(Covered(Ledger())) ==> Covered(Ledger())
      ensures feedbackReady == old(feedbackReady)
    {
      hide Sound, NoRepeats, Covered, Accumulates;
      ghost var before := Ledger();
      AccumulatesTwice(before, before, before);
      if candidate in commits {
        return false, false;
      }
      denied, raised := *, *;
      if denied || raised {
        return denied, raised && !denied;
      }
      var manual: bool, facts: nat := *, *;
      var commit := Commit(candidate, manual, facts);
      NewCandidate(Ledger(), candidate);
      CommitKeeps(Ledger(), commit);
      commits := commits[candidate := commit];
      var done;
      ghost var told;
      ghost var decided := Ledger();
      done, raised, told := Deliver(commit);
      ghost var delivered := Ledger();
      if !raised && !done {
        Enqueue(candidate);
      }
      if !raised {
        CommitAccumulates(before, commit);
        EnqueueAccumulates(delivered, Ledger());
        AccumulatesTwice(decided, delivered, Ledger());
        AccumulatesTwice(before, decided, Ledger());
        NewIsCovered(before, Ledger(), commit);
      }
    }

    /** One round of the runtime: take decisions in, retry a batch, process new candidates. */
    method Tick(records: seq<Commit>, candidates: seq<CandidateId>) returns (raised: bool, ghost turnedAway: set<CandidateId>)
      requires Sound(Ledger())
      modifies this
      ensures Sound(Ledger()) && old(attempts) <= attempts
      ensures !raised ==>
                && Accumulates(old(Ledger()), Ledger())
                && MovedUp(old(queue), queue)
                && forall i :: 0 <= i < |old(queue)| && i < BATCH ==> old(queue)[i] in attempts[|old(attempts)|..]
      ensures !raised && (forall c :: c in old(commits) ==> old(commits)[c] in records) ==> Covered(Ledger())
      ensures !raised ==> forall r :: r in records ==> r.candidate in commits && commits[r.candidate] == r
      ensures !raised ==> forall c :: c in candidates ==> c in commits || c in turnedAway
      ensures turnedAway <= (set c | c in candidates)
    {
      hide Sound, Accumulates, Covered, MovedUp;
      ghost var b, q, a := Ledger(), queue, attempts;
      turnedAway := {};
      raised := RefreshCommits(records);
      if raised {
        return;
      }
      ghost var b', q' := Ledger(), queue;
      feedbackReady := *;
      raised := RetryDurableDeliveries();
      if raised {
        return;
      }
      ghost var a' := attempts;
      StillCovered(b', Ledger());
      LongerMovesUp(q, q', queue);
      AccumulatesTwice(b, b', Ledger());
      assert forall i :: 0 <= i < |q| && i < BATCH ==> q[i] in a'[|a|..] by {
        forall i | 0 <= i < |q| && i < BATCH ensures q[i] in a'[|a|..] {
          assert a'[|a| + i] == q'[i];
          assert a'[|a|..][i] == q[i];
        }
      }
      ghost var b'', q'' := Ledger(), queue;
      AccumulatesTwice(b'', b'', b'');
      for i := 0 to |candidates|
        invariant Sound(Ledger()) && q'' <= queue && a' <= attempts && Accumulates(b'', Ledger())
        invariant Covered(b'') ==> Covered(Ledger())
        invariant CommitsKept(b'', Ledger())
        invariant forall j :: 0 <= j < i ==> candidates[j] in commits || candidates[j] in turnedAway
        invariant turnedAway <= (set c | c in candidates)
      {
        ghost var before := Ledger();
        var denied;
        denied, raised := ProcessCandidate(candidates[i]);
        if raised {
          return;
        }
        CommitsStay(before, Ledger());
        if denied {
          turnedAway := turnedAway + {candidates[i]};
        }
        AccumulatesTwice(b'', before, Ledger());
      }
      AccumulatesTwice(b, b'', Ledger());
      LongerStaysUp(q, q'', queue);
      assert a'[|a|..] <= attempts[|a|..];
    }

    /**
     Bounded waiting: an entry at position p of the queue is attempted within p / 4 + 1 rounds,
     whatever is queued behind it meanwhile.
     */
    method RunTicks(rounds: nat) returns (raised: bool)
      requires Sound(Ledger())
      modifies this
      ensures Sound(Ledger()) && |old(attempts)| <= |attempts|
      ensures !raised ==>
                forall p :: 0 <= p < |old(queue)| && p / 4 < rounds ==> old(queue)[p] in attempts[|old(attempts)|..]
    {
      hide Sound, Accumulates, Covered;
      ghost var q, n := queue, |attempts|;
      for round := 0 to rounds
        invariant Sound(Ledger()) && n <= |attempts|
        invariant forall p :: 0 <= p < |q| && p < 4 * round ==> q[p] in attempts[n..]
        invariant 4 * round < |q| ==> q[4 * round..] <= queue
      {
        ghost var a, w := attempts, queue;
        var records: seq<Commit>, candidates: seq<CandidateId> := *, *;
        ghost var turnedAway;
        raised, turnedAway := Tick(records, candidates);
        if raised {
          return;
        }
        forall p | 0 <= p < |q| && p < 4 * (round + 1) ensures q[p] in attempts[n..] {
          if p < 4 * round {
            LaterStill(a, attempts, n, n, q[p]);
          } else {
            assert q[4 * round..][p - 4 * round] == q[p] && w[p - 4 * round] == q[p];
            LaterStill(attempts, attempts, |a|, n, q[p]);
          }
        }
        if 4 * round < |q| {
          MovedUpOnce(q, 4 * round, w, queue);
        }
      }
      return false;
    }
  }

  lemma CommitAccumulates(b: Books, r: Commit)
    requires r.candidate !in b.commits
    ensures Accumulates(b, b.(commits := b.commits[r.candidate := r]))
  {}

  lemma EnqueueAccumulates(b: Books, b': Books)
    requires b'.commits == b.commits && b'.prepared == b.prepared && b'.quarantined == b.quarantined && b.queued <= b'.queued
    ensures Accumulates(b, b')
  {}

  lemma NewIsCovered(b: Books, b': Books, r: Commit)
    requires Accumulates(b, b') && b'.commits == b.commits[r.candidate := r] && (r.manual ==> Placed(b', r.candidate))
    ensures Covered(b) ==> Covered(b')
  {
    hide Placed;
    if Covered(b) {
      forall c | Manual(b', c) ensures Placed(b', c) {
        assert c != r.candidate ==> Manual(b, c);
      }
    }
  }

  lemma NewCandidate(b: Books, c: CandidateId)
    requires Sound(b) && c !in b.commits
    ensures !Placed(b, c)
  {}

  lemma StillCovered(b: Books, b': Books)
    requires b'.commits == b.commits && Accumulates(b, b')
    ensures Covered(b) ==> Covered(b')
  {}

  lemma LongerMovesUp(q: seq<CandidateId>, q': seq<CandidateId>, q'': seq<CandidateId>)
    requires q <= q' && MovedUp(q', q'')
    ensures MovedUp(q, q'')
  {
    if |q| > BATCH {
      assert q[BATCH..] == q'[BATCH..][..|q| - BATCH];
    }
  }

  lemma MovedUpOnce(q: seq<CandidateId>, k: nat, w: seq<CandidateId>, w': seq<CandidateId>)
    requires k < |q| && q[k..] <= w && MovedUp(w, w')
    ensures k + BATCH < |q| ==> q[k + BATCH..] <= w'
  {
    if k + BATCH < |q| {
      assert q[k + BATCH..] == w[BATCH..][..|q| - k - BATCH] by {
        assert q[k..][BATCH..] == q[k + BATCH..];
      }
    }
  }

  lemma LongerStaysUp(q: seq<CandidateId>, q': seq<CandidateId>, q'': seq<CandidateId>)
    requires MovedUp(q, q') && q' <= q''
    ensures MovedUp(q, q'')
  {
  }

  /** What was attempted stays on record, also when looked up from an earlier point. */
  lemma LaterStill(a: seq<CandidateId>, a': seq<CandidateId>, from: nat, n: nat, c: CandidateId)
    requires a <= a' && n <= from <= |a| && c in a[from..]
    ensures c in a'[n..]
  {
    var i :| 0 <= i < |a[from..]| && a[from..][i] == c;
    assert a'[n..][from - n + i] == c;
  }

  lemma KnownCandidate(b: Books, c: CandidateId)
    requires Sound(b) && c in b.commits
    ensures b.commits[c].candidate == c
  {}

  lemma AccumulatesTwice(b: Books, b': Books, b'': Books)
    ensures Accumulates(b, b)
    ensures Accumulates(b, b') && Accumulates(b', b'') ==> Accumulates(b, b'')
  {}
}
