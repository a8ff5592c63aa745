/**
 The chain of boot transitions: what makes a chain valid, the two independently written
 validators, and the archive that records hops and answers which hops lead from one boot to
 another.
 */
module BootChain {
  import opened Wrappers

  type BootId = nat
  type EventId = nat

  const MAX_U64: nat := 0xFFFF_FFFF_FFFF_FFFF
  const MAX_HOPS: nat := 1024

  datatype Boundary = BootBoundary | KeyTransition | KeyEpochStart

  /** The five companion fields are optional one by one. */
  datatype Hop = Hop(boundary: Boundary, eventId: EventId, sequence: nat, boot: BootId, previousBoot: BootId,
                     previousSequence: nat, companionType: Option<Boundary>, companionEvent: Option<EventId>,
                     companionContent: Option<nat>, companionSequence: Option<nat>, companionBoot: Option<BootId>)

  // ---------------------------------------------------------------------------------------
  // One hop
  // ---------------------------------------------------------------------------------------

  predicate WordSized(h: Hop) {
    && h.sequence <= MAX_U64 && h.previousSequence <= MAX_U64
    && (h.companionSequence.Some? ==> h.companionSequence.value <= MAX_U64)
  }

  /** The validator of the core, on unbounded integers with range checks on each field. */
  predicate CoreHopValid(h: Hop) {
    && 1 <= h.sequence <= MAX_U64 && h.previousSequence <= MAX_U64
    && (h.companionSequence.Some? ==> 1 <= h.companionSequence.value <= MAX_U64)
    && h.boot != h.previousBoot
    && h.sequence > h.previousSequence
    && if h.boundary == BootBoundary then
         !(h.companionType.Some? || h.companionEvent.Some? || h.companionContent.Some? || h.companionSequence.Some?
           || h.companionBoot.Some?)
       else
         && h.companionType.Some? && h.companionEvent.Some? && h.companionContent.Some? && h.companionSequence.Some?
         && h.companionBoot.Some?
         && h.companionEvent.value != h.eventId
         && if h.boundary == KeyTransition then
              && h.companionType.value == KeyEpochStart
              && h.companionSequence.value == h.sequence + 1
              && h.companionBoot.value == h.boot
            else
              && h.companionType.value == KeyTransition
              && h.companionSequence.value + 1 == h.sequence
              && h.companionBoot.value == h.previousBoot
  }

  function Present<T>(o: Option<T>): nat { if o.Some? then 1 else 0 }

  /** The validator of the observer, on 64-bit words: additions wrap, and are guarded. */
  predicate ObserverHopValid(h: Hop)
    requires WordSized(h)
  {
    var present := Present(h.companionType) + Present(h.companionEvent) + Present(h.companionContent)
                   + Present(h.companionSequence) + Present(h.companionBoot);
    && h.sequence > h.previousSequence && h.boot != h.previousBoot
    && (present == 0 || present == 5)
    && if h.boundary == BootBoundary then present == 0
       else
         && present == 5
         && h.companionEvent.value != h.eventId
         && if h.boundary == KeyTransition then
              && h.companionType.value == KeyEpochStart
              && h.sequence != MAX_U64
              && h.companionSequence.value == (h.sequence + 1) % 0x1_0000_0000_0000_0000
              && h.companionBoot.value == h.boot
            else
              && h.companionType.value == KeyTransition
              && h.companionSequence.value != 0 && h.companionSequence.value != MAX_U64
              && (h.companionSequence.value + 1) % 0x1_0000_0000_0000_0000 == h.sequence
              && h.companionBoot.value == h.previousBoot
  }

  /** Core and observer accept the same hops. */
  lemma HopValidatorsAgree(h: Hop)
    requires WordSized(h)
    ensures CoreHopValid(h) <==> ObserverHopValid(h)
  {}

  function EventIds(h: Hop): set<EventId> {
    {h.eventId} + if h.companionEvent.Some? then {h.companionEvent.value} else {}
  }

  /** The last sequence a hop accounts for. */
  function EndSequence(h: Hop): nat {
    if h.companionSequence.Some? && h.companionSequence.value > h.sequence then h.companionSequence.value else h.sequence
  }

  // ---------------------------------------------------------------------------------------
  // Chains
  // ---------------------------------------------------------------------------------------

  predicate Links(before: Hop, after: Hop) {
    after.previousBoot == before.boot && after.previousSequence >= EndSequence(before)
  }

  ghost predicate EventsDistinct(hops: seq<Hop>) {
    forall i, j :: 0 <= i < j < |hops| ==> EventIds(hops[i]) !! EventIds(hops[j])
  }

  ghost predicate BootsDistinct(hops: seq<Hop>) {
    && (forall i, j :: 0 <= i < j < |hops| ==> hops[i].boot != hops[j].boot)
    && (forall i :: 0 <= i < |hops| ==> hops[i].boot != hops[0].previousBoot)
  }

  ghost predicate Linked(hops: seq<Hop>) { forall i :: 0 < i < |hops| ==> Links(hops[i - 1], hops[i]) }

  ghost predicate HopsValid(hops: seq<Hop>) { forall i :: 0 <= i < |hops| ==> CoreHopValid(hops[i]) }

  /** Like a valid chain, but possibly empty or long. */
  ghost predicate Sequence(hops: seq<Hop>) { HopsValid(hops) && EventsDistinct(hops) && BootsDistinct(hops) && Linked(hops) }

  ghost predicate ValidChain(hops: seq<Hop>) { 1 <= |hops| <= MAX_HOPS && Sequence(hops) }

  lemma SequencePrefix(hops: seq<Hop>, n: nat)
    requires Sequence(hops) && n <= |hops|
    ensures Sequence(hops[..n])
  {}

  function AllEvents(hops: seq<Hop>): set<EventId> {
    if hops == [] then {} else AllEvents(hops[..|hops| - 1]) + EventIds(hops[|hops| - 1])
  }

  function AllBoots(first: BootId, hops: seq<Hop>): set<BootId> {
    if hops == [] then {first} else AllBoots(first, hops[..|hops| - 1]) + {hops[|hops| - 1].boot}
  }

  lemma {:induction false} AllEventsHas(hops: seq<Hop>, e: EventId)
    ensures e in AllEvents(hops) <==> exists i :: 0 <= i < |hops| && e in EventIds(hops[i])
    decreases |hops|
  {
    if hops != [] {
      var n := |hops| - 1;
      AllEventsHas(hops[..n], e);
      assert forall i :: 0 <= i < n ==> hops[..n][i] == hops[i];
    }
  }

  lemma {:induction false} AllBootsHas(first: BootId, hops: seq<Hop>, b: BootId)
    ensures b in AllBoots(first, hops) <==> b == first || exists i :: 0 <= i < |hops| && hops[i].boot == b
    decreases |hops|
  {
    if hops != [] {
      var n := |hops| - 1;
      AllBootsHas(first, hops[..n], b);
      assert forall i :: 0 <= i < n ==> hops[..n][i] == hops[i];
    }
  }

  /** The hop clashes with no event and no boot so far and links to the last hop. */
  predicate MayFollow(hops: seq<Hop>, h: Hop) {
    && CoreHopValid(h)
    && AllEvents(hops) * EventIds(h) == {}
    && h.boot !in AllBoots(if hops == [] then h.previousBoot else hops[0].previousBoot, hops)
    && (hops != [] ==> Links(hops[|hops| - 1], h))
  }

  lemma EventsClear(hops: seq<Hop>, h: Hop)
    ensures AllEvents(hops) * EventIds(h) == {} <==> forall i :: 0 <= i < |hops| ==> EventIds(hops[i]) !! EventIds(h)
  {
    hide EventIds, AllEvents;
    forall e ensures e in AllEvents(hops) <==> exists i :: 0 <= i < |hops| && e in EventIds(hops[i]) {
      AllEventsHas(hops, e);
    }
    if AllEvents(hops) * EventIds(h) == {} {
      forall i, e | 0 <= i < |hops| && e in EventIds(hops[i]) ensures e !in EventIds(h) {
        assert e !in AllEvents(hops) * EventIds(h);
      }
    }
  }

  /** A sequence goes on by one hop exactly if the new hop may follow. */
  lemma SequenceExtends(hops: seq<Hop>, h: Hop)
    requires Sequence(hops)
    ensures Sequence(hops + [h]) <==> MayFollow(hops, h)
  {
    hide CoreHopValid, EventIds, Links, AllEvents, AllBoots;
    var s := hops + [h];
    assert forall i :: 0 <= i < |hops| ==> s[i] == hops[i];
    assert s[|hops|] == h;
    EventsClear(hops, h);
    AllBootsHas(if hops == [] then h.previousBoot else hops[0].previousBoot, hops, h.boot);
  }

  lemma PrefixStep(hops: seq<Hop>, i: nat)
    requires i < |hops| && Sequence(hops[..i])
    ensures hops[..i + 1][..i] == hops[..i] && hops[..i + 1][i] == hops[i]
    ensures Sequence(hops[..i + 1]) <==> MayFollow(hops[..i], hops[i])
    ensures Sequence(hops) ==> MayFollow(hops[..i], hops[i])
  {
    hide Sequence, MayFollow;
    assert hops[..i + 1] == hops[..i] + [hops[i]];
    SequenceExtends(hops[..i], hops[i]);
    if Sequence(hops) {
      SequencePrefix(hops, i + 1);
    }
  }

  /** The chain loop of the core. */
  method CoreValidate(hops: seq<Hop>) returns (ok: bool)
    ensures ok <==> ValidChain(hops)
  {
    hide Sequence, CoreHopValid;
    if !(1 <= |hops| <= MAX_HOPS) {
      return false;
    }
    for i := 0 to |hops|
      invariant forall j :: 0 <= j < i ==> CoreHopValid(hops[j])
    {
      if !CoreHopValid(hops[i]) {
        InvalidHop(hops, i);
        return false;
      }
    }
    var eventIds, seenBoots := {}, {hops[0].previousBoot};
    var priorEnd := 0;
    EmptySequence();
    for i := 0 to |hops|
      invariant Sequence(hops[..i])
      invariant eventIds == AllEvents(hops[..i]) && seenBoots == AllBoots(hops[0].previousBoot, hops[..i])
      invariant i > 0 ==> priorEnd == EndSequence(hops[i - 1])
    {
      var hop := hops[i];
      PrefixStep(hops, i);
      HopOrder(hop);
      if eventIds * EventIds(hop) != {} {
        return false;
      }
      eventIds := eventIds + EventIds(hop);
      if hop.boot in seenBoots {
        return false;
      }
      seenBoots := seenBoots + {hop.boot};
      if i > 0 && (hop.previousBoot != hops[i - 1].boot || hop.sequence <= priorEnd || hop.previousSequence < priorEnd) {
        return false;
      }
      priorEnd := if hop.companionSequence.Some? && hop.companionSequence.value > hop.sequence
                  then hop.companionSequence.value else hop.sequence;
    }
    assert hops[..|hops|] == hops;
    return true;
  }

  lemma EmptySequence()
    ensures Sequence([])
  {}

  lemma InvalidHop(hops: seq<Hop>, i: nat)
    requires i < |hops| && !CoreHopValid(hops[i])
    ensures !Sequence(hops)
  {}

  lemma HopOrder(h: Hop)
    requires CoreHopValid(h)
    ensures h.previousSequence < h.sequence
    ensures EndSequence(h) == if h.boundary == KeyTransition && h.companionSequence.Some? then h.companionSequence.value
                              else h.sequence
    ensures h.boundary == KeyTransition ==> h.companionSequence.Some?
    ensures h.companionEvent.Some? ==> h.companionEvent.value != h.eventId
  {}

  /** The chain loop of the observer, which checks hop by hop and derives the end sequence differently. */
  method ObserverValidate(hops: seq<Hop>) returns (ok: bool)
    requires forall i :: 0 <= i < |hops| ==> WordSized(hops[i])
    ensures ok <==> ValidChain(hops)
  {
    hide Sequence, CoreHopValid, ObserverHopValid, EndSequence;
    if |hops| < 1 || |hops| > MAX_HOPS {
      return false;
    }
    var eventIds, bootIds := {}, {hops[0].previousBoot};
    var previousBoot, priorLast := 0, 0;
    EmptySequence();
    for i := 0 to |hops|
      invariant Sequence(hops[..i])
      invariant eventIds == AllEvents(hops[..i]) && bootIds == AllBoots(hops[0].previousBoot, hops[..i])
      invariant i > 0 ==> previousBoot == hops[i - 1].boot && priorLast == EndSequence(hops[i - 1])
    {
      var hop := hops[i];
      HopValidatorsAgree(hop);
      PrefixStep(hops, i);
      if !ObserverHopValid(hop) {
        return false;
      }
      HopOrder(hop);
      if hop.eventId in eventIds || (hop.companionEvent.Some? && hop.companionEvent.value in eventIds + {hop.eventId}) {
        return false;
      }
      eventIds := eventIds + EventIds(hop);
      if hop.boot in bootIds {
        return false;
      }
      bootIds := bootIds + {hop.boot};
      if i > 0 && (hop.previousBoot != previousBoot || hop.previousSequence < priorLast) {
        return false;
      }
      previousBoot := hop.boot;
      priorLast := if hop.boundary == KeyTransition then hop.companionSequence.value else hop.sequence;
    }
    assert hops[..|hops|] == hops;
    return true;
  }

  // ---------------------------------------------------------------------------------------
  // Parts of chains
  // ---------------------------------------------------------------------------------------

  /** Every contiguous part of a valid chain is a valid chain. */
  lemma SubChainIsValid(hops: seq<Hop>, i: nat, j: nat)
    requires ValidChain(hops) && i < j <= |hops|
    ensures ValidChain(hops[i..j])
  {
    hide CoreHopValid, EventIds, EndSequence;
    var part := hops[i..j];
    assert forall k :: 0 <= k < |part| ==> part[k] == hops[i + k];
    if i > 0 {
      assert Links(hops[i - 1], hops[i]);
    }
  }

  /** No boot occurs twice anywhere on the path a chain describes. */
  lemma BootsNeverRepeat(hops: seq<Hop>, i: nat, j: nat)
    requires ValidChain(hops) && i < |hops| && j < |hops|
    ensures hops[i].boot == hops[j].boot <==> i == j
    ensures hops[i].previousBoot == hops[j].previousBoot <==> i == j
    ensures hops[i].boot == hops[j].previousBoot <==> j == i + 1
  {
    hide CoreHopValid, EventIds, EndSequence;
    assert i > 0 ==> Links(hops[i - 1], hops[i]);
    assert j > 0 ==> Links(hops[j - 1], hops[j]);
  }

  /** The hops lead from boot `a` to boot `b`. */
  ghost predicate Leads(hops: seq<Hop>, a: BootId, b: BootId, i: nat, j: nat) {
    i < j <= |hops| && hops[i].previousBoot == a && hops[j - 1].boot == b
  }

  /** The part of the chain from boot `a` to boot `b`, if there is one. */
  ghost function Between(hops: seq<Hop>, a: BootId, b: BootId): Option<seq<Hop>> {
    if exists i: nat, j: nat :: Leads(hops, a, b, i, j) then
      var i: nat, j: nat :| Leads(hops, a, b, i, j);
      Some(hops[i..j])
    else None
  }

  lemma BetweenIs(hops: seq<Hop>, a: BootId, b: BootId, i: nat, j: nat)
    requires ValidChain(hops) && Leads(hops, a, b, i, j)
    ensures Between(hops, a, b) == Some(hops[i..j])
  {
    hide ValidChain;
    forall x: nat, y: nat | Leads(hops, a, b, x, y) ensures x == i && y == j {
      BootsNeverRepeat(hops, i, x);
      BootsNeverRepeat(hops, j - 1, y - 1);
    }
  }

  /** Splitting at any boot on the way: the two parts joined are the whole. */
  lemma ChainsCompose(hops: seq<Hop>, a: BootId, b: BootId, c: BootId)
    requires ValidChain(hops) && Between(hops, a, b).Some? && Between(hops, b, c).Some?
    ensures Between(hops, a, c) == Some(Between(hops, a, b).value + Between(hops, b, c).value)
  {
    hide ValidChain;
    var i: nat, j: nat :| Leads(hops, a, b, i, j);
    var k: nat, l: nat :| Leads(hops, b, c, k, l);
    BootsNeverRepeat(hops, j - 1, k);
    BetweenIs(hops, a, b, i, j);
    BetweenIs(hops, b, c, k, l);
    BetweenIs(hops, a, c, i, l);
    assert hops[i..l] == hops[i..j] + hops[j..l];
  }

  /** What a chain answers is not changed by hops recorded later. */
  lemma LaterHopsChangeNothing(hops: seq<Hop>, more: seq<Hop>, a: BootId, b: BootId)
    requires ValidChain(hops + more) && ValidChain(hops) && Between(hops, a, b).Some?
    ensures Between(hops + more, a, b) == Between(hops, a, b)
  {
    hide ValidChain;
    var i: nat, j: nat :| Leads(hops, a, b, i, j);
    BetweenIs(hops, a, b, i, j);
    assert Leads(hops + more, a, b, i, j);
    BetweenIs(hops + more, a, b, i, j);
    assert (hops + more)[i..j] == hops[i..j];
  }

  // ---------------------------------------------------------------------------------------
  // The archive
  // ---------------------------------------------------------------------------------------

  datatype RecordOutcome = Recorded | AlreadyRecorded | Refused

  class Archive {
    var hops: seq<Hop>
    var failed: bool

    ghost predicate Valid()
      reads this
    {
      (forall i :: 0 <= i < |hops| ==> WordSized(hops[i])) && (hops == [] || ValidChain(hops))
    }

    constructor ()
      ensures Valid() && hops == [] && !failed
    {
      hops, failed := [], false;
    }

    /**
     Records one more hop. Repeating the last one changes nothing; anything that would break the
     chain, and any storage failure, stops the archive without touching the recorded hops.
     */
    method RecordCommittedBoundary(hop: Hop) returns (r: RecordOutcome)
      requires Valid() && WordSized(hop)
      modifies this
      ensures Valid()
      ensures old(failed) ==> r == Refused && unchanged(this)
      ensures !old(failed) && old(hops) != [] && old(hops)[|old(hops)| - 1] == hop ==> r == AlreadyRecorded && unchanged(this)
      ensures r == Recorded ==> hops == old(hops) + [hop] && !failed
      ensures r != Recorded ==> hops == old(hops)
      ensures r == Refused ==> failed
      ensures !old(failed) && !ValidChain(old(hops) + [hop]) && r != AlreadyRecorded ==> r == Refused
    {
      hide ValidChain;
      if failed {
        return Refused;
      }
      if hops != [] && hops[|hops| - 1] == hop {
        return AlreadyRecorded;
      }
      var next := hops + [hop];
      var ok := ObserverValidate(next);
      var written: bool, anchored: bool := *, *;
      if !ok || |hops| >= MAX_HOPS || !written || !anchored {
        failed := true;
        return Refused;
      }
      hops := next;
      return Recorded;
    }

    /**
     The hops from one boot to another: found exactly when they exist, and then the final
     re-validation of the selected part cannot fail.
     */
    method Chain(previousBoot: BootId, currentBoot: BootId) returns (r: Option<seq<Hop>>)
      requires Valid()
      ensures r == if failed || previousBoot == currentBoot then None else Between(hops, previousBoot, currentBoot)
    {
      hide ValidChain;
      if failed || previousBoot == currentBoot {
        return None;
      }
      if hops != [] {
        var ok := ObserverValidate(hops);
        if !ok {
          return None;
        }
      }
      var start := 0;
      while start < |hops| && hops[start].previousBoot != previousBoot
        invariant start <= |hops| && forall i :: 0 <= i < start ==> hops[i].previousBoot != previousBoot
      {
        start := start + 1;
      }
      if start == |hops| {
        return None;
      }
      var selected := [];
      var at := start;
      while at < |hops|
        invariant start <= at <= |hops| && selected == hops[start..at]
        invariant forall k :: start <= k < at ==> hops[k].boot != currentBoot
      {
        selected := selected + [hops[at]];
        at := at + 1;
        if hops[at - 1].boot == currentBoot {
          break;
        }
      }
      assert selected == hops[start..at];
      if selected[|selected| - 1].boot != currentBoot {
        NotThere(hops, previousBoot, currentBoot, start);
        return None;
      }
      SubChainIsValid(hops, start, at);
      BetweenIs(hops, previousBoot, currentBoot, start, at);
      assert forall i :: 0 <= i < |selected| ==> selected[i] == hops[start + i];
      var valid := ObserverValidate(selected);
      return if valid then Some(selected) else None;
    }
  }

  lemma NotThere(hops: seq<Hop>, a: BootId, b: BootId, start: nat)
    requires ValidChain(hops) && start < |hops| && hops[start].previousBoot == a
    requires forall k :: start <= k < |hops| ==> hops[k].boot != b
    ensures Between(hops, a, b) == None
  {
    hide ValidChain;
    forall i: nat, j: nat | Leads(hops, a, b, i, j) ensures false {
      BootsNeverRepeat(hops, start, i);
    }
  }
}
