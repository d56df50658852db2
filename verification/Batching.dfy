/**
 Splitting records into requests: the greedy plan that the prepare phase follows, and the proof
 that it succeeds exactly when some split into accepted batches fits the free requests.
 */
module Batching {
  import opened Sequences
  import opened TimeseriesText

  ghost predicate AllAccepted(parts: seq<seq<Record>>, cap: nat) {
    forall i :: 0 <= i < |parts| ==> Accepts(parts[i], cap)
  }

  // An in-order contiguous split of the records into batches that the encoder packs.
  ghost predicate IsSplit(parts: seq<seq<Record>>, ts: seq<Record>, cap: nat) {
    Flatten(parts) == ts && AllAccepted(parts, cap)
  }

  ghost predicate AllNonEmpty(parts: seq<seq<Record>>) {
    forall i :: 0 <= i < |parts| ==> parts[i] != []
  }

  // NoRequest: the slab ran out. BadRecord: the encoder failed. Oversize: the encoder
  // returned an empty array, which the caller asserts never to happen.
  datatype Plan = Planned(batches: seq<seq<Record>>) | NoRequest | BadRecord | Oversize

  // The prepare phase with a number of free requests.
  ghost function MakePlan(ts: seq<Record>, cap: nat, free: nat): Plan
    decreases |ts|
  {
    if ts == [] then Planned([])
    else if free == 0 then NoRequest
    else if !EncodeSucceeds(ts, cap) then BadRecord
    else
      var n := Longest(ts, cap);
      if n == 0 then Oversize else Prepend(ts[..n], MakePlan(ts[n..], cap, free - 1))
  }

  ghost function Prepend(batch: seq<Record>, plan: Plan): Plan {
    if plan.Planned? then Planned([batch] + plan.batches) else plan
  }

  // A plan for the rest, behind the batches that are already prepared.
  ghost function Extend(done: seq<seq<Record>>, plan: Plan): Plan {
    if plan.Planned? then Planned(done + plan.batches) else plan
  }

  // The prepare phase in a build without assertions: an empty array is sent along, the records stay.
  ghost function UncheckedPlan(ts: seq<Record>, cap: nat, free: nat): Plan
    decreases free
  {
    if ts == [] then Planned([])
    else if free == 0 then NoRequest
    else if !EncodeSucceeds(ts, cap) then BadRecord
    else Prepend(ts[..Longest(ts, cap)], UncheckedPlan(ts[Longest(ts, cap)..], cap, free - 1))
  }

  // Where the assertion would have failed, such a build takes requests until none is left.
  lemma {:induction false} UncheckedRunsOut(ts: seq<Record>, cap: nat, free: nat)
    ensures var plan := MakePlan(ts, cap, free);
            UncheckedPlan(ts, cap, free) == if plan.Oversize? then NoRequest else plan
    decreases free
  {
    if ts != [] && free > 0 && EncodeSucceeds(ts, cap) {
      var n := Longest(ts, cap);
      UncheckedRunsOut(ts[n..], cap, free - 1);
      if n == 0 {
        assert ts[0..] == ts;
        EmptyForAnyFree(ts, cap, free - 1);
      }
    }
  }

  lemma EmptyForAnyFree(ts: seq<Record>, cap: nat, free: nat)
    requires ts != [] && EncodeSucceeds(ts, cap) && Longest(ts, cap) == 0
    ensures MakePlan(ts, cap, free) == if free == 0 then NoRequest else Oversize
  {
  }

  lemma ExtendStep(done: seq<seq<Record>>, todo: seq<Record>, cap: nat, free: nat)
    requires todo != [] && free > 0 && EncodeSucceeds(todo, cap)
    ensures var n := Longest(todo, cap);
            Extend(done, UncheckedPlan(todo, cap, free)) ==
            Extend(done + [todo[..n]], UncheckedPlan(todo[n..], cap, free - 1))
  {
    var n := Longest(todo, cap);
    var rest := UncheckedPlan(todo[n..], cap, free - 1);
    if rest.Planned? {
      assert done + [todo[..n]] + rest.batches == done + ([todo[..n]] + rest.batches);
    }
  }

  lemma NeverOversize(ts: seq<Record>, cap: nat, free: nat)
    ensures !UncheckedPlan(ts, cap, free).Oversize?
  {
    UncheckedRunsOut(ts, cap, free);
  }

  // The first turn meets an empty array, or a later one does.
  lemma OversizeStep(todo: seq<Record>, cap: nat, free: nat)
    requires todo != [] && free > 0 && EncodeSucceeds(todo, cap)
    ensures var n := Longest(todo, cap);
            MakePlan(todo, cap, free).Oversize? <==> n == 0 || MakePlan(todo[n..], cap, free - 1).Oversize?
  {
  }

  // One step of a plan.
  lemma PlanStep(ts: seq<Record>, cap: nat, free: nat, n: nat)
    requires ts != [] && free > 0 && EncodeSucceeds(ts, cap) && n == Longest(ts, cap) > 0
    ensures MakePlan(ts, cap, free) == Prepend(ts[..n], MakePlan(ts[n..], cap, free - 1))
  {
  }

  lemma SplitCons(batch: seq<Record>, parts: seq<seq<Record>>, ts: seq<Record>, cap: nat)
    requires Accepts(batch, cap) && IsSplit(parts, ts, cap)
    ensures IsSplit([batch] + parts, batch + ts, cap)
  {
  }

  // A plan is a partition into non-empty accepted batches within the free requests.
  lemma {:induction false} PlanIsSplit(ts: seq<Record>, cap: nat, free: nat)
    requires MakePlan(ts, cap, free).Planned?
    ensures IsSplit(MakePlan(ts, cap, free).batches, ts, cap)
    ensures AllNonEmpty(MakePlan(ts, cap, free).batches)
    ensures |MakePlan(ts, cap, free).batches| <= free
    decreases |ts|
  {
    var batches := MakePlan(ts, cap, free).batches;
    if ts != [] {
      var n := Longest(ts, cap);
      LongestIsMaximal(ts, cap, n);
      var first, tail := ts[..n], ts[n..];
      assert ts == first + tail;
      PlanStep(ts, cap, free, n);
      var rest := MakePlan(tail, cap, free - 1).batches;
      PlanIsSplit(tail, cap, free - 1);
      SplitCons(first, rest, tail, cap);
      assert batches == [first] + rest;
    }
  }

  lemma {:induction false} SplitIsEncodable(parts: seq<seq<Record>>, ts: seq<Record>, cap: nat)
    requires IsSplit(parts, ts, cap)
    ensures AllEncodable(ts)
  {
    if parts != [] {
      SplitIsEncodable(parts[1..], Flatten(parts[1..]), cap);
    }
  }

  lemma SplitTail(parts: seq<seq<Record>>, ts: seq<Record>, cap: nat)
    requires parts != [] && IsSplit(parts, ts, cap)
    ensures |parts[0]| <= |ts| && ts[..|parts[0]|] == parts[0] && Accepts(parts[0], cap)
    ensures IsSplit(parts[1..], ts[|parts[0]|..], cap)
  {
  }

  // The records todo are others without the first d.
  predicate Behind(todo: seq<Record>, others: seq<Record>, d: nat) {
    d <= |others| && todo == others[d..]
  }

  lemma BehindNext(todo: seq<Record>, others: seq<Record>, d: nat, p: nat, n: nat)
    requires Behind(todo, others, d) && n <= |todo| && p <= d + n
    ensures p <= |others| && Behind(todo[n..], others[p..], d + n - p)
  {
  }

  // The part of the other split's first batch that the plan has not sent yet is accepted, so the
  // plan's next batch reaches at least as far.
  lemma CatchesUp(parts: seq<seq<Record>>, others: seq<Record>, cap: nat, todo: seq<Record>, d: nat)
    requires parts != [] && IsSplit(parts, others, cap) && Behind(todo, others, d) && d < |parts[0]|
    ensures EncodeSucceeds(todo, cap) && d + Longest(todo, cap) >= |parts[0]|
  {
    SplitIsEncodable(parts, others, cap);
    SplitTail(parts, others, cap);
    ReachesAsFar(others, cap, d, |parts[0]|);
  }

  lemma ReachesAsFar(ts: seq<Record>, cap: nat, d: nat, p: nat)
    requires AllEncodable(ts) && d < p <= |ts| && Accepts(ts[..p], cap)
    ensures EncodeSucceeds(ts[d..], cap) && d + Longest(ts[d..], cap) >= p
  {
    AcceptsSuffix(ts[..p], cap, d);
    assert ts[..p][d..] == ts[d..][..p - d];
    LongestIsMaximal(ts[d..], cap, p - d);
    var n := Longest(ts[d..], cap);
  }

  ghost predicate PlannedWithin(ts: seq<Record>, cap: nat, free: nat, m: int) {
    MakePlan(ts, cap, free).Planned? && |MakePlan(ts, cap, free).batches| <= m
  }

  lemma PlannedWithinStep(ts: seq<Record>, cap: nat, free: nat, m: int)
    requires ts != [] && free > 0 && EncodeSucceeds(ts, cap) && Longest(ts, cap) > 0
    requires PlannedWithin(ts[Longest(ts, cap)..], cap, free - 1, m - 1)
    ensures PlannedWithin(ts, cap, free, m)
  {
  }

  lemma PlannedWithinMore(ts: seq<Record>, cap: nat, free: nat, m: int)
    requires PlannedWithin(ts, cap, free, m)
    ensures PlannedWithin(ts, cap, free, m + 1)
  {
  }

  lemma NothingPlanned(cap: nat, free: nat, m: nat)
    ensures PlannedWithin([], cap, free, m)
  {
  }

  lemma OthersRemain(parts: seq<seq<Record>>, others: seq<Record>, cap: nat, todo: seq<Record>, d: nat)
    requires IsSplit(parts, others, cap) && Behind(todo, others, d) && todo != []
    ensures parts != []
  {
  }

  // Stated on the rest of the records that the other split (others) and the plan (todo) still
  // have to send: as long as the plan is not behind, it needs no more batches.
  lemma {:induction false} StaysAhead(others: seq<Record>, cap: nat, parts: seq<seq<Record>>,
                                      todo: seq<Record>, d: nat, free: nat)
    requires IsSplit(parts, others, cap)
    requires Behind(todo, others, d) && |parts| <= free
    ensures PlannedWithin(todo, cap, free, |parts|)
    decreases |parts|
  {
    hide *;
    if todo == [] {
      NothingPlanned(cap, free, |parts|);
    } else {
      OthersRemain(parts, others, cap, todo, d);
      var p := |parts[0]|;
      SplitTail(parts, others, cap);
      if p <= d {
        BehindNext(todo, others, d, p, 0);
        StaysAhead(others[p..], cap, parts[1..], todo, d - p, free);
        PlannedWithinMore(todo, cap, free, |parts| - 1);
      } else {
        CatchesUp(parts, others, cap, todo, d);
        var n := Longest(todo, cap);
        BehindNext(todo, others, d, p, n);
        StaysAhead(others[p..], cap, parts[1..], todo[n..], d + n - p, free - 1);
        PlannedWithinStep(todo, cap, free, |parts|);
      }
    }
  }

  // There is a split into at most that many batches.
  ghost predicate CanSplit(ts: seq<Record>, cap: nat, free: nat) {
    exists parts :: IsSplit(parts, ts, cap) && |parts| <= free
  }

  // The prepare phase succeeds exactly when some split into accepted batches fits the free
  // requests.
  lemma {:induction false} PlanExistsIffSplitExists(ts: seq<Record>, cap: nat, free: nat)
    ensures MakePlan(ts, cap, free).Planned? <==> CanSplit(ts, cap, free)
  {
    if MakePlan(ts, cap, free).Planned? {
      PlanIsSplit(ts, cap, free);
    }
    if parts :| IsSplit(parts, ts, cap) && |parts| <= free {
      StaysAhead(ts, cap, parts, ts, 0, free);
    }
  }

  // No split uses fewer requests than the plan.
  lemma PlanIsOptimal(ts: seq<Record>, cap: nat, free: nat, parts: seq<seq<Record>>)
    requires MakePlan(ts, cap, free).Planned? && IsSplit(parts, ts, cap)
    ensures |MakePlan(ts, cap, free).batches| <= |parts|
  {
    if |parts| <= free {
      StaysAhead(ts, cap, parts, ts, 0, free);
    } else {
      PlanIsSplit(ts, cap, free);
    }
  }

  // Records that the encoder can pack one by one.
  ghost predicate EachFitsAlone(ts: seq<Record>, cap: nat) {
    forall i :: 0 <= i < |ts| ==> Accepts([ts[i]], cap)
  }

  function Singletons(ts: seq<Record>): seq<seq<Record>> {
    seq(|ts|, i requires 0 <= i < |ts| => [ts[i]])
  }

  lemma {:induction false} FlattenSingletons(ts: seq<Record>)
    ensures Flatten(Singletons(ts)) == ts
  {
    if ts != [] {
      FlattenSingletons(ts[1..]);
      assert Singletons(ts)[1..] == Singletons(ts[1..]);
    }
  }

  lemma AcceptedFitsEach(batch: seq<Record>, cap: nat)
    requires Accepts(batch, cap)
    ensures EachFitsAlone(batch, cap)
  {
    forall i | 0 <= i < |batch| ensures Accepts([batch[i]], cap) {
      AcceptsPrefix(batch, cap, i + 1);
      AcceptsSuffix(batch[..i + 1], cap, i);
      assert batch[..i + 1][i..] == [batch[i]];
    }
  }

  lemma EachFitsAppend(first: seq<Record>, rest: seq<Record>, cap: nat)
    requires EachFitsAlone(first, cap) && EachFitsAlone(rest, cap)
    ensures EachFitsAlone(first + rest, cap)
  {
  }

  lemma {:induction false} SplitFitsEach(parts: seq<seq<Record>>, ts: seq<Record>, cap: nat)
    requires IsSplit(parts, ts, cap)
    ensures EachFitsAlone(ts, cap)
  {
    if parts != [] {
      SplitTail(parts, ts, cap);
      SplitFitsEach(parts[1..], ts[|parts[0]|..], cap);
      AcceptedFitsEach(parts[0], cap);
      EachFitsAppend(parts[0], ts[|parts[0]|..], cap);
    }
  }

  // With a request for every record, the prepare phase succeeds exactly when each record fits a
  // request on its own. A record that does not leads to an encoder error or the failed assertion.
  lemma EnoughRequestsSuffice(ts: seq<Record>, cap: nat, free: nat)
    requires |ts| <= free
    ensures MakePlan(ts, cap, free).Planned? <==> EachFitsAlone(ts, cap)
  {
    PlanExistsIffSplitExists(ts, cap, free);
    if EachFitsAlone(ts, cap) {
      FlattenSingletons(ts);
      assert IsSplit(Singletons(ts), ts, cap);
    }
    if parts :| IsSplit(parts, ts, cap) && |parts| <= free {
      SplitFitsEach(parts, ts, cap);
    }
  }

  // Running out of requests is never the planner's fault.
  lemma NoRequestMeansTooFew(ts: seq<Record>, cap: nat, free: nat, parts: seq<seq<Record>>)
    requires MakePlan(ts, cap, free).NoRequest? && IsSplit(parts, ts, cap)
    ensures |parts| > free
  {
    PlanExistsIffSplitExists(ts, cap, free);
  }
}
