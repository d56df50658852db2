/** What becomes of records that cannot all be sent, and where the source's assertion fails. */
module Verdicts {
  import opened TimeseriesText
  import opened Batching

  // The first record that does not fit alone, though it can be encoded: the encoder reports
  // success with an empty array, and the caller's assertion fails, exactly if a request is left
  // after the records before it were planned.
  lemma {:induction false} OversizeRecordTripsAssertion(ts: seq<Record>, cap: nat, free: nat, k: nat)
    requires 3 <= cap && k < |ts|
    requires EachFitsAlone(ts[..k], cap)
    requires ts[k].Encodable? && !Accepts([ts[k]], cap)
    ensures FailsAfter(MakePlan(ts[..k], cap, free), free, MakePlan(ts, cap, free))
    decreases |ts|
  {
    hide *;
    if free == 0 || k == 0 {
      FailsAtOnce(ts, cap, free, k);
    } else {
      var n, before := Longest(ts, cap), ts[..k];
      LongestStopsBefore(ts, cap, k);
      FirstsPlanned(ts, cap, k);
      assert ts[n..][..k - n] == before[n..];
      OversizeRecordTripsAssertion(ts[n..], cap, free - 1, k - n);
      PlanStep(ts, cap, free, n);
      PlanStep(before, cap, free, n);
      FailsLater(ts[..n], MakePlan(before[n..], cap, free - 1), free, MakePlan(ts[n..], cap, free - 1));
      assert before[..n] == ts[..n];
    }
  }

  lemma FailsAtOnce(ts: seq<Record>, cap: nat, free: nat, k: nat)
    requires 3 <= cap && k < |ts| && (free == 0 || k == 0)
    requires ts[k].Encodable? && !Accepts([ts[k]], cap)
    ensures FailsAfter(MakePlan(ts[..k], cap, free), free, MakePlan(ts, cap, free))
  {
    LongestStopsBefore(ts, cap, k);
  }

  lemma FailsLater(batch: seq<Record>, before: Plan, free: nat, whole: Plan)
    requires free > 0 && FailsAfter(before, free - 1, whole)
    ensures FailsAfter(Prepend(batch, before), free, Prepend(batch, whole))
  {
  }

  // The plan of the records before decides which of the two failures the whole call meets.
  ghost predicate FailsAfter(before: Plan, free: nat, whole: Plan) {
    whole == if before.Planned? && |before.batches| < free then Oversize else NoRequest
  }

  lemma FirstsPlanned(ts: seq<Record>, cap: nat, k: nat)
    requires 3 <= cap && 0 < k < |ts|
    requires EachFitsAlone(ts[..k], cap) && ts[k].Encodable?
    requires Longest(ts, cap) <= k && Longest(ts[..k], cap) == Longest(ts, cap)
    ensures 0 < Longest(ts, cap)
    ensures EncodeSucceeds(ts, cap) && EncodeSucceeds(ts[..k], cap)
    ensures EachFitsAlone(ts[..k][Longest(ts, cap)..], cap)
  {
  }

  lemma LongestStopsBefore(ts: seq<Record>, cap: nat, k: nat)
    requires 3 <= cap && k < |ts| && !Accepts([ts[k]], cap)
    ensures Longest(ts, cap) <= k && Longest(ts[..k], cap) == Longest(ts, cap)
  {
    var n := Longest(ts, cap);
    LongestIsMaximal(ts, cap, n);
    if n < k {
      LongestIsMaximal(ts, cap, n + 1);
    }
    if k < n {
      assert ts[..n][..k + 1][k..] == [ts[k]];
      AcceptsPrefix(ts[..n], cap, k + 1);
      AcceptsSuffix(ts[..n][..k + 1], cap, k);
    }
    assert ts[..k][..n] == ts[..n];
    assert n < k ==> ts[..k][..n + 1] == ts[..n + 1];
    LongestUnique(ts[..k], cap, n);
  }

  // The first record that does not fit a request on its own, |ts| if there is none.
  ghost function FirstBad(ts: seq<Record>, cap: nat): (k: nat)
    ensures k <= |ts| && EachFitsAlone(ts[..k], cap)
    ensures k < |ts| ==> !Accepts([ts[k]], cap)
  {
    if ts == [] || !Accepts([ts[0]], cap) then 0
    else
      var k := FirstBad(ts[1..], cap);
      assert ts[..k + 1] == [ts[0]] + ts[1..][..k];
      EachFitsAppend([ts[0]], ts[1..][..k], cap);
      k + 1
  }

  // A record without text: packing it takes exactly the room that trying any record takes.
  const NO_TEXT := Encodable("")

  // What has to be packed before it shows whether the records can be: up to the first one that
  // does not fit alone, with a try of that one if it cannot be encoded.
  ghost function Decisive(ts: seq<Record>, cap: nat): seq<Record> {
    var k := FirstBad(ts, cap);
    ts[..k] + if k < |ts| && ts[k].Unencodable? then [NO_TEXT] else []
  }

  // One that can be encoded but does not fit needs a request of its own to show.
  ghost function Spare(ts: seq<Record>, cap: nat): nat {
    var k := FirstBad(ts, cap);
    if k < |ts| && ts[k].Encodable? then 1 else 0
  }

  // The free requests do not suffice for any split that shows it.
  ghost predicate RunsOut(ts: seq<Record>, cap: nat, free: nat) {
    ts != [] && (free == 0 || (3 <= cap && !CanSplit(Decisive(ts, cap), cap, free - Spare(ts, cap))))
  }

  // Which of its four ways the prepare phase goes, for all inputs, without reference to the plan.
  lemma VerdictBySplits(ts: seq<Record>, cap: nat, free: nat)
    ensures var k, plan := FirstBad(ts, cap), MakePlan(ts, cap, free);
            && (plan.NoRequest? <==> RunsOut(ts, cap, free))
            && (plan.Planned? <==> !RunsOut(ts, cap, free) && k == |ts|)
            && (plan.BadRecord? <==> !RunsOut(ts, cap, free) && k < |ts| && (cap < 3 || ts[k].Unencodable?))
            && (plan.Oversize? <==> !RunsOut(ts, cap, free) && k < |ts| && 3 <= cap && ts[k].Encodable?)
  {
    var k := FirstBad(ts, cap);
    if k == |ts| {
      assert Decisive(ts, cap) == ts by {
        assert ts[..k] + [] == ts;
      }
      AllFitVerdict(ts, cap, free);
    } else if 3 <= cap && ts[k].Encodable? {
      assert Decisive(ts, cap) == ts[..k];
      MisfitVerdict(ts, cap, free, k);
    } else if 3 <= cap {
      UnencodableVerdict(ts, cap, free, k);
    }
  }

  // Each record fits alone.

  lemma AllFitVerdict(ts: seq<Record>, cap: nat, free: nat)
    requires EachFitsAlone(ts, cap)
    ensures var plan := MakePlan(ts, cap, free);
            && (plan.Planned? <==> CanSplit(ts, cap, free))
            && (plan.NoRequest? <==> !CanSplit(ts, cap, free))
    ensures ts == [] ==> CanSplit(ts, cap, free)
    ensures ts != [] ==> 3 <= cap && (CanSplit(ts, cap, free) ==> free > 0)
  {
    PlanExistsIffSplitExists(ts, cap, free);
    OnlyRequestsFail(ts, cap, free);
    if ts != [] {
      assert Accepts([ts[0]], cap);
    }
  }

  lemma {:induction false} OnlyRequestsFail(ts: seq<Record>, cap: nat, free: nat)
    requires EachFitsAlone(ts, cap)
    ensures MakePlan(ts, cap, free).Planned? || MakePlan(ts, cap, free).NoRequest?
    decreases |ts|
  {
    if ts != [] && free > 0 {
      FittingIsPacked(ts, cap);
      var n := Longest(ts, cap);
      PlanStep(ts, cap, free, n);
      OnlyRequestsFail(ts[n..], cap, free - 1);
    }
  }

  lemma FittingIsPacked(ts: seq<Record>, cap: nat)
    requires EachFitsAlone(ts, cap) && ts != []
    ensures EncodeSucceeds(ts, cap) && Longest(ts, cap) > 0
  {
    assert Accepts([ts[0]], cap) && ts[..1] == [ts[0]];
    LongestIsMaximal(ts, cap, 1);
    var n := Longest(ts, cap);
    if n < |ts| {
      assert Accepts([ts[n]], cap) && [ts[n]][0] == ts[n];
    }
  }

  // The first record that does not fit alone can be encoded.

  lemma MisfitVerdict(ts: seq<Record>, cap: nat, free: nat, k: nat)
    requires 3 <= cap && k < |ts| && EachFitsAlone(ts[..k], cap)
    requires ts[k].Encodable? && !Accepts([ts[k]], cap)
    ensures MakePlan(ts, cap, free) == if free > 0 && CanSplit(ts[..k], cap, free - 1) then Oversize else NoRequest
  {
    OversizeRecordTripsAssertion(ts, cap, free, k);
    if free > 0 {
      PlannedWithFewer(ts[..k], cap, free);
    }
  }

  lemma PlannedWithFewer(ts: seq<Record>, cap: nat, free: nat)
    requires free > 0
    ensures CanSplit(ts, cap, free - 1) <==>
            MakePlan(ts, cap, free).Planned? && |MakePlan(ts, cap, free).batches| < free
  {
    if MakePlan(ts, cap, free).Planned? {
      PlanIsSplit(ts, cap, free);
    }
    if parts :| IsSplit(parts, ts, cap) && |parts| <= free - 1 {
      StaysAhead(ts, cap, parts, ts, 0, free);
    }
  }

  // The first record that does not fit alone cannot be encoded at all.

  lemma UnencodableVerdict(ts: seq<Record>, cap: nat, free: nat, k: nat)
    requires 3 <= cap && k < |ts| && EachFitsAlone(ts[..k], cap) && ts[k].Unencodable?
    ensures MakePlan(ts, cap, free) == if CanSplit(ts[..k] + [NO_TEXT], cap, free) then BadRecord else NoRequest
    ensures CanSplit(ts[..k] + [NO_TEXT], cap, free) ==> free > 0
  {
    FailsWhereTried(ts, cap, free, k);
    PlanExistsIffSplitExists(ts[..k] + [NO_TEXT], cap, free);
  }

  // The encoder meets record k in the same batch in which it would pack a record without text.
  lemma {:induction false} FailsWhereTried(ts: seq<Record>, cap: nat, free: nat, k: nat)
    requires 3 <= cap && k < |ts| && EachFitsAlone(ts[..k], cap) && ts[k].Unencodable?
    ensures MakePlan(ts, cap, free) ==
            if MakePlan(ts[..k] + [NO_TEXT], cap, free).Planned? then BadRecord else NoRequest
    decreases |ts|
  {
    hide EncodeSucceeds, Longest, Accepts, EachFitsAlone;
    var tried, n := ts[..k] + [NO_TEXT], Longest(ts, cap);
    if free > 0 {
      TriedAlike(ts, cap, k);
      if EncodeSucceeds(ts, cap) {
        FailsWhereTried(ts[n..], cap, free - 1, k - n);
        assert tried[n..] == ts[n..][..k - n] + [NO_TEXT];
        PlanStep(ts, cap, free, n);
        PlanStep(tried, cap, free, n);
      } else {
        PlanStep(tried, cap, free, k + 1);
        assert tried[k + 1..] == [];
      }
    }
  }

  lemma TriedAlike(ts: seq<Record>, cap: nat, k: nat)
    requires 3 <= cap && k < |ts| && EachFitsAlone(ts[..k], cap) && ts[k].Unencodable?
    ensures var tried, n := ts[..k] + [NO_TEXT], Longest(ts, cap);
            && EncodeSucceeds(tried, cap)
            && if EncodeSucceeds(ts, cap)
               then 0 < n <= k && Longest(tried, cap) == n && EachFitsAlone(ts[n..][..k - n], cap)
               else Longest(tried, cap) == k + 1
  {
    var tried, n := ts[..k] + [NO_TEXT], Longest(ts, cap);
    assert [ts[k]][0] == ts[k];
    LongestStopsBefore(ts, cap, k);
    LongestIsMaximal(ts, cap, n);
    assert tried[..n] == ts[..n];
    if n < k {
      LongestIsMaximal(ts, cap, n + 1);
      assert tried[..n + 1] == ts[..n + 1];
      assert Accepts([ts[..k][n]], cap) && [ts[..k][n]][0] == ts[n];
      LongestUnique(tried, cap, n);
    } else {
      TryIsEmpty(ts[..k], cap);
      assert tried[..k + 1] == tried && ts[..k] == tried[..k];
      LongestUnique(tried, cap, if Accepts(tried, cap) then k + 1 else k);
    }
    if k > 0 {
      assert Accepts([ts[..k][0]], cap) && ts[..1] == [ts[..k][0]];
      LongestIsMaximal(ts, cap, 1);
    }
    FitsBehind(ts, cap, n, k);
  }

  lemma FitsBehind(ts: seq<Record>, cap: nat, n: nat, k: nat)
    requires n <= k <= |ts| && EachFitsAlone(ts[..k], cap)
    ensures EachFitsAlone(ts[n..][..k - n], cap)
  {
    var rest := ts[n..][..k - n];
    forall i | 0 <= i < |rest| ensures Accepts([rest[i]], cap) {
      assert rest[i] == ts[..k][n + i];
    }
  }

  lemma TryIsEmpty(batch: seq<Record>, cap: nat)
    requires 3 <= cap && AllEncodable(batch)
    ensures Accepts(batch + [NO_TEXT], cap) <==> batch == [] || 1 + |Joined(batch)| + 3 <= cap
  {
    JoinedSnoc(batch, NO_TEXT);
  }

  // A record of seven bytes behind one of two, in buffers of six: with two requests the assertion
  // fails, with one the slab runs out.
  lemma OversizeExample()
    ensures var ts := [Encodable("{}"), Encodable("{\"a\":1}")];
            MakePlan(ts, 6, 2) == Oversize && MakePlan(ts, 6, 1) == NoRequest
  {
    var small, big := Encodable("{}"), Encodable("{\"a\":1}");
    var ts := [small, big];
    assert Joined([small]) == "{}" && Joined([big]) == "{\"a\":1}";
    assert ts[..1] == [small];
    assert EachFitsAlone([small], 6);
    OversizeRecordTripsAssertion(ts, 6, 2, 1);
    OversizeRecordTripsAssertion(ts, 6, 1, 1);
    EnoughRequestsSuffice([small], 6, 1);
    EnoughRequestsSuffice([small], 6, 2);
    PlanIsSplit([small], 6, 1);
    PlanIsOptimal([small], 6, 2, [[small]]);
  }
}
