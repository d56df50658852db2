/**
 What each call and callback leads to, in terms of the phase before, the environment's choices and
 the state after: the source's promises to its callers, one operation at a time.
 */
module Outcomes {
  import opened Wrappers
  import opened RequestPool
  import opened Lifecycle
  import opened Sessions
  import Batching
  import Paths
  import TimeseriesText
  import Verdicts

  // One more block is in flight.
  ghost predicate Took(s: State, kind: Kind, r: State) {
    exists b :: b in s.free && r == s.(free := s.free - {b}, owned := s.owned[b := kind])
  }

  lemma RequestTakes(c: Config, s: State, kind: Kind, call: RequestCall)
    requires s.free <= AllBlocks(c.size)
    ensures var r := Request(c, s, kind, call);
            if call.built && call.accepted && s.free != {} then Took(s, kind, r) else r == s
  {
    if call.built && call.accepted && s.free != {} {
      var b := Choose(s.free, c.size, call.hint).value;
      assert b in s.free;
    }
  }

  // A send: the status tells what happened, and only Ok puts a block in flight.
  lemma SendOutcome(c: Config, s: State, kind: Kind, call: RequestCall)
    requires s.free <= AllBlocks(c.size)
    ensures var (r, status) := Perform(c, s, CallSend(kind, call));
            var sends := s.phase == Connecting || s.phase == Connected;
            && (status == Err(EAGAIN) <==> !sends)
            && (status == Err(ENOMEM) <==> sends && s.free == {})
            && (status == Err(EFAULT) <==> sends && s.free != {} && !call.built)
            && (status == Err(EIO) <==> sends && s.free != {} && call.built && !call.accepted)
            && (status == Ok <==> sends && s.free != {} && call.built && call.accepted)
            && if status == Ok then Took(s, kind, r) else r == s
  {
    RequestTakes(c, s, kind, call);
  }

  // A request of the SDK's own. Telemetry is dropped unless the client is connecting or connected.
  predicate GoesOut(phase: Phase, submission: Submission) {
    && (submission.kind != Telemetry || phase == Connecting || phase == Connected)
    && submission.call.built && submission.call.accepted
  }

  lemma SubmissionOutcome(c: Config, s: State, submission: Submission)
    requires s.free <= AllBlocks(c.size)
    ensures var r := Requests(c, s, [submission]);
            if GoesOut(s.phase, submission) && s.free != {} then Took(s, submission.kind, r) else r == s
  {
    var r := Submitted(c, s, submission);
    assert [submission][1..] == [];
    assert Requests(c, r, []) == r;
    RequestTakes(c, s, submission.kind, submission.call);
  }

  // How many of the requests want a block.
  function Wanted(phase: Phase, submissions: seq<Submission>): nat {
    if submissions == [] then 0
    else (if GoesOut(phase, submissions[0]) then 1 else 0) + Wanted(phase, submissions[1..])
  }

  function Minus(a: nat, b: nat): nat {
    if a < b then 0 else a - b
  }

  lemma {:induction false} SubmissionsOutcome(c: Config, s: State, submissions: seq<Submission>)
    requires s.free <= AllBlocks(c.size)
    ensures var r := Requests(c, s, submissions);
            && r.free <= s.free && |r.free| == Minus(|s.free|, Wanted(s.phase, submissions))
            && SameSession(s, r)
    decreases |submissions|
  {
    if submissions != [] {
      var first, rest := submissions[0], submissions[1..];
      var t := Submitted(c, s, first);
      RequestTakes(c, s, first.kind, first.call);
      SubmissionsOutcome(c, t, rest);
    }
  }

  // Sending timeseries.

  // The least number of batches.
  ghost predicate Least(ts: seq<TimeseriesText.Record>, cap: nat, n: nat) {
    Batching.CanSplit(ts, cap, n) && (n > 0 ==> !Batching.CanSplit(ts, cap, n - 1))
  }

  // k more blocks are in flight as telemetry, and nothing else has changed.
  ghost predicate TookTelemetry(s: State, k: nat, r: State) {
    && r == s.(free := r.free, owned := r.owned)
    && r.free <= s.free && |s.free - r.free| == k
    && r.owned.Keys == s.owned.Keys + (s.free - r.free)
    && (forall b :: b in s.owned && b !in s.free ==> r.owned[b] == s.owned[b])
    && (forall b :: b in s.free - r.free ==> r.owned[b] == Telemetry)
  }

  predicate AllTrue(accept: seq<bool>, n: nat) {
    n <= |accept| && forall i :: 0 <= i < n ==> accept[i]
  }

  // Outside CONNECTING and CONNECTED the call is refused and changes nothing, and nowhere else.
  lemma TimeseriesRefused(c: Config, s: State, ts: seq<TimeseriesText.Record>, hints: seq<Block>, accept: seq<bool>)
    ensures var (r, status) := Perform(c, s, CallSendTimeseries(ts, hints, accept));
            && (status == Err(EAGAIN) <==> s.phase != Connecting && s.phase != Connected)
            && (status == Err(EAGAIN) ==> r == s)
  {
  }

  // The records cannot be split over the free requests: nothing is sent.
  lemma TimeseriesFails(c: Config, s: State, ts: seq<TimeseriesText.Record>, hints: seq<Block>, accept: seq<bool>)
    requires s.phase == Connecting || s.phase == Connected
    requires !Batching.CanSplit(ts, c.cap, |s.free|)
    ensures var k := Verdicts.FirstBad(ts, c.cap);
            var encoderFails := !Verdicts.RunsOut(ts, c.cap, |s.free|) && k < |ts| && (c.cap < 3 || ts[k].Unencodable?);
            Perform(c, s, CallSendTimeseries(ts, hints, accept)) ==
            (s, Err(if encoderFails then EINVAL else ENOMEM))
  {
    hide *;
    ByPlan(c, s, ts, hints, accept);
    Verdicts.VerdictBySplits(ts, c.cap, |s.free|);
    Batching.PlanExistsIffSplitExists(ts, c.cap, |s.free|);
  }

  lemma ByPlan(c: Config, s: State, ts: seq<TimeseriesText.Record>, hints: seq<Block>, accept: seq<bool>)
    requires s.phase == Connecting || s.phase == Connected
    ensures var step := Perform(c, s, CallSendTimeseries(ts, hints, accept));
            match Batching.MakePlan(ts, c.cap, |s.free|)
            case Planned(batches) => step == Batches(c, s, |batches|, hints, accept)
            case BadRecord => step == (s, Err(EINVAL))
            case _ => step == (s, Err(ENOMEM))
  {
    Batching.UncheckedRunsOut(ts, c.cap, |s.free|);
    hide Batches, Batching.MakePlan, Batching.UncheckedPlan;
  }

  // They can: one request for each of the fewest possible batches, up to the first rejected one.
  lemma TimeseriesSends(c: Config, s: State, ts: seq<TimeseriesText.Record>, hints: seq<Block>, accept: seq<bool>,
                        n: nat, k: nat)
    requires s.phase == Connecting || s.phase == Connected
    requires s.free <= AllBlocks(c.size) && s.free !! s.owned.Keys && c.size <= |accept|
    requires Least(ts, c.cap, n) && n <= |s.free|
    requires k <= n && AllTrue(accept, k) && (k < n ==> k < |accept| && !accept[k])
    ensures var path := Paths.PathText(Paths.TelemetryPath(c.dtls, c.accessToken, s.token));
            var (r, status) := Perform(c, s, CallSendTimeseries(ts, hints, accept));
            if |path| + 1 <= c.pathCap
            then TookTelemetry(s, k, r) && status == (if k == n then Ok else Err(EIO))
            else r == s && status == (if n == 0 then Ok else Err(EIO))
  {
    hide Batching.MakePlan, Batches, Perform, Least, Paths.TelemetryPath, Paths.PathText, TookTelemetry;
    LeastIsPlanned(ts, c.cap, |s.free|, n);
    ByPlan(c, s, ts, hints, accept);
    FreeWithin(s.free, c.size);
    BatchesOutcome(c, s, hints, accept, n, k);
  }

  lemma FreeWithin(free: set<Block>, size: nat)
    requires free <= AllBlocks(size)
    ensures |free| <= size
  {
    assert AllBlocks(size) == free + (AllBlocks(size) - free);
  }

  lemma LeastIsPlanned(ts: seq<TimeseriesText.Record>, cap: nat, free: nat, n: nat)
    requires Least(ts, cap, n) && n <= free
    ensures Batching.MakePlan(ts, cap, free).Planned? && |Batching.MakePlan(ts, cap, free).batches| == n
  {
    var parts :| Batching.IsSplit(parts, ts, cap) && |parts| <= n;
    Batching.PlanExistsIffSplitExists(ts, cap, free);
    Batching.PlanIsOptimal(ts, cap, free, parts);
    Batching.PlanIsSplit(ts, cap, free);
  }

  lemma BatchesOutcome(c: Config, s: State, hints: seq<Block>, accept: seq<bool>, n: nat, k: nat)
    requires s.free <= AllBlocks(c.size) && s.free !! s.owned.Keys && n <= |s.free| && n <= |accept|
    requires k <= n && AllTrue(accept, k) && (k < n ==> !accept[k])
    ensures var path := Paths.PathText(Paths.TelemetryPath(c.dtls, c.accessToken, s.token));
            var (r, status) := Batches(c, s, n, hints, accept);
            if |path| + 1 <= c.pathCap
            then TookTelemetry(s, k, r) && status == (if k == n then Ok else Err(EIO))
            else r == s && status == (if n == 0 then Ok else Err(EIO))
  {
    var segments := Paths.TelemetryPath(c.dtls, c.accessToken, s.token);
    Paths.PathTextSize(segments);
    AcceptedUnique(accept, n, k);
    hide Paths.TelemetryPath, Paths.PathText, Paths.PathSize;
    var taken := if |Paths.PathText(segments)| + 1 <= c.pathCap then k else 0;
    assert Reached(TelemetryFits(c, s), accept, n) == taken;
    ChoicesAreFree(s.free, c.size, hints, n);
    var blocks := Choices(s.free, c.size, hints, n);
    FirstOf(blocks, taken);
    HandedOver(s, blocks[..taken]);
    assert taken == 0 ==> s.free - SetOf(blocks[..taken]) == s.free;
  }

  lemma FirstOf(blocks: seq<Block>, k: nat)
    requires Distinct(blocks) && k <= |blocks|
    ensures Distinct(blocks[..k]) && SetOf(blocks[..k]) <= SetOf(blocks)
  {
  }

  // The ownership map, pointwise.
  lemma {:induction false} HandedOverAt(owned: map<Block, Kind>, blocks: seq<Block>, b: Block)
    ensures b in HandOver(owned, blocks) <==> b in owned || b in SetOf(blocks)
    ensures b in SetOf(blocks) ==> HandOver(owned, blocks)[b] == Telemetry
    ensures b in owned && b !in SetOf(blocks) ==> HandOver(owned, blocks)[b] == owned[b]
  {
    if blocks != [] {
      var init, last := blocks[..|blocks| - 1], blocks[|blocks| - 1];
      assert blocks == init + [last];
      HandedOverAt(owned, init, b);
    }
  }

  lemma {:induction false} SizeOf(blocks: seq<Block>)
    requires Distinct(blocks)
    ensures |SetOf(blocks)| == |blocks|
  {
    if blocks != [] {
      var init, last := blocks[..|blocks| - 1], blocks[|blocks| - 1];
      assert blocks == init + [last];
      SizeOf(init);
      AppendNew(init, last);
    }
  }

  lemma HandedOver(s: State, blocks: seq<Block>)
    requires Distinct(blocks) && SetOf(blocks) <= s.free && s.free !! s.owned.Keys
    ensures TookTelemetry(s, |blocks|, s.(free := s.free - SetOf(blocks), owned := HandOver(s.owned, blocks)))
  {
    hide HandOver, TookTelemetry;
    SizeOf(blocks);
    HandedOverAll(s.owned, blocks);
    hide SetOf, Distinct;
    TakenIsTook(s, SetOf(blocks), HandOver(s.owned, blocks));
  }

  lemma TakenIsTook(s: State, taken: set<Block>, owned: map<Block, Kind>)
    requires taken <= s.free && owned.Keys == s.owned.Keys + taken
    requires forall b :: b in taken ==> owned[b] == Telemetry
    requires forall b :: b in s.owned && b !in taken ==> owned[b] == s.owned[b]
    ensures TookTelemetry(s, |taken|, s.(free := s.free - taken, owned := owned))
  {
    assert s.free - (s.free - taken) == taken;
  }

  lemma HandedOverAll(owned: map<Block, Kind>, blocks: seq<Block>)
    ensures HandOver(owned, blocks).Keys == owned.Keys + SetOf(blocks)
    ensures forall b :: b in SetOf(blocks) ==> HandOver(owned, blocks)[b] == Telemetry
    ensures forall b :: b in owned && b !in SetOf(blocks) ==> HandOver(owned, blocks)[b] == owned[b]
  {
    HandOverKeys(owned, blocks);
    forall b | b in owned.Keys + SetOf(blocks)
      ensures HandOver(owned, blocks)[b] == if b in SetOf(blocks) then Telemetry else owned[b]
    {
      HandedOverAt(owned, blocks, b);
    }
  }

  // With a request for each record that fits alone, everything goes out.
  lemma TimeseriesGoOut(c: Config, s: State, ts: seq<TimeseriesText.Record>, hints: seq<Block>, accept: seq<bool>)
    returns (n: nat)
    requires s.phase == Connecting || s.phase == Connected
    requires s.free <= AllBlocks(c.size) && s.free !! s.owned.Keys && c.size <= |accept| && AllTrue(accept, c.size)
    requires Batching.EachFitsAlone(ts, c.cap) && |ts| <= |s.free|
    requires |Paths.PathText(Paths.TelemetryPath(c.dtls, c.accessToken, s.token))| + 1 <= c.pathCap
    ensures Least(ts, c.cap, n)
    ensures var (r, status) := Perform(c, s, CallSendTimeseries(ts, hints, accept));
            status == Ok && TookTelemetry(s, n, r)
  {
    Batching.EnoughRequestsSuffice(ts, c.cap, |s.free|);
    Batching.PlanExistsIffSplitExists(ts, c.cap, |s.free|);
    n := LeastOf(ts, c.cap, |s.free|);
    FreeWithin(s.free, c.size);
    TimeseriesSends(c, s, ts, hints, accept, n, n);
  }

  lemma {:induction false} LeastOf(ts: seq<TimeseriesText.Record>, cap: nat, free: nat) returns (n: nat)
    requires Batching.CanSplit(ts, cap, free)
    ensures n <= free && Least(ts, cap, n)
    decreases free
  {
    n := free;
    if free > 0 && Batching.CanSplit(ts, cap, free - 1) {
      n := LeastOf(ts, cap, free - 1);
    }
  }
}
