/** What the server can read from the messages of one send. */
module Delivery {
  import opened Wrappers
  import opened TimeseriesText
  import opened ArrayRoundTrip
  import opened Batching
  import opened RequestPool
  import opened SendTimeseries
  import opened Sequences

  // All items of the arrays in the messages, in order.
  function Received(messages: seq<Message>): Option<seq<string>> {
    if messages == [] then Some([]) else
      match (ParseArray(messages[0].body), Received(messages[1..]))
      case (Some(items), Some(rest)) => Some(items + rest)
      case (_, _) => None
  }

  ghost predicate AllObjects(ts: seq<Record>) {
    forall i :: 0 <= i < |ts| ==> ts[i].Encodable? && IsObject(ts[i].text)
  }

  lemma ObjectsReceived(batch: seq<Record>)
    requires AllObjects(batch)
    ensures ParseArray(ArrayText(batch)) == Some(Texts(batch))
  {
    ArrayRoundTrips(batch);
  }

  lemma SplitObjects(batch: seq<Record>, rest: seq<Record>)
    requires AllObjects(batch + rest)
    ensures AllObjects(batch) && AllObjects(rest)
    ensures Texts(batch + rest) == Texts(batch) + Texts(rest)
  {
    assert forall i :: 0 <= i < |batch| ==> batch[i] == (batch + rest)[i];
    assert forall i :: 0 <= i < |rest| ==> rest[i] == (batch + rest)[|batch| + i];
  }

  lemma {:induction false} ReceivedBatches(path: string, batches: seq<seq<Record>>, ts: seq<Record>)
    requires Flatten(batches) == ts && AllObjects(ts)
    ensures Received(BatchMessages(path, batches)) == Some(Texts(ts))
  {
    var messages := BatchMessages(path, batches);
    if batches != [] {
      var first, rest := batches[0], Flatten(batches[1..]);
      SplitObjects(first, rest);
      ReceivedBatches(path, batches[1..], rest);
      assert messages[1..] == BatchMessages(path, batches[1..]);
      ObjectsReceived(first);
    }
  }

  lemma {:induction false} FlattenPrefix(batches: seq<seq<Record>>, k: nat)
    requires k <= |batches|
    ensures Flatten(batches[..k]) <= Flatten(batches)
  {
    if k > 0 {
      assert batches[..k][1..] == batches[1..][..k - 1];
      FlattenPrefix(batches[1..], k - 1);
    }
  }

  lemma {:induction false} FlattenStrict(batches: seq<seq<Record>>, k: nat)
    requires k < |batches| && AllNonEmpty(batches)
    ensures |Flatten(batches[..k])| < |Flatten(batches)|
  {
    if k > 0 {
      assert batches[..k][1..] == batches[1..][..k - 1];
      FlattenStrict(batches[1..], k - 1);
    }
  }

  ghost predicate NoneEmpty(ts: seq<Record>)
    requires AllEncodable(ts)
  {
    forall i :: 0 <= i < |ts| ==> ts[i].text != ""
  }

  // A batch with a record without fields yields fewer items, or no array at all.
  lemma BatchParsed(batch: seq<Record>)
    requires EmptyOrObjects(batch)
    ensures var items := ParseArray(ArrayText(batch));
            items.Some? ==> |items.value| <= |batch| && (|items.value| == |batch| ==> NoneEmpty(batch))
  {
    ArrayRoundTrips(batch);
    if i :| 0 <= i < |batch| && batch[i].text == "" {
      var text, inner := ArrayText(batch), Joined(batch);
      assert text[1..|text| - 1] == inner;
      if |batch| > 1 {
        JoinedCons(batch);
        SplitJoined(batch);
        assert Texts(batch)[i] == "";
      }
    }
  }

  lemma SplitNoneEmpty(batch: seq<Record>, rest: seq<Record>)
    requires EmptyOrObjects(batch + rest)
    ensures EmptyOrObjects(batch) && EmptyOrObjects(rest)
    ensures NoneEmpty(batch + rest) <==> NoneEmpty(batch) && NoneEmpty(rest)
  {
    assert forall i :: 0 <= i < |batch| ==> batch[i] == (batch + rest)[i];
    assert forall i :: 0 <= i < |rest| ==> rest[i] == (batch + rest)[|batch| + i];
  }

  lemma {:induction false} ReceivedAtMost(path: string, batches: seq<seq<Record>>, ts: seq<Record>)
    requires Flatten(batches) == ts && EmptyOrObjects(ts)
    ensures var received := Received(BatchMessages(path, batches));
            received.Some? ==> |received.value| <= |ts| && (|received.value| == |ts| ==> NoneEmpty(ts))
  {
    if batches != [] {
      var first, rest := batches[0], Flatten(batches[1..]);
      SplitNoneEmpty(first, rest);
      ReceivedAtMost(path, batches[1..], rest);
      assert BatchMessages(path, batches)[1..] == BatchMessages(path, batches[1..]);
      BatchParsed(first);
    }
  }

  // What the server has received when the first k requests were accepted: all records in order, none
  // twice, exactly if that were all requests and every record has a field; otherwise, if every
  // record has one, the records before the rejected request.
  lemma SendDeliversRecords(ts: seq<Record>, cap: nat, free: nat, path: string, k: nat)
    requires MakePlan(ts, cap, free).Planned? && EmptyOrObjects(ts)
    requires k <= |MakePlan(ts, cap, free).batches|
    ensures var batches := MakePlan(ts, cap, free).batches;
            var received := Received(BatchMessages(path, batches[..k]));
            && (received == Some(Texts(ts)) <==> k == |batches| && NoneEmpty(ts))
            && (NoneEmpty(ts) ==> received.Some? && received.value <= Texts(ts))
  {
    hide MakePlan, ArrayText, IsObject;
    var batches := MakePlan(ts, cap, free).batches;
    PlanIsSplit(ts, cap, free);
    var part := Flatten(batches[..k]);
    FlattenPrefix(batches, k);
    assert ts == part + ts[|part|..];
    SplitNoneEmpty(part, ts[|part|..]);
    ReceivedAtMost(path, batches[..k], part);
    if NoneEmpty(ts) {
      ReceivedBatches(path, batches[..k], part);
      assert Texts(part) == Texts(ts)[..|part|];
    }
    if k < |batches| {
      FlattenStrict(batches, k);
    } else {
      assert batches[..k] == batches;
    }
  }

  // A whole call, read from what the CoAP client has accepted in it.
  method SendAndReceive(sender: Sender, ts: seq<Record>, active: bool, known: bool, hints: seq<Block>,
                        accept: seq<bool>)
    returns (outcome: Outcome, ghost received: Option<seq<string>>)
    requires sender.Valid() && ts != [] && sender.pool.size <= |accept| && EmptyOrObjects(ts)
    modifies sender`sent, sender.pool, sender.payload
    ensures sender.Valid() && old(sender.sent) <= sender.sent
    ensures received == Received(sender.sent[|old(sender.sent)|..])
    ensures received == Some(Texts(ts)) <==> outcome.Delivered? && NoneEmpty(ts)
    ensures NoneEmpty(ts) ==> received.Some? && received.value <= Texts(ts)
  {
    hide MakePlan, UncheckedPlan, EmptyOrObjects, ArrayText;
    ghost var cap, free, before := sender.cap, |sender.pool.free|, sender.sent;
    UncheckedRunsOut(ts, cap, free);
    var stray, tripped;
    ghost var plan, blocks;
    outcome, stray, tripped, plan, blocks := sender.SendTimeseries(ts, active, known, hints, accept);
    received := Received(sender.sent[|before|..]);
    if active && plan.Planned? {
      SendDeliversRecords(ts, cap, free, sender.Path(known), |blocks|);
    }
  }
}
