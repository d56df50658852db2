/** Timeseries in the Protobuf build: one message per call, or an error. */
module ProtobufTimeseries {
  import opened Wrappers

  // A record is written in three pieces: field tag, length, and the submessage itself.
  datatype Sizes = Sizes(tag: nat, length: nat, body: nat)

  function Size(r: Sizes): nat {
    r.tag + r.length + r.body
  }

  function Sum(records: seq<Sizes>): nat {
    if records == [] then 0 else Sum(records[..|records| - 1]) + Size(records[|records| - 1])
  }

  lemma {:induction false} SumGrows(records: seq<Sizes>, i: nat)
    requires i <= |records|
    ensures Sum(records[..i]) <= Sum(records)
    decreases |records|
  {
    if i == |records| {
      assert records[..i] == records;
    } else {
      SumGrows(records[..|records| - 1], i);
      assert records[..|records| - 1][..i] == records[..i];
    }
  }

  // The output stream takes a piece as a whole or not at all.
  method WriteRecord(r: Sizes, written: nat, cap: nat) returns (ok: bool, written': nat)
    requires written <= cap
    ensures ok <==> written + Size(r) <= cap
    ensures ok ==> written' == written + Size(r)
    ensures written <= written' <= cap
  {
    written' := written;
    if cap - written' < r.tag {
      return false, written';
    }
    written' := written' + r.tag;
    if cap - written' < r.length {
      return false, written';
    }
    written' := written' + r.length;
    if cap - written' < r.body {
      return false, written';
    }
    return true, written' + r.body;
  }

  // After a failure the bytes written may include tag and length of the record that did not fit.
  method TimeseriesEncode(records: seq<Sizes>, cap: nat) returns (status: Status, encoded: nat, written: nat)
    ensures status == if Sum(records) <= cap then Ok else Err(EFAULT)
    ensures encoded <= |records| && Sum(records[..encoded]) <= written <= cap
    ensures status.Ok? ==> written == Sum(records)
    ensures status.Ok? <==> encoded == |records|
    ensures encoded < |records| ==> Sum(records[..encoded + 1]) > cap
  {
    encoded, written := 0, 0;
    while encoded < |records|
      invariant encoded <= |records| && written == Sum(records[..encoded]) <= cap
    {
      assert records[..encoded + 1][..encoded] == records[..encoded];
      SumGrows(records, encoded + 1);
      var ok;
      ok, written := WriteRecord(records[encoded], written, cap);
      if !ok {
        status := Err(EFAULT);
        return;
      }
      encoded := encoded + 1;
    }
    assert records[..encoded] == records;
    status := Ok;
  }

  // The prepare phase with this encoder: all records go into one request, or the call fails. free:
  // the number of free requests.
  method Prepare(records: seq<Sizes>, cap: nat, free: nat) returns (status: Status, batches: seq<seq<Sizes>>)
    requires records != []
    ensures status == if free == 0 then Err(ENOMEM) else if Sum(records) <= cap then Ok else Err(EINVAL)
    ensures status.Ok? ==> batches == [records]
  {
    batches := [];
    var sent: nat := 0;
    while |records| - sent > 0
      invariant sent <= |records|
      invariant if sent == 0 then batches == []
                else sent == |records| && batches == [records] && free > 0 && Sum(records) <= cap
    {
      if |batches| == free {
        return Err(ENOMEM), batches;
      }
      assert records[sent..] == records;
      var encoding, count, len := TimeseriesEncode(records[sent..], cap);
      if encoding.Err? {
        return Err(EINVAL), batches;
      }
      assert records[sent..sent + count] == records;
      batches := batches + [records[sent..sent + count]];
      sent := sent + count;
    }
    status := Ok;
  }
}
