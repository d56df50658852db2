/**
 A JSON array of timeseries records, built by hand into a fixed-size buffer.

 The encoder of a single record is the JSON library's. Here a record stands for what that
 library makes of it: a text, which is empty when no field is present, or an error.
 */
module TimeseriesText {
  import opened Wrappers
  import opened CStrings

  datatype Record = Encodable(text: string) | Unencodable

  ghost predicate AllEncodable(batch: seq<Record>) {
    forall i :: 0 <= i < |batch| ==> batch[i].Encodable?
  }

  // Record texts separated by commas.
  function Joined(batch: seq<Record>): string
    requires AllEncodable(batch)
  {
    if |batch| == 0 then "" else if |batch| == 1 then batch[0].text
    else Joined(batch[..|batch| - 1]) + "," + batch[|batch| - 1].text
  }

  function ArrayText(batch: seq<Record>): string
    requires AllEncodable(batch)
  {
    "[" + Joined(batch) + "]"
  }

  // Bytes that must remain behind a record: closing bracket and terminator, and for a record
  // with any text also the terminator that the library itself insists on.
  function Reserve(r: Record): nat
    requires r.Encodable?
  {
    if r.text == "" then 2 else 3
  }

  // The reservation rule: the batches that the encoder packs completely into cap bytes.
  ghost predicate Accepts(batch: seq<Record>, cap: nat) {
    && AllEncodable(batch)
    && if batch == [] then 3 <= cap else 1 + |Joined(batch)| + Reserve(batch[|batch| - 1]) <= cap
  }

  // The room that the texts take together.
  function Bytes(batch: seq<Record>): nat
    requires AllEncodable(batch)
  {
    if batch == [] then 0 else Bytes(batch[..|batch| - 1]) + |batch[|batch| - 1].text|
  }

  // The rule in numbers: the texts, a comma between any two, the opening bracket, and behind them
  // two bytes, or three if the last text is not empty.
  lemma AcceptsIff(batch: seq<Record>, cap: nat)
    requires AllEncodable(batch)
    ensures Accepts(batch, cap) <==>
            if batch == [] then 3 <= cap
            else 1 + Bytes(batch) + (|batch| - 1) + (if batch[|batch| - 1].text == "" then 2 else 3) <= cap
  {
    JoinedBytes(batch);
  }

  lemma {:induction false} JoinedBytes(batch: seq<Record>)
    requires AllEncodable(batch)
    ensures |Joined(batch)| == Bytes(batch) + if batch == [] then 0 else |batch| - 1
  {
    if |batch| == 1 {
      assert batch[..0] == [];
    } else if |batch| > 1 {
      JoinedBytes(batch[..|batch| - 1]);
    }
  }

  lemma JoinedSnoc(batch: seq<Record>, r: Record)
    requires AllEncodable(batch) && r.Encodable?
    ensures AllEncodable(batch + [r])
    ensures Joined(batch + [r]) == (if batch == [] then "" else Joined(batch) + ",") + r.text
  {
  }

  lemma AcceptsInit(batch: seq<Record>, cap: nat)
    requires batch != [] && Accepts(batch, cap)
    ensures Accepts(batch[..|batch| - 1], cap)
  {
  }

  lemma {:induction false} AcceptsPrefix(batch: seq<Record>, cap: nat, k: nat)
    requires Accepts(batch, cap) && k <= |batch|
    ensures Accepts(batch[..k], cap)
  {
    if k == |batch| {
      assert batch[..k] == batch;
    } else {
      AcceptsInit(batch, cap);
      AcceptsPrefix(batch[..|batch| - 1], cap, k);
      assert batch[..|batch| - 1][..k] == batch[..k];
    }
  }

  lemma {:induction false} JoinedTailShorter(batch: seq<Record>)
    requires batch != [] && AllEncodable(batch)
    ensures |Joined(batch[1..])| <= |Joined(batch)|
  {
    if |batch| > 1 {
      var init, last := batch[..|batch| - 1], batch[|batch| - 1];
      JoinedTailShorter(init);
      assert batch == init + [last] && batch[1..] == init[1..] + [last];
      JoinedSnoc(init, last);
      JoinedSnoc(init[1..], last);
    }
  }

  lemma {:induction false} AcceptsSuffix(batch: seq<Record>, cap: nat, k: nat)
    requires Accepts(batch, cap) && k <= |batch|
    ensures Accepts(batch[k..], cap)
  {
    if k == 0 {
      assert batch[0..] == batch;
    } else {
      JoinedTailShorter(batch);
      assert |batch| > 1 ==> batch[1..][|batch| - 2] == batch[|batch| - 1];
      AcceptsSuffix(batch[1..], cap, k - 1);
      assert batch[1..][k - 1..] == batch[k..];
    }
  }

  // The longest accepted prefix, by searching upwards.
  ghost function LongestFrom(ts: seq<Record>, cap: nat, k: nat): (n: nat)
    requires k <= |ts|
    ensures k <= n <= |ts|
    decreases |ts| - k
  {
    if k < |ts| && Accepts(ts[..k + 1], cap) then LongestFrom(ts, cap, k + 1) else k
  }

  ghost function Longest(ts: seq<Record>, cap: nat): (n: nat)
    ensures n <= |ts|
  {
    LongestFrom(ts, cap, 0)
  }

  lemma {:induction false} LongestFromIsLongest(ts: seq<Record>, cap: nat, k: nat)
    requires k <= |ts| && Accepts(ts[..k], cap)
    ensures Accepts(ts[..LongestFrom(ts, cap, k)], cap)
    ensures LongestFrom(ts, cap, k) < |ts| ==> !Accepts(ts[..LongestFrom(ts, cap, k) + 1], cap)
    decreases |ts| - k
  {
    if k < |ts| && Accepts(ts[..k + 1], cap) {
      LongestFromIsLongest(ts, cap, k + 1);
    }
  }

  // The prefixes the encoder could pack are exactly those no longer than the one it does pack.
  lemma LongestIsMaximal(ts: seq<Record>, cap: nat, k: nat)
    requires 3 <= cap && k <= |ts|
    ensures Accepts(ts[..k], cap) <==> k <= Longest(ts, cap)
  {
    var n := Longest(ts, cap);
    LongestFromIsLongest(ts, cap, 0);
    if k <= n {
      AcceptsPrefix(ts[..n], cap, k);
      assert ts[..n][..k] == ts[..k];
    } else {
      assert ts[..k][..n + 1] == ts[..n + 1];
      if Accepts(ts[..k], cap) {
        AcceptsPrefix(ts[..k], cap, n + 1);
      }
    }
  }

  lemma LongestUnique(ts: seq<Record>, cap: nat, n: nat)
    requires 3 <= cap && n <= |ts| && Accepts(ts[..n], cap)
    requires n < |ts| ==> !Accepts(ts[..n + 1], cap)
    ensures n == Longest(ts, cap)
  {
    LongestIsMaximal(ts, cap, n);
    if n < |ts| {
      LongestIsMaximal(ts, cap, n + 1);
    }
  }

  // The encoder fails for a buffer without room for "[]", and when the record after the
  // longest prefix cannot be encoded at all although there is still room to try it.
  ghost predicate EncodeSucceeds(ts: seq<Record>, cap: nat) {
    3 <= cap && (Longest(ts, cap) < |ts| ==> !Chokes(ts, Longest(ts, cap), cap))
  }

  // Record n is tried after the n records before it, and the library rejects it.
  ghost predicate Chokes(ts: seq<Record>, n: nat, cap: nat)
    requires n < |ts|
  {
    ts[n].Unencodable? && (n == 0 || (AllEncodable(ts[..n]) && 1 + |Joined(ts[..n])| + 3 <= cap))
  }

  datatype EntryResult = Written(count: nat) | NoSpace | Failed

  // The contract of the JSON library for one record: it may scribble on the space it was given.
  method EncodeEntry(r: Record, buffer: array<char>, pos: nat, space: nat) returns (result: EntryResult)
    requires pos + space <= buffer.Length
    modifies buffer
    ensures buffer[..pos] == old(buffer[..pos]) && buffer[pos + space..] == old(buffer[pos + space..])
    ensures result.Failed? <==> r.Unencodable?
    ensures r.Encodable? ==> (result.Written? <==> r.text == "" || |r.text| + 1 <= space)
    ensures result.Written? ==> result.count == |r.text| <= space && buffer[pos..pos + result.count] == r.text
  {
    if r.Unencodable? {
      return Failed;
    }
    if r.text == "" {
      return Written(0);
    }
    var fits := |r.text| + 1 <= space;
    var copied := if fits then |r.text| else space;
    forall k | 0 <= k < copied {
      buffer[pos + k] := r.text[k];
    }
    if !fits {
      return NoSpace;
    }
    ghost var text := buffer[pos..pos + copied];
    buffer[pos + copied] := NUL;
    assert buffer[pos..pos + copied] == text == r.text;
    return Written(copied);
  }

  // Invariant of the encoder's loop once i records are in.
  ghost predicate Packed(ts: seq<Record>, i: nat, cap: nat, written: seq<char>) {
    && i <= |ts|
    && Accepts(ts[..i], cap)
    && written == "[" + Joined(ts[..i])
    && |written| + 2 <= cap
  }

  lemma PackedStep(ts: seq<Record>, i: nat, cap: nat, written: seq<char>)
    requires Packed(ts, i, cap, written) && i < |ts|
    ensures var room := cap - |written| - (if i > 0 then 1 else 0);
            && |written| + 2 <= cap
            && (Chokes(ts, i, cap) <==> ts[i].Unencodable? && (i == 0 || room >= 2))
            && (i > 0 && room < 2 ==> !Accepts(ts[..i + 1], cap))
            && (Accepts(ts[..i + 1], cap) ==>
                  ts[i].Encodable? && (ts[i].text == "" || |ts[i].text| + 1 <= room - 2))
            && (ts[i].Encodable? && room >= 2 && (ts[i].text == "" || |ts[i].text| + 1 <= room - 2) ==>
                  Packed(ts, i + 1, cap, written + (if i > 0 then "," else "") + ts[i].text))
  {
    assert ts[..i + 1] == ts[..i] + [ts[i]];
    if ts[i].Encodable? {
      JoinedSnoc(ts[..i], ts[i]);
    } else {
      assert ts[..i + 1][i] == ts[i];
    }
  }

  // The library may use the space left, less two bytes for the closing bracket and the terminator.
  method EncodeReserved(r: Record, buffer: array<char>, pos: nat, left: nat, ghost cap: nat)
    returns (result: EntryResult)
    requires left >= 2 && pos + left == cap <= buffer.Length
    modifies buffer
    ensures buffer[..pos] == old(buffer[..pos]) && buffer[cap..] == old(buffer[cap..])
    ensures result.Failed? <==> r.Unencodable?
    ensures r.Encodable? ==> (result.Written? <==> r.text == "" || |r.text| + 1 <= left - 2)
    ensures result.Written? ==> result.count == |r.text| <= left - 2
    ensures result.Written? ==> buffer[..pos + result.count] == old(buffer[..pos]) + r.text
  {
    ghost var before, behind := buffer[..pos], buffer[cap - 2..];
    assert buffer[cap..] == behind[2..];
    result := EncodeEntry(r, buffer, pos, left - 2);
    assert buffer[cap..] == behind[2..];
    assert result.Written? ==> buffer[..pos + result.count] == before + r.text;
  }

  datatype Step = Took | Full | Rejected

  // One turn of the loop: comma, record, and removal of the comma after a record that did not fit.
  method PackRecord(ts: seq<Record>, i: nat, buffer: array<char>, pos: nat, left: nat, ghost cap: nat)
    returns (step: Step, pos': nat, left': nat)
    requires i < |ts| && pos + left == cap <= buffer.Length
    requires Packed(ts, i, cap, buffer[..pos])
    modifies buffer
    ensures buffer[cap..] == old(buffer[cap..])
    ensures pos' + left' == cap
    ensures step.Took? ==> Packed(ts, i + 1, cap, buffer[..pos'])
    ensures step.Full? ==> buffer[..pos'] == old(buffer[..pos]) && !Accepts(ts[..i + 1], cap)
    ensures step.Rejected? ==> !Accepts(ts[..i + 1], cap)
    ensures step.Rejected? <==> Chokes(ts, i, cap)
  {
    ghost var written := buffer[..pos];
    PackedStep(ts, i, cap, written);
    hide *;
    pos', left' := pos, left;
    if i > 0 {
      if left' <= 2 {
        return Full, pos', left';
      }
      buffer[pos'] := ',';
      pos' := pos' + 1;
      left' := left' - 1;
    }
    ghost var upTo := buffer[..pos'];
    assert upTo == written + (if i > 0 then "," else "");
    var result := EncodeReserved(ts[i], buffer, pos', left', cap);
    match result
    case NoSpace =>
      if i > 0 {
        left' := left' + 1;
        pos' := pos' - 1;
      }
      assert buffer[..pos'] == upTo[..pos'] == written;
      step := Full;
    case Failed =>
      step := Rejected;
    case Written(n) =>
      pos' := pos' + n;
      left' := left' - n;
      step := Took;
  }

  method TimeseriesEncode(ts: seq<Record>, buffer: array<char>, cap: nat)
    returns (status: Status, count: nat, len: nat)
    requires cap <= buffer.Length
    modifies buffer
    ensures buffer[cap..] == old(buffer[cap..])
    ensures status == if cap < 3 then Err(ENOMEM) else if EncodeSucceeds(ts, cap) then Ok else Err(EINVAL)
    ensures status.Ok? ==>
              && count == Longest(ts, cap) && AllEncodable(ts[..count])
              && len == |ArrayText(ts[..count])| && len + 1 <= cap
              && buffer[..len] == ArrayText(ts[..count]) && buffer[len] == NUL
  {
    if cap < 3 {
      return Err(ENOMEM), 0, 0;
    }
    buffer[0] := '[';
    var pos: nat, left: nat := 1, cap - 1;
    var i := 0;
    assert buffer[..1] == "[" + Joined(ts[..0]);
    while i < |ts|
      invariant 0 <= i <= |ts| && pos + left == cap
      invariant Packed(ts, i, cap, buffer[..pos])
      invariant buffer[cap..] == old(buffer[cap..])
    {
      var step;
      step, pos, left := PackRecord(ts, i, buffer, pos, left, cap);
      if step == Full {
        break;
      }
      if step == Rejected {
        LongestUnique(ts, cap, i);
        return Err(EINVAL), 0, 0;
      }
      i := i + 1;
    }
    LongestUnique(ts, cap, i);
    assert EncodeSucceeds(ts, cap);
    if left < 2 {
      assert false;  // the check after the loop never fires
    }
    len := CloseArray(buffer, pos, ts[..i]);
    return Ok, i, len;
  }

  // Closing bracket and terminator.
  method CloseArray(buffer: array<char>, pos: nat, ghost batch: seq<Record>) returns (len: nat)
    requires pos + 2 <= buffer.Length
    requires AllEncodable(batch) && buffer[..pos] == "[" + Joined(batch)
    modifies buffer
    ensures len == pos + 1 == |ArrayText(batch)|
    ensures buffer[..len] == ArrayText(batch) && buffer[len] == NUL
    ensures buffer[len + 1..] == old(buffer[len + 1..])
  {
    buffer[pos] := ']';
    len := pos + 1;
    buffer[len] := NUL;
  }
}
