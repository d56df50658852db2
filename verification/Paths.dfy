/** CoAP request paths: the in-place concatenation of segments and its inverse. */
module Paths {
  import opened Wrappers
  import opened CStrings

  // Every segment is preceded by a slash.
  function PathText(segments: seq<string>): string {
    if segments == [] then "" else "/" + segments[0] + PathText(segments[1..])
  }

  // The sum over all segments of their length plus one.
  function PathSize(segments: seq<string>): nat {
    if segments == [] then 0 else |segments[0]| + 1 + PathSize(segments[1..])
  }

  // The path of telemetry requests. Without DTLS it names the access token, and as long as none is
  // known the list of segments ends there.
  function TelemetryPath(dtls: bool, token: string, known: bool): seq<string> {
    if dtls then ["api", "v1", "telemetry"]
    else if known then ["api", "v1", token, "telemetry"]
    else ["api", "v1"]
  }

  lemma PathTextCons(segment: string, rest: seq<string>)
    ensures PathText([segment] + rest) == "/" + segment + PathText(rest)
  {
    assert ([segment] + rest)[1..] == rest;
  }

  lemma ApiText(rest: seq<string>)
    ensures PathText(["api", "v1"] + rest) == "/api/v1" + PathText(rest)
  {
    hide PathText;
    assert ["api", "v1"] + rest == ["api"] + (["v1"] + rest);
    PathTextCons("api", ["v1"] + rest);
    PathTextCons("v1", rest);
    assert "/" + "api" + ("/" + "v1" + PathText(rest)) == "/api/v1" + PathText(rest);
  }

  lemma LastText(segment: string)
    ensures PathText([segment]) == "/" + segment
  {
    assert [segment] + [] == [segment];
    PathTextCons(segment, []);
  }

  lemma TelemetryPathText(dtls: bool, token: string, known: bool)
    ensures PathText(TelemetryPath(dtls, token, known)) ==
            if dtls then "/api/v1/telemetry" else if known then "/api/v1/" + token + "/telemetry" else "/api/v1"
  {
    LastText("telemetry");
    assert PathText([]) == "";
    hide PathText;
    if dtls {
      ApiText(["telemetry"]);
      assert "/api/v1" + ("/" + "telemetry") == "/api/v1/telemetry";
    } else if known {
      ApiText([token, "telemetry"]);
      PathTextCons(token, ["telemetry"]);
      assert [token] + ["telemetry"] == [token, "telemetry"];
      assert "/api/v1" + ("/" + token + ("/" + "telemetry")) == "/api/v1/" + token + "/telemetry";
    } else {
      ApiText([]);
      assert ["api", "v1"] + [] == ["api", "v1"];
    }
  }

  lemma TelemetryPathHasNoNul(dtls: bool, token: string, known: bool)
    requires NUL !in token
    ensures forall s :: s in TelemetryPath(dtls, token, known) ==> NUL !in s
  {
  }

  predicate Fits(segments: seq<string>, size: nat) {
    PathSize(segments) + 1 <= size
  }

  // The server's view: cut at slashes.
  function SplitPath(path: string): seq<string> {
    if path == "" then [] else
      var segment := UpToSlash(path[1..]);
      [segment] + SplitPath(path[1 + |segment|..])
  }

  function UpToSlash(s: string): (r: string)
    ensures |r| <= |s| && r == s[..|r|] && '/' !in r
    ensures |r| < |s| ==> s[|r|] == '/'
  {
    if s == "" || s[0] == '/' then "" else [s[0]] + UpToSlash(s[1..])
  }

  // A segment that survives in a NUL-terminated, slash-separated path.
  predicate Plain(segment: string) {
    '/' !in segment && NUL !in segment
  }

  lemma {:induction false} PathTextSize(segments: seq<string>)
    ensures |PathText(segments)| == PathSize(segments)
  {
    if segments != [] {
      PathTextSize(segments[1..]);
    }
  }

  lemma PathTextStep(segments: seq<string>, i: nat)
    requires i < |segments|
    ensures PathText(segments[i..]) == "/" + segments[i] + PathText(segments[i + 1..])
  {
  }

  // A buffer whose first bytes have been overwritten with text.
  function Overwritten(buffer: seq<char>, text: string): (r: seq<char>)
    requires |text| <= |buffer|
    ensures |r| == |buffer|
  {
    text + buffer[|text|..]
  }

  // memcpy of a string to position pos of a buffer.
  method Put(out: array<char>, pos: nat, text: string)
    requires pos + |text| <= out.Length
    modifies out
    ensures out[..] == old(out[..pos]) + text + old(out[pos + |text|..])
  {
    forall k | 0 <= k < |text| {
      out[pos + k] := text[k];
    }
  }

  lemma OverwrittenAppend(buffer: seq<char>, done: string, text: string)
    requires |done| + |text| <= |buffer|
    ensures var r := Overwritten(buffer, done);
            r[..|done|] + text + r[|done| + |text|..] == Overwritten(buffer, done + text)
  {
  }

  // One turn of the loop: a slash and a segment, each checked against the space left.
  method PutSegment(segment: string, out: array<char>, pos: nat) returns (status: Status, written: nat)
    requires pos <= out.Length
    modifies out
    ensures status == if pos + 1 + |segment| <= out.Length then Ok else Err(ENOMEM)
    ensures written <= 1 + |segment| && pos + written <= out.Length
    ensures status.Ok? ==> written == 1 + |segment|
    ensures out[..] == old(out[..pos]) + ("/" + segment)[..written] + old(out[pos + written..])
  {
    var left := out.Length - pos;
    if left < 1 {
      return Err(ENOMEM), 0;
    }
    Put(out, pos, "/");
    left := left - 1;
    if left < |segment| {
      assert ("/" + segment)[..1] == "/";
      return Err(ENOMEM), 1;
    }
    Put(out, pos + 1, segment);
    assert ("/" + segment)[..1 + |segment|] == "/" + segment;
    return Ok, 1 + |segment|;
  }

  // What a failed call leaves: some prefix of the path, the rest of the buffer untouched.
  ghost predicate IsCutPath(segments: seq<string>, before: seq<char>, after: seq<char>) {
    exists n: nat :: n <= |PathText(segments)| && n <= |before| &&
                     after == Overwritten(before, PathText(segments)[..n])
  }

  lemma CutPath(segments: seq<string>, before: seq<char>, after: seq<char>, text: string, rest: string)
    requires text + rest == PathText(segments)
    requires |text| <= |before| && after == Overwritten(before, text)
    ensures IsCutPath(segments, before, after)
  {
    assert PathText(segments)[..|text|] == text;
  }

  // Invariant of the loop: text is what was written, and the rest of the path is still to come.
  ghost predicate Writing(segments: seq<string>, i: nat, before: seq<char>, now: seq<char>, text: string) {
    && i <= |segments|
    && |text| <= |before|
    && text + PathText(segments[i..]) == PathText(segments)
    && now == Overwritten(before, text)
  }

  lemma WritingStart(segments: seq<string>, before: seq<char>)
    ensures Writing(segments, 0, before, before, "")
  {
    assert segments[0..] == segments;
  }

  lemma WritingStep(segments: seq<string>, i: nat, before: seq<char>, was: seq<char>, text: string,
                    now: seq<char>, written: nat)
    requires i < |segments| && Writing(segments, i, before, was, text)
    requires written <= 1 + |segments[i]| && |text| + written <= |before|
    requires now == was[..|text|] + ("/" + segments[i])[..written] + was[|text| + written..]
    ensures written == 1 + |segments[i]| ==> Writing(segments, i + 1, before, now, text + "/" + segments[i])
    ensures IsCutPath(segments, before, now)
    ensures |text| + 1 + |segments[i]| <= |PathText(segments)|
  {
    var segment, rest := "/" + segments[i], PathText(segments[i + 1..]);
    PathTextStep(segments, i);
    OverwrittenAppend(before, text, segment[..written]);
    CutPath(segments, before, now, text + segment[..written], segment[written..] + rest);
    if written == 1 + |segments[i]| {
      assert segment[..written] == segment;
      assert text + "/" + segments[i] == text + segment;
    }
  }

  lemma WritingDone(segments: seq<string>, before: seq<char>, now: seq<char>, text: string)
    requires Writing(segments, |segments|, before, now, text)
    ensures text == PathText(segments) && now == Overwritten(before, text)
    ensures IsCutPath(segments, before, now)
  {
    CutPath(segments, before, now, text, "");
  }

  method PutTerminator(out: array<char>, pos: nat, ghost before: seq<char>, ghost text: string) returns (status: Status)
    requires |text| == pos <= out.Length == |before| && out[..] == Overwritten(before, text)
    modifies out
    ensures status == if pos + 1 <= out.Length then Ok else Err(ENOMEM)
    ensures status.Ok? ==> out[..] == Overwritten(before, text + [NUL])
    ensures status.Err? ==> out[..] == old(out[..])
  {
    if out.Length - pos < 1 {
      return Err(ENOMEM);
    }
    OverwrittenAppend(before, text, [NUL]);
    hide Overwritten;
    assert old(out[..pos]) == old(out[..])[..pos] && old(out[pos + 1..]) == old(out[..])[pos + 1..];
    Put(out, pos, [NUL]);
    return Ok;
  }

  method CatPath(segments: seq<string>, out: array<char>) returns (status: Status)
    requires out.Length > 0
    modifies out
    ensures status == if Fits(segments, out.Length) then Ok else Err(ENOMEM)
    ensures PathSize(segments) == |PathText(segments)|
    ensures status.Ok? <==> |PathText(segments)| + 1 <= out.Length
    ensures status.Ok? ==> out[..] == Overwritten(old(out[..]), PathText(segments) + [NUL])
    ensures status.Err? ==> IsCutPath(segments, old(out[..]), out[..])
  {
    PathTextSize(segments);
    ghost var before, text := out[..], "";
    WritingStart(segments, before);
    hide Writing, IsCutPath, Overwritten, PathText;
    var pos: nat := 0;
    var i := 0;
    while i < |segments|
      invariant 0 <= i <= |segments|
      invariant pos == |text| <= out.Length
      invariant Writing(segments, i, before, out[..], text)
    {
      ghost var was := out[..];
      var written;
      status, written := PutSegment(segments[i], out, pos);
      WritingStep(segments, i, before, was, text, out[..], written);
      if status.Err? {
        return;
      }
      text := text + "/" + segments[i];
      pos := pos + written;
      i := i + 1;
    }
    WritingDone(segments, before, out[..], text);
    status := PutTerminator(out, pos, before, text);
  }

  lemma {:induction false} UpToSlashStops(segment: string, rest: string)
    requires '/' !in segment
    requires rest != "" ==> rest[0] == '/'
    ensures UpToSlash(segment + rest) == segment
  {
    if segment == "" {
      assert segment + rest == rest;
    } else {
      assert (segment + rest)[1..] == segment[1..] + rest;
      UpToSlashStops(segment[1..], rest);
    }
  }

  // Splitting undoes joining, for any number of slash-free segments, empty ones included.
  lemma {:induction false} SplitUndoesJoin(segments: seq<string>)
    requires forall s :: s in segments ==> '/' !in s
    ensures SplitPath(PathText(segments)) == segments
  {
    if segments != [] {
      var rest := PathText(segments[1..]);
      var path := PathText(segments);
      assert path == "/" + segments[0] + rest;
      assert path[1..] == segments[0] + rest;
      UpToSlashStops(segments[0], rest);
      assert path[1 + |segments[0]|..] == rest;
      SplitUndoesJoin(segments[1..]);
    }
  }

  // Joining undoes splitting, for every path that begins with a slash.
  lemma {:induction false} JoinUndoesSplit(path: string)
    requires path != "" ==> path[0] == '/'
    ensures PathText(SplitPath(path)) == path
    decreases |path|
  {
    if path != "" {
      var segment := UpToSlash(path[1..]);
      var rest := path[1 + |segment|..];
      assert rest != "" ==> rest[0] == path[1..][|segment|] == '/';
      JoinUndoesSplit(rest);
      assert path == "/" + segment + rest;
    }
  }

  lemma {:induction false} PathTextHasNoNul(segments: seq<string>)
    requires forall s :: s in segments ==> NUL !in s
    ensures NUL !in PathText(segments)
  {
    if segments != [] {
      PathTextHasNoNul(segments[1..]);
    }
  }

  // Whatever bytes follow the terminator, reading the buffer as a C string yields the path.
  lemma BufferHoldsPath(segments: seq<string>, before: seq<char>)
    requires forall s :: s in segments ==> NUL !in s
    requires |PathText(segments)| + 1 <= |before|
    ensures CString(Overwritten(before, PathText(segments) + [NUL])) == PathText(segments)
  {
    PathTextHasNoNul(segments);
    var text := PathText(segments);
    var stale := before[|text| + 1..];
    assert Overwritten(before, text + [NUL]) == text + ([NUL] + stale);
    CStringIsPrefix(text, [NUL] + stale);
  }

  // Cut at slashes, that yields the segments that went in.
  lemma BufferHoldsSegments(segments: seq<string>, before: seq<char>)
    requires forall s :: s in segments ==> Plain(s)
    requires PathSize(segments) + 1 <= |before|
    ensures PathSize(segments) == |PathText(segments)|
    ensures SplitPath(CString(Overwritten(before, PathText(segments) + [NUL]))) == segments
  {
    PathTextSize(segments);
    BufferHoldsPath(segments, before);
    SplitUndoesJoin(segments);
  }
}
