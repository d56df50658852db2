/**
 Reading the array back. A scanner in the style of sections 5 and 7 of RFC 8259 tracks nesting,
 strings and escapes, and cuts the text between the outer brackets at top-level commas.
 */
module ArrayRoundTrip {
  import opened Wrappers
  import opened TimeseriesText

  datatype Scan = Scan(depth: int, quoted: bool, escaped: bool)

  const TOP := Scan(0, false, false)

  function Next(st: Scan, c: char): Scan {
    if st.escaped then st.(escaped := false)
    else if st.quoted then
      if c == '\\' then st.(escaped := true) else if c == '"' then st.(quoted := false) else st
    else if c == '"' then st.(quoted := true)
    else if c == '{' || c == '[' then st.(depth := st.depth + 1)
    else if c == '}' || c == ']' then st.(depth := st.depth - 1)
    else st
  }

  function ScanText(st: Scan, s: string): Scan
    decreases s
  {
    if s == "" then st else ScanText(Next(st, s[0]), s[1..])
  }

  // The scanner stays away from the top level before every character of s but the first.
  predicate Nested(st: Scan, s: string)
    decreases s
  {
    s == "" || (st != TOP && Nested(Next(st, s[0]), s[1..]))
  }

  // An object: opened by its first character, closed by its last one and not before. Strings in
  // it may hold commas, braces, brackets and escaped quotes.
  predicate IsObject(text: string) {
    && text != "" && text[0] == '{'
    && Nested(Next(TOP, '{'), text[1..])
    && ScanText(TOP, text) == TOP
  }

  // Cut s at its top-level commas, given the scanner state and the item read so far.
  function SplitTop(s: string, st: Scan, item: string): seq<string> {
    if s == "" then [item]
    else if s[0] == ',' && st == TOP then [item] + SplitTop(s[1..], TOP, "")
    else SplitTop(s[1..], Next(st, s[0]), item + [s[0]])
  }

  // Some(items) for a bracketed list of non-empty items, None for anything else.
  function ParseArray(text: string): Option<seq<string>> {
    if |text| < 2 || text[0] != '[' || text[|text| - 1] != ']' then None else
      var inner := text[1..|text| - 1];
      if inner == "" then Some([]) else
        var items := SplitTop(inner, TOP, "");
        if "" in items || ScanText(TOP, inner) != TOP then None else Some(items)
  }

  function Texts(batch: seq<Record>): (r: seq<string>)
    requires AllEncodable(batch)
    ensures |r| == |batch|
  {
    seq(|batch|, i requires 0 <= i < |batch| => batch[i].text)
  }

  lemma {:induction false} ScanAppend(st: Scan, a: string, b: string)
    ensures ScanText(st, a + b) == ScanText(ScanText(st, a), b)
    decreases a
  {
    if a == "" {
      assert a + b == b;
    } else {
      assert (a + b)[1..] == a[1..] + b;
      ScanAppend(Next(st, a[0]), a[1..], b);
    }
  }

  // No cut inside nested text.
  lemma {:induction false} SplitNested(s: string, rest: string, st: Scan, item: string)
    requires Nested(st, s)
    ensures SplitTop(s + rest, st, item) == SplitTop(rest, ScanText(st, s), item + s)
  {
    if s == "" {
      assert s + rest == rest && item + s == item;
    } else {
      assert (s + rest)[1..] == s[1..] + rest;
      SplitNested(s[1..], rest, Next(st, s[0]), item + [s[0]]);
      assert item + [s[0]] + s[1..] == item + s;
    }
  }

  lemma SplitObject(text: string, rest: string)
    requires text == "" || IsObject(text)
    ensures SplitTop(text + rest, TOP, "") == SplitTop(rest, TOP, text)
  {
    if text == "" {
      assert text + rest == rest;
    } else {
      assert (text + rest)[1..] == text[1..] + rest;
      SplitNested(text[1..], rest, Next(TOP, '{'), "{");
      assert "" + [text[0]] == "{" && "{" + text[1..] == text;
    }
  }

  lemma {:induction false} JoinedCons(batch: seq<Record>)
    requires |batch| > 1 && AllEncodable(batch)
    ensures Joined(batch) == batch[0].text + "," + Joined(batch[1..])
  {
    var init, last := batch[..|batch| - 1], batch[|batch| - 1];
    assert batch == init + [last] && batch[1..] == init[1..] + [last];
    JoinedSnoc(init, last);
    JoinedSnoc(init[1..], last);
    if |init| > 1 {
      JoinedCons(init);
      assert batch[0].text + "," + Joined(init[1..]) + "," + last.text
          == batch[0].text + "," + (Joined(init[1..]) + "," + last.text);
    } else {
      assert init[1..] == [];
    }
  }

  ghost predicate EmptyOrObjects(batch: seq<Record>) {
    AllEncodable(batch) && forall i :: 0 <= i < |batch| ==> batch[i].text == "" || IsObject(batch[i].text)
  }

  lemma {:induction false} ScanJoined(batch: seq<Record>)
    requires EmptyOrObjects(batch)
    ensures ScanText(TOP, Joined(batch)) == TOP
  {
    if |batch| > 1 {
      var rest := "," + Joined(batch[1..]);
      JoinedCons(batch);
      assert Joined(batch) == batch[0].text + rest;
      ScanAppend(TOP, batch[0].text, rest);
      assert rest[1..] == Joined(batch[1..]);
      ScanJoined(batch[1..]);
    }
  }

  lemma SplitComma(item: string, rest: string)
    ensures SplitTop("," + rest, TOP, item) == [item] + SplitTop(rest, TOP, "")
  {
    assert ("," + rest)[1..] == rest;
  }

  lemma {:induction false} SplitJoined(batch: seq<Record>)
    requires batch != [] && EmptyOrObjects(batch)
    ensures SplitTop(Joined(batch), TOP, "") == Texts(batch)
  {
    var first := batch[0].text;
    if |batch| == 1 {
      assert first + "" == first;
      SplitObject(first, "");
    } else {
      var tail := Joined(batch[1..]);
      JoinedCons(batch);
      SplitJoined(batch[1..]);
      assert Texts(batch) == [first] + Texts(batch[1..]);
      hide Joined, IsObject, Texts;
      assert Joined(batch) == first + ("," + tail);
      SplitObject(first, "," + tail);
      SplitComma(first, tail);
    }
  }

  // The round trip holds exactly when every record has a field: an empty text either leaves
  // a hole between commas or, alone, makes the array look empty.
  lemma ArrayRoundTrips(batch: seq<Record>)
    requires EmptyOrObjects(batch)
    ensures ParseArray(ArrayText(batch)) == Some(Texts(batch)) <==> forall i :: 0 <= i < |batch| ==> batch[i].text != ""
  {
    var text, inner := ArrayText(batch), Joined(batch);
    assert text[1..|text| - 1] == inner;
    ScanJoined(batch);
    if batch != [] {
      SplitJoined(batch);
      if i :| 0 <= i < |batch| && batch[i].text == "" {
        assert Texts(batch)[i] == "";
      } else {
        forall t | t in Texts(batch) ensures t != "" {
        }
        assert Texts(batch)[0] != "";
        assert SplitTop("", TOP, "") == [""];
      }
    }
  }

  // A record without fields behind another one: the array gets a trailing comma.
  lemma FieldlessRecordBreaksArray()
    ensures ArrayText([Encodable("{}"), Encodable("")]) == "[{},]"
    ensures ParseArray("[{},]") == None
  {
    var first, batch := [Encodable("{}")], [Encodable("{}"), Encodable("")];
    assert batch == first + [Encodable("")];
    JoinedSnoc(first, Encodable(""));
    assert Joined(batch) == "{},";
    TrailingCommaIsRejected();
  }

  lemma TrailingCommaIsRejected()
    ensures ParseArray("[{},]") == None
  {
    var inner := "[{},]"[1..4];
    assert inner == "{},";
    SplitTrailingComma();
    assert ["{}", ""][1] == "";
  }

  lemma SplitTrailingComma()
    ensures SplitTop("{},", TOP, "") == ["{}", ""]
  {
    EmptyObject();
    assert "{}" + "," == "{},";
    SplitObject("{}", ",");
    assert ","[1..] == "";
    assert SplitTop("", TOP, "") == [""];
    assert ["{}"] + [""] == ["{}", ""];
  }

  lemma EmptyObject()
    ensures IsObject("{}")
  {
  }
}
