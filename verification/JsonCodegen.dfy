/**
 The generated JSON parser and encoder. Descriptor i, index define i and flag i of a schema are
 three separate pieces of generated text; the round trip holds because they name the same member.
 */
module JsonCodegen {
  import opened AttributeValues
  import opened UpdateCodegen

  // A property as the templates print it: owner is the name of the parent's struct.
  datatype Member = Member(name: string, kind: FieldKind, owner: string)

  function Adopted(members: seq<Member>, owner: string): (r: seq<Member>)
    ensures |r| == |members|
  {
    seq(|members|, i requires 0 <= i < |members| => members[i].(owner := owner))
  }

  class Property {
    const name: string
    const kind: FieldKind
    var parent: ObjectProperty?

    constructor (name: string, kind: FieldKind)
      ensures this.name == name && this.kind == kind && parent == null
    {
      this.name, this.kind, this.parent := name, kind, null;
    }
  }

  class ObjectProperty {
    const name: string
    var properties: seq<Property>

    ghost predicate Valid()
      reads this, properties
    {
      forall i :: 0 <= i < |properties| ==> properties[i].parent == this
    }

    // The properties as the templates see them, each through its own parent.
    ghost function Members(): (r: seq<Member>)
      reads this, properties
      ensures |r| == |properties|
    {
      seq(|properties|, i requires 0 <= i < |properties| reads this, properties =>
        Member(properties[i].name, properties[i].kind,
               if properties[i].parent == null then "" else properties[i].parent.name))
    }

    constructor (name: string)
      ensures Valid() && this.name == name && properties == []
    {
      this.name, properties := name, [];
    }

    method AddProperty(p: Property)
      requires Valid()
      modifies this, p
      ensures Valid() && properties == old(properties) + [p] && p.parent == this
    {
      properties := properties + [p];
      p.parent := this;
    }

    // Further schemas are merged into the first one: their properties change owner.
    method MergeWith(other: ObjectProperty)
      requires Valid() && other != this
      modifies this, other.properties
      ensures Valid() && properties == old(properties) + old(other.properties)
      ensures Members() == old(Members()) + Adopted(old(other.Members()), name)
      ensures OneOwner(Members())
    {
      ghost var before := properties;
      var i := 0;
      while i < |other.properties|
        invariant 0 <= i <= |other.properties| && other.properties == old(other.properties)
        invariant properties == before + other.properties[..i] && Valid()
      {
        AddProperty(other.properties[i]);
        i := i + 1;
      }
      assert other.properties[..i] == other.properties;
    }
  }

  // The generated text.

  datatype Descriptor = Descriptor(owner: string, member: string, token: FieldKind)

  function Upper(s: string): string {
    if s == "" then ""
    else [if 'a' <= s[0] <= 'z' then s[0] - 'a' + 'A' else s[0]] + Upper(s[1..])
  }

  function IndexDefineName(m: Member): string {
    Upper(m.owner + "_serde") + "_" + Upper(m.name) + "_DESCR_INDEX"
  }

  function MakeDescriptor(m: Member): Descriptor {
    Descriptor(m.owner, m.name, m.kind)
  }

  // The value of a macro that the header defines, the last definition if there are several.
  function DefinedIndex(members: seq<Member>, macro: string): (r: int)
    ensures -1 <= r < |members|
    ensures r >= 0 ==> IndexDefineName(members[r]) == macro
    ensures forall i :: r < i < |members| ==> IndexDefineName(members[i]) != macro
  {
    if members == [] then -1
    else
      var last := |members| - 1;
      if IndexDefineName(members[last]) == macro then last else DefinedIndex(members[..last], macro)
  }

  // The JSON library, by contract: it writes the described members in order, and reading fills the
  // described members it finds and returns one bit for each of them.

  datatype Entry = Entry(key: string, value: Attribute)

  datatype Record = Record(has: set<string>, values: map<string, Attribute>)

  predicate Fits(value: Attribute, kind: FieldKind) {
    value.TextValue? <==> kind == Text
  }

  function EncodeObject(descriptors: seq<Descriptor>, v: Record): seq<Entry> {
    if descriptors == [] then []
    else
      (if descriptors[0].member in v.values then [Entry(descriptors[0].member, v.values[descriptors[0].member])]
       else []) + EncodeObject(descriptors[1..], v)
  }

  // The position of the entry for a descriptor, |doc| if there is none.
  function Find(doc: seq<Entry>, d: Descriptor): (r: nat)
    ensures r <= |doc|
    ensures r < |doc| ==> doc[r].key == d.member && Fits(doc[r].value, d.token)
    ensures forall i :: 0 <= i < r ==> !(doc[i].key == d.member && Fits(doc[i].value, d.token))
  {
    if doc == [] then 0
    else if doc[0].key == d.member && Fits(doc[0].value, d.token) then 0
    else 1 + Find(doc[1..], d)
  }

  function Decoded(doc: seq<Entry>, members: seq<Member>): (bits: seq<bool>)
    ensures |bits| == |members|
  {
    seq(|members|, i requires 0 <= i < |members| => Find(doc, MakeDescriptor(members[i])) < |doc|)
  }

  function Mask(bits: seq<bool>): nat {
    if bits == [] then 0 else (if bits[0] then 1 else 0) + 2 * Mask(bits[1..])
  }

  // Assignment of the 64-bit result to a 32-bit int.
  function AsInt(mask: nat): int {
    var low := mask % 0x1_0000_0000;
    if low < 0x8000_0000 then low else low - 0x1_0000_0000
  }

  // n & (1 << i), for n that is not negative.
  predicate Bit(n: nat, i: nat) {
    if i == 0 then n % 2 == 1 else Bit(n / 2, i - 1)
  }

  // The generated descriptor generator, with its bound check.
  function GenObjDesc(members: seq<Member>, v: Record, done: seq<Descriptor>, len: nat)
    : (r: (bool, seq<Descriptor>))
    decreases |members|
  {
    if members == [] then (true, done)
    else if members[0].name !in v.has then GenObjDesc(members[1..], v, done, len)
    else if |done| >= len then (false, done)
    else GenObjDesc(members[1..], v, done + [MakeDescriptor(members[0])], len)
  }

  // The encoder. VALUE_COUNT is the number of members. No document if no flag is set.
  function ToBuf(members: seq<Member>, v: Record): seq<Entry> {
    var (ok, descriptors) := GenObjDesc(members, v, [], |members|);
    if !ok || descriptors == [] then [] else EncodeObject(descriptors, v)
  }

  // The flags the parser sets for a result of the JSON library.
  function FlagsOf(members: seq<Member>, ret: int): set<string> {
    if ret <= 0 then {} else FlagsFrom(members, ret, 0)
  }

  // The checks from member i on.
  function FlagsFrom(members: seq<Member>, ret: nat, i: nat): set<string>
    requires i <= |members|
    decreases |members| - i
  {
    if i == |members| then {}
    else (if FlagSet(members, ret, i) then {members[i].name} else {}) + FlagsFrom(members, ret, i + 1)
  }

  // The generated check of member i: ret & (1 << its index).
  predicate FlagSet(members: seq<Member>, ret: nat, i: nat)
    requires i < |members|
  {
    var index := DefinedIndex(members, IndexDefineName(members[i]));
    index >= 0 && Bit(ret, index)
  }

  function ParsedValues(members: seq<Member>, doc: seq<Entry>): map<string, Attribute> {
    if members == [] then map[]
    else
      var at := Find(doc, MakeDescriptor(members[0]));
      var rest := ParsedValues(members[1..], doc);
      if at < |doc| then rest[members[0].name := doc[at].value] else rest
  }

  // The parser, into a zeroed struct.
  function FromJson(members: seq<Member>, doc: seq<Entry>): Record {
    Record(FlagsOf(members, AsInt(Mask(Decoded(doc, members)))), ParsedValues(members, doc))
  }

  // Members whose macros differ; their names then differ as well.
  predicate DistinctMacros(members: seq<Member>) {
    forall i, j :: 0 <= i < j < |members| ==> IndexDefineName(members[i]) != IndexDefineName(members[j])
  }

  predicate Named(members: seq<Member>, f: string) {
    members != [] && (members[0].name == f || Named(members[1..], f))
  }

  lemma {:induction false} NamedAt(members: seq<Member>, i: nat)
    requires i < |members|
    ensures Named(members, members[i].name)
  {
    if i > 0 {
      NamedAt(members[1..], i - 1);
    }
  }

  lemma {:induction false} NamedIndex(members: seq<Member>, f: string) returns (i: nat)
    requires Named(members, f)
    ensures i < |members| && members[i].name == f
  {
    i := 0;
    if members[0].name != f {
      i := NamedIndex(members[1..], f);
      i := i + 1;
    }
  }

  // The flagged members are members of the schema, and have values of their types.
  predicate WellTyped(members: seq<Member>, v: Record) {
    && (forall i :: 0 <= i < |members| && members[i].name in v.has ==>
          members[i].name in v.values && Fits(v.values[members[i].name], members[i].kind))
    && (forall f :: f in v.has ==> f in v.values && Named(members, f))
  }

  // The members whose flag is set, in schema order.
  function Flagged(members: seq<Member>, v: Record): seq<Member> {
    if members == [] then []
    else (if members[0].name in v.has then [members[0]] else []) + Flagged(members[1..], v)
  }

  function MakeDescriptors(members: seq<Member>): seq<Descriptor> {
    if members == [] then [] else [MakeDescriptor(members[0])] + MakeDescriptors(members[1..])
  }

  // The bound check of the generated code never fires with VALUE_COUNT.
  lemma {:induction false} GenObjDescComplete(members: seq<Member>, v: Record, done: seq<Descriptor>, len: nat)
    requires |done| + |members| <= len
    ensures GenObjDesc(members, v, done, len) == (true, done + MakeDescriptors(Flagged(members, v)))
    decreases |members|
  {
    if members == [] {
      assert done + [] == done;
    } else if members[0].name !in v.has {
      assert Flagged(members, v) == Flagged(members[1..], v);
      GenObjDescComplete(members[1..], v, done, len);
    } else {
      var d := MakeDescriptor(members[0]);
      GenObjDescComplete(members[1..], v, done + [d], len);
      assert Flagged(members, v) == [members[0]] + Flagged(members[1..], v);
      assert Flagged(members, v)[1..] == Flagged(members[1..], v);
      assert done + [d] + MakeDescriptors(Flagged(members[1..], v)) == done + MakeDescriptors(Flagged(members, v));
    }
  }

  // The document that the encoder writes for some of the members.
  function Document(members: seq<Member>, v: Record): seq<Entry> {
    EncodeObject(MakeDescriptors(Flagged(members, v)), v)
  }

  lemma DocumentStep(members: seq<Member>, v: Record)
    requires members != []
    ensures Document(members, v) ==
            (if members[0].name in v.has && members[0].name in v.values
             then [Entry(members[0].name, v.values[members[0].name])] else []) + Document(members[1..], v)
  {
    var m, rest := members[0], Flagged(members[1..], v);
    if m.name in v.has {
      assert Flagged(members, v) == [m] + rest && ([m] + rest)[1..] == rest;
      assert MakeDescriptors([m] + rest) == [MakeDescriptor(m)] + MakeDescriptors(rest);
      assert ([MakeDescriptor(m)] + MakeDescriptors(rest))[1..] == MakeDescriptors(rest);
    } else {
      assert Flagged(members, v) == rest;
    }
  }

  // Reading the document finds a member exactly if its flag was set, with its value.
  lemma {:induction false} FindEncoded(members: seq<Member>, v: Record, d: Descriptor)
    requires d.member in v.has ==> d.member in v.values && Fits(v.values[d.member], d.token)
    ensures var doc := Document(members, v);
            && (Find(doc, d) < |doc| <==> d.member in v.has && Named(members, d.member))
            && (Find(doc, d) < |doc| ==> doc[Find(doc, d)].value == v.values[d.member])
  {
    if members != [] {
      var m := members[0];
      DocumentStep(members, v);
      FindEncoded(members[1..], v, d);
      if m.name in v.has && m.name in v.values {
        FindCons(Entry(m.name, v.values[m.name]), Document(members[1..], v), d);
      } else {
        assert [] + Document(members[1..], v) == Document(members[1..], v);
      }
    }
  }

  lemma FindCons(e: Entry, rest: seq<Entry>, d: Descriptor)
    ensures Find([e] + rest, d) == if e.key == d.member && Fits(e.value, d.token) then 0 else 1 + Find(rest, d)
  {
  }

  // Bits.

  lemma {:induction false} MaskBit(bits: seq<bool>, i: nat)
    requires i < |bits|
    ensures Bit(Mask(bits), i) <==> bits[i]
  {
    var rest := Mask(bits[1..]);
    assert Mask(bits) / 2 == rest;
    if i > 0 {
      MaskBit(bits[1..], i - 1);
    }
  }

  function Pow2(n: nat): nat {
    if n == 0 then 1 else 2 * Pow2(n - 1)
  }

  lemma {:induction false} MaskBound(bits: seq<bool>)
    ensures Mask(bits) < Pow2(|bits|)
    ensures bits != [] ==> (Mask(bits) >= Pow2(|bits| - 1) <==> bits[|bits| - 1])
  {
    if bits != [] {
      MaskBound(bits[1..]);
    }
  }

  lemma {:induction false} MaskPositive(bits: seq<bool>, i: nat)
    requires i < |bits| && bits[i]
    ensures Mask(bits) > 0
  {
    if i > 0 {
      MaskPositive(bits[1..], i - 1);
    }
  }

  lemma {:induction false} Pow2Monotone(m: nat, n: nat)
    requires m <= n
    ensures Pow2(m) <= Pow2(n)
  {
    if m < n {
      Pow2Monotone(m, n - 1);
    }
  }

  lemma Pow2Step(n: nat)
    ensures Pow2(n + 4) == 16 * Pow2(n)
  {
    assert Pow2(n + 1) == 2 * Pow2(n) && Pow2(n + 2) == 2 * Pow2(n + 1);
    assert Pow2(n + 3) == 2 * Pow2(n + 2) && Pow2(n + 4) == 2 * Pow2(n + 3);
  }

  lemma Pow2Values()
    ensures Pow2(31) == 0x8000_0000 && Pow2(32) == 0x1_0000_0000
  {
    Pow2Step(0);
    Pow2Step(4);
    Pow2Step(8);
    Pow2Step(12);
    Pow2Step(16);
    Pow2Step(20);
    Pow2Step(24);
    Pow2Step(28);
    assert Pow2(32) == 2 * Pow2(31);
  }

  // The result of the JSON library as an int: negative exactly if the 32nd member was found.
  lemma MaskAsInt(bits: seq<bool>)
    requires |bits| <= 32
    ensures AsInt(Mask(bits)) == if |bits| == 32 && bits[31] then Mask(bits) - 0x1_0000_0000 else Mask(bits)
    ensures |bits| == 32 && bits[31] ==> AsInt(Mask(bits)) < 0
  {
    MaskBound(bits);
    Pow2Values();
    Pow2Monotone(|bits|, 32);
    if |bits| < 32 {
      Pow2Monotone(|bits|, 31);
    }
  }

  lemma DocumentBits(members: seq<Member>, v: Record)
    requires WellTyped(members, v)
    ensures forall i :: 0 <= i < |members| ==>
              (Decoded(Document(members, v), members)[i] <==> members[i].name in v.has)
  {
    forall i | 0 <= i < |members|
      ensures Decoded(Document(members, v), members)[i] <==> members[i].name in v.has
    {
      NamedAt(members, i);
      FindEncoded(members, v, MakeDescriptor(members[i]));
    }
  }

  // A distinct macro stands for its own position.
  lemma MacroIsIndex(members: seq<Member>, i: nat)
    requires DistinctMacros(members) && i < |members|
    ensures DefinedIndex(members, IndexDefineName(members[i])) == i
  {
  }

  lemma FlagOfBit(members: seq<Member>, bits: seq<bool>, i: nat)
    requires DistinctMacros(members) && |bits| == |members| && i < |members|
    ensures FlagSet(members, Mask(bits), i) <==> bits[i]
  {
    MacroIsIndex(members, i);
    MaskBit(bits, i);
  }

  lemma {:induction false} FlagsAre(members: seq<Member>, has: set<string>, ret: nat, i: nat)
    requires i <= |members|
    requires forall i :: 0 <= i < |members| ==> (FlagSet(members, ret, i) <==> members[i].name in has)
    ensures forall f :: f in FlagsFrom(members, ret, i) <==> f in has && Named(members[i..], f)
    decreases |members| - i
  {
    if i < |members| {
      assert members[i..][1..] == members[i + 1..];
      FlagsAre(members, has, ret, i + 1);
    }
  }

  lemma FlagsOfBits(members: seq<Member>, v: Record, bits: seq<bool>)
    requires DistinctMacros(members) && |bits| == |members| && Mask(bits) > 0
    requires forall i :: 0 <= i < |members| ==> (bits[i] <==> members[i].name in v.has)
    requires forall f :: f in v.has ==> Named(members, f)
    ensures FlagsOf(members, Mask(bits)) == v.has
  {
    forall i | 0 <= i < |members| ensures FlagSet(members, Mask(bits), i) <==> members[i].name in v.has {
      FlagOfBit(members, bits, i);
    }
    FlagsAre(members, v.has, Mask(bits), 0);
    assert members[0..] == members;
  }

  lemma {:induction false} ValuesParsed(members: seq<Member>, all: seq<Member>, v: Record)
    requires WellTyped(all, v)
    requires forall i :: 0 <= i < |members| ==> members[i] in all
    ensures forall i :: 0 <= i < |members| && members[i].name in v.has ==>
              members[i].name in ParsedValues(members, Document(all, v))
    ensures forall f :: f in ParsedValues(members, Document(all, v)) ==>
              f in v.values && ParsedValues(members, Document(all, v))[f] == v.values[f]
  {
    if members != [] {
      var m := members[0];
      var j :| 0 <= j < |all| && all[j] == m;
      NamedAt(all, j);
      FindEncoded(all, v, MakeDescriptor(m));
      ValuesParsed(members[1..], all, v);
    }
  }

  // Parsing what the encoder wrote restores the flags and values, for every flat schema of at most
  // 31 fields; with 32 fields exactly as long as the last one is not set.
  lemma EncodeParseRoundTrip(members: seq<Member>, v: Record)
    requires DistinctMacros(members) && WellTyped(members, v) && |members| <= 32 && v.has != {}
    ensures var r := FromJson(members, ToBuf(members, v));
            && (r.has == v.has <==> !(|members| == 32 && members[31].name in v.has))
            && forall f :: f in v.has ==> f in r.values && r.values[f] == v.values[f]
  {
    GenObjDescComplete(members, v, [], |members|);
    var doc := Document(members, v);
    assert [] + MakeDescriptors(Flagged(members, v)) == MakeDescriptors(Flagged(members, v));
    assert ToBuf(members, v) == doc;
    DocumentBits(members, v);
    var bits := Decoded(doc, members);
    var f :| f in v.has;
    var i := NamedIndex(members, f);
    MaskPositive(bits, i);
    MaskAsInt(bits);
    if !(|members| == 32 && bits[31]) {
      FlagsOfBits(members, v, bits);
    }
    ValuesParsed(members, members, v);
    forall f | f in v.has ensures f in ParsedValues(members, doc) {
      var i := NamedIndex(members, f);
      assert members[i].name == f;
    }
  }

  // A flag that the parser sets has a check that sets it.
  lemma {:induction false} FlagHasCheck(members: seq<Member>, ret: nat, name: string, k: nat) returns (j: nat)
    requires k <= |members| && name in FlagsFrom(members, ret, k)
    ensures k <= j < |members| && members[j].name == name && FlagSet(members, ret, j)
    decreases |members| - k
  {
    j := k;
    if !(FlagSet(members, ret, k) && members[k].name == name) {
      j := FlagHasCheck(members, ret, name, k + 1);
    }
  }

  // Names that differ only by case share a macro, and then the first of the two cannot be parsed.
  lemma SharedMacroLosesField(members: seq<Member>, v: Record, i: nat, j: nat)
    requires i < j < |members| <= 31 && IndexDefineName(members[i]) == IndexDefineName(members[j])
    requires forall k, l :: 0 <= k < l < |members| ==> members[k].name != members[l].name
    requires WellTyped(members, v) && v.has == {members[i].name}
    ensures FromJson(members, ToBuf(members, v)).has != v.has
  {
    GenObjDescComplete(members, v, [], |members|);
    assert [] + MakeDescriptors(Flagged(members, v)) == MakeDescriptors(Flagged(members, v));
    assert ToBuf(members, v) == Document(members, v);
    DocumentBits(members, v);
    var bits := Decoded(Document(members, v), members);
    MaskAsInt(bits);
    var index := DefinedIndex(members, IndexDefineName(members[i]));
    assert index >= j;
    MaskBit(bits, index);
    assert !bits[index] && !FlagSet(members, Mask(bits), i);
    if members[i].name in FlagsFrom(members, Mask(bits), 0) {
      var k := FlagHasCheck(members, Mask(bits), members[i].name, 0);
    }
  }

  lemma CaseCollisionExample()
    ensures var members := [Member("ab", Number, "x"), Member("AB", Number, "x")];
            var v := Record({"ab"}, map["ab" := NumberValue(7)]);
            FromJson(members, ToBuf(members, v)).has != v.has
  {
  }

  // Members of one schema: their macros differ exactly if their names differ by more than case.

  predicate OneOwner(members: seq<Member>) {
    forall i, j :: 0 <= i < j < |members| ==> members[i].owner == members[j].owner
  }

  predicate DistinctIgnoringCase(members: seq<Member>) {
    forall i, j :: 0 <= i < j < |members| ==> Upper(members[i].name) != Upper(members[j].name)
  }

  lemma MacroTellsName(m: Member, n: Member)
    requires m.owner == n.owner
    ensures IndexDefineName(m) == IndexDefineName(n) <==> Upper(m.name) == Upper(n.name)
  {
    var prefix, suffix := Upper(m.owner + "_serde") + "_", "_DESCR_INDEX";
    SameMiddle(prefix, Upper(m.name), Upper(n.name), suffix);
  }

  lemma SameMiddle(prefix: string, a: string, b: string, suffix: string)
    ensures prefix + a + suffix == prefix + b + suffix <==> a == b
  {
    var s, t := prefix + a + suffix, prefix + b + suffix;
    assert a == s[|prefix|..|s| - |suffix|];
    assert b == t[|prefix|..|t| - |suffix|];
  }

  lemma MacrosDistinctIff(members: seq<Member>)
    requires OneOwner(members)
    ensures DistinctMacros(members) <==> DistinctIgnoringCase(members)
  {
    forall i, j | 0 <= i < j < |members|
      ensures IndexDefineName(members[i]) == IndexDefineName(members[j]) <==>
              Upper(members[i].name) == Upper(members[j].name)
    {
      MacroTellsName(members[i], members[j]);
    }
  }

  // Parsing what was encoded sets exactly the flags that were set, and restores their values.
  predicate RoundTrips(members: seq<Member>, v: Record) {
    var r := FromJson(members, ToBuf(members, v));
    r.has == v.has && forall f :: f in v.has && f in v.values ==> f in r.values && r.values[f] == v.values[f]
  }

  ghost predicate AllRoundTrip(members: seq<Member>) {
    forall v: Record | WellTyped(members, v) && v.has != {} :: RoundTrips(members, v)
  }

  function SampleRecord(m: Member): Record {
    Record({m.name}, map[m.name := if m.kind == Text then TextValue("") else NumberValue(0)])
  }

  lemma SampleIsTyped(members: seq<Member>, i: nat)
    requires i < |members|
    requires forall k, l :: 0 <= k < l < |members| ==> members[k].name != members[l].name
    ensures WellTyped(members, SampleRecord(members[i]))
  {
    NamedAt(members, i);
  }

  // A schema of at most 31 fields round-trips for all values exactly if no two of its names are
  // equal up to case.
  lemma SchemaRoundTripsIff(members: seq<Member>)
    requires OneOwner(members) && |members| <= 31
    requires forall k, l :: 0 <= k < l < |members| ==> members[k].name != members[l].name
    ensures AllRoundTrip(members) <==> DistinctIgnoringCase(members)
  {
    MacrosDistinctIff(members);
    if DistinctMacros(members) {
      forall v: Record | WellTyped(members, v) && v.has != {} ensures RoundTrips(members, v) {
        EncodeParseRoundTrip(members, v);
      }
    } else {
      var i, j :| 0 <= i < j < |members| && IndexDefineName(members[i]) == IndexDefineName(members[j]);
      SampleIsTyped(members, i);
      SampleFails(members, i, j);
    }
  }

  lemma SampleFails(members: seq<Member>, i: nat, j: nat)
    requires i < j < |members| <= 31 && IndexDefineName(members[i]) == IndexDefineName(members[j])
    requires forall k, l :: 0 <= k < l < |members| ==> members[k].name != members[l].name
    requires WellTyped(members, SampleRecord(members[i]))
    ensures !RoundTrips(members, SampleRecord(members[i]))
  {
    SharedMacroLosesField(members, SampleRecord(members[i]), i, j);
  }

  // What the server sends may have its members in any order, and others in between.

  predicate FirstEntry(doc: seq<Entry>, m: Member, j: nat) {
    && j < |doc| && doc[j].key == m.name && Fits(doc[j].value, m.kind)
    && forall k :: 0 <= k < j ==> !(doc[k].key == m.name && Fits(doc[k].value, m.kind))
  }

  predicate DistinctNamed(members: seq<Member>) {
    forall i, j :: 0 <= i < j < |members| ==> members[i].name != members[j].name
  }

  lemma FirstEntryFound(doc: seq<Entry>, m: Member)
    ensures Find(doc, MakeDescriptor(m)) < |doc| <==> exists j: nat :: FirstEntry(doc, m, j)
    ensures forall j: nat :: FirstEntry(doc, m, j) ==> Find(doc, MakeDescriptor(m)) == j
  {
    var at := Find(doc, MakeDescriptor(m));
    if at < |doc| {
      assert FirstEntry(doc, m, at);
    }
  }

  // The names of the members that are found.
  function FoundNames(members: seq<Member>, bits: seq<bool>): set<string>
    requires |bits| == |members|
  {
    set i | 0 <= i < |members| && bits[i] :: members[i].name
  }

  lemma FoundAt(members: seq<Member>, bits: seq<bool>, i: nat)
    requires DistinctNamed(members) && |bits| == |members| && i < |members|
    ensures members[i].name in FoundNames(members, bits) <==> bits[i]
  {
  }

  // The parser's result for any bits the library may report.
  lemma FlagsForBits(members: seq<Member>, bits: seq<bool>)
    requires DistinctMacros(members) && DistinctNamed(members) && |bits| == |members| <= 31
    ensures FlagsOf(members, AsInt(Mask(bits))) == FoundNames(members, bits)
  {
    MaskAsInt(bits);
    hide AsInt, DistinctMacros;
    if Mask(bits) > 0 {
      FlagsFound(members, bits);
    } else {
      forall i | 0 <= i < |bits| ensures !bits[i] {
        if bits[i] {
          MaskPositive(bits, i);
        }
      }
    }
  }

  lemma FlagsFound(members: seq<Member>, bits: seq<bool>)
    requires DistinctMacros(members) && DistinctNamed(members) && |bits| == |members|
    ensures FlagsFrom(members, Mask(bits), 0) == FoundNames(members, bits)
  {
    hide DistinctMacros, DistinctNamed, FlagSet, Mask, FlagsFrom;
    var found := FoundNames(members, bits);
    forall i | 0 <= i < |members| ensures FlagSet(members, Mask(bits), i) <==> members[i].name in found {
      FlagOfBit(members, bits, i);
      FoundAt(members, bits, i);
    }
    FlagsAre(members, found, Mask(bits), 0);
    assert members[0..] == members;
    forall f | f in found ensures Named(members, f) {
      FoundIsNamed(members, bits, f);
    }
  }

  lemma FoundIsNamed(members: seq<Member>, bits: seq<bool>, f: string)
    requires |bits| == |members| && f in FoundNames(members, bits)
    ensures Named(members, f)
  {
    var i :| 0 <= i < |members| && bits[i] && members[i].name == f;
    NamedAt(members, i);
  }

  lemma {:induction false} ValuesFound(members: seq<Member>, doc: seq<Entry>, i: nat)
    requires DistinctNamed(members) && i < |members|
    ensures var at := Find(doc, MakeDescriptor(members[i]));
            && (members[i].name in ParsedValues(members, doc) <==> at < |doc|)
            && (at < |doc| ==> ParsedValues(members, doc)[members[i].name] == doc[at].value)
  {
    if i > 0 {
      ValuesFound(members[1..], doc, i - 1);
    } else {
      NotAmong(members[1..], doc, members[0].name);
    }
  }

  lemma {:induction false} NotAmong(members: seq<Member>, doc: seq<Entry>, f: string)
    requires forall i :: 0 <= i < |members| ==> members[i].name != f
    ensures f !in ParsedValues(members, doc)
  {
    if members != [] {
      NotAmong(members[1..], doc, f);
    }
  }

  // For any document: a member's flag is set exactly if some entry has its key and type, and its
  // value is then that of the first such entry.
  lemma ParsedDocument(members: seq<Member>, doc: seq<Entry>, i: nat)
    requires DistinctMacros(members) && DistinctNamed(members) && |members| <= 31 && i < |members|
    ensures var r := FromJson(members, doc);
            && (members[i].name in r.has <==> exists j: nat :: FirstEntry(doc, members[i], j))
            && (forall j: nat :: FirstEntry(doc, members[i], j) ==>
                  members[i].name in r.values && r.values[members[i].name] == doc[j].value)
  {
    var bits := Decoded(doc, members);
    hide DistinctMacros, FoundNames, Mask, AsInt, ParsedValues, FirstEntry;
    FlagsForBits(members, bits);
    FoundAt(members, bits, i);
    ValuesFound(members, doc, i);
    FirstEntryFound(doc, members[i]);
  }

  // Nothing else is flagged.
  lemma OnlyMembersFlagged(members: seq<Member>, doc: seq<Entry>, f: string)
    requires DistinctMacros(members) && DistinctNamed(members) && |members| <= 31
    requires f in FromJson(members, doc).has
    ensures Named(members, f)
  {
    var bits := Decoded(doc, members);
    FlagsForBits(members, bits);
    FoundIsNamed(members, bits, f);
  }

  // Nothing is written exactly if no flag is set.
  lemma NothingWrittenIff(members: seq<Member>, v: Record)
    requires WellTyped(members, v)
    ensures ToBuf(members, v) == [] <==> v.has == {}
  {
    GenObjDescComplete(members, v, [], |members|);
    assert [] + MakeDescriptors(Flagged(members, v)) == MakeDescriptors(Flagged(members, v));
    if f :| f in v.has {
      var i := NamedIndex(members, f);
      FindEncoded(members, v, MakeDescriptor(members[i]));
    } else {
      NoneFlagged(members, v);
    }
  }

  lemma {:induction false} NoneFlagged(members: seq<Member>, v: Record)
    requires v.has == {}
    ensures Flagged(members, v) == []
  {
    if members != [] {
      NoneFlagged(members[1..], v);
    }
  }

  // The entry at position a is that of some member.
  lemma {:induction false} EntryOf(members: seq<Member>, v: Record, a: nat) returns (i: nat)
    requires a < |Document(members, v)|
    ensures i < |members| && Document(members, v)[a].key == members[i].name
  {
    if members != [] {
      DocumentStep(members, v);
      var written := if members[0].name in v.has && members[0].name in v.values then 1 else 0;
      if a < written {
        i := 0;
      } else {
        i := EntryOf(members[1..], v, a - written);
        i := i + 1;
      }
    }
  }

  // Members are written in the order of the schema.
  lemma {:induction false} WrittenInOrder(members: seq<Member>, v: Record, a: nat, b: nat) returns (i: nat, j: nat)
    requires a < b < |Document(members, v)|
    ensures i < j < |members|
    ensures Document(members, v)[a].key == members[i].name && Document(members, v)[b].key == members[j].name
  {
    if members != [] {
      DocumentStep(members, v);
      var written := if members[0].name in v.has && members[0].name in v.values then 1 else 0;
      if a < written {
        i := 0;
        j := EntryOf(members[1..], v, b - written);
      } else {
        i, j := WrittenInOrder(members[1..], v, a - written, b - written);
        i := i + 1;
      }
      j := j + 1;
    }
  }
}
