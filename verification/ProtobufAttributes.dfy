/** Shared attributes in the Protobuf build: key/value entries decoded into a struct, which is then
    copied over the client's own. */
module ProtobufAttributes {
  import opened Wrappers
  import opened CStrings
  import opened AttributeValues

  datatype PbType = StringType(size: nat) | Uint32 | Int32 | Sint32 | Uint64 | Int64 | Sint64

  datatype PbField = PbField(name: string, typ: PbType)

  datatype KeyValueType = BooleanV | LongV | DoubleV | StringV | JsonV

  // One entry of a notification; the key/value pair is optional.
  datatype Entry = NoPair | Pair(key: string, typ: KeyValueType, long: int, text: string)

  const KEY_SIZE: nat := 32
  const TWO_31: int := 0x8000_0000
  const TWO_32: int := 0x1_0000_0000
  const TWO_63: int := 0x8000_0000_0000_0000
  const TWO_64: int := 0x1_0000_0000_0000_0000

  // What the Protobuf library guarantees of a decoded entry.
  predicate Decoded(e: Entry) {
    e.Pair? ==> |e.key| < KEY_SIZE && NUL !in e.text && -TWO_63 <= e.long < TWO_63
  }

  // The message type: distinct field names, and room for a terminator in every string.
  predicate MessageType(fields: seq<PbField>) {
    && (forall i, j :: 0 <= i < j < |fields| ==> fields[i].name != fields[j].name)
    && forall i :: 0 <= i < |fields| ==> HasRoom(fields[i].typ)
  }

  predicate HasRoom(typ: PbType) {
    typ.StringType? ==> typ.size > 0
  }

  // strncmp(a, b, n) == 0
  predicate SameUpTo(a: string, b: string, n: nat) {
    n == 0 || (a == "" && b == "") ||
    (a != "" && b != "" && a[0] == b[0] && SameUpTo(a[1..], b[1..], n - 1))
  }

  lemma {:induction false} SameUpToIsEqual(a: string, b: string, n: nat)
    requires |a| < n
    ensures SameUpTo(a, b, n) <==> a == b
  {
    if a != "" && b != "" {
      SameUpToIsEqual(a[1..], b[1..], n - 1);
      assert a == [a[0]] + a[1..] && b == [b[0]] + b[1..];
    }
  }

  // The C casts.
  function AsUnsigned(n: int, modulus: int): int
    requires modulus > 0
  {
    n % modulus
  }

  function AsSigned(n: int, half: int): int
    requires half > 0
  {
    (n + half) % (2 * half) - half
  }

  // What an entry does: nothing for an unknown key, else set a field or make the decoder fail.
  datatype Effect = Ignored | Rejected | Sets(name: string, value: Attribute)

  // The values a field can take from an entry; integers as they are, strings cut to size.
  function ValueFor(typ: PbType, e: Entry): Option<Attribute>
    requires e.Pair? && HasRoom(typ)
  {
    match typ
    case StringType(size) => if e.typ == StringV then Some(TextValue(Truncated(e.text, size))) else None
    case Uint32 => if e.typ == LongV && 0 <= e.long < TWO_32 then Some(NumberValue(e.long)) else None
    case Uint64 => if e.typ == LongV && 0 <= e.long then Some(NumberValue(e.long)) else None
    case Int64 => if e.typ == LongV then Some(NumberValue(e.long)) else None
    case Sint64 => if e.typ == LongV then Some(NumberValue(e.long)) else None
    case _ => if e.typ == LongV && -TWO_31 <= e.long < TWO_31 then Some(NumberValue(e.long)) else None
  }

  function IndexOf(fields: seq<PbField>, key: string): (i: nat)
    ensures i <= |fields| && (i < |fields| ==> fields[i].name == key)
    ensures forall j :: 0 <= j < i ==> fields[j].name != key
  {
    if fields == [] || fields[0].name == key then 0 else 1 + IndexOf(fields[1..], key)
  }

  function EffectOf(fields: seq<PbField>, e: Entry): Effect
    requires MessageType(fields)
  {
    if e.NoPair? || IndexOf(fields, e.key) == |fields| then Ignored
    else
      match ValueFor(fields[IndexOf(fields, e.key)].typ, e)
      case Some(value) => Sets(e.key, value)
      case None => Rejected
  }

  // The decoded notification as a map; None if some entry is rejected.
  function DecodeAll(fields: seq<PbField>, seen: map<string, Attribute>, entries: seq<Entry>)
    : Option<map<string, Attribute>>
    requires MessageType(fields)
    decreases |entries|
  {
    if entries == [] then Some(seen)
    else
      match EffectOf(fields, entries[0])
      case Ignored => DecodeAll(fields, seen, entries[1..])
      case Rejected => None
      case Sets(name, value) => DecodeAll(fields, seen[name := value], entries[1..])
  }

  // The cache after a notification.
  function Notified(fields: seq<PbField>, cache: map<string, Attribute>, entries: seq<Entry>)
    : map<string, Attribute>
    requires MessageType(fields)
  {
    match DecodeAll(fields, map[], entries)
    case Some(changes) => cache + changes
    case None => cache
  }

  lemma {:induction false} DecodeAppend(fields: seq<PbField>, seen: map<string, Attribute>,
                                        xs: seq<Entry>, ys: seq<Entry>)
    requires MessageType(fields)
    ensures var first := DecodeAll(fields, seen, xs);
            DecodeAll(fields, seen, xs + ys) == if first.Some? then DecodeAll(fields, first.value, ys) else None
    decreases |xs|
  {
    if xs == [] {
      assert xs + ys == ys;
    } else {
      assert (xs + ys)[0] == xs[0] && (xs + ys)[1..] == xs[1..] + ys;
      match EffectOf(fields, xs[0])
      case Ignored => DecodeAppend(fields, seen, xs[1..], ys);
      case Rejected =>
      case Sets(name, value) => DecodeAppend(fields, seen[name := value], xs[1..], ys);
    }
  }

  // Decoding overrides what was there, whatever it was.
  lemma {:induction false} DecodeOverrides(fields: seq<PbField>, seen: map<string, Attribute>,
                                           more: map<string, Attribute>, entries: seq<Entry>)
    requires MessageType(fields)
    ensures var alone := DecodeAll(fields, more, entries);
            DecodeAll(fields, seen + more, entries) == if alone.Some? then Some(seen + alone.value) else None
    decreases |entries|
  {
    if entries != [] {
      match EffectOf(fields, entries[0])
      case Ignored => DecodeOverrides(fields, seen, more, entries[1..]);
      case Rejected =>
      case Sets(name, value) =>
        assert (seen + more)[name := value] == seen + more[name := value];
        DecodeOverrides(fields, seen, more[name := value], entries[1..]);
    }
  }

  // One notification with all entries does what two with the parts do, if all are acceptable.
  lemma NotificationsCompose(fields: seq<PbField>, cache: map<string, Attribute>, xs: seq<Entry>, ys: seq<Entry>)
    requires MessageType(fields)
    requires DecodeAll(fields, map[], xs + ys).Some?
    ensures Notified(fields, cache, xs + ys) == Notified(fields, Notified(fields, cache, xs), ys)
  {
    DecodeAppend(fields, map[], xs, ys);
    var dx := DecodeAll(fields, map[], xs).value;
    DecodeOverrides(fields, dx, map[], ys);
    assert dx + map[] == dx;
    assert cache + (dx + DecodeAll(fields, map[], ys).value) == (cache + dx) + DecodeAll(fields, map[], ys).value;
  }

  // A notification is accepted exactly if each of its entries is; otherwise nothing changes.
  lemma {:induction false} RejectedIffSomeEntryIs(fields: seq<PbField>, seen: map<string, Attribute>,
                                                  entries: seq<Entry>)
    requires MessageType(fields)
    ensures DecodeAll(fields, seen, entries).None? <==>
            exists i :: 0 <= i < |entries| && EffectOf(fields, entries[i]) == Rejected
    decreases |entries|
  {
    if entries != [] {
      var rest := entries[1..];
      assert forall i :: 0 < i < |entries| ==> entries[i] == rest[i - 1];
      assert forall i :: 0 <= i < |rest| ==> rest[i] == entries[i + 1];
      match EffectOf(fields, entries[0])
      case Ignored => RejectedIffSomeEntryIs(fields, seen, rest);
      case Rejected =>
      case Sets(name, value) => RejectedIffSomeEntryIs(fields, seen[name := value], rest);
    }
  }

  // What an entry says to a field of its name, by the field's type.
  predicate Fits(typ: PbType, e: Entry)
    requires e.Pair?
  {
    match typ
    case StringType(_) => e.typ == StringV
    case Uint32 => e.typ == LongV && 0 <= e.long <= 0xFFFF_FFFF
    case Int32 => e.typ == LongV && -0x8000_0000 <= e.long <= 0x7FFF_FFFF
    case Sint32 => e.typ == LongV && -0x8000_0000 <= e.long <= 0x7FFF_FFFF
    case Uint64 => e.typ == LongV && 0 <= e.long <= 0x7FFF_FFFF_FFFF_FFFF
    case Int64 => e.typ == LongV && -0x8000_0000_0000_0000 <= e.long <= 0x7FFF_FFFF_FFFF_FFFF
    case Sint64 => e.typ == LongV && -0x8000_0000_0000_0000 <= e.long <= 0x7FFF_FFFF_FFFF_FFFF
  }

  // The value stored: the number itself, or as much of the text as fits next to a terminator.
  lemma ValueStored(typ: PbType, e: Entry)
    requires e.Pair? && Decoded(e) && HasRoom(typ)
    ensures ValueFor(typ, e).Some? <==> Fits(typ, e)
    ensures Fits(typ, e) ==>
              ValueFor(typ, e).value ==
              if !typ.StringType? then NumberValue(e.long)
              else if |e.text| < typ.size then TextValue(e.text)
              else TextValue(e.text[..typ.size - 1])
  {
  }

  // One entry by itself: a field of its name takes the value or rejects the notification, and a
  // name that no field has is ignored, as is an entry without a pair.
  lemma OneEntry(fields: seq<PbField>, seen: map<string, Attribute>, e: Entry)
    requires MessageType(fields) && Decoded(e)
    ensures e.NoPair? || (forall i :: 0 <= i < |fields| ==> fields[i].name != e.key) ==>
              DecodeAll(fields, seen, [e]) == Some(seen)
    ensures forall i :: 0 <= i < |fields| && e.Pair? && fields[i].name == e.key ==>
              DecodeAll(fields, seen, [e]) ==
              if Fits(fields[i].typ, e) then Some(seen[e.key := ValueFor(fields[i].typ, e).value]) else None
  {
    assert [e][1..] == [];
    forall i | 0 <= i < |fields| && e.Pair? && fields[i].name == e.key
      ensures DecodeAll(fields, seen, [e]) ==
              if Fits(fields[i].typ, e) then Some(seen[e.key := ValueFor(fields[i].typ, e).value]) else None
    {
      assert IndexOf(fields, e.key) == i;
      ValueStored(fields[i].typ, e);
    }
  }

  // An entry without a pair, or whose key is no field's name.
  predicate Inert(fields: seq<PbField>, e: Entry) {
    e.NoPair? || forall i :: 0 <= i < |fields| ==> fields[i].name != e.key
  }

  // Inert entries make no difference, wherever they stand.
  lemma InertMakesNoDifference(fields: seq<PbField>, cache: map<string, Attribute>,
                               xs: seq<Entry>, e: Entry, ys: seq<Entry>)
    requires MessageType(fields) && Inert(fields, e) && Decoded(e)
    ensures DecodeAll(fields, cache, xs + [e] + ys) == DecodeAll(fields, cache, xs + ys)
    ensures Notified(fields, cache, xs + [e] + ys) == Notified(fields, cache, xs + ys)
  {
    InertSkipped(fields, cache, xs, e, ys);
    InertSkipped(fields, map[], xs, e, ys);
  }

  lemma InertSkipped(fields: seq<PbField>, seen: map<string, Attribute>, xs: seq<Entry>, e: Entry, ys: seq<Entry>)
    requires MessageType(fields) && Inert(fields, e) && Decoded(e)
    ensures DecodeAll(fields, seen, xs + [e] + ys) == DecodeAll(fields, seen, xs + ys)
  {
    assert xs + [e] + ys == xs + ([e] + ys);
    DecodeAppend(fields, seen, xs, [e] + ys);
    DecodeAppend(fields, seen, xs, ys);
    var first := DecodeAll(fields, seen, xs);
    if first.Some? {
      DecodeAppend(fields, first.value, [e], ys);
      OneEntry(fields, first.value, e);
    }
  }

  // The cache after a notification of one entry.
  lemma OneEntryNotified(fields: seq<PbField>, cache: map<string, Attribute>, e: Entry)
    requires MessageType(fields) && Decoded(e)
    ensures Inert(fields, e) ==> Notified(fields, cache, [e]) == cache
    ensures forall i :: 0 <= i < |fields| && e.Pair? && fields[i].name == e.key ==>
              Notified(fields, cache, [e]) ==
              if Fits(fields[i].typ, e) then cache[e.key := ValueFor(fields[i].typ, e).value] else cache
  {
    OneEntry(fields, map[], e);
    assert cache + map[] == cache;
    forall i | 0 <= i < |fields| && e.Pair? && fields[i].name == e.key && Fits(fields[i].typ, e)
      ensures Notified(fields, cache, [e]) == cache[e.key := ValueFor(fields[i].typ, e).value]
    {
      var v := ValueFor(fields[i].typ, e).value;
      assert cache + map[][e.key := v] == cache[e.key := v];
    }
  }

  // A rejected entry anywhere, and nothing changes.
  lemma RejectedChangesNothing(fields: seq<PbField>, cache: map<string, Attribute>, entries: seq<Entry>,
                               i: nat, j: nat)
    requires MessageType(fields) && i < |entries| && j < |fields| && Decoded(entries[i])
    requires entries[i].Pair? && entries[i].key == fields[j].name && !Fits(fields[j].typ, entries[i])
    ensures DecodeAll(fields, map[], entries) == None && Notified(fields, cache, entries) == cache
  {
    assert IndexOf(fields, entries[i].key) == j;
    ValueStored(fields[j].typ, entries[i]);
    RejectedIffSomeEntryIs(fields, map[], entries);
  }

  // The struct of the message type: flags and members; strings are fixed character arrays.
  datatype Slot = NumberSlot(n: int) | TextSlot(bytes: seq<char>)

  function SlotValue(s: Slot): Attribute {
    match s
    case NumberSlot(n) => NumberValue(n)
    case TextSlot(bytes) => TextValue(CString(bytes))
  }

  // A member of the right type, its string terminated.
  predicate InSlot(typ: PbType, s: Slot) {
    if typ.StringType? then s.TextSlot? && |s.bytes| == typ.size && NUL in s.bytes else s.NumberSlot?
  }

  // The decoder's code for one type: range checks, casts and the cut copy. The casts lose nothing.
  method ReadSlot(typ: PbType, e: Entry) returns (slot: Option<Slot>)
    requires e.Pair? && Decoded(e) && HasRoom(typ)
    ensures slot.Some? <==> ValueFor(typ, e).Some?
    ensures slot.Some? ==> InSlot(typ, slot.value) && SlotValue(slot.value) == ValueFor(typ, e).value
  {
    slot := None;
    match typ
    case StringType(size) =>
      if e.typ == StringV {
        StrNCpyTruncates(e.text, size);
        slot := Some(TextSlot(Terminate(StrNCpy(e.text, size))));
      }
    case Uint32 =>
      if !(e.typ != LongV || e.long < 0 || e.long > TWO_32 - 1) {
        slot := Some(NumberSlot(AsUnsigned(e.long, TWO_32)));
      }
    case Uint64 =>
      if !(e.typ != LongV || e.long < 0) {
        slot := Some(NumberSlot(AsUnsigned(e.long, TWO_64)));
      }
    case Int64 =>
      if e.typ == LongV {
        slot := Some(NumberSlot(e.long));
      }
    case Sint64 =>
      if e.typ == LongV {
        slot := Some(NumberSlot(e.long));
      }
    case _ =>
      if !(e.typ != LongV || e.long > TWO_31 - 1 || e.long < -TWO_31) {
        slot := Some(NumberSlot(AsSigned(e.long, TWO_31)));
      }
  }

  // The update's copy of one member: a string is cut a second time, to no effect.
  method CopySlot(typ: PbType, from: Slot) returns (slot: Slot)
    requires HasRoom(typ) && InSlot(typ, from)
    ensures InSlot(typ, slot) && SlotValue(slot) == SlotValue(from)
  {
    slot := from;
    if typ.StringType? {
      var text := CString(from.bytes);
      ShorterThanBuffer(from.bytes);
      StrNCpyTruncates(text, typ.size);
      slot := TextSlot(Terminate(StrNCpy(text, typ.size)));
    }
  }

  lemma ShorterThanBuffer(bytes: seq<char>)
    requires NUL in bytes
    ensures |CString(bytes)| < |bytes|
  {
  }

  // Only fields of the message type are set.
  ghost predicate AllKnown(fields: seq<PbField>, has: set<string>) {
    has <= Names(fields)
  }

  function Names(fields: seq<PbField>): set<string> {
    set f | f in fields :: f.name
  }

  // Every member that is set is a field, and properly stored.
  ghost predicate Proper(fields: seq<PbField>, has: set<string>, slots: map<string, Slot>) {
    && AllKnown(fields, has) && (forall f :: f in has ==> f in slots)
    && forall i :: 0 <= i < |fields| && fields[i].name in has ==> InSlot(fields[i].typ, slots[fields[i].name])
  }

  function Values(has: set<string>, slots: map<string, Slot>): map<string, Attribute> {
    map f | f in has && f in slots :: SlotValue(slots[f])
  }

  lemma KeysOfProper(fields: seq<PbField>, has: set<string>, slots: map<string, Slot>)
    requires Proper(fields, has, slots)
    ensures Values(has, slots).Keys == has && AllKnown(fields, Values(has, slots).Keys)
  {
  }

  lemma FieldHasIndex(fields: seq<PbField>, i: nat)
    requires MessageType(fields) && i < |fields|
    ensures IndexOf(fields, fields[i].name) == i
  {
  }

  function AfterField(fields: seq<PbField>, incoming: map<string, Attribute>, i: nat, now: map<string, Attribute>)
    : map<string, Attribute>
    requires i < |fields|
  {
    if fields[i].name in incoming then now[fields[i].name := incoming[fields[i].name]] else now
  }

  // After the first i fields.
  function Copied(fields: seq<PbField>, incoming: map<string, Attribute>, before: map<string, Attribute>, i: nat)
    : map<string, Attribute>
    requires i <= |fields|
  {
    if i == 0 then before else AfterField(fields, incoming, i - 1, Copied(fields, incoming, before, i - 1))
  }

  function CopiedCount(fields: seq<PbField>, incoming: map<string, Attribute>, i: nat): nat
    requires i <= |fields|
  {
    if i == 0 then 0
    else CopiedCount(fields, incoming, i - 1) + if fields[i - 1].name in incoming then 1 else 0
  }

  lemma CopiedStart(fields: seq<PbField>, incoming: map<string, Attribute>, before: map<string, Attribute>)
    ensures Copied(fields, incoming, before, 0) == before && CopiedCount(fields, incoming, 0) == 0
  {
  }

  lemma CopiedNext(fields: seq<PbField>, incoming: map<string, Attribute>, before: map<string, Attribute>, i: nat)
    requires i < |fields|
    ensures Copied(fields, incoming, before, i + 1) ==
            AfterField(fields, incoming, i, Copied(fields, incoming, before, i))
    ensures CopiedCount(fields, incoming, i + 1) ==
            CopiedCount(fields, incoming, i) + if fields[i].name in incoming then 1 else 0
  {
  }

  // The names among the first i fields that are in keys.
  function NamesUpTo(fields: seq<PbField>, keys: set<string>, i: nat): set<string>
    requires i <= |fields|
  {
    if i == 0 then {}
    else if fields[i - 1].name in keys then NamesUpTo(fields, keys, i - 1) + {fields[i - 1].name}
    else NamesUpTo(fields, keys, i - 1)
  }

  lemma {:induction false} EarlierName(fields: seq<PbField>, keys: set<string>, j: nat, i: nat)
    requires j < i <= |fields| && fields[j].name in keys
    ensures fields[j].name in NamesUpTo(fields, keys, i)
  {
    if j < i - 1 {
      EarlierName(fields, keys, j, i - 1);
    }
  }

  lemma {:induction false} LaterName(fields: seq<PbField>, keys: set<string>, i: nat, j: nat)
    requires MessageType(fields) && i <= j < |fields|
    ensures fields[j].name !in NamesUpTo(fields, keys, i)
  {
    if i > 0 {
      LaterName(fields, keys, i - 1, j);
    }
  }

  lemma {:induction false} OnlyKeys(fields: seq<PbField>, keys: set<string>, i: nat)
    requires i <= |fields|
    ensures NamesUpTo(fields, keys, i) <= keys
  {
    if i > 0 {
      OnlyKeys(fields, keys, i - 1);
    }
  }

  function Restricted(m: map<string, Attribute>, names: set<string>): map<string, Attribute> {
    map f | f in m && f in names :: m[f]
  }

  lemma RestrictedStep(before: map<string, Attribute>, m: map<string, Attribute>, names: set<string>, name: string)
    requires name in m
    ensures before + Restricted(m, names + {name}) == (before + Restricted(m, names))[name := m[name]]
  {
  }

  lemma {:induction false} CopiedSoFar(fields: seq<PbField>, incoming: map<string, Attribute>,
                                       before: map<string, Attribute>, i: nat)
    requires i <= |fields|
    ensures Copied(fields, incoming, before, i) ==
            before + Restricted(incoming, NamesUpTo(fields, incoming.Keys, i))
  {
    if i == 0 {
      assert before + Restricted(incoming, {}) == before;
    } else {
      CopiedSoFar(fields, incoming, before, i - 1);
      if fields[i - 1].name in incoming {
        RestrictedStep(before, incoming, NamesUpTo(fields, incoming.Keys, i - 1), fields[i - 1].name);
      }
    }
  }

  lemma CountOne(names: set<string>, name: string)
    requires name !in names
    ensures |names + {name}| == |names| + 1
  {
  }

  lemma {:induction false} CopiedCounts(fields: seq<PbField>, incoming: map<string, Attribute>, i: nat)
    requires MessageType(fields) && i <= |fields|
    ensures CopiedCount(fields, incoming, i) == |NamesUpTo(fields, incoming.Keys, i)|
  {
    if i > 0 {
      CopiedCounts(fields, incoming, i - 1);
      if fields[i - 1].name in incoming {
        LaterName(fields, incoming.Keys, i - 1, i - 1);
        CountOne(NamesUpTo(fields, incoming.Keys, i - 1), fields[i - 1].name);
      }
    }
  }

  // Every key is the name of some field.
  lemma AllNames(fields: seq<PbField>, keys: set<string>)
    requires AllKnown(fields, keys)
    ensures NamesUpTo(fields, keys, |fields|) == keys
  {
    OnlyKeys(fields, keys, |fields|);
    forall f | f in keys ensures f in NamesUpTo(fields, keys, |fields|) {
      assert f in Names(fields);
      var j :| 0 <= j < |fields| && fields[j].name == f;
      EarlierName(fields, keys, j, |fields|);
    }
  }

  lemma CopiedAll(fields: seq<PbField>, incoming: map<string, Attribute>, before: map<string, Attribute>)
    requires MessageType(fields) && AllKnown(fields, incoming.Keys)
    ensures Copied(fields, incoming, before, |fields|) == before + incoming
    ensures CopiedCount(fields, incoming, |fields|) == |incoming|
  {
    AllNames(fields, incoming.Keys);
    CopiedSoFar(fields, incoming, before, |fields|);
    CopiedCounts(fields, incoming, |fields|);
    assert Restricted(incoming, incoming.Keys) == incoming;
    assert |incoming.Keys| == |incoming|;
  }

  class Attributes {
    const fields: seq<PbField>
    var has: set<string>
    var slots: map<string, Slot>

    ghost predicate Valid()
      reads this
    {
      MessageType(fields) && Proper(fields, has, slots)
    }

    function Contents(): map<string, Attribute>
      reads this
    {
      Values(has, slots)
    }

    // Zero-initialized.
    constructor (fields: seq<PbField>)
      requires MessageType(fields)
      ensures Valid() && this.fields == fields && Contents() == map[]
    {
      this.fields, has, slots := fields, {}, map[];
    }

    // Assignment of one member and its flag.
    method Set(i: nat, s: Slot)
      requires Valid() && i < |fields| && InSlot(fields[i].typ, s)
      modifies this
      ensures Valid() && Contents() == old(Contents())[fields[i].name := SlotValue(s)]
    {
      assert fields[i] in fields;
      has, slots := has + {fields[i].name}, slots[fields[i].name := s];
    }

    // One entry: compare its key with the fields in turn.
    method DecodeEntry(e: Entry) returns (ok: bool)
      requires Valid() && Decoded(e)
      modifies this
      ensures Valid()
      ensures ok <==> EffectOf(fields, e) != Rejected
      ensures match EffectOf(fields, e)
              case Sets(name, value) => Contents() == old(Contents())[name := value]
              case _ => Contents() == old(Contents())
    {
      if e.NoPair? {
        return true;
      }
      var i := 0;
      while i < |fields|
        invariant 0 <= i <= |fields| && Valid() && Contents() == old(Contents())
        invariant forall j :: 0 <= j < i ==> fields[j].name != e.key
      {
        SameUpToIsEqual(e.key, fields[i].name, KEY_SIZE);
        if SameUpTo(e.key, fields[i].name, KEY_SIZE) {
          FieldHasIndex(fields, i);
          var slot := ReadSlot(fields[i].typ, e);
          if slot.Some? {
            Set(i, slot.value);
          }
          return slot.Some?;
        }
        i := i + 1;
      }
      return true;
    }

    // All entries of a notification, into a zeroed struct; stops at a rejected one.
    method Decode(entries: seq<Entry>) returns (ok: bool)
      requires Valid() && Contents() == map[]
      requires forall i :: 0 <= i < |entries| ==> Decoded(entries[i])
      modifies this
      ensures Valid()
      ensures ok <==> DecodeAll(fields, map[], entries).Some?
      ensures ok ==> Contents() == DecodeAll(fields, map[], entries).value
    {
      var rest := entries;
      while rest != []
        invariant Valid() && forall i :: 0 <= i < |rest| ==> Decoded(rest[i])
        invariant DecodeAll(fields, Contents(), rest) == DecodeAll(fields, map[], entries)
        decreases |rest|
      {
        ok := DecodeEntry(rest[0]);
        if !ok {
          return false;
        }
        rest := rest[1..];
      }
      return true;
    }

    method CopyField(i: nat, newHas: set<string>, newSlots: map<string, Slot>)
      requires Valid() && i < |fields| && Proper(fields, newHas, newSlots)
      modifies this
      ensures Valid()
      ensures Contents() == AfterField(fields, Values(newHas, newSlots), i, old(Contents()))
    {
      if fields[i].name in newHas {
        var slot := CopySlot(fields[i].typ, newSlots[fields[i].name]);
        Set(i, slot);
      }
    }

    // Copies the members that are set in changes; their number is returned.
    method Update(changes: Attributes) returns (updated: nat)
      requires Valid() && changes.Valid() && changes.fields == fields
      modifies this
      ensures Valid() && Contents() == old(Contents()) + old(changes.Contents())
      ensures updated == |old(changes.Contents())|
    {
      var newHas, newSlots := changes.has, changes.slots;
      ghost var before, incoming := Contents(), Values(newHas, newSlots);
      KeysOfProper(fields, newHas, newSlots);
      hide Proper, AllKnown, Values, AfterField, MessageType, Copied, CopiedCount;
      CopiedStart(fields, incoming, before);
      updated := 0;
      var i := 0;
      while i < |fields|
        invariant 0 <= i <= |fields| && Valid()
        invariant Contents() == Copied(fields, incoming, before, i)
        invariant updated == CopiedCount(fields, incoming, i)
      {
        CopiedNext(fields, incoming, before, i);
        CopyField(i, newHas, newSlots);
        if fields[i].name in newHas {
          updated := updated + 1;
        }
        i := i + 1;
      }
      CopiedAll(fields, incoming, before);
    }

    // A notification: decode into a fresh struct, and update the cache only if that succeeded.
    method HandleNotification(entries: seq<Entry>) returns (status: Status)
      requires Valid() && forall i :: 0 <= i < |entries| ==> Decoded(entries[i])
      modifies this
      ensures Valid() && Contents() == Notified(fields, old(Contents()), entries)
      ensures status == if DecodeAll(fields, map[], entries).Some? then Ok else Err(EFAULT)
    {
      var changes := new Attributes(fields);
      var ok := changes.Decode(entries);
      if !ok {
        return Err(EFAULT);
      }
      var updated := Update(changes);
      return Ok;
    }
  }
}
