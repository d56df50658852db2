/** The generated update function, and the proof that it overrides the cache with the changes. */
module UpdateCodegen {
  import opened CStrings
  import opened AttributeValues
  import opened MiniC

  datatype FieldKind = Text | Number

  datatype Field = Field(name: string, kind: FieldKind)

  predicate DistinctNames(fields: seq<Field>) {
    forall i, j :: 0 <= i < j < |fields| ==> fields[i].name != fields[j].name
  }

  // The copy of one member, after the property's type.
  function MakeCopy(f: Field): seq<Stmt> {
    match f.kind
    case Number => [Assign(f.name, Get(Changes, f.name))]
    case Text =>
      [If(AtLeast(StrLen(Get(Changes, f.name)), SizeOf(f.name)), [ReturnNoMem]),
       CopyText(f.name, Get(Changes, f.name), SizeOf(f.name)),
       Assign(f.name, Get(Buffer, f.name))]
  }

  function UpdateChecked(f: Field): Stmt {
    If(Has(Changes, f.name), MakeCopy(f) + [SetHas(f.name), Increment])
  }

  function DefineUpdateFun(fields: seq<Field>): seq<Stmt> {
    if fields == [] then [] else [UpdateChecked(fields[0])] + DefineUpdateFun(fields[1..])
  }

  // What a struct means: the values of the members whose flag is set.

  function Meaning(v: Value, buffers: map<string, seq<char>>, payload: seq<char>): Attribute {
    match v
    case Ptr(p) => TextValue(CString(Bytes(p, buffers, payload)))
    case Int(n) => NumberValue(n)
    case Flag(_) => NumberValue(0)
  }

  function Contents(s: Struct, buffers: map<string, seq<char>>, payload: seq<char>): map<string, Attribute> {
    map f | f in s.has && f in s.values :: Meaning(s.values[f], buffers, payload)
  }

  predicate TooLong(a: Attribute, size: nat) {
    a.TextValue? && |a.s| >= size
  }

  // Every present field fits its buffer.
  predicate AllFit(fields: seq<Field>, changes: map<string, Attribute>, size: nat) {
    forall i :: 0 <= i < |fields| && fields[i].name in changes ==> !TooLong(changes[fields[i].name], size)
  }

  // The fields that the update applies: those present before the first one that is too long.
  function Applied(fields: seq<Field>, changes: map<string, Attribute>, size: nat): map<string, Attribute> {
    if fields == [] then map[]
    else
      var f := fields[0].name;
      if f !in changes then Applied(fields[1..], changes, size)
      else if TooLong(changes[f], size) then map[]
      else map[f := changes[f]] + Applied(fields[1..], changes, size)
  }

  function Present(fields: seq<Field>, changes: map<string, Attribute>): nat {
    if fields == [] then 0
    else (if fields[0].name in changes then 1 else 0) + Present(fields[1..], changes)
  }

  // The strings received for one field lie NUL-terminated in the payload.
  predicate FieldReceived(f: Field, changes: Struct, payload: seq<char>) {
    f.name in changes.has ==>
      && f.name in changes.values
      && (f.kind == Number ==> changes.values[f.name].Int?)
      && (f.kind == Text ==>
            && changes.values[f.name].Ptr? && changes.values[f.name].p.Payload?
            && changes.values[f.name].p.at <= |payload|
            && NUL in payload[changes.values[f.name].p.at..])
  }

  predicate Received(fields: seq<Field>, changes: Struct, payload: seq<char>) {
    forall i :: 0 <= i < |fields| ==> FieldReceived(fields[i], changes, payload)
  }

  predicate Buffered(fields: seq<Field>, buffers: map<string, seq<char>>, size: nat) {
    forall i :: 0 <= i < |fields| && fields[i].kind == Text ==>
      fields[i].name in buffers && |buffers[fields[i].name]| == size
  }

  // Cached strings live, terminated, in the buffer of their own name.
  predicate Cached(current: Struct, buffers: map<string, seq<char>>) {
    forall f :: f in current.has ==> f in current.values && CachedValue(f, current.values[f], buffers)
  }

  ghost predicate Ready(fields: seq<Field>, m: Machine, size: nat) {
    && Received(fields, m.changes, m.payload) && Buffered(fields, m.buffers, size)
    && Cached(m.current, m.buffers)
  }

  // The machine after field f has been applied.
  function AfterField(f: Field, m: Machine): Machine
    requires f.name in m.changes.values
  {
    var v := m.changes.values[f.name];
    if f.kind == Number then
      m.(current := Struct(m.current.has + {f.name}, m.current.values[f.name := v]), changed := m.changed + 1)
    else
      var size := if f.name in m.buffers then |m.buffers[f.name]| else 0;
      m.(buffers := m.buffers[f.name := StrNCpy(TextAt(v, m), size)],
         current := Struct(m.current.has + {f.name}, m.current.values[f.name := Ptr(Own(f.name))]),
         changed := m.changed + 1)
  }

  lemma ExecFlags(f: string, m: Machine)
    ensures Exec([SetHas(f), Increment], m) ==
            Next(m.(current := m.current.(has := m.current.has + {f}), changed := m.changed + 1))
  {
    ExecCons(SetHas(f), [Increment], m);
    ExecCons(Increment, [], m.(current := m.current.(has := m.current.has + {f})));
    assert [SetHas(f)] + [Increment] == [SetHas(f), Increment];
    assert [Increment] + [] == [Increment];
  }

  lemma ExecNumber(f: Field, m: Machine)
    requires f.kind == Number && f.name in m.changes.values
    ensures Exec(MakeCopy(f) + [SetHas(f.name), Increment], m) == Next(AfterField(f, m))
  {
    var assign := Assign(f.name, Get(Changes, f.name));
    assert MakeCopy(f) == [assign];
    ExecCons(assign, [SetHas(f.name), Increment], m);
    ExecFlags(f.name, ExecStmt(assign, m).m);
  }

  lemma ExecCheck(n: string, m: Machine)
    requires n in m.changes.values && n in m.buffers
    ensures ExecStmt(If(AtLeast(StrLen(Get(Changes, n)), SizeOf(n)), [ReturnNoMem]), m) ==
            if |TextAt(m.changes.values[n], m)| >= |m.buffers[n]| then Returned(m) else Next(m)
  {
    assert Eval(Get(Changes, n), m) == m.changes.values[n];
    assert Eval(StrLen(Get(Changes, n)), m) == Int(|TextAt(m.changes.values[n], m)|);
    assert Eval(SizeOf(n), m) == Int(|m.buffers[n]|);
    ExecCons(ReturnNoMem, [], m);
    assert [ReturnNoMem] + [] == [ReturnNoMem];
  }

  lemma ExecCopy(n: string, m: Machine)
    requires n in m.changes.values && n in m.buffers
    ensures var text := StrNCpy(TextAt(m.changes.values[n], m), |m.buffers[n]|);
            var copied := m.(buffers := m.buffers[n := text]);
            && ExecStmt(CopyText(n, Get(Changes, n), SizeOf(n)), m) == Next(copied)
            && ExecStmt(Assign(n, Get(Buffer, n)), copied) ==
               Next(copied.(current := copied.current.(values := copied.current.values[n := Ptr(Own(n))])))
  {
    assert Eval(SizeOf(n), m) == Int(|m.buffers[n]|);
  }

  lemma ExecText(f: Field, m: Machine)
    requires f.kind == Text && f.name in m.changes.values && f.name in m.buffers
    ensures Exec(MakeCopy(f) + [SetHas(f.name), Increment], m) ==
            if |TextAt(m.changes.values[f.name], m)| >= |m.buffers[f.name]| then Returned(m)
            else Next(AfterField(f, m))
  {
    hide Exec, ExecStmt;
    var n := f.name;
    var check := If(AtLeast(StrLen(Get(Changes, n)), SizeOf(n)), [ReturnNoMem]);
    var copy := CopyText(n, Get(Changes, n), SizeOf(n));
    var assign := Assign(n, Get(Buffer, n));
    var flags := [SetHas(n), Increment];
    assert MakeCopy(f) + flags == [check] + ([copy] + ([assign] + flags));
    ExecCons(check, [copy] + ([assign] + flags), m);
    ExecCheck(n, m);
    ExecCons(copy, [assign] + flags, m);
    ExecCopy(n, m);
    var copied := ExecStmt(copy, m).m;
    ExecCons(assign, flags, copied);
    ExecFlags(n, ExecStmt(assign, copied).m);
  }

  // One field: unchanged if absent, an early return if too long, applied otherwise.
  lemma ExecField(f: Field, m: Machine, size: nat)
    requires FieldReceived(f, m.changes, m.payload)
    requires f.kind == Text ==> f.name in m.buffers && |m.buffers[f.name]| == size
    ensures f.name !in m.changes.has ==> ExecStmt(UpdateChecked(f), m) == Next(m)
    ensures f.name in m.changes.has ==>
              var a := Meaning(m.changes.values[f.name], m.buffers, m.payload);
              ExecStmt(UpdateChecked(f), m) ==
              if TooLong(a, size) then Returned(m) else Next(AfterField(f, m))
  {
    if f.name in m.changes.has {
      if f.kind == Number {
        ExecNumber(f, m);
      } else {
        ExecText(f, m);
      }
    }
  }

  predicate CachedValue(name: string, v: Value, buffers: map<string, seq<char>>) {
    v.Int? || (v == Ptr(Own(name)) && name in buffers && NUL in buffers[name])
  }

  // Setting one member, and perhaps its buffer, overrides one entry.
  lemma SetMember(s: Struct, buffers: map<string, seq<char>>, payload: seq<char>, name: string, v: Value,
                  now: map<string, seq<char>>)
    requires Cached(s, buffers) && CachedValue(name, v, now)
    requires forall g :: g in buffers && g != name ==> g in now && now[g] == buffers[g]
    ensures var r := Struct(s.has + {name}, s.values[name := v]);
            && Cached(r, now)
            && Contents(r, now, payload) == Contents(s, buffers, payload)[name := Meaning(v, now, payload)]
  {
  }

  // The text that arrived is the text that is stored, now in the client's own buffer.
  lemma AfterFieldMeaning(f: Field, m: Machine, size: nat)
    requires FieldReceived(f, m.changes, m.payload) && f.name in m.changes.has
    requires f.kind == Text ==> f.name in m.buffers && |m.buffers[f.name]| == size
    requires !TooLong(Meaning(m.changes.values[f.name], m.buffers, m.payload), size)
    requires Cached(m.current, m.buffers)
    ensures var r := AfterField(f, m);
            && Cached(r.current, r.buffers)
            && Contents(r.current, r.buffers, m.payload) ==
               Contents(m.current, m.buffers, m.payload)[f.name :=
                 Meaning(m.changes.values[f.name], m.buffers, m.payload)]
  {
    hide Contents, Cached;
    var v := m.changes.values[f.name];
    if f.kind == Text {
      var text := TextAt(v, m);
      StrNCpyKeepsShort(text, size);
      SetMember(m.current, m.buffers, m.payload, f.name, Ptr(Own(f.name)), m.buffers[f.name := StrNCpy(text, size)]);
    } else {
      SetMember(m.current, m.buffers, m.payload, f.name, v, m.buffers);
    }
  }

  // What a notification says: the contents of the received struct, read from the payload.
  function Announced(changes: Struct, payload: seq<char>): map<string, Attribute> {
    Contents(changes, map[], payload)
  }

  // The changes, as far as they concern these fields.
  ghost predicate Describes(fields: seq<Field>, changes: Struct, payload: seq<char>, c: map<string, Attribute>) {
    forall i :: 0 <= i < |fields| ==>
      && (fields[i].name in changes.has <==> fields[i].name in c)
      && (fields[i].name in c ==> fields[i].name in changes.values &&
                                  c[fields[i].name] == Meaning(changes.values[fields[i].name], map[], payload))
  }

  // The buffers are fixed memory.
  predicate SameSizes(before: map<string, seq<char>>, after: map<string, seq<char>>) {
    forall g :: g in before ==> g in after && |after[g]| == |before[g]|
  }

  // What the update function makes of machine m.
  ghost predicate Updated(fields: seq<Field>, c: map<string, Attribute>, size: nat, m: Machine, out: Outcome) {
    && (out.Next? <==> AllFit(fields, c, size))
    && (out.Next? ==> out.m.changed == m.changed + Present(fields, c))
    && out.m.changes == m.changes && out.m.payload == m.payload
    && SameSizes(m.buffers, out.m.buffers)
    && Cached(out.m.current, out.m.buffers)
    && Contents(out.m.current, out.m.buffers, m.payload) ==
       Contents(m.current, m.buffers, m.payload) + Applied(fields, c, size)
  }

  lemma AllFitStep(fields: seq<Field>, c: map<string, Attribute>, size: nat)
    requires fields != []
    ensures AllFit(fields, c, size) <==>
            (fields[0].name in c ==> !TooLong(c[fields[0].name], size)) && AllFit(fields[1..], c, size)
  {
  }

  // The rest of the fields is still to be done after the first one.
  lemma ReadyForRest(fields: seq<Field>, m: Machine, size: nat, c: map<string, Attribute>, next: Machine)
    requires fields != [] && DistinctNames(fields)
    requires Received(fields, m.changes, m.payload) && Buffered(fields, m.buffers, size)
    requires Describes(fields, m.changes, m.payload, c)
    requires next.changes == m.changes && next.payload == m.payload
    requires forall g :: g in m.buffers && g != fields[0].name ==> g in next.buffers && next.buffers[g] == m.buffers[g]
    ensures DistinctNames(fields[1..])
    ensures Received(fields[1..], next.changes, next.payload) && Buffered(fields[1..], next.buffers, size)
    ensures Describes(fields[1..], next.changes, next.payload, c)
  {
  }

  lemma FieldUpdates(f: Field, m: Machine, size: nat, a: Attribute)
    requires FieldReceived(f, m.changes, m.payload) && f.name in m.changes.has
    requires f.kind == Text ==> f.name in m.buffers && |m.buffers[f.name]| == size
    requires a == Meaning(m.changes.values[f.name], map[], m.payload) && Cached(m.current, m.buffers)
    ensures TooLong(a, size) ==> ExecStmt(UpdateChecked(f), m) == Returned(m)
    ensures !TooLong(a, size) ==>
              var r := AfterField(f, m);
              && ExecStmt(UpdateChecked(f), m) == Next(r) && Cached(r.current, r.buffers)
              && Contents(r.current, r.buffers, m.payload) == Contents(m.current, m.buffers, m.payload)[f.name := a]
  {
    ExecField(f, m, size);
    if !TooLong(a, size) {
      AfterFieldMeaning(f, m, size);
    }
  }

  // The three ways a first field goes.

  lemma UpdatedAbsent(fields: seq<Field>, c: map<string, Attribute>, size: nat, m: Machine, out: Outcome)
    requires fields != [] && fields[0].name !in c && Updated(fields[1..], c, size, m, out)
    ensures Updated(fields, c, size, m, out)
  {
  }

  lemma UpdatedStopped(fields: seq<Field>, c: map<string, Attribute>, size: nat, m: Machine)
    requires fields != [] && fields[0].name in c && TooLong(c[fields[0].name], size)
    requires Cached(m.current, m.buffers)
    ensures Updated(fields, c, size, m, Returned(m))
  {
  }

  lemma OverrideStep(before: map<string, Attribute>, f: string, a: Attribute, rest: map<string, Attribute>)
    ensures before[f := a] + rest == before + (map[f := a] + rest)
  {
  }

  lemma UpdatedApplied(fields: seq<Field>, c: map<string, Attribute>, size: nat, m: Machine, next: Machine,
                       out: Outcome)
    requires fields != [] && fields[0].name in c && !TooLong(c[fields[0].name], size)
    requires SameSizes(m.buffers, next.buffers)
    requires next.changed == m.changed + 1 && next.changes == m.changes && next.payload == m.payload
    requires Contents(next.current, next.buffers, m.payload) ==
             Contents(m.current, m.buffers, m.payload)[fields[0].name := c[fields[0].name]]
    requires Updated(fields[1..], c, size, next, out)
    ensures Updated(fields, c, size, m, out)
  {
    AllFitStep(fields, c, size);
    hide Contents, Cached, AllFit;
    OverrideStep(Contents(m.current, m.buffers, m.payload), fields[0].name, c[fields[0].name],
                 Applied(fields[1..], c, size));
  }

  // What the first field does to the machine.
  ghost predicate FieldDone(f: string, c: map<string, Attribute>, size: nat, m: Machine, step: Outcome) {
    if f !in c then step == Next(m)
    else if TooLong(c[f], size) then step == Returned(m)
    else
      && step.Next? && SameSizes(m.buffers, step.m.buffers)
      && step.m.changed == m.changed + 1 && step.m.changes == m.changes && step.m.payload == m.payload
      && Contents(step.m.current, step.m.buffers, m.payload) == Contents(m.current, m.buffers, m.payload)[f := c[f]]
  }

  lemma FirstField(fields: seq<Field>, m: Machine, size: nat, c: map<string, Attribute>)
    requires fields != [] && DistinctNames(fields) && Ready(fields, m, size)
    requires Describes(fields, m.changes, m.payload, c)
    ensures var step := ExecStmt(UpdateChecked(fields[0]), m);
            && FieldDone(fields[0].name, c, size, m, step)
            && (step.Next? ==> Ready(fields[1..], step.m, size) && DistinctNames(fields[1..]) &&
                               Describes(fields[1..], step.m.changes, step.m.payload, c))
  {
    hide Contents, ExecStmt;
    var f := fields[0];
    assert FieldReceived(f, m.changes, m.payload);
    if f.name !in c {
      ExecField(f, m, size);
      ReadyForRest(fields, m, size, c, m);
    } else {
      FieldUpdates(f, m, size, c[f.name]);
      if !TooLong(c[f.name], size) {
        ReadyForRest(fields, m, size, c, AfterField(f, m));
      }
    }
  }

  lemma RestUpdated(fields: seq<Field>, c: map<string, Attribute>, size: nat, m: Machine, step: Outcome, out: Outcome)
    requires fields != [] && Cached(m.current, m.buffers) && FieldDone(fields[0].name, c, size, m, step)
    requires if step.Next? then Updated(fields[1..], c, size, step.m, out) else out == step
    ensures Updated(fields, c, size, m, out)
  {
    hide Updated, Cached, Contents;
    if fields[0].name !in c {
      UpdatedAbsent(fields, c, size, m, out);
    } else if TooLong(c[fields[0].name], size) {
      UpdatedStopped(fields, c, size, m);
    } else {
      UpdatedApplied(fields, c, size, m, step.m, out);
    }
  }

  lemma NothingUpdated(m: Machine, size: nat, c: map<string, Attribute>)
    requires Cached(m.current, m.buffers)
    ensures Updated([], c, size, m, Exec(DefineUpdateFun([]), m))
  {
    var before := Contents(m.current, m.buffers, m.payload);
    assert before + map[] == before;
  }

  // The generated function meets its specification, for every flat schema with distinct names.
  lemma {:induction false} UpdateMeetsSpec(fields: seq<Field>, m: Machine, size: nat, c: map<string, Attribute>)
    requires DistinctNames(fields) && Ready(fields, m, size)
    requires Describes(fields, m.changes, m.payload, c)
    ensures Updated(fields, c, size, m, Exec(DefineUpdateFun(fields), m))
    decreases |fields|
  {
    assert Cached(m.current, m.buffers);
    assert fields != [] ==> DefineUpdateFun(fields) == [UpdateChecked(fields[0])] + DefineUpdateFun(fields[1..]);
    hide *;
    if fields == [] {
      NothingUpdated(m, size, c);
    } else {
      var step, rest := ExecStmt(UpdateChecked(fields[0]), m), DefineUpdateFun(fields[1..]);
      FirstField(fields, m, size, c);
      ExecCons(UpdateChecked(fields[0]), rest, m);
      if step.Next? {
        UpdateMeetsSpec(fields[1..], step.m, size, c);
      }
      RestUpdated(fields, c, size, m, step, Exec(DefineUpdateFun(fields), m));
    }
  }

  function Names(fields: seq<Field>): set<string> {
    set f | f in fields :: f.name
  }

  // The function succeeds exactly if each text that arrived is shorter than its buffer, and then
  // returns how many of the schema's fields arrived.
  lemma UpdateSucceedsIff(fields: seq<Field>, m: Machine, size: nat, c: map<string, Attribute>)
    requires DistinctNames(fields) && Ready(fields, m, size) && Describes(fields, m.changes, m.payload, c)
    ensures var out := Exec(DefineUpdateFun(fields), m);
            && (out.Next? <==> forall i :: 0 <= i < |fields| && fields[i].name in c && c[fields[i].name].TextValue? ==>
                                 |c[fields[i].name].s| < size)
            && (out.Next? ==> out.m.changed == m.changed + |Names(fields) * c.Keys|)
  {
    hide Exec;
    UpdateMeetsSpec(fields, m, size, c);
    PresentCounts(fields, c);
  }

  // What is in memory after a success, for a field that arrived: the number itself, or a pointer to
  // the client's own buffer, which holds the text that was received.
  lemma StoredInMemory(fields: seq<Field>, m: Machine, size: nat, c: map<string, Attribute>, i: nat)
    requires DistinctNames(fields) && Ready(fields, m, size) && Describes(fields, m.changes, m.payload, c)
    requires Exec(DefineUpdateFun(fields), m).Next? && i < |fields| && fields[i].name in m.changes.has
    ensures var f, out := fields[i], Exec(DefineUpdateFun(fields), m).m;
            && f.name in out.current.has && f.name in out.current.values
            && f.name in m.changes.values
            && (f.kind == Number ==> out.current.values[f.name] == m.changes.values[f.name])
            && (f.kind == Text ==>
                  && out.current.values[f.name] == Ptr(Own(f.name)) && f.name in out.buffers
                  && m.changes.values[f.name].Ptr? && m.changes.values[f.name].p.Payload?
                  && m.changes.values[f.name].p.at <= |m.payload|
                  && CString(out.buffers[f.name]) == CString(m.payload[m.changes.values[f.name].p.at..]))
  {
    hide Exec;
    var f := fields[i];
    UpdateMeetsSpec(fields, m, size, c);
    AppliedMeaning(fields, c, size, |fields|);
    assert FieldReceived(f, m.changes, m.payload);
    var out := Exec(DefineUpdateFun(fields), m).m;
    var stored := Contents(out.current, out.buffers, m.payload);
    assert f.name in Applied(fields, c, size) && stored[f.name] == c[f.name];
    assert CachedValue(f.name, out.current.values[f.name], out.buffers);
  }

  // What did not arrive is as it was.
  lemma OthersUntouched(fields: seq<Field>, m: Machine, size: nat, c: map<string, Attribute>, f: string)
    requires DistinctNames(fields) && Ready(fields, m, size) && Describes(fields, m.changes, m.payload, c)
    requires f !in Names(fields) || f !in c
    ensures var out := Exec(DefineUpdateFun(fields), m).m;
            var before := Contents(m.current, m.buffers, m.payload);
            var after := Contents(out.current, out.buffers, m.payload);
            (f in after <==> f in before) && (f in before ==> after[f] == before[f])
  {
    hide Exec, Contents;
    UpdateMeetsSpec(fields, m, size, c);
    AppliedKnown(fields, c, size);
  }

  lemma {:induction false} PresentCounts(fields: seq<Field>, c: map<string, Attribute>)
    requires DistinctNames(fields)
    ensures Present(fields, c) == |Names(fields) * c.Keys|
  {
    if fields == [] {
      assert Names(fields) * c.Keys == {};
    } else {
      var f, rest := fields[0].name, fields[1..];
      PresentCounts(rest, c);
      NamesStep(fields);
      OneMoreName(Names(rest), f, c.Keys);
    }
  }

  lemma NamesStep(fields: seq<Field>)
    requires fields != [] && DistinctNames(fields)
    ensures Names(fields) == Names(fields[1..]) + {fields[0].name} && fields[0].name !in Names(fields[1..])
  {
    assert fields == [fields[0]] + fields[1..];
  }

  lemma OneMoreName(names: set<string>, f: string, keys: set<string>)
    requires f !in names
    ensures |(names + {f}) * keys| == |names * keys| + if f in keys then 1 else 0
  {
    assert (names + {f}) * keys == names * keys + if f in keys then {f} else {};
  }

  // Position k is the first present field that is too long; |fields| if there is none.
  predicate FirstTooLong(fields: seq<Field>, c: map<string, Attribute>, size: nat, k: nat) {
    && k <= |fields|
    && AllFit(fields[..k], c, size)
    && (k < |fields| ==> fields[k].name in c && TooLong(c[fields[k].name], size))
  }

  // What is applied: exactly the present fields before position k, with the announced values.
  lemma {:induction false} AppliedMeaning(fields: seq<Field>, c: map<string, Attribute>, size: nat, k: nat)
    requires DistinctNames(fields) && FirstTooLong(fields, c, size, k)
    ensures forall i :: 0 <= i < |fields| ==>
              (fields[i].name in Applied(fields, c, size) <==> i < k && fields[i].name in c)
    ensures forall f :: f in Applied(fields, c, size) ==> f in c && Applied(fields, c, size)[f] == c[f]
    ensures AllFit(fields, c, size) <==> k == |fields|
  {
    if fields != [] {
      AllFitStep(fields, c, size);
      if k > 0 {
        assert fields[..k][0] == fields[0] && fields[..k][1..] == fields[1..][..k - 1];
        AllFitStep(fields[..k], c, size);
        AppliedMeaning(fields[1..], c, size, k - 1);
        forall i | 0 < i < |fields| ensures fields[i] == fields[1..][i - 1] && fields[i].name != fields[0].name {
        }
      }
      AppliedKnown(fields, c, size);
    }
  }

  lemma {:induction false} AppliedKnown(fields: seq<Field>, c: map<string, Attribute>, size: nat)
    ensures forall f :: f in Applied(fields, c, size) ==>
              f in c && Applied(fields, c, size)[f] == c[f] && exists i :: 0 <= i < |fields| && fields[i].name == f
  {
    if fields != [] {
      AppliedKnown(fields[1..], c, size);
      forall i | 0 <= i < |fields[1..]| ensures fields[1..][i] == fields[i + 1] {}
      assert fields[0].name == fields[0].name;
    }
  }
}
