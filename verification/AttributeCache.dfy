/** The client's copy of the shared attributes, over any sequence of notifications (JSON build). */
module AttributeCache {
  import opened Wrappers
  import opened CStrings
  import opened AttributeValues
  import opened MiniC
  import opened UpdateCodegen

  // A decoded notification: the received bytes and the struct that points into them.
  datatype Note = Note(payload: seq<char>, changes: Struct)

  datatype Cache = Cache(current: Struct, buffers: map<string, seq<char>>)

  ghost predicate Good(fields: seq<Field>, size: nat, k: Cache) {
    DistinctNames(fields) && Buffered(fields, k.buffers, size) && Cached(k.current, k.buffers)
  }

  // What a reader of the cache sees. No received payload is needed to read it.
  function Seen(k: Cache): map<string, Attribute> {
    Contents(k.current, k.buffers, [])
  }

  function UpdateCall(fields: seq<Field>, k: Cache, n: Note): Outcome {
    Exec(DefineUpdateFun(fields), Machine(n.changes, k.current, k.buffers, n.payload, 0))
  }

  function Deliver(fields: seq<Field>, k: Cache, n: Note): Cache {
    var out := UpdateCall(fields, k, n);
    Cache(out.m.current, out.m.buffers)
  }

  function DeliverAll(fields: seq<Field>, k: Cache, notes: seq<Note>): Cache
    decreases |notes|
  {
    if notes == [] then k else DeliverAll(fields, Deliver(fields, k, notes[0]), notes[1..])
  }

  // What a notification changes.
  function Accepted(fields: seq<Field>, size: nat, n: Note): map<string, Attribute> {
    Applied(fields, Announced(n.changes, n.payload), size)
  }

  // The simple form: a map that each notification overrides.
  function Overridden(fields: seq<Field>, size: nat, seen: map<string, Attribute>, notes: seq<Note>)
    : map<string, Attribute>
    decreases |notes|
  {
    if notes == [] then seen else Overridden(fields, size, seen + Accepted(fields, size, notes[0]), notes[1..])
  }

  ghost predicate AllReceived(fields: seq<Field>, notes: seq<Note>) {
    forall i :: 0 <= i < |notes| ==> Received(fields, notes[i].changes, notes[i].payload)
  }

  // Cached contents do not depend on any payload, so they outlive the one they came from.
  lemma CacheOutlivesPayload(k: Cache, payload: seq<char>)
    requires Cached(k.current, k.buffers)
    ensures Contents(k.current, k.buffers, payload) == Seen(k)
  {
  }

  lemma AnnouncedDescribes(fields: seq<Field>, n: Note)
    requires Received(fields, n.changes, n.payload)
    ensures Describes(fields, n.changes, n.payload, Announced(n.changes, n.payload))
  {
  }

  lemma DeliverOverrides(fields: seq<Field>, size: nat, k: Cache, n: Note)
    requires Good(fields, size, k) && Received(fields, n.changes, n.payload)
    ensures Good(fields, size, Deliver(fields, k, n))
    ensures Seen(Deliver(fields, k, n)) == Seen(k) + Accepted(fields, size, n)
    ensures UpdateCall(fields, k, n).Next? <==> AllFit(fields, Announced(n.changes, n.payload), size)
    ensures UpdateCall(fields, k, n).Next? ==>
              UpdateCall(fields, k, n).m.changed == Present(fields, Announced(n.changes, n.payload))
  {
    AnnouncedDescribes(fields, n);
    var m := Machine(n.changes, k.current, k.buffers, n.payload, 0);
    UpdateMeetsSpec(fields, m, size, Announced(n.changes, n.payload));
    CacheOutlivesPayload(k, n.payload);
    CacheOutlivesPayload(Deliver(fields, k, n), n.payload);
  }

  // Any sequence of notifications leaves what the map holds.
  lemma {:induction false} CacheRefinesMap(fields: seq<Field>, size: nat, k: Cache, notes: seq<Note>)
    requires Good(fields, size, k) && AllReceived(fields, notes)
    ensures Good(fields, size, DeliverAll(fields, k, notes))
    ensures Seen(DeliverAll(fields, k, notes)) == Overridden(fields, size, Seen(k), notes)
    decreases |notes|
  {
    if notes != [] {
      DeliverOverrides(fields, size, k, notes[0]);
      CacheRefinesMap(fields, size, Deliver(fields, k, notes[0]), notes[1..]);
    }
  }

  // The value of a field is the one most recently accepted.
  lemma {:induction false} LastAcceptedWins(fields: seq<Field>, size: nat, seen: map<string, Attribute>,
                                            notes: seq<Note>, i: nat, f: string)
    requires i < |notes| && f in Accepted(fields, size, notes[i])
    requires forall j :: i < j < |notes| ==> f !in Accepted(fields, size, notes[j])
    ensures f in Overridden(fields, size, seen, notes)
    ensures Overridden(fields, size, seen, notes)[f] == Accepted(fields, size, notes[i])[f]
    decreases |notes|
  {
    var next := seen + Accepted(fields, size, notes[0]);
    if i > 0 {
      LastAcceptedWins(fields, size, next, notes[1..], i - 1, f);
    } else {
      forall j | 0 <= j < |notes[1..]| ensures f !in Accepted(fields, size, notes[1..][j]) {
        assert notes[1..][j] == notes[j + 1];
      }
      Untouched(fields, size, next, notes[1..], f);
    }
  }

  lemma {:induction false} Untouched(fields: seq<Field>, size: nat, seen: map<string, Attribute>,
                                     notes: seq<Note>, f: string)
    requires f in seen && forall j :: 0 <= j < |notes| ==> f !in Accepted(fields, size, notes[j])
    ensures f in Overridden(fields, size, seen, notes)
    ensures Overridden(fields, size, seen, notes)[f] == seen[f]
    decreases |notes|
  {
    if notes != [] {
      Untouched(fields, size, seen + Accepted(fields, size, notes[0]), notes[1..], f);
    }
  }

  // The client's fields for the shared attributes.
  class SharedAttributes {
    const fields: seq<Field>
    const size: nat
    var current: Struct
    var buffers: map<string, seq<char>>

    ghost predicate Valid()
      reads this
    {
      Good(fields, size, Cache(current, buffers))
    }

    function Contents(): map<string, Attribute>
      reads this
    {
      Seen(Cache(current, buffers))
    }

    constructor (fields: seq<Field>, size: nat)
      requires DistinctNames(fields)
      ensures Valid() && Contents() == map[] && this.fields == fields && this.size == size
    {
      this.fields, this.size := fields, size;
      current := Struct({}, map[]);
      buffers := map f: Field | f in fields :: f.name := seq(size, _ => NUL);
    }

    // A non-empty notification: decode, update the cache, tell the application. When a string is
    // too long the fields before it stay updated, and the application is not told.
    method HandleAttributes(decoded: Option<Note>) returns (status: Status, told: bool)
      requires Valid()
      requires decoded.Some? ==> Received(fields, decoded.value.changes, decoded.value.payload)
      modifies this
      ensures Valid()
      ensures decoded.None? ==> status == Err(EBADMSG) && Contents() == old(Contents())
      ensures decoded.Some? ==>
                Contents() == old(Contents()) + Accepted(fields, size, decoded.value)
      ensures decoded.Some? ==>
                status == if AllFit(fields, Announced(decoded.value.changes, decoded.value.payload), size)
                          then Ok else Err(EFAULT)
      ensures told <==> status.Ok?
    {
      if decoded.None? {
        return Err(EBADMSG), false;
      }
      DeliverOverrides(fields, size, Cache(current, buffers), decoded.value);
      var out := UpdateCall(fields, Cache(current, buffers), decoded.value);
      current, buffers := out.m.current, out.m.buffers;
      if out.Returned? {
        return Err(EFAULT), false;
      }
      return Ok, true;
    }
  }
}
