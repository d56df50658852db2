/**
 Sending timeseries: prepare all requests first, each in its own slab block, then hand them to
 the CoAP client one after the other.
 */
module SendTimeseries {
  import opened Wrappers
  import opened CStrings
  import opened Paths
  import opened TimeseriesText
  import opened Batching
  import opened RequestPool

  datatype Message = Message(path: string, body: seq<char>)

  // Ready: encoded. Exhausted: no block left. Refused: the encoder failed.
  datatype Prepared = Ready | Exhausted | Refused

  datatype Outcome = Delivered | Failure(errno: Errno)

  // One message per body, all on the same path.
  function MessagesOf(path: string, bodies: seq<seq<char>>): (r: seq<Message>)
    ensures |r| == |bodies|
  {
    seq(|bodies|, i requires 0 <= i < |bodies| => Message(path, bodies[i]))
  }

  ghost predicate AllBatchesEncodable(batches: seq<seq<Record>>) {
    forall i :: 0 <= i < |batches| ==> AllEncodable(batches[i])
  }

  // The messages of a sequence of batches.
  ghost function BatchMessages(path: string, batches: seq<seq<Record>>): (r: seq<Message>)
    ensures |r| == |batches|
  {
    seq(|batches|, i requires 0 <= i < |batches| =>
      Message(path, if AllEncodable(batches[i]) then ArrayText(batches[i]) else ""))
  }

  // The payload memory of every block of the slab.
  method NewBuffers(size: nat, cap: nat) returns (payload: seq<array<char>>)
    ensures |payload| == size
    ensures forall b :: 0 <= b < size ==> payload[b].Length == cap && fresh(payload[b])
    ensures forall a, b :: 0 <= a < b < size ==> payload[a] != payload[b]
  {
    payload := [];
    for i := 0 to size
      invariant |payload| == i
      invariant forall b :: 0 <= b < i ==> payload[b].Length == cap && fresh(payload[b])
      invariant forall a, b :: 0 <= a < b < i ==> payload[a] != payload[b]
    {
      var body := new char[cap];
      payload := payload + [body];
    }
  }

  // The batches encoded so far, the blocks they are in, and the encoded texts.
  datatype Progress = Progress(batches: seq<seq<Record>>, held: seq<Block>, bodies: seq<seq<char>>)

  class Sender {
    const pool: Pool
    const dtls: bool
    const token: string     // the text of the access token
    const cap: nat          // size of a payload buffer
    const pathCap: nat      // size of a path buffer
    const payload: seq<array<char>>
    var sent: seq<Message>  // what the CoAP client has accepted

    ghost predicate Buffers()
    {
      && |payload| == pool.size
      && 0 < pathCap
      && (forall b :: 0 <= b < |payload| ==> payload[b].Length == cap)
      && (forall a, b :: 0 <= a < b < |payload| ==> payload[a] != payload[b])
      && NUL !in token
    }

    ghost predicate Valid()
      reads this, pool
    {
      pool.Valid() && Buffers()
    }

    constructor (pool: Pool, dtls: bool, token: string, cap: nat, pathCap: nat)
      requires pool.Valid() && 0 < pathCap && NUL !in token
      ensures Valid() && sent == []
      ensures this.pool == pool && this.dtls == dtls && this.token == token
      ensures this.cap == cap && this.pathCap == pathCap
    {
      var buffers := NewBuffers(pool.size, cap);
      this.pool, this.dtls, this.token, this.cap, this.pathCap := pool, dtls, token, cap, pathCap;
      payload := buffers;
      sent := [];
    }

    // known: whether the client has its access token.
    function Segments(known: bool): seq<string> {
      TelemetryPath(dtls, token, known)
    }

    predicate PathFits(known: bool) {
      Fits(Segments(known), pathCap)
    }

    function Path(known: bool): string {
      PathText(Segments(known))
    }

    method SendTelemetryRequest(b: Block, sz: nat, known: bool, accepted: bool) returns (status: Status)
      requires Valid() && b in pool.Held() && sz <= cap
      modifies this`sent, pool
      ensures Valid()
      ensures status == if !PathFits(known) then Err(EFAULT) else if !accepted then Err(EIO) else Ok
      ensures pool.free == if status.Ok? then old(pool.free) else old(pool.free) + {b}
      ensures pool.owned == if status.Ok? then old(pool.owned)[b := Telemetry] else old(pool.owned)
      ensures sent == if status.Ok? then old(sent) + [Message(Path(known), payload[b][..sz])] else old(sent)
    {
      TelemetryPathHasNoNul(dtls, token, known);
      hide TelemetryPath, PathText, PathSize;
      var path := new char[pathCap];  // the path buffer of the block, with whatever is in it
      ghost var stale := path[..];
      status := CatPath(Segments(known), path);
      if status.Err? {
        pool.Free(b);
        return Err(EFAULT);
      }
      BufferHoldsPath(Segments(known), stale);
      pool.Submit(b, Telemetry, accepted);
      if !accepted {
        pool.Free(b);
        return Err(EIO);
      }
      sent := sent + [Message(CString(path[..]), payload[b][..sz])];
    }

    // The first request slots hold distinct blocks of this call, loaded with the bodies.
    ghost predicate Loaded(requests: seq<Option<Block>>, lens: seq<nat>, held: seq<Block>,
                           bodies: seq<seq<char>>)
      requires Buffers()
      reads payload
    {
      && |held| == |bodies| <= |requests| == |lens| == |payload|
      && Distinct(held)
      && forall i :: 0 <= i < |held| ==>
           && requests[i] == Some(held[i]) && held[i] < |payload| && lens[i] <= cap
           && payload[held[i]][..lens[i]] == bodies[i]
    }

    // Frees the blocks in slots from..num, in a loop of the caller.
    method FreeSlots(requests: seq<Option<Block>>, from: nat, num: nat, ghost held: seq<Block>)
      requires pool.Valid() && from <= num == |held| <= |requests|
      requires Distinct(held) && SetOf(held[from..]) <= pool.Held()
      requires forall i :: 0 <= i < num ==> requests[i] == Some(held[i])
      modifies pool
      ensures pool.Valid() && pool.owned == old(pool.owned)
      ensures pool.free == old(pool.free) + SetOf(held[from..])
    {
      var i := from;
      ghost var left := SetOf(held[from..]);
      while i < num
        invariant from <= i <= num && pool.Valid() && pool.owned == old(pool.owned)
        invariant left == SetOf(held[i..]) <= pool.Held()
        invariant pool.free + left == old(pool.free) + SetOf(held[from..])
      {
        SplitHeld(held, i);
        left := SetOf(held[i + 1..]);
        pool.Free(requests[i].value);
        i := i + 1;
      }
      assert SetOf(held[num..]) == {};
    }

    // The request slots of a call: first the blocks it holds, then NULL.
    static ghost predicate Slots(requests: seq<Option<Block>>, held: seq<Block>) {
      && |held| <= |requests|
      && (forall i :: 0 <= i < |held| ==> requests[i] == Some(held[i]))
      && (forall i :: |held| <= i < |requests| ==> requests[i] == None)
    }

    // The blocks from slot i on.
    static ghost function Remaining(held: seq<Block>, i: nat): set<Block> {
      if i < |held| then SetOf(held[i..]) else {}
    }

    lemma RemainingStep(held: seq<Block>, i: nat)
      requires Distinct(held) && i < |held|
      ensures Remaining(held, i) == {held[i]} + Remaining(held, i + 1)
      ensures held[i] !in Remaining(held, i + 1)
    {
      SplitHeld(held, i);
    }

    // The blocks before slot i are freed, those from it on are still to be.
    ghost predicate Releasing(held: seq<Block>, i: nat, total: set<Block>)
      reads pool
    {
      pool.Valid() && Remaining(held, i) <= pool.Held() && pool.free + Remaining(held, i) == total
    }

    // One slot of the cleanup loop: its block is freed, if it holds one.
    method ReleaseSlot(requests: seq<Option<Block>>, i: nat, ghost held: seq<Block>, ghost total: set<Block>)
      returns (taken: bool)
      requires |held| <= |requests| && Distinct(held) && Slots(requests, held)
      requires Releasing(held, i, total)
      modifies pool
      ensures Releasing(held, i + 1, total) && pool.owned == old(pool.owned)
      ensures taken <==> i < |held|
    {
      taken := i < |requests| && requests[i].Some?;
      if taken {
        RemainingStep(held, i);
        pool.Free(requests[i].value);
      }
    }

    // The cleanup loop after a failed preparation visits slots 0..num inclusive. Slot num holds
    // the block of a failed encoding; after a failed allocation it holds none, and lies behind
    // the last slot when every block is taken. Freeing what is not there is reported as stray.
    method ReleaseRequests(requests: seq<Option<Block>>, num: nat, ghost held: seq<Block>)
      returns (stray: bool)
      requires pool.Valid() && num <= |held| <= num + 1 && |held| <= |requests|
      requires Distinct(held) && SetOf(held) <= pool.Held()
      requires Slots(requests, held)
      modifies pool
      ensures pool.Valid() && pool.owned == old(pool.owned)
      ensures pool.free == old(pool.free) + SetOf(held)
      ensures stray <==> |held| == num
    {
      stray := false;
      ghost var total := pool.free + SetOf(held);
      assert Releasing(held, 0, total) by {
        assert held[0..] == held;
      }
      var i := 0;
      while i <= num
        invariant 0 <= i <= num + 1 && pool.owned == old(pool.owned)
        invariant Releasing(held, i, total)
        invariant stray <==> i > |held|
      {
        var taken := ReleaseSlot(requests, i, held, total);
        if !taken {
          stray := true;
        }
        i := i + 1;
      }
    }

    // Invariant of the send loop: the first i requests went to the CoAP client.
    ghost predicate Handed(i: nat, held: seq<Block>, bodies: seq<seq<char>>,
                           path: string, free: set<Block>, owned: map<Block, Kind>, before: seq<Message>)
      reads this, pool
    {
      && i <= |held| == |bodies|
      && pool.free == free
      && pool.owned == HandOver(owned, held[..i])
      && sent == before + MessagesOf(path, bodies[..i])
    }

    lemma HandedStart(held: seq<Block>, bodies: seq<seq<char>>, path: string)
      requires |held| == |bodies|
      ensures Handed(0, held, bodies, path, pool.free, pool.owned, sent)
    {
    }

    lemma HandedStep(i: nat, held: seq<Block>, bodies: seq<seq<char>>, path: string, owned: map<Block, Kind>,
                     before: seq<Message>, now: seq<Message>)
      requires i < |held| == |bodies|
      requires now == before + MessagesOf(path, bodies[..i]) + [Message(path, bodies[i])]
      ensures now == before + MessagesOf(path, bodies[..i + 1])
      ensures HandOver(owned, held[..i + 1]) == HandOver(owned, held[..i])[held[i] := Telemetry]
    {
      HandOverSnoc(owned, held, i);
      assert MessagesOf(path, bodies[..i + 1]) == MessagesOf(path, bodies[..i]) + [Message(path, bodies[i])];
    }

    lemma StillHeld(held: seq<Block>, i: nat, free: set<Block>, owned: map<Block, Kind>)
      requires Distinct(held) && i <= |held|
      requires SetOf(held) <= AllBlocks(pool.size) - free - owned.Keys
      ensures SetOf(held[i..]) <= AllBlocks(pool.size) - free - HandOver(owned, held[..i]).Keys
    {
      HandOverKeys(owned, held[..i]);
      forall b | b in held[i..] ensures b in SetOf(held) && b !in held[..i] {
        var j :| i <= j < |held| && held[j] == b;
      }
    }

    lemma SplitHeld(held: seq<Block>, i: nat)
      requires Distinct(held) && i < |held|
      ensures SetOf(held[i..]) == {held[i]} + SetOf(held[i + 1..])
      ensures held[i] !in SetOf(held[i + 1..])
    {
    }

    // Request i of the send loop.
    method SendOne(requests: seq<Option<Block>>, lens: seq<nat>, i: nat, known: bool, accepted: bool,
                   ghost held: seq<Block>, ghost bodies: seq<seq<char>>,
                   ghost free: set<Block>, ghost owned: map<Block, Kind>, ghost before: seq<Message>)
      returns (status: Status)
      requires Valid() && i < |held| && Loaded(requests, lens, held, bodies)
      requires SetOf(held) <= AllBlocks(pool.size) - free - owned.Keys
      requires Handed(i, held, bodies, Path(known), free, owned, before)
      modifies this`sent, pool
      ensures Valid()
      ensures status.Ok? <==> PathFits(known) && accepted
      ensures status.Ok? ==> Handed(i + 1, held, bodies, Path(known), free, owned, before)
      ensures status.Err? ==> Handed(i, held, bodies, Path(known), free + {held[i]}, owned, before)
    {
      hide Path, PathFits;
      StillHeld(held, i, free, owned);
      SplitHeld(held, i);
      status := SendTelemetryRequest(requests[i].value, lens[i], known, accepted);
      if status.Ok? {
        HandedStep(i, held, bodies, Path(known), owned, before, sent);
      }
    }

    // One turn of the send loop; a rejected request takes the ones behind it along.
    method SendNext(requests: seq<Option<Block>>, lens: seq<nat>, i: nat, num: nat, known: bool, accepted: bool,
                    ghost held: seq<Block>, ghost bodies: seq<seq<char>>,
                    ghost free: set<Block>, ghost owned: map<Block, Kind>, ghost before: seq<Message>)
      returns (status: Status)
      requires Valid() && i < num == |held| && Loaded(requests, lens, held, bodies)
      requires SetOf(held) <= AllBlocks(pool.size) - free - owned.Keys
      requires Handed(i, held, bodies, Path(known), free, owned, before)
      modifies this`sent, pool
      ensures Valid()
      ensures status.Ok? <==> PathFits(known) && accepted
      ensures status.Ok? ==> Handed(i + 1, held, bodies, Path(known), free, owned, before)
      ensures status.Err? ==> Handed(i, held, bodies, Path(known), free + SetOf(held[i..]), owned, before)
    {
      hide Path, PathFits;
      status := SendOne(requests, lens, i, known, accepted, held, bodies, free, owned, before);
      if status.Err? {
        StillHeld(held, i, free, owned);
        SplitHeld(held, i);
        FreeSlots(requests, i + 1, num, held);
      }
    }

    method SendPrepared(requests: seq<Option<Block>>, lens: seq<nat>, num: nat, known: bool, accept: seq<bool>,
                        ghost held: seq<Block>, ghost bodies: seq<seq<char>>)
      returns (status: Status, ghost k: nat)
      requires Valid() && num == |held| <= |accept|
      requires Loaded(requests, lens, held, bodies) && SetOf(held) <= pool.Held()
      modifies this`sent, pool
      ensures Valid()
      // k is the number of requests accepted before the first rejected one.
      ensures k <= num && (k > 0 ==> PathFits(known)) && forall i :: 0 <= i < k ==> accept[i]
      ensures k < num ==> !(PathFits(known) && accept[k])
      ensures status == if k == num then Ok else Err(EIO)
      ensures sent == old(sent) + MessagesOf(Path(known), bodies[..k])
      ensures pool.owned == HandOver(old(pool.owned), held[..k])
      ensures pool.free == old(pool.free) + SetOf(held[k..])
    {
      hide HandOver, Path, PathFits;
      k := 0;
      HandedStart(held, bodies, Path(known));
      var i := 0;
      while i < num
        invariant i == k <= num && Valid()
        invariant (k > 0 ==> PathFits(known)) && forall j :: 0 <= j < k ==> accept[j]
        invariant Loaded(requests, lens, held, bodies)
        invariant Handed(i, held, bodies, Path(known), old(pool.free), old(pool.owned), old(sent))
      {
        status := SendNext(requests, lens, i, num, known, accept[i], held, bodies,
                           old(pool.free), old(pool.owned), old(sent));
        if status.Err? {
          return Err(EIO), k;
        }
        i := i + 1;
        k := i;
      }
      assert held[num..] == [];
      return Ok, k;
    }

    // The bodies that the batches of a plan encode to.
    static ghost predicate Encodes(batches: seq<seq<Record>>, bodies: seq<seq<char>>) {
      && |batches| == |bodies|
      && forall i :: 0 <= i < |batches| ==> AllEncodable(batches[i]) && bodies[i] == ArrayText(batches[i])
    }

    static lemma EncodesSnoc(batches: seq<seq<Record>>, bodies: seq<seq<char>>, batch: seq<Record>)
      requires Encodes(batches, bodies) && AllEncodable(batch)
      ensures Encodes(batches + [batch], bodies + [ArrayText(batch)])
    {
    }

    // Allocation and encoding of one request, the num-th of this call.
    method PrepareNext(todo: seq<Record>, requests: seq<Option<Block>>, lens: seq<nat>, num: nat,
                       hint: Block, ghost held: seq<Block>, ghost bodies: seq<seq<char>>)
      returns (result: Prepared, count: nat, requests': seq<Option<Block>>, lens': seq<nat>, ghost b: Block)
      requires Valid() && num == |held| && |pool.free| + num <= pool.size
      requires Loaded(requests, lens, held, bodies) && Slots(requests, held)
      requires forall i :: 0 <= i < |held| ==> held[i] !in pool.free
      modifies pool, payload
      ensures Valid() && pool.owned == old(pool.owned)
      ensures |requests'| == |requests| && |lens'| == |lens|
      ensures result.Exhausted? ==> old(pool.free) == {} && pool.free == {} && requests' == requests
      ensures !result.Exhausted? ==>
                && Choose(old(pool.free), pool.size, hint) == Some(b)
                && pool.free == old(pool.free) - {b} && Slots(requests', held + [b])
      ensures result.Ready? ==>
                && EncodeSucceeds(todo, cap) && count == Longest(todo, cap)
                && AllEncodable(todo[..count])
                && Loaded(requests', lens', held + [b], bodies + [ArrayText(todo[..count])])
      ensures result.Refused? ==> !EncodeSucceeds(todo, cap)
    {
      count, b, requests', lens' := 0, 0, requests, lens;
      var block := pool.Alloc(hint);
      if block.None? {
        result := Exhausted;
        return;
      }
      b := block.value;
      requests' := requests[num := block];
      assert Slots(requests', held + [b]);
      var status, n, len := TimeseriesEncode(todo, payload[block.value], cap);
      if status.Err? {
        result := Refused;
      } else {
        lens' := lens[num := len];
        result, count := Ready, n;
      }
    }

    // Invariant of the prepare loop: some records are in the batches done, the others still todo.
    // tripped: an array was empty, which the source asserts never to happen. oversize: that happens
    // in this call.
    ghost predicate Preparing(todo: seq<Record>, done: seq<seq<Record>>, held: seq<Block>, tripped: bool,
                              free: set<Block>, plan: Plan, oversize: bool)
      reads this, pool
    {
      && |done| == |held|
      && Distinct(held) && SetOf(held) <= free && pool.free == free - SetOf(held)
      && |pool.free| + |held| == |free|
      && plan == Extend(done, UncheckedPlan(todo, cap, |pool.free|))
      && (oversize <==> tripped || MakePlan(todo, cap, |pool.free|).Oversize?)
    }

    lemma PreparingStep(todo: seq<Record>, done: seq<seq<Record>>, held: seq<Block>, b: Block,
                        free: set<Block>, now: set<Block>, plan: Plan)
      requires |done| == |held| && Distinct(held) && SetOf(held) <= free
      requires b in free - SetOf(held) && now == free - SetOf(held) - {b}
      requires |free - SetOf(held)| + |held| == |free|
      requires todo != [] && plan == Extend(done, UncheckedPlan(todo, cap, |free - SetOf(held)|))
      ensures Distinct(held + [b]) && SetOf(held + [b]) == SetOf(held) + {b}
      ensures |now| + |held| + 1 == |free|
      ensures !EncodeSucceeds(todo, cap) ==>
                plan == BadRecord && !MakePlan(todo, cap, |free - SetOf(held)|).Oversize?
      ensures EncodeSucceeds(todo, cap) ==>
                var n := Longest(todo, cap);
                && plan == Extend(done + [todo[..n]], UncheckedPlan(todo[n..], cap, |now|))
                && (MakePlan(todo, cap, |free - SetOf(held)|).Oversize? <==>
                    n == 0 || MakePlan(todo[n..], cap, |now|).Oversize?)
    {
      if EncodeSucceeds(todo, cap) {
        ExtendStep(done, todo, cap, |free - SetOf(held)|);
        OversizeStep(todo, cap, |free - SetOf(held)|);
      }
    }

    // The plan's verdict, in the terms of the prepare phase.
    static function Verdict(plan: Plan): Prepared {
      match plan
      case Planned(_) => Ready
      case BadRecord => Refused
      case _ => Exhausted
    }

    // What the prepare phase leaves behind in the slab and in the request slots.
    ghost predicate Taken(requests: seq<Option<Block>>, held: seq<Block>, free: set<Block>)
      reads this, pool
    {
      && Slots(requests, held) && Distinct(held)
      && SetOf(held) <= free && pool.free == free - SetOf(held)
    }

    // One turn of the prepare loop.
    method PrepareTurn(todo: seq<Record>, requests: seq<Option<Block>>, lens: seq<nat>, num: nat, tripped: bool,
                       hint: Block, ghost done: seq<seq<Record>>, ghost held: seq<Block>,
                       ghost bodies: seq<seq<char>>, ghost free: set<Block>, ghost plan: Plan, ghost oversize: bool)
      returns (result: Prepared, count: nat, requests': seq<Option<Block>>, lens': seq<nat>, tripped': bool,
               ghost held': seq<Block>, ghost b: Block)
      requires Valid() && todo != [] && num == |held| && free <= AllBlocks(pool.size)
      requires Preparing(todo, done, held, tripped, free, plan, oversize) && Slots(requests, held)
      requires Loaded(requests, lens, held, bodies)
      modifies pool, payload
      ensures Valid() && pool.owned == old(pool.owned)
      ensures Taken(requests', held', free)
      ensures held' == if result.Exhausted? then held else held + [b]
      ensures !result.Exhausted? ==> Choose(free - SetOf(held), pool.size, hint) == Some(b)
      ensures result.Exhausted? ==> plan.NoRequest?
      ensures result.Refused? ==> plan.BadRecord?
      ensures !result.Ready? ==> (tripped' <==> oversize)
      ensures result.Ready? ==>
                && count <= |todo| && AllEncodable(todo[..count])
                && Preparing(todo[count..], done + [todo[..count]], held', tripped', free, plan, oversize)
                && Loaded(requests', lens', held', bodies + [ArrayText(todo[..count])])
    {
      hide Loaded, MakePlan, UncheckedPlan, Extend;
      CountFree(free);
      result, count, requests', lens', b := PrepareNext(todo, requests, lens, num, hint, held, bodies);
      held', tripped' := held, tripped;
      if result.Exhausted? {
        NothingFree(todo, done, plan);
      } else {
        held' := held + [b];
        PreparingStep(todo, done, held, b, free, pool.free, plan);
        tripped' := tripped || (result.Ready? && count == 0);
      }
    }

    lemma NothingFree(todo: seq<Record>, done: seq<seq<Record>>, plan: Plan)
      requires todo != [] && plan == Extend(done, UncheckedPlan(todo, cap, 0))
      ensures plan.NoRequest? && MakePlan(todo, cap, 0) == NoRequest
    {
    }

    // Invariant of the prepare loop, for the records rest that remain.
    ghost predicate Underway(rest: seq<Record>, requests: seq<Option<Block>>, lens: seq<nat>, tripped: bool,
                             hints: seq<Block>, p: Progress, free: set<Block>, plan: Plan, oversize: bool)
      requires Buffers()
      reads this, pool, payload
    {
      && Preparing(rest, p.batches, p.held, tripped, free, plan, oversize)
      && Encodes(p.batches, p.bodies) && Loaded(requests, lens, p.held, p.bodies) && Slots(requests, p.held)
      && p.held == Choices(free, pool.size, hints, |p.held|)
    }

    // What the loop leaves when a request could not be prepared.
    ghost predicate Abandoned(result: Prepared, requests: seq<Option<Block>>, num: nat, hints: seq<Block>,
                              held: seq<Block>, free: set<Block>, plan: Plan)
      reads this, pool
    {
      && result == Verdict(plan) && Taken(requests, held, free)
      && |held| == (if result.Exhausted? then num else num + 1)
      && held == Choices(free, pool.size, hints, |held|)
    }

    // One turn of the prepare loop.
    method PrepareRound(rest: seq<Record>, requests: seq<Option<Block>>, lens: seq<nat>, num: nat, tripped: bool,
                        hints: seq<Block>, ghost p: Progress, ghost free: set<Block>, ghost plan: Plan,
                        ghost oversize: bool)
      returns (result: Prepared, rest': seq<Record>, requests': seq<Option<Block>>, lens': seq<nat>, tripped': bool,
               ghost p': Progress)
      requires Valid() && rest != [] && num == |p.held| && free <= AllBlocks(pool.size)
      requires Underway(rest, requests, lens, tripped, hints, p, free, plan, oversize)
      modifies pool, payload
      ensures Valid() && pool.owned == old(pool.owned)
      ensures result.Ready? ==> |rest'| <= |rest| && |p'.held| == num + 1 <= |free|
      ensures result.Ready? ==> Underway(rest', requests', lens', tripped', hints, p', free, plan, oversize)
      ensures !result.Ready? ==> Abandoned(result, requests', num, hints, p'.held, free, plan)
      ensures !result.Ready? ==> (tripped' <==> oversize)
    {
      hide Loaded, Slots, Choices, Choose, MakePlan, UncheckedPlan, SetOf;
      var count;
      ghost var held, b;
      result, count, requests', lens', tripped', held, b :=
        PrepareTurn(rest, requests, lens, num, tripped, HintAt(hints, num), p.batches, p.held, p.bodies,
                    free, plan, oversize);
      p', rest' := p.(held := held), rest;
      if !result.Exhausted? {
        ChoicesNext(free, pool.size, hints, p.held, b);
      }
      if result.Ready? {
        EncodesSnoc(p.batches, p.bodies, rest[..count]);
        p' := Progress(p.batches + [rest[..count]], held, p.bodies + [ArrayText(rest[..count])]);
        rest' := rest[count..];
      }
    }

    // The loop of a build without assertions. Where they are compiled in, it stops when tripped.
    method Prepare(ts: seq<Record>, hints: seq<Block>)
      returns (result: Prepared, num: nat, requests: seq<Option<Block>>, lens: seq<nat>, tripped: bool,
               ghost p: Progress)
      requires Valid()
      modifies pool, payload
      ensures Valid() && pool.owned == old(pool.owned)
      ensures result == Verdict(UncheckedPlan(ts, cap, |old(pool.free)|))
      ensures tripped <==> MakePlan(ts, cap, |old(pool.free)|).Oversize?
      ensures Taken(requests, p.held, old(pool.free))
      ensures |p.held| == if result.Ready? || result.Exhausted? then num else num + 1
      ensures p.held == Choices(old(pool.free), pool.size, hints, |p.held|)
      ensures result.Ready? ==>
                && UncheckedPlan(ts, cap, |old(pool.free)|) == Planned(p.batches) && |p.batches| == |p.held|
                && Encodes(p.batches, p.bodies) && Loaded(requests, lens, p.held, p.bodies)
    {
      ghost var free, plan := pool.free, UncheckedPlan(ts, cap, |pool.free|);
      ghost var oversize := MakePlan(ts, cap, |pool.free|).Oversize?;
      requests, lens := seq(pool.size, _ => None), seq(pool.size, _ => 0);
      num, tripped, p := 0, false, Progress([], [], []);
      var rest := ts;  // the ts_count - ts_sent records from &ts[ts_sent] on
      PreparingStart(ts, requests, lens, hints);
      while |rest| > 0
        invariant num == |p.held| <= |free| && Valid() && pool.owned == old(pool.owned)
        invariant Underway(rest, requests, lens, tripped, hints, p, free, plan, oversize)
        decreases |rest|, |free| - num
      {
        hide Underway, MakePlan, UncheckedPlan;
        result, rest, requests, lens, tripped, p :=
          PrepareRound(rest, requests, lens, num, tripped, hints, p, free, plan, oversize);
        if !result.Ready? {
          return;
        }
        num := num + 1;
      }
      result := Ready;
      PreparingDone(p.batches, p.held, tripped, free, plan, oversize, requests);
    }

    lemma PreparingStart(ts: seq<Record>, requests: seq<Option<Block>>, lens: seq<nat>, hints: seq<Block>)
      requires Buffers() && requests == seq(pool.size, _ => None) && lens == seq(pool.size, _ => 0)
      ensures Underway(ts, requests, lens, false, hints, Progress([], [], []), pool.free,
                       UncheckedPlan(ts, cap, |pool.free|), MakePlan(ts, cap, |pool.free|).Oversize?)
    {
    }

    lemma PreparingDone(done: seq<seq<Record>>, held: seq<Block>, tripped: bool, free: set<Block>, plan: Plan,
                        oversize: bool, requests: seq<Option<Block>>)
      requires Preparing([], done, held, tripped, free, plan, oversize) && Slots(requests, held)
      ensures plan == Planned(done) && Taken(requests, held, free) && |done| == |held|
      ensures tripped <==> oversize
    {
    }

    lemma CountFree(free: set<Block>)
      requires free <= AllBlocks(pool.size)
      ensures |free| <= pool.size
    {
      assert AllBlocks(pool.size) == free + (AllBlocks(pool.size) - free);
    }

    // active: the client is CONNECTING or CONNECTED. known: it has its access token. hints: the
    // choices of the allocator. accept[i]: whether the CoAP client takes the i-th request of this
    // call. tripped: the source's assertion that no array is empty failed.
    method SendTimeseries(ts: seq<Record>, active: bool, known: bool, hints: seq<Block>, accept: seq<bool>)
      returns (outcome: Outcome, stray: bool, tripped: bool, ghost plan: Plan, ghost blocks: seq<Block>)
      requires Valid() && ts != [] && pool.size <= |accept|
      modifies this`sent, pool, payload
      ensures Valid() && plan == UncheckedPlan(ts, cap, |old(pool.free)|)
      ensures tripped <==> active && MakePlan(ts, cap, |old(pool.free)|).Oversize?
      ensures !active ==> outcome == Failure(EAGAIN)
      ensures active && plan.NoRequest? ==> outcome == Failure(ENOMEM)
      ensures active && plan.BadRecord? ==> outcome == Failure(EINVAL)
      // Only after a failed allocation does the cleanup loop free what was never allocated.
      ensures stray <==> active && plan.NoRequest?
      // Unless everything was prepared, nothing is sent; otherwise the batches before the first
      // rejected one.
      ensures !(active && plan.Planned?) ==> blocks == [] && sent == old(sent)
      ensures active && plan.Planned? ==>
                && Sends(plan.batches, known, accept, |blocks|, outcome)
                && sent == old(sent) + BatchMessages(Path(known), plan.batches[..|blocks|])
                && blocks == Choices(old(pool.free), pool.size, hints, |plan.batches|)[..|blocks|]
      // The blocks of the accepted requests are in flight, all others where they were.
      ensures InFlight(blocks, old(pool.free), old(pool.owned))
    {
      hide Choices, MakePlan, InFlight, BatchMessages, Loaded, Encodes, Path, PathFits;
      plan, blocks, stray, tripped := UncheckedPlan(ts, cap, |pool.free|), [], false, false;
      ghost var free := pool.free;
      if !active {
        NoneInFlight();
        outcome := Failure(EAGAIN);
        return;
      }
      NeverOversize(ts, cap, |pool.free|);
      hide UncheckedPlan;
      var result, num, requests, lens;
      ghost var p;
      result, num, requests, lens, tripped, p := Prepare(ts, hints);
      if result.Ready? {
        outcome, blocks := Send(requests, lens, num, known, accept, p.held, p.batches, p.bodies, free);
      } else {
        stray := ReleaseRequests(requests, num, p.held);
        outcome := Failure(if result.Exhausted? then ENOMEM else EINVAL);
        assert pool.free == free;
        NoneInFlight();
      }
    }

    lemma NoneInFlight()
      ensures InFlight([], pool.free, pool.owned)
    {
      assert pool.free - SetOf([]) == pool.free;
    }

    // The CoAP client has taken over these blocks, out of the given free ones.
    ghost predicate InFlight(blocks: seq<Block>, free: set<Block>, owned: map<Block, Kind>)
      reads this, pool
    {
      && Distinct(blocks) && SetOf(blocks) <= free
      && pool.free == free - SetOf(blocks)
      && pool.owned == HandOver(owned, blocks)
    }

    // The outcome of the send phase when k of the batches were accepted.
    predicate Sends(batches: seq<seq<Record>>, known: bool, accept: seq<bool>, k: nat, outcome: Outcome) {
      && |batches| <= |accept| && k == Reached(PathFits(known), accept, |batches|)
      && outcome == if k == |batches| then Delivered else Failure(EIO)
    }

    // The send phase, in terms of batches.
    method Send(requests: seq<Option<Block>>, lens: seq<nat>, num: nat, known: bool, accept: seq<bool>,
                ghost held: seq<Block>, ghost batches: seq<seq<Record>>, ghost bodies: seq<seq<char>>,
                ghost free: set<Block>)
      returns (outcome: Outcome, ghost blocks: seq<Block>)
      requires Valid() && num == |held| && pool.size <= |accept|
      requires Loaded(requests, lens, held, bodies) && Encodes(batches, bodies)
      requires Taken(requests, held, free) && SetOf(held) <= pool.Held()
      modifies this`sent, pool
      ensures Valid() && AllBatchesEncodable(batches)
      ensures Sends(batches, known, accept, |blocks|, outcome)
      ensures sent == old(sent) + BatchMessages(Path(known), batches[..|blocks|])
      ensures InFlight(blocks, free, old(pool.owned))
      ensures blocks == held[..|blocks|]
    {
      hide Path, PathFits;
      var status;
      ghost var k;
      status, k := SendPrepared(requests, lens, num, known, accept, held, bodies);
      outcome := if status.Ok? then Delivered else Failure(EIO);
      blocks := held[..k];
      if PathFits(known) {
        AcceptedUnique(accept, num, k);
      }
      SplitAt(held, k);
      MessagesOfBatches(Path(known), batches, bodies, k);
    }

    lemma SplitAt(held: seq<Block>, k: nat)
      requires Distinct(held) && k <= |held|
      ensures Distinct(held[..k])
      ensures SetOf(held) == SetOf(held[..k]) + SetOf(held[k..]) && SetOf(held[..k]) !! SetOf(held[k..])
    {
    }

    lemma MessagesOfBatches(path: string, batches: seq<seq<Record>>, bodies: seq<seq<char>>, k: nat)
      requires Encodes(batches, bodies) && k <= |batches|
      ensures BatchMessages(path, batches[..k]) == MessagesOf(path, bodies[..k])
    {
    }
  }
}
