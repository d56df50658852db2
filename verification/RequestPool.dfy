/**
 The request slab and the CoAP client's claim on its blocks. A block is free, held by the call
 that allocated it, or owned by one request that the CoAP client has accepted.
 */
module RequestPool {
  import opened Wrappers

  type Block = nat

  datatype Kind = Observe | Telemetry | Rpc | Provision | Firmware

  function AllBlocks(size: nat): (blocks: set<Block>)
    ensures forall b: Block :: b in blocks <==> b < size
    ensures |blocks| == size
  {
    if size == 0 then {} else AllBlocks(size - 1) + {size - 1}
  }

  // The allocator may hand out any free block: the hint stands for its choice.
  function Choose(free: set<Block>, size: nat, hint: Block): (r: Option<Block>)
    ensures r.Some? ==> r.value in free
    ensures free <= AllBlocks(size) ==> (r.None? <==> free == {})
  {
    if hint in free then Some(hint) else FirstFree(free, 0, size)
  }

  function FirstFree(free: set<Block>, i: nat, size: nat): (r: Option<Block>)
    ensures r.Some? ==> r.value in free
    ensures r.None? ==> forall b: Block :: i <= b < size ==> b !in free
    decreases size - i
  {
    if i >= size then None else if i in free then Some(i) else FirstFree(free, i + 1, size)
  }

  ghost function SetOf(blocks: seq<Block>): set<Block> {
    set b | b in blocks
  }

  ghost predicate Distinct(blocks: seq<Block>) {
    forall i, j :: 0 <= i < j < |blocks| ==> blocks[i] != blocks[j]
  }

  // Ownership after the CoAP client has accepted one telemetry request per block.
  ghost function HandOver(owned: map<Block, Kind>, blocks: seq<Block>): map<Block, Kind> {
    if blocks == [] then owned
    else HandOver(owned, blocks[..|blocks| - 1])[blocks[|blocks| - 1] := Telemetry]
  }

  lemma HandOverSnoc(owned: map<Block, Kind>, blocks: seq<Block>, i: nat)
    requires i < |blocks|
    ensures HandOver(owned, blocks[..i + 1]) == HandOver(owned, blocks[..i])[blocks[i] := Telemetry]
  {
    assert blocks[..i + 1][..i] == blocks[..i];
  }

  lemma {:induction false} HandOverKeys(owned: map<Block, Kind>, blocks: seq<Block>)
    ensures HandOver(owned, blocks).Keys == owned.Keys + SetOf(blocks)
  {
    if blocks != [] {
      var init := blocks[..|blocks| - 1];
      HandOverKeys(owned, init);
      assert blocks == init + [blocks[|blocks| - 1]];
    }
  }

  // The blocks that n allocations in a row hand out, following the hints.
  ghost function Choices(free: set<Block>, size: nat, hints: seq<Block>, n: nat): (r: seq<Block>)
    ensures |r| == n
  {
    if n == 0 then []
    else
      var init := Choices(free, size, hints, n - 1);
      var next := Choose(free - SetOf(init), size, HintAt(hints, n - 1));
      init + [if next.Some? then next.value else 0]
  }

  function HintAt(hints: seq<Block>, i: nat): Block {
    if i < |hints| then hints[i] else 0
  }

  lemma ChoicesNext(free: set<Block>, size: nat, hints: seq<Block>, held: seq<Block>, b: Block)
    requires held == Choices(free, size, hints, |held|)
    requires Choose(free - SetOf(held), size, HintAt(hints, |held|)) == Some(b)
    ensures held + [b] == Choices(free, size, hints, |held| + 1)
  {
  }

  // As long as there are enough free blocks, these are different free blocks.
  lemma {:induction false} ChoicesAreFree(free: set<Block>, size: nat, hints: seq<Block>, n: nat)
    requires free <= AllBlocks(size) && n <= |free|
    ensures var r := Choices(free, size, hints, n);
            Distinct(r) && SetOf(r) <= free && |SetOf(r)| == n
  {
    if n > 0 {
      ChoicesAreFree(free, size, hints, n - 1);
      var init := Choices(free, size, hints, n - 1);
      var next := Choose(free - SetOf(init), size, HintAt(hints, n - 1));
      SomeLeft(free, SetOf(init));
      AppendNew(init, next.value);
    }
  }

  lemma SomeLeft(free: set<Block>, taken: set<Block>)
    requires taken <= free && |taken| < |free|
    ensures free - taken != {}
  {
    assert free == taken + (free - taken);
  }

  lemma AppendNew(blocks: seq<Block>, b: Block)
    requires Distinct(blocks) && b !in SetOf(blocks)
    ensures Distinct(blocks + [b]) && SetOf(blocks + [b]) == SetOf(blocks) + {b}
    ensures |SetOf(blocks + [b])| == |SetOf(blocks)| + 1
  {
    assert SetOf(blocks + [b]) == SetOf(blocks) + {b};
  }

  // How many of n requests the CoAP client accepts before it rejects one.
  function AcceptedOf(accept: seq<bool>, n: nat): (k: nat)
    requires n <= |accept|
    ensures k <= n && (k < n ==> !accept[k])
    ensures forall i :: 0 <= i < k ==> accept[i]
  {
    AcceptedFrom(accept, n, 0)
  }

  // How many of n requests get through: none if their path does not fit.
  function Reached(fits: bool, accept: seq<bool>, n: nat): (k: nat)
    ensures k <= n
  {
    if fits && n <= |accept| then AcceptedOf(accept, n) else 0
  }

  lemma AcceptedUnique(accept: seq<bool>, n: nat, k: nat)
    requires k <= n <= |accept| && (k < n ==> !accept[k])
    requires forall i :: 0 <= i < k ==> accept[i]
    ensures k == AcceptedOf(accept, n)
  {
  }

  function AcceptedFrom(accept: seq<bool>, n: nat, i: nat): (k: nat)
    requires i <= n <= |accept|
    ensures i <= k <= n && (k < n ==> !accept[k])
    ensures forall j :: i <= j < k ==> accept[j]
    decreases n - i
  {
    if i < n && accept[i] then AcceptedFrom(accept, n, i + 1) else i
  }

  class Pool {
    const size: nat
    var free: set<Block>
    var owned: map<Block, Kind>

    ghost predicate Valid()
      reads this
    {
      free <= AllBlocks(size) && owned.Keys <= AllBlocks(size) && free !! owned.Keys
    }

    // Blocks in the hands of a running call.
    ghost function Held(): set<Block>
      reads this
    {
      AllBlocks(size) - free - owned.Keys
    }

    constructor (size: nat)
      ensures Valid() && this.size == size
      ensures free == AllBlocks(size) && owned == map[]
    {
      this.size := size;
      free := AllBlocks(size);
      owned := map[];
    }

    method Alloc(hint: Block) returns (block: Option<Block>)
      requires Valid()
      modifies this
      ensures Valid() && owned == old(owned)
      ensures block == Choose(old(free), size, hint)
      ensures free == if block.Some? then old(free) - {block.value} else old(free)
    {
      block := Choose(free, size, hint);
      if block.Some? {
        free := free - {block.value};
      }
    }

    // Only a block that some call holds may be freed: neither a free one nor one in flight.
    method Free(b: Block)
      requires Valid() && b in Held()
      modifies this
      ensures Valid() && owned == old(owned) && free == old(free) + {b}
    {
      free := free + {b};
    }

    // A request handed to the CoAP client: it takes the block over or rejects it for good.
    method Submit(b: Block, kind: Kind, accepted: bool)
      requires Valid() && b in Held()
      modifies this
      ensures Valid() && free == old(free)
      ensures owned == if accepted then old(owned)[b := kind] else old(owned)
    {
      if accepted {
        owned := owned[b := kind];
      }
    }

    // The last callback of a request: its block goes back to the code running the callback.
    method Finish(b: Block)
      requires Valid() && b in owned
      modifies this
      ensures Valid() && free == old(free) && owned == old(owned) - {b} && b in Held()
    {
      owned := owned - {b};
    }
  }
}
