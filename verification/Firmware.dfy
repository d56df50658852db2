/**
 Firmware download: one block after the other is written to the update slot, and the image is
 applied when its announced size has arrived.
 */
module Firmware {
  import opened Sequences

  datatype FwState = Downloading | Downloaded | Verified | Updating | Updated | Failed | Idle

  // A callback of the image request: a block of the image with what the DFU target makes of it, a
  // response with another code than Content or an empty payload, or a negative result, which ends
  // the request.
  datatype Callback =
    | BlockArrived(index: nat, data: seq<bv8>, written: bool)
    | NoBlock
    | RequestFailed

  // applied: the slot contents at each time the image was applied.
  datatype Download = Download(state: FwState, offset: nat, size: nat, slot: seq<bv8>, applied: seq<seq<bv8>>)

  // The check of the first bytes accepts the true first block and no other one.
  predicate Identify(index: nat) {
    index == 0
  }

  // One callback. A failure erases the slot; an identified and written block moves the offset.
  function After(d: Download, c: Callback): Download {
    match c
    case NoBlock => d.(state := Failed, slot := [])
    case RequestFailed => d.(state := Failed, slot := [])
    case BlockArrived(index, data, written) =>
      if data == [] then d.(state := Failed, slot := [])
      else if d.offset == 0 && !Identify(index) then d.(state := Failed, slot := [], size := 0)
      else if !written then d.(state := Failed, slot := [])
      else
        var moved := d.(offset := d.offset + |data|, slot := d.slot + data);
        if moved.offset < moved.size then moved.(state := Downloading)
        else moved.(state := Updating, applied := moved.applied + [moved.slot])
  }

  function AfterAll(d: Download, callbacks: seq<Callback>): Download
    decreases |callbacks|
  {
    if callbacks == [] then d else AfterAll(After(d, callbacks[0]), callbacks[1..])
  }

  // What is reported of the states that are entered one after the other: each that differs from the
  // one before.
  function Changes(from: FwState, states: seq<FwState>): seq<FwState>
    decreases |states|
  {
    if states == [] then []
    else (if states[0] == from then [] else [states[0]]) + Changes(states[0], states[1..])
  }

  // A callback in terms of the block and the fields. What failed leaves the offset and erases the
  // slot; a block that was taken is behind what was there.
  lemma CallbackOutcome(d: Download, c: Callback)
    ensures var r := After(d, c);
            var taken := c.BlockArrived? && c.data != [] && c.written && (d.offset > 0 || Identify(c.index));
            && (r.state == Failed <==> !taken)
            && (r.state == Downloading <==> taken && d.offset + |c.data| < d.size)
            && (r.state == Updating <==> taken && d.offset + |c.data| >= d.size)
            && (r.state == Updating <==> |r.applied| > |d.applied|)
            && (r.state == Updating ==> r.applied == d.applied + [d.slot + c.data])
            && (r.state != Updating ==> r.applied == d.applied)
            && r.offset == d.offset + (if taken then |c.data| else 0)
            && r.slot == (if taken then d.slot + c.data else [])
            && r.size == if c.BlockArrived? && c.data != [] && d.offset == 0 && !Identify(c.index) then 0 else d.size
  {
  }

  class FirmwareUpdate {
    var state: FwState
    var offset: nat
    var size: nat
    var slot: seq<bv8>               // the DFU target's slot
    var applied: seq<seq<bv8>>
    var reported: seq<FwState>       // states sent as telemetry

    function View(): Download
      reads this
    {
      Download(state, offset, size, slot, applied)
    }

    constructor ()
      ensures View() == Download(Idle, 0, 0, [], []) && reported == []
    {
      state, offset, size, slot, applied, reported := Idle, 0, 0, [], [], [];
    }

    // A state is reported when it changes.
    method SetFwState(newState: FwState)
      modifies this`state, this`reported
      ensures state == newState
      ensures reported == if newState == old(state) then old(reported) else old(reported) + [newState]
    {
      if state == newState {
        return;
      }
      state := newState;
      reported := reported + [newState];
    }

    // A failed callback lets the next attempt through: it is granted if its own checks pass.
    method RestartAfter(c: Callback, announced: nat, installed: bool, titleFits: bool, ready: bool)
      returns (requested: bool)
      requires c.RequestFailed? || c.NoBlock? || c.data == [] || !c.written || (offset == 0 && !Identify(c.index))
      modifies this
      ensures requested <==> announced > 0 && !installed && titleFits && ready
      ensures requested ==> View() == Download(Downloading, 0, announced, [], old(applied))
    {
      HandleFwChunk(c);
      requested := StartFwUpdate(announced, installed, titleFits, ready);
    }

    // announced: the size attribute. The other checks compare and copy title and version.
    // ready: the DFU target could be set up and reports an empty slot.
    method StartFwUpdate(announced: nat, installed: bool, titleFits: bool, ready: bool) returns (requested: bool)
      modifies this
      ensures requested <==>
              (old(state) == Idle || old(state) == Failed) && announced > 0 && !installed && titleFits && ready
      ensures requested ==> View() == Download(Downloading, 0, announced, [], old(applied))
      ensures reported == old(reported) +
                          if (old(state) == Idle || old(state) == Failed) && announced > 0 && !installed && titleFits
                          then [Downloading] else []
      ensures reported == old(reported) ==> View() == old(View())
      // Once the download is announced, a DFU target that is not ready leaves it hanging.
      ensures !requested && View() != old(View()) ==> state == Downloading && !ready && offset == old(offset)
    {
      if state != Idle && state != Failed {
        return false;
      }
      if announced == 0 {
        return false;
      }
      if installed {
        return false;
      }
      if !titleFits {
        return false;
      }
      size := announced;
      SetFwState(Downloading);
      if !ready {
        return false;
      }
      slot := [];
      offset := 0;
      return true;
    }

    method ChunkProcess(index: nat, data: seq<bv8>, written: bool) returns (newState: FwState)
      modifies this`offset, this`size, this`slot
      ensures newState == Failed || newState == Downloading || newState == Downloaded
      ensures size == if old(offset) == 0 && !Identify(index) then 0 else old(size)
      ensures newState == Failed <==> (old(offset) == 0 && !Identify(index)) || !written
      ensures newState == Failed ==> offset == old(offset) && slot == old(slot)
      ensures newState != Failed ==> offset == old(offset) + |data| && slot == old(slot) + data
      ensures newState != Failed ==> (newState == Downloading <==> offset < size)
    {
      if offset == 0 {
        if !Identify(index) {
          size := 0;
          return Failed;
        }
      }
      if !written {
        return Failed;
      }
      slot := slot + data;
      offset := offset + |data|;
      if offset < size {
        return Downloading;
      }
      return Downloaded;
    }

    method HandleFwChunk(c: Callback)
      modifies this
      ensures View() == After(old(View()), c)
      // The states gone through: FAILED without an identified and written block, else DOWNLOADING
      // while bytes are missing, else DOWNLOADED and then UPDATING, with the image applied.
      ensures var taken := c.BlockArrived? && c.data != [] && c.written && (old(offset) > 0 || Identify(c.index));
              var missing := old(offset) + (if taken then |c.data| else 0) < size;
              && state == (if !taken then Failed else if missing then Downloading else Updating)
              && applied == old(applied) + (if taken && !missing then [slot] else [])
              && reported == old(reported) + Changes(old(state), if !taken then [Failed]
                                                                 else if missing then [Downloading]
                                                                 else [Downloaded, Updating])
    {
      assert [Downloaded, Updating][1..] == [Updating] && [Updating][1..] == [];
      var newState := Failed;
      if c.BlockArrived? && c.data != [] {
        newState := ChunkProcess(c.index, c.data, c.written);
      }
      SetFwState(newState);
      match newState {
        case Downloaded =>
          applied := applied + [slot];
          SetFwState(Updating);
        case Failed =>
          slot := [];
        case _ =>
      }
    }
  }

  // An image in blocks, in any sizes.
  predicate Blocks(blocks: seq<seq<bv8>>) {
    blocks != [] && forall i :: 0 <= i < |blocks| ==> blocks[i] != []
  }

  function Total(blocks: seq<seq<bv8>>): nat {
    if blocks == [] then 0 else Total(blocks[..|blocks| - 1]) + |blocks[|blocks| - 1]|
  }

  // The stream delivers blocks in order, each at most once, from block next on. Blocks may be
  // missing, writes may fail, and responses without a block may come in between. Nothing comes after
  // the request has failed.
  predicate Delivers(blocks: seq<seq<bv8>>, callbacks: seq<Callback>, next: nat)
    decreases |callbacks|
  {
    callbacks == [] ||
    (match callbacks[0]
     case NoBlock => Delivers(blocks, callbacks[1..], next)
     case RequestFailed => callbacks[1..] == []
     case BlockArrived(index, data, _) =>
       next <= index < |blocks| && data == blocks[index] && Delivers(blocks, callbacks[1..], index + 1))
  }

  // Every block from next on arrives and is written.
  predicate AllWritten(blocks: seq<seq<bv8>>, callbacks: seq<Callback>, next: nat)
    decreases |callbacks|
  {
    if callbacks == [] then next == |blocks|
    else
      match callbacks[0]
      case NoBlock => AllWritten(blocks, callbacks[1..], next)
      case RequestFailed => AllWritten(blocks, callbacks[1..], next)
      case BlockArrived(index, _, written) => index == next && written && AllWritten(blocks, callbacks[1..], next + 1)
  }

  // No response without a block comes between the first block and the last.
  predicate Undisturbed(blocks: seq<seq<bv8>>, callbacks: seq<Callback>, next: nat)
    decreases |callbacks|
  {
    callbacks == [] ||
    (match callbacks[0]
     case NoBlock => (next == 0 || next == |blocks|) && Undisturbed(blocks, callbacks[1..], next)
     case RequestFailed => Undisturbed(blocks, callbacks[1..], next)
     case BlockArrived(index, _, _) => Undisturbed(blocks, callbacks[1..], index + 1))
  }

  lemma TotalStep(blocks: seq<seq<bv8>>, i: nat)
    requires i < |blocks|
    ensures Total(blocks[..i + 1]) == Total(blocks[..i]) + |blocks[i]|
  {
    assert blocks[..i + 1][..i] == blocks[..i];
  }

  lemma {:induction false} TotalGrows(blocks: seq<seq<bv8>>, i: nat, j: nat)
    requires Blocks(blocks) && i <= j <= |blocks|
    ensures Total(blocks[..i]) + (j - i) <= Total(blocks[..j])
  {
    if i < j {
      TotalGrows(blocks, i, j - 1);
      TotalStep(blocks, j - 1);
    }
  }

  // Where a download stands before block next: lost bytes of the earlier blocks are not written.
  ghost predicate Standing(blocks: seq<seq<bv8>>, d: Download, next: nat, lost: nat) {
    && next <= |blocks|
    && d.offset + lost == Total(blocks[..next])
    && (d.size == Total(blocks) || (d.size == 0 && d.offset == 0 && next > 0 && lost > 0))
    && |d.applied| == if next == |blocks| && lost == 0 then 1 else 0
  }

  // The bytes lost once block index has come.
  function LostAfter(blocks: seq<seq<bv8>>, d: Download, index: nat, written: bool): int
    requires index < |blocks|
  {
    Total(blocks[..index + 1]) - d.offset -
    (if written && (d.offset > 0 || Identify(index)) then |blocks[index]| else 0)
  }

  lemma BlockStanding(blocks: seq<seq<bv8>>, d: Download, next: nat, lost: nat, index: nat, written: bool)
    requires Blocks(blocks) && Standing(blocks, d, next, lost) && next <= index < |blocks|
    ensures var lost' := LostAfter(blocks, d, index, written);
            && lost' >= 0
            && (lost' == 0 <==> lost == 0 && index == next && written)
            && Standing(blocks, After(d, BlockArrived(index, blocks[index], written)), index + 1, lost')
  {
    TotalGrows(blocks, next, index);
    TotalStep(blocks, index);
    TotalGrows(blocks, index + 1, |blocks|);
    TotalGrows(blocks, 0, next);
    assert blocks[..|blocks|] == blocks;
  }

  // The image is applied exactly if all blocks were written, and at most once.
  lemma {:induction false} AppliedIffAllWritten(blocks: seq<seq<bv8>>, d: Download, callbacks: seq<Callback>,
                                                next: nat, lost: nat)
    requires Blocks(blocks) && Standing(blocks, d, next, lost) && Delivers(blocks, callbacks, next)
    ensures |AfterAll(d, callbacks).applied| == if lost == 0 && AllWritten(blocks, callbacks, next) then 1 else 0
    decreases |callbacks|
  {
    if callbacks != [] {
      var c := callbacks[0];
      match c
      case NoBlock => AppliedIffAllWritten(blocks, After(d, c), callbacks[1..], next, lost);
      case RequestFailed => AppliedIffAllWritten(blocks, After(d, c), callbacks[1..], next, lost);
      case BlockArrived(index, data, written) =>
        BlockStanding(blocks, d, next, lost, index, written);
        var lost' := LostAfter(blocks, d, index, written);
        AppliedIffAllWritten(blocks, After(d, c), callbacks[1..], index + 1, lost');
    }
  }

  // Between blocks of a stream without losses, the slot holds the blocks since the last failure.
  ghost predicate Holding(blocks: seq<seq<bv8>>, d: Download, next: nat, from: nat) {
    && Standing(blocks, d, next, 0) && from <= next < |blocks|
    && d.slot == Flatten(blocks[from..next])
  }

  lemma HoldingStep(blocks: seq<seq<bv8>>, d: Download, next: nat, from: nat)
    requires Blocks(blocks) && Holding(blocks, d, next, from)
    ensures var r := After(d, BlockArrived(next, blocks[next], true));
            && Standing(blocks, r, next + 1, 0)
            && r.slot == Flatten(blocks[from..next + 1])
            && (next + 1 == |blocks| ==> r.applied == [r.slot])
  {
    BlockStanding(blocks, d, next, 0, next, true);
    assert blocks[from..next + 1] == blocks[from..next] + [blocks[next]];
    FlattenSnoc(blocks[from..next], blocks[next]);
  }

  // After the last block nothing is applied any more.
  lemma {:induction false} AppliedStays(blocks: seq<seq<bv8>>, d: Download, callbacks: seq<Callback>)
    requires Delivers(blocks, callbacks, |blocks|)
    ensures AfterAll(d, callbacks).applied == d.applied && Undisturbed(blocks, callbacks, |blocks|)
    decreases |callbacks|
  {
    if callbacks != [] {
      AppliedStays(blocks, After(d, callbacks[0]), callbacks[1..]);
    }
  }

  lemma {:induction false} FlattenLength(blocks: seq<seq<bv8>>, from: nat)
    requires from <= |blocks|
    ensures |Flatten(blocks[from..])| + Total(blocks[..from]) == Total(blocks)
    decreases |blocks| - from
  {
    if from == |blocks| {
      assert blocks[..from] == blocks;
    } else {
      FlattenLength(blocks, from + 1);
      TotalStep(blocks, from);
      assert blocks[from..][1..] == blocks[from + 1..];
    }
  }

  // Only the whole image has its contents.
  lemma TailIsImageIff(blocks: seq<seq<bv8>>, from: nat)
    requires Blocks(blocks) && from <= |blocks|
    ensures Flatten(blocks[from..]) == Flatten(blocks) <==> from == 0
  {
    FlattenLength(blocks, from);
    FlattenLength(blocks, 0);
    TotalGrows(blocks, 0, from);
    assert blocks[0..] == blocks;
  }

  lemma {:induction false} AppliedSlot(blocks: seq<seq<bv8>>, d: Download, callbacks: seq<Callback>,
                                       next: nat, from: nat)
    requires Blocks(blocks) && Holding(blocks, d, next, from)
    requires Delivers(blocks, callbacks, next) && AllWritten(blocks, callbacks, next)
    ensures var applied := AfterAll(d, callbacks).applied;
            |applied| == 1 && (applied[0] == Flatten(blocks) <==> from == 0 && Undisturbed(blocks, callbacks, next))
    decreases |callbacks|
  {
    var c, rest := callbacks[0], callbacks[1..];
    match c
    case NoBlock =>
      assert blocks[next..next] == [];
      AppliedSlot(blocks, After(d, c), rest, next, next);
    case RequestFailed =>
      assert false;
    case BlockArrived(_, _, _) =>
      HoldingStep(blocks, d, next, from);
      if next + 1 < |blocks| {
        AppliedSlot(blocks, After(d, c), rest, next + 1, from);
      } else {
        AppliedStays(blocks, After(d, c), rest);
        assert blocks[from..next + 1] == blocks[from..];
        TailIsImageIff(blocks, from);
      }
  }

  function Fresh(blocks: seq<seq<bv8>>): Download {
    Download(Downloading, 0, Total(blocks), [], [])
  }

  // From a fresh start: the image is applied once, if and only if every block arrived and was
  // written, whatever the block sizes. What is applied is then the complete image exactly if no
  // other response came in between: each of those erases the slot but not the offset.
  lemma OnlyCompleteImagesApplied(blocks: seq<seq<bv8>>, callbacks: seq<Callback>)
    requires Blocks(blocks) && Delivers(blocks, callbacks, 0)
    ensures var applied := AfterAll(Fresh(blocks), callbacks).applied;
            && |applied| == (if AllWritten(blocks, callbacks, 0) then 1 else 0)
            && (applied != [] ==> (applied[0] == Flatten(blocks) <==> Undisturbed(blocks, callbacks, 0)))
  {
    AppliedIffAllWritten(blocks, Fresh(blocks), callbacks, 0, 0);
    if AllWritten(blocks, callbacks, 0) {
      assert blocks[0..0] == [];
      AppliedSlot(blocks, Fresh(blocks), callbacks, 0, 0);
    }
  }

  // The image is applied in the callback that brings its last block.
  lemma AppliedOnLastBlock(blocks: seq<seq<bv8>>, d: Download, next: nat, lost: nat, c: Callback)
    requires Blocks(blocks) && Standing(blocks, d, next, lost) && Delivers(blocks, [c], next)
    requires |After(d, c).applied| > |d.applied|
    ensures c.BlockArrived? && c.index == next == |blocks| - 1 && c.written && lost == 0
  {
    if c.BlockArrived? {
      BlockStanding(blocks, d, next, lost, c.index, c.written);
    }
  }

  // An empty response in the middle of the stream: the second half alone is applied.
  lemma DisturbedDownloadAppliesPart()
    ensures var blocks: seq<seq<bv8>> := [[1], [2]];
            var callbacks := [BlockArrived(0, [1], true), NoBlock, BlockArrived(1, [2], true)];
            Delivers(blocks, callbacks, 0) && AfterAll(Fresh(blocks), callbacks).applied == [[2]]
  {
    var blocks: seq<seq<bv8>> := [[1], [2]];
    var callbacks := [BlockArrived(0, [1], true), NoBlock, BlockArrived(1, [2], true)];
    assert Total(blocks) == 2 by {
      assert blocks[..1] == [[1]] && blocks[..1][..0] == [];
    }
    assert callbacks[1..] == [NoBlock, BlockArrived(1, [2], true)];
    assert callbacks[1..][1..] == [BlockArrived(1, [2], true)] && callbacks[1..][1..][1..] == [];
    var d1 := After(Fresh(blocks), callbacks[0]);
    var d2 := After(d1, NoBlock);
    assert d1.offset == 1 && d2.offset == 1 && d2.size == 2 && d2.slot + [2] == [2];
    assert After(d2, BlockArrived(1, [2], true)).applied == [[2]];
    assert AfterAll(d2, callbacks[1..][1..]).applied == [[2]];
    assert AfterAll(d1, callbacks[1..]).applied == [[2]];
    assert Delivers(blocks, callbacks[1..][1..], 1) && Delivers(blocks, callbacks[1..], 1);
  }
}
