/** The reservation allocator, as the mutable object the scheduler drives. Every
    contract assert of the original is a precondition here, discharged by callers. */
module BlockAllocation {
  import opened Types
  import opened SchedulerSpec

  ghost predicate Unrepeated(s: seq<BlockId>) {
    forall i, j :: 0 <= i < j < |s| ==> s[i] != s[j]
  }

  class BlockAllocator {
    const totalBlocks: int
    var freeList: seq<BlockId>
    var reserved: int
    // Shadow map for the double-free checks.
    const outstanding: array<bool>

    ghost predicate Valid()
      reads this, outstanding
    {
      && outstanding.Length == totalBlocks >= 1
      && 0 <= reserved <= |freeList|
      && Unrepeated(freeList)
      && (forall b :: b in freeList ==> 1 <= b < totalBlocks)
      && forall b :: 1 <= b < totalBlocks ==> (outstanding[b] <==> b !in freeList)
    }

    constructor (total: int)
      requires total >= 1
      ensures Valid() && fresh(outstanding)
      ensures totalBlocks == total && reserved == 0 && freeList == Descending(total - 1, 1)
    {
      totalBlocks := total;
      reserved := 0;
      freeList := [];
      outstanding := new bool[total](_ => false);
      new;
      var id := total - 1;
      while id >= 1
        invariant reserved == 0 && 0 <= id < total && |freeList| == total - 1 - id
        invariant forall k :: 0 <= k < |freeList| ==> freeList[k] == total - 1 - k
        invariant forall b :: 0 <= b < total ==> !outstanding[b]
      {
        freeList := freeList + [id];
        id := id - 1;
      }
      assert freeList == Descending(total - 1, 1);
      forall b | 1 <= b < total
        ensures b in freeList
      {
        assert freeList[total - 1 - b] == b;
      }
    }

    function UsableBlocks(): int { totalBlocks - 1 }

    function CanReserve(count: int): bool
      reads this
    {
      |freeList| - reserved >= count
    }

    method Reserve(count: int)
      requires Valid() && count >= 0 && CanReserve(count)
      modifies `reserved
      ensures Valid() && reserved == old(reserved) + count
    {
      reserved := reserved + count;
    }

    method Unreserve(count: int)
      requires Valid() && 0 <= count <= reserved
      modifies `reserved
      ensures Valid() && reserved == old(reserved) - count
    {
      reserved := reserved - count;
    }

    /** Materialize one promised block: always there, never handed out twice. */
    method AllocReserved() returns (block: BlockId)
      requires Valid() && reserved > 0
      modifies this, outstanding
      ensures Valid() && reserved == old(reserved) - 1
      ensures old(freeList) == freeList + [block] && 1 <= block < totalBlocks
      ensures block == Top(old(freeList)) && freeList == Popped(old(freeList))
      ensures !old(outstanding[block]) && outstanding[block]
    {
      block := freeList[|freeList| - 1];
      assert block in freeList;
      freeList := freeList[..|freeList| - 1];
      reserved := reserved - 1;
      assert forall b :: b in freeList ==> b in old(freeList);
      outstanding[block] := true;
    }

    method FreeBlock(block: BlockId)
      requires Valid() && 1 <= block < totalBlocks && outstanding[block]
      modifies `freeList, outstanding
      ensures Valid() && freeList == old(freeList) + [block]
    {
      outstanding[block] := false;
      freeList := freeList + [block];
    }

    /** Free one batch of owned blocks, in table order. */
    method FreeAll(blocks: seq<BlockId>)
      requires Valid() && Unrepeated(blocks)
      requires forall b :: b in blocks ==> 1 <= b < totalBlocks && b !in freeList
      modifies `freeList, outstanding
      ensures Valid() && freeList == old(freeList) + blocks
    {
      for i := 0 to |blocks|
        invariant Valid() && freeList == old(freeList) + blocks[..i]
      {
        var b := blocks[i];
        assert b in blocks;
        FreeBlock(b);
        assert blocks[..i + 1] == blocks[..i] + [b];
      }
      assert blocks[..|blocks|] == blocks;
    }
  }

  /** Distinct ids below a bound are at most that many: the free list never
      outgrows the pool, so the counters alone would catch a double free. */
  lemma {:induction false} DistinctIdsFit(s: seq<BlockId>, n: nat)
    requires Unrepeated(s) && forall k :: 0 <= k < |s| ==> 1 <= s[k] <= n
    ensures |s| <= n
  {
    if s != [] {
      assert 1 <= s[0] <= n;
      if k :| 0 <= k < |s| && s[k] == n {
        var rest := s[..k] + s[k + 1..];
        assert forall j :: 0 <= j < |rest| ==> rest[j] == s[if j < k then j else j + 1];
        DistinctIdsFit(rest, n - 1);
      } else {
        DistinctIdsFit(s, n - 1);
      }
    }
  }

  lemma FreeListFits(a: BlockAllocator)
    requires a.Valid()
    ensures 0 <= a.reserved <= |a.freeList| <= a.UsableBlocks()
  {
    assert forall k :: 0 <= k < |a.freeList| ==> a.freeList[k] in a.freeList;
    DistinctIdsFit(a.freeList, a.totalBlocks - 1);
  }
}
