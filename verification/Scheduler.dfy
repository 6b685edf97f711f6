/** The scheduler object: four queues over shared request objects. Each method is
    proved to do to the queues, the requests and the allocator exactly what the
    step machine on values does, so every lemma about runs applies to it. */
module Scheduling {
  import opened Types
  import opened SoloDecoding
  import opened SchedulerSpec
  import opened Ledger
  import opened SchedulerInvariant
  import opened PlanStepInvariant
  import opened PlanTheorems
  import opened CompleteStepInvariant
  import opened PagedCache
  import opened BlockAllocation
  import opened Requests

  /** What to execute: a prefill slice, or the decode batch; and who was evicted. */
  datatype StepPlan = StepPlan(prefill: Request?, begin: int, end: int, decode: seq<Request>, aborted: seq<Request>)
  {
    predicate IsPrefill() { prefill != null }
    predicate Empty() { prefill == null && decode == [] && aborted == [] }
  }

  // Batch sizes the original captures one graph for.
  const LADDER := [1, 2, 4, 8, 16, 32, 48, 64]

  method MakeDecodeBuckets(maxBatch: int) returns (buckets: seq<int>)
    ensures forall b :: b in buckets <==> b in {1, 2, 4, 8, 16, 32, 48, 64} && b <= maxBatch
    ensures forall i, j :: 0 <= i < j < |buckets| ==> buckets[i] < buckets[j]
  {
    buckets := [];
    for k := 0 to |LADDER|
      invariant forall b :: b in buckets <==> b in LADDER[..k] && b <= maxBatch
      invariant forall i, j :: 0 <= i < j < |buckets| ==> buckets[i] < buckets[j]
      invariant k < |LADDER| ==> forall i :: 0 <= i < |buckets| ==> buckets[i] < LADDER[k]
    {
      LadderAscends(k);
      if LADDER[k] <= maxBatch {
        buckets := buckets + [LADDER[k]];
      }
      assert LADDER[..k + 1] == LADDER[..k] + [LADDER[k]];
    }
    assert LADDER[..|LADDER|] == LADDER;
    LadderMembers();
  }

  lemma LadderMembers()
    ensures forall b :: b in LADDER <==> b in {1, 2, 4, 8, 16, 32, 48, 64}
  {
    assert LADDER[0] == 1 && LADDER[1] == 2 && LADDER[2] == 4 && LADDER[3] == 8;
    assert LADDER[4] == 16 && LADDER[5] == 32 && LADDER[6] == 48 && LADDER[7] == 64;
  }

  lemma LadderAscends(k: nat)
    ensures k + 1 < |LADDER| ==> LADDER[k] < LADDER[k + 1]
  {
    assert LADDER[0] == 1 && LADDER[1] == 2 && LADDER[2] == 4 && LADDER[3] == 8;
    assert LADDER[4] == 16 && LADDER[5] == 32 && LADDER[6] == 48 && LADDER[7] == 64;
  }

  /** The smallest bucket that holds the batch, -1 when none does. */
  method SelectBucket(batch: int, buckets: seq<int>) returns (bucket: int)
    requires forall i, j :: 0 <= i < j < |buckets| ==> buckets[i] < buckets[j]
    ensures bucket == -1 <==> batch <= 0 || forall b :: b in buckets ==> b < batch
    ensures bucket != -1 ==> bucket in buckets && bucket >= batch && forall b :: b in buckets && b >= batch ==> bucket <= b
  {
    if batch <= 0 {
      return -1;
    }
    for k := 0 to |buckets|
      invariant forall b :: b in buckets[..k] ==> b < batch
    {
      if buckets[k] >= batch {
        assert buckets[k] in buckets && buckets == buckets[..k] + buckets[k..];
        return buckets[k];
      }
    }
    assert buckets[..|buckets|] == buckets;
    return -1;
  }

  class Scheduler {
    const allocator: BlockAllocator
    const o: Options
    var waiting: seq<Request>
    var prefillQueue: seq<Request>
    var running: seq<Request>
    var freeSlots: seq<int>

    ghost function Queued(): seq<Request>
      reads this
    {
      running + prefillQueue + waiting
    }

    /** Every request object the scheduler may touch. */
    ghost function Owned(): set<Request>
      reads this
    {
      set r | r in Queued()
    }

    ghost predicate Valid()
      reads this, allocator, allocator.outstanding
    {
      && o.Valid() && allocator.Valid() && allocator.totalBlocks == o.totalBlocks
      && Distinct(Queued())
    }

    ghost function View(): Sched
      reads this, allocator, running, prefillQueue, waiting
    {
      Sched(Values(waiting), Values(prefillQueue), Values(running), freeSlots, allocator.freeList, allocator.reserved)
    }

    constructor (a: BlockAllocator, options: Options)
      requires a.Valid() && options.Valid() && a.totalBlocks == options.totalBlocks
      requires a.freeList == Descending(a.totalBlocks - 1, 1) && a.reserved == 0
      ensures Valid() && allocator == a && o == options
      ensures Queued() == [] && View() == Initial(options)
    {
      hide Values, Descending, Distinct, Unrepeated;
      allocator := a;
      o := options;
      waiting, prefillQueue, running, freeSlots := [], [], [], [];
      new;
      var slot := o.maxBatch - 1;
      while slot >= 0
        invariant -1 <= slot < o.maxBatch && |freeSlots| == o.maxBatch - 1 - slot
        invariant forall k :: 0 <= k < |freeSlots| ==> freeSlots[k] == o.maxBatch - 1 - k
        invariant waiting == prefillQueue == running == []
      {
        freeSlots := freeSlots + [slot];
        slot := slot - 1;
      }
      assert freeSlots == Descending(o.maxBatch - 1, 0);
      assert Queued() == [];
      NothingQueued();
    }

    // -------------------------------------------------------------- admission

    /** Validate and queue a fresh request; a rejected one changes nothing. */
    method Enqueue(request: Request) returns (rejected: Option<Rejection>)
      requires Valid() && request !in Queued() && request.Value() == NewReq(request.p)
      modifies `waiting
      ensures Valid() && rejected == Validate(o, request.p)
      ensures View() == if rejected.None? then SchedulerSpec.Enqueue(old(View()), request.p) else old(View())
      ensures Queued() == old(Queued()) + if rejected.None? then [request] else []
    {
      hide Values, Validate;
      rejected := Validate(o, request.p);
      if rejected.None? {
        waiting := waiting + [request];
        assert Queued() == old(Queued()) + [request];
        assert Values(waiting) == old(Values(waiting)) + [NewReq(request.p)];
      }
    }

    function MayAdmit(request: Request): (ok: bool)
      reads this, allocator, running, prefillQueue, waiting
      requires allocator.totalBlocks == o.totalBlocks
      ensures ok == CanAdmit(o, View(), request.p)
    {
      if o.policy == ReserveFull then allocator.CanReserve(BlocksForTokens(request.PromptLen() + request.p.maxNew))
      else
        var uncommitted := |allocator.freeList| - allocator.reserved;
        (uncommitted - BlocksForTokens(request.PromptLen())) as real
          >= o.freeFraction * (allocator.UsableBlocks() as real)
    }

    /** Promise blocks to a request and assign it the batch slot on top. */
    method Grant(request: Request, n: int)
      requires allocator.Valid() && n >= 0 && allocator.CanReserve(n) && freeSlots != []
      modifies `freeSlots, allocator`reserved, request
      ensures allocator.Valid() && allocator.reserved == old(allocator.reserved) + n
      ensures freeSlots == Popped(old(freeSlots))
      ensures request.Value() ==
                old(request.Value()).(reserved := n, slot := Top(old(freeSlots)), state := RequestState.Prefill)
    {
      allocator.Reserve(n);
      request.StartPrefill(n, freeSlots[|freeSlots| - 1]);
      freeSlots := freeSlots[..|freeSlots| - 1];
    }

    method Admit()
      requires Valid() && waiting != [] && AdmitsHead(o, View()) && freeSlots != [] && Validate(o, waiting[0].p).None?
      modifies this, allocator`reserved, waiting[0]
      ensures Valid() && Queued() == old(Queued())
      ensures running == old(running) && waiting == old(waiting[1..])
      ensures View() == SchedulerSpec.Admit(o, old(View()))
    {
      hide Values, AdmitsHead, ReservationFor, Distinct, Validate, Unrepeated, Top, Popped;
      var request := waiting[0];
      ApartInQueues(running, prefillQueue, waiting, 0);
      AdmissionBacked(o, View());
      HeadMoves(running, prefillQueue, waiting);
      waiting, prefillQueue := waiting[1..], prefillQueue + [request];
      Grant(request, ReservationFor(o, request.p));
      assert Values(waiting) == old(Values(waiting))[1..];
      assert Values(running) == old(Values(running));
      assert Values(prefillQueue) == old(Values(prefillQueue)) + [request.Value()];
    }

    // ----------------------------------------------------------------- growth

    /** One promised block materializes in a request's table. */
    method AppendPromised(request: Request)
      requires allocator.Valid() && allocator.reserved > 0
      modifies request, allocator, allocator.outstanding
      ensures allocator.Valid() && request.Value() == GrowReserved(old(request.Value()), Top(old(allocator.freeList)))
      ensures allocator.freeList == Popped(old(allocator.freeList)) && allocator.reserved == old(allocator.reserved) - 1
    {
      var block := allocator.AllocReserved();
      request.AppendBlock(block);
      request.reserved := request.reserved - 1;
    }

    /** One uncommitted block, claimed and materialized at once. */
    method AppendShared(request: Request)
      requires allocator.Valid() && allocator.CanReserve(1)
      modifies request, allocator, allocator.outstanding
      ensures allocator.Valid()
      ensures request.Value() == old(request.Value()).(table := old(request.blocks) + [Top(old(allocator.freeList))])
      ensures allocator.freeList == Popped(old(allocator.freeList)) && allocator.reserved == old(allocator.reserved)
    {
      allocator.Reserve(1);
      var block := allocator.AllocReserved();
      request.AppendBlock(block);
    }

    method GrowHead()
      requires Valid() && prefillQueue != [] && allocator.reserved > 0
      modifies prefillQueue[0], allocator, allocator.outstanding
      ensures Valid()
      ensures View() == old(View()).(
                prefill := old(View()).prefill[0 := GrowReserved(old(View()).prefill[0], Top(old(View()).free))],
                free := Popped(old(View()).free),
                reserved := old(View()).reserved - 1)
    {
      hide Values, Distinct, Unrepeated, Top, Popped, GrowReserved;
      var request := prefillQueue[0];
      ApartInQueues(running, prefillQueue, waiting, 0);
      AppendPromised(request);
      assert Values(running) == old(Values(running));
      assert Values(waiting) == old(Values(waiting));
      assert Values(prefillQueue) == old(Values(prefillQueue))[0 := request.Value()];
    }

    /** Blocks for every position the slice will write, out of the promise. */
    method MaterializePrefill(end: int)
      requires Valid() && prefillQueue != [] && Inv(o, View())
      requires prefillQueue[0].progress <= end <= prefillQueue[0].PromptLen()
      modifies prefillQueue[0], allocator, allocator.outstanding
      ensures Valid() && View() == Cover(old(View()), end)
    {
      hide Values, Distinct, InvAt, Cover;
      var request := prefillQueue[0];
      ghost var covered := request.progress;
      while request.TokenCapacity() < end
        invariant Valid() && covered <= end && request == prefillQueue[0] && prefillQueue == old(prefillQueue)
        invariant InvAt(o, View(), covered, 0, 0) && Cover(View(), end) == Cover(old(View()), end)
        decreases end - request.TokenCapacity()
      {
        CoverStep(o, View(), covered, end);
        CoverUnfold(View(), end);
        GrowHead();
        covered := Min(end, request.TokenCapacity());
      }
      CoverDone(View(), end);
    }

    method GrowRow(i: nat)
      requires Valid() && i < |running|
      requires if o.policy == ReserveFull then allocator.reserved > 0 else allocator.CanReserve(1)
      modifies running[i], allocator, allocator.outstanding
      ensures Valid() && View() == SchedulerSpec.GrowRow(o, old(View()), i)
    {
      hide Values, Distinct, Unrepeated, Top, Popped, GrowReserved;
      var request := running[i];
      ApartInQueues(running, prefillQueue, waiting, i);
      if o.policy == ReserveFull {
        AppendPromised(request);
      } else {
        AppendShared(request);
      }
      assert Values(waiting) == old(Values(waiting));
      assert Values(prefillQueue) == old(Values(prefillQueue));
      assert Values(running) == old(Values(running))[i := request.Value()];
    }

    // ---------------------------------------------------------------- release

    /** Blocks back to the free stack, the promise remainder cancelled, the slot
        returned; the queues are the caller's business. */
    method ReleaseResources(request: Request)
      requires allocator.Valid() && 0 <= request.reserved <= allocator.reserved && request.slot >= -1
      requires Unrepeated(request.blocks)
      requires forall b :: b in request.blocks ==> 1 <= b < allocator.totalBlocks && b !in allocator.freeList
      modifies request, `freeSlots, allocator, allocator.outstanding
      ensures allocator.Valid() && request.Value() == Released(old(request.Value()))
      ensures allocator.freeList == old(allocator.freeList) + old(request.blocks)
      ensures allocator.reserved == old(allocator.reserved) - old(request.reserved)
      ensures freeSlots == if old(request.slot) >= 0 then old(freeSlots) + [old(request.slot)] else old(freeSlots)
    {
      var owned := request.ReleaseBlocks();
      allocator.FreeAll(owned);
      allocator.Unreserve(request.reserved);
      request.reserved := 0;
      if request.slot >= 0 {
        freeSlots := freeSlots + [request.slot];
        request.slot := -1;
      }
    }

    /** The most recently admitted running request is finished as aborted. */
    method AbortYoungestRunning(ghost i: nat) returns (victim: Request)
      requires Valid() && i < |running| && InvAt(o, View(), 0, 0, i)
      modifies this, allocator, allocator.outstanding, running[|running| - 1]
      ensures Valid() && victim == old(running[|running| - 1]) && running == old(running[..|running| - 1])
      ensures waiting == old(waiting) && prefillQueue == old(prefillQueue)
      ensures View() == AbortYoungest(old(View()))
      ensures victim.Value() == Victim(old(victim.Value())) && Apart(victim, Queued())
    {
      hide Values, Distinct, InvAt;
      var k := |running| - 1;
      victim := running[k];
      ApartInQueues(running, prefillQueue, waiting, k);
      ReleasableRow(o, View(), 0, i, k);
      running := running[..k];
      victim.state := RequestState.Finished;
      victim.reason := Aborted;
      ReleaseResources(victim);
      assert Values(running) == old(Values(running))[..k];
      assert Values(prefillQueue) == old(Values(prefillQueue));
      assert Values(waiting) == old(Values(waiting));
      LastErased(old(running), prefillQueue, waiting);
    }

    /** Evict once and record the victim. */
    method RecordAbort(ghost i: nat, aborted: seq<Request>) returns (aborted': seq<Request>)
      requires Valid() && i < |running| && InvAt(o, View(), 0, 0, i) && Gone(aborted, Queued())
      modifies this, allocator, allocator.outstanding, running[|running| - 1]
      ensures Valid() && running == old(running[..|running| - 1])
      ensures waiting == old(waiting) && prefillQueue == old(prefillQueue)
      ensures View() == AbortYoungest(old(View())) && Gone(aborted', Queued())
      ensures Values(aborted') == old(Values(aborted)) + [Victim(old(View().running[|running| - 1]))]
    {
      hide Values, Distinct, InvAt, AbortYoungest;
      GoneFrom(aborted, running, prefillQueue, waiting);
      GoneWithout(aborted, Queued(), |running| - 1);
      var victim := AbortYoungestRunning(i);
      aborted' := aborted + [victim];
      LastCut(old(running), prefillQueue, waiting);
      assert Values(aborted) == old(Values(aborted));
      assert Values(aborted') == Values(aborted) + [victim.Value()];
    }

    /** Growing a row leaves whoever was evicted alone. */
    method GrowSurvivor(i: nat, aborted: seq<Request>)
      requires Valid() && i < |running| && Gone(aborted, Queued())
      requires if o.policy == ReserveFull then allocator.reserved > 0 else allocator.CanReserve(1)
      modifies running[i], allocator, allocator.outstanding
      ensures Valid() && View() == SchedulerSpec.GrowRow(o, old(View()), i)
      ensures Values(aborted) == old(Values(aborted))
    {
      hide Values, Distinct, SchedulerSpec.GrowRow;
      GoneFrom(aborted, running, prefillQueue, waiting);
      GrowRow(i);
      assert Values(aborted) == old(Values(aborted));
    }

    /** Abort from the young end until a block is uncommitted; `false` when row `i`
        itself had to go. */
    method EvictUntilFree(i: nat, aborted: seq<Request>) returns (ok: bool, aborted': seq<Request>)
      requires Valid() && i < |running| && InvAt(o, View(), 0, 0, i) && Gone(aborted, Queued())
      modifies this, allocator, allocator.outstanding, running
      ensures Valid() && waiting == old(waiting) && prefillQueue == old(prefillQueue)
      ensures |running| <= old(|running|) && running == old(running)[..|running|]
      ensures Gone(aborted', Queued()) && i <= |running| && (ok <==> i < |running|)
      ensures ok ==> allocator.CanReserve(1)
      ensures (View(), Values(aborted')) == Evict(old(View()), i, old(Values(aborted)))
    {
      hide Values, Distinct, InvAt, Evict, Gone, AbortYoungest, SchedulerSpec.Victim;
      aborted' := aborted;
      while !allocator.CanReserve(1)
        invariant Valid() && i < |running| && InvAt(o, View(), 0, 0, i)
        invariant waiting == old(waiting) && prefillQueue == old(prefillQueue)
        invariant |running| <= old(|running|) && running == old(running)[..|running|]
        invariant Gone(aborted', Queued())
        invariant Evict(View(), i, Values(aborted')) == Evict(old(View()), i, old(Values(aborted)))
        decreases |running|
      {
        var victimIsSelf := |running| - 1 == i;
        AbortKeepsInv(o, View(), i);
        EvictUnfold(View(), i, Values(aborted'));
        aborted' := RecordAbort(i, aborted');
        if victimIsSelf {
          return false, aborted';
        }
      }
      EvictDone(View(), i, Values(aborted'));
      ok := true;
    }

    /** Make row `i` own the block of its next position; `false` when the pool was
        so short that the row itself was evicted. */
    method EnsureDecodeBlockCapacity(i: nat, aborted: seq<Request>) returns (ok: bool, aborted': seq<Request>)
      requires Valid() && i < |running| && InvAt(o, View(), 0, 0, i) && NeedsBlock(View().running[i])
      requires Gone(aborted, Queued())
      modifies this, allocator, allocator.outstanding, running
      ensures Valid() && waiting == old(waiting) && prefillQueue == old(prefillQueue)
      ensures |running| <= old(|running|) && running == old(running)[..|running|]
      ensures Gone(aborted', Queued())
      ensures var (e, notices) := if o.policy == ReserveFull then (old(View()), old(Values(aborted)))
                                  else Evict(old(View()), i, old(Values(aborted)));
              && Values(aborted') == notices
              && i <= |e.running| && (ok <==> i < |e.running|)
              && View() == if ok then SchedulerSpec.GrowRow(o, e, i) else e
    {
      hide Values, Distinct, InvAt, Evict, NeedsBlock, Gone, SchedulerSpec.GrowRow;
      ok, aborted' := true, aborted;
      if o.policy == ReserveFull {
        PromisedRow(o, View(), i);
      } else {
        ok, aborted' := EvictUntilFree(i, aborted);
      }
      if ok {
        GrowSurvivor(i, aborted');
      }
    }

    // --------------------------------------------------------------- planning

    /** First come, first served; stops at the first head that does not fit. */
    method AdmitWaiting()
      requires Valid() && Inv(o, View())
      modifies this, allocator, waiting
      ensures Valid() && Inv(o, View()) && View() == AdmitAll(o, old(View())) && Queued() == old(Queued())
      ensures running == old(running)
    {
      hide Values, Distinct, InvAt, CanAdmit, AdmitAll, SchedulerSpec.Admit;
      while waiting != [] && |prefillQueue| + |running| < o.maxBatch && MayAdmit(waiting[0])
        invariant Valid() && Inv(o, View()) && Queued() == old(Queued()) && running == old(running)
        invariant forall r :: r in waiting ==> r in old(waiting)
        invariant AdmitAll(o, View()) == AdmitAll(o, old(View()))
        decreases |waiting|
      {
        Admissible(o, View());
        TailWithin(waiting, old(waiting));
        Admit();
      }
      NothingToAdmit(o, View());
    }

    /** Row `i` of the decode loop: claim its block if it crosses a boundary. */
    method ClaimRow(i: nat, aborted: seq<Request>) returns (ok: bool, aborted': seq<Request>)
      requires Valid() && i < |running| && i < o.maxBatch && InvAt(o, View(), 0, 0, i) && Gone(aborted, Queued())
      modifies this, allocator, allocator.outstanding, running
      ensures Valid() && waiting == old(waiting) && prefillQueue == old(prefillQueue)
      ensures |running| <= old(|running|) && running == old(running)[..|running|] && Gone(aborted', Queued())
      ensures var i' := if ok then i + 1 else i;
              && i' <= |running| && (!ok ==> i == |running|) && InvAt(o, View(), 0, 0, i')
              && PlanDecode(o, View(), i', Values(aborted')) == PlanDecode(o, old(View()), i, old(Values(aborted)))
    {
      hide Values, Distinct, InvAt, PlanDecode, Evict, NeedsBlock, Gone, SchedulerSpec.GrowRow;
      ghost var s, gone := View(), Values(aborted);
      var request := running[i];
      NeedsBlockMeans(s.running[i]);
      ok, aborted' := true, aborted;
      if request.SeqLen() - 1 >= request.TokenCapacity() {
        ok, aborted' := EnsureDecodeBlockCapacity(i, aborted);
        DecodeRowStep(o, s, i, gone);
      } else {
        DecodeRowSkip(o, s, i, gone);
      }
    }

    /** One round of the decode loop: row `i` joins the batch, or was evicted with
        everything younger and the bound has shrunk to `i`. */
    method PlanRow(i: nat, decode: seq<Request>, aborted: seq<Request>)
      returns (next: nat, decode': seq<Request>, aborted': seq<Request>)
      requires Valid() && i < |running| && i < o.maxBatch && InvAt(o, View(), 0, 0, i) && Gone(aborted, Queued())
      requires decode == running[..i]
      modifies this, allocator, allocator.outstanding, running
      ensures Valid() && waiting == old(waiting) && prefillQueue == old(prefillQueue)
      ensures |running| <= old(|running|) && running == old(running)[..|running|] && Gone(aborted', Queued())
      ensures i <= next <= |running| && decode' == running[..next] && |running| - next < old(|running|) - i
      ensures InvAt(o, View(), 0, 0, next)
      ensures PlanDecode(o, View(), next, Values(aborted')) == PlanDecode(o, old(View()), i, old(Values(aborted)))
    {
      hide Values, Distinct, InvAt, PlanDecode, Gone;
      var ok;
      ok, aborted' := ClaimRow(i, aborted);
      PrefixOfPrefix(old(running), running, i);
      if !ok {
        return i, decode, aborted';
      }
      next, decode' := i + 1, decode + [running[i]];
    }

    method PlanDecodeBatch() returns (decode: seq<Request>, aborted: seq<Request>)
      requires Valid() && InvAt(o, View(), 0, 0, 0)
      modifies this, allocator, allocator.outstanding, running
      ensures Valid() && waiting == old(waiting) && prefillQueue == old(prefillQueue)
      ensures |running| <= old(|running|) && running == old(running)[..|running|]
      ensures var plan := PlanDecode(o, old(View()), 0, []);
              View() == plan.s && Values(aborted) == plan.aborted && plan.work == DecodeBatch
      ensures decode == running && Gone(aborted, Queued())
    {
      hide Values, Distinct, InvAt, PlanDecode, Gone;
      decode, aborted := [], [];
      NobodyGone(Queued());
      var i := 0;
      while i < |running| && |decode| < o.maxBatch
        invariant Valid() && i <= |running| && InvAt(o, View(), 0, 0, i)
        invariant waiting == old(waiting) && prefillQueue == old(prefillQueue)
        invariant |running| <= old(|running|) && running == old(running)[..|running|]
        invariant decode == running[..i] && Gone(aborted, Queued())
        invariant PlanDecode(o, View(), i, Values(aborted)) == PlanDecode(o, old(View()), 0, [])
        decreases |running| - i
      {
        PrefixTwice(old(running), running);
        i, decode, aborted := PlanRow(i, decode, aborted);
      }
      BatchCap(o, View(), 0, 0, i);
      DecodePlanned(o, View(), i, Values(aborted));
      assert running[..i] == running;
    }

    /** The plan object says what the specified plan says. */
    ghost predicate Matches(plan: StepPlan, spec: Planned)
      reads this, allocator, running, prefillQueue, waiting, plan.aborted
    {
      && View() == spec.s
      && Values(plan.aborted) == spec.aborted && Gone(plan.aborted, Queued())
      && match spec.work {
           case PrefillChunk(begin, end) =>
             prefillQueue != [] && plan.prefill == prefillQueue[0] && plan.begin == begin && plan.end == end
             && plan.decode == [] && plan.aborted == []
           case DecodeBatch => plan.prefill == null && plan.decode == running
         }
    }

    /** A slice of the oldest admitted prefill, with the blocks it writes. */
    method PlanSlice() returns (plan: StepPlan)
      requires Valid() && Inv(o, View()) && prefillQueue != []
      modifies prefillQueue[0], allocator, allocator.outstanding
      ensures Valid()
      ensures var r := old(View().prefill[0]);
              && View() == Cover(old(View()), ChunkEnd(o, r))
              && plan == StepPlan(prefillQueue[0], r.progress, ChunkEnd(o, r), [], [])
    {
      hide Values, Distinct, InvAt, Cover;
      var request := prefillQueue[0];
      var begin := request.progress;
      var end := Min(begin + o.prefillChunk, request.PromptLen());
      HeadSlice(o, View());
      MaterializePrefill(end);
      plan := StepPlan(request, begin, end, [], []);
    }

    /** Decide the next iteration. */
    method PlanStep() returns (plan: StepPlan)
      requires Valid() && Inv(o, View())
      modifies this, allocator, allocator.outstanding, running, prefillQueue, waiting
      ensures Valid() && Matches(plan, SchedulerSpec.PlanStep(o, old(View())))
      ensures plan.Empty() <==> SchedulerSpec.PlanStep(o, old(View())).Empty()
      ensures PlanInv(o, SchedulerSpec.PlanStep(o, old(View())))
      ensures forall r :: r in Queued() ==> r in old(Queued())
    {
      hide Values, Distinct, InvAt, AdmitAll, Cover, PlanDecode, Gone;
      PlanStepKeepsInv(o, View());
      AdmitWaiting();
      if prefillQueue != [] {
        HeadInQueue(running, prefillQueue, waiting);
        assert Gone([], Queued()) by { NobodyGone(Queued()); }
        plan := PlanSlice();
      } else {
        DecodeCoverage(o, View());
        var decode, aborted := PlanDecodeBatch();
        plan := StepPlan(null, 0, 0, decode, aborted);
        PrefixInQueue(old(Queued()), running, waiting);
      }
    }

    // ------------------------------------------------------------- completion

    predicate IsEosToken(token: TokenId) { token in o.eos }

    method FindRunning(request: Request) returns (k: nat)
      requires request in running
      ensures k < |running| && running[k] == request && request !in running[..k]
    {
      k := 0;
      while running[k] != request
        invariant k < |running| && request !in running[..k] && request in running[k..]
        decreases |running| - k
      {
        k := k + 1;
      }
    }

    /** Append the scripted token or the sampled one, and run the stop checks on it. */
    method AppendToken(request: Request, sampled: TokenId) returns (reason: FinishReason)
      modifies request`outputs
      ensures request.Value() == Append(old(request.Value()), sampled)
      ensures request.outputs == old(request.outputs) +
                [if old(|request.outputs|) < |request.p.forced| then request.p.forced[old(|request.outputs|)] else sampled]
      ensures reason == StopReason(o.eos, request.p, request.outputs)
    {
      var position := |request.outputs|;
      var appended := if position < |request.p.forced| then request.p.forced[position] else sampled;
      request.outputs := request.outputs + [appended];
      reason := FinishReason.Unfinished;
      if !request.p.ignoreEos && IsEosToken(appended) {
        reason := Eos;
      } else if |request.outputs| >= request.p.maxNew {
        reason := Length;
      }
    }

    /** Append one produced token, run the stop checks, report it. A request that
        goes on joins the decode batch; one that stops gives everything back. */
    method ApplySampledToken(request: Request, sampled: TokenId) returns (result: StepResult)
      requires allocator.Valid() && 0 <= request.reserved <= allocator.reserved && request.slot >= 0
      requires Unrepeated(request.blocks)
      requires forall b :: b in request.blocks ==> 1 <= b < allocator.totalBlocks && b !in allocator.freeList
      requires request.reason == FinishReason.Unfinished
      requires request.state == RequestState.Prefill || (request.state == Running && request in running)
      modifies `running, `freeSlots, request, allocator, allocator.outstanding
      ensures allocator.Valid()
      ensures var r := Produce(o, old(request.Value()), sampled);
              && result == Emission(r, sampled)
              && if r.state == Running then
                   && request.Value() == r
                   && allocator.freeList == old(allocator.freeList) && allocator.reserved == old(allocator.reserved)
                   && freeSlots == old(freeSlots)
                   && running == old(running) + if old(request.state) == RequestState.Prefill then [request] else []
                 else
                   && request.Value() == Released(r)
                   && allocator.freeList == old(allocator.freeList) + r.table
                   && allocator.reserved == old(allocator.reserved) - r.reserved
                   && freeSlots == old(freeSlots) + [r.slot]
                   && if old(request.state) == RequestState.Prefill then running == old(running)
                      else exists k :: 0 <= k < |old(running)| && old(running)[k] == request
                             && running == old(running)[..k] + old(running)[k + 1..]
    {
      var fromPrefill := request.state == RequestState.Prefill;
      var reason := AppendToken(request, sampled);
      result := StepResult(request.p.id, sampled, false, FinishReason.Unfinished);
      if reason == FinishReason.Unfinished {
        if fromPrefill {
          request.state := Running;
          running := running + [request];
        }
        return;
      }
      request.state := RequestState.Finished;
      request.reason := reason;
      ReleaseResources(request);
      if !fromPrefill {
        var k := FindRunning(request);
        running := running[..k] + running[k + 1..];
      }
      result := StepResult(request.p.id, sampled, true, reason);
    }

    /** Row `j`'s token: the row goes on in place, or leaves its place. */
    method ApplyRow(ghost j: nat, request: Request, sampled: TokenId) returns (result: StepResult)
      requires allocator.Valid() && 0 <= request.reserved <= allocator.reserved && request.slot >= 0
      requires Unrepeated(request.blocks)
      requires forall b :: b in request.blocks ==> 1 <= b < allocator.totalBlocks && b !in allocator.freeList
      requires request.reason == FinishReason.Unfinished && request.state == Running
      requires j < |running| && running[j] == request && Apart(request, running[..j]) && Apart(request, running[j + 1..])
      modifies `running, `freeSlots, request, allocator, allocator.outstanding
      ensures allocator.Valid()
      ensures var r := Produce(o, old(request.Value()), sampled);
              && result == Emission(r, sampled)
              && if r.state == Running then
                   && request.Value() == r && running == old(running) && freeSlots == old(freeSlots)
                   && allocator.freeList == old(allocator.freeList) && allocator.reserved == old(allocator.reserved)
                 else
                   && request.Value() == Released(r) && running == old(running)[..j] + old(running)[j + 1..]
                   && freeSlots == old(freeSlots) + [r.slot]
                   && allocator.freeList == old(allocator.freeList) + r.table
                   && allocator.reserved == old(allocator.reserved) - r.reserved
    {
      hide Produce, Emission, Apart, Unrepeated;
      ghost var before := running;
      result := ApplySampledToken(request, sampled);
      if Produce(o, old(request.Value()), sampled).state != Running {
        ErasedAt(before, running, j, request);
      }
    }

    /** Commit one decode row. */
    method CompleteRow(ghost j: nat, request: Request, sampled: TokenId) returns (result: StepResult)
      requires Valid() && j < |running| && running[j] == request && InvAt(o, View(), 0, j, |running|)
      modifies this, allocator, allocator.outstanding, request
      ensures Valid() && waiting == old(waiting) && prefillQueue == old(prefillQueue)
      ensures var r := Produce(o, old(View().running[j]), sampled);
              && result == Emission(r, sampled)
              && if r.state == Running then
                   running == old(running) && View() == old(View()).(running := old(View()).running[j := r])
                 else
                   && running == old(running)[..j] + old(running)[j + 1..]
                   && View() == Release(Without(old(View()), j), r)
    {
      hide Values, Distinct, InvAt, Produce, Emission, Release, Without, Request.Value, Unrepeated, Released, SameHold;
      ValueParts(request);
      ApartInQueues(running, prefillQueue, waiting, j);
      RowErased(running, prefillQueue, waiting, j);
      ReleasableRow(o, View(), j, |running|, j);
      ghost var r := Produce(o, View().running[j], sampled);
      ProduceHolds(o, View().running[j], sampled);
      LeavesAs(View(), j, r);
      ghost var rows := running;
      result := ApplyRow(j, request, sampled);
      forall i | 0 <= i < |rows| && i != j
        ensures rows[i].Value() == old(rows[i].Value())
      {
        OtherRow(rows, j, i);
      }
      assert Values(waiting) == old(Values(waiting));
      assert Values(prefillQueue) == old(Values(prefillQueue));
      if r.state == Running {
        assert Values(running) == old(Values(running))[j := request.Value()];
      } else {
        assert Values(running) == old(Values(running))[..j] + old(Values(running))[j + 1..];
      }
    }

    /** The last slice's token: the head leaves the prefill queue. */
    method CompleteHead(sampled: TokenId) returns (result: StepResult)
      requires Valid() && prefillQueue != [] && Leavable(o, View().prefill[0], View())
      requires prefillQueue[0].state == RequestState.Prefill && prefillQueue[0].reason == FinishReason.Unfinished
      modifies this, allocator, allocator.outstanding, prefillQueue[0]
      ensures Valid() && forall r :: r in Queued() ==> r in old(Queued())
      ensures var s, r := old(View()), Produce(o, old(View().prefill[0]), sampled);
              && result == Emission(r, sampled)
              && View() == if r.state == Running then s.(prefill := s.prefill[1..], running := s.running + [r])
                           else Release(s.(prefill := s.prefill[1..]), r)
    {
      hide Values, Distinct, InvAt, Produce, Emission;
      var request := prefillQueue[0];
      ApartInQueues(running, prefillQueue, waiting, 0);
      HeadErased(running, prefillQueue, waiting);
      ProduceHolds(o, View().prefill[0], sampled);
      prefillQueue := prefillQueue[1..];
      result := ApplySampledToken(request, sampled);
      assert Values(waiting) == old(Values(waiting));
      assert Values(prefillQueue) == old(Values(prefillQueue))[1..];
      if request.state == Running {
        assert Values(running) == old(Values(running)) + [request.Value()];
      } else {
        assert Values(running) == old(Values(running));
      }
    }

    /** Commit a prefill slice; only the final one reports a token. */
    method CompleteSlice(end: int, sampled: seq<TokenId>) returns (emissions: seq<StepResult>)
      requires Valid() && prefillQueue != [] && InvAt(o, View(), end, 0, 0)
      requires prefillQueue[0].progress < end <= prefillQueue[0].PromptLen()
      requires |sampled| == if end == prefillQueue[0].PromptLen() then 1 else 0
      modifies this, allocator, allocator.outstanding, prefillQueue[0]
      ensures Valid() && (View(), emissions) == CompletePrefill(o, old(View()), end, sampled)
      ensures forall r :: r in Queued() ==> r in old(Queued())
    {
      hide Values, Distinct, InvAt, Produce, Emission, Leavable;
      var request := prefillQueue[0];
      ApartInQueues(running, prefillQueue, waiting, 0);
      PrefillHead(o, View(), end);
      if end == request.PromptLen() {
        ReleasableHead(o, View());
        LeavableAnyway(o, View(), end);
      }
      request.progress := end;
      assert Values(running) == old(Values(running));
      assert Values(waiting) == old(Values(waiting));
      assert Values(prefillQueue) == old(Values(prefillQueue))[0 := request.Value()];
      if !request.PrefillDone() {
        return [];
      }
      var result := CompleteHead(sampled[0]);
      emissions := [result];
    }

    /** Commit the decode batch, row by row in plan order. */
    method CompleteBatch(decode: seq<Request>, sampled: seq<TokenId>) returns (emissions: seq<StepResult>)
      requires Valid() && prefillQueue == [] && decode == running && |sampled| == |running|
      requires InvAt(o, View(), 0, 0, |running|)
      modifies this, allocator, allocator.outstanding, running
      ensures Valid() && (View(), emissions) == CompleteRows(o, old(View()), 0, sampled)
      ensures waiting == old(waiting) && prefillQueue == old(prefillQueue)
      ensures forall r :: r in running ==> r in old(running)
    {
      hide Values, Distinct, InvAt, Produce, Emission, CompleteRows, Release, Without, Pending, Unrepeated, Request.Value,
        BlockAllocator.Valid;
      emissions := [];
      ghost var whole := CompleteRows(o, View(), 0, sampled);
      PendingAll(o, View(), sampled);
      ghost var j := 0;
      var i := 0;
      while i < |decode|
        invariant Valid() && i <= |decode| && j <= |running| && running[j..] == decode[i..]
        invariant prefillQueue == [] && waiting == old(waiting) && InvAt(o, View(), 0, j, |running|)
        invariant forall r :: r in running ==> r in decode
        invariant Pending(o, View(), j, sampled[i..], emissions, whole)
      {
        RestOfRows(running, j, decode, i, sampled);
        RowCommitted(o, View(), j, sampled[i..], emissions, whole);
        ghost var r := Produce(o, View().running[j], sampled[i]);
        var result := CompleteRow(j, decode[i], sampled[i]);
        emissions := emissions + [result];
        i := i + 1;
        if r.state == Running {
          j := j + 1;
        }
      }
      assert sampled[i..] == [];
      PendingNone(o, View(), j, emissions, whole);
    }

    /** Commit one executed step. Evictions are reported first, then one result per
        produced token in plan order. */
    method CompleteStep(plan: StepPlan, sampled: seq<TokenId>, ghost spec: Planned) returns (emissions: seq<StepResult>)
      requires Valid() && Matches(plan, spec) && PlanInv(o, spec) && |sampled| == spec.Yield()
      modifies this, allocator, allocator.outstanding, running, prefillQueue
      ensures Valid() && (View(), emissions) == SchedulerSpec.CompleteStep(o, spec, sampled)
      ensures forall r :: r in Queued() ==> r in old(Queued())
    {
      hide Values, Distinct, InvAt, CompleteRows, CompletePrefill;
      emissions := [];
      for i := 0 to |plan.aborted|
        invariant emissions == AbortNotices(spec.aborted)[..i]
      {
        assert plan.aborted[i].Value() == spec.aborted[i];
        emissions := emissions + [AbortNotice(plan.aborted[i].p.id)];
      }
      assert emissions == AbortNotices(spec.aborted);
      var produced;
      if plan.IsPrefill() {
        produced := CompleteSlice(plan.end, sampled);
      } else {
        produced := CompleteBatch(plan.decode, sampled);
      }
      emissions := emissions + produced;
    }
  }

  lemma NothingQueued()
    ensures Distinct([])
  {
  }

  /** `done` is out, and committing `rest` from row `j` on completes `whole`. */
  ghost predicate Pending(o: Options, s: Sched, j: nat, rest: seq<TokenId>, done: seq<StepResult>, whole: (Sched, seq<StepResult>)) {
    && j + |rest| == |s.running|
    && whole == (CompleteRows(o, s, j, rest).0, done + CompleteRows(o, s, j, rest).1)
  }

  lemma RestOfRows(running: seq<Request>, j: nat, decode: seq<Request>, i: nat, sampled: seq<TokenId>)
    requires j <= |running| && i < |decode| == |sampled| && running[j..] == decode[i..]
    ensures j < |running| && running[j] == decode[i] && sampled[i..][1..] == sampled[i + 1..]
    ensures running[j + 1..] == decode[i + 1..] && (running[..j] + running[j + 1..])[j..] == decode[i + 1..]
  {
    assert running[j..][0] == decode[i..][0];
    assert running[j + 1..] == running[j..][1..] && decode[i + 1..] == decode[i..][1..];
  }

  lemma PendingAll(o: Options, s: Sched, sampled: seq<TokenId>)
    requires |sampled| == |s.running|
    ensures Pending(o, s, 0, sampled[0..], [], CompleteRows(o, s, 0, sampled))
  {
    assert sampled[0..] == sampled;
    assert [] + CompleteRows(o, s, 0, sampled).1 == CompleteRows(o, s, 0, sampled).1;
  }

  lemma PendingNone(o: Options, s: Sched, j: nat, done: seq<StepResult>, whole: (Sched, seq<StepResult>))
    requires Pending(o, s, j, [], done, whole)
    ensures whole == (s, done)
  {
    assert done + [] == done;
  }

  /** None of `rs` is still queued. */
  ghost predicate Gone(rs: seq<Request>, queued: seq<Request>) {
    forall k :: 0 <= k < |rs| ==> Apart(rs[k], queued)
  }

  lemma GoneFrom(rs: seq<Request>, a: seq<Request>, b: seq<Request>, c: seq<Request>)
    requires Gone(rs, a + b + c)
    ensures forall k, j :: 0 <= k < |rs| && 0 <= j < |a| ==> rs[k] != a[j]
  {
    forall k, j | 0 <= k < |rs| && 0 <= j < |a|
      ensures rs[k] != a[j]
    {
      assert (a + b + c)[j] == a[j];
    }
  }

  lemma GoneWithout(rs: seq<Request>, queued: seq<Request>, j: nat)
    requires Gone(rs, queued) && j < |queued|
    ensures Gone(rs, queued[..j] + queued[j + 1..])
  {
  }

  /** Everything `r` holds can be taken back. */
  ghost predicate Leavable(o: Options, r: Req, s: Sched) {
    && Unrepeated(r.table)
    && (forall b :: b in r.table ==> 1 <= b < o.totalBlocks && b !in s.free)
    && 0 <= r.reserved <= s.reserved && r.slot >= 0
  }

  lemma ReleasableHead(o: Options, s: Sched)
    requires s.prefill != [] && InvAt(o, s, s.prefill[0].PromptLen(), 0, 0)
    ensures Leavable(o, s.prefill[0], s)
  {
    var k := |s.running|;
    assert s.Live()[k] == s.prefill[0] && PrefillOk(o, s.prefill[0], s.prefill[0].PromptLen());
    PromiseBacked(o, s, s.prefill[0].PromptLen(), 0, 0, k);
    hide InvAt;
    Releasable(o, s, k);
  }

  lemma LeavableAnyway(o: Options, s: Sched, end: int)
    requires s.prefill != [] && Leavable(o, s.prefill[0], s)
    ensures var r := s.prefill[0].(progress := end);
            Leavable(o, r, s.(prefill := s.prefill[0 := r]))
  {
  }

  lemma RowCommitted(o: Options, s: Sched, j: nat, sampled: seq<TokenId>, done: seq<StepResult>, whole: (Sched, seq<StepResult>))
    requires InvAt(o, s, 0, j, |s.running|) && s.prefill == [] && sampled != [] && Pending(o, s, j, sampled, done, whole)
    ensures j < |s.running|
    ensures var r := Produce(o, s.running[j], sampled[0]);
            var t := if r.state == Running then s.(running := s.running[j := r]) else Release(Without(s, j), r);
            var j' := if r.state == Running then j + 1 else j;
            InvAt(o, t, 0, j', |t.running|) && Pending(o, t, j', sampled[1..], done + [Emission(r, sampled[0])], whole)
  {
    hide InvAt, SameHold, RunningOk, Produce;
    var r := Produce(o, s.running[j], sampled[0]);
    var t := if r.state == Running then s.(running := s.running[j := r]) else Release(Without(s, j), r);
    var j' := if r.state == Running then j + 1 else j;
    var e, rest := Emission(r, sampled[0]), CompleteRows(o, t, j', sampled[1..]).1;
    assert done + ([e] + rest) == done + [e] + rest;
    GrownRow(o, s, j);
    ProduceRunning(o, s.running[j], sampled[0]);
    if r.state == Running {
      RowStays(o, s, j, r);
    } else {
      RowLeaves(o, s, j, r);
    }
  }

  lemma ProduceHolds(o: Options, r: Req, t: TokenId)
    ensures SameHold(Produce(o, r, t), r)
    ensures Produce(o, r, t).state == Running || Produce(o, r, t).state == RequestState.Finished
  {
  }

  lemma LeavesAs(s: Sched, j: nat, r: Req)
    requires j < |s.running|
    ensures Release(Without(s, j), r) ==
              Sched(s.waiting, s.prefill, s.running[..j] + s.running[j + 1..],
                    if r.slot >= 0 then s.freeSlots + [r.slot] else s.freeSlots, s.free + r.table, s.reserved - r.reserved)
  {
  }

  lemma ErasedAt(before: seq<Request>, after: seq<Request>, j: nat, r: Request)
    requires j < |before| && before[j] == r && Apart(r, before[..j]) && Apart(r, before[j + 1..])
    requires exists k :: 0 <= k < |before| && before[k] == r && after == before[..k] + before[k + 1..]
    ensures after == before[..j] + before[j + 1..]
  {
    forall i | 0 <= i < |before| && i != j
      ensures before[i] != r
    {
      if i < j {
        assert before[..j][i] == before[i];
      } else {
        assert before[j + 1..][i - j - 1] == before[i];
      }
    }
  }

  lemma NobodyGone(queued: seq<Request>)
    ensures Gone([], queued)
  {
  }

  lemma HeadInQueue(a: seq<Request>, b: seq<Request>, c: seq<Request>)
    requires b != []
    ensures b[0] in a + b + c
  {
  }

  lemma PrefixInQueue(all: seq<Request>, a: seq<Request>, c: seq<Request>)
    requires |a| + |c| <= |all| && a == all[..|a|] && c == all[|all| - |c|..]
    ensures forall r :: r in a + [] + c ==> r in all
  {
  }

  lemma Admissible(o: Options, s: Sched)
    requires Inv(o, s) && AdmitsHead(o, s)
    ensures s.freeSlots != [] && Validate(o, s.waiting[0].p).None?
    ensures Inv(o, Admit(o, s)) && AdmitAll(o, s) == AdmitAll(o, Admit(o, s))
  {
    assert WaitingOk(o, s.waiting[0]);
    AdmitKeepsInv(o, s);
  }

  lemma NothingToAdmit(o: Options, s: Sched)
    requires !AdmitsHead(o, s)
    ensures AdmitAll(o, s) == s
  {
  }

  lemma HeadSlice(o: Options, s: Sched)
    requires Inv(o, s) && s.prefill != []
    ensures s.prefill[0].progress <= ChunkEnd(o, s.prefill[0]) <= s.prefill[0].PromptLen()
  {
    assert PrefillOk(o, s.prefill[0], s.prefill[0].progress);
  }

  lemma NeedsBlockMeans(r: Req)
    ensures NeedsBlock(r) <==> r.SeqLen() - 1 >= r.Capacity()
  {
  }

  lemma DecodeRowSkip(o: Options, s: Sched, i: nat, aborted: seq<Req>)
    requires InvAt(o, s, 0, 0, i) && i < |s.running| && i < o.maxBatch && !NeedsBlock(s.running[i])
    ensures InvAt(o, s, 0, 0, i + 1)
    ensures PlanDecode(o, s, i, aborted) == PlanDecode(o, s, i + 1, aborted)
  {
    NoGrowth(o, s, i);
  }

  lemma DecodeRowStep(o: Options, s: Sched, i: nat, aborted: seq<Req>)
    requires InvAt(o, s, 0, 0, i) && i < |s.running| && i < o.maxBatch && NeedsBlock(s.running[i])
    ensures var (e, aborted') := if o.policy == ReserveFull then (s, aborted) else Evict(s, i, aborted);
            i <= |e.running| &&
            if i == |e.running| then
              InvAt(o, e, 0, 0, i) && PlanDecode(o, s, i, aborted) == PlanDecode(o, e, i, aborted')
            else
              var g := SchedulerSpec.GrowRow(o, e, i);
              && |g.running| == |e.running|
              && InvAt(o, g, 0, 0, i + 1) && PlanDecode(o, s, i, aborted) == PlanDecode(o, g, i + 1, aborted')
  {
    hide InvAt, NeedsBlock, Evict;
    if o.policy == ReserveFull {
      GrowRowKeepsInv(o, s, i);
    } else {
      var (e, aborted') := Evict(s, i, aborted);
      EvictShape(s, i, aborted);
      EvictKeepsInv(o, s, i, aborted);
      if i < |e.running| {
        GrowRowKeepsInv(o, e, i);
      }
    }
  }

  lemma DecodePlanned(o: Options, s: Sched, i: nat, aborted: seq<Req>)
    requires i <= |s.running| && (i == |s.running| || i >= o.maxBatch)
    ensures PlanDecode(o, s, i, aborted) == Planned(s, DecodeBatch, aborted)
  {
  }

  lemma CoverUnfold(s: Sched, end: int)
    requires s.prefill != [] && s.prefill[0].Capacity() < end
    ensures var r := GrowReserved(s.prefill[0], Top(s.free));
            Cover(s, end) == Cover(s.(prefill := s.prefill[0 := r], free := Popped(s.free), reserved := s.reserved - 1), end)
  {
  }

  lemma CoverDone(s: Sched, end: int)
    requires s.prefill != [] && s.prefill[0].Capacity() >= end
    ensures Cover(s, end) == s
  {
  }

  lemma EvictUnfold(s: Sched, i: nat, aborted: seq<Req>)
    requires i < |s.running| && !s.CanReserve(1)
    ensures var aborted' := aborted + [Victim(s.running[|s.running| - 1])];
            Evict(s, i, aborted) ==
              if i == |s.running| - 1 then (AbortYoungest(s), aborted') else Evict(AbortYoungest(s), i, aborted')
  {
  }

  lemma EvictDone(s: Sched, i: nat, aborted: seq<Req>)
    requires i < |s.running| && s.CanReserve(1)
    ensures Evict(s, i, aborted) == (s, aborted)
  {
  }

  lemma PromisedRow(o: Options, s: Sched, i: nat)
    requires InvAt(o, s, 0, 0, i) && i < |s.running| && NeedsBlock(s.running[i]) && o.policy == ReserveFull
    ensures s.reserved > 0
  {
    assert RunningOk(o, s.running[i], false);
    PromiseRemains(o, s.running[i]);
    assert s.Live()[i] == s.running[i];
    PromiseBacked(o, s, 0, 0, i, i);
  }

  lemma PrefixOfPrefix(before: seq<Request>, after: seq<Request>, i: nat)
    requires i <= |after| <= |before| && after == before[..|after|]
    ensures after[..i] == before[..i] && (i < |after| ==> after[..i + 1] == before[..i] + [after[i]])
  {
  }

  lemma PrefixTwice(all: seq<Request>, s: seq<Request>)
    requires |s| <= |all| && s == all[..|s|]
    ensures forall n :: 0 <= n <= |s| ==> s[..n] == all[..n]
  {
  }

  lemma OtherRow(rs: seq<Request>, j: nat, i: nat)
    requires j < |rs| && i < |rs| && i != j && Apart(rs[j], rs[..j]) && Apart(rs[j], rs[j + 1..])
    ensures rs[i] != rs[j]
  {
    if i < j {
      assert rs[..j][i] == rs[i];
    } else {
      assert rs[j + 1..][i - j - 1] == rs[i];
    }
  }

  lemma TailWithin(s: seq<Request>, all: seq<Request>)
    requires s != [] && forall r :: r in s ==> r in all
    ensures s[0] in all && forall r :: r in s[1..] ==> r in all
  {
  }

  lemma HeadMoves<T>(a: seq<T>, b: seq<T>, c: seq<T>)
    requires c != []
    ensures a + (b + [c[0]]) + c[1..] == a + b + c
  {
    assert c == [c[0]] + c[1..];
  }

  lemma RowErased(a: seq<Request>, b: seq<Request>, c: seq<Request>, j: nat)
    requires Distinct(a + b + c) && j < |a|
    ensures Distinct(a[..j] + a[j + 1..] + b + c)
  {
    var all := a + b + c;
    assert a[..j] + a[j + 1..] + b + c == all[..j] + all[j + 1..];
  }

  lemma LastCut(a: seq<Request>, b: seq<Request>, c: seq<Request>)
    requires a != []
    ensures var j, all := |a| - 1, a + b + c; a[..j] + b + c == all[..j] + all[j + 1..]
  {
  }

  lemma LastErased(a: seq<Request>, b: seq<Request>, c: seq<Request>)
    requires Distinct(a + b + c) && a != []
    ensures Distinct(a[..|a| - 1] + b + c) && Apart(a[|a| - 1], a[..|a| - 1] + b + c)
  {
    var j, all := |a| - 1, a + b + c;
    assert all[j] == a[j] && a[..j] + b + c == all[..j] + all[j + 1..];
  }

  lemma HeadErased(a: seq<Request>, b: seq<Request>, c: seq<Request>)
    requires Distinct(a + b + c) && b != []
    ensures Distinct(a + b[1..] + c) && Distinct(a + [b[0]] + b[1..] + c)
    ensures forall r :: r in a + b[1..] + c ==> r in a + b + c
    ensures forall r :: r in a + [b[0]] + b[1..] + c ==> r in a + b + c
  {
    var j, all := |a|, a + b + c;
    assert a + b[1..] + c == all[..j] + all[j + 1..];
    assert a + [b[0]] + b[1..] + c == all;
  }

  /** A live table's blocks are out of the free stack, distinct and real. */
  lemma Releasable(o: Options, s: Sched, k: nat)
    requires Books(o, s) && k < |s.Live()|
    ensures Unrepeated(s.Live()[k].table)
    ensures forall b :: b in s.Live()[k].table ==> 1 <= b < o.totalBlocks && b !in s.free
  {
    OwnTable(o, s, k);
    TotalBounds(s.Live(), k);
    hide Books;
    var table := s.Live()[k].table;
    forall b | b in table
      ensures 1 <= b < o.totalBlocks && b !in s.free
    {
      PoolPartition(o, s, b);
      assert b in multiset(table);
      assert Total(s.Live()).blocks[b] >= multiset(table)[b];
      assert b in s.free ==> b in multiset(s.free);
    }
  }

  lemma ReleasableRow(o: Options, s: Sched, lo: int, hi: int, k: nat)
    requires InvAt(o, s, 0, lo, hi) && k < |s.running|
    ensures Unrepeated(s.running[k].table)
    ensures forall b :: b in s.running[k].table ==> 1 <= b < o.totalBlocks && b !in s.free
    ensures 0 <= s.running[k].reserved <= s.reserved && s.running[k].slot >= 0
    ensures s.running[k].state == Running && s.running[k].reason == FinishReason.Unfinished
  {
    assert s.Live()[k] == s.running[k] && RunningOk(o, s.running[k], lo <= k < hi);
    PromiseBacked(o, s, 0, lo, hi, k);
    hide InvAt;
    Releasable(o, s, k);
  }

  lemma AdmissionBacked(o: Options, s: Sched)
    requires o.Valid() && s.waiting != [] && AdmitsHead(o, s) && Validate(o, s.waiting[0].p).None?
    ensures s.CanReserve(ReservationFor(o, s.waiting[0].p)) && ReservationFor(o, s.waiting[0].p) >= 0
  {
    AdmissionIsBacked(o, s, s.waiting[0].p);
  }
}
