/** What a plan is, for every reachable state: the invariant it carries, when it
    is empty, who may be aborted, and in which order requests are served. */
module PlanTheorems {
  import opened Types
  import opened SchedulerSpec
  import opened Ledger
  import opened SchedulerInvariant
  import opened PlanStepInvariant

  /** Admission moves a prefix of the waiting queue behind the prefills, touching
      neither the running rows nor the requests already admitted. */
  lemma {:induction false} AdmitAllShape(o: Options, s: Sched)
    ensures var a := AdmitAll(o, s);
            && a.running == s.running && a.free == s.free
            && SameParams(s.All(), a.All())
            && s.prefill <= a.prefill
            && |a.waiting| <= |s.waiting| && a.waiting == s.waiting[|s.waiting| - |a.waiting|..]
            && !AdmitsHead(o, a)
    decreases |s.waiting|
  {
    if AdmitsHead(o, s) {
      AdmitOrder(o, s);
      AdmitAllShape(o, Admit(o, s));
    }
  }

  lemma DecodeCoverage(o: Options, s: Sched)
    requires Inv(o, s) && s.prefill == []
    ensures InvAt(o, s, 0, 0, 0)
  {
  }

  lemma PlanStepKeepsInv(o: Options, s: Sched)
    requires Inv(o, s)
    ensures PlanInv(o, PlanStep(o, s))
  {
    hide InvAt;
    var a := AdmitAll(o, s);
    AdmitAllKeepsInv(o, s);
    if a.prefill != [] {
      PrefillPlanOk(o, a);
    } else {
      PlanDecodeKeepsInv(o, a, 0, []);
      PlanDecodeShape(o, a, 0, []);
    }
  }

  lemma PrefillPlanOk(o: Options, a: Sched)
    requires Inv(o, a) && a.prefill != []
    ensures var r := a.prefill[0];
            PlanInv(o, Planned(Cover(a, ChunkEnd(o, r)), PrefillChunk(r.progress, ChunkEnd(o, r)), []))
  {
    var r := a.prefill[0];
    assert PrefillOk(o, r, r.progress);
    CoverShape(a, ChunkEnd(o, r));
    CoverKeepsInv(o, a, r.progress, ChunkEnd(o, r));
  }

  // ------------------------------------------------------------- empty plans

  /** With nothing admitted the free side is the whole pool. */
  lemma NothingHeld(o: Options, s: Sched)
    requires Books(o, s) && s.Live() == []
    ensures multiset(s.free) == multiset(Descending(o.totalBlocks - 1, 1))
    ensures s.reserved == 0 && |s.free| == |Descending(o.totalBlocks - 1, 1)|
    ensures multiset(s.freeSlots) == multiset(Descending(o.maxBatch - 1, 0))
  {
    hide Descending;
    assert Total([]) == Holdings(multiset{}, 0, multiset{});
    PlusCommutes(Total([]), FreeSide(s));
    PlusZero(FreeSide(s));
    assert FreeSide(s) == Capital(o);
    assert |multiset(s.free)| == |s.free|;
    assert |multiset(Descending(o.totalBlocks - 1, 1))| == |Descending(o.totalBlocks - 1, 1)|;
  }

  /** An idle pool admits every validated request, so no head waits forever. */
  lemma IdlePoolAdmits(o: Options, s: Sched)
    requires Inv(o, s) && s.Live() == [] && s.waiting != []
    ensures AdmitsHead(o, s)
  {
    hide Balance, Capital, Ordered, Validate, Descending;
    NothingHeld(o, s);
    assert WaitingOk(o, s.waiting[0]);
    IdlePoolFits(o, s, s.waiting[0].p);
  }

  lemma IdlePoolFits(o: Options, s: Sched, p: Params)
    requires s.reserved == 0 && |s.free| == |Descending(o.totalBlocks - 1, 1)| && o.Valid() && Validate(o, p).None?
    ensures CanAdmit(o, s, p)
  {
    assert |s.free| == o.Usable();
  }

  lemma EmptyPlanIffIdle(o: Options, s: Sched)
    requires Inv(o, s)
    ensures PlanStep(o, s).Empty() <==> s.Idle()
  {
    var a := AdmitAll(o, s);
    AdmitAllShape(o, s);
    PlanDecodeShape(o, a, 0, []);
    if s.Live() == [] && s.waiting != [] {
      IdlePoolAdmits(o, s);
      AdmitAllShape(o, Admit(o, s));
    }
  }

  // ----------------------------------------------------------------- aborting

  lemma {:induction false} ReservedDecodeNeverAborts(o: Options, s: Sched, i: nat)
    requires o.policy == ReserveFull && i <= |s.running|
    ensures PlanDecode(o, s, i, []).aborted == []
    decreases |s.running| - i
  {
    if i < |s.running| && i < o.maxBatch {
      ReservedDecodeNeverAborts(o, if NeedsBlock(s.running[i]) then GrowRow(o, s, i) else s, i + 1);
    }
  }

  /** Worst-case reservation: no step of any run aborts a request. */
  lemma ReserveFullNeverAborts(o: Options, s: Sched)
    requires o.policy == ReserveFull
    ensures PlanStep(o, s).aborted == []
  {
    ReservedDecodeNeverAborts(o, AdmitAll(o, s), 0);
  }

  /** A prefill slice aborts nobody; a decode plan aborts exactly the suffix of
      `running` it does not execute, youngest first, and executes the rest. */
  lemma AbortsAreYoungestSuffix(o: Options, s: Sched)
    ensures var plan := PlanStep(o, s);
            && (plan.work.PrefillChunk? ==> plan.aborted == [] && plan.s.running == s.running)
            && (plan.work.DecodeBatch? ==> DecodePlanShape(s.running, plan.s.running, plan.aborted))
  {
    var a := AdmitAll(o, s);
    AdmitAllShape(o, s);
    if a.prefill != [] {
      CoverShape(a, ChunkEnd(o, a.prefill[0]));
    } else {
      PlanDecodeShape(o, a, 0, []);
      var plan := PlanStep(o, s);
      assert plan.aborted[0..] == plan.aborted;
    }
  }

  /** The last survivor with no block left over owns the whole pool. */
  lemma LastSurvivorOwnsAll(o: Options, s: Sched)
    requires InvAt(o, s, 0, 0, 0) && o.policy == Watermark && s.prefill == [] && |s.running| == 1
    requires !s.CanReserve(1)
    ensures |s.running[0].table| == o.Usable()
  {
    var r := s.running[0];
    assert RunningOk(o, r, false);
    assert s.Live() == [r];
    assert [r][..0] == [];
    assert Total([r]) == Plus(Total([]), HeldBy(r));
    assert multiset(r.table) + multiset(s.free) == multiset(Descending(o.totalBlocks - 1, 1));
    assert |multiset(r.table) + multiset(s.free)| == |r.table| + |s.free|;
    assert |multiset(Descending(o.totalBlocks - 1, 1))| == |Descending(o.totalBlocks - 1, 1)|;
  }

  lemma {:induction false} EvictingTheOldest(o: Options, s: Sched, aborted: seq<Req>)
    requires InvAt(o, s, 0, 0, 0) && o.policy == Watermark && s.prefill == [] && s.running != []
    requires Evict(s, 0, aborted).0.running == []
    ensures |s.running[0].table| == o.Usable()
    decreases |s.running|
  {
    hide InvAt;
    if |s.running| == 1 {
      LastSurvivorOwnsAll(o, s);
    } else {
      AbortKeepsInv(o, s, 0);
      EvictingTheOldest(o, AbortYoungest(s), aborted + [Victim(s.running[|s.running| - 1])]);
    }
  }

  /** The oldest running request is aborted only when it owns every usable block
      and still needs one more. */
  lemma OldestAbortedOnlyWhenAlone(o: Options, s: Sched)
    requires Inv(o, s) && s.running != []
    requires PlanStep(o, s).work.DecodeBatch? && PlanStep(o, s).s.running == []
    ensures |s.running[0].table| == o.Usable() && NeedsBlock(s.running[0])
  {
    hide InvAt;
    var a := AdmitAll(o, s);
    AdmitAllShape(o, s);
    AdmitAllKeepsInv(o, s);
    BatchCap(o, a, 0, 0, 0);
    if !NeedsBlock(a.running[0]) {
      PlanDecodeShape(o, a, 1, []);
    } else if o.policy == ReserveFull {
      PlanDecodeShape(o, GrowRow(o, a, 0), 1, []);
    } else {
      var (e, aborted) := Evict(a, 0, []);
      if e.running != [] {
        PlanDecodeShape(o, GrowRow(o, e, 0), 1, aborted);
      }
      EvictingTheOldest(o, a, []);
    }
  }

  /** So a request whose worst case fits the pool is safe once it is the oldest. */
  lemma FittingOldestSurvives(o: Options, s: Sched)
    requires Inv(o, s) && s.running != [] && PlanStep(o, s).work.DecodeBatch?
    requires BlocksForTokens(s.running[0].PromptLen() + s.running[0].p.maxNew) <= o.Usable()
    ensures PlanStep(o, s).s.running != []
  {
    assert RunningOk(o, s.running[0], false);
    if PlanStep(o, s).s.running == [] {
      OldestAbortedOnlyWhenAlone(o, s);
    }
  }
}
