/** Who gets in, and who has to go, in plain counts: acceptance, maximal admission,
    the free floor, exact promises and minimal eviction. */
module AdmissionTheorems {
  import opened Types
  import opened SchedulerSpec
  import opened SchedulerInvariant
  import opened PlanStepInvariant
  import opened PlanTheorems

  /** Blocks neither owned nor promised. */
  function Uncommitted(s: Sched): int { |s.free| - s.reserved }

  /** What the scheduler's constructor demands, no more. */
  lemma OptionsMean(o: Options)
    ensures o.Valid() <==>
              && o.maxBatch >= 1 && o.prefillChunk >= 1 && o.maxSeqLen >= 2 && o.totalBlocks >= 1
              && 0.0 <= o.freeFraction && o.freeFraction < 1.0
  {
  }

  // -------------------------------------------------------------- acceptance

  /** An empty pool can hold the request: its worst case, or its prompt above the floor. */
  predicate FitsEmptyPool(o: Options, p: Params) {
    if o.policy == ReserveFull then BlocksForTokens(|p.prompt| + p.maxNew) <= o.totalBlocks - 1
    else (o.totalBlocks - 1 - BlocksForTokens(|p.prompt|)) as real >= o.freeFraction * ((o.totalBlocks - 1) as real)
  }

  lemma InitialCounts(o: Options)
    requires o.Valid()
    ensures |Initial(o).free| == o.totalBlocks - 1 && Initial(o).reserved == 0
  {
  }

  /** A request is accepted exactly when it has a prompt, asks for something, respects
      the length limit, and an idle engine would admit it. */
  lemma AcceptedIff(o: Options, p: Params)
    requires o.Valid()
    ensures Validate(o, p).None? <==>
              p.prompt != [] && p.maxNew > 0 && |p.prompt| + p.maxNew <= o.maxSeqLen && CanAdmit(o, Initial(o), p)
    ensures CanAdmit(o, Initial(o), p) <==> FitsEmptyPool(o, p)
  {
    InitialCounts(o);
  }

  /** Each reason for refusal is the first rule that fails. */
  lemma RefusedForTheFirstReason(o: Options, p: Params)
    requires o.Valid()
    ensures Validate(o, p) == Some(EmptyPrompt) <==> p.prompt == []
    ensures Validate(o, p) == Some(NonPositiveMaxNew) <==> p.prompt != [] && p.maxNew <= 0
    ensures Validate(o, p) == Some(ExceedsMaxSeqLen) <==>
              p.prompt != [] && p.maxNew > 0 && |p.prompt| + p.maxNew > o.maxSeqLen
    ensures Validate(o, p) == Some(NeverFitsPool) <==>
              p.prompt != [] && p.maxNew > 0 && |p.prompt| + p.maxNew <= o.maxSeqLen && !FitsEmptyPool(o, p)
  {
  }

  // --------------------------------------------------------------- admission

  /** Too little is uncommitted for the request: for its worst case, or for its
      prompt on top of the floor. */
  predicate Misfit(o: Options, s: Sched, p: Params) {
    if o.policy == ReserveFull then Uncommitted(s) < BlocksForTokens(|p.prompt| + p.maxNew)
    else (Uncommitted(s) - BlocksForTokens(|p.prompt|)) as real < o.freeFraction * ((o.totalBlocks - 1) as real)
  }

  /** Admission never stops early: it leaves an empty queue, a full batch, or a head
      that does not fit. */
  lemma AdmissionIsMaximal(o: Options, s: Sched)
    ensures var a := AdmitAll(o, s);
            a.waiting == [] || |a.prefill| + |a.running| >= o.maxBatch || Misfit(o, a, a.waiting[0].p)
  {
    hide AdmitAll;
    AdmitAllShape(o, s);
  }

  /** Nor does it ever go too far: the admitted head fitted, and what it leaves
      uncommitted is not negative and, under the watermark policy, at least the floor. */
  lemma AdmissionIsJustified(o: Options, s: Sched)
    requires o.Valid() && AdmitsHead(o, s)
    ensures |s.prefill| + |s.running| < o.maxBatch && !Misfit(o, s, s.waiting[0].p)
    ensures var n := if o.policy == ReserveFull then BlocksForTokens(|s.waiting[0].p.prompt| + s.waiting[0].p.maxNew)
                     else BlocksForTokens(|s.waiting[0].p.prompt|);
            Uncommitted(Admit(o, s)) == Uncommitted(s) - n >= 0
    ensures o.policy == Watermark ==> Uncommitted(Admit(o, s)) as real >= o.freeFraction * ((o.totalBlocks - 1) as real)
  {
    assert o.Floor() >= 0.0;
  }

  /** Whatever one planning round admits, it leaves the floor uncommitted and the batch
      within its cap. */
  lemma {:induction false} AdmissionKeepsFloor(o: Options, s: Sched)
    requires o.Valid() && |s.prefill| + |s.running| <= o.maxBatch
    ensures var a := AdmitAll(o, s);
            && |a.prefill| + |a.running| <= o.maxBatch
            && (a.waiting != s.waiting ==> Uncommitted(a) >= 0)
            && (a.waiting != s.waiting && o.policy == Watermark ==>
                  Uncommitted(a) as real >= o.freeFraction * ((o.totalBlocks - 1) as real))
    decreases |s.waiting|
  {
    if AdmitsHead(o, s) {
      AdmissionIsJustified(o, s);
      var t := Admit(o, s);
      hide AdmitsHead, Admit;
      AdmissionKeepsFloor(o, t);
      if AdmitAll(o, t).waiting == t.waiting {
        NobodyMore(o, t);
      }
    }
  }

  lemma NobodyMore(o: Options, s: Sched)
    requires AdmitAll(o, s).waiting == s.waiting
    ensures AdmitAll(o, s) == s
  {
    if AdmitsHead(o, s) {
      AdmitAllShape(o, Admit(o, s));
    }
  }

  /** Prefill has priority: a step decodes exactly when no prompt is half cached and the
      oldest waiting request cannot be let in. */
  lemma DecodesOnlyWhenNobodyCanPrefill(o: Options, s: Sched)
    ensures PlanStep(o, s).work.DecodeBatch? <==>
              && s.prefill == []
              && (s.waiting == [] || |s.running| >= o.maxBatch || Misfit(o, s, s.waiting[0].p))
  {
    hide Cover, PlanDecode, AdmitAll, AdmitsHead, ChunkEnd;
    SomebodyPrefills(o, s);
    HeadIsLetIn(o, s);
    PlanDecodeShape(o, AdmitAll(o, s), 0, []);
  }

  lemma HeadIsLetIn(o: Options, s: Sched)
    ensures AdmitsHead(o, s) <==> s.waiting != [] && |s.prefill| + |s.running| < o.maxBatch && !Misfit(o, s, s.waiting[0].p)
  {
  }

  lemma SomebodyPrefills(o: Options, s: Sched)
    ensures AdmitAll(o, s).prefill == [] <==> s.prefill == [] && !AdmitsHead(o, s)
    ensures AdmitAll(o, s).running == s.running
  {
    AdmitAllShape(o, s);
    if AdmitsHead(o, s) {
      AdmitAllShape(o, Admit(o, s));
    }
  }

  /** Otherwise it caches the next part of the oldest prompt not cached yet: a whole
      chunk, or what is left of the prompt. */
  lemma SlicesTheOldestPrompt(o: Options, s: Sched)
    requires PlanStep(o, s).work.PrefillChunk?
    ensures s.prefill + s.waiting != [] && PlanStep(o, s).s.prefill != []
    ensures var oldest, plan := (s.prefill + s.waiting)[0], PlanStep(o, s);
            && plan.s.prefill[0].p == oldest.p && plan.work.begin == oldest.progress
            && plan.work.end == (if |oldest.p.prompt| - oldest.progress <= o.prefillChunk then |oldest.p.prompt|
                                 else oldest.progress + o.prefillChunk)
  {
    hide Cover, PlanDecode;
    var a := AdmitAll(o, s);
    if a.prefill == [] {
      PlanDecodeShape(o, a, 0, []);
    } else {
      CoverShape(a, ChunkEnd(o, a.prefill[0]));
      if s.prefill == [] {
        AdmitAllShape(o, Admit(o, s));
      } else {
        AdmitAllShape(o, s);
      }
    }
  }

  predicate SlotsFrom(rs: seq<Req>, n: nat) { forall i :: 0 <= i < |rs| ==> rs[i].slot == n + i }

  /** Slots are stacked in descending order, so the lowest go out first: while nobody
      has left, the request admitted after `n` others has slot `n`. */
  lemma {:induction false} LowestSlotsFirst(o: Options, s: Sched)
    requires |s.prefill| + |s.running| <= o.maxBatch && SlotsFrom(s.running + s.prefill, 0)
    requires s.freeSlots == Descending(o.maxBatch - 1, |s.prefill| + |s.running|)
    ensures var a := AdmitAll(o, s); SlotsFrom(a.running + a.prefill, 0)
    decreases |s.waiting|
  {
    hide CanAdmit, ReservationFor, SlotsFrom;
    if AdmitsHead(o, s) {
      LowestSlotNext(o, s);
      LowestSlotsFirst(o, Admit(o, s));
    }
  }

  lemma LowestSlotNext(o: Options, s: Sched)
    requires |s.prefill| + |s.running| < o.maxBatch && s.waiting != [] && SlotsFrom(s.running + s.prefill, 0)
    requires s.freeSlots == Descending(o.maxBatch - 1, |s.prefill| + |s.running|)
    ensures var t := Admit(o, s);
            && SlotsFrom(t.running + t.prefill, 0)
            && t.freeSlots == Descending(o.maxBatch - 1, |t.prefill| + |t.running|)
  {
    hide ReservationFor;
    var t := Admit(o, s);
    assert t.running + t.prefill == (s.running + s.prefill) + [t.prefill[|s.prefill|]];
  }

  // ----------------------------------------------------------------- promises

  /** Owned plus promised is exactly the worst case under the reservation policy, and
      exactly the prompt while prefilling under the watermark policy, where a running
      request is promised nothing. */
  lemma PromiseIsExact(o: Options, s: Sched, k: nat)
    requires Inv(o, s) && k < |s.Live()|
    ensures var r := s.Live()[k];
            if o.policy == ReserveFull then |r.table| + r.reserved == BlocksForTokens(|r.p.prompt| + r.p.maxNew)
            else if k < |s.running| then r.reserved == 0
            else |r.table| + r.reserved == BlocksForTokens(|r.p.prompt|)
  {
    hide Books, Ordered, WaitingsOk;
    if k < |s.running| {
      assert RunningOk(o, s.running[k], false);
    } else {
      var i := k - |s.running|;
      assert PrefillOk(o, s.prefill[i], if i == 0 then HeadProgress(s) else 0);
    }
  }

  // ----------------------------------------------------------------- eviction

  /** Rows whose next position lies past the blocks they own. */
  function Needs(rs: seq<Req>): nat {
    if rs == [] then 0
    else (if |rs[0].p.prompt| + |rs[0].outputs| - 1 >= 16 * |rs[0].table| then 1 else 0) + Needs(rs[1..])
  }

  function BlocksOf(rs: seq<Req>): nat {
    if rs == [] then 0 else |rs[0].table| + BlocksOf(rs[1..])
  }

  lemma {:induction false} BlocksConcat(a: seq<Req>, b: seq<Req>)
    ensures BlocksOf(a + b) == BlocksOf(a) + BlocksOf(b)
  {
    if a == [] {
      assert a + b == b;
    } else {
      assert (a + b)[0] == a[0] && (a + b)[1..] == a[1..] + b;
      BlocksConcat(a[1..], b);
    }
  }

  lemma BlocksBetween(rs: seq<Req>, i: nat, j: nat)
    requires i <= j <= |rs|
    ensures BlocksOf(rs[i..]) == BlocksOf(rs[i..j]) + BlocksOf(rs[j..])
  {
    assert rs[i..] == rs[i..j] + rs[j..];
    BlocksConcat(rs[i..j], rs[j..]);
  }

  lemma LastBlocks(rs: seq<Req>, v: nat)
    requires v < |rs|
    ensures BlocksOf(rs[v..]) == BlocksOf(rs[..|rs| - 1][v..]) + |rs[|rs| - 1].table|
  {
    var last := |rs| - 1;
    BlocksBetween(rs, v, last);
    assert rs[..last][v..] == rs[v..last];
    assert rs[last..] == [rs[last]] && [rs[last]][1..] == [];
  }

  lemma NextNeeds(rs: seq<Req>, i: nat, n: nat)
    requires i < n <= |rs|
    ensures Needs(rs[i..n]) == (if NeedsBlock(rs[i]) then 1 else 0) + Needs(rs[i + 1..n])
  {
    assert rs[i..n][0] == rs[i] && rs[i..n][1..] == rs[i + 1..n];
  }

  /** Under the watermark policy an aborted row gives back exactly its own blocks. */
  lemma AbortFrees(o: Options, s: Sched, i: nat)
    requires InvAt(o, s, 0, 0, i) && i < |s.running| && o.policy == Watermark
    ensures Uncommitted(AbortYoungest(s)) == Uncommitted(s) + |s.running[|s.running| - 1].table|
  {
    hide Books, Ordered, WaitingsOk, PrefillsOk, Validate;
    var last := |s.running| - 1;
    assert RunningOk(o, s.running[last], last < i);
  }

  /** `e` holds what `s` held, less its evicted rows, which gave back their blocks. */
  ghost predicate Freed(s: Sched, e: Sched) {
    && |e.running| <= |s.running|
    && Uncommitted(e) == Uncommitted(s) + BlocksOf(s.running[|e.running|..])
    && (|e.running| < |s.running| ==> Uncommitted(s) + BlocksOf(s.running[|e.running| + 1..]) <= 0)
  }

  lemma OneMoreVictim(s: Sched, t: Sched, e: Sched)
    requires s.running != [] && t.running == s.running[..|s.running| - 1] && !s.CanReserve(1)
    requires Uncommitted(t) == Uncommitted(s) + |s.running[|s.running| - 1].table| && Freed(t, e)
    ensures Freed(s, e)
  {
    var last, v := |s.running| - 1, |e.running|;
    LastBlocks(s.running, v);
    if v < last {
      LastBlocks(s.running, v + 1);
    } else {
      assert s.running[v + 1..] == [];
    }
  }

  /** Eviction frees exactly the victims' blocks, and without its last victim nothing
      would have been uncommitted. */
  lemma {:induction false} EvictFrees(o: Options, s: Sched, i: nat, aborted: seq<Req>)
    requires InvAt(o, s, 0, 0, i) && i < |s.running| && o.policy == Watermark
    ensures Freed(s, Evict(s, i, aborted).0)
    decreases |s.running|
  {
    hide InvAt, Freed;
    if !s.CanReserve(1) {
      var last := |s.running| - 1;
      var t, aborted' := AbortYoungest(s), aborted + [Victim(s.running[last])];
      AbortFrees(o, s, i);
      AbortKeepsInv(o, s, i);
      if i == last {
        NoVictims(t);
        OneMoreVictim(s, t, t);
      } else {
        EvictFrees(o, t, i, aborted');
        OneMoreVictim(s, t, Evict(t, i, aborted').0);
      }
    } else {
      NoVictims(s);
    }
  }

  lemma NoVictims(s: Sched)
    ensures Freed(s, s)
  {
    assert s.running[|s.running|..] == [];
  }

  /** The survivors of a decode plan from row `i` on: their needs fit what is
      uncommitted plus the victims' blocks, and one more survivor's would not. */
  ghost predicate LargestFit(s: Sched, i: nat, n: nat) {
    && i <= n <= |s.running|
    && Needs(s.running[i..n]) <= Uncommitted(s) + BlocksOf(s.running[n..])
    && (n < |s.running| ==> Needs(s.running[i..n + 1]) > Uncommitted(s) + BlocksOf(s.running[n + 1..]))
  }

  lemma FitAfterSkip(s: Sched, i: nat, n: nat)
    requires i < |s.running| && !NeedsBlock(s.running[i]) && LargestFit(s, i + 1, n)
    ensures LargestFit(s, i, n)
  {
    hide NeedsBlock, Needs;
    NextNeeds(s.running, i, n);
    if n < |s.running| {
      NextNeeds(s.running, i, n + 1);
    }
  }

  lemma NeedsFirst(rs: seq<Req>, i: nat, n: nat)
    requires i < n <= |rs| && NeedsBlock(rs[i])
    ensures Needs(rs[i..n]) >= 1
  {
    NextNeeds(rs, i, n);
  }

  lemma FitAfterGrowth(o: Options, s: Sched, e: Sched, g: Sched, i: nat, n: nat)
    requires i < |e.running| <= |s.running| && e.running == s.running[..|e.running|] && NeedsBlock(s.running[i])
    requires Freed(s, e)
    requires |g.running| == |e.running| && g.running[i + 1..] == e.running[i + 1..] && Uncommitted(g) == Uncommitted(e) - 1
    requires LargestFit(g, i + 1, n)
    ensures LargestFit(s, i, n)
  {
    hide NeedsBlock, Needs, Uncommitted;
    var v := |e.running|;
    TailSlices(s.running, g.running, i + 1, v, n);
    BlocksBetween(s.running, n, v);
    NextNeeds(s.running, i, n);
    if n < v {
      TailSlices(s.running, g.running, i + 1, v, n + 1);
      BlocksBetween(s.running, n + 1, v);
      NextNeeds(s.running, i, n + 1);
    } else if n < |s.running| {
      NeedsFirst(s.running, i, n + 1);
    }
  }

  lemma TailSlices(rs: seq<Req>, gs: seq<Req>, i: nat, v: nat, n: nat)
    requires i <= n <= v == |gs| && v <= |rs| && gs[i..] == rs[..v][i..]
    ensures gs[i..n] == rs[i..n] && gs[n..] == rs[n..v]
  {
    assert gs[i..n] == gs[i..][..n - i] && rs[i..n] == rs[..v][i..][..n - i];
    assert gs[n..] == gs[i..][n - i..] && rs[n..v] == rs[..v][i..][n - i..];
  }

  /** Evicting for row `i` and growing it, if it is still there, keeps the fit. */
  lemma FitAfterEviction(o: Options, s: Sched, i: nat, aborted: seq<Req>, n: nat)
    requires InvAt(o, s, 0, 0, i) && i < |s.running| && NeedsBlock(s.running[i]) && o.policy == Watermark
    requires i <= |Evict(s, i, aborted).0.running|
    requires var e := Evict(s, i, aborted).0;
             if i < |e.running| then LargestFit(GrowRow(o, e, i), i + 1, n) else n == i
    ensures LargestFit(s, i, n)
  {
    hide InvAt, LargestFit, NeedsBlock, Evict, GrowRow, Freed;
    var (e, aborted') := Evict(s, i, aborted);
    EvictShape(s, i, aborted);
    EvictFrees(o, s, i, aborted);
    EvictKeepsInv(o, s, i, aborted);
    KeptRows(s.running, e.running, aborted, aborted');
    if i < |e.running| {
      GrowRowBooks(o, e, i);
      RowGrown(o, e, i);
      FitAfterGrowth(o, s, e, GrowRow(o, e, i), i, n);
    } else {
      SelfEvicted(o, s, e, i);
    }
  }

  lemma {:induction false} DecodeKeepsLargestFit(o: Options, s: Sched, i: nat, aborted: seq<Req>)
    requires InvAt(o, s, 0, 0, i) && i <= |s.running| && s.prefill == [] && o.policy == Watermark
    ensures LargestFit(s, i, |PlanDecode(o, s, i, aborted).s.running|)
    decreases |s.running| - i
  {
    hide InvAt, LargestFit, NeedsBlock, Evict, GrowRow;
    BatchCap(o, s, 0, 0, i);
    if i == |s.running| || i >= o.maxBatch {
      NothingToFit(o, s, i);
    } else if !NeedsBlock(s.running[i]) {
      NoGrowth(o, s, i);
      DecodeKeepsLargestFit(o, s, i + 1, aborted);
      FitAfterSkip(s, i, |PlanDecode(o, s, i + 1, aborted).s.running|);
    } else {
      var (e, aborted') := Evict(s, i, aborted);
      EvictForFit(o, s, i, aborted);
      if i < |e.running| {
        DecodeKeepsLargestFit(o, GrowRow(o, e, i), i + 1, aborted');
      }
      FitAfterEviction(o, s, i, aborted, |PlanDecode(o, s, i, aborted).s.running|);
    }
  }

  lemma EvictForFit(o: Options, s: Sched, i: nat, aborted: seq<Req>)
    requires InvAt(o, s, 0, 0, i) && i < |s.running| && s.prefill == [] && o.policy == Watermark && NeedsBlock(s.running[i])
    ensures var e := Evict(s, i, aborted).0;
            && i <= |e.running| <= |s.running|
            && (i < |e.running| ==>
                  var g := GrowRow(o, e, i); InvAt(o, g, 0, 0, i + 1) && |g.running| == |e.running| && g.prefill == [])
  {
    hide InvAt, NeedsBlock, Evict, KeptPrefix;
    var (e, aborted') := Evict(s, i, aborted);
    EvictShape(s, i, aborted);
    EvictKeepsInv(o, s, i, aborted);
    KeptRows(s.running, e.running, aborted, aborted');
    if i < |e.running| {
      GrowRowKeepsInv(o, e, i);
    }
  }

  lemma KeptRows(before: seq<Req>, kept: seq<Req>, aborted: seq<Req>, aborted': seq<Req>)
    requires KeptPrefix(before, kept, aborted, aborted')
    ensures |kept| <= |before| && kept == before[..|kept|]
  {
  }

  lemma RowGrown(o: Options, e: Sched, i: nat)
    requires i < |e.running| && o.policy == Watermark && e.free != []
    ensures var g := GrowRow(o, e, i);
            && |g.running| == |e.running| && g.running[i + 1..] == e.running[i + 1..]
            && Uncommitted(g) == Uncommitted(e) - 1
  {
  }

  lemma NothingToFit(o: Options, s: Sched, i: nat)
    requires InvAt(o, s, 0, 0, i) && i == |s.running|
    ensures LargestFit(s, i, i)
  {
    hide Ordered, WaitingsOk, PrefillsOk, RunningsOk;
    assert s.running[i..i] == [];
  }

  lemma SelfEvicted(o: Options, s: Sched, e: Sched, i: nat)
    requires i < |s.running| && NeedsBlock(s.running[i]) && InvAt(o, e, 0, 0, i) && |e.running| == i
    requires Freed(s, e)
    ensures LargestFit(s, i, i)
  {
    hide Ordered, WaitingsOk, PrefillsOk, RunningsOk, NeedsBlock, Needs;
    assert s.running[i..i] == [] && Needs([]) == 0 by { NoNeeds(); }
    NeedsFirst(s.running, i, i + 1);
  }

  lemma NoNeeds()
    ensures Needs([]) == 0
  {
  }

  /** Eviction is minimal: a decode plan keeps the longest prefix of the running rows
      whose block needs fit what is uncommitted plus what the others give back. */
  lemma EvictionIsMinimal(o: Options, s: Sched)
    requires Inv(o, s) && o.policy == Watermark && PlanStep(o, s).work.DecodeBatch?
    ensures LargestFit(s, 0, |PlanStep(o, s).s.running|)
  {
    hide InvAt, LargestFit, PlanDecode, AdmitAll;
    var a := AdmitAll(o, s);
    AdmitAllShape(o, s);
    NobodyMore(o, s);
    DecodeCoverage(o, s);
    DecodeKeepsLargestFit(o, s, 0, []);
  }

  /** In particular nobody is aborted while the rows that need a block can have one. */
  lemma NoNeedlessAbort(o: Options, s: Sched)
    requires Inv(o, s) && o.policy == Watermark && PlanStep(o, s).work.DecodeBatch?
    requires Needs(s.running) <= Uncommitted(s)
    ensures |PlanStep(o, s).s.running| == |s.running| && PlanStep(o, s).aborted == []
  {
    hide PlanStep, InvAt;
    EvictionIsMinimal(o, s);
    AbortsAreYoungestSuffix(o, s);
    var n := |PlanStep(o, s).s.running|;
    if n < |s.running| {
      FewerNeeds(s.running, n + 1);
    }
  }

  lemma {:induction false} FewerNeeds(rs: seq<Req>, n: nat)
    requires n <= |rs|
    ensures Needs(rs[0..n]) <= Needs(rs)
    decreases |rs|
  {
    if n > 0 {
      assert rs[0..n][0] == rs[0] && rs[0..n][1..] == rs[1..][0..n - 1];
      FewerNeeds(rs[1..], n - 1);
    }
  }
}
