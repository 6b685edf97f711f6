/** Planning keeps the invariant, covers what it schedules, and evicts only
    under the watermark policy, youngest first. */
module PlanStepInvariant {
  import opened Types
  import opened SchedulerSpec
  import opened Ledger
  import opened SchedulerInvariant

  lemma GrowthBooks(o: Options, s: Sched, s': Sched, i: nat, r: Req)
    requires Books(o, s) && s.free != []
    requires i < |s.Live()| && s'.Live() == s.Live()[i := r]
    requires |s'.prefill| == |s.prefill| && |s'.running| == |s.running|
    requires r.table == s.Live()[i].table + [Top(s.free)] && r.slot == s.Live()[i].slot
    requires s'.free == Popped(s.free) && s'.freeSlots == s.freeSlots
    requires r.reserved - s'.reserved == s.Live()[i].reserved - s.reserved
    requires s'.reserved == s.reserved - 1 || s.reserved < |s.free|
    requires s'.reserved <= s.reserved
    ensures Books(o, s')
  {
    hide Total;
    GrowthBalances(s, s', i, r);
  }

  // ------------------------------------------------------------------ prefill

  lemma HeadOk(o: Options, rs: seq<Req>, head: int)
    requires PrefillsOk(o, rs, head) && rs != []
    ensures PrefillOk(o, rs[0], head)
  {
  }

  lemma HeadReplaced(o: Options, rs: seq<Req>, head: int, r: Req, head': int)
    requires PrefillsOk(o, rs, head) && rs != [] && PrefillOk(o, r, head')
    ensures PrefillsOk(o, rs[0 := r], head')
  {
  }

  lemma HeadOrder(s: Sched, s': Sched)
    requires s.prefill != [] && s'.waiting == s.waiting && s'.running == s.running
    requires s'.prefill != [] && s'.prefill == s.prefill[0 := s'.prefill[0]] && s'.prefill[0].p == s.prefill[0].p
    ensures SameParams(s.All(), s'.All())
  {
  }

  lemma GrowHead(o: Options, r: Req, head: int, end: int, b: BlockId)
    requires PrefillOk(o, r, head) && head <= end <= r.PromptLen() && r.Capacity() < end
    ensures r.reserved > 0 && PrefillOk(o, GrowReserved(r, b), Min(end, GrowReserved(r, b).Capacity()))
  {
  }

  lemma GrowHeadBooks(o: Options, s: Sched, s': Sched)
    requires Books(o, s) && s.free != [] && s.prefill != []
    requires s' == s.(prefill := s.prefill[0 := GrowReserved(s.prefill[0], Top(s.free))],
                      free := Popped(s.free), reserved := s.reserved - 1)
    ensures Books(o, s')
  {
    hide Books;
    var k := |s.running|;
    assert s.Live()[k] == s.prefill[0] && s'.Live() == s.Live()[k := s'.prefill[0]];
    GrowthBooks(o, s, s', k, s'.prefill[0]);
  }

  /** Covering one more block of the oldest prefill. */
  lemma CoverStep(o: Options, s: Sched, head: int, end: int)
    requires InvAt(o, s, head, 0, 0) && s.prefill != []
    requires head <= end <= s.prefill[0].PromptLen() && s.prefill[0].Capacity() < end
    ensures s.free != [] && s.prefill[0].reserved > 0 && s.reserved > 0
    ensures var r := GrowReserved(s.prefill[0], Top(s.free));
            var s' := s.(prefill := s.prefill[0 := r], free := Popped(s.free), reserved := s.reserved - 1);
            InvAt(o, s', Min(end, r.Capacity()), 0, 0)
  {
    hide Books, Ordered, WaitingsOk, PrefillsOk, RunningsOk, PrefillOk;
    var k := |s.running|;
    assert s.Live()[k] == s.prefill[0];
    PromiseBacked(o, s, head, 0, 0, k);
    HeadOk(o, s.prefill, head);
    GrowHead(o, s.prefill[0], head, end, Top(s.free));
    var r := GrowReserved(s.prefill[0], Top(s.free));
    var s' := s.(prefill := s.prefill[0 := r], free := Popped(s.free), reserved := s.reserved - 1);
    GrowHeadBooks(o, s, s');
    HeadReplaced(o, s.prefill, head, r, Min(end, r.Capacity()));
    HeadOrder(s, s');
    OrderedSame(s.All(), s'.All());
  }

  /** Covering touches nothing but the head's table and promise. */
  lemma {:induction false} CoverShape(s: Sched, end: int)
    requires s.prefill != []
    ensures var s' := Cover(s, end);
            && s'.waiting == s.waiting && s'.running == s.running && s'.freeSlots == s.freeSlots
            && s'.prefill != [] && s'.prefill[1..] == s.prefill[1..]
            && s'.prefill[0] == s.prefill[0].(table := s'.prefill[0].table, reserved := s'.prefill[0].reserved)
            && s.prefill[0].table <= s'.prefill[0].table
    decreases end - s.prefill[0].Capacity()
  {
    if s.prefill[0].Capacity() < end {
      var r := GrowReserved(s.prefill[0], Top(s.free));
      CoverShape(s.(prefill := s.prefill[0 := r], free := Popped(s.free), reserved := s.reserved - 1), end);
    }
  }

  lemma {:induction false} CoverKeepsInv(o: Options, s: Sched, head: int, end: int)
    requires InvAt(o, s, head, 0, 0) && s.prefill != []
    requires head <= end <= s.prefill[0].PromptLen()
    ensures InvAt(o, Cover(s, end), end, 0, 0)
    decreases end - s.prefill[0].Capacity()
  {
    hide InvAt;
    if s.prefill[0].Capacity() < end {
      CoverStep(o, s, head, end);
      var r := GrowReserved(s.prefill[0], Top(s.free));
      CoverKeepsInv(o, s.(prefill := s.prefill[0 := r], free := Popped(s.free), reserved := s.reserved - 1),
                    Min(end, r.Capacity()), end);
    } else {
      AlreadyCovered(o, s, head, end);
    }
  }

  lemma AlreadyCovered(o: Options, s: Sched, head: int, end: int)
    requires InvAt(o, s, head, 0, 0) && s.prefill != []
    requires head <= end <= s.prefill[0].PromptLen() && s.prefill[0].Capacity() >= end
    ensures InvAt(o, s, end, 0, 0)
  {
    hide Books, Ordered, WaitingsOk, RunningsOk, PrefillsOk;
    HeadOk(o, s.prefill, head);
    CoveredEnough(o, s.prefill[0], head, end);
    HeadReplaced(o, s.prefill, head, s.prefill[0], end);
    assert s.prefill[0 := s.prefill[0]] == s.prefill;
  }

  lemma CoveredEnough(o: Options, r: Req, head: int, end: int)
    requires PrefillOk(o, r, head) && head <= end <= r.PromptLen() && r.Capacity() >= end
    ensures PrefillOk(o, r, end)
  {
  }

  // ------------------------------------------------------------------- decode

  lemma NoGrowth(o: Options, s: Sched, i: nat)
    requires InvAt(o, s, 0, 0, i) && i < |s.running| && !NeedsBlock(s.running[i])
    ensures InvAt(o, s, 0, 0, i + 1)
  {
  }

  /** Under the reservation policy a row that crosses a block boundary still has
      an unmaterialized promise. */
  lemma PromiseRemains(o: Options, r: Req)
    requires o.policy == ReserveFull && RunningOk(o, r, false) && NeedsBlock(r)
    ensures r.reserved > 0
  {
  }

  /** A row asks for a block at the exact token that crosses the boundary. */
  lemma BoundaryIsExact(o: Options, r: Req)
    requires RunningOk(o, r, false)
    ensures NeedsBlock(r) <==> r.SeqLen() - 1 == r.Capacity()
  {
  }

  lemma RowOk(o: Options, s: Sched, i: nat)
    requires InvAt(o, s, 0, 0, i) && i < |s.running|
    ensures RunningOk(o, s.running[i], false) && Books(o, s)
  {
  }

  lemma GrowRowBooks(o: Options, s: Sched, i: nat)
    requires InvAt(o, s, 0, 0, i) && i < |s.running| && NeedsBlock(s.running[i])
    requires o.policy == ReserveFull || s.CanReserve(1)
    ensures s.free != [] && Books(o, GrowRow(o, s, i))
    ensures o.policy == ReserveFull ==> s.running[i].reserved > 0
  {
    hide InvAt, Books, RunningOk, NeedsBlock;
    RowOk(o, s, i);
    assert s.Live()[i] == s.running[i];
    PromiseBacked(o, s, 0, 0, i, i);
    if o.policy == ReserveFull {
      PromiseRemains(o, s.running[i]);
    }
    var s' := GrowRow(o, s, i);
    assert s'.Live() == s.Live()[i := s'.running[i]];
    GrowthBooks(o, s, s', i, s'.running[i]);
  }

  lemma GrownOk(o: Options, r: Req, b: BlockId)
    requires RunningOk(o, r, false) && NeedsBlock(r)
    ensures o.policy == ReserveFull ==> RunningOk(o, GrowReserved(r, b), true)
    ensures o.policy == Watermark ==> RunningOk(o, r.(table := r.table + [b]), true)
  {
  }

  lemma RowOrder(s: Sched, s': Sched, i: nat)
    requires i < |s.running| && s'.waiting == s.waiting && s'.prefill == s.prefill
    requires |s'.running| == |s.running| && s'.running == s.running[i := s'.running[i]]
    requires s'.running[i].p == s.running[i].p
    ensures SameParams(s.All(), s'.All())
  {
  }

  lemma GrowRowKeepsInv(o: Options, s: Sched, i: nat)
    requires InvAt(o, s, 0, 0, i) && i < |s.running| && NeedsBlock(s.running[i])
    requires o.policy == ReserveFull || s.CanReserve(1)
    ensures InvAt(o, GrowRow(o, s, i), 0, 0, i + 1)
  {
    var s' := GrowRow(o, s, i);
    GrowRowBooks(o, s, i);
    GrownOk(o, s.running[i], Top(s.free));
    RowOrder(s, s', i);
    OrderedSame(s.All(), s'.All());
  }

  lemma OrderedRemove(rs: seq<Req>, k: nat)
    requires Ordered(rs) && k < |rs|
    ensures Ordered(rs[..k] + rs[k + 1..])
  {
  }

  lemma AbortBooks(o: Options, s: Sched)
    requires Books(o, s) && s.running != []
    requires var r := s.running[|s.running| - 1]; r.slot >= 0 && r.reserved >= 0
    ensures Books(o, AbortYoungest(s))
  {
    hide Total;
    var k := |s.running| - 1;
    assert s.Live()[k] == s.running[k];
    assert AbortYoungest(s).Live() == s.Live()[..k] + s.Live()[k + 1..];
    ReleaseBalances(s, AbortYoungest(s), k, s.running[k]);
  }

  lemma AbortOrder(s: Sched)
    requires s.running != [] && Ordered(s.All())
    ensures Ordered(AbortYoungest(s).All())
  {
    var k := |s.running| - 1;
    OrderedRemove(s.All(), k);
    assert AbortYoungest(s).All() == s.All()[..k] + s.All()[k + 1..];
  }

  lemma AbortKeepsInv(o: Options, s: Sched, i: nat)
    requires InvAt(o, s, 0, 0, i) && i < |s.running|
    ensures InvAt(o, AbortYoungest(s), 0, 0, i)
  {
    assert RunningOk(o, s.running[|s.running| - 1], |s.running| - 1 < i);
    AbortBooks(o, s);
    AbortOrder(s);
  }

  /** `kept` is a prefix of `before`; what it lacks was appended to `aborted`,
      youngest first. */
  ghost predicate KeptPrefix(before: seq<Req>, kept: seq<Req>, aborted: seq<Req>, aborted': seq<Req>) {
    && |kept| <= |before| && kept == before[..|kept|]
    && |aborted'| == |aborted| + |before| - |kept| && aborted'[..|aborted|] == aborted
    && forall j :: |kept| <= j < |before| ==> aborted'[|aborted| + |before| - 1 - j] == Victim(before[j])
  }

  lemma KeptAll(rs: seq<Req>, aborted: seq<Req>)
    ensures KeptPrefix(rs, rs, aborted, aborted)
  {
  }

  lemma KeptOneFewer(before: seq<Req>, kept: seq<Req>, aborted: seq<Req>, aborted': seq<Req>)
    requires before != []
    requires KeptPrefix(before[..|before| - 1], kept, aborted + [Victim(before[|before| - 1])], aborted')
    ensures KeptPrefix(before, kept, aborted, aborted')
  {
    hide Victim;
    assert kept == before[..|before| - 1][..|kept|] == before[..|kept|];
    assert aborted'[..|aborted|] == aborted'[..|aborted| + 1][..|aborted|];
    assert aborted'[|aborted|] == aborted'[..|aborted| + 1][|aborted|];
  }

  /** Eviction keeps a prefix of `running`; what it drops is `aborted`, youngest first. */
  lemma {:induction false} EvictShape(s: Sched, i: nat, aborted: seq<Req>)
    requires i < |s.running|
    ensures var (e, aborted') := Evict(s, i, aborted);
            && e.waiting == s.waiting && e.prefill == s.prefill
            && (i < |e.running| ==> e.CanReserve(1))
            && KeptPrefix(s.running, e.running, aborted, aborted')
    decreases |s.running|
  {
    hide KeptPrefix;
    var t, more := AbortYoungest(s), aborted + [Victim(s.running[|s.running| - 1])];
    if s.CanReserve(1) {
      KeptAll(s.running, aborted);
    } else if i < |s.running| - 1 {
      EvictShape(t, i, more);
      KeptOneFewer(s.running, Evict(t, i, more).0.running, aborted, Evict(t, i, more).1);
    } else {
      KeptAll(t.running, more);
      KeptOneFewer(s.running, t.running, aborted, more);
    }
  }

  lemma {:induction false} EvictKeepsInv(o: Options, s: Sched, i: nat, aborted: seq<Req>)
    requires InvAt(o, s, 0, 0, i) && i < |s.running|
    ensures InvAt(o, Evict(s, i, aborted).0, 0, 0, i)
    decreases |s.running|
  {
    hide InvAt;
    if !s.CanReserve(1) {
      var t, aborted' := AbortYoungest(s), aborted + [Victim(s.running[|s.running| - 1])];
      AbortKeepsInv(o, s, i);
      if i < |s.running| - 1 {
        EvictKeepsInv(o, t, i, aborted');
        assert Evict(s, i, aborted) == Evict(t, i, aborted');
      } else {
        assert Evict(s, i, aborted).0 == t;
      }
    }
  }

  /** A row may only gain blocks. */
  predicate RowGrew(before: Req, after: Req) {
    after == before.(table := after.table, reserved := after.reserved) && before.table <= after.table
  }

  /** The shape of a decode plan over `before`: surviving rows are a prefix of it,
      aborted requests the suffix that is left, youngest first. */
  ghost predicate DecodePlanShape(before: seq<Req>, after: seq<Req>, aborted: seq<Req>) {
    && |after| + |aborted| == |before|
    && (forall j :: 0 <= j < |after| ==> RowGrew(before[j], after[j]))
    && forall j :: |after| <= j < |before| ==> aborted[|before| - 1 - j] == Victim(before[j])
  }

  lemma ShapeAfterGrowth(before: seq<Req>, grown: seq<Req>, i: nat, after: seq<Req>, aborted: seq<Req>)
    requires i < |before| == |grown| && i < |after| && grown == before[i := grown[i]] && RowGrew(before[i], grown[i])
    requires DecodePlanShape(grown, after, aborted)
    ensures DecodePlanShape(before, after, aborted)
  {
    assert RowGrew(grown[i], after[i]);
    assert forall j :: 0 <= j < |before| && j != i ==> grown[j] == before[j];
  }

  lemma ShapeAfterEviction(before: seq<Req>, kept: seq<Req>, aborted: seq<Req>, aborted': seq<Req>,
                           after: seq<Req>, later: seq<Req>)
    requires KeptPrefix(before, kept, aborted, aborted') && DecodePlanShape(kept, after, later)
    ensures |aborted| <= |aborted'|
    ensures DecodePlanShape(before, after, (aborted' + later)[|aborted|..])
  {
    hide Victim, RowGrew;
    var all := (aborted' + later)[|aborted|..];
    forall j | |after| <= j < |before|
      ensures all[|before| - 1 - j] == Victim(before[j])
    {
      if j < |kept| {
        assert all[|before| - 1 - j] == later[|kept| - 1 - j];
        assert before[j] == kept[j];
      } else {
        assert all[|before| - 1 - j] == aborted'[|aborted| + |before| - 1 - j];
      }
    }
  }

  lemma {:induction false} PlanDecodeShape(o: Options, s: Sched, i: nat, aborted: seq<Req>)
    requires i <= |s.running|
    ensures var plan := PlanDecode(o, s, i, aborted);
            && plan.work.DecodeBatch? && plan.s.prefill == s.prefill && plan.s.waiting == s.waiting
            && |plan.s.running| >= i && |plan.aborted| >= |aborted| && plan.aborted[..|aborted|] == aborted
            && DecodePlanShape(s.running, plan.s.running, plan.aborted[|aborted|..])
    decreases |s.running| - i, 1
  {
    hide DecodePlanShape;
    if i == |s.running| || i >= o.maxBatch {
      ShapeRefl(s.running, aborted);
    } else if !NeedsBlock(s.running[i]) {
      PlanDecodeShape(o, s, i + 1, aborted);
    } else if o.policy == ReserveFull {
      PlanDecodeShape(o, GrowRow(o, s, i), i + 1, aborted);
      var plan := PlanDecode(o, s, i, aborted);
      ShapeAfterGrowth(s.running, GrowRow(o, s, i).running, i, plan.s.running, plan.aborted[|aborted|..]);
    } else {
      EvictThenGrowShape(o, s, i, aborted);
    }
  }

  lemma ShapeRefl(rs: seq<Req>, aborted: seq<Req>)
    ensures DecodePlanShape(rs, rs, aborted[|aborted|..])
  {
  }

  lemma {:induction false} EvictThenGrowShape(o: Options, s: Sched, i: nat, aborted: seq<Req>)
    requires i < |s.running| && i < o.maxBatch && NeedsBlock(s.running[i]) && o.policy == Watermark
    ensures var plan := PlanDecode(o, s, i, aborted);
            && plan.work.DecodeBatch? && plan.s.prefill == s.prefill && plan.s.waiting == s.waiting
            && |plan.s.running| >= i && |plan.aborted| >= |aborted| && plan.aborted[..|aborted|] == aborted
            && DecodePlanShape(s.running, plan.s.running, plan.aborted[|aborted|..])
    decreases |s.running| - i, 0
  {
    hide DecodePlanShape, NeedsBlock, KeptPrefix, Evict;
    var (e, aborted') := Evict(s, i, aborted);
    var plan := PlanDecode(o, s, i, aborted);
    EvictShape(s, i, aborted);
    KeptSizes(s.running, e.running, aborted, aborted');
    if i < |e.running| {
      var g := GrowRow(o, e, i);
      PlanDecodeShape(o, g, i + 1, aborted');
      var later := plan.aborted[|aborted'|..];
      ShapeAfterGrowth(e.running, g.running, i, plan.s.running, later);
      ShapeAfterEviction(s.running, e.running, aborted, aborted', plan.s.running, later);
      assert plan.aborted == aborted' + later;
      assert plan.aborted[..|aborted|] == plan.aborted[..|aborted'|][..|aborted|];
    } else {
      ShapeRefl(e.running, []);
      ShapeAfterEviction(s.running, e.running, aborted, aborted', e.running, []);
      assert aborted' + [] == aborted';
    }
  }

  lemma KeptSizes(before: seq<Req>, kept: seq<Req>, aborted: seq<Req>, aborted': seq<Req>)
    requires KeptPrefix(before, kept, aborted, aborted')
    ensures |aborted| <= |aborted'| && aborted'[..|aborted|] == aborted && |kept| <= |before|
  {
  }

  lemma {:induction false} PlanDecodeKeepsInv(o: Options, s: Sched, i: nat, aborted: seq<Req>)
    requires InvAt(o, s, 0, 0, i) && i <= |s.running| && s.prefill == []
    ensures var plan := PlanDecode(o, s, i, aborted);
            InvAt(o, plan.s, 0, 0, |plan.s.running|) && plan.s.prefill == [] && plan.work.DecodeBatch?
    decreases |s.running| - i
  {
    hide InvAt;
    BatchCap(o, s, 0, 0, i);
    if i == |s.running| || i >= o.maxBatch {
    } else if !NeedsBlock(s.running[i]) {
      NoGrowth(o, s, i);
      PlanDecodeKeepsInv(o, s, i + 1, aborted);
    } else if o.policy == ReserveFull {
      GrowRowKeepsInv(o, s, i);
      PlanDecodeKeepsInv(o, GrowRow(o, s, i), i + 1, aborted);
    } else {
      var (e, aborted') := Evict(s, i, aborted);
      EvictShape(s, i, aborted);
      EvictKeepsInv(o, s, i, aborted);
      if i < |e.running| {
        GrowRowKeepsInv(o, e, i);
        PlanDecodeKeepsInv(o, GrowRow(o, e, i), i + 1, aborted');
      }
    }
  }
}
