/** Draining a closed set of requests: a step budget that every non-empty step spends,
    so the engine cannot stall; for a request alone it is attained. */
module DrainBound {
  import opened Types
  import opened ForwardPass
  import opened SchedulerSpec
  import opened Ledger
  import opened SchedulerInvariant
  import opened PlanStepInvariant
  import opened PlanTheorems
  import opened StepExactness
  import opened Accounting
  import opened StepAccounting
  import opened EngineMachine

  /** Steps a request can still take part in: prefill slices left, then tokens. */
  function WorkOf(o: Options, r: Req): int {
    if o.prefillChunk <= 0 then 0
    else if r.outputs == [] then CeilDiv(Max(r.PromptLen() - r.progress, 0), o.prefillChunk) + r.p.maxNew - 1
    else r.p.maxNew - |r.outputs|
  }

  function TotalWork(o: Options, rs: seq<Req>): int {
    if rs == [] then 0 else TotalWork(o, rs[..|rs| - 1]) + WorkOf(o, rs[|rs| - 1])
  }

  lemma {:induction false} WorkConcat(o: Options, a: seq<Req>, b: seq<Req>)
    ensures TotalWork(o, a + b) == TotalWork(o, a) + TotalWork(o, b)
  {
    if b == [] {
      assert a + b == a;
    } else {
      WorkConcat(o, a, b[..|b| - 1]);
      assert (a + b)[..|a + b| - 1] == a + b[..|b| - 1];
    }
  }

  lemma WorkOne(o: Options, r: Req)
    ensures TotalWork(o, [r]) == WorkOf(o, r)
  {
    assert [r][..0] == [];
  }

  lemma WorkSplit(o: Options, rs: seq<Req>, i: nat)
    requires i < |rs|
    ensures TotalWork(o, rs) == TotalWork(o, rs[..i] + rs[i + 1..]) + WorkOf(o, rs[i])
  {
    CutAt(rs, i);
    WorkConcat(o, rs[..i] + [rs[i]], rs[i + 1..]);
    WorkConcat(o, rs[..i], [rs[i]]);
    WorkConcat(o, rs[..i], rs[i + 1..]);
    WorkOne(o, rs[i]);
  }

  lemma WorkReplace(o: Options, rs: seq<Req>, i: nat, r: Req)
    requires i < |rs|
    ensures TotalWork(o, rs[i := r]) == TotalWork(o, rs) - WorkOf(o, rs[i]) + WorkOf(o, r)
  {
    WorkSplit(o, rs, i);
    WorkSplit(o, rs[i := r], i);
    assert rs[i := r][..i] == rs[..i] && rs[i := r][i + 1..] == rs[i + 1..];
  }

  predicate SameProgress(a: seq<Req>, b: seq<Req>) {
    && |a| == |b|
    && forall i :: 0 <= i < |a| ==> a[i].p == b[i].p && a[i].outputs == b[i].outputs && a[i].progress == b[i].progress
  }

  lemma {:induction false} SameProgressSameWork(o: Options, a: seq<Req>, b: seq<Req>)
    requires SameProgress(a, b)
    ensures TotalWork(o, a) == TotalWork(o, b)
  {
    if a != [] {
      SameProgressSameWork(o, a[..|a| - 1], b[..|b| - 1]);
    }
  }

  /** Every request in a reachable state still has work. */
  ghost predicate Busy(o: Options, rs: seq<Req>) {
    forall i :: 0 <= i < |rs| ==> WorkOf(o, rs[i]) >= 1
  }

  lemma {:induction false} BusyAddsUp(o: Options, rs: seq<Req>)
    requires Busy(o, rs)
    ensures TotalWork(o, rs) >= |rs|
  {
    if rs != [] {
      BusyAddsUp(o, rs[..|rs| - 1]);
    }
  }

  lemma DivUnique(x: nat, d: nat, q: nat, r: nat)
    requires r < d && x == q * d + r
    ensures x / d == q
  {
    var k := x / d - q;
    assert k * d == r - x % d;
    assert k >= 1 ==> k * d >= d;
    assert k <= -1 ==> k * d <= -1 * d;
  }

  lemma CeilStep(n: nat, d: nat)
    requires d > 0 && n > 0
    ensures CeilDiv(n, d) == (if n <= d then 1 else 1 + CeilDiv(n - d, d))
  {
    if n <= d {
      DivUnique(n + d - 1, d, 1, n - 1);
    } else {
      var q := (n - 1) / d;
      assert (q + 1) * d == q * d + d;
      DivUnique(n + d - 1, d, q + 1, (n - 1) % d);
    }
  }

  lemma PrefillWork(o: Options, r: Req, head: int)
    requires o.Valid() && PrefillOk(o, r, head)
    ensures WorkOf(o, r) >= 1
    ensures ChunkEnd(o, r) < r.PromptLen() ==> WorkOf(o, r.(progress := ChunkEnd(o, r))) == WorkOf(o, r) - 1
    ensures ChunkEnd(o, r) == r.PromptLen() ==> WorkOf(o, r) == r.p.maxNew
  {
    CeilStep(r.PromptLen() - r.progress, o.prefillChunk);
  }

  lemma WaitingWork(o: Options, r: Req)
    requires o.Valid() && WaitingOk(o, r)
    ensures WorkOf(o, r) == CeilDiv(r.PromptLen(), o.prefillChunk) + r.p.maxNew - 1 >= 1
  {
    CeilStep(r.PromptLen(), o.prefillChunk);
  }

  lemma InvBusy(o: Options, s: Sched)
    requires Inv(o, s)
    ensures Busy(o, s.All())
  {
    hide Books, Ordered, Holding, Validate;
    forall i | 0 <= i < |s.All()|
      ensures WorkOf(o, s.All()[i]) >= 1
    {
      if i < |s.running| {
        assert RunningOk(o, s.running[i], false);
      } else if i < |s.Live()| {
        var k := i - |s.running|;
        assert PrefillOk(o, s.prefill[k], if k == 0 then HeadProgress(s) else 0);
        PrefillWork(o, s.prefill[k], if k == 0 then HeadProgress(s) else 0);
      } else {
        assert WaitingOk(o, s.waiting[i - |s.Live()|]);
        WaitingWork(o, s.waiting[i - |s.Live()|]);
      }
    }
  }

  // ------------------------------------------------------------- what a step spends

  lemma ProducedWork(o: Options, r: Req, t: TokenId)
    requires o.Valid()
    ensures var r' := Produce(o, r, t);
            r'.state == Running ==> WorkOf(o, r') == r.p.maxNew - |r.outputs| - 1
  {
  }

  lemma {:induction false} CompleteRowsSpends(o: Options, s: Sched, j: nat, sampled: seq<TokenId>)
    requires o.Valid() && j + |sampled| == |s.running|
    requires forall i :: j <= i < |s.running| ==> s.running[i].outputs != [] && WorkOf(o, s.running[i]) >= 1
    ensures TotalWork(o, CompleteRows(o, s, j, sampled).0.All()) <= TotalWork(o, s.All()) - |sampled|
    decreases |sampled|
  {
    hide WorkOf;
    if sampled == [] {
      CompleteNothing(o, s, j);
    } else {
      var x := s.running[j];
      var r := Produce(o, x, sampled[0]);
      var t := if r.state == Running then s.(running := s.running[j := r])
               else Release(s.(running := s.running[..j] + s.running[j + 1..]), r);
      var j' := if r.state == Running then j + 1 else j;
      CompleteRowsUnfold(o, s, j, sampled, t, j');
      AllAtRow(s, j, r);
      RowSpends(o, x, sampled[0]);
      hide Produce, CompleteRows;
      if r.state == Running {
        WorkReplace(o, s.All(), j, r);
      } else {
        WorkSplit(o, s.All(), j);
      }
      CompleteRowsSpends(o, t, j', sampled[1..]);
    }
  }

  lemma RowSpends(o: Options, r: Req, t: TokenId)
    requires o.Valid() && r.outputs != []
    ensures Produce(o, r, t).state == Running ==> WorkOf(o, Produce(o, r, t)) == WorkOf(o, r) - 1
  {
    ProducedWork(o, r, t);
  }

  lemma HeadInAll(s: Sched, r: Req)
    requires s.prefill != []
    ensures |s.running| < |s.All()| && s.All()[|s.running|] == s.prefill[0]
    ensures s.(prefill := s.prefill[0 := r]).All() == s.All()[|s.running| := r]
  {
  }

  lemma FinalSlice(o: Options, s: Sched, end: int, sampled: seq<TokenId>)
    requires o.Valid() && s.prefill != [] && end == s.prefill[0].PromptLen() && |sampled| == 1
    requires s.prefill[0].outputs == [] && WorkOf(o, s.prefill[0]) == s.prefill[0].p.maxNew >= 1
    ensures TotalWork(o, CompletePrefill(o, s, end, sampled).0.All()) <= TotalWork(o, s.All()) - 1
  {
    hide WorkOf, TotalWork;
    var head, k := s.prefill[0], |s.running|;
    var r := head.(progress := end);
    var r' := Produce(o, r, sampled[0]);
    var all := s.All()[k := r];
    HeadInAll(s, r);
    ProducedWork(o, r, sampled[0]);
    PrefillLeaves(s, r, r');
    hide Produce;
    assert all[k := r'] == s.All()[k := r'];
    assert all[..k] + all[k + 1..] == s.All()[..k] + s.All()[k + 1..];
    WorkReplace(o, s.All(), k, r');
    WorkSplit(o, s.All(), k);
  }

  lemma CompletePrefillSpends(o: Options, s: Sched, sampled: seq<TokenId>)
    requires o.Valid() && s.prefill != [] && PrefillOk(o, s.prefill[0], ChunkEnd(o, s.prefill[0]))
    requires ChunkEnd(o, s.prefill[0]) == s.prefill[0].PromptLen() ==> |sampled| == 1
    ensures TotalWork(o, CompletePrefill(o, s, ChunkEnd(o, s.prefill[0]), sampled).0.All()) <= TotalWork(o, s.All()) - 1
  {
    hide WorkOf, TotalWork, Produce;
    var head, end := s.prefill[0], ChunkEnd(o, s.prefill[0]);
    PrefillWork(o, head, end);
    if end < head.PromptLen() {
      var r := head.(progress := end);
      HeadInAll(s, r);
      WorkReplace(o, s.All(), |s.running|, r);
    } else {
      FinalSlice(o, s, end, sampled);
    }
  }

  lemma {:induction false} AdmissionSpendsNothing(o: Options, s: Sched)
    ensures TotalWork(o, AdmitAll(o, s).All()) == TotalWork(o, s.All())
    decreases |s.waiting|
  {
    if AdmitsHead(o, s) {
      assert s.All() == s.running + s.prefill + [s.waiting[0]] + s.waiting[1..];
      SameProgressSameWork(o, s.All(), Admit(o, s).All());
      AdmissionSpendsNothing(o, Admit(o, s));
    }
  }

  lemma DroppedWork(o: Options, running: seq<Req>, waiting: seq<Req>, n: nat)
    requires n <= |running| && Busy(o, running + waiting)
    ensures TotalWork(o, running[..n] + waiting) <= TotalWork(o, running + waiting) - (|running| - n)
  {
    hide WorkOf;
    var kept, gone := running[..n], running[n..];
    assert running == kept + gone;
    WorkConcat(o, running, waiting);
    WorkConcat(o, kept, gone);
    WorkConcat(o, kept, waiting);
    assert forall i :: 0 <= i < |gone| ==> gone[i] == (running + waiting)[n + i];
    BusyAddsUp(o, gone);
  }

  /** Evicting the suffix a decode plan drops spends all of its work. */
  lemma EvictionSpends(o: Options, a: Sched, plan: Planned)
    requires a.prefill == [] && plan == PlanDecode(o, a, 0, []) && Busy(o, a.All())
    ensures TotalWork(o, plan.s.All()) <= TotalWork(o, a.All()) - |plan.aborted|
  {
    hide WorkOf, PlanDecode, Busy, TotalWork;
    PlanDecodeShape(o, a, 0, []);
    assert plan.aborted[0..] == plan.aborted;
    var n := |plan.s.running|;
    assert a.All() == a.running + a.waiting;
    DroppedWork(o, a.running, a.waiting, n);
    SameProgressSameWork(o, a.running[..n] + a.waiting, plan.s.All());
  }

  lemma PlannedRowsBusy(o: Options, plan: Planned)
    requires PlanInv(o, plan) && plan.work.DecodeBatch? && o.Valid()
    ensures forall i :: 0 <= i < |plan.s.running| ==> plan.s.running[i].outputs != [] && WorkOf(o, plan.s.running[i]) >= 1
  {
    PlanIsExecutable(o, plan);
    hide InvAt;
    forall i | 0 <= i < |plan.s.running|
      ensures plan.s.running[i].outputs != [] && WorkOf(o, plan.s.running[i]) >= 1
    {
      assert RunningOk(o, plan.s.running[i], true);
    }
  }

  lemma DecodeSpends(o: Options, a: Sched, plan: Planned, sampled: seq<TokenId>)
    requires Inv(o, a) && a.prefill == [] && plan == PlanDecode(o, a, 0, []) && PlanInv(o, plan) && !plan.Empty()
    requires plan.work.DecodeBatch? && |sampled| == |plan.s.running|
    ensures TotalWork(o, CompleteRows(o, plan.s, 0, sampled).0.All()) < TotalWork(o, a.All())
  {
    hide InvAt, PlanDecode, CompleteRows, Busy, TotalWork, WorkOf;
    InvBusy(o, a);
    EvictionSpends(o, a, plan);
    ValidOptions(o, a);
    PlannedRowsBusy(o, plan);
    CompleteRowsSpends(o, plan.s, 0, sampled);
  }

  lemma ValidOptions(o: Options, s: Sched)
    requires Inv(o, s)
    ensures o.Valid()
  {
  }

  lemma CoverSpendsNothing(o: Options, a: Sched, end: int)
    requires a.prefill != []
    ensures TotalWork(o, Cover(a, end).All()) == TotalWork(o, a.All())
  {
    CoverShape(a, end);
    hide Cover;
    SameProgressSameWork(o, a.All(), Cover(a, end).All());
  }

  lemma PrefillSpends(o: Options, a: Sched, plan: Planned, sampled: seq<TokenId>)
    requires plan.work.PrefillChunk? && a.prefill != [] && plan.s == Cover(a, plan.work.end) && PlanInv(o, plan)
    requires |sampled| == plan.Yield() && o.Valid()
    ensures TotalWork(o, CompletePrefill(o, plan.s, plan.work.end, sampled).0.All()) < TotalWork(o, a.All())
  {
    PlanIsExecutable(o, plan);
    hide InvAt, CompletePrefill, Cover, PrefillOk;
    CoverSpendsNothing(o, a, plan.work.end);
    CompletePrefillSpends(o, plan.s, sampled);
  }

  /** Every step that is not empty makes progress. */
  lemma StepSpends(o: Options, s: Sched, sampled: seq<TokenId>)
    requires Inv(o, s) && !PlanStep(o, s).Empty() && |sampled| == PlanStep(o, s).Yield()
    requires PlanInv(o, PlanStep(o, s))
    ensures TotalWork(o, CompleteStep(o, PlanStep(o, s), sampled).0.All()) < TotalWork(o, s.All())
  {
    ValidOptions(o, s);
    hide InvAt, CompletePrefill, CompleteRows, PlanDecode, Cover, AdmitAll;
    var a, plan := AdmitAll(o, s), PlanStep(o, s);
    AdmissionSpendsNothing(o, s);
    AdmitAllKeepsInv(o, s);
    if a.prefill != [] {
      PrefillSpends(o, a, plan, sampled);
    } else {
      PlanDecodeShape(o, a, 0, []);
      DecodeSpends(o, a, plan, sampled);
    }
  }

  lemma EngineStepSpends(m: Model, o: Options, st: State, st': State, results: seq<StepResult>)
    requires EngineInv(m, o, st) && EngineStep(m, o, st, st', results)
    ensures if st.s.Idle() then st' == st && results == []
            else 0 <= TotalWork(o, st'.s.All()) < TotalWork(o, st.s.All())
  {
    StepKeepsEngineInv(m, o, st, st', results);
    EmptyPlanIffIdle(o, st.s);
    var plan := PlanStep(o, st.s);
    if plan.Empty() {
      EmptyPlanChangesNothing(o, st.s);
    } else {
      hide InvAt, CacheInv, Accounted, VocabOk, Fcfs, DeviceStep, PlanStep, CompleteStep, Executable;
      PlanFacts(m, o, st);
      var sampled :| Committed(m, o, st, plan, sampled, st', results);
      DeviceYield(m, st.kv, plan, st'.kv, sampled);
      StepSpends(o, st.s, sampled);
      InvBusy(o, st'.s);
      BusyAddsUp(o, st'.s.All());
    }
  }

  /** With no further arrivals, any `TotalWork` steps drain the engine: no stall,
      whatever the batch size, chunking, pool size and policy. */
  lemma {:induction false} DrainsWithinBudget(m: Model, o: Options, states: seq<State>, results: seq<seq<StepResult>>)
    requires |states| == |results| + 1 && EngineInv(m, o, states[0])
    requires forall i :: 0 <= i < |results| ==> EngineStep(m, o, states[i], states[i + 1], results[i])
    requires |results| >= TotalWork(o, states[0].s.All())
    ensures states[|results|].s.Idle()
    decreases |results|
  {
    hide EngineInv, EngineStep, TotalWork;
    if results == [] {
      NoWorkIsIdle(m, o, states[0]);
    } else {
      EngineStepSpends(m, o, states[0], states[1], results[0]);
      StepKeepsEngineInv(m, o, states[0], states[1], results[0]);
      if states[0].s.Idle() {
        TotalOfNothing(o, states[0].s);
      }
      DrainsWithinBudget(m, o, states[1..], results[1..]);
    }
  }

  lemma TotalOfNothing(o: Options, s: Sched)
    requires s.Idle()
    ensures TotalWork(o, s.All()) == 0
  {
  }

  lemma NoWorkIsIdle(m: Model, o: Options, st: State)
    requires EngineInv(m, o, st) && TotalWork(o, st.s.All()) <= 0
    ensures st.s.Idle()
  {
    InvBusy(o, st.s);
    BusyAddsUp(o, st.s.All());
  }

  /** The budget of a closed set of arrivals, spelled out. */
  function Budget(o: Options, ps: seq<Params>): int
    requires o.Valid()
  {
    if ps == [] then 0
    else Budget(o, ps[..|ps| - 1]) + CeilDiv(|ps[|ps| - 1].prompt|, o.prefillChunk) + ps[|ps| - 1].maxNew - 1
  }

  lemma {:induction false} BudgetOfQueue(o: Options, waiting: seq<Req>, ps: seq<Params>)
    requires o.Valid() && WaitingsOk(o, waiting) && |waiting| == |ps|
    requires forall i :: 0 <= i < |ps| ==> waiting[i].p == ps[i]
    ensures TotalWork(o, waiting) == Budget(o, ps)
  {
    if ps != [] {
      var k := |ps| - 1;
      BudgetOfQueue(o, waiting[..k], ps[..k]);
      assert WaitingOk(o, waiting[k]);
      WaitingWork(o, waiting[k]);
    }
  }

  // ------------------------------------------------------ the bound is attained

  /** A lone request that ignores EOS, under worst-case reservation. */
  ghost predicate Alone(o: Options, s: Sched) {
    o.policy == ReserveFull && |s.All()| == 1 && s.All()[0].p.ignoreEos
  }

  /** Without EOS a row stops exactly when its work is used up. */
  lemma RowStopsWhenSpent(o: Options, r: Req, t: TokenId)
    requires o.Valid() && r.p.ignoreEos && |r.outputs| < r.p.maxNew
    ensures var r' := Produce(o, r, t);
            && r'.p == r.p && r'.outputs != []
            && (if r'.state == Running then WorkOf(o, r') == r.p.maxNew - |r.outputs| - 1 else r.p.maxNew - |r.outputs| == 1)
  {
  }

  lemma LoneSlice(o: Options, s: Sched, end: int, sampled: seq<TokenId>)
    requires o.Valid() && s.running == [] && |s.prefill| == 1 && s.waiting == []
    requires PrefillOk(o, s.prefill[0], end) && end == ChunkEnd(o, s.prefill[0]) && s.prefill[0].p.ignoreEos
    requires end == s.prefill[0].PromptLen() ==> |sampled| == 1
    ensures var s' := CompletePrefill(o, s, end, sampled).0;
            && |s'.All()| <= 1 && (s'.All() != [] ==> s'.All()[0].p == s.prefill[0].p)
            && TotalWork(o, s'.All()) == WorkOf(o, s.prefill[0]) - 1
  {
    hide WorkOf, TotalWork, Produce;
    var head := s.prefill[0];
    var r := head.(progress := end);
    PrefillWork(o, head, end);
    var s' := CompletePrefill(o, s, end, sampled).0;
    if end < head.PromptLen() {
      assert s'.All() == [r];
      WorkOne(o, r);
    } else {
      LoneProduct(o, r, sampled[0], s'.All());
    }
  }

  /** What is left of a lone request after one token. */
  lemma LoneProduct(o: Options, r: Req, t: TokenId, left: seq<Req>)
    requires o.Valid() && r.p.ignoreEos && |r.outputs| < r.p.maxNew
    requires left == if Produce(o, r, t).state == Running then [Produce(o, r, t)] else []
    ensures TotalWork(o, left) == r.p.maxNew - |r.outputs| - 1
    ensures left != [] ==> left[0].p == r.p
  {
    RowStopsWhenSpent(o, r, t);
    hide Produce;
    WorkOne(o, Produce(o, r, t));
  }

  lemma LoneRow(o: Options, a: Sched, plan: Planned, sampled: seq<TokenId>)
    requires Inv(o, a) && a.prefill == [] && |a.running| == 1 && a.waiting == [] && o.policy == ReserveFull
    requires plan == PlanDecode(o, a, 0, []) && |sampled| == |plan.s.running| && a.running[0].p.ignoreEos
    ensures plan.work.DecodeBatch? && plan.s.prefill == []
    ensures var s' := CompleteRows(o, plan.s, 0, sampled).0;
            && |s'.All()| <= 1 && (s'.All() != [] ==> s'.All()[0].p == a.running[0].p)
            && TotalWork(o, s'.All()) == WorkOf(o, a.running[0]) - 1
  {
    ValidOptions(o, a);
    assert RunningOk(o, a.running[0], false);
    hide InvAt, PlanDecode, WorkOf, TotalWork, Produce;
    ReservedDecodeNeverAborts(o, a, 0);
    PlanDecodeShape(o, a, 0, []);
    assert plan.aborted[0..] == [];
    var r := plan.s.running[0];
    assert RowGrew(a.running[0], r);
    var t := LoneAfter(o, plan.s, sampled);
    LoneProduct(o, r, sampled[0], t.All());
    LoneWork(o, a.running[0], r);
  }

  lemma LoneWork(o: Options, before: Req, after: Req)
    requires o.Valid() && RowGrew(before, after) && before.outputs != []
    ensures WorkOf(o, before) == after.p.maxNew - |after.outputs|
  {
  }

  lemma LoneAfter(o: Options, s: Sched, sampled: seq<TokenId>) returns (t: Sched)
    requires |s.running| == 1 == |sampled| && s.prefill == [] && s.waiting == []
    ensures t == CompleteRows(o, s, 0, sampled).0
    ensures t.All() == if Produce(o, s.running[0], sampled[0]).state == Running then [Produce(o, s.running[0], sampled[0])] else []
  {
    hide Produce;
    var r := Produce(o, s.running[0], sampled[0]);
    t := if r.state == Running then s.(running := s.running[0 := r])
         else Release(s.(running := s.running[..0] + s.running[0 + 1..]), r);
    var j' := if r.state == Running then 1 else 0;
    CompleteRowsUnfold(o, s, 0, sampled, t, j');
    CompleteNothing(o, t, j');
    assert sampled[1..] == [];
  }

  ghost predicate OneSpent(o: Options, before: Req, work: int, after: Sched) {
    && |after.All()| <= 1 && (after.All() != [] ==> after.All()[0].p == before.p)
    && TotalWork(o, after.All()) == work - 1
  }

  lemma AloneSlice(o: Options, a: Sched, plan: Planned, sampled: seq<TokenId>)
    requires o.Valid() && PlanInv(o, plan) && plan.work.PrefillChunk? && |sampled| == plan.Yield()
    requires a.waiting == [] && |a.prefill| == 1 && a.running == [] && a.prefill[0].p.ignoreEos
    requires plan.s == Cover(a, plan.work.end)
    ensures OneSpent(o, a.prefill[0], TotalWork(o, a.All()), CompletePrefill(o, plan.s, plan.work.end, sampled).0)
  {
    PlanIsExecutable(o, plan);
    hide InvAt, CompletePrefill, Cover, WorkOf, TotalWork, PrefillOk;
    CoverShape(a, plan.work.end);
    CoverSpendsNothing(o, a, plan.work.end);
    assert plan.s.All() == [plan.s.prefill[0]];
    WorkOne(o, plan.s.prefill[0]);
    LoneSlice(o, plan.s, plan.work.end, sampled);
  }

  lemma AloneRow(o: Options, a: Sched, plan: Planned, sampled: seq<TokenId>)
    requires Inv(o, a) && o.policy == ReserveFull && plan == PlanDecode(o, a, 0, []) && |sampled| == |plan.s.running|
    requires a.waiting == [] && a.prefill == [] && |a.running| == 1 && a.running[0].p.ignoreEos
    ensures OneSpent(o, a.running[0], TotalWork(o, a.All()), CompleteRows(o, plan.s, 0, sampled).0)
  {
    hide InvAt, CompleteRows, PlanDecode, WorkOf, TotalWork;
    assert a.All() == [a.running[0]];
    WorkOne(o, a.running[0]);
    LoneRow(o, a, plan, sampled);
  }

  /** Alone, every step spends exactly one unit. */
  lemma AloneSpendsOne(o: Options, s: Sched, sampled: seq<TokenId>)
    requires Inv(o, s) && Alone(o, s) && |sampled| == PlanStep(o, s).Yield() && PlanInv(o, PlanStep(o, s))
    ensures OneSpent(o, s.All()[0], TotalWork(o, s.All()), CompleteStep(o, PlanStep(o, s), sampled).0)
  {
    ValidOptions(o, s);
    LoneAdmitted(o, s);
    hide InvAt, CompletePrefill, CompleteRows, PlanDecode, Cover, AdmitAll, WorkOf, TotalWork, OneSpent, PlanInv, PlanStep,
      CompleteStep, Alone;
    var a, plan := AdmitAll(o, s), PlanStep(o, s);
    AdmissionSpendsNothing(o, s);
    AdmitAllKeepsInv(o, s);
    StepParts(o, s, sampled);
    if a.prefill != [] {
      AloneSlice(o, a, plan, sampled);
      SameOwner(o, a.prefill[0], s.All()[0], TotalWork(o, s.All()), CompletePrefill(o, plan.s, plan.work.end, sampled).0);
    } else {
      AloneRow(o, a, plan, sampled);
      SameOwner(o, a.running[0], s.All()[0], TotalWork(o, s.All()), CompleteRows(o, plan.s, 0, sampled).0);
    }
  }

  /** The two shapes of a step, spelled out. */
  lemma StepParts(o: Options, s: Sched, sampled: seq<TokenId>)
    requires |sampled| == PlanStep(o, s).Yield() && PlanInv(o, PlanStep(o, s))
    ensures var a, plan := AdmitAll(o, s), PlanStep(o, s);
            if a.prefill != [] then
              && plan.work.PrefillChunk? && plan.s == Cover(a, plan.work.end) && plan.s.prefill != []
              && plan.work.end <= plan.s.prefill[0].PromptLen()
              && (plan.work.end == plan.s.prefill[0].PromptLen() ==> |sampled| == 1)
              && CompleteStep(o, plan, sampled).0 == CompletePrefill(o, plan.s, plan.work.end, sampled).0
            else
              && plan.work.DecodeBatch? && plan == PlanDecode(o, a, 0, []) && |sampled| == |plan.s.running|
              && CompleteStep(o, plan, sampled).0 == CompleteRows(o, plan.s, 0, sampled).0
  {
    hide InvAt, CompletePrefill, CompleteRows, PlanDecode, Cover, AdmitAll;
    var a := AdmitAll(o, s);
    if a.prefill == [] {
      PlanDecodeShape(o, a, 0, []);
    }
  }

  lemma SameOwner(o: Options, a: Req, b: Req, work: int, after: Sched)
    requires a.p == b.p && OneSpent(o, a, work, after)
    ensures OneSpent(o, b, work, after)
  {
  }

  /** A lone request is admitted at once. */
  lemma LoneAdmitted(o: Options, s: Sched)
    requires Inv(o, s) && Alone(o, s)
    ensures var a := AdmitAll(o, s);
            && a.waiting == [] && |a.prefill| + |a.running| == 1
            && (a.prefill != [] ==> a.prefill[0].p == s.All()[0].p && a.running == [])
            && (a.running != [] ==> a.running[0].p == s.All()[0].p && a.prefill == [])
  {
    hide InvAt;
    var a := AdmitAll(o, s);
    AdmitAllShape(o, s);
    if s.waiting != [] {
      assert s.Live() == [];
      IdlePoolAdmits(o, s);
      AdmitAllShape(o, Admit(o, s));
    }
  }

  lemma AloneEngineStep(m: Model, o: Options, st: State, st': State, results: seq<StepResult>)
    requires EngineInv(m, o, st) && EngineStep(m, o, st, st', results) && Alone(o, st.s)
    ensures TotalWork(o, st'.s.All()) == TotalWork(o, st.s.All()) - 1
    ensures st'.s.All() != [] ==> Alone(o, st'.s)
  {
    hide InvAt, CacheInv, Accounted, VocabOk, Fcfs, DeviceStep, PlanStep, CompleteStep, Executable, TotalWork;
    EmptyPlanIffIdle(o, st.s);
    PlanFacts(m, o, st);
    var plan := PlanStep(o, st.s);
    var sampled :| Committed(m, o, st, plan, sampled, st', results);
    DeviceYield(m, st.kv, plan, st'.kv, sampled);
    AloneSpendsOne(o, st.s, sampled);
  }

  /** So for one request the budget is attained: any fewer steps leave it unfinished. */
  lemma {:induction false} BudgetIsAttained(m: Model, o: Options, states: seq<State>, results: seq<seq<StepResult>>)
    requires |states| == |results| + 1 && EngineInv(m, o, states[0]) && Alone(o, states[0].s)
    requires forall i :: 0 <= i < |results| ==> EngineStep(m, o, states[i], states[i + 1], results[i])
    requires |results| < TotalWork(o, states[0].s.All())
    ensures !states[|results|].s.Idle()
    decreases |results|
  {
    hide EngineInv, EngineStep, TotalWork;
    if results != [] {
      AloneEngineStep(m, o, states[0], states[1], results[0]);
      StepKeepsEngineInv(m, o, states[0], states[1], results[0]);
      if states[1].s.Idle() {
        TotalOfNothing(o, states[1].s);
      }
      BudgetIsAttained(m, o, states[1..], results[1..]);
    }
  }
}
