/** The executor's hard checks against the plans the scheduler can make: none of
    them can fire, in any reachable state. */
module ExecutorChecks {
  import opened Types
  import opened ForwardPass
  import opened SchedulerSpec
  import opened SchedulerInvariant
  import opened PlanStepInvariant
  import opened PlanTheorems
  import opened PagedCache
  import opened StepExactness
  import opened Accounting
  import opened StepAccounting
  import opened EngineMachine
  import opened RunTheorems
  import opened Execution

  /** Executor and scheduler built for the same sizes. */
  predicate Matched(lim: Limits, m: Model, o: Options) {
    && lim.Valid() && lim.vocab == m.vocab && lim.maxBatch == o.maxBatch && lim.prefillChunk == o.prefillChunk
    && lim.maxSeqLen == o.maxSeqLen && lim.numKvBlocks == o.totalBlocks
  }

  predicate PassesChecks(lim: Limits, plan: Planned) {
    match plan.work
    case PrefillChunk(begin, end) =>
      plan.s.prefill != [] && SliceCheck(lim, plan.s.prefill[0], begin, end).None?
    case DecodeBatch =>
      && |plan.s.running| <= lim.maxBatch
      && forall k :: 0 <= k < |plan.s.running| ==> DecodeCheck(lim, plan.s.running[k]).None?
  }

  lemma MoreTokensMoreBlocks(a: nat, b: nat)
    requires a <= b
    ensures BlocksForTokens(a) <= BlocksForTokens(b)
  {
  }

  lemma LiveBlocksReal(lim: Limits, o: Options, s: Sched, i: nat)
    requires Books(o, s) && i < |s.Live()| && lim.numKvBlocks == o.totalBlocks
    ensures BlocksReal(lim, s.Live()[i].table)
  {
    OwnTable(o, s, i);
  }

  lemma RowPasses(lim: Limits, m: Model, o: Options, r: Req)
    requires Matched(lim, m, o) && RunningOk(o, r, true) && BlocksReal(lim, r.table) && InVocab(m, r.outputs)
    ensures DecodeCheck(lim, r).None?
  {
    MoreTokensMoreBlocks(r.SeqLen(), o.maxSeqLen);
  }

  lemma SlicePasses(lim: Limits, m: Model, o: Options, r: Req, end: int)
    requires Matched(lim, m, o) && PrefillOk(o, r, end) && BlocksReal(lim, r.table) && InVocab(m, r.p.prompt)
    requires end == ChunkEnd(o, r) && r.progress < end
    ensures SliceCheck(lim, r, r.progress, end).None?
  {
    MoreTokensMoreBlocks(end, o.maxSeqLen);
  }

  lemma PlanVocab(m: Model, o: Options, s: Sched, i: nat)
    requires VocabOk(m, s.All()) && i < |PlanStep(o, s).s.Live()|
    ensures var r := PlanStep(o, s).s.Live()[i]; InVocab(m, r.p.prompt) && InVocab(m, r.outputs)
  {
    hide InVocab, AdmitAll, Cover, PlanDecode;
    var a, plan := AdmitAll(o, s), PlanStep(o, s);
    AdmitAllStory(o, s);
    StoryVocab(m, s.All(), a.All());
    if a.prefill != [] {
      CoverShape(a, ChunkEnd(o, a.prefill[0]));
    } else {
      PlanDecodeShape(o, a, 0, []);
    }
    assert RowGrew(a.Live()[i], plan.s.Live()[i]);
    assert a.All()[i] == a.Live()[i];
  }

  /** A plan of any reachable state passes every check of the executor. */
  lemma PlansPassEveryCheck(lim: Limits, m: Model, o: Options, s: Sched)
    requires Matched(lim, m, o) && Inv(o, s) && VocabOk(m, s.All())
    ensures PassesChecks(lim, PlanStep(o, s))
  {
    hide VocabOk, PlanStep, DecodeCheck, SliceCheck, BlocksReal, InVocab;
    var plan := PlanStep(o, s);
    PlanStepKeepsInv(o, s);
    PlanIsExecutable(o, plan);
    assert Books(o, plan.s);
    hide InvAt;
    match plan.work
    case PrefillChunk(begin, end) =>
      var k := |plan.s.running|;
      LiveBlocksReal(lim, o, plan.s, k);
      PlanVocab(m, o, s, k);
      assert plan.s.Live()[k] == plan.s.prefill[0];
      SlicePasses(lim, m, o, plan.s.prefill[0], end);
    case DecodeBatch =>
      forall k | 0 <= k < |plan.s.running|
        ensures DecodeCheck(lim, plan.s.running[k]).None?
      {
        LiveBlocksReal(lim, o, plan.s, k);
        PlanVocab(m, o, s, k);
        assert plan.s.Live()[k] == plan.s.running[k] && RunningOk(o, plan.s.running[k], true);
        RowPasses(lim, m, o, plan.s.running[k]);
      }
  }

  /** So no check fires in any state of any run. */
  lemma NoCheckEverFires(lim: Limits, m: Model, o: Options, states: seq<State>, events: seq<Event>, i: nat)
    requires Matched(lim, m, o) && IsRun(m, o, states, events) && i < |states|
    ensures PassesChecks(lim, PlanStep(o, states[i].s))
  {
    hide Accounted, CacheInv, PlanStep, PassesChecks, InvAt, VocabOk;
    Reachable(m, o, states, events, i);
    PlansPassEveryCheck(lim, m, o, states[i].s);
  }
}
