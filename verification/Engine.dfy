/** The engine object: one step is plan, execute, complete. */
module Serving {
  import opened Types
  import opened ForwardPass
  import opened SchedulerSpec
  import opened SchedulerInvariant
  import opened PlanTheorems
  import opened AdmissionTheorems
  import opened PagedCache
  import opened StepExactness
  import opened Accounting
  import opened EngineMachine
  import opened Departures
  import opened ExecutorChecks
  import opened BlockAllocation
  import opened Requests
  import opened Scheduling
  import opened Execution

  // Queue depth at which the engine stops taking requests.
  const MAX_WAITING_REQUESTS := 1024

  datatype Executed = Executed(sampled: seq<TokenId>, prefillRows: nat, decodeRows: nat, bucket: int, replayed: bool)

  /** The engine's counters. */
  datatype Tally = Tally(steps: nat, aborts: nat, prefillTokens: int, decodeTokens: nat, graphReplays: nat, eagerDecodes: nat)

  /** What one executed step adds to them. */
  function Counted(t: Tally, spec: Planned, replays: bool): Tally {
    Tally(t.steps + 1, t.aborts + |spec.aborted|, t.prefillTokens + SliceRowsOf(spec), t.decodeTokens + |spec.Rows()|,
          t.graphReplays + if spec.Rows() != [] && replays then 1 else 0,
          t.eagerDecodes + if spec.Rows() != [] && !replays then 1 else 0)
  }

  /** The counters against what the step reported: abort notices come first and are
      counted; the rest is one result per decoded token, or at most one of a prompt
      slice; a step that decodes replays or runs eagerly, once. */
  ghost predicate Tallied(t: Tally, t': Tally, results: seq<StepResult>) {
    && t'.steps == t.steps + 1 && t.aborts <= t'.aborts <= t.aborts + |results|
    && (forall k :: 0 <= k < |results| ==> (results[k].reason == Aborted <==> k < t'.aborts - t.aborts))
    && t.prefillTokens <= t'.prefillTokens && t.decodeTokens <= t'.decodeTokens
    && (if t.prefillTokens < t'.prefillTokens
        then t'.decodeTokens == t.decodeTokens && t'.aborts == t.aborts && |results| <= 1
        else |results| == (t'.aborts - t.aborts) + (t'.decodeTokens - t.decodeTokens))
    && t.graphReplays <= t'.graphReplays && t.eagerDecodes <= t'.eagerDecodes
    && (t'.graphReplays - t.graphReplays) + (t'.eagerDecodes - t.eagerDecodes)
         == (if t.decodeTokens < t'.decodeTokens then 1 else 0)
  }

  lemma {:induction false} RowsNeverAbort(o: Options, s: Sched, j: nat, sampled: seq<TokenId>)
    requires j + |sampled| == |s.running|
    requires forall i :: j <= i < |s.running| ==> s.running[i].reason == FinishReason.Unfinished
    ensures var out := CompleteRows(o, s, j, sampled).1;
            |out| == |sampled| && forall k :: 0 <= k < |out| ==> out[k].reason != Aborted
    decreases |sampled|
  {
    if sampled != [] {
      var r := Produce(o, s.running[j], sampled[0]);
      if r.state == Running {
        RowsNeverAbort(o, s.(running := s.running[j := r]), j + 1, sampled[1..]);
      } else {
        RowsNeverAbort(o, Release(s.(running := s.running[..j] + s.running[j + 1..]), r), j, sampled[1..]);
      }
    }
  }

  /** Notices first, then produced tokens, and nothing else. */
  ghost predicate Reported(aborted: nat, produced: nat, results: seq<StepResult>) {
    |results| == aborted + produced && forall k :: 0 <= k < |results| ==> (results[k].reason == Aborted <==> k < aborted)
  }

  lemma BatchReports(o: Options, spec: Planned, sampled: seq<TokenId>)
    requires spec.work.DecodeBatch? && |sampled| == |spec.s.running|
    requires forall i :: 0 <= i < |spec.s.running| ==> spec.s.running[i].reason == FinishReason.Unfinished
    ensures Reported(|spec.aborted|, |sampled|, CompleteStep(o, spec, sampled).1)
  {
    hide CompleteRows;
    RowsNeverAbort(o, spec.s, 0, sampled);
  }

  lemma SliceReports(o: Options, spec: Planned, sampled: seq<TokenId>)
    requires spec.work.PrefillChunk? && spec.aborted == [] && spec.s.prefill != [] && |sampled| == spec.Yield()
    requires spec.work.end <= spec.s.prefill[0].PromptLen() && spec.s.prefill[0].reason == FinishReason.Unfinished
    ensures Reported(0, |sampled|, CompleteStep(o, spec, sampled).1) && |sampled| <= 1
  {
  }

  lemma CountedMatches(o: Options, spec: Planned, sampled: seq<TokenId>, t: Tally, replays: bool, results: seq<StepResult>)
    requires PlanInv(o, spec) && StepExactness.Executable(spec) && |sampled| == spec.Yield()
    requires results == CompleteStep(o, spec, sampled).1
    ensures Tallied(t, Counted(t, spec, replays), results)
  {
    hide InvAt, CompleteStep;
    PlanIsExecutable(o, spec);
    if spec.work.DecodeBatch? {
      RowsUnfinished(o, spec.s.running);
      BatchReports(o, spec, sampled);
    } else {
      SliceReports(o, spec, sampled);
    }
  }

  lemma RowsUnfinished(o: Options, rs: seq<Req>)
    requires RunningsOk(o, rs, 0, |rs|)
    ensures forall i :: 0 <= i < |rs| ==> rs[i].reason == FinishReason.Unfinished
  {
    hide Holding;
    forall i | 0 <= i < |rs|
      ensures rs[i].reason == FinishReason.Unfinished
    {
      assert RunningOk(o, rs[i], true);
    }
  }

  /** Prompt tokens a planned step caches. */
  function SliceRowsOf(spec: Planned): int {
    if spec.work.PrefillChunk? then spec.work.end - spec.work.begin else 0
  }

  /** The prompt tokens counted are the next chunk of the oldest prompt not cached yet,
      or nothing while no prompt can be cached. */
  lemma CountedPromptTokens(o: Options, s: Sched, t: Tally, replays: bool)
    ensures var queue, counted := s.prefill + s.waiting, Counted(t, PlanStep(o, s), replays).prefillTokens - t.prefillTokens;
            counted == (if s.prefill == [] && (s.waiting == [] || |s.running| >= o.maxBatch || Misfit(o, s, s.waiting[0].p)) then 0
                        else if |queue[0].p.prompt| - queue[0].progress <= o.prefillChunk then |queue[0].p.prompt| - queue[0].progress
                        else o.prefillChunk)
  {
    hide PlanStep, Misfit;
    DecodesOnlyWhenNobodyCanPrefill(o, s);
    if PlanStep(o, s).work.PrefillChunk? {
      SlicesTheOldestPrompt(o, s);
    }
  }

  /** The live map holds exactly the queued requests, under their ids. */
  ghost predicate LiveMap(requests: map<RequestId, Request>, queued: seq<Request>) {
    && (forall r :: r in queued ==> r.p.id in requests && requests[r.p.id] == r)
    && forall id :: id in requests ==> requests[id] in queued && requests[id].p.id == id
  }

  lemma LiveMapAdds(requests: map<RequestId, Request>, queued: seq<Request>, r: Request)
    requires LiveMap(requests, queued) && r.p.id !in requests
    ensures LiveMap(requests[r.p.id := r], queued + [r])
  {
  }

  class Engine {
    const scheduler: Scheduler
    const executor: ModelExecutor
    var nextRequestId: RequestId
    var requests: map<RequestId, Request>
    // Counters.
    var steps: nat
    var aborts: nat
    var prefillTokens: nat
    var decodeTokens: nat
    var graphReplays: nat
    var eagerDecodes: nat
    // History, for specification only.
    ghost var accepted: map<RequestId, Params>
    ghost var log: seq<StepResult>

    ghost function Counters(): Tally
      reads this
    {
      Tally(steps, aborts, prefillTokens, decodeTokens, graphReplays, eagerDecodes)
    }

    ghost function State(): State
      reads this, scheduler, scheduler.allocator, scheduler.running, scheduler.prefillQueue, scheduler.waiting, executor.pool
    {
      EngineMachine.State(scheduler.View(), executor.Contents(), nextRequestId, accepted, log)
    }

    ghost predicate Ready()
      reads this, scheduler, scheduler.allocator, scheduler.allocator.outstanding
    {
      scheduler.Valid() && executor.Valid() && Matched(executor.lim, executor.m, scheduler.o)
    }

    ghost predicate Valid()
      reads this, scheduler, scheduler.allocator, scheduler.allocator.outstanding,
        scheduler.running, scheduler.prefillQueue, scheduler.waiting, executor.pool
    {
      Ready() && EngineInv(executor.m, scheduler.o, State()) && LiveMap(requests, scheduler.Queued())
    }

    constructor (model: Model, o: Options, captured: bool, padding: int)
      requires model.Valid() && o.Valid()
      ensures Valid() && executor.m == model && scheduler.o == o
      ensures State() == InitialState(o, executor.Contents()) && nextRequestId == 1
      ensures executor.hasGraphs == captured && executor.padEagerToBucket == padding
      ensures steps == aborts == prefillTokens == decodeTokens == graphReplays == eagerDecodes == 0
      ensures fresh(scheduler) && fresh(scheduler.allocator) && fresh(scheduler.allocator.outstanding)
      ensures fresh(executor) && fresh(executor.pool) && fresh(executor.inputIds) && fresh(executor.positions)
      ensures fresh(executor.seqLens) && fresh(executor.blockTables)
    {
      var a := new BlockAllocator(o.totalBlocks);
      scheduler := new Scheduler(a, o);
      executor := new ModelExecutor(model, Limits(o.maxBatch, o.prefillChunk, o.maxSeqLen, o.totalBlocks, model.vocab), captured, padding);
      nextRequestId := 1;
      requests := map[];
      steps, aborts, prefillTokens, decodeTokens, graphReplays, eagerDecodes := 0, 0, 0, 0, 0, 0;
      accepted := map[];
      log := [];
      new;
      InitialEngineInv(model, o, executor.Contents());
    }

    /** Backpressure is queue depth and nothing else. */
    predicate HasCapacity(): (ok: bool)
      reads this, scheduler
      ensures ok <==> |scheduler.waiting| <= 1023
    {
      |scheduler.waiting| < MAX_WAITING_REQUESTS
    }

    lemma LiveIdsAreOld()
      requires Valid()
      ensures nextRequestId !in requests
    {
      hide EngineInv, Values, Distinct, Matched;
      var s := scheduler.View();
      NewIdIsNew(executor.m, scheduler.o, State());
      forall r | r in scheduler.Queued()
        ensures r.p.id < nextRequestId
      {
        var i :| 0 <= i < |scheduler.Queued()| && scheduler.Queued()[i] == r;
        assert s.All()[i].p == r.p;
      }
    }

    method CheckTokens(tokens: seq<TokenId>) returns (ok: bool)
      ensures ok <==> InVocab(executor.m, tokens)
    {
      for i := 0 to |tokens|
        invariant InVocab(executor.m, tokens[..i])
      {
        if tokens[i] < 0 || tokens[i] >= executor.m.vocab {
          return false;
        }
      }
      assert tokens[..|tokens|] == tokens;
      return true;
    }

    /** Queue a request that passed the token checks, unless the scheduler objects. */
    method Register(request: Request) returns (rejected: Option<Rejection>)
      requires Valid() && request !in scheduler.Queued() && request.Value() == NewReq(request.p)
      requires request.p.id == nextRequestId && InVocab(executor.m, request.p.prompt) && InVocab(executor.m, request.p.forced)
      modifies this, scheduler
      ensures Valid() && rejected == Validate(scheduler.o, request.p)
      ensures State() == if rejected.None? then Arrive(old(State()), request.p) else old(State())
      ensures scheduler.Queued() == old(scheduler.Queued()) + if rejected.None? then [request] else []
    {
      hide Validate, Values, InVocab, EngineInv, Distinct, ModelExecutor.Contents, Matched, ModelExecutor.Valid, LiveMap;
      LiveIdsAreOld();
      rejected := scheduler.Enqueue(request);
      if rejected.None? {
        nextRequestId, requests, accepted :=
          nextRequestId + 1, requests[request.p.id := request], accepted[request.p.id := request.p];
        ArrivalKeepsEngineInv(executor.m, scheduler.o, old(State()), request.p);
        assert State() == Arrive(old(State()), request.p);
        LiveMapAdds(old(requests), old(scheduler.Queued()), request);
      } else {
        assert scheduler.Queued() == old(scheduler.Queued());
      }
    }

    /** A rejected request leaves no trace: its id is not consumed. */
    method AddRequest(prompt: seq<TokenId>, maxNew: int, ignoreEos: bool, forced: seq<TokenId>)
      returns (r: Result<RequestId, AddError>)
      requires Valid()
      modifies this, scheduler
      ensures Valid()
      ensures var p := Params(old(nextRequestId), prompt, maxNew, ignoreEos, forced);
              match CheckRequest(executor.m, scheduler.o, p)
              case None => r == Ok(p.id) && State() == Arrive(old(State()), p)
              case Some(why) => r == Err(why) && State() == old(State())
      ensures forall q :: q in scheduler.Queued() ==> q in old(scheduler.Queued()) || fresh(q)
    {
      hide Validate, Values, InVocab, EngineInv, Distinct, ModelExecutor.Contents, Arrive;
      var promptOk := CheckTokens(prompt);
      if !promptOk {
        return Err(PromptTokenOutsideVocab);
      }
      var forcedOk := CheckTokens(forced);
      if !forcedOk {
        return Err(ForcedTokenOutsideVocab);
      }
      var request := new Request(Params(nextRequestId, prompt, maxNew, ignoreEos, forced));
      var rejected := Register(request);
      r := if rejected.Some? then Err(Rejected(rejected.value)) else Ok(request.p.id);
    }

    // -------------------------------------------------------------- one step

    /** The plan the scheduler made is executable as it stands. */
    ghost predicate Runnable(plan: StepPlan, spec: Planned)
      reads this, scheduler, scheduler.allocator, scheduler.allocator.outstanding,
        scheduler.running, scheduler.prefillQueue, scheduler.waiting, plan.aborted
    {
      && Ready() && scheduler.Matches(plan, spec)
      && PlanInv(scheduler.o, spec) && StepExactness.Executable(spec) && Books(scheduler.o, spec.s)
      && PassesChecks(executor.lim, spec)
    }

    method ExecuteSlice(request: Request, begin: int, end: int, ghost spec: Planned) returns (e: Executed)
      requires Ready() && spec.work == PrefillChunk(begin, end) && StepExactness.Executable(spec)
      requires Books(scheduler.o, spec.s) && PassesChecks(executor.lim, spec) && request.Value() == spec.s.prefill[0]
      modifies executor.inputIds, executor.positions, executor.blockTables, executor.pool
      ensures DeviceStep(executor.m, old(executor.Contents()), spec, executor.Contents(), e.sampled)
      ensures e.prefillRows == end - begin && e.decodeRows == 0
    {
      hide SliceCheck, PagedCache.Executed, SliceToken, Books, ModelExecutor.Contents, ModelExecutor.Valid;
      assert Injective(request.blocks) by {
        OwnTable(scheduler.o, spec.s, |spec.s.running|);
        assert spec.s.Live()[|spec.s.running|] == spec.s.prefill[0];
      }
      var out := executor.PrefillChunk(request, begin, end);
      assert Slices(spec) == [PromptSlice(request.Value(), begin, end)];
      var sampled := if out.value.finalChunk then [out.value.firstToken] else [];
      e := Executed(sampled, out.value.rows, 0, -1, false);
    }

    /** Rows of a planned batch share no block. */
    lemma BatchTables(decode: seq<Request>, spec: Planned)
      requires Books(scheduler.o, spec.s) && |decode| == |spec.s.running|
      requires forall k :: 0 <= k < |decode| ==> decode[k].Value() == spec.s.running[k]
      ensures executor.OwnTables(decode)
    {
      hide Books;
      var live := spec.s.Live();
      assert forall k :: 0 <= k < |decode| ==> live[k] == spec.s.running[k];
      forall k | 0 <= k < |decode|
        ensures Injective(decode[k].blocks)
      {
        OwnTable(scheduler.o, spec.s, k);
        assert decode[k].Value().table == decode[k].blocks;
      }
      forall j, k | 0 <= j < |decode| && 0 <= k < |decode| && j != k
        ensures Disjoint(decode[j].blocks, decode[k].blocks)
      {
        OtherTable(scheduler.o, spec.s, if j < k then j else k, if j < k then k else j);
        assert decode[j].Value().table == decode[j].blocks && decode[k].Value().table == decode[k].blocks;
      }
    }

    /** Replay the smallest covering bucket when graphs exist, else run eagerly. */
    method Dispatch(decode: seq<Request>) returns (out: DecodeOutput, replayed: bool)
      requires executor.Valid() && executor.OwnTables(decode) && executor.BatchOk(decode)
      requires decode != [] && |decode| <= executor.lim.maxBatch
      modifies executor.inputIds, executor.positions, executor.seqLens, executor.blockTables, executor.pool
      ensures executor.BatchRan(decode, old(executor.Contents()), executor.Contents(), out.tokens)
      ensures replayed <==> executor.hasGraphs && executor.Covered(decode)
      ensures replayed ==> out.bucket in executor.buckets && out.bucket >= |decode|
    {
      hide DecodeCheck, ModelExecutor.Contents, ModelExecutor.OwnTables, ModelExecutor.BatchRan, ModelExecutor.BatchOk;
      var bucket := SelectBucket(|decode|, executor.buckets);
      replayed := bucket >= 0 && executor.hasGraphs;
      var r;
      if replayed {
        r := executor.DecodeGraph(decode);
      } else {
        r := executor.DecodeEager(decode);
      }
      out := r.value;
    }

    method ExecuteBatch(decode: seq<Request>, ghost spec: Planned) returns (e: Executed)
      requires Ready() && spec.work == DecodeBatch && StepExactness.Executable(spec)
      requires Books(scheduler.o, spec.s) && PassesChecks(executor.lim, spec)
      requires |decode| == |spec.s.running| && forall k :: 0 <= k < |decode| ==> decode[k].Value() == spec.s.running[k]
      modifies executor.inputIds, executor.positions, executor.seqLens, executor.blockTables, executor.pool
      ensures DeviceStep(executor.m, old(executor.Contents()), spec, executor.Contents(), e.sampled)
      ensures e.prefillRows == 0 && e.decodeRows == |decode|
      ensures decode != [] ==> (e.replayed <==> executor.hasGraphs && executor.Covered(decode))
    {
      hide DecodeCheck, PagedCache.Executed, SliceToken, Books, ModelExecutor.Contents, ModelExecutor.OwnTables, LastSlice,
        ModelExecutor.BatchSlices;
      BatchTables(decode, spec);
      SlicesOfBatch(spec, executor.BatchSlices(decode));
      if decode == [] {
        NothingRan(executor.m, executor.Contents());
        return Executed([], 0, 0, -1, false);
      }
      var out, replayed := Dispatch(decode);
      e := Executed(out.tokens, 0, |decode|, out.bucket, replayed);
    }

    /** A decode batch some captured bucket covers is replayed, any other runs eagerly. */
    predicate Replays(spec: Planned) {
      executor.hasGraphs && exists b :: b in executor.buckets && b >= |spec.Rows()|
    }

    method Execute(plan: StepPlan, ghost spec: Planned) returns (e: Executed)
      requires Runnable(plan, spec)
      modifies executor.inputIds, executor.positions, executor.seqLens, executor.blockTables, executor.pool
      ensures DeviceStep(executor.m, old(executor.Contents()), spec, executor.Contents(), e.sampled)
      ensures e.prefillRows == SliceRowsOf(spec) && e.decodeRows == |spec.Rows()|
      ensures spec.Rows() != [] ==> (e.replayed <==> Replays(spec))
    {
      hide PagedCache.Executed, Books, InvAt, ModelExecutor.Contents, ModelExecutor.Valid, PassesChecks, DeviceStep,
        StepExactness.Executable, Values, Gone;
      if plan.IsPrefill() {
        e := ExecuteSlice(plan.prefill, plan.begin, plan.end, spec);
      } else {
        e := ExecuteBatch(plan.decode, spec);
      }
    }

    /** Drop the finished requests from the live map. */
    method DropFinished(results: seq<StepResult>)
      modifies `requests
      ensures Dropped(old(requests), results, requests)
    {
      for k := 0 to |results|
        invariant forall id :: id in requests <==> id in old(requests) && !FinishedIn(results[..k], id)
        invariant forall id :: id in requests ==> requests[id] == old(requests[id])
      {
        FinishedSnoc(results[..k], results[k]);
        assert results[..k + 1] == results[..k] + [results[k]];
        if results[k].finished {
          requests := requests - {results[k].id};
        }
      }
      assert results[..|results|] == results;
    }

    lemma QueueCast()
      requires scheduler.Valid()
      ensures Cast(scheduler.View().All(), scheduler.Queued())
    {
      hide Values, Distinct;
    }

    /** Plan, with everything execution relies on. */
    method PlanNext() returns (plan: StepPlan)
      requires Valid()
      modifies scheduler, scheduler.allocator, scheduler.allocator.outstanding, scheduler.Owned()
      ensures Runnable(plan, SchedulerSpec.PlanStep(scheduler.o, old(scheduler.View())))
      ensures plan.Empty() <==> SchedulerSpec.PlanStep(scheduler.o, old(scheduler.View())).Empty()
      ensures plan.Empty() <==> old(scheduler.View()).Idle()
      ensures plan.Empty() ==> scheduler.View() == old(scheduler.View())
      ensures plan.Empty() ==> SchedulerSpec.PlanStep(scheduler.o, old(scheduler.View())).s == old(scheduler.View())
      ensures forall r :: r in scheduler.Queued() ==> r in old(scheduler.Queued())
    {
      hide CacheInv, Accounted, VocabOk, Fcfs, InvAt, Books, Values, Distinct, SchedulerSpec.PlanStep, PassesChecks,
        StepExactness.Executable, ModelExecutor.Valid, LiveMap, ModelExecutor.Contents, PlanInv, Scheduler.Matches;
      ghost var st := State();
      PlanFacts(executor.m, scheduler.o, st);
      PlansPassEveryCheck(executor.lim, executor.m, scheduler.o, st.s);
      EmptyPlanIffIdle(scheduler.o, st.s);
      plan := scheduler.PlanStep();
      if plan.Empty() {
        EmptyPlanChangesNothing(scheduler.o, st.s);
        MatchedView(plan, SchedulerSpec.PlanStep(scheduler.o, st.s));
      }
    }

    lemma MatchedView(plan: StepPlan, spec: Planned)
      requires scheduler.Matches(plan, spec)
      ensures scheduler.View() == spec.s
    {
    }

    /** Execute and commit a planned step: state and results before bookkeeping. */
    method RunAndCommit(plan: StepPlan, ghost spec: Planned) returns (e: Executed, results: seq<StepResult>)
      requires Runnable(plan, spec)
      modifies scheduler, scheduler.allocator, scheduler.allocator.outstanding, scheduler.Owned(),
        executor.inputIds, executor.positions, executor.seqLens, executor.blockTables, executor.pool
      ensures Ready() && DeviceStep(executor.m, old(executor.Contents()), spec, executor.Contents(), e.sampled)
      ensures |e.sampled| == spec.Yield() && (scheduler.View(), results) == CompleteStep(scheduler.o, spec, e.sampled)
      ensures forall r :: r in scheduler.Queued() ==> r in old(scheduler.Queued())
      ensures e.prefillRows == SliceRowsOf(spec) && e.decodeRows == |spec.Rows()|
      ensures spec.Rows() != [] ==> (e.replayed <==> Replays(spec))
      ensures |plan.aborted| == |spec.aborted|
      ensures Tallied(Counters(), Counted(Counters(), spec, Replays(spec)), results)
      ensures Replayed(Counters(), Counted(Counters(), spec, Replays(spec)))
    {
      hide PagedCache.Executed, Books, InvAt, ModelExecutor.Contents, ModelExecutor.Valid, PassesChecks,
        Values, Gone, Slices, SliceToken, CompleteStep, Counted, Tallied, Replayed, Replays;
      e := Execute(plan, spec);
      results := scheduler.CompleteStep(plan, e.sampled, spec);
      CountedMatches(scheduler.o, spec, e.sampled, Counters(), Replays(spec), results);
      CountedReplays(spec, Counters());
    }

    /** A step counts as a replay exactly when graphs exist and some captured bucket
        covers the rows it decoded. */
    ghost predicate Replayed(t: Tally, t': Tally) {
      var rows := t'.decodeTokens - t.decodeTokens;
      t'.graphReplays > t.graphReplays <==> rows > 0 && executor.hasGraphs && exists b :: b in executor.buckets && b >= rows
    }

    lemma CountedReplays(spec: Planned, t: Tally)
      ensures Replayed(t, Counted(t, spec, Replays(spec)))
    {
    }

    method RunPlan(plan: StepPlan, ghost spec: Planned, ghost st: State, ghost queued: seq<Request>)
      returns (results: seq<StepResult>)
      requires Runnable(plan, spec) && spec == SchedulerSpec.PlanStep(scheduler.o, st.s) && !spec.Empty()
      requires EngineInv(executor.m, scheduler.o, st) && Cast(st.s.All(), queued) && LiveMap(requests, queued)
      requires forall r :: r in scheduler.Queued() ==> r in queued
      requires st == State().(s := st.s)
      modifies this, scheduler, scheduler.allocator, scheduler.allocator.outstanding, scheduler.Owned(),
        executor.inputIds, executor.positions, executor.seqLens, executor.blockTables, executor.pool
      ensures Valid() && EngineStep(executor.m, scheduler.o, st, State(), results)
      ensures forall r :: r in scheduler.Queued() ==> r in old(scheduler.Queued())
      ensures Counters() == Counted(old(Counters()), spec, Replays(spec))
      ensures Tallied(old(Counters()), Counters(), results)
      ensures Replayed(old(Counters()), Counters())
    {
      hide EngineInv, ModelExecutor.Contents, ModelExecutor.Valid, PassesChecks, Books, PlanInv, Values, Distinct,
        DeviceStep, CompleteStep, SchedulerSpec.PlanStep, StepExactness.Executable, LiveMap, Cast, Scheduler.Matches, Matched,
        Counted, Replays, Tallied, Replayed;
      var e;
      e, results := RunAndCommit(plan, spec);
      ghost var before := requests;
      Record(plan, e, results, spec);
      assert Committed(executor.m, scheduler.o, st, spec, e.sampled, State(), results);
      StepKeepsEngineInv(executor.m, scheduler.o, st, State(), results);
      QueueCast();
      LiveMapDrops(executor.m, scheduler.o, st, State(), results, before, requests, queued, scheduler.Queued());
    }

    /** Bookkeeping after a whole plan-execute-complete cycle. */
    method Record(plan: StepPlan, e: Executed, results: seq<StepResult>, ghost spec: Planned)
      requires e.prefillRows == SliceRowsOf(spec) && e.decodeRows == |spec.Rows()| && |plan.aborted| == |spec.aborted|
      requires spec.Rows() != [] ==> (e.replayed <==> Replays(spec))
      modifies this
      ensures nextRequestId == old(nextRequestId) && accepted == old(accepted) && log == old(log) + results
      ensures Dropped(old(requests), results, requests)
      ensures Counters() == Counted(old(Counters()), spec, Replays(spec))
    {
      Count(plan, e);
      DropFinished(results);
      log := log + results;
    }

    method Count(plan: StepPlan, e: Executed)
      modifies `steps, `aborts, `prefillTokens, `decodeTokens, `graphReplays, `eagerDecodes
      ensures steps == old(steps) + 1 && aborts == old(aborts) + |plan.aborted|
      ensures prefillTokens == old(prefillTokens) + e.prefillRows && decodeTokens == old(decodeTokens) + e.decodeRows
      ensures graphReplays == old(graphReplays) + if e.decodeRows > 0 && e.replayed then 1 else 0
      ensures eagerDecodes == old(eagerDecodes) + if e.decodeRows > 0 && !e.replayed then 1 else 0
    {
      steps := steps + 1;
      aborts := aborts + |plan.aborted|;
      prefillTokens := prefillTokens + e.prefillRows;
      if e.decodeRows > 0 {
        decodeTokens := decodeTokens + e.decodeRows;
        if e.replayed {
          graphReplays := graphReplays + 1;
        } else {
          eagerDecodes := eagerDecodes + 1;
        }
      }
    }

    /** One iteration: admit, plan, execute, commit, report. */
    method Step() returns (results: seq<StepResult>)
      requires Valid()
      modifies this, scheduler, scheduler.allocator, scheduler.allocator.outstanding,
        scheduler.Owned(),
        executor.inputIds, executor.positions, executor.seqLens, executor.blockTables, executor.pool
      ensures Valid() && EngineStep(executor.m, scheduler.o, old(State()), State(), results)
      ensures forall q :: q in scheduler.Queued() ==> q in old(scheduler.Queued())
      ensures Counters() == if old(State()).s.Idle() then old(Counters()) else
                Counted(old(Counters()), SchedulerSpec.PlanStep(scheduler.o, old(State()).s),
                        Replays(SchedulerSpec.PlanStep(scheduler.o, old(State()).s)))
      ensures !old(State()).s.Idle() ==> Tallied(old(Counters()), Counters(), results)
      ensures old(State()).s.Idle() ==> results == []
      ensures var rows := decodeTokens - old(decodeTokens);
              graphReplays > old(graphReplays) <==> rows > 0 && executor.hasGraphs && exists b :: b in executor.buckets && b >= rows
    {
      hide EngineInv, ModelExecutor.Contents, ModelExecutor.Valid, PassesChecks, Books, Values, Distinct, PlanInv,
        DeviceStep, SchedulerSpec.PlanStep, StepExactness.Executable, LiveMap, Cast, Scheduler.Matches, Matched,
        Counted, Replays, Tallied;
      ghost var st, queued := State(), scheduler.Queued();
      QueueCast();
      var plan := PlanNext();
      if plan.Empty() {
        NobodyQueued(st.s, queued);
        EmptyMap(requests, queued, scheduler.Queued());
        return [];
      }
      results := RunPlan(plan, SchedulerSpec.PlanStep(scheduler.o, st.s), st, queued);
    }
  }

  /** `after` is `before` without the requests `results` finish. */
  ghost predicate Dropped(before: map<RequestId, Request>, results: seq<StepResult>, after: map<RequestId, Request>) {
    && (forall id :: id in after <==> id in before && !FinishedIn(results, id))
    && forall id :: id in after ==> after[id] == before[id]
  }

  lemma LiveMapWithout(before: map<RequestId, Request>, results: seq<StepResult>, after: map<RequestId, Request>,
                       queued: seq<Request>, queued': seq<Request>)
    requires LiveMap(before, queued) && Dropped(before, results, after)
    requires forall r :: r in queued' ==> r in queued
    requires forall r :: r in queued ==> (r in queued' <==> !FinishedIn(results, r.p.id))
    ensures LiveMap(after, queued')
  {
    hide FinishedIn;
  }

  /** After dropping the finished, the map again holds exactly the queued requests. */
  lemma LiveMapDrops(m: Model, o: Options, st: State, st': State, results: seq<StepResult>,
                     before: map<RequestId, Request>, after: map<RequestId, Request>,
                     queued: seq<Request>, queued': seq<Request>)
    requires EngineInv(m, o, st) && EngineInv(m, o, st') && st'.log == st.log + results && st'.accepted == st.accepted
    requires Cast(st.s.All(), queued) && Cast(st'.s.All(), queued') && LiveMap(before, queued)
    requires Dropped(before, results, after) && forall r :: r in queued' ==> r in queued
    ensures LiveMap(after, queued')
  {
    hide EngineInv, Cast, FinishedIn, LiveMap, Dropped;
    forall r | r in queued
      ensures r in queued' <==> !FinishedIn(results, r.p.id)
    {
      StaysQueued(m, o, st, st', results, before, queued, queued', r);
    }
    LiveMapWithout(before, results, after, queued, queued');
  }

  lemma CastPresent(rs: seq<Req>, queued: seq<Request>, p: Params)
    requires Cast(rs, queued)
    ensures Present(rs, p) <==> exists i :: 0 <= i < |queued| && queued[i].p == p
  {
    if i :| 0 <= i < |queued| && queued[i].p == p {
      assert rs[i].p == p;
    }
  }

  lemma StaysQueued(m: Model, o: Options, st: State, st': State, results: seq<StepResult>,
                    requests: map<RequestId, Request>, queued: seq<Request>, queued': seq<Request>, r: Request)
    requires EngineInv(m, o, st) && EngineInv(m, o, st') && st'.log == st.log + results && st'.accepted == st.accepted
    requires Cast(st.s.All(), queued) && Cast(st'.s.All(), queued') && LiveMap(requests, queued)
    requires (forall q :: q in queued' ==> q in queued) && r in queued
    ensures r in queued' <==> !FinishedIn(results, r.p.id)
  {
    hide CacheInv, VocabOk, Fcfs, Accounted, FinishedIn;
    CastPresent(st.s.All(), queued, r.p);
    CastPresent(st'.s.All(), queued', r.p);
    hide Cast;
    LiveBudget(o, st.s, r.p);
    LeavesWhenFinished(m, o, st, st', results, r.p);
    if i :| 0 <= i < |queued'| && queued'[i].p == r.p {
      assert queued'[i] in queued;
    }
  }

  lemma LiveBudget(o: Options, s: Sched, p: Params)
    requires Inv(o, s) && Present(s.All(), p)
    ensures p.maxNew > 0
  {
    hide Books, Ordered;
    var i :| 0 <= i < |s.All()| && s.All()[i].p == p;
    if i < |s.running| {
      assert RunningOk(o, s.running[i], false);
    } else if i < |s.Live()| {
      var k := i - |s.running|;
      assert PrefillOk(o, s.prefill[k], if k == 0 then HeadProgress(s) else 0);
    } else {
      assert WaitingOk(o, s.waiting[i - |s.Live()|]);
    }
  }

  lemma NobodyQueued(s: Sched, queued: seq<Request>)
    requires s.Idle() && Cast(s.All(), queued)
    ensures queued == []
  {
  }

  lemma EmptyMap(requests: map<RequestId, Request>, queued: seq<Request>, queued': seq<Request>)
    requires LiveMap(requests, queued) && queued == [] && forall r :: r in queued' ==> r in queued
    ensures LiveMap(requests, queued')
  {
  }

  /** Values and objects of the same requests, in the same places. */
  ghost predicate Cast(rs: seq<Req>, queued: seq<Request>) {
    |rs| == |queued| && forall i :: 0 <= i < |rs| ==> rs[i].p == queued[i].p
  }

  lemma SlicesOfBatch(spec: Planned, xs: seq<Slice>)
    requires spec.work == DecodeBatch && StepExactness.Executable(spec) && |xs| == |spec.s.running|
    requires forall k :: 0 <= k < |xs| ==> xs[k] == LastSlice(spec.s.running[k])
    ensures Slices(spec) == xs
  {
  }

  lemma NewIdIsNew(m: Model, o: Options, st: State)
    requires EngineInv(m, o, st)
    ensures forall i :: 0 <= i < |st.s.All()| ==> st.s.All()[i].p.id < st.nextId
  {
    hide CacheInv, Accounted, VocabOk, Fcfs, InvAt;
    EverythingAccepted(m, o, st);
  }
}
