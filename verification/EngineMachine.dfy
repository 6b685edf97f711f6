/** The engine as a state machine: arrivals and steps, with the whole emission log
    as history, and the invariant of every reachable state. */
module EngineMachine {
  import opened Types
  import opened ForwardPass
  import opened SoloDecoding
  import opened SchedulerSpec
  import opened SchedulerInvariant
  import opened PlanStepInvariant
  import opened PlanTheorems
  import opened CompleteStepInvariant
  import opened PagedCache
  import opened StepExactness
  import opened Accounting
  import opened StepAccounting

  datatype State = State(
    s: Sched,
    kv: KvPool,
    nextId: RequestId,
    accepted: map<RequestId, Params>,
    log: seq<StepResult>)

  datatype AddError = PromptTokenOutsideVocab | ForcedTokenOutsideVocab | Rejected(why: Rejection)

  predicate InVocab(m: Model, tokens: seq<TokenId>) {
    forall i :: 0 <= i < |tokens| ==> 0 <= tokens[i] < m.vocab
  }

  /** The API-edge checks, then the scheduler's. */
  function CheckRequest(m: Model, o: Options, p: Params): Option<AddError> {
    if !InVocab(m, p.prompt) then Some(PromptTokenOutsideVocab)
    else if !InVocab(m, p.forced) then Some(ForcedTokenOutsideVocab)
    else match Validate(o, p)
      case Some(why) => Some(Rejected(why))
      case None => None
  }

  /** An accepted arrival; a rejected one changes nothing. */
  function Arrive(st: State, p: Params): State {
    st.(s := Enqueue(st.s, p), nextId := st.nextId + 1, accepted := st.accepted[p.id := p])
  }

  ghost predicate ArrivalStep(m: Model, o: Options, st: State, p: Params, st': State) {
    p.id == st.nextId && st' == if CheckRequest(m, o, p).None? then Arrive(st, p) else st
  }

  /** One engine step. Only what the device did is not a function of the state. */
  ghost predicate EngineStep(m: Model, o: Options, st: State, st': State, results: seq<StepResult>) {
    var plan := PlanStep(o, st.s);
    if plan.Empty() then st' == st.(s := plan.s) && results == []
    else Executable(plan) && exists sampled: seq<TokenId> :: Committed(m, o, st, plan, sampled, st', results)
  }

  ghost predicate Committed(m: Model, o: Options, st: State, plan: Planned, sampled: seq<TokenId>, st': State, results: seq<StepResult>)
    requires Executable(plan)
  {
    && DeviceStep(m, st.kv, plan, st'.kv, sampled)
    && (st'.s, results) == CompleteStep(o, plan, sampled)
    && st' == st.(s := st'.s, kv := st'.kv, log := st.log + results)
  }

  // ------------------------------------------------------------------- history

  ghost predicate VocabOk(m: Model, rs: seq<Req>) {
    forall i :: 0 <= i < |rs| ==>
      InVocab(m, rs[i].p.prompt) && InVocab(m, rs[i].p.forced) && InVocab(m, rs[i].outputs)
  }

  function Ids(rs: seq<Req>): set<RequestId> { set r | r in rs :: r.p.id }

  function LogIds(log: seq<StepResult>): set<RequestId> { set e | e in log :: e.id }

  /** First emissions come in arrival order. */
  ghost predicate FirstsInOrder(log: seq<StepResult>) {
    forall i, k :: 0 <= i < k < |log| && log[k].id !in LogIds(log[..k]) ==> log[i].id < log[k].id
  }

  ghost predicate Fcfs(s: Sched, log: seq<StepResult>) {
    && FirstsInOrder(log)
    && Ids(s.running) <= LogIds(log)
    && forall a, b :: a in LogIds(log) && b in Ids(s.prefill + s.waiting) ==> a < b
  }

  ghost predicate EngineInv(m: Model, o: Options, st: State) {
    && m.Valid()
    && Inv(o, st.s)
    && CacheInv(m, st.kv, st.s.Live())
    && Accounted(m, o, st.accepted, st.s.All(), st.log)
    && VocabOk(m, st.s.All())
    && Fcfs(st.s, st.log)
    && forall id :: id in st.accepted ==> id < st.nextId && st.accepted[id].maxNew > 0
  }

  function InitialState(o: Options, kv: KvPool): State {
    State(Initial(o), kv, 1, map[], [])
  }

  lemma InitialEngineInv(m: Model, o: Options, kv: KvPool)
    requires m.Valid() && o.Valid()
    ensures EngineInv(m, o, InitialState(o, kv))
  {
    hide InvAt;
    InitialInv(o);
  }

  // ------------------------------------------------------------------ arrivals

  lemma ArrivalKeepsFcfs(s: Sched, log: seq<StepResult>, p: Params)
    requires Fcfs(s, log) && forall a :: a in LogIds(log) ==> a < p.id
    ensures Fcfs(Enqueue(s, p), log)
  {
    var s' := Enqueue(s, p);
    assert s'.prefill + s'.waiting == (s.prefill + s.waiting) + [NewReq(p)];
    assert Ids(s'.prefill + s'.waiting) == Ids(s.prefill + s.waiting) + {p.id};
  }

  lemma EverythingAccepted(m: Model, o: Options, st: State)
    requires EngineInv(m, o, st)
    ensures forall r :: r in st.s.All() ==> r.p.id < st.nextId
    ensures forall a :: a in LogIds(st.log) ==> a < st.nextId
    ensures st.nextId !in st.accepted
  {
    hide Inv, CacheInv, NoneLost, Fcfs, Told, VocabOk;
    forall r | r in st.s.All()
      ensures r.p.id < st.nextId
    {
      var i :| 0 <= i < |st.s.All()| && st.s.All()[i] == r;
      assert st.s.All()[i].p.id in st.accepted;
    }
  }

  lemma ArrivalKeepsEngineInv(m: Model, o: Options, st: State, p: Params)
    requires EngineInv(m, o, st) && p.id == st.nextId && CheckRequest(m, o, p).None?
    ensures EngineInv(m, o, Arrive(st, p))
  {
    hide Inv, CacheInv, AllTold, NoneLost, Fcfs, Validate;
    EverythingAccepted(m, o, st);
    EnqueueKeepsInv(o, st.s, p);
    assert p.prompt != [] && p.maxNew > 0 by { AcceptedHasPrompt(m, o, p); }
    ArrivalAccounted(m, o, st.accepted, st.s.All(), st.log, p);
    ArrivalKeepsFcfs(st.s, st.log, p);
    assert Enqueue(st.s, p).All() == st.s.All() + [NewReq(p)];
  }

  lemma AcceptedHasPrompt(m: Model, o: Options, p: Params)
    requires CheckRequest(m, o, p).None?
    ensures p.prompt != [] && p.maxNew > 0 && Validate(o, p).None?
  {
  }

  // --------------------------------------------------------------------- steps

  lemma {:induction false} CompleteRowsIds(o: Options, s: Sched, j: nat, sampled: seq<TokenId>)
    requires j + |sampled| == |s.running|
    ensures var (s', out) := CompleteRows(o, s, j, sampled);
            && s'.prefill == s.prefill && s'.waiting == s.waiting
            && |out| == |sampled|
            && (forall k :: 0 <= k < |out| ==> out[k].id == s.running[j + k].p.id)
            && Ids(s'.running) <= Ids(s.running)
    decreases |sampled|
  {
    if sampled != [] {
      var r := Produce(o, s.running[j], sampled[0]);
      var t := if r.state == Running then s.(running := s.running[j := r])
               else Release(s.(running := s.running[..j] + s.running[j + 1..]), r);
      var j' := if r.state == Running then j + 1 else j;
      CompleteRowsUnfold(o, s, j, sampled, t, j');
      IdsShrink(s.running, j, r);
      hide CompleteRows, Produce;
      CompleteRowsIds(o, t, j', sampled[1..]);
      var out, out' := CompleteRows(o, s, j, sampled).1, CompleteRows(o, t, j', sampled[1..]).1;
      forall k | 0 <= k < |out|
        ensures out[k].id == s.running[j + k].p.id
      {
        if k > 0 {
          assert out[k] == out'[k - 1];
          assert t.running[j' + (k - 1)] == s.running[j + k];
        }
      }
    }
  }

  lemma IdsShrink(rs: seq<Req>, j: nat, r: Req)
    requires j < |rs| && r.p == rs[j].p
    ensures Ids(rs[j := r]) <= Ids(rs) && Ids(rs[..j] + rs[j + 1..]) <= Ids(rs)
  {
    forall x | x in rs[j := r]
      ensures x.p.id in Ids(rs)
    {
      var k :| 0 <= k < |rs| && rs[j := r][k] == x;
      assert rs[k] in rs;
    }
  }

  lemma MentionedAgain(log: seq<StepResult>, out: seq<StepResult>)
    requires FirstsInOrder(log) && forall k :: 0 <= k < |out| ==> out[k].id in LogIds(log)
    ensures FirstsInOrder(log + out) && LogIds(log + out) == LogIds(log)
  {
    forall k | |log| <= k < |log + out|
      ensures LogIds(log) <= LogIds((log + out)[..k])
    {
      assert (log + out)[..k] == log + out[..k - |log|];
    }
    forall i, k | 0 <= i < k < |log| && (log + out)[k].id !in LogIds((log + out)[..k])
      ensures (log + out)[i].id < (log + out)[k].id
    {
      assert (log + out)[..k] == log[..k];
    }
    assert forall e :: e in log + out ==> e in log || e in out;
  }

  lemma SpokenForTheFirstTime(log: seq<StepResult>, e: StepResult)
    requires FirstsInOrder(log) && forall a :: a in LogIds(log) ==> a < e.id
    ensures FirstsInOrder(log + [e]) && LogIds(log + [e]) == LogIds(log) + {e.id}
  {
    forall i, k | 0 <= i < k < |log + [e]| && (log + [e])[k].id !in LogIds((log + [e])[..k])
      ensures (log + [e])[i].id < (log + [e])[k].id
    {
      if k < |log| {
        assert (log + [e])[..k] == log[..k];
      } else {
        assert log[i].id in LogIds(log);
      }
    }
  }

  lemma SameParamsSameIds(a: seq<Req>, b: seq<Req>)
    requires SameParams(a, b)
    ensures Ids(a) == Ids(b)
  {
    forall i | 0 <= i < |a|
      ensures a[i].p.id in Ids(b) && b[i].p.id in Ids(a)
    {
      assert a[i] in a && b[i] in b;
    }
  }

  lemma QueuesSameParams(s: Sched, a: Sched)
    requires a.running == s.running && SameParams(s.All(), a.All())
    ensures SameParams(s.prefill + s.waiting, a.prefill + a.waiting)
  {
    assert s.All()[|s.running|..] == s.prefill + s.waiting;
    assert a.All()[|a.running|..] == a.prefill + a.waiting;
  }

  /** Admission changes nobody's place. */
  lemma AdmissionKeepsFcfs(o: Options, s: Sched, log: seq<StepResult>)
    requires Fcfs(s, log)
    ensures Fcfs(AdmitAll(o, s), log)
  {
    var a := AdmitAll(o, s);
    AdmitAllShape(o, s);
    hide AdmitAll, AdmitsHead, Ids, LogIds, FirstsInOrder;
    QueuesSameParams(s, a);
    SameParamsSameIds(s.prefill + s.waiting, a.prefill + a.waiting);
  }

  /** Everything a decode step reports is about a request that was running. */
  lemma RowsReported(o: Options, before: seq<Req>, plan: Planned, out: seq<StepResult>, heard: set<RequestId>)
    requires DecodePlanShape(before, plan.s.running, plan.aborted) && Ids(before) <= heard
    requires |out| == |plan.s.running| && forall k :: 0 <= k < |out| ==> out[k].id == plan.s.running[k].p.id
    ensures forall k :: 0 <= k < |AbortNotices(plan.aborted) + out| ==> (AbortNotices(plan.aborted) + out)[k].id in heard
    ensures Ids(plan.s.running) <= heard
  {
    var all := AbortNotices(plan.aborted) + out;
    forall k | 0 <= k < |plan.s.running|
      ensures plan.s.running[k].p.id in heard
    {
      assert before[k] in before && RowGrew(before[k], plan.s.running[k]);
    }
    forall k | 0 <= k < |plan.aborted|
      ensures AbortNotices(plan.aborted)[k].id in heard
    {
      var at := |before| - 1 - k;
      assert before[at] in before && plan.aborted[|before| - 1 - at] == Victim(before[at]);
    }
  }

  lemma RowsEmitInOrder(o: Options, before: seq<Req>, plan: Planned, sampled: seq<TokenId>, log: seq<StepResult>)
    requires plan.work.DecodeBatch? && |sampled| == |plan.s.running| && plan.s.prefill == []
    requires FirstsInOrder(log) && Ids(before) <= LogIds(log)
    requires forall a, b :: a in LogIds(log) && b in Ids(plan.s.waiting) ==> a < b
    requires DecodePlanShape(before, plan.s.running, plan.aborted)
    ensures var (s', out) := CompleteStep(o, plan, sampled);
            Fcfs(s', log + out)
  {
    hide CompleteRows, DecodePlanShape, Ids, LogIds, FirstsInOrder;
    var (s', out) := CompleteRows(o, plan.s, 0, sampled);
    CompleteRowsIds(o, plan.s, 0, sampled);
    RowsReported(o, before, plan, out, LogIds(log));
    MentionedAgain(log, AbortNotices(plan.aborted) + out);
    assert s'.prefill + s'.waiting == plan.s.waiting;
  }

  /** The head is older than everyone behind it. */
  lemma HeadIsOldest(s: Sched)
    requires s.prefill != [] && Ordered(s.All())
    ensures forall b :: b in Ids(s.prefill[1..] + s.waiting) ==> s.prefill[0].p.id < b
    ensures Ids(s.prefill + s.waiting) == {s.prefill[0].p.id} + Ids(s.prefill[1..] + s.waiting)
  {
    var head, rest := s.prefill[0], s.prefill[1..] + s.waiting;
    assert s.prefill + s.waiting == [head] + rest;
    forall i | 0 <= i < |rest|
      ensures head.p.id < rest[i].p.id
    {
      assert s.All()[|s.running|] == head && s.All()[|s.running| + 1 + i] == rest[i];
    }
  }

  lemma HeadEmitsInOrder(o: Options, s: Sched, end: int, sampled: seq<TokenId>, log: seq<StepResult>)
    requires s.prefill != [] && Fcfs(s, log) && Ordered(s.All())
    requires end >= s.prefill[0].PromptLen() ==> |sampled| == 1
    ensures var (s', out) := CompletePrefill(o, s, end, sampled);
            Fcfs(s', log + out)
  {
    hide Ordered, FirstsInOrder, LogIds;
    var (s', out) := CompletePrefill(o, s, end, sampled);
    var head := s.prefill[0];
    if end < head.PromptLen() {
      assert log + out == log;
      SameParamsSameIds(s.prefill + s.waiting, s'.prefill + s'.waiting);
    } else {
      HeadIsOldest(s);
      assert s'.prefill + s'.waiting == s.prefill[1..] + s.waiting;
      assert out == [out[0]] && out[0].id == head.p.id;
      SpokenForTheFirstTime(log, out[0]);
      assert Ids(s'.running) <= Ids(s.running) + {head.p.id};
    }
  }

  lemma AppendedInVocab(m: Model, r: Req, t: TokenId)
    requires 0 <= t < m.vocab && InVocab(m, r.p.forced) && InVocab(m, r.outputs)
    ensures InVocab(m, Append(r, t).outputs)
  {
  }

  lemma {:induction false} CompleteRowsVocab(m: Model, o: Options, s: Sched, j: nat, sampled: seq<TokenId>)
    requires j + |sampled| == |s.running| && VocabOk(m, s.running) && InVocab(m, sampled)
    ensures VocabOk(m, CompleteRows(o, s, j, sampled).0.running)
    decreases |sampled|
  {
    if sampled != [] {
      var r := Produce(o, s.running[j], sampled[0]);
      AppendedInVocab(m, s.running[j], sampled[0]);
      hide InVocab;
      var t := if r.state == Running then s.(running := s.running[j := r])
               else Release(s.(running := s.running[..j] + s.running[j + 1..]), r);
      var j' := if r.state == Running then j + 1 else j;
      CompleteRowsUnfold(o, s, j, sampled, t, j');
      assert InVocab(m, sampled[1..]) by { VocabTail(m, sampled); }
      CompleteRowsVocab(m, o, t, j', sampled[1..]);
    }
  }

  lemma VocabTail(m: Model, tokens: seq<TokenId>)
    requires InVocab(m, tokens) && tokens != []
    ensures InVocab(m, tokens[1..])
  {
  }

  // ------------------------------------------------------ the step, all of it

  lemma PrefillKeepsFcfs(o: Options, a: Sched, plan: Planned, sampled: seq<TokenId>, log: seq<StepResult>)
    requires Fcfs(a, log) && a.prefill != [] && plan.work.PrefillChunk? && plan.aborted == []
    requires plan.s == Cover(a, plan.work.end) && PlanInv(o, plan) && |sampled| == plan.Yield()
    ensures Fcfs(CompleteStep(o, plan, sampled).0, log + CompleteStep(o, plan, sampled).1)
  {
    hide InvAt, Fcfs, CompletePrefill;
    CoverShape(a, plan.work.end);
    CoveredFcfs(a, plan.s, log);
    PlannedOrder(o, plan);
    HeadEmitsInOrder(o, plan.s, plan.work.end, sampled, log);
    assert CompleteStep(o, plan, sampled).1 == CompletePrefill(o, plan.s, plan.work.end, sampled).1;
  }

  lemma DecodeKeepsFcfs(o: Options, a: Sched, plan: Planned, sampled: seq<TokenId>, log: seq<StepResult>)
    requires Fcfs(a, log) && a.prefill == [] && plan == PlanDecode(o, a, 0, []) && |sampled| == plan.Yield()
    ensures plan.work.DecodeBatch?
    ensures Fcfs(CompleteStep(o, plan, sampled).0, log + CompleteStep(o, plan, sampled).1)
  {
    hide Fcfs, CompleteRows, PlanDecode;
    PlanDecodeShape(o, a, 0, []);
    assert plan.aborted[0..] == plan.aborted;
    FcfsParts(a, log);
    RowsEmitInOrder(o, a.running, plan, sampled, log);
  }

  lemma StepKeepsFcfs(o: Options, s: Sched, sampled: seq<TokenId>, log: seq<StepResult>)
    requires Fcfs(s, log) && |sampled| == PlanStep(o, s).Yield() && PlanInv(o, PlanStep(o, s))
    ensures Fcfs(CompleteStep(o, PlanStep(o, s), sampled).0, log + CompleteStep(o, PlanStep(o, s), sampled).1)
  {
    hide InvAt, Fcfs, CompleteStep, AdmitAll, PlanDecode, Cover;
    AdmissionKeepsFcfs(o, s, log);
    var a, plan := AdmitAll(o, s), PlanStep(o, s);
    if a.prefill != [] {
      PrefillKeepsFcfs(o, a, plan, sampled, log);
    } else {
      DecodeKeepsFcfs(o, a, plan, sampled, log);
    }
  }

  lemma PlannedOrder(o: Options, plan: Planned)
    requires PlanInv(o, plan)
    ensures Ordered(plan.s.All())
  {
  }

  lemma CoveredFcfs(a: Sched, b: Sched, log: seq<StepResult>)
    requires Fcfs(a, log) && b.running == a.running && b.waiting == a.waiting && SameParams(a.prefill, b.prefill)
    ensures Fcfs(b, log)
  {
    SameParamsSameIds(a.prefill + a.waiting, b.prefill + b.waiting);
  }

  lemma FcfsParts(s: Sched, log: seq<StepResult>)
    requires Fcfs(s, log) && s.prefill == []
    ensures FirstsInOrder(log) && Ids(s.running) <= LogIds(log)
    ensures forall a, b :: a in LogIds(log) && b in Ids(s.waiting) ==> a < b
  {
    assert s.prefill + s.waiting == s.waiting;
  }

  lemma StoryVocab(m: Model, a: seq<Req>, b: seq<Req>)
    requires VocabOk(m, a) && SameStory(a, b)
    ensures VocabOk(m, b)
  {
  }

  lemma PrefillKeepsVocab(m: Model, o: Options, s: Sched, end: int, sampled: seq<TokenId>)
    requires s.prefill != [] && VocabOk(m, s.All()) && InVocab(m, sampled)
    requires end >= s.prefill[0].PromptLen() ==> |sampled| == 1
    ensures VocabOk(m, CompletePrefill(o, s, end, sampled).0.All())
  {
    hide InVocab;
    var k, r := |s.running|, s.prefill[0].(progress := end);
    assert s.All()[k] == s.prefill[0];
    StoryVocab(m, s.All(), s.All()[k := r]);
    if end < r.PromptLen() {
      assert CompletePrefill(o, s, end, sampled).0.All() == s.All()[k := r];
    } else {
      FirstInVocab(m, r, sampled);
      PrefillLeaves(s, r, Produce(o, r, sampled[0]));
    }
  }

  lemma DecodeKeepsVocab(m: Model, o: Options, a: Sched, plan: Planned, sampled: seq<TokenId>)
    requires a.prefill == [] && plan == PlanDecode(o, a, 0, []) && plan.work.DecodeBatch? && |sampled| == |plan.s.running|
    requires VocabOk(m, a.All()) && InVocab(m, sampled)
    ensures VocabOk(m, CompleteRows(o, plan.s, 0, sampled).0.All())
  {
    hide InVocab, CompleteRows, PlanDecode;
    PlanDecodeShape(o, a, 0, []);
    RowsVocab(m, a, plan);
    CompleteRowsVocab(m, o, plan.s, 0, sampled);
    CompleteRowsIds(o, plan.s, 0, sampled);
    assert a.waiting == a.All()[|a.running|..];
    assert CompleteRows(o, plan.s, 0, sampled).0.All() == CompleteRows(o, plan.s, 0, sampled).0.running + a.waiting;
  }

  lemma StepKeepsVocab(m: Model, o: Options, s: Sched, sampled: seq<TokenId>)
    requires VocabOk(m, s.All()) && InVocab(m, sampled) && |sampled| == PlanStep(o, s).Yield()
    requires PlanInv(o, PlanStep(o, s))
    ensures VocabOk(m, CompleteStep(o, PlanStep(o, s), sampled).0.All())
  {
    hide InvAt, InVocab, VocabOk, AdmitAll, CompleteRows, CompletePrefill, PlanDecode, Cover;
    var a, plan := AdmitAll(o, s), PlanStep(o, s);
    AdmitAllStory(o, s);
    StoryVocab(m, s.All(), a.All());
    if a.prefill != [] {
      CoverShape(a, ChunkEnd(o, a.prefill[0]));
      StoryVocab(m, a.All(), plan.s.All());
      PrefillKeepsVocab(m, o, plan.s, plan.work.end, sampled);
    } else {
      PlanDecodeShape(o, a, 0, []);
      DecodeKeepsVocab(m, o, a, plan, sampled);
    }
  }

  lemma FirstInVocab(m: Model, r: Req, sampled: seq<TokenId>)
    requires InVocab(m, r.p.forced) && InVocab(m, r.outputs) && InVocab(m, sampled) && |sampled| == 1
    ensures InVocab(m, Append(r, sampled[0]).outputs)
  {
  }

  lemma RowsVocab(m: Model, a: Sched, plan: Planned)
    requires VocabOk(m, a.All()) && |plan.s.running| <= |a.running|
    requires forall j :: 0 <= j < |plan.s.running| ==> RowGrew(a.running[j], plan.s.running[j])
    ensures VocabOk(m, plan.s.running)
  {
    forall j | 0 <= j < |plan.s.running|
      ensures a.All()[j] == a.running[j]
    {
    }
  }

  lemma ProducersProduce(m: Model, o: Options, plan: Planned, kv: KvPool, kv': KvPool, sampled: seq<TokenId>)
    requires PlanInv(o, plan) && Executable(plan)
    requires CacheInv(m, kv, plan.s.Live()) && DeviceStep(m, kv, plan, kv', sampled)
    ensures SoloTokens(m, Producers(plan), sampled)
  {
    hide InvAt, Executed, CacheInv, Executable, Sample, Slices;
    PlanIsExecutable(o, plan);
    forall k | 0 <= k < |sampled|
      ensures Producing(Producers(plan)[k]) && sampled[k] == Sample(m, Producers(plan)[k].Tokens())
    {
      TokensAreSolo(m, o, plan, kv, kv', sampled, k);
      ProducerOk(o, plan, k);
    }
  }

  lemma ProducerOk(o: Options, plan: Planned, k: nat)
    requires PlanInv(o, plan) && k < plan.Yield()
    ensures Producing(Producers(plan)[k])
  {
    PlanIsExecutable(o, plan);
    hide InvAt;
    if plan.work.DecodeBatch? {
      assert RunningOk(o, plan.s.running[k], true);
    }
  }

  lemma PrefillAccounts(m: Model, o: Options, accepted: map<RequestId, Params>, a: Sched, plan: Planned,
                        sampled: seq<TokenId>, log: seq<StepResult>)
    requires Accounted(m, o, accepted, a.All(), log) && a.prefill != [] && plan.work.PrefillChunk? && plan.aborted == []
    requires plan.s == Cover(a, plan.work.end) && PlanInv(o, plan) && |sampled| == plan.Yield()
    requires SoloTokens(m, Producers(plan), sampled)
    ensures Accounted(m, o, accepted, CompleteStep(o, plan, sampled).0.All(), log + CompleteStep(o, plan, sampled).1)
  {
    hide InvAt, Accounted, CompletePrefill, Sample;
    CoverShape(a, plan.work.end);
    SameStoryAccounted(m, o, accepted, a.All(), plan.s.All(), log);
    PlannedOrder(o, plan);
    PlanIsExecutable(o, plan);
    HeadProduces(o, plan.s.prefill[0], plan.work.end);
    CompletePrefillAccounted(m, o, accepted, plan.s, plan.work.end, sampled, log);
    assert CompleteStep(o, plan, sampled).1 == CompletePrefill(o, plan.s, plan.work.end, sampled).1;
  }

  lemma HeadProduces(o: Options, r: Req, end: int)
    requires PrefillOk(o, r, end)
    ensures Producing(r)
  {
  }

  lemma DecodeAccounts(m: Model, o: Options, accepted: map<RequestId, Params>, a: Sched, plan: Planned,
                       sampled: seq<TokenId>, log: seq<StepResult>)
    requires Accounted(m, o, accepted, a.All(), log) && Ordered(a.All()) && a.prefill == []
    requires plan == PlanDecode(o, a, 0, []) && plan.work.DecodeBatch? && SoloTokens(m, plan.s.running, sampled)
    requires plan.aborted != [] ==> o.policy == Watermark
    ensures Accounted(m, o, accepted, CompleteStep(o, plan, sampled).0.All(), log + CompleteStep(o, plan, sampled).1)
  {
    hide Accounted, CompleteRows, PlanDecode, Sample, Ordered, DecodePlanShape, Producing, SameStory, SameParams;
    PlanDecodeShape(o, a, 0, []);
    assert plan.aborted[0..] == plan.aborted;
    var n := |plan.s.running|;
    assert a.All() == a.running + a.waiting;
    NoticesFollowAborts(a.running, plan);
    SurvivorsStory(a, plan);
    AbortsAccounted(m, o, accepted, a.running, a.waiting, n, log, AbortNotices(plan.aborted));
    var log' := log + AbortNotices(plan.aborted);
    SameStoryAccounted(m, o, accepted, a.running[..n] + a.waiting, plan.s.All(), log');
    OrderedSame(a.running[..n] + a.waiting, plan.s.All());
    assert plan.s.running[0..] == plan.s.running;
    CompleteRowsAccounted(m, o, accepted, plan.s, 0, sampled, log');
    assert log + (AbortNotices(plan.aborted) + CompleteRows(o, plan.s, 0, sampled).1) == log' + CompleteRows(o, plan.s, 0, sampled).1;
  }

  lemma SurvivorsStory(a: Sched, plan: Planned)
    requires DecodePlanShape(a.running, plan.s.running, plan.aborted) && plan.s.prefill == [] && plan.s.waiting == a.waiting
    ensures |plan.s.running| <= |a.running|
    ensures SameStory(a.running[..|plan.s.running|] + a.waiting, plan.s.All())
    ensures SameParams(a.running[..|plan.s.running|] + a.waiting, plan.s.All())
  {
  }

  lemma NoticesFollowAborts(before: seq<Req>, plan: Planned)
    requires DecodePlanShape(before, plan.s.running, plan.aborted)
    ensures |plan.aborted| == |before| - |plan.s.running|
    ensures forall i :: 0 <= i < |plan.aborted| ==> AbortNotices(plan.aborted)[i] == AbortNotice(before[|before| - 1 - i].p.id)
  {
    forall i | 0 <= i < |plan.aborted|
      ensures plan.aborted[i].p == before[|before| - 1 - i].p
    {
      var j := |before| - 1 - i;
      assert plan.aborted[|before| - 1 - j] == Victim(before[j]);
    }
  }

  lemma StepAccounts(m: Model, o: Options, st: State, sampled: seq<TokenId>, kv': KvPool)
    requires EngineInv(m, o, st) && PlanInv(o, PlanStep(o, st.s))
    requires SoloTokens(m, Producers(PlanStep(o, st.s)), sampled)
    ensures Accounted(m, o, st.accepted, CompleteStep(o, PlanStep(o, st.s), sampled).0.All(),
                      st.log + CompleteStep(o, PlanStep(o, st.s), sampled).1)
  {
    hide InvAt, Accounted, Sample, CompleteStep, Ordered, AdmitAll, PlanDecode, Cover, CacheInv, VocabOk, Fcfs;
    var a, plan := AdmitAll(o, st.s), PlanStep(o, st.s);
    AdmitAllStory(o, st.s);
    SameStoryAccounted(m, o, st.accepted, st.s.All(), a.All(), st.log);
    if a.prefill != [] {
      PrefillAccounts(m, o, st.accepted, a, plan, sampled, st.log);
    } else {
      AdmitAllKeepsInv(o, st.s);
      InvOrdered(o, a);
      PlanDecodeShape(o, a, 0, []);
      if o.policy == ReserveFull {
        ReserveFullNeverAborts(o, st.s);
      }
      DecodeAccounts(m, o, st.accepted, a, plan, sampled, st.log);
    }
  }

  lemma InvOrdered(o: Options, s: Sched)
    requires Inv(o, s)
    ensures Ordered(s.All())
  {
  }

  lemma PlanFacts(m: Model, o: Options, st: State)
    requires EngineInv(m, o, st)
    ensures PlanInv(o, PlanStep(o, st.s)) && Executable(PlanStep(o, st.s)) && Books(o, PlanStep(o, st.s).s)
    ensures CacheInv(m, st.kv, PlanStep(o, st.s).s.Live())
  {
    hide CacheInv, Accounted, VocabOk, Fcfs, PlanStep, Executable;
    PlanStepKeepsInv(o, st.s);
    PlanIsExecutable(o, PlanStep(o, st.s));
    PlanKeepsCache(m, st.kv, o, st.s);
  }

  /** Every step keeps the engine invariant. */
  lemma StepKeepsEngineInv(m: Model, o: Options, st: State, st': State, results: seq<StepResult>)
    requires EngineInv(m, o, st) && EngineStep(m, o, st, st', results)
    ensures EngineInv(m, o, st')
  {
    hide InvAt, CacheInv, Accounted, VocabOk, Fcfs, DeviceStep, PlanStep, CompleteStep, Executable, Books, SoloTokens;
    var plan := PlanStep(o, st.s);
    if plan.Empty() {
      EmptyPlanChangesNothing(o, st.s);
    } else {
      PlanFacts(m, o, st);
      var sampled :| Committed(m, o, st, plan, sampled, st', results);
      DeviceYield(m, st.kv, plan, st'.kv, sampled);
      CompleteStepKeepsInv(o, plan, sampled);
      CompleteStepKeepsCache(m, o, plan, st.kv, st'.kv, sampled);
      ProducersProduce(m, o, plan, st.kv, st'.kv, sampled);
      StepAccounts(m, o, st, sampled, st'.kv);
      StepKeepsVocab(m, o, st.s, sampled);
      StepKeepsFcfs(o, st.s, sampled, st.log);
    }
  }

  lemma DeviceYield(m: Model, kv: KvPool, plan: Planned, kv': KvPool, sampled: seq<TokenId>)
    requires m.Valid() && Executable(plan) && DeviceStep(m, kv, plan, kv', sampled)
    ensures |sampled| == plan.Yield() && InVocab(m, sampled)
  {
  }

  lemma EmptyPlanChangesNothing(o: Options, s: Sched)
    requires PlanStep(o, s).Empty()
    ensures PlanStep(o, s).s == s
  {
    var a := AdmitAll(o, s);
    AdmitAllShape(o, s);
    PlanDecodeShape(o, a, 0, []);
    if AdmitsHead(o, s) {
      AdmitAllShape(o, Admit(o, s));
    }
  }
}
