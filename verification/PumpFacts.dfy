/** What a driver that only submits and steps can rely on: which steps report
    nothing, for how long, and what each report means. */
module PumpFacts {
  import opened Types
  import opened ForwardPass
  import opened SoloDecoding
  import opened SchedulerSpec
  import opened SchedulerInvariant
  import opened PlanStepInvariant
  import opened PlanTheorems
  import opened StepExactness
  import opened Accounting
  import opened EngineMachine
  import opened Departures
  import RunTheorems

  /** Requests whose prompt is not fully cached, oldest first. */
  function Queue(s: Sched): seq<Req> { s.prefill + s.waiting }

  lemma HeadAfterAdmission(o: Options, s: Sched)
    requires WaitingsOk(o, s.waiting)
    ensures HeadProgress(AdmitAll(o, s)) == HeadProgress(s)
    ensures SameParams(Queue(s), Queue(AdmitAll(o, s)))
  {
    hide AdmitAll, WaitingsOk;
    var a := AdmitAll(o, s);
    AdmitAllShape(o, s);
    AdmittedAreFresh(o, s);
    assert s.All()[|s.running|..] == Queue(s) && a.All()[|s.running|..] == Queue(a);
  }

  /** A request waiting for its prompt stays so, unless this step cached the end of it. */
  ghost predicate QueueMoves(o: Options, s: Sched, s': Sched) {
    forall i :: 0 <= i < |Queue(s)| ==>
      Present(Queue(s'), Queue(s)[i].p) || Queue(s)[i].PromptLen() <= HeadProgress(s) + o.prefillChunk
  }

  ghost predicate HeadMoves(o: Options, s: Sched, s': Sched, results: seq<StepResult>) {
    if results == [] then
      && s'.prefill != []
      && HeadProgress(s') == HeadProgress(s) + o.prefillChunk < s'.prefill[0].PromptLen()
    else HeadProgress(s') == 0
  }

  lemma PrefillMoves(o: Options, plan: Planned, sampled: seq<TokenId>)
    requires PlanInv(o, plan) && plan.work.PrefillChunk? && |sampled| == plan.Yield()
    ensures var (s', results) := CompletePrefill(o, plan.s, plan.work.end, sampled);
            HeadMoves(o, plan.s, s', results) && QueueMoves(o, plan.s, s')
  {
    hide Books, Ordered, Holding;
    var s, end := plan.s, plan.work.end;
    var (s', results) := CompletePrefill(o, s, end, sampled);
    assert PrefillOk(o, s.prefill[0], end);
    forall i | 0 <= i < |Queue(s)|
      ensures Present(Queue(s'), Queue(s)[i].p) || Queue(s)[i].PromptLen() <= HeadProgress(s) + o.prefillChunk
    {
      if end < s.prefill[0].PromptLen() {
        assert Queue(s')[i].p == Queue(s)[i].p;
      } else if i > 0 {
        assert Queue(s')[i - 1] == Queue(s)[i];
      }
    }
    if end == s.prefill[0].PromptLen() && |s.prefill| > 1 {
      assert s.prefill[1].progress == 0;
    }
  }

  lemma PrefillStepMoves(o: Options, s: Sched, sampled: seq<TokenId>)
    requires Inv(o, s) && AdmitAll(o, s).prefill != [] && |sampled| == PlanStep(o, s).Yield()
    requires PlanInv(o, PlanStep(o, s))
    ensures var (s', results) := CompleteStep(o, PlanStep(o, s), sampled);
            HeadMoves(o, s, s', results) && QueueMoves(o, s, s')
  {
    hide InvAt, AdmitAll, Cover, CompletePrefill;
    var a, plan := AdmitAll(o, s), PlanStep(o, s);
    WaitingsFine(o, s);
    HeadAfterAdmission(o, s);
    CoverShape(a, ChunkEnd(o, a.prefill[0]));
    assert a.prefill == [a.prefill[0]] + a.prefill[1..];
    assert SameParams(Queue(a), Queue(plan.s));
    PrefillMoves(o, plan, sampled);
    var s' := CompletePrefill(o, plan.s, plan.work.end, sampled).0;
    assert CompleteStep(o, plan, sampled).1 == CompletePrefill(o, plan.s, plan.work.end, sampled).1;
    forall i | 0 <= i < |Queue(s)|
      ensures Present(Queue(s'), Queue(s)[i].p) || Queue(s)[i].PromptLen() <= HeadProgress(s) + o.prefillChunk
    {
      assert Queue(s)[i].p == Queue(a)[i].p == Queue(plan.s)[i].p;
    }
  }

  lemma WaitingsFine(o: Options, s: Sched)
    requires Inv(o, s)
    ensures WaitingsOk(o, s.waiting)
  {
  }

  lemma DecodeStepMoves(o: Options, s: Sched, sampled: seq<TokenId>)
    requires Inv(o, s) && AdmitAll(o, s).prefill == [] && |sampled| == PlanStep(o, s).Yield() && !PlanStep(o, s).Empty()
    requires PlanInv(o, PlanStep(o, s))
    ensures var (s', results) := CompleteStep(o, PlanStep(o, s), sampled);
            HeadMoves(o, s, s', results) && QueueMoves(o, s, s')
  {
    hide InvAt, AdmitAll, PlanDecode, CompleteRows;
    var a, plan := AdmitAll(o, s), PlanStep(o, s);
    WaitingsFine(o, s);
    HeadAfterAdmission(o, s);
    PlanDecodeShape(o, a, 0, []);
    CompleteRowsIds(o, plan.s, 0, sampled);
    var (s', results) := CompleteStep(o, plan, sampled);
    assert Queue(s') == Queue(a);
    forall i | 0 <= i < |Queue(s)|
      ensures Present(Queue(s'), Queue(s)[i].p)
    {
      assert Queue(a)[i].p == Queue(s)[i].p;
    }
  }

  /** Only a slice that is not the last of its prompt reports nothing, and it moves
      the head by one whole chunk; anything reported resets the head. */
  lemma SilentStepsAdvanceTheHead(m: Model, o: Options, st: State, st': State, results: seq<StepResult>)
    requires EngineInv(m, o, st) && EngineStep(m, o, st, st', results) && !st.s.Idle()
    ensures HeadMoves(o, st.s, st'.s, results) && QueueMoves(o, st.s, st'.s)
  {
    hide InvAt, CacheInv, Accounted, VocabOk, Fcfs, DeviceStep, PlanStep, CompleteStep, Executable, HeadMoves, QueueMoves;
    EmptyPlanIffIdle(o, st.s);
    PlanFacts(m, o, st);
    var plan := PlanStep(o, st.s);
    var sampled :| Committed(m, o, st, plan, sampled, st', results);
    DeviceYield(m, st.kv, plan, st'.kv, sampled);
    if AdmitAll(o, st.s).prefill != [] {
      PrefillStepMoves(o, st.s, sampled);
    } else {
      DecodeStepMoves(o, st.s, sampled);
    }
  }

  // ------------------------------------------------------- what reports mean

  /** The tokens in a request's emissions. */
  function Tokens(h: seq<StepResult>): (t: seq<TokenId>) {
    if h == [] then []
    else Tokens(h[..|h| - 1]) + if h[|h| - 1].reason == Aborted then [] else [h[|h| - 1].token]
  }

  function Reason(h: seq<StepResult>): FinishReason {
    if h == [] then Unfinished else h[|h| - 1].reason
  }

  /** Finished flags, reasons and positions agree all along a log's story. */
  ghost predicate ProperStory(h: seq<StepResult>) {
    forall k :: 0 <= k < |h| ==>
      (h[k].finished <==> h[k].reason != Unfinished) && (h[k].finished ==> k == |h| - 1)
  }

  lemma SettledProper(m: Model, o: Options, p: Params, h: seq<StepResult>)
    requires Settled(m, o, p, h) && p.maxNew > 0
    ensures ProperStory(h) && h != [] && h[|h| - 1].finished
  {
    StreamShape(m, o.eos, p, []);
    hide Stream;
    var whole := Stream(m, o.eos, p, []);
    if h != whole {
      var n: nat :| n < |whole| && h == whole[..n] + [AbortNotice(p.id)];
      assert forall k :: 0 <= k < n ==> h[k] == whole[k];
    }
  }

  lemma ToldProper(m: Model, eos: seq<TokenId>, r: Req, log: seq<StepResult>)
    requires Told(m, eos, r, log) && r.p.maxNew > 0
    ensures ProperStory(LogFor(log, r.p.id)) && Reason(LogFor(log, r.p.id)) == Unfinished
  {
    StreamShape(m, eos, r.p, []);
    var h, rest, whole := LogFor(log, r.p.id), Stream(m, eos, r.p, r.outputs), Stream(m, eos, r.p, []);
    assert |rest| > 0;
    hide Stream;
    assert forall k :: 0 <= k < |h| ==> h[k] == whole[k];
  }

  /** Every accepted request's story is proper; it is unfinished exactly while the
      request is in the engine. */
  lemma StoryProper(m: Model, o: Options, accepted: map<RequestId, Params>, rs: seq<Req>, log: seq<StepResult>, id: RequestId)
    requires Accounted(m, o, accepted, rs, log) && id in accepted && accepted[id].maxNew > 0
    ensures ProperStory(LogFor(log, id))
    ensures Present(rs, accepted[id]) <==> Reason(LogFor(log, id)) == Unfinished
  {
    hide Stream, Settled, Accounted, ProperStory, Present, LogFor, Reason;
    if Present(rs, accepted[id]) {
      PresentProper(m, o, accepted, rs, log, id);
    } else {
      GoneProper(m, o, accepted, rs, log, id);
    }
  }

  lemma PresentProper(m: Model, o: Options, accepted: map<RequestId, Params>, rs: seq<Req>, log: seq<StepResult>, id: RequestId)
    requires Accounted(m, o, accepted, rs, log) && id in accepted && accepted[id].maxNew > 0 && Present(rs, accepted[id])
    ensures ProperStory(LogFor(log, id)) && Reason(LogFor(log, id)) == Unfinished
  {
    hide Stream, Settled, ProperStory, LogFor, Reason, Told;
    var i :| 0 <= i < |rs| && rs[i].p == accepted[id];
    assert Told(m, o.eos, rs[i], log) && accepted[id].id == id;
    ToldProper(m, o.eos, rs[i], log);
  }

  lemma GoneProper(m: Model, o: Options, accepted: map<RequestId, Params>, rs: seq<Req>, log: seq<StepResult>, id: RequestId)
    requires Accounted(m, o, accepted, rs, log) && id in accepted && accepted[id].maxNew > 0 && !Present(rs, accepted[id])
    ensures ProperStory(LogFor(log, id)) && Reason(LogFor(log, id)) != Unfinished
  {
    hide Stream, Settled, AllTold, LogFor, Present;
    assert Settled(m, o, accepted[id], LogFor(log, id));
    SettledProper(m, o, accepted[id], LogFor(log, id));
  }

  lemma {:induction false} LogForPrefix(log: seq<StepResult>, k: nat, id: RequestId)
    requires k <= |log|
    ensures LogFor(log[..k], id) <= LogFor(log, id)
  {
    if k == |log| {
      assert log[..k] == log;
    } else {
      var front := log[..|log| - 1];
      LogForPrefix(front, k, id);
      assert front[..k] == log[..k];
    }
  }

  lemma UnfinishedInside(before: seq<StepResult>, e: StepResult, all: seq<StepResult>)
    requires ProperStory(all) && before + [e] <= all
    ensures Reason(before) == Unfinished && (e.finished <==> e.reason != Unfinished)
  {
    assert all[|before|] == e;
    if before != [] {
      assert all[|before| - 1] == before[|before| - 1];
    }
  }

  /** Before its `k`-th entry is read, the request it speaks about is unfinished. */
  lemma UnfinishedWhenSpoken(log: seq<StepResult>, k: nat)
    requires k < |log| && ProperStory(LogFor(log, log[k].id))
    ensures Reason(LogFor(log[..k], log[k].id)) == Unfinished
    ensures log[k].finished <==> log[k].reason != Unfinished
  {
    hide ProperStory, Reason, LogFor;
    var id := log[k].id;
    assert log[..k + 1] == log[..k] + [log[k]];
    LogForOne(log[..k], log[k], id);
    LogForPrefix(log, k + 1, id);
    UnfinishedInside(LogFor(log[..k], id), log[k], LogFor(log, id));
  }

  // --------------------------------------------------------------- a session

  // Consecutive silent steps a driver tolerates.
  const MAX_IDLE_STEPS := 4096

  /** Short enough that its silent slices stay within the tolerance. */
  predicate Bounded(o: Options, p: Params)
    requires o.Valid()
  {
    CeilDiv(|p.prompt|, o.prefillChunk) <= MAX_IDLE_STEPS + 1
  }

  /** The engine serves exactly requests `ps[..n]`, numbered from `first`. */
  ghost predicate Session(m: Model, o: Options, st: State, first: nat, ps: seq<Params>, n: nat) {
    && o.Valid() && n <= |ps| && st.nextId == first + n
    && (forall i :: 0 <= i < |ps| ==> ps[i].id == first + i)
    && (forall i :: 0 <= i < n ==> Served(m, o, st, ps[i]))
    && forall i :: 0 <= i < |st.s.All()| ==> st.s.All()[i].p.id >= first
  }

  ghost predicate Served(m: Model, o: Options, st: State, p: Params)
    requires o.Valid()
  {
    && p.id in st.accepted && st.accepted[p.id] == p && CheckRequest(m, o, p).None?
    && (Present(Queue(st.s), p) || Bounded(o, p))
  }

  lemma SessionStarts(m: Model, o: Options, st: State, ps: seq<Params>)
    requires EngineInv(m, o, st) && st.s.Idle() && forall i :: 0 <= i < |ps| ==> ps[i].id == st.nextId + i
    ensures Session(m, o, st, st.nextId, ps, 0)
  {
  }

  lemma SessionGrows(m: Model, o: Options, st: State, first: nat, ps: seq<Params>, n: nat)
    requires EngineInv(m, o, st) && Session(m, o, st, first, ps, n) && n < |ps| && CheckRequest(m, o, ps[n]).None?
    ensures Session(m, o, Arrive(st, ps[n]), first, ps, n + 1)
    ensures HeadProgress(Arrive(st, ps[n]).s) == HeadProgress(st.s)
    ensures LogFor(st.log, first + n) == []
  {
    hide InvAt, CacheInv, VocabOk, Fcfs, AllTold, NoneLost, CheckRequest, Bounded;
    var st' := Arrive(st, ps[n]);
    EverythingAccepted(m, o, st);
    NothingSaid(st.log, first + n);
    assert Queue(st'.s) == Queue(st.s) + [NewReq(ps[n])];
    PresentAppend(Queue(st.s), NewReq(ps[n]), ps[n]);
    forall i | 0 <= i < n
      ensures Served(m, o, st', ps[i])
    {
      assert Served(m, o, st, ps[i]);
      if Present(Queue(st.s), ps[i]) {
        PresentAppend(Queue(st.s), NewReq(ps[n]), ps[i]);
      }
    }
    assert st'.s.All() == st.s.All() + [NewReq(ps[n])];
  }

  /** A closed story stays closed: nothing more is said, and the request stays out. */
  lemma ClosedStaysClosed(m: Model, o: Options, st: State, st': State, results: seq<StepResult>, id: RequestId)
    requires EngineInv(m, o, st) && EngineInv(m, o, st') && st'.log == st.log + results && st'.accepted == st.accepted
    requires id in st.accepted && !Present(st.s.All(), st.accepted[id])
    ensures !Present(st'.s.All(), st.accepted[id])
    ensures forall k :: 0 <= k < |results| ==> results[k].id != id
  {
    hide InvAt, CacheInv, VocabOk, Fcfs, Accounted;
    StoryProper(m, o, st.accepted, st.s.All(), st.log, id);
    StoryProper(m, o, st.accepted, st'.s.All(), st'.log, id);
    LogForConcat(st.log, results, id);
    var before, now := LogFor(st.log, id), LogFor(results, id);
    assert (before + now)[|before| - 1] == before[|before| - 1];
    assert now == [];
    forall k | 0 <= k < |results|
      ensures results[k].id != id
    {
      HeardIfSpoken(results, k, id);
    }
  }

  lemma HeardIfSpoken(log: seq<StepResult>, k: nat, id: RequestId)
    requires k < |log|
    ensures log[k].id == id ==> LogFor(log, id) != []
  {
    HeardInLog(log, k);
  }

  lemma NotOurs(m: Model, o: Options, st: State, first: nat, ps: seq<Params>, n: nat, id: RequestId)
    requires EngineInv(m, o, st) && Session(m, o, st, first, ps, n) && id in st.accepted && id < first
    ensures !Present(st.s.All(), st.accepted[id])
  {
    hide InvAt, CacheInv, VocabOk, Fcfs, AllTold, CheckRequest;
    assert st.accepted[id].id == id;
  }

  lemma CeilAtMost(n: nat, d: nat, k: nat)
    requires d > 0
    ensures CeilDiv(n, d) <= k <==> n <= k * d
  {
    var q, r := (n + d - 1) / d, (n + d - 1) % d;
    assert n + d - 1 == q * d + r;
    assert q <= k ==> q * d <= k * d;
    assert q >= k + 1 ==> q * d >= (k + 1) * d;
    assert (k + 1) * d == k * d + d;
  }

  /** One step of a session: nobody new, nobody lost, and whoever leaves the prompt
      queue was short enough. */
  lemma SessionSteps(m: Model, o: Options, st: State, st': State, results: seq<StepResult>,
                     first: nat, ps: seq<Params>, n: nat, idle: nat)
    requires EngineInv(m, o, st) && Session(m, o, st, first, ps, n) && !st.s.Idle()
    requires EngineStep(m, o, st, st', results) && EngineInv(m, o, st')
    requires HeadProgress(st.s) == idle * o.prefillChunk && idle <= MAX_IDLE_STEPS
    ensures Session(m, o, st', first, ps, n)
    ensures HeadMoves(o, st.s, st'.s, results)
  {
    hide EngineInv, EngineStep, CheckRequest, HeadMoves, Present;
    SilentStepsAdvanceTheHead(m, o, st, st', results);
    RunTheorems.TicksAcceptNobody(m, o, st, st', results);
    forall i | 0 <= i < n
      ensures Served(m, o, st', ps[i])
    {
      assert Served(m, o, st, ps[i]);
      StillServed(m, o, st, st', ps[i], idle);
    }
    forall i | 0 <= i < |st'.s.All()|
      ensures st'.s.All()[i].p.id >= first
    {
      NobodyNew(m, o, st, st', results, first, ps, n, i);
    }
  }

  lemma StillServed(m: Model, o: Options, st: State, st': State, p: Params, idle: nat)
    requires o.Valid() && Served(m, o, st, p) && QueueMoves(o, st.s, st'.s) && st'.accepted == st.accepted
    requires HeadProgress(st.s) == idle * o.prefillChunk && idle <= MAX_IDLE_STEPS
    ensures Served(m, o, st', p)
  {
    hide CheckRequest;
    if Present(Queue(st.s), p) && !Present(Queue(st'.s), p) {
      var i :| 0 <= i < |Queue(st.s)| && Queue(st.s)[i].p == p;
      assert |p.prompt| <= idle * o.prefillChunk + o.prefillChunk;
      assert (idle + 1) * o.prefillChunk == idle * o.prefillChunk + o.prefillChunk;
      CeilAtMost(|p.prompt|, o.prefillChunk, idle + 1);
    }
  }

  lemma NobodyNew(m: Model, o: Options, st: State, st': State, results: seq<StepResult>,
                  first: nat, ps: seq<Params>, n: nat, i: nat)
    requires EngineInv(m, o, st) && Session(m, o, st, first, ps, n) && EngineInv(m, o, st')
    requires st'.log == st.log + results && st'.accepted == st.accepted && i < |st'.s.All()|
    ensures st'.s.All()[i].p.id >= first
  {
    hide InvAt, CacheInv, VocabOk, Fcfs, NoneLost, Told, Session;
    var p := st'.s.All()[i].p;
    assert p.id in st'.accepted && st'.accepted[p.id] == p;
    assert Present(st'.s.All(), p);
    if p.id < first {
      hide Accounted, Present;
      NotOurs(m, o, st, first, ps, n, p.id);
      ClosedStaysClosed(m, o, st, st', results, p.id);
      assert false;
    }
  }

  /** Everything a step reports is about the session, and in order. */
  lemma ReportsAreOurs(m: Model, o: Options, st: State, st': State, results: seq<StepResult>,
                       first: nat, ps: seq<Params>, n: nat, k: nat)
    requires EngineInv(m, o, st) && Session(m, o, st, first, ps, n) && EngineInv(m, o, st')
    requires st'.log == st.log + results && st'.accepted == st.accepted && st'.nextId == st.nextId && k < |results|
    ensures first <= results[k].id < first + n && ProperStory(LogFor(st'.log, results[k].id))
  {
    hide InvAt, CacheInv, VocabOk, Fcfs, AllTold, NoneLost, Session;
    var id := results[k].id;
    assert st'.log[|st.log| + k] == results[k];
    assert id in st'.accepted && id < st'.nextId;
    assert st.nextId == first + n by { SessionEnds(m, o, st, first, ps, n); }
    hide Accounted;
    StoryProper(m, o, st'.accepted, st'.s.All(), st'.log, id);
    if id < first {
      NotOurs(m, o, st, first, ps, n, id);
      ClosedStaysClosed(m, o, st, st', results, id);
      assert false;
    }
  }

  lemma SessionEnds(m: Model, o: Options, st: State, first: nat, ps: seq<Params>, n: nat)
    requires Session(m, o, st, first, ps, n)
    ensures st.nextId == first + n && o.Valid() && n <= |ps|
  {
  }

  /** When the head has been silent too long, some request is too long. */
  lemma TooLong(m: Model, o: Options, st: State, first: nat, ps: seq<Params>, n: nat)
    requires EngineInv(m, o, st) && Session(m, o, st, first, ps, n) && st.s.prefill != []
    requires (MAX_IDLE_STEPS + 1) * o.prefillChunk < st.s.prefill[0].PromptLen()
    ensures exists i :: 0 <= i < n && !Bounded(o, ps[i])
  {
    hide InvAt, CacheInv, VocabOk, Fcfs, NoneLost, Told, CheckRequest;
    var p, k := st.s.prefill[0].p, |st.s.running|;
    assert st.s.All()[k].p == p;
    assert p.id in st.accepted && st.accepted[p.id] == p && first <= p.id < first + n;
    var i := p.id - first;
    assert Served(m, o, st, ps[i]) && ps[i] == p;
    CeilAtMost(|p.prompt|, o.prefillChunk, MAX_IDLE_STEPS + 1);
  }

  predicate IsOpen(log: seq<StepResult>, id: RequestId) {
    Reason(LogFor(log, id)) == Unfinished
  }

  /** Requests of the session that have not been told their last word. */
  function Open(log: seq<StepResult>, first: nat, n: nat): (k: nat)
    ensures k <= n
  {
    if n == 0 then 0 else Open(log, first, n - 1) + if IsOpen(log, first + n - 1) then 1 else 0
  }

  lemma {:induction false} OpenSame(log: seq<StepResult>, log': seq<StepResult>, first: nat, n: nat)
    requires forall id :: first <= id < first + n ==> (IsOpen(log, id) <==> IsOpen(log', id))
    ensures Open(log, first, n) == Open(log', first, n)
  {
    hide IsOpen;
    if n > 0 {
      OpenSame(log, log', first, n - 1);
    }
  }

  /** One request closing lowers the count by one. */
  lemma {:induction false} OpenCloses(log: seq<StepResult>, log': seq<StepResult>, first: nat, n: nat, j: RequestId)
    requires forall id :: first <= id < first + n && id != j ==> (IsOpen(log, id) <==> IsOpen(log', id))
    requires first <= j < first + n && IsOpen(log, j) && !IsOpen(log', j)
    ensures Open(log, first, n) == Open(log', first, n) + 1
  {
    hide IsOpen;
    if j == first + n - 1 {
      OpenSame(log, log', first, n - 1);
    } else {
      OpenCloses(log, log', first, n - 1, j);
    }
  }

  lemma {:induction false} OpenFinds(log: seq<StepResult>, first: nat, n: nat)
    ensures Open(log, first, n) == 0 <==> forall id :: first <= id < first + n ==> !IsOpen(log, id)
  {
    hide IsOpen;
    if n > 0 {
      OpenFinds(log, first, n - 1);
      if IsOpen(log, first + n - 1) {
        assert Open(log, first, n) > 0;
      }
    }
  }

  lemma OpenMeansPresent(m: Model, o: Options, st: State, first: nat, ps: seq<Params>, n: nat, i: nat)
    requires EngineInv(m, o, st) && Session(m, o, st, first, ps, n) && i < n
    ensures IsOpen(st.log, first + i) <==> Present(st.s.All(), ps[i])
  {
    hide InvAt, CacheInv, VocabOk, Fcfs, Accounted, CheckRequest;
    assert Served(m, o, st, ps[i]);
    StoryProper(m, o, st.accepted, st.s.All(), st.log, first + i);
  }

  lemma PresentIsOurs(m: Model, o: Options, st: State, first: nat, ps: seq<Params>, n: nat, k: nat) returns (i: nat)
    requires EngineInv(m, o, st) && Session(m, o, st, first, ps, n) && k < |st.s.All()|
    ensures i < n && ps[i] == st.s.All()[k].p && ps[i].id == first + i && Present(st.s.All(), ps[i])
  {
    hide InvAt, CacheInv, VocabOk, Fcfs, NoneLost, Told, CheckRequest;
    var p := st.s.All()[k].p;
    assert p.id in st.accepted && st.accepted[p.id] == p;
    i := p.id - first;
    assert Served(m, o, st, ps[i]) && ps[i] == p;
  }

  /** A session with nothing open is an idle engine, and conversely. */
  lemma NothingOpenIsIdle(m: Model, o: Options, st: State, first: nat, ps: seq<Params>, n: nat)
    requires EngineInv(m, o, st) && Session(m, o, st, first, ps, n)
    ensures Open(st.log, first, n) == 0 <==> st.s.Idle()
  {
    hide EngineInv, Session, IsOpen;
    OpenFinds(st.log, first, n);
    if st.s.Idle() {
      forall id | first <= id < first + n
        ensures !IsOpen(st.log, id)
      {
        SessionEnds(m, o, st, first, ps, n);
        OpenMeansPresent(m, o, st, first, ps, n, id - first);
      }
    } else {
      var i := PresentIsOurs(m, o, st, first, ps, n, 0);
      OpenMeansPresent(m, o, st, first, ps, n, i);
      assert IsOpen(st.log, first + i);
    }
  }

  /** At the end every request of the session is settled and was short enough. */
  lemma SessionSettled(m: Model, o: Options, st: State, first: nat, ps: seq<Params>, n: nat, i: nat)
    requires EngineInv(m, o, st) && Session(m, o, st, first, ps, n) && st.s.Idle() && i < n
    ensures Settled(m, o, ps[i], LogFor(st.log, ps[i].id)) && Bounded(o, ps[i]) && CheckRequest(m, o, ps[i]).None?
    ensures ps[i].id in st.accepted && st.accepted[ps[i].id] == ps[i]
  {
    hide InvAt, CacheInv, VocabOk, Fcfs, AllTold, CheckRequest, Settled;
    assert Served(m, o, st, ps[i]);
    assert st.accepted[ps[i].id] == ps[i];
  }
}
