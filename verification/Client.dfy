/** The synchronous client pump: submit under backpressure, step, collect. */
module Client {
  import opened Types
  import opened ForwardPass
  import opened SoloDecoding
  import opened SchedulerSpec
  import opened SchedulerInvariant
  import opened Accounting
  import opened EngineMachine
  import opened DrainBound
  import opened PumpFacts
  import opened Serving
  import RunTheorems

  class Completion {
    const requestId: RequestId
    var tokenIds: seq<TokenId>
    // `Unfinished` stands for the empty reason string.
    var finishReason: FinishReason

    constructor (id: RequestId)
      ensures requestId == id && tokenIds == [] && finishReason == Unfinished
    {
      requestId := id;
      tokenIds := [];
      finishReason := Unfinished;
    }

    /** Abort notices carry no token. */
    method Take(e: StepResult)
      modifies this
      ensures tokenIds == old(tokenIds) + if e.reason == Aborted then [] else [e.token]
      ensures finishReason == if e.finished then e.reason else old(finishReason)
    {
      if e.reason != Aborted {
        tokenIds := tokenIds + [e.token];
      }
      if e.finished {
        finishReason := e.reason;
      }
    }
  }

  /** One budget for all prompts, or one per prompt. */
  datatype MaxNewTokens = Shared(n: int) | PerPrompt(ns: seq<int>)
  {
    predicate Fits(prompts: nat) { Shared? || |ns| == prompts }
    function At(i: nat): int
      requires PerPrompt? ==> i < |ns|
    {
      if Shared? then n else ns[i]
    }
  }

  datatype GenerateError = BudgetMismatch | Refused(why: AddError) | NoProgress

  /** The request prompt `i` becomes. */
  function ParamsAt(first: nat, prompts: seq<seq<TokenId>>, budgets: MaxNewTokens, ignoreEos: bool, i: nat): Params
    requires i < |prompts| && budgets.Fits(|prompts|)
  {
    Params(first + i, prompts[i], budgets.At(i), ignoreEos, [])
  }

  function AllParams(first: nat, prompts: seq<seq<TokenId>>, budgets: MaxNewTokens, ignoreEos: bool): (ps: seq<Params>)
    requires budgets.Fits(|prompts|)
    ensures |ps| == |prompts|
    ensures forall i :: 0 <= i < |ps| ==> ps[i] == ParamsAt(first, prompts, budgets, ignoreEos, i)
  {
    seq(|prompts|, i requires 0 <= i < |prompts| => ParamsAt(first, prompts, budgets, ignoreEos, i))
  }

  /** Completion `i` holds what `log` says about request `first + i`. */
  ghost predicate Mirrors(cs: seq<Completion>, byId: map<RequestId, Completion>, first: nat, log: seq<StepResult>)
    reads cs
  {
    && (forall i :: 0 <= i < |cs| ==> Holds(cs[i], first + i, log))
    && (forall id :: id in byId <==> first <= id < first + |cs|)
    && forall id :: id in byId ==> byId[id] == cs[id - first]
  }

  ghost predicate Holds(c: Completion, id: RequestId, log: seq<StepResult>)
    reads c
  {
    c.requestId == id && c.tokenIds == Tokens(LogFor(log, id)) && c.finishReason == Reason(LogFor(log, id))
  }

  ghost predicate AllOurs(results: seq<StepResult>, log: seq<StepResult>, first: nat, n: nat) {
    forall k :: 0 <= k < |results| ==>
      first <= results[k].id < first + n && ProperStory(LogFor(log + results, results[k].id))
  }

  lemma ReadOne(log: seq<StepResult>, results: seq<StepResult>, k: nat, first: nat, n: nat)
    requires AllOurs(results, log, first, n) && k < |results|
    ensures log + results[..k + 1] == log + results[..k] + [results[k]]
    ensures first <= results[k].id < first + n && IsOpen(log + results[..k], results[k].id)
    ensures results[k].finished <==> results[k].reason != Unfinished
  {
    hide ProperStory, LogFor, Reason;
    var all, at := log + results, |log| + k;
    assert all[at] == results[k] && all[..at] == log + results[..k];
    UnfinishedWhenSpoken(all, at);
  }

  lemma TokensOfOne(h: seq<StepResult>, e: StepResult)
    ensures Tokens(h + [e]) == Tokens(h) + if e.reason == Aborted then [] else [e.token]
    ensures Reason(h + [e]) == e.reason
  {
    assert (h + [e])[..|h|] == h;
  }

  lemma OpenReason(log: seq<StepResult>, id: RequestId)
    requires IsOpen(log, id)
    ensures Reason(LogFor(log, id)) == Unfinished
  {
  }

  lemma HoldsAfter(log: seq<StepResult>, e: StepResult, id: RequestId)
    ensures e.id != id ==> LogFor(log + [e], id) == LogFor(log, id)
    ensures e.id == id ==>
              && Tokens(LogFor(log + [e], id)) == Tokens(LogFor(log, id)) + (if e.reason == Aborted then [] else [e.token])
              && Reason(LogFor(log + [e], id)) == e.reason
  {
    LogForOne(log, e, id);
    TokensOfOne(LogFor(log, id), e);
  }

  /** Reading one emission closes its request exactly when it is finished. */
  lemma OpenAfter(log: seq<StepResult>, e: StepResult, first: nat, n: nat)
    requires first <= e.id < first + n && IsOpen(log, e.id)
    ensures Open(log + [e], first, n) == Open(log, first, n) - if e.reason == Unfinished then 0 else 1
  {
    hide LogFor, Tokens, Reason, Open;
    forall id | id != e.id
      ensures IsOpen(log + [e], id) <==> IsOpen(log, id)
    {
      HoldsAfter(log, e, id);
    }
    HoldsAfter(log, e, e.id);
    if e.reason == Unfinished {
      OpenSame(log, log + [e], first, n);
    } else {
      OpenCloses(log, log + [e], first, n, e.id);
    }
  }

  /** One emission lands in its completion; neither error of the loop can occur. */
  method DeliverOne(e: StepResult, cs: seq<Completion>, byId: map<RequestId, Completion>, open: nat,
                    ghost first: nat, ghost log: seq<StepResult>) returns (unfinished: nat)
    requires Mirrors(cs, byId, first, log) && first <= e.id < first + |cs| && IsOpen(log, e.id)
    requires e.finished <==> e.reason != Unfinished
    requires open == Open(log, first, |cs|)
    modifies cs
    ensures Mirrors(cs, byId, first, log + [e]) && unfinished == Open(log + [e], first, |cs|)
  {
    hide Tokens, Reason, Open, LogFor, IsOpen;
    unfinished := open;
    if e.id !in byId {
      assert false; // an emission for an unknown request id
    }
    var c := byId[e.id];
    ghost var j := e.id - first;
    assert Holds(c, e.id, log);
    OpenReason(log, e.id);
    if c.finishReason != Unfinished {
      assert false; // an emission after the request finished
    }
    HoldsAfter(log, e, e.id);
    OpenAfter(log, e, first, |cs|);
    c.Take(e);
    if e.finished {
      unfinished := unfinished - 1;
    }
    assert Holds(cs[j], first + j, log + [e]);
    forall i | 0 <= i < |cs| && i != j
      ensures Holds(cs[i], first + i, log + [e])
    {
      assert old(Holds(cs[i], first + i, log)) && cs[i].requestId != c.requestId;
      HoldsAfter(log, e, first + i);
    }
  }

  /** Every emission of one step, in order; neither error of the loop can occur. */
  method Deliver(results: seq<StepResult>, cs: seq<Completion>, byId: map<RequestId, Completion>, open: nat,
                 ghost first: nat, ghost log: seq<StepResult>) returns (unfinished: nat)
    requires Mirrors(cs, byId, first, log) && open == Open(log, first, |cs|)
    requires AllOurs(results, log, first, |cs|)
    modifies cs
    ensures Mirrors(cs, byId, first, log + results) && unfinished == Open(log + results, first, |cs|)
  {
    hide Mirrors, Open, IsOpen, AllOurs;
    unfinished := open;
    assert log + results[..0] == log;
    for k := 0 to |results|
      invariant Mirrors(cs, byId, first, log + results[..k]) && unfinished == Open(log + results[..k], first, |cs|)
    {
      ReadOne(log, results, k, first, |cs|);
      unfinished := DeliverOne(results[k], cs, byId, unfinished, first, log + results[..k]);
    }
    assert results[..|results|] == results;
  }

  /** The pump's state between two iterations. */
  ghost predicate Pumping(engine: Engine, first: nat, ps: seq<Params>, cs: seq<Completion>,
                          byId: map<RequestId, Completion>, unfinished: nat, idle: nat)
    reads engine, engine.scheduler, engine.scheduler.allocator, engine.scheduler.allocator.outstanding,
      engine.scheduler.running, engine.scheduler.prefillQueue, engine.scheduler.waiting, engine.executor.pool, cs
  {
    && engine.Valid() && Session(engine.executor.m, engine.scheduler.o, engine.State(), first, ps, |cs|)
    && Mirrors(cs, byId, first, engine.log) && unfinished == Open(engine.log, first, |cs|)
    && HeadProgress(engine.State().s) == idle * engine.scheduler.o.prefillChunk && idle <= MAX_IDLE_STEPS
  }

  lemma ValidEngine(engine: Engine)
    requires engine.Valid()
    ensures EngineInv(engine.executor.m, engine.scheduler.o, engine.State())
  {
  }

  lemma FreshStory(log: seq<StepResult>, first: nat, n: nat)
    requires LogFor(log, first + n) == []
    ensures Open(log, first, n + 1) == Open(log, first, n) + 1
    ensures Tokens(LogFor(log, first + n)) == [] && Reason(LogFor(log, first + n)) == Unfinished
  {
  }

  /** Submit the next prompt; only the queue and the id counter move. */
  method AddNext(engine: Engine, prompt: seq<TokenId>, maxNew: int, ignoreEos: bool,
                 ghost first: nat, ghost ps: seq<Params>, ghost n: nat) returns (r: Result<RequestId, AddError>)
    requires engine.Valid() && n < |ps| && ps[n] == Params(first + n, prompt, maxNew, ignoreEos, [])
    requires Session(engine.executor.m, engine.scheduler.o, engine.State(), first, ps, n)
    modifies engine, engine.scheduler
    ensures engine.Valid() && engine.log == old(engine.log)
    ensures forall q :: q in engine.scheduler.Queued() ==> q in old(engine.scheduler.Queued()) || fresh(q)
    ensures match CheckRequest(engine.executor.m, engine.scheduler.o, ps[n])
            case Some(why) => r == Err(why)
            case None =>
              && r == Ok(first + n) && LogFor(engine.log, first + n) == []
              && Session(engine.executor.m, engine.scheduler.o, engine.State(), first, ps, n + 1)
              && HeadProgress(engine.State().s) == old(HeadProgress(engine.State().s))
  {
    hide EngineInv, Session, CheckRequest, LogFor, Engine.Valid;
    ValidEngine(engine);
    ghost var st := engine.State();
    SessionEnds(engine.executor.m, engine.scheduler.o, st, first, ps, n);
    r := engine.AddRequest(prompt, maxNew, ignoreEos, []);
    if r.Ok? {
      SessionGrows(engine.executor.m, engine.scheduler.o, st, first, ps, n);
    }
  }

  /** Submit the next prompt and start its completion. */
  method SubmitOne(engine: Engine, prompt: seq<TokenId>, maxNew: int, ignoreEos: bool,
                   cs: seq<Completion>, byId: map<RequestId, Completion>, unfinished: nat,
                   ghost first: nat, ghost ps: seq<Params>, ghost idle: nat)
    returns (refused: Option<AddError>, cs': seq<Completion>, byId': map<RequestId, Completion>)
    requires Pumping(engine, first, ps, cs, byId, unfinished, idle) && |cs| < |ps|
    requires ps[|cs|] == Params(first + |cs|, prompt, maxNew, ignoreEos, [])
    modifies engine, engine.scheduler
    ensures engine.Valid() && refused == CheckRequest(engine.executor.m, engine.scheduler.o, ps[|cs|])
    ensures refused.None? ==> Pumping(engine, first, ps, cs', byId', unfinished + 1, idle)
    ensures refused.None? ==> |cs'| == |cs| + 1 && cs' == cs + [cs'[|cs|]] && fresh(cs'[|cs|])
    ensures forall q :: q in engine.scheduler.Queued() ==> q in old(engine.scheduler.Queued()) || fresh(q)
  {
    hide EngineInv, Session, CheckRequest, Open, LogFor, Tokens, Reason, Engine.Valid, Mirrors, Engine.State;
    cs', byId' := cs, byId;
    var r := AddNext(engine, prompt, maxNew, ignoreEos, first, ps, |cs|);
    if r.Err? {
      return Some(r.error), cs, byId;
    }
    FreshStory(engine.log, first, |cs|);
    var c := new Completion(r.value);
    assert Mirrors(cs, byId, first, engine.log);
    MirrorsGrow(cs, byId, c, first, engine.log);
    refused, cs', byId' := None, cs + [c], byId[r.value := c];
  }

  lemma MirrorsGrow(cs: seq<Completion>, byId: map<RequestId, Completion>, c: Completion, first: nat, log: seq<StepResult>)
    requires Mirrors(cs, byId, first, log) && Holds(c, first + |cs|, log)
    ensures Mirrors(cs + [c], byId[first + |cs| := c], first, log)
  {
    hide Holds;
  }

  /** All a driver needs to know about one step of its session. */
  lemma StepFacts(m: Model, o: Options, st: State, st': State, results: seq<StepResult>,
                  first: nat, ps: seq<Params>, n: nat, idle: nat)
    requires EngineInv(m, o, st) && EngineInv(m, o, st') && EngineStep(m, o, st, st', results)
    requires Session(m, o, st, first, ps, n) && !st.s.Idle()
    requires HeadProgress(st.s) == idle * o.prefillChunk && idle <= MAX_IDLE_STEPS
    ensures Session(m, o, st', first, ps, n) && st'.log == st.log + results && AllOurs(results, st.log, first, n)
    ensures 0 <= TotalWork(o, st'.s.All()) < TotalWork(o, st.s.All())
    ensures HeadProgress(st'.s) == if results == [] then (idle + 1) * o.prefillChunk else 0
    ensures results == [] && idle == MAX_IDLE_STEPS ==> SomeTooLong(o, ps, n)
  {
    hide EngineInv, EngineStep, Session, Bounded, TotalWork, ProperStory;
    SessionSteps(m, o, st, st', results, first, ps, n, idle);
    SessionEnds(m, o, st, first, ps, n);
    EngineStepSpends(m, o, st, st', results);
    RunTheorems.TicksAcceptNobody(m, o, st, st', results);
    forall k | 0 <= k < |results|
      ensures first <= results[k].id < first + n && ProperStory(LogFor(st.log + results, results[k].id))
    {
      ReportsAreOurs(m, o, st, st', results, first, ps, n, k);
    }
    assert (idle + 1) * o.prefillChunk == idle * o.prefillChunk + o.prefillChunk;
    if results == [] && idle == MAX_IDLE_STEPS {
      TooLong(m, o, st', first, ps, n);
    }
  }

  /** A request of the session is longer than the idle tolerance allows. */
  ghost predicate SomeTooLong(o: Options, ps: seq<Params>, n: nat) {
    o.Valid() && exists i :: 0 <= i < n && i < |ps| && !Bounded(o, ps[i])
  }

  ghost function Work(engine: Engine): int
    reads engine, engine.scheduler, engine.scheduler.allocator,
      engine.scheduler.running, engine.scheduler.prefillQueue, engine.scheduler.waiting, engine.executor.pool
  {
    TotalWork(engine.scheduler.o, engine.State().s.All())
  }

  /** Step the engine within the session. */
  method StepEngine(engine: Engine, ghost first: nat, ghost ps: seq<Params>, ghost n: nat, ghost idle: nat)
    returns (results: seq<StepResult>)
    requires engine.Valid() && Session(engine.executor.m, engine.scheduler.o, engine.State(), first, ps, n)
    requires HeadProgress(engine.State().s) == idle * engine.scheduler.o.prefillChunk && idle <= MAX_IDLE_STEPS
    requires !engine.State().s.Idle()
    modifies engine, engine.scheduler, engine.scheduler.allocator, engine.scheduler.allocator.outstanding,
      engine.scheduler.Owned(), engine.executor.inputIds, engine.executor.positions, engine.executor.seqLens,
      engine.executor.blockTables, engine.executor.pool
    ensures engine.Valid() && Session(engine.executor.m, engine.scheduler.o, engine.State(), first, ps, n)
    ensures engine.log == old(engine.log) + results && AllOurs(results, old(engine.log), first, n)
    ensures 0 <= Work(engine) < old(Work(engine))
    ensures HeadProgress(engine.State().s) == if results == [] then (idle + 1) * engine.scheduler.o.prefillChunk else 0
    ensures results == [] && idle == MAX_IDLE_STEPS ==> SomeTooLong(engine.scheduler.o, ps, n)
    ensures forall q :: q in engine.scheduler.Queued() ==> q in old(engine.scheduler.Queued())
  {
    hide EngineInv, EngineStep, Session, Engine.Valid, AllOurs, TotalWork, SomeTooLong;
    ghost var st := engine.State();
    ValidEngine(engine);
    results := engine.Step();
    ValidEngine(engine);
    StepFacts(engine.executor.m, engine.scheduler.o, st, engine.State(), results, first, ps, n, idle);
  }

  /** One step and the delivery of what it reports. */
  method StepOnce(engine: Engine, cs: seq<Completion>, byId: map<RequestId, Completion>, unfinished: nat, idle: nat,
                  ghost first: nat, ghost ps: seq<Params>) returns (unfinished': nat, idle': nat)
    requires Pumping(engine, first, ps, cs, byId, unfinished, idle) && !engine.State().s.Idle()
    modifies engine, engine.scheduler, engine.scheduler.allocator, engine.scheduler.allocator.outstanding,
      engine.scheduler.Owned(), engine.executor.inputIds, engine.executor.positions, engine.executor.seqLens,
      engine.executor.blockTables, engine.executor.pool, cs
    ensures engine.Valid() && (idle' > MAX_IDLE_STEPS ==> SomeTooLong(engine.scheduler.o, ps, |cs|))
    ensures idle' <= MAX_IDLE_STEPS ==> Pumping(engine, first, ps, cs, byId, unfinished', idle')
    ensures 0 <= Work(engine) < old(Work(engine))
    ensures forall q :: q in engine.scheduler.Queued() ==> q in old(engine.scheduler.Queued())
  {
    hide Session, Open, Engine.Valid, Mirrors, AllOurs, Work, SomeTooLong, Engine.State, HeadProgress;
    ghost var log := engine.log;
    var results := StepEngine(engine, first, ps, |cs|, idle);
    assert Mirrors(cs, byId, first, log);
    if results == [] {
      assert engine.log == log;
      return unfinished, idle + 1;
    }
    unfinished' := Deliver(results, cs, byId, unfinished, first, log);
    idle' := 0;
  }

  /** Prompt `i` can be served: accepted, and within the idle tolerance. */
  ghost predicate Servable(m: Model, o: Options, p: Params) {
    o.Valid() && CheckRequest(m, o, p).None? && Bounded(o, p)
  }

  /** On an engine whose longest prompt is within the tolerance, acceptance is enough. */
  lemma AcceptedIsServable(m: Model, o: Options, p: Params)
    requires o.Valid() && CheckRequest(m, o, p).None? && CeilDiv(o.maxSeqLen, o.prefillChunk) - 1 <= MAX_IDLE_STEPS
    ensures Servable(m, o, p)
  {
    CeilGrows(|p.prompt|, o.maxSeqLen, o.prefillChunk);
  }

  lemma CeilGrows(a: nat, b: nat, d: nat)
    requires a <= b && d > 0
    ensures CeilDiv(a, d) <= CeilDiv(b, d)
  {
    var x, y := a + d - 1, b + d - 1;
    var p, q := x / d, y / d;
    assert x == p * d + x % d && y == q * d + y % d;
    assert p > q ==> p * d >= (q + 1) * d;
  }

  /** The tolerance is not beyond every healthy engine: this prompt is accepted, and
      its 4097 silent slices, each one progress, end `Generate` with an error. */
  lemma AcceptedButTooLong(m: Model, o: Options, p: Params)
    requires m.vocab > 0 && o == Options(1, 1, 4099, ReserveFull, 0.0, [], 300)
    requires p == Params(1, seq(4098, _ => 0), 1, true, [])
    ensures o.Valid() && CheckRequest(m, o, p).None? && !Servable(m, o, p)
  {
  }

  /** One token less and the 4096 silent slices are within it. */
  lemma AcceptedAtTheTolerance(m: Model, o: Options, p: Params)
    requires m.vocab > 0 && o == Options(1, 1, 4099, ReserveFull, 0.0, [], 300)
    requires p == Params(1, seq(4097, _ => 0), 1, true, [])
    ensures o.Valid() && Servable(m, o, p)
  {
  }

  /** Completion `c` is what decoding `p` alone gives, up to a watermark eviction. */
  ghost predicate Answers(c: Completion, m: Model, o: Options, p: Params, log: seq<StepResult>)
    reads c
  {
    && c.requestId == p.id && Settled(m, o, p, LogFor(log, p.id))
    && c.tokenIds == Tokens(LogFor(log, p.id)) && c.finishReason == Reason(LogFor(log, p.id))
  }

  lemma AllAnswered(m: Model, o: Options, st: State, first: nat, ps: seq<Params>, cs: seq<Completion>,
                    byId: map<RequestId, Completion>)
    requires EngineInv(m, o, st) && Session(m, o, st, first, ps, |cs|) && |cs| == |ps| && st.s.Idle()
    requires Mirrors(cs, byId, first, st.log)
    ensures forall i :: 0 <= i < |ps| ==> Servable(m, o, ps[i]) && Answers(cs[i], m, o, ps[i], st.log)
    ensures forall i :: 0 <= i < |ps| ==> ps[i].id in st.accepted && st.accepted[ps[i].id] == ps[i]
  {
    hide EngineInv, Settled, CheckRequest, Bounded, LogFor, Tokens, Reason;
    forall i | 0 <= i < |ps|
      ensures Servable(m, o, ps[i]) && Answers(cs[i], m, o, ps[i], st.log)
      ensures ps[i].id in st.accepted && st.accepted[ps[i].id] == ps[i]
    {
      SessionSettled(m, o, st, first, ps, |cs|, i);
      assert Holds(cs[i], first + i, st.log);
    }
  }

  lemma PumpStarts(engine: Engine, ps: seq<Params>)
    requires engine.Valid() && engine.State().s.Idle()
    requires forall i :: 0 <= i < |ps| ==> ps[i].id == engine.nextRequestId + i
    ensures Pumping(engine, engine.nextRequestId, ps, [], map[], 0, 0)
  {
    hide EngineInv, Engine.Valid;
    ValidEngine(engine);
    SessionStarts(engine.executor.m, engine.scheduler.o, engine.State(), ps);
  }

  /** Something is in flight whenever something is open, or the queue is full. */
  lemma InFlight(engine: Engine, first: nat, ps: seq<Params>, cs: seq<Completion>, byId: map<RequestId, Completion>,
                 unfinished: nat, idle: nat)
    requires Pumping(engine, first, ps, cs, byId, unfinished, idle)
    ensures unfinished == 0 <==> engine.State().s.Idle()
    ensures !engine.HasCapacity() ==> !engine.State().s.Idle()
    ensures engine.Valid() && unfinished <= |cs|
  {
    hide EngineInv, Session, Engine.Valid, Mirrors, Open;
    ValidEngine(engine);
    NothingOpenIsIdle(engine.executor.m, engine.scheduler.o, engine.State(), first, ps, |cs|);
  }

  /** The first `n` prompts are accepted. */
  ghost predicate AcceptedBefore(m: Model, o: Options, ps: seq<Params>, n: nat) {
    forall j :: 0 <= j < n && j < |ps| ==> CheckRequest(m, o, ps[j]).None?
  }

  /** `why` is what the first prompt to be refused is refused for. */
  ghost predicate FirstRefused(m: Model, o: Options, ps: seq<Params>, why: AddError) {
    exists i :: 0 <= i < |ps| && CheckRequest(m, o, ps[i]) == Some(why) && AcceptedBefore(m, o, ps, i)
  }

  /** An accepted prompt exceeds the idle tolerance, and none before it is refused. */
  ghost predicate AcceptedTooLong(m: Model, o: Options, ps: seq<Params>) {
    o.Valid() && exists i :: 0 <= i < |ps| && AcceptedBefore(m, o, ps, i + 1) && !Bounded(o, ps[i])
  }

  lemma AcceptedSoFar(engine: Engine, first: nat, ps: seq<Params>, cs: seq<Completion>, byId: map<RequestId, Completion>,
                      unfinished: nat, idle: nat)
    requires Pumping(engine, first, ps, cs, byId, unfinished, idle)
    ensures AcceptedBefore(engine.executor.m, engine.scheduler.o, ps, |cs|) && |cs| <= |ps|
  {
    hide CheckRequest, Engine.Valid, Mirrors, Open, Bounded;
    forall j | 0 <= j < |cs|
      ensures CheckRequest(engine.executor.m, engine.scheduler.o, ps[j]).None?
    {
      assert Served(engine.executor.m, engine.scheduler.o, engine.State(), ps[j]);
    }
  }

  lemma SilentTooLong(m: Model, o: Options, ps: seq<Params>, n: nat)
    requires SomeTooLong(o, ps, n) && AcceptedBefore(m, o, ps, n)
    ensures AcceptedTooLong(m, o, ps)
  {
    hide Bounded, CheckRequest;
    var i :| 0 <= i < n && i < |ps| && !Bounded(o, ps[i]);
    assert AcceptedBefore(m, o, ps, i + 1);
  }

  /** Submit while the engine grants room. */
  method SubmitWhileRoom(engine: Engine, prompts: seq<seq<TokenId>>, budgets: MaxNewTokens, ignoreEos: bool,
                         cs: seq<Completion>, byId: map<RequestId, Completion>, unfinished: nat,
                         ghost first: nat, ghost ps: seq<Params>, ghost idle: nat)
    returns (refused: Option<AddError>, cs': seq<Completion>, byId': map<RequestId, Completion>, unfinished': nat)
    requires Pumping(engine, first, ps, cs, byId, unfinished, idle) && |cs| <= |prompts|
    requires budgets.Fits(|prompts|) && ps == AllParams(first, prompts, budgets, ignoreEos)
    modifies engine, engine.scheduler
    ensures refused.Some? ==> engine.Valid() && FirstRefused(engine.executor.m, engine.scheduler.o, ps, refused.value)
    ensures refused.None? ==> Pumping(engine, first, ps, cs', byId', unfinished', idle)
    ensures refused.None? ==> |cs| <= |cs'| <= |prompts| && unfinished' == unfinished + |cs'| - |cs|
    ensures refused.None? ==> |cs'| == |prompts| || !engine.HasCapacity()
    ensures cs <= cs' && forall i :: |cs| <= i < |cs'| ==> fresh(cs'[i])
    ensures refused.None? && |cs'| == |cs| ==> Work(engine) == old(Work(engine))
    ensures forall q :: q in engine.scheduler.Queued() ==> q in old(engine.scheduler.Queued()) || fresh(q)
  {
    hide Pumping, CheckRequest, AllParams, Work, Engine.State, AcceptedBefore, Engine.Valid;
    refused, cs', byId', unfinished' := None, cs, byId, unfinished;
    while |cs'| < |prompts| && engine.HasCapacity()
      invariant refused.None? && Pumping(engine, first, ps, cs', byId', unfinished', idle)
      invariant |cs| <= |cs'| <= |prompts| && unfinished' == unfinished + |cs'| - |cs|
      invariant cs <= cs' && forall i :: |cs| <= i < |cs'| ==> fresh(cs'[i])
      invariant |cs'| == |cs| ==> Work(engine) == old(Work(engine))
      invariant forall q :: q in engine.scheduler.Queued() ==> q in old(engine.scheduler.Queued()) || fresh(q)
      decreases |prompts| - |cs'|
    {
      var next := |cs'|;
      assert ps[next] == ParamsAt(first, prompts, budgets, ignoreEos, next);
      AcceptedSoFar(engine, first, ps, cs', byId', unfinished', idle);
      var more, byMore;
      refused, more, byMore :=
        SubmitOne(engine, prompts[next], budgets.At(next), ignoreEos, cs', byId', unfinished', first, ps, idle);
      if refused.Some? {
        return refused, cs', byId', unfinished';
      }
      cs', byId', unfinished' := more, byMore, unfinished' + 1;
    }
  }

  /** Run prompts to completion on an idle engine. It terminates; it fails exactly
      when some prompt is refused or so long that its silent slices exceed the
      tolerance, and says which; otherwise completion `i` is the answer to prompt `i`.
      The engine stays usable either way. */
  method Generate(engine: Engine, prompts: seq<seq<TokenId>>, budgets: MaxNewTokens, ignoreEos: bool)
    returns (r: Result<seq<Completion>, GenerateError>)
    requires engine.Valid() && engine.State().s.Idle()
    modifies engine, engine.scheduler, engine.scheduler.allocator, engine.scheduler.allocator.outstanding,
      engine.executor.inputIds, engine.executor.positions, engine.executor.seqLens,
      engine.executor.blockTables, engine.executor.pool
    ensures engine.Valid()
    ensures budgets.PerPrompt? && |budgets.ns| != |prompts| <==> r == Err(BudgetMismatch)
    ensures budgets.Fits(|prompts|) ==>
              var ps := AllParams(old(engine.nextRequestId), prompts, budgets, ignoreEos);
              && (r.Ok? <==> AllServable(engine, ps))
              && (r.Ok? ==> engine.State().s.Idle() && AllAnswers(engine, r.value, ps))
              && (r.Err? && r.error.Refused? ==> FirstRefused(engine.executor.m, engine.scheduler.o, ps, r.error.why))
              && (r.Err? && r.error.NoProgress? ==> AcceptedTooLong(engine.executor.m, engine.scheduler.o, ps))
    ensures r.Ok? ==> |r.value| == |prompts| && forall i :: 0 <= i < |prompts| ==>
              Fulfilled(engine, r.value[i], prompts[i], if budgets.Shared? then budgets.n else budgets.ns[i], ignoreEos)
  {
    hide EngineInv, Engine.Valid, Pumping, AllServable, AllAnswers, CheckRequest, Work, Engine.State, AllParams, SomeTooLong,
      FirstRefused, AcceptedTooLong, AcceptedBefore, Fulfilled;
    if !budgets.Fits(|prompts|) {
      return Err(BudgetMismatch);
    }
    ghost var first := engine.nextRequestId;
    ghost var ps := AllParams(first, prompts, budgets, ignoreEos);
    var completions, byId := [], map[];
    var unfinished: nat, idle: nat := 0, 0;
    PumpStarts(engine, ps);
    assert engine.scheduler.Queued() == [] by { IdleQueue(engine); }
    while |completions| < |prompts| || unfinished > 0
      invariant |completions| <= |prompts| && Pumping(engine, first, ps, completions, byId, unfinished, idle)
      invariant forall q :: q in engine.scheduler.Queued() ==> fresh(q)
      invariant forall i :: 0 <= i < |completions| ==> fresh(completions[i])
      decreases |prompts| - |completions|, Work(engine)
    {
      InFlight(engine, first, ps, completions, byId, unfinished, idle);
      var refused;
      refused, completions, byId, unfinished :=
        SubmitWhileRoom(engine, prompts, budgets, ignoreEos, completions, byId, unfinished, first, ps, idle);
      if refused.Some? {
        RefusedIsUnservable(engine, ps, refused.value);
        return Err(Refused(refused.value));
      }
      InFlight(engine, first, ps, completions, byId, unfinished, idle);
      AcceptedSoFar(engine, first, ps, completions, byId, unfinished, idle);
      unfinished, idle := StepOnce(engine, completions, byId, unfinished, idle, first, ps);
      if idle > MAX_IDLE_STEPS {
        TooLongIsUnservable(engine, ps, |completions|);
        SilentTooLong(engine.executor.m, engine.scheduler.o, ps, |completions|);
        return Err(NoProgress);
      }
    }
    Finished(engine, first, ps, completions, byId, idle);
    AllFulfilled(engine, first, prompts, budgets, ignoreEos, completions);
    r := Ok(completions);
  }

  ghost predicate AllServable(engine: Engine, ps: seq<Params>) {
    forall i :: 0 <= i < |ps| ==> Servable(engine.executor.m, engine.scheduler.o, ps[i])
  }

  ghost predicate AllAnswers(engine: Engine, cs: seq<Completion>, ps: seq<Params>)
    reads engine, cs
  {
    && |cs| == |ps|
    && (forall i :: 0 <= i < |ps| ==> Answers(cs[i], engine.executor.m, engine.scheduler.o, ps[i], engine.log))
    && forall i :: 0 <= i < |ps| ==> ps[i].id in engine.accepted && engine.accepted[ps[i].id] == ps[i]
  }

  lemma RefusedIsUnservable(engine: Engine, ps: seq<Params>, why: AddError)
    requires FirstRefused(engine.executor.m, engine.scheduler.o, ps, why)
    ensures !AllServable(engine, ps)
  {
    hide CheckRequest, Bounded, AcceptedBefore;
    var i :| 0 <= i < |ps| && CheckRequest(engine.executor.m, engine.scheduler.o, ps[i]) == Some(why);
    assert !Servable(engine.executor.m, engine.scheduler.o, ps[i]);
  }

  lemma TooLongIsUnservable(engine: Engine, ps: seq<Params>, n: nat)
    requires SomeTooLong(engine.scheduler.o, ps, n)
    ensures !AllServable(engine, ps)
  {
    hide CheckRequest, Bounded;
    var i :| 0 <= i < n && i < |ps| && !Bounded(engine.scheduler.o, ps[i]);
    assert !Servable(engine.executor.m, engine.scheduler.o, ps[i]);
  }

  lemma IdleQueue(engine: Engine)
    requires engine.Valid() && engine.State().s.Idle()
    ensures engine.scheduler.Queued() == []
  {
    hide EngineInv, Engine.Valid;
    assert |engine.State().s.All()| == |engine.scheduler.Queued()|;
  }

  lemma Finished(engine: Engine, first: nat, ps: seq<Params>, cs: seq<Completion>, byId: map<RequestId, Completion>, idle: nat)
    requires Pumping(engine, first, ps, cs, byId, 0, idle) && |cs| == |ps|
    ensures engine.Valid() && engine.State().s.Idle() && AllServable(engine, ps) && AllAnswers(engine, cs, ps)
  {
    hide EngineInv, Session, Engine.Valid, Mirrors, Open, Answers, Servable;
    ValidEngine(engine);
    NothingOpenIsIdle(engine.executor.m, engine.scheduler.o, engine.State(), first, ps, |cs|);
    AllAnswered(engine.executor.m, engine.scheduler.o, engine.State(), first, ps, cs, byId);
  }

  // ------------------------------------------------------------ in plain words

  /** What a client that scripts nothing gets: the greedy continuation of its prompt,
      cut by the first EOS unless ignored, else by its budget, or by an eviction. */
  ghost predicate AnswerText(m: Model, o: Options, p: Params, tokens: seq<TokenId>, reason: FinishReason)
    requires p.prompt != []
  {
    var n := |tokens|;
    && tokens == Greedy(m, p, n)
    && (forall k :: 0 <= k < n - 1 ==> p.ignoreEos || tokens[k] !in o.eos)
    && match reason
       case Eos => 1 <= n <= p.maxNew && !p.ignoreEos && tokens[n - 1] in o.eos
       case Length => n == p.maxNew >= 1 && (p.ignoreEos || tokens[n - 1] !in o.eos)
       case Aborted => o.policy == Watermark && n < p.maxNew && (n > 0 ==> p.ignoreEos || tokens[n - 1] !in o.eos)
       case Unfinished => false
  }

  lemma {:induction false} TokensAt(h: seq<StepResult>)
    requires forall k :: 0 <= k < |h| ==> h[k].reason != Aborted
    ensures |Tokens(h)| == |h| && forall k :: 0 <= k < |h| ==> Tokens(h)[k] == h[k].token
  {
    if h != [] {
      TokensAt(h[..|h| - 1]);
    }
  }

  /** Unscripted emissions spell the reference itself. */
  lemma SpelledOut(m: Model, o: Options, p: Params, h: seq<StepResult>)
    requires p.prompt != [] && p.forced == []
    requires forall k :: 0 <= k < |h| ==> h[k].reason != Aborted && SaidAt(m, o.eos, p, h[k], k)
    ensures Tokens(h) == Greedy(m, p, |h|)
    ensures forall k :: 0 <= k < |h| ==>
              && (h[k].reason == Eos <==> !p.ignoreEos && Tokens(h)[k] in o.eos)
              && (h[k].reason == Length <==> !(!p.ignoreEos && Tokens(h)[k] in o.eos) && k + 1 >= p.maxNew)
  {
    hide Greedy, Tokens, Sample;
    TokensAt(h);
    forall k | 0 <= k < |h|
      ensures Greedy(m, p, |h|)[k] == h[k].token && Greedy(m, p, k + 1)[k] == h[k].token
    {
      assert SaidAt(m, o.eos, p, h[k], k);
      GreedyContinues(m, p, |h|, k);
      GreedyPrefix(m, p, |h|, k);
      GreedyContinues(m, p, k + 1, k);
      GreedyPrefix(m, p, k + 1, k);
    }
  }

  lemma WholeText(m: Model, o: Options, p: Params, whole: seq<StepResult>)
    requires p.prompt != [] && p.forced == [] && p.maxNew > 0 && whole == Stream(m, o.eos, p, [])
    ensures AnswerText(m, o, p, Tokens(whole), Reason(whole))
  {
    RunTheorems.WholeExplained(m, o.eos, p, whole);
    StreamShape(m, o.eos, p, []);
    hide Stream, SaidAt, Greedy, Tokens;
    SpelledOut(m, o, p, whole);
  }

  /** Text that no stop has ended. */
  lemma OpenText(m: Model, o: Options, p: Params, h: seq<StepResult>)
    requires p.prompt != [] && p.forced == []
    requires forall k :: 0 <= k < |h| ==> h[k].reason == Unfinished && SaidAt(m, o.eos, p, h[k], k)
    ensures Tokens(h) == Greedy(m, p, |h|) && forall k :: 0 <= k < |h| ==> p.ignoreEos || Tokens(h)[k] !in o.eos
  {
    hide SaidAt, Greedy, Tokens;
    SpelledOut(m, o, p, h);
  }

  /** Before its last emission a solo run says nothing final. */
  lemma BeforeTheEnd(m: Model, o: Options, p: Params, whole: seq<StepResult>, n: nat)
    requires p.prompt != [] && p.maxNew > 0 && whole == Stream(m, o.eos, p, []) && n < |whole|
    ensures n < p.maxNew
    ensures forall k :: 0 <= k < n ==> whole[..n][k].reason == Unfinished && SaidAt(m, o.eos, p, whole[..n][k], k)
  {
    RunTheorems.WholeExplained(m, o.eos, p, whole);
    StreamShape(m, o.eos, p, []);
    hide Stream, SaidAt;
    forall k | 0 <= k < n
      ensures whole[..n][k].reason == Unfinished && SaidAt(m, o.eos, p, whole[..n][k], k)
    {
      assert whole[..n][k] == whole[k];
    }
  }

  lemma CutText(m: Model, o: Options, p: Params, whole: seq<StepResult>, n: nat, h: seq<StepResult>)
    requires p.prompt != [] && p.forced == [] && p.maxNew > 0 && whole == Stream(m, o.eos, p, [])
    requires o.policy == Watermark && n < |whole| && h == whole[..n] + [AbortNotice(p.id)]
    ensures AnswerText(m, o, p, Tokens(h), Reason(h))
  {
    BeforeTheEnd(m, o, p, whole, n);
    hide Stream, SaidAt, Greedy, Tokens;
    OpenText(m, o, p, whole[..n]);
    TokensOfOne(whole[..n], AbortNotice(p.id));
    assert Tokens(whole[..n]) + [] == Tokens(whole[..n]);
  }

  lemma AnswerSpelledOut(c: Completion, m: Model, o: Options, p: Params, log: seq<StepResult>)
    requires Answers(c, m, o, p, log) && p.forced == [] && p.maxNew > 0
    ensures p.prompt != [] && AnswerText(m, o, p, c.tokenIds, c.finishReason)
  {
    hide Stream, AnswerText, Tokens, Reason, LogFor;
    var h, whole := LogFor(log, p.id), Stream(m, o.eos, p, []);
    if h == whole {
      WholeText(m, o, p, whole);
    } else {
      var n: nat :| n < |whole| && h == whole[..n] + [AbortNotice(p.id)];
      CutText(m, o, p, whole, n, h);
    }
  }

  /** The engine accepted exactly this prompt with exactly this budget, unscripted, and
      the completion holds its text: as many tokens as asked for when EOS is ignored
      and nothing can be evicted. */
  ghost predicate Fulfilled(engine: Engine, c: Completion, prompt: seq<TokenId>, budget: int, ignoreEos: bool)
    reads engine, c
  {
    && c.requestId in engine.accepted && prompt != []
    && engine.accepted[c.requestId] == Params(c.requestId, prompt, budget, ignoreEos, [])
    && AnswerText(engine.executor.m, engine.scheduler.o, engine.accepted[c.requestId], c.tokenIds, c.finishReason)
    && (ignoreEos && engine.scheduler.o.policy == ReserveFull ==> |c.tokenIds| == budget && c.finishReason == Length)
  }

  lemma BudgetAsked(m: Model, o: Options, p: Params)
    requires CheckRequest(m, o, p).None?
    ensures p.maxNew > 0
  {
  }

  lemma AllFulfilled(engine: Engine, first: nat, prompts: seq<seq<TokenId>>, budgets: MaxNewTokens, ignoreEos: bool,
                     cs: seq<Completion>)
    requires budgets.Fits(|prompts|)
    requires AllServable(engine, AllParams(first, prompts, budgets, ignoreEos))
    requires AllAnswers(engine, cs, AllParams(first, prompts, budgets, ignoreEos))
    ensures |cs| == |prompts| && forall i :: 0 <= i < |prompts| ==>
              Fulfilled(engine, cs[i], prompts[i], if budgets.Shared? then budgets.n else budgets.ns[i], ignoreEos)
  {
    hide AnswerText, CheckRequest, Bounded, LogFor, Tokens, Reason, Settled;
    var ps := AllParams(first, prompts, budgets, ignoreEos);
    forall i | 0 <= i < |prompts|
      ensures Fulfilled(engine, cs[i], prompts[i], if budgets.Shared? then budgets.n else budgets.ns[i], ignoreEos)
    {
      assert Servable(engine.executor.m, engine.scheduler.o, ps[i]);
      BudgetAsked(engine.executor.m, engine.scheduler.o, ps[i]);
      AnswerSpelledOut(cs[i], engine.executor.m, engine.scheduler.o, ps[i], engine.log);
      TextLength(engine.executor.m, engine.scheduler.o, ps[i], cs[i].tokenIds, cs[i].finishReason);
    }
  }

  lemma TextLength(m: Model, o: Options, p: Params, tokens: seq<TokenId>, reason: FinishReason)
    requires p.prompt != [] && AnswerText(m, o, p, tokens, reason)
    ensures p.ignoreEos && o.policy == ReserveFull ==> |tokens| == p.maxNew && reason == Length
  {
  }

  /** Under worst-case reservation an answer is the whole solo stream. */
  lemma AnswersAreSolo(c: Completion, m: Model, o: Options, p: Params, log: seq<StepResult>)
    requires Answers(c, m, o, p, log) && o.policy == ReserveFull
    ensures p.prompt != []
    ensures c.tokenIds == Tokens(Stream(m, o.eos, p, [])) && c.finishReason == Reason(Stream(m, o.eos, p, []))
  {
    hide Stream;
  }
}
