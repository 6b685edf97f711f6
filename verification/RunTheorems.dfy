/** What holds over whole runs: any interleaving of arrivals and steps, any
    options, any device that does what its rows ask. */
module RunTheorems {
  import opened Types
  import opened ForwardPass
  import opened SoloDecoding
  import opened SchedulerSpec
  import opened Ledger
  import opened SchedulerInvariant
  import opened PlanTheorems
  import opened AdmissionTheorems
  import opened CompleteStepInvariant
  import opened StepExactness
  import opened Accounting
  import opened EngineMachine

  datatype Event = Submit(p: Params) | Tick(results: seq<StepResult>)

  ghost predicate Next(m: Model, o: Options, st: State, ev: Event, st': State) {
    match ev
    case Submit(p) => ArrivalStep(m, o, st, p, st')
    case Tick(results) => EngineStep(m, o, st, st', results)
  }

  /** States visited from an idle engine over a pool with arbitrary contents. */
  ghost predicate IsRun(m: Model, o: Options, states: seq<State>, events: seq<Event>) {
    && m.Valid() && o.Valid()
    && |states| == |events| + 1
    && states[0] == InitialState(o, states[0].kv)
    && forall i :: 0 <= i < |events| ==> Next(m, o, states[i], events[i], states[i + 1])
  }

  lemma NextKeepsEngineInv(m: Model, o: Options, st: State, ev: Event, st': State)
    requires EngineInv(m, o, st) && Next(m, o, st, ev, st')
    ensures EngineInv(m, o, st')
  {
    hide EngineInv, EngineStep;
    match ev
    case Submit(p) =>
      if CheckRequest(m, o, p).None? {
        ArrivalKeepsEngineInv(m, o, st, p);
      }
    case Tick(results) => StepKeepsEngineInv(m, o, st, st', results);
  }

  /** The invariant holds in every state of every run. */
  lemma {:induction false} Reachable(m: Model, o: Options, states: seq<State>, events: seq<Event>, i: nat)
    requires IsRun(m, o, states, events) && i < |states|
    ensures EngineInv(m, o, states[i])
  {
    hide EngineInv, Next;
    if i == 0 {
      InitialEngineInv(m, o, states[0].kv);
    } else {
      Reachable(m, o, states, events, i - 1);
      NextKeepsEngineInv(m, o, states[i - 1], events[i - 1], states[i]);
    }
  }

  /** Who is accepted at the engine's edge: every token in the vocabulary, a prompt,
      a positive budget, both within the length limit, and room in an empty pool. */
  lemma RequestAcceptedIff(m: Model, o: Options, p: Params)
    requires o.Valid()
    ensures CheckRequest(m, o, p).None? <==>
              && (forall i :: 0 <= i < |p.prompt| ==> 0 <= p.prompt[i] < m.vocab)
              && (forall i :: 0 <= i < |p.forced| ==> 0 <= p.forced[i] < m.vocab)
              && p.prompt != [] && p.maxNew > 0 && |p.prompt| + p.maxNew <= o.maxSeqLen && FitsEmptyPool(o, p)
    ensures CheckRequest(m, o, p) == Some(PromptTokenOutsideVocab) <==>
              !(forall i :: 0 <= i < |p.prompt| ==> 0 <= p.prompt[i] < m.vocab)
    ensures CheckRequest(m, o, p) == Some(ForcedTokenOutsideVocab) <==>
              && (forall i :: 0 <= i < |p.prompt| ==> 0 <= p.prompt[i] < m.vocab)
              && !(forall i :: 0 <= i < |p.forced| ==> 0 <= p.forced[i] < m.vocab)
  {
    hide Validate, FitsEmptyPool, CanAdmit;
    AcceptedIff(o, p);
  }

  /** In every state of every run promises are exact, and the next decode plan evicts
      no more than it must. */
  lemma PromisesAndEvictionsAreExact(m: Model, o: Options, states: seq<State>, events: seq<Event>, i: nat, k: nat)
    requires IsRun(m, o, states, events) && i < |states|
    ensures var s := states[i].s;
            && (k < |s.Live()| ==>
                  var r := s.Live()[k];
                  if o.policy == ReserveFull then |r.table| + r.reserved == BlocksForTokens(|r.p.prompt| + r.p.maxNew)
                  else if k < |s.running| then r.reserved == 0
                  else |r.table| + r.reserved == BlocksForTokens(|r.p.prompt|))
            && (o.policy == Watermark && PlanStep(o, s).work.DecodeBatch? ==> LargestFit(s, 0, |PlanStep(o, s).s.running|))
  {
    hide Accounted, CacheInv, PlanStep, InvAt, LargestFit, VocabOk, Fcfs;
    Reachable(m, o, states, events, i);
    if k < |states[i].s.Live()| {
      PromiseIsExact(o, states[i].s, k);
    }
    if o.policy == Watermark && PlanStep(o, states[i].s).work.DecodeBatch? {
      EvictionIsMinimal(o, states[i].s);
    }
  }

  // ------------------------------------------------- what clients are told

  /** What a client may have heard about `p`: so far a prefix of its solo stream,
      or a proper prefix closed by one abort notice. */
  ghost predicate StoryOf(m: Model, o: Options, p: Params, h: seq<StepResult>) {
    && p.prompt != []
    && var whole := Stream(m, o.eos, p, []);
       h <= whole || (o.policy == Watermark && exists n: nat :: n < |whole| && h == whole[..n] + [AbortNotice(p.id)])
  }

  lemma AccountedStory(m: Model, o: Options, accepted: map<RequestId, Params>, rs: seq<Req>, log: seq<StepResult>, id: RequestId)
    requires Accounted(m, o, accepted, rs, log) && id in accepted
    ensures accepted[id].id == id && StoryOf(m, o, accepted[id], LogFor(log, id))
    ensures !Present(rs, accepted[id]) ==> Settled(m, o, accepted[id], LogFor(log, id))
  {
    hide Stream;
    var p := accepted[id];
    if Present(rs, p) {
      var i :| 0 <= i < |rs| && rs[i].p == p;
      assert Told(m, o.eos, rs[i], log);
    } else {
      assert Settled(m, o, p, LogFor(log, id));
    }
  }

  /** Batching, chunking, paging, block reuse and evictions are invisible: in every
      state of every run each request has been told a prefix of what decoding it
      alone would say, except that a watermark eviction ends it with a notice. */
  lemma EveryRequestHearsItsSoloStream(m: Model, o: Options, states: seq<State>, events: seq<Event>, i: nat, id: RequestId)
    requires IsRun(m, o, states, events) && i < |states| && id in states[i].accepted
    ensures StoryOf(m, o, states[i].accepted[id], LogFor(states[i].log, id))
  {
    hide Accounted, StoryOf;
    Reachable(m, o, states, events, i);
    AccountedStory(m, o, states[i].accepted, states[i].s.All(), states[i].log, id);
  }

  /** Nothing is ever reported about a request that was not accepted. */
  lemma OnlyAcceptedAreMentioned(m: Model, o: Options, states: seq<State>, events: seq<Event>, i: nat, id: RequestId)
    requires IsRun(m, o, states, events) && i < |states| && id !in states[i].accepted
    ensures LogFor(states[i].log, id) == []
  {
    Reachable(m, o, states, events, i);
    hide InvAt, CacheInv, AllTold, NoneLost, VocabOk, Fcfs;
    NothingSaid(states[i].log, id);
  }

  /** Over any history at most one emission is finished, it is the last, and only
      the last carries a reason; no request is told more than `maxNew` tokens. */
  lemma StoryShape(m: Model, o: Options, p: Params, h: seq<StepResult>)
    requires StoryOf(m, o, p, h) && p.maxNew > 0
    ensures forall k :: 0 <= k < |h| - 1 ==> !h[k].finished && h[k].reason == FinishReason.Unfinished
    ensures h != [] && h[|h| - 1].finished ==> h[|h| - 1].reason != FinishReason.Unfinished
    ensures h != [] && h[|h| - 1].reason == Length ==> |h| == p.maxNew
    ensures h != [] && h[|h| - 1].reason != Aborted ==> |h| <= p.maxNew
    ensures h != [] && h[|h| - 1].reason == Aborted ==> o.policy == Watermark && |h| <= p.maxNew
    ensures forall k :: 0 <= k < |h| ==> h[k].id == p.id && (h[k].reason == Eos ==> !p.ignoreEos)
  {
    StreamShape(m, o.eos, p, []);
    hide Stream;
    if h <= Stream(m, o.eos, p, []) {
      assert forall k :: 0 <= k < |h| ==> h[k] == Stream(m, o.eos, p, [])[k];
    }
  }

  /** Over any run, the `k`-th thing a client hears is what the stop-free reference
      says at position `k`; the one exception is a watermark notice, always last. */
  lemma EveryWordIsExplained(m: Model, o: Options, states: seq<State>, events: seq<Event>, i: nat, id: RequestId)
    requires IsRun(m, o, states, events) && i < |states| && id in states[i].accepted
    ensures var p, h := states[i].accepted[id], LogFor(states[i].log, id);
            && p.prompt != []
            && forall k :: 0 <= k < |h| ==>
                 if h[k].reason == Aborted then k == |h| - 1 && o.policy == Watermark && h[k] == StepResult(id, 0, true, Aborted)
                 else SaidAt(m, o.eos, p, h[k], k)
  {
    hide StoryOf, IsRun, CheckRequest;
    EveryRequestHearsItsSoloStream(m, o, states, events, i, id);
    AcceptedAreValid(m, o, states, events, i, id);
    AcceptedIds(m, o, states, events, i, id);
    StoryExplained(m, o, states[i].accepted[id], LogFor(states[i].log, id));
  }

  lemma AcceptedIds(m: Model, o: Options, states: seq<State>, events: seq<Event>, i: nat, id: RequestId)
    requires IsRun(m, o, states, events) && i < |states| && id in states[i].accepted
    ensures states[i].accepted[id].id == id
  {
    hide Settled, Present;
    Reachable(m, o, states, events, i);
  }

  lemma StoryExplained(m: Model, o: Options, p: Params, h: seq<StepResult>)
    requires StoryOf(m, o, p, h) && p.maxNew > 0
    ensures p.prompt != []
    ensures forall k :: 0 <= k < |h| ==>
              if h[k].reason == Aborted then k == |h| - 1 && o.policy == Watermark && h[k] == StepResult(p.id, 0, true, Aborted)
              else SaidAt(m, o.eos, p, h[k], k)
  {
    hide SaidAt, Greedy;
    var whole := Stream(m, o.eos, p, []);
    WholeExplained(m, o.eos, p, whole);
    hide Stream;
    var n: nat := |h|;
    if !(h <= whole) {
      n :| n < |whole| && h == whole[..n] + [AbortNotice(p.id)];
    }
    forall k | 0 <= k < n
      ensures h[k].reason != Aborted && SaidAt(m, o.eos, p, h[k], k)
    {
      assert h[k] == whole[k];
    }
  }

  lemma WholeExplained(m: Model, eos: seq<TokenId>, p: Params, whole: seq<StepResult>)
    requires p.prompt != [] && p.maxNew > 0 && whole == Stream(m, eos, p, [])
    ensures forall k :: 0 <= k < |whole| ==> whole[k].reason != Aborted && SaidAt(m, eos, p, whole[k], k)
  {
    StreamExplained(m, eos, p, 0);
    assert Greedy(m, p, 0) == [];
    hide Stream, SaidAt, Greedy;
    StreamShape(m, eos, p, []);
    forall k | 0 <= k < |whole|
      ensures whole[k].reason != Aborted && SaidAt(m, eos, p, whole[k], k)
    {
      assert whole[k] in whole && SaidAt(m, eos, p, whole[k], 0 + k);
    }
  }

  lemma AcceptedAreValid(m: Model, o: Options, states: seq<State>, events: seq<Event>, i: nat, id: RequestId)
    requires IsRun(m, o, states, events) && i < |states| && id in states[i].accepted
    ensures CheckRequest(m, o, states[i].accepted[id]).None? && states[i].accepted[id].maxNew > 0
    decreases i
  {
    hide EngineStep, CheckRequest;
    if i > 0 {
      assert Next(m, o, states[i - 1], events[i - 1], states[i]);
      if id in states[i - 1].accepted && states[i].accepted[id] == states[i - 1].accepted[id] {
        AcceptedAreValid(m, o, states, events, i - 1, id);
      } else {
        match events[i - 1] {
          case Submit(p) => AcceptedHasPrompt(m, o, p);
          case Tick(results) => TicksAcceptNobody(m, o, states[i - 1], states[i], results);
        }
      }
    }
  }

  lemma TicksAcceptNobody(m: Model, o: Options, st: State, st': State, results: seq<StepResult>)
    requires EngineStep(m, o, st, st', results)
    ensures st'.accepted == st.accepted && st'.nextId == st.nextId
    ensures st'.log == st.log + results
  {
    hide PlanStep, DeviceStep, CompleteStep, Executable;
    assert st.log + [] == st.log;
  }

  // ---------------------------------------------------------------- draining

  /** Worst-case reservation, drained: everyone heard the whole solo stream. */
  lemma DrainedIsSolo(m: Model, o: Options, states: seq<State>, events: seq<Event>, i: nat, id: RequestId)
    requires IsRun(m, o, states, events) && i < |states| && id in states[i].accepted
    requires states[i].s.Idle()
    ensures Settled(m, o, states[i].accepted[id], LogFor(states[i].log, id))
    ensures o.policy == ReserveFull ==>
              states[i].accepted[id].prompt != [] &&
              LogFor(states[i].log, id) == Stream(m, o.eos, states[i].accepted[id], [])
  {
    hide Accounted;
    Reachable(m, o, states, events, i);
    AccountedStory(m, o, states[i].accepted, states[i].s.All(), states[i].log, id);
    assert !Present(states[i].s.All(), states[i].accepted[id]);
  }

  /** Forced-length runs: with EOS ignored under worst-case reservation, every
      request ends by length with exactly the tokens it asked for. */
  lemma ForcedLength(m: Model, o: Options, states: seq<State>, events: seq<Event>, i: nat, id: RequestId)
    requires IsRun(m, o, states, events) && i < |states| && id in states[i].accepted
    requires states[i].s.Idle() && o.policy == ReserveFull && states[i].accepted[id].ignoreEos
    ensures var h := LogFor(states[i].log, id);
            |h| == states[i].accepted[id].maxNew > 0 && h[|h| - 1].finished && h[|h| - 1].reason == Length
  {
    hide Accounted, Stream, IsRun, Settled, CheckRequest, LogFor;
    DrainedIsSolo(m, o, states, events, i, id);
    AcceptedAreValid(m, o, states, events, i, id);
    StreamShape(m, o.eos, states[i].accepted[id], []);
  }

  /** A drain restores the whole pool and every batch slot. */
  lemma DrainRestoresPool(m: Model, o: Options, states: seq<State>, events: seq<Event>, i: nat)
    requires IsRun(m, o, states, events) && i < |states| && states[i].s.Idle()
    ensures multiset(states[i].s.free) == multiset(Initial(o).free)
    ensures multiset(states[i].s.freeSlots) == multiset(Initial(o).freeSlots)
    ensures states[i].s.reserved == 0
  {
    hide Accounted;
    Reachable(m, o, states, events, i);
    NothingHeld(o, states[i].s);
  }

  /** No block is ever lost, shared or promised twice, in any reachable state. */
  lemma PoolAlwaysPartitioned(m: Model, o: Options, states: seq<State>, events: seq<Event>, i: nat, x: int)
    requires IsRun(m, o, states, events) && i < |states|
    ensures multiset(states[i].s.free)[x] + Total(states[i].s.Live()).blocks[x] == if 1 <= x < o.totalBlocks then 1 else 0
    ensures multiset(states[i].s.freeSlots)[x] + Total(states[i].s.Live()).slots[x] == if 0 <= x < o.maxBatch then 1 else 0
    ensures Total(states[i].s.Live()).reserved == states[i].s.reserved <= |states[i].s.free|
  {
    hide Accounted, CacheInv;
    Reachable(m, o, states, events, i);
    PoolPartition(o, states[i].s, x);
  }

  /** Running, prefilling and waiting requests are in arrival order, in that order. */
  lemma QueuesInArrivalOrder(m: Model, o: Options, states: seq<State>, events: seq<Event>, i: nat)
    requires IsRun(m, o, states, events) && i < |states|
    ensures Ordered(states[i].s.running + states[i].s.prefill + states[i].s.waiting)
  {
    hide Accounted, CacheInv;
    Reachable(m, o, states, events, i);
  }

  /** First words come in arrival order. */
  lemma FirstTokensInArrivalOrder(m: Model, o: Options, states: seq<State>, events: seq<Event>, i: nat, a: RequestId, b: RequestId)
    requires IsRun(m, o, states, events) && i < |states| && a < b && b in LogIds(states[i].log)
    requires a in states[i].accepted
    ensures a in LogIds(states[i].log)
  {
    Reachable(m, o, states, events, i);
    hide InvAt, CacheInv, VocabOk;
    var st := states[i];
    if a !in LogIds(st.log) {
      UnheardIsQueued(m, o, st, a);
    }
  }

  lemma SettledHeardSomething(m: Model, o: Options, p: Params, h: seq<StepResult>)
    requires Settled(m, o, p, h)
    ensures h != []
  {
    assert Stream(m, o.eos, p, []) != [];
    hide Stream;
  }

  lemma NotRunning(rs: seq<Req>, log: seq<StepResult>, p: Params)
    requires Ids(rs) <= LogIds(log) && p.id !in LogIds(log)
    ensures !Present(rs, p)
  {
    forall k | 0 <= k < |rs|
      ensures rs[k].p.id in LogIds(log)
    {
      assert rs[k] in rs;
    }
  }

  lemma PresentSplit(a: seq<Req>, b: seq<Req>, p: Params)
    requires Present(a + b, p)
    ensures Present(a, p) || Present(b, p)
  {
    var k :| 0 <= k < |a + b| && (a + b)[k].p == p;
    if k < |a| {
      assert a[k].p == p;
    } else {
      assert b[k - |a|].p == p;
    }
  }

  lemma QueuedElsewhere(s: Sched, p: Params)
    requires Present(s.All(), p) && !Present(s.running, p)
    ensures p.id in Ids(s.prefill + s.waiting)
  {
    assert s.All() == s.running + (s.prefill + s.waiting);
    PresentSplit(s.running, s.prefill + s.waiting, p);
    var k :| 0 <= k < |s.prefill + s.waiting| && (s.prefill + s.waiting)[k].p == p;
    assert (s.prefill + s.waiting)[k] in s.prefill + s.waiting;
  }

  lemma UnheardIsQueued(m: Model, o: Options, st: State, a: RequestId)
    requires EngineInv(m, o, st) && a in st.accepted && a !in LogIds(st.log)
    ensures a in Ids(st.s.prefill + st.s.waiting)
  {
    hide InvAt, CacheInv, VocabOk, Accounted, Stream, Settled, StoryOf, Present;
    Unheard(st.log, a);
    AccountedStory(m, o, st.accepted, st.s.All(), st.log, a);
    if !Present(st.s.All(), st.accepted[a]) {
      SettledHeardSomething(m, o, st.accepted[a], LogFor(st.log, a));
    }
    NotRunning(st.s.running, st.log, st.accepted[a]);
    QueuedElsewhere(st.s, st.accepted[a]);
  }

  lemma Unheard(log: seq<StepResult>, a: RequestId)
    requires a !in LogIds(log)
    ensures LogFor(log, a) == []
  {
    NothingSaid(log, a);
  }

  // --------------------------------------- scheduling changes nobody's answer

  predicate SameWords(s: seq<StepResult>, t: seq<StepResult>) {
    && |s| == |t|
    && forall k :: 0 <= k < |s| ==> s[k].token == t[k].token && s[k].finished == t[k].finished && s[k].reason == t[k].reason
  }

  lemma PrependSameWords(a: StepResult, s: seq<StepResult>, b: StepResult, t: seq<StepResult>)
    requires SameWords(s, t) && a == b.(id := a.id)
    ensures SameWords([a] + s, [b] + t)
  {
  }

  lemma {:induction false} StreamIgnoresId(m: Model, eos: seq<TokenId>, p: Params, q: Params, outs: seq<TokenId>)
    requires p.prompt != [] && q == p.(id := q.id)
    ensures SameWords(Stream(m, eos, p, outs), Stream(m, eos, q, outs))
    decreases p.maxNew - |outs|
  {
    hide SameWords, Sample;
    var sampled := Sample(m, p.prompt + outs);
    var next := outs + [Appended(p, outs, sampled)];
    var reason := StopReason(eos, p, next);
    var a, b := StepResult(p.id, sampled, reason != Unfinished, reason), StepResult(q.id, sampled, reason != Unfinished, reason);
    if reason == FinishReason.Unfinished {
      StreamIgnoresId(m, eos, p, q, next);
      PrependSameWords(a, Stream(m, eos, p, next), b, Stream(m, eos, q, next));
    } else {
      assert SameWords([], []) by { NoWords(); }
      PrependSameWords(a, [], b, []);
    }
  }

  lemma NoWords()
    ensures SameWords([], [])
  {
  }

  /** The same request, drained in two unrelated runs (other batch size, chunk,
      pool, arrivals, neighbours), gets the same words, token for token. */
  lemma SchedulingIsInvisible(m: Model,
                              o1: Options, states1: seq<State>, events1: seq<Event>, i1: nat, id1: RequestId,
                              o2: Options, states2: seq<State>, events2: seq<Event>, i2: nat, id2: RequestId)
    requires IsRun(m, o1, states1, events1) && i1 < |states1| && id1 in states1[i1].accepted && states1[i1].s.Idle()
    requires IsRun(m, o2, states2, events2) && i2 < |states2| && id2 in states2[i2].accepted && states2[i2].s.Idle()
    requires o1.policy == o2.policy == ReserveFull && o1.eos == o2.eos
    requires states2[i2].accepted[id2] == states1[i1].accepted[id1].(id := id2)
    ensures SameWords(LogFor(states1[i1].log, id1), LogFor(states2[i2].log, id2))
  {
    hide IsRun, Stream, Settled;
    DrainedIsSolo(m, o1, states1, events1, i1, id1);
    DrainedIsSolo(m, o2, states2, events2, i2, id2);
    StreamIgnoresId(m, o1.eos, states1[i1].accepted[id1], states2[i2].accepted[id2], []);
  }
}
