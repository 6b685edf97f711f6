/** One engine step against the reference: whatever the batch, chunk, block
    placement and reuse, executed rows produce the tokens of solo recomputation
    and every live request's cache stays the one it deserves. */
module StepExactness {
  import opened Types
  import opened ForwardPass
  import opened SchedulerSpec
  import opened SchedulerInvariant
  import opened PlanStepInvariant
  import opened PlanTheorems
  import opened PagedCache

  /** Positions of `r` already in the cache between steps. */
  function Written(r: Req): int {
    if r.outputs == [] then r.progress else r.SeqLen() - 1
  }

  ghost predicate CacheOk(m: Model, kv: KvPool, r: Req) {
    Written(r) >= 0 && Agrees(m, kv, r.table, r.Tokens(), Written(r))
  }

  ghost predicate CacheInv(m: Model, kv: KvPool, rs: seq<Req>) {
    forall i :: 0 <= i < |rs| ==> CacheOk(m, kv, rs[i])
  }

  /** The slice a decode row executes: its last appended token. */
  function RowSlice(r: Req): Slice
    requires r.outputs != []
  {
    Slice(r.table, r.SeqLen() - 1, [r.outputs[|r.outputs| - 1]])
  }

  function PromptSlice(r: Req, begin: int, end: int): Slice
    requires 0 <= begin <= end <= r.PromptLen()
  {
    Slice(r.table, begin, r.p.prompt[begin..end])
  }

  ghost predicate Executable(plan: Planned) {
    match plan.work
    case PrefillChunk(begin, end) =>
      plan.s.prefill != [] && 0 <= begin < end <= plan.s.prefill[0].PromptLen()
      && end <= plan.s.prefill[0].Capacity()
    case DecodeBatch =>
      forall k :: 0 <= k < |plan.s.running| ==>
        plan.s.running[k].outputs != [] && plan.s.running[k].SeqLen() <= plan.s.running[k].Capacity()
  }

  function Slices(plan: Planned): (xs: seq<Slice>)
    requires Executable(plan)
    ensures forall k :: 0 <= k < |xs| ==> xs[k].Valid()
  {
    match plan.work
    case PrefillChunk(begin, end) => [PromptSlice(plan.s.prefill[0], begin, end)]
    case DecodeBatch => seq(|plan.s.running|, k requires 0 <= k < |plan.s.running| => RowSlice(plan.s.running[k]))
  }

  /** Index among the live requests of the one slice `k` belongs to. */
  function Owner(plan: Planned, k: nat): nat {
    if plan.work.PrefillChunk? then |plan.s.running| else k
  }

  /** What the device did for a plan: the slices, and one token per producing row. */
  ghost predicate DeviceStep(m: Model, kv: KvPool, plan: Planned, kv': KvPool, sampled: seq<TokenId>)
    requires Executable(plan)
  {
    && Executed(m, kv, Slices(plan), kv')
    && |sampled| == plan.Yield()
    && forall k :: 0 <= k < |sampled| ==> k < |Slices(plan)| && sampled[k] == SliceToken(m, kv, Slices(plan)[k])
  }

  /** A plan's rows meet every check the executor makes before it runs them. */
  lemma PlanIsExecutable(o: Options, plan: Planned)
    requires PlanInv(o, plan)
    ensures Executable(plan)
    ensures plan.work.PrefillChunk? ==> PrefillOk(o, plan.s.prefill[0], plan.work.end)
    ensures plan.work.DecodeBatch? ==> RunningsOk(o, plan.s.running, 0, |plan.s.running|)
    ensures |plan.s.running| <= o.maxBatch
  {
    if plan.work.DecodeBatch? {
      forall k | 0 <= k < |plan.s.running|
        ensures plan.s.running[k].outputs != [] && plan.s.running[k].SeqLen() <= plan.s.running[k].Capacity()
      {
        assert RunningOk(o, plan.s.running[k], true);
      }
    }
  }

  // ------------------------------------------------------------ before running

  lemma {:induction false} AdmittedAreFresh(o: Options, s: Sched)
    requires WaitingsOk(o, s.waiting)
    ensures var a := AdmitAll(o, s);
            forall i :: |s.prefill| <= i < |a.prefill| ==> a.prefill[i].outputs == [] && a.prefill[i].progress == 0
    decreases |s.waiting|
  {
    if AdmitsHead(o, s) {
      var t := Admit(o, s);
      assert WaitingOk(o, s.waiting[0]);
      AdmittedAreFresh(o, t);
      AdmitAllShape(o, t);
    }
  }

  lemma AdmissionKeepsCache(m: Model, kv: KvPool, o: Options, s: Sched)
    requires WaitingsOk(o, s.waiting) && CacheInv(m, kv, s.Live())
    ensures CacheInv(m, kv, AdmitAll(o, s).Live())
  {
    hide AdmitAll, AdmitsHead, Agrees, WaitingOk;
    var a := AdmitAll(o, s);
    AdmitAllShape(o, s);
    AdmittedAreFresh(o, s);
    assert a.prefill == s.prefill + a.prefill[|s.prefill|..];
    forall i | 0 <= i < |a.Live()|
      ensures CacheOk(m, kv, a.Live()[i])
    {
      if i < |s.Live()| {
        assert a.Live()[i] == s.Live()[i];
        assert CacheOk(m, kv, s.Live()[i]);
      } else {
        AgreesAtZero(m, kv, a.Live()[i].table, a.Live()[i].Tokens());
      }
    }
  }

  /** Growing a table leaves its cached positions where they were. */
  lemma GrowthKeepsCache(m: Model, kv: KvPool, r: Req, r': Req)
    requires CacheOk(m, kv, r) && RowGrew(r, r')
    ensures CacheOk(m, kv, r')
  {
    AgreesFrame(m, kv, kv, r.table, r'.table, r.Tokens(), r'.Tokens(), Written(r));
  }

  lemma PlanKeepsCache(m: Model, kv: KvPool, o: Options, s: Sched)
    requires WaitingsOk(o, s.waiting) && CacheInv(m, kv, s.Live())
    ensures CacheInv(m, kv, PlanStep(o, s).s.Live())
  {
    hide CacheOk, WaitingsOk, AdmitAll, Cover, PlanDecode;
    var a, plan := AdmitAll(o, s), PlanStep(o, s);
    AdmissionKeepsCache(m, kv, o, s);
    if a.prefill != [] {
      CoverShape(a, ChunkEnd(o, a.prefill[0]));
    } else {
      PlanDecodeShape(o, a, 0, []);
    }
    forall i | 0 <= i < |plan.s.Live()|
      ensures CacheOk(m, kv, plan.s.Live()[i])
    {
      assert RowGrew(a.Live()[i], plan.s.Live()[i]);
      GrowthKeepsCache(m, kv, a.Live()[i], plan.s.Live()[i]);
    }
  }

  // ------------------------------------------------------------------ running

  /** A slice never touches another request's blocks, nor its own past. */
  lemma Untouched(o: Options, s: Sched, i: nat, k: nat, x: Slice, l: nat, p: nat)
    requires Books(o, s) && i < |s.Live()| && k < |s.Live()|
    requires x.Valid() && x.table == s.Live()[k].table && p < s.Live()[i].Capacity()
    requires i != k || p < x.begin
    ensures !Touches(x, SlotOf(s.Live()[i].table, l, p))
    ensures SlotOf(s.Live()[i].table, l, p).block != DUMMY_BLOCK
  {
    var t := s.Live()[i].table;
    OwnTable(o, s, i);
    if i < k {
      OtherTable(o, s, i, k);
    } else if k < i {
      OtherTable(o, s, k, i);
    }
    hide Books;
    forall q | x.begin <= q < x.End()
      ensures SlotOf(x.table, l, q) != SlotOf(t, l, p)
    {
      if i == k {
        SlotsDistinct(t, l, p, q);
      } else {
        assert x.table[q / KV_BLOCK_SIZE] != t[p / KV_BLOCK_SIZE];
      }
    }
  }

  lemma SliceOwner(plan: Planned, k: nat)
    requires Executable(plan) && k < |Slices(plan)|
    ensures Owner(plan, k) < |plan.s.Live()| && Slices(plan)[k].table == plan.s.Live()[Owner(plan, k)].table
    ensures forall k' :: 0 <= k' < |Slices(plan)| && Owner(plan, k') == Owner(plan, k) ==> k' == k
  {
  }

  /** Positions a live request had cached are untouched by the whole step. */
  lemma StepFrame(m: Model, o: Options, plan: Planned, kv: KvPool, kv': KvPool, i: nat, n: int, l: nat, p: nat)
    requires Executable(plan) && Books(o, plan.s) && Executed(m, kv, Slices(plan), kv')
    requires i < |plan.s.Live()| && p < n <= plan.s.Live()[i].Capacity()
    requires forall k :: 0 <= k < |Slices(plan)| && Owner(plan, k) == i ==> n <= Slices(plan)[k].begin
    ensures Read(kv', SlotOf(plan.s.Live()[i].table, l, p)) == Read(kv, SlotOf(plan.s.Live()[i].table, l, p))
  {
    var loc := SlotOf(plan.s.Live()[i].table, l, p);
    OwnTable(o, plan.s, i);
    forall k | 0 <= k < |Slices(plan)|
      ensures !Touches(Slices(plan)[k], loc)
    {
      SliceOwner(plan, k);
      Untouched(o, plan.s, i, Owner(plan, k), Slices(plan)[k], l, p);
    }
    assert loc.block != DUMMY_BLOCK;
  }

  /** Positions of live request `i` cached once the plan has run. */
  function Reached(plan: Planned, i: nat): int
    requires i < |plan.s.Live()|
  {
    match plan.work
    case PrefillChunk(_, end) => if i == |plan.s.running| then end else Written(plan.s.Live()[i])
    case DecodeBatch => if i < |plan.s.running| then plan.s.Live()[i].SeqLen() else Written(plan.s.Live()[i])
  }

  ghost predicate ReachedOk(m: Model, kv: KvPool, plan: Planned, i: nat)
    requires i < |plan.s.Live()|
  {
    var r := plan.s.Live()[i];
    Reached(plan, i) >= 0 && Agrees(m, kv, r.table, r.Tokens(), Reached(plan, i))
  }

  ghost predicate Starts(x: Slice, r: Req, reached: int) {
    && x.table == r.table && x.begin == Written(r) && x.End() == reached <= |r.Tokens()|
    && x.chunk == r.Tokens()[x.begin..x.End()]
  }

  lemma RowSliceStarts(o: Options, r: Req)
    requires RunningOk(o, r, true)
    ensures Starts(RowSlice(r), r, r.SeqLen())
  {
  }

  lemma PromptSliceStarts(o: Options, r: Req, end: int)
    requires PrefillOk(o, r, end)
    ensures Starts(PromptSlice(r, r.progress, end), r, end)
  {
    assert r.Tokens() == r.p.prompt;
  }

  /** The slice of a live request starts exactly where its cache ends. */
  lemma SliceStart(o: Options, plan: Planned, k: nat)
    requires PlanInv(o, plan) && Executable(plan) && k < |Slices(plan)|
    ensures var i := Owner(plan, k);
            i < |plan.s.Live()| && Starts(Slices(plan)[k], plan.s.Live()[i], Reached(plan, i))
  {
    hide InvAt;
    PlanIsExecutable(o, plan);
    hide RunningOk, PrefillOk, Starts;
    match plan.work {
      case PrefillChunk(begin, end) => PromptSliceStarts(o, plan.s.prefill[0], end);
      case DecodeBatch => RowSliceStarts(o, plan.s.running[k]);
    }
  }

  lemma NotExecuted(o: Options, plan: Planned, i: nat)
    requires PlanInv(o, plan) && Executable(plan) && i < |plan.s.Live()|
    requires forall k :: 0 <= k < |Slices(plan)| ==> Owner(plan, k) != i
    ensures Reached(plan, i) == Written(plan.s.Live()[i])
  {
    hide InvAt;
    var byHead, byRow := Owner(plan, 0), Owner(plan, i);
  }

  /** Running the plan extends exactly the executed requests' caches, exactly. */
  lemma RunKeepsCache(m: Model, o: Options, plan: Planned, kv: KvPool, kv': KvPool, i: nat)
    requires PlanInv(o, plan) && Executable(plan) && Books(o, plan.s)
    requires CacheInv(m, kv, plan.s.Live()) && Executed(m, kv, Slices(plan), kv')
    requires i < |plan.s.Live()|
    ensures ReachedOk(m, kv', plan, i)
  {
    var r := plan.s.Live()[i];
    assert CacheOk(m, kv, r);
    if k :| 0 <= k < |Slices(plan)| && Owner(plan, k) == i {
      SliceOwner(plan, k);
      SliceStart(o, plan, k);
      var x := Slices(plan)[k];
      hide PlanInv, Executed, Books, CacheInv, Agrees;
      assert Wrote(m, kv, x, kv') by { ExecutedWrites(m, kv, Slices(plan), kv', k); }
      forall l, p | 0 <= l < m.layers && 0 <= p < x.begin
        ensures Read(kv', SlotOf(x.table, l, p)) == Read(kv, SlotOf(x.table, l, p))
      {
        StepFrame(m, o, plan, kv, kv', i, x.begin, l, p);
      }
      SliceExtendsCache(m, kv, x, r.Tokens(), kv');
    } else {
      NotExecuted(o, plan, i);
      hide PlanInv, Executed, Books, CacheInv;
      forall l, p | 0 <= l < m.layers && 0 <= p < Written(r)
        ensures Read(kv', SlotOf(r.table, l, p)) == Read(kv, SlotOf(r.table, l, p))
      {
        StepFrame(m, o, plan, kv, kv', i, Written(r), l, p);
      }
      AgreesFrame(m, kv, kv', r.table, r.table, r.Tokens(), r.Tokens(), Written(r));
    }
  }

  lemma ExecutedWrites(m: Model, kv: KvPool, xs: seq<Slice>, kv': KvPool, k: nat)
    requires Executed(m, kv, xs, kv') && k < |xs|
    ensures xs[k].Valid() && Wrote(m, kv, xs[k], kv')
  {
  }

  /** The requests whose next token a plan produces, in row order. */
  function Producers(plan: Planned): (rs: seq<Req>)
    ensures |rs| == plan.Yield()
  {
    if plan.Samples() then [plan.s.prefill[0]] else plan.Rows()
  }

  lemma ProducerIsLive(plan: Planned, k: nat)
    requires Executable(plan) && k < plan.Yield()
    requires plan.work.PrefillChunk? ==> plan.s.prefill[0].outputs == []
    ensures k < |Slices(plan)| && Owner(plan, k) < |plan.s.Live()|
    ensures Producers(plan)[k] == plan.s.Live()[Owner(plan, k)]
    ensures Reached(plan, Owner(plan, k)) == |Producers(plan)[k].Tokens()| > 0
  {
  }

  lemma CacheAt(m: Model, kv: KvPool, rs: seq<Req>, i: nat)
    requires CacheInv(m, kv, rs) && i < |rs|
    ensures Written(rs[i]) >= 0 && Agrees(m, kv, rs[i].table, rs[i].Tokens(), Written(rs[i]))
  {
    assert CacheOk(m, kv, rs[i]);
  }

  /** Every sampled token is the one recomputing that request alone would choose. */
  lemma TokensAreSolo(m: Model, o: Options, plan: Planned, kv: KvPool, kv': KvPool, sampled: seq<TokenId>, k: nat)
    requires PlanInv(o, plan) && Executable(plan)
    requires CacheInv(m, kv, plan.s.Live()) && DeviceStep(m, kv, plan, kv', sampled) && k < |sampled|
    ensures Producers(plan)[k].Tokens() != [] && sampled[k] == Sample(m, Producers(plan)[k].Tokens())
  {
    hide PlanInv, Executed, CacheInv, Agrees, Sample, SliceToken, RunningsOk;
    SliceStart(o, plan, k);
    PlanIsExecutable(o, plan);
    ProducerIsLive(plan, k);
    hide Executable, Slices, PrefillOk;
    CacheAt(m, kv, plan.s.Live(), Owner(plan, k));
    SliceTokenIsSample(m, kv, Slices(plan)[k], Producers(plan)[k].Tokens());
  }

  // ---------------------------------------------------------------- completion

  lemma ProduceKeepsCache(m: Model, kv: KvPool, o: Options, r: Req, t: TokenId)
    requires Agrees(m, kv, r.table, r.Tokens(), r.SeqLen())
    ensures CacheOk(m, kv, Produce(o, r, t))
  {
    var r' := Produce(o, r, t);
    assert r'.Tokens()[..r.SeqLen()] == r.Tokens()[..r.SeqLen()];
    AgreesFrame(m, kv, kv, r.table, r.table, r.Tokens(), r'.Tokens(), r.SeqLen());
  }

  ghost predicate RowsReached(m: Model, kv: KvPool, rs: seq<Req>, j: nat) {
    forall i :: 0 <= i < |rs| ==>
      if i < j then CacheOk(m, kv, rs[i]) else Agrees(m, kv, rs[i].table, rs[i].Tokens(), rs[i].SeqLen())
  }

  lemma {:induction false} CompleteRowsKeepsCache(m: Model, kv: KvPool, o: Options, s: Sched, j: nat, sampled: seq<TokenId>)
    requires j + |sampled| == |s.running| && RowsReached(m, kv, s.running, j)
    ensures CompleteRows(o, s, j, sampled).0.prefill == s.prefill
    ensures CacheInv(m, kv, CompleteRows(o, s, j, sampled).0.running)
    decreases |sampled|
  {
    if sampled != [] {
      hide CacheOk, Agrees;
      var r := Produce(o, s.running[j], sampled[0]);
      ProduceKeepsCache(m, kv, o, s.running[j], sampled[0]);
      if r.state == Running {
        CompleteRowsKeepsCache(m, kv, o, s.(running := s.running[j := r]), j + 1, sampled[1..]);
      } else {
        CompleteRowsKeepsCache(m, kv, o, Release(s.(running := s.running[..j] + s.running[j + 1..]), r), j, sampled[1..]);
      }
    }
  }

  lemma CompletePrefillKeepsCache(m: Model, kv: KvPool, o: Options, s: Sched, end: int, sampled: seq<TokenId>)
    requires s.prefill != [] && s.prefill[0].outputs == [] && 0 <= end <= s.prefill[0].PromptLen()
    requires end == s.prefill[0].PromptLen() ==> |sampled| == 1
    requires CacheInv(m, kv, s.running) && CacheInv(m, kv, s.prefill[1..])
    requires Agrees(m, kv, s.prefill[0].table, s.prefill[0].Tokens(), end)
    ensures CacheInv(m, kv, CompletePrefill(o, s, end, sampled).0.Live())
  {
    var r := s.prefill[0].(progress := end);
    if end == r.PromptLen() {
      ProduceKeepsCache(m, kv, o, r, sampled[0]);
    }
    hide Agrees;
    assert end < r.PromptLen() ==> CacheOk(m, kv, r);
    hide CacheOk;
    var s' := CompletePrefill(o, s, end, sampled).0;
    forall i | 0 <= i < |s'.Live()|
      ensures CacheOk(m, kv, s'.Live()[i])
    {
      if |s.running| < i {
        assert s'.Live()[i] in s.prefill[1..];
      }
    }
  }

  /** Every live request's cache reaches where the plan took it. */
  ghost predicate AllReached(m: Model, kv: KvPool, plan: Planned) {
    forall i :: 0 <= i < |plan.s.Live()| ==> ReachedOk(m, kv, plan, i)
  }

  lemma RunReachesAll(m: Model, o: Options, plan: Planned, kv: KvPool, kv': KvPool)
    requires PlanInv(o, plan) && Executable(plan) && Books(o, plan.s)
    requires CacheInv(m, kv, plan.s.Live()) && Executed(m, kv, Slices(plan), kv')
    ensures AllReached(m, kv', plan)
  {
    hide PlanInv, Executable, Books, CacheInv, Executed, Slices, ReachedOk;
    forall i | 0 <= i < |plan.s.Live()|
      ensures ReachedOk(m, kv', plan, i)
    {
      RunKeepsCache(m, o, plan, kv, kv', i);
    }
  }

  lemma ReachedAt(m: Model, kv: KvPool, plan: Planned, i: nat)
    requires AllReached(m, kv, plan) && i < |plan.s.Live()|
    ensures var r := plan.s.Live()[i]; Reached(plan, i) >= 0 && Agrees(m, kv, r.table, r.Tokens(), Reached(plan, i))
  {
    hide Agrees;
    assert ReachedOk(m, kv, plan, i);
  }

  lemma SliceCompletes(m: Model, o: Options, plan: Planned, kv: KvPool, sampled: seq<TokenId>)
    requires plan.work.PrefillChunk? && Executable(plan) && plan.s.prefill[0].outputs == [] && AllReached(m, kv, plan)
    requires |sampled| == plan.Yield()
    ensures CacheInv(m, kv, CompletePrefill(o, plan.s, plan.work.end, sampled).0.Live())
  {
    hide AllReached, Agrees, CompletePrefill;
    var s, k := plan.s, |plan.s.running|;
    forall i | 0 <= i < |s.running|
      ensures CacheOk(m, kv, s.running[i])
    {
      ReachedAt(m, kv, plan, i);
      assert s.Live()[i] == s.running[i];
    }
    forall i | 0 <= i < |s.prefill[1..]|
      ensures CacheOk(m, kv, s.prefill[1..][i])
    {
      ReachedAt(m, kv, plan, k + 1 + i);
      assert s.Live()[k + 1 + i] == s.prefill[1..][i];
    }
    ReachedAt(m, kv, plan, k);
    assert s.Live()[k] == s.prefill[0];
    CompletePrefillKeepsCache(m, kv, o, s, plan.work.end, sampled);
  }

  lemma BatchCompletes(m: Model, o: Options, plan: Planned, kv: KvPool, sampled: seq<TokenId>)
    requires plan.work.DecodeBatch? && plan.s.prefill == [] && AllReached(m, kv, plan) && |sampled| == |plan.s.running|
    ensures CacheInv(m, kv, CompleteRows(o, plan.s, 0, sampled).0.Live())
  {
    hide AllReached, Agrees, CompleteRows, CacheInv;
    var s := plan.s;
    forall i | 0 <= i < |s.running|
      ensures Agrees(m, kv, s.running[i].table, s.running[i].Tokens(), s.running[i].SeqLen())
    {
      ReachedAt(m, kv, plan, i);
      assert s.Live()[i] == s.running[i];
    }
    CompleteRowsKeepsCache(m, kv, o, s, 0, sampled);
    var s' := CompleteRows(o, s, 0, sampled).0;
    assert s'.Live() == s'.running;
  }

  lemma CompleteStepKeepsCache(m: Model, o: Options, plan: Planned, kv: KvPool, kv': KvPool, sampled: seq<TokenId>)
    requires PlanInv(o, plan) && Executable(plan) && Books(o, plan.s)
    requires CacheInv(m, kv, plan.s.Live()) && DeviceStep(m, kv, plan, kv', sampled)
    ensures CacheInv(m, kv', CompleteStep(o, plan, sampled).0.Live())
  {
    RunReachesAll(m, o, plan, kv, kv');
    PlanIsExecutable(o, plan);
    hide InvAt, Agrees, Executed, Books, CompletePrefill, CompleteRows, AllReached, CacheInv, Slices, SliceToken,
      RunningsOk, Holding, Executable;
    match plan.work
    case PrefillChunk(_, _) => SliceCompletes(m, o, plan, kv', sampled);
    case DecodeBatch => BatchCompletes(m, o, plan, kv', sampled);
  }
}
