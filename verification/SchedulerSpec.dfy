/** The step machine as functions on values. The imperative classes are proved
    against these; the lemmas about runs are stated on them. */
module SchedulerSpec {
  import opened Types
  import opened SoloDecoding

  datatype Options = Options(
    maxBatch: int,
    prefillChunk: int,
    maxSeqLen: int,
    policy: AdmissionPolicy,
    freeFraction: real,
    eos: seq<TokenId>,
    totalBlocks: int)
  {
    predicate Valid() {
      && maxBatch >= 1 && prefillChunk >= 1 && maxSeqLen >= 2 && totalBlocks >= 1
      && 0.0 <= freeFraction < 1.0
    }

    function Usable(): int { totalBlocks - 1 }

    /** Blocks the watermark policy keeps uncommitted. */
    function Floor(): real { freeFraction * (Usable() as real) }
  }

  /** A request's scheduler state. `table` maps logical to physical blocks. */
  datatype Req = Req(
    p: Params,
    outputs: seq<TokenId>,
    state: RequestState,
    reason: FinishReason,
    slot: int,
    reserved: int,
    progress: int,
    table: seq<BlockId>)
  {
    function PromptLen(): int { |p.prompt| }
    function SeqLen(): int { |p.prompt| + |outputs| }
    function Tokens(): seq<TokenId> { p.prompt + outputs }
    function Capacity(): int { KV_BLOCK_SIZE * |table| }
  }

  function NewReq(p: Params): Req {
    Req(p, [], Waiting, FinishReason.Unfinished, -1, 0, 0, [])
  }

  /** Scheduler queues together with the allocator's free stack and promise count. */
  datatype Sched = Sched(
    waiting: seq<Req>,
    prefill: seq<Req>,
    running: seq<Req>,
    freeSlots: seq<int>,
    free: seq<BlockId>,
    reserved: int)
  {
    function Live(): seq<Req> { running + prefill }
    function All(): seq<Req> { running + prefill + waiting }
    function CanReserve(n: int): bool { |free| - reserved >= n }
    predicate Idle() { All() == [] }
  }

  function Descending(hi: int, lo: int): (s: seq<int>)
    ensures |s| == Max(hi - lo + 1, 0)
    ensures forall k :: 0 <= k < |s| ==> s[k] == hi - k
    decreases hi - lo + 1
  {
    if hi < lo then [] else [hi] + Descending(hi - 1, lo)
  }

  function Initial(o: Options): Sched {
    Sched([], [], [], Descending(o.maxBatch - 1, 0), Descending(o.totalBlocks - 1, 1), 0)
  }

  // Stacks. Popping an empty one is undefined behaviour in the original; here it
  // yields a sentinel, and no reachable state does it.
  function Top(stack: seq<int>): int { if stack == [] then INVALID_BLOCK else stack[|stack| - 1] }
  function Popped(stack: seq<int>): seq<int> { if stack == [] then [] else stack[..|stack| - 1] }

  // ---------------------------------------------------------------- admission

  datatype Rejection = EmptyPrompt | NonPositiveMaxNew | ExceedsMaxSeqLen | NeverFitsPool

  /** The enqueue rules, in the order they are tested. */
  function Validate(o: Options, p: Params): Option<Rejection> {
    if p.prompt == [] then Some(EmptyPrompt)
    else if p.maxNew <= 0 then Some(NonPositiveMaxNew)
    else if |p.prompt| + p.maxNew > o.maxSeqLen then Some(ExceedsMaxSeqLen)
    else if o.policy == ReserveFull then
      if BlocksForTokens(|p.prompt| + p.maxNew) > o.Usable() then Some(NeverFitsPool) else None
    else
      if (o.Usable() - BlocksForTokens(|p.prompt|)) as real < o.Floor() then Some(NeverFitsPool) else None
  }

  function Enqueue(s: Sched, p: Params): Sched {
    s.(waiting := s.waiting + [NewReq(p)])
  }

  /** Blocks promised at admission. */
  function ReservationFor(o: Options, p: Params): int {
    BlocksForTokens(|p.prompt| + if o.policy == ReserveFull then p.maxNew else 0)
  }

  predicate CanAdmit(o: Options, s: Sched, p: Params) {
    if o.policy == ReserveFull then s.CanReserve(BlocksForTokens(|p.prompt| + p.maxNew))
    else (|s.free| - s.reserved - BlocksForTokens(|p.prompt|)) as real >= o.Floor()
  }

  predicate AdmitsHead(o: Options, s: Sched) {
    s.waiting != [] && |s.prefill| + |s.running| < o.maxBatch && CanAdmit(o, s, s.waiting[0].p)
  }

  function Admit(o: Options, s: Sched): Sched
    requires s.waiting != []
  {
    var r := s.waiting[0];
    var n := ReservationFor(o, r.p);
    s.(waiting := s.waiting[1..],
       prefill := s.prefill + [r.(reserved := n, slot := Top(s.freeSlots), state := Prefill)],
       freeSlots := Popped(s.freeSlots),
       reserved := s.reserved + n)
  }

  /** First come, first served, stopping at the first head that does not fit. */
  function AdmitAll(o: Options, s: Sched): Sched
    decreases |s.waiting|
  {
    if AdmitsHead(o, s) then AdmitAll(o, Admit(o, s)) else s
  }

  // ----------------------------------------------------------------- planning

  /** Exactly one prefill slice of the oldest admitted prefill, or a decode batch. */
  datatype Work = PrefillChunk(begin: int, end: int) | DecodeBatch

  /** A planned step: the state it leaves, what to execute, who was evicted.
      A decode batch executes one row per member of `s.running`. */
  datatype Planned = Planned(s: Sched, work: Work, aborted: seq<Req>)
  {
    predicate Empty() { work.DecodeBatch? && s.running == [] && aborted == [] }
    function Rows(): seq<Req> { if work.DecodeBatch? then s.running else [] }
    predicate Samples() { work.PrefillChunk? && s.prefill != [] && work.end == s.prefill[0].PromptLen() }
    /** Tokens the executor produces for this step. */
    function Yield(): nat { if Samples() then 1 else |Rows()| }
  }

  function GrowReserved(r: Req, b: BlockId): Req {
    r.(table := r.table + [b], reserved := r.reserved - 1)
  }

  /** Materialize blocks of the oldest prefill until they cover `end` tokens. */
  function Cover(s: Sched, end: int): Sched
    requires s.prefill != []
    decreases end - s.prefill[0].Capacity()
  {
    if s.prefill[0].Capacity() >= end then s
    else Cover(s.(prefill := s.prefill[0 := GrowReserved(s.prefill[0], Top(s.free))],
                  free := Popped(s.free),
                  reserved := s.reserved - 1), end)
  }

  function Released(r: Req): Req {
    r.(table := [], reserved := 0, slot := -1)
  }

  /** Return a request's blocks, promise remainder and batch slot. */
  function Release(s: Sched, r: Req): Sched {
    s.(free := s.free + r.table,
       reserved := s.reserved - r.reserved,
       freeSlots := if r.slot >= 0 then s.freeSlots + [r.slot] else s.freeSlots)
  }

  function Victim(r: Req): Req {
    Released(r.(state := Finished, reason := Aborted))
  }

  function AbortYoungest(s: Sched): Sched
    requires s.running != []
  {
    Release(s.(running := s.running[..|s.running| - 1]), s.running[|s.running| - 1])
  }

  /** Abort from the young end until a block is uncommitted or row `i` itself went. */
  function Evict(s: Sched, i: nat, aborted: seq<Req>): (e: (Sched, seq<Req>))
    requires i < |s.running|
    ensures i <= |e.0.running| <= |s.running|
    decreases |s.running|
  {
    if s.CanReserve(1) then (s, aborted)
    else
      var aborted' := aborted + [Victim(s.running[|s.running| - 1])];
      if i == |s.running| - 1 then (AbortYoungest(s), aborted')
      else Evict(AbortYoungest(s), i, aborted')
  }

  /** Give row `i` one block: out of its promise, or from the shared pool. */
  function GrowRow(o: Options, s: Sched, i: nat): Sched
    requires i < |s.running|
  {
    var r := s.running[i];
    if o.policy == ReserveFull then
      s.(running := s.running[i := GrowReserved(r, Top(s.free))], free := Popped(s.free), reserved := s.reserved - 1)
    else
      s.(running := s.running[i := r.(table := r.table + [Top(s.free)])], free := Popped(s.free))
  }

  predicate NeedsBlock(r: Req) {
    r.SeqLen() - 1 >= r.Capacity()
  }

  function PlanDecode(o: Options, s: Sched, i: nat, aborted: seq<Req>): Planned
    requires i <= |s.running|
    decreases |s.running| - i
  {
    if i == |s.running| || i >= o.maxBatch then Planned(s, DecodeBatch, aborted)
    else if !NeedsBlock(s.running[i]) then PlanDecode(o, s, i + 1, aborted)
    else if o.policy == ReserveFull then PlanDecode(o, GrowRow(o, s, i), i + 1, aborted)
    else
      var (e, aborted') := Evict(s, i, aborted);
      if i == |e.running| then Planned(e, DecodeBatch, aborted')
      else PlanDecode(o, GrowRow(o, e, i), i + 1, aborted')
  }

  function ChunkEnd(o: Options, r: Req): int {
    Min(r.progress + o.prefillChunk, r.PromptLen())
  }

  function PlanStep(o: Options, s: Sched): Planned {
    var a := AdmitAll(o, s);
    if a.prefill != [] then
      var r := a.prefill[0];
      Planned(Cover(a, ChunkEnd(o, r)), PrefillChunk(r.progress, ChunkEnd(o, r)), [])
    else PlanDecode(o, a, 0, [])
  }

  // --------------------------------------------------------------- completion

  function Append(r: Req, sampled: TokenId): Req {
    r.(outputs := r.outputs + [Appended(r.p, r.outputs, sampled)])
  }

  /** The request after one produced token, with its stop checks run. */
  function Produce(o: Options, r: Req, sampled: TokenId): Req {
    var r' := Append(r, sampled);
    var reason := StopReason(o.eos, r.p, r'.outputs);
    if reason == FinishReason.Unfinished then r'.(state := Running) else r'.(state := Finished, reason := reason)
  }

  function Emission(r: Req, sampled: TokenId): StepResult {
    StepResult(r.p.id, sampled, r.reason != FinishReason.Unfinished, r.reason)
  }

  /** Commit decode rows `j..` in order; a finishing row leaves `running`. */
  function CompleteRows(o: Options, s: Sched, j: nat, sampled: seq<TokenId>): (Sched, seq<StepResult>)
    requires j + |sampled| == |s.running|
    decreases |sampled|
  {
    if sampled == [] then (s, [])
    else
      var r := Produce(o, s.running[j], sampled[0]);
      var rest :=
        if r.state == Running then CompleteRows(o, s.(running := s.running[j := r]), j + 1, sampled[1..])
        else CompleteRows(o, Release(s.(running := s.running[..j] + s.running[j + 1..]), r), j, sampled[1..]);
      (rest.0, [Emission(r, sampled[0])] + rest.1)
  }

  /** Commit a prefill slice; the final one yields the first generated token. */
  function CompletePrefill(o: Options, s: Sched, end: int, sampled: seq<TokenId>): (Sched, seq<StepResult>)
    requires s.prefill != []
    requires end >= s.prefill[0].PromptLen() ==> |sampled| == 1
  {
    var r := s.prefill[0].(progress := end);
    if end < r.PromptLen() then (s.(prefill := s.prefill[0 := r]), [])
    else
      var popped := s.(prefill := s.prefill[1..]);
      var r' := Produce(o, r, sampled[0]);
      (if r'.state == Running then popped.(running := popped.running + [r']) else Release(popped, r'),
       [Emission(r', sampled[0])])
  }

  function AbortNotices(aborted: seq<Req>): (n: seq<StepResult>)
    ensures |n| == |aborted|
    ensures forall i :: 0 <= i < |n| ==> n[i] == AbortNotice(aborted[i].p.id)
  {
    seq(|aborted|, i requires 0 <= i < |aborted| => AbortNotice(aborted[i].p.id))
  }

  function CompleteStep(o: Options, plan: Planned, sampled: seq<TokenId>): (Sched, seq<StepResult>)
    requires plan.work.PrefillChunk? ==> plan.s.prefill != [] && plan.work.end <= plan.s.prefill[0].PromptLen()
    requires |sampled| == plan.Yield()
  {
    var done := match plan.work
      case PrefillChunk(_, end) => CompletePrefill(o, plan.s, end, sampled)
      case DecodeBatch => CompleteRows(o, plan.s, 0, sampled);
    (done.0, AbortNotices(plan.aborted) + done.1)
  }
}
