/** What every reachable scheduler state satisfies, and that every operation keeps it. */
module SchedulerInvariant {
  import opened Types
  import opened SchedulerSpec
  import opened Ledger

  /** Owned blocks cover exactly `covered` tokens and the promise covers the rest. */
  predicate Holding(o: Options, r: Req, covered: int) {
    && Validate(o, r.p).None?
    && r.slot >= 0
    && |r.table| == BlocksForTokens(covered)
    && r.reserved == Max(0, ReservationFor(o, r.p) - |r.table|)
  }

  predicate WaitingOk(o: Options, r: Req) {
    Validate(o, r.p).None? && r == NewReq(r.p)
  }

  predicate PrefillOk(o: Options, r: Req, covered: int) {
    && Holding(o, r, covered)
    && r.state == Prefill && r.reason == FinishReason.Unfinished && r.outputs == []
    && 0 <= r.progress < r.PromptLen() && r.progress <= covered <= r.PromptLen()
  }

  predicate RunningOk(o: Options, r: Req, grown: bool) {
    && Holding(o, r, if grown then r.SeqLen() else r.SeqLen() - 1)
    && r.state == Running && r.reason == FinishReason.Unfinished
    && 1 <= |r.outputs| < r.p.maxNew && r.progress == r.PromptLen()
  }

  predicate Ordered(rs: seq<Req>) {
    forall i, j :: 0 <= i < j < |rs| ==> rs[i].p.id < rs[j].p.id
  }

  /** The books balance: blocks, promises and slots are neither lost nor invented. */
  ghost predicate Books(o: Options, s: Sched) {
    && Balance(s) == Capital(o)
    && s.reserved <= |s.free|
    && |s.freeSlots| + |s.prefill| + |s.running| == o.maxBatch
  }

  predicate PrefillsOk(o: Options, rs: seq<Req>, head: int) {
    && (rs != [] ==> PrefillOk(o, rs[0], head))
    && forall i :: 1 <= i < |rs| ==> PrefillOk(o, rs[i], 0) && rs[i].progress == 0
  }

  predicate RunningsOk(o: Options, rs: seq<Req>, lo: int, hi: int) {
    forall i :: 0 <= i < |rs| ==> RunningOk(o, rs[i], lo <= i < hi)
  }

  predicate WaitingsOk(o: Options, rs: seq<Req>) {
    forall i :: 0 <= i < |rs| ==> WaitingOk(o, rs[i])
  }

  /** The invariant in the middle of a step: the oldest prefill's blocks cover
      `head` tokens, and running rows `lo..hi` own the block of the token they
      are about to write. */
  ghost predicate InvAt(o: Options, s: Sched, head: int, lo: int, hi: int) {
    && o.Valid()
    && Books(o, s)
    && Ordered(s.All())
    && WaitingsOk(o, s.waiting)
    && PrefillsOk(o, s.prefill, head)
    && RunningsOk(o, s.running, lo, hi)
  }

  function HeadProgress(s: Sched): int { if s.prefill == [] then 0 else s.prefill[0].progress }

  /** The invariant between steps. */
  ghost predicate Inv(o: Options, s: Sched) {
    InvAt(o, s, HeadProgress(s), 0, 0)
  }

  /** The invariant of a plan about to be executed. */
  ghost predicate PlanInv(o: Options, plan: Planned) {
    match plan.work
    case PrefillChunk(begin, end) =>
      && InvAt(o, plan.s, end, 0, 0)
      && plan.s.prefill != [] && plan.s.prefill[0].progress == begin
      && end == ChunkEnd(o, plan.s.prefill[0]) && begin < end
      && plan.aborted == []
    case DecodeBatch =>
      && InvAt(o, plan.s, 0, 0, |plan.s.running|)
      && plan.s.prefill == []
  }

  // ------------------------------------------------------------------ promises

  lemma {:induction false} PromisesAddUp(rs: seq<Req>, k: nat)
    requires forall i :: 0 <= i < |rs| ==> rs[i].reserved >= 0
    requires k < |rs|
    ensures Total(rs).reserved >= rs[k].reserved
  {
    var front := rs[..|rs| - 1];
    if k < |rs| - 1 {
      PromisesAddUp(front, k);
    } else {
      TotalNonNegative(front);
    }
  }

  lemma {:induction false} TotalNonNegative(rs: seq<Req>)
    requires forall i :: 0 <= i < |rs| ==> rs[i].reserved >= 0
    ensures Total(rs).reserved >= 0
  {
    if rs != [] {
      TotalNonNegative(rs[..|rs| - 1]);
    }
  }

  lemma PromisesBalance(o: Options, s: Sched)
    requires Books(o, s)
    ensures Total(s.Live()).reserved == s.reserved <= |s.free|
  {
    hide Total, Descending;
    assert Balance(s).reserved == Capital(o).reserved;
  }

  lemma PromisesNonNegative(o: Options, s: Sched, head: int, lo: int, hi: int)
    requires InvAt(o, s, head, lo, hi)
    ensures forall i :: 0 <= i < |s.Live()| ==> s.Live()[i].reserved >= 0
  {
    hide Books, Ordered, WaitingsOk, Validate, ReservationFor;
    forall i | 0 <= i < |s.Live()|
      ensures s.Live()[i].reserved >= 0
    {
      if i < |s.running| {
        assert RunningOk(o, s.running[i], lo <= i < hi);
      } else {
        assert PrefillOk(o, s.prefill[i - |s.running|], if i == |s.running| then head else 0);
      }
    }
  }

  /** A promise is always backed by free blocks: what makes lazy allocation safe. */
  lemma PromiseBacked(o: Options, s: Sched, head: int, lo: int, hi: int, k: nat)
    requires InvAt(o, s, head, lo, hi) && k < |s.Live()|
    ensures 0 <= s.Live()[k].reserved <= s.reserved <= |s.free|
  {
    hide Books, Ordered, WaitingsOk, PrefillsOk, RunningsOk;
    PromisesNonNegative(o, s, head, lo, hi);
    PromisesBalance(o, s);
    PromisesAddUp(s.Live(), k);
  }

  lemma BatchCap(o: Options, s: Sched, head: int, lo: int, hi: int)
    requires InvAt(o, s, head, lo, hi)
    ensures |s.prefill| + |s.running| <= o.maxBatch
  {
  }

  lemma FreeSlotInRange(o: Options, s: Sched)
    requires Books(o, s) && s.freeSlots != []
    ensures 0 <= Top(s.freeSlots) < o.maxBatch
  {
    var x := Top(s.freeSlots);
    assert x in multiset(s.freeSlots);
    assert multiset(s.freeSlots)[x] <= Balance(s).slots[x];
    DescendingCounts(o.maxBatch - 1, 0, x);
  }

  // ------------------------------------------------------- admission, arrivals

  lemma InitialInv(o: Options)
    requires o.Valid()
    ensures Inv(o, Initial(o))
  {
    var s := Initial(o);
    assert s.Live() == [];
    PlusCommutes(Total([]), FreeSide(s));
    PlusZero(FreeSide(s));
  }

  lemma OrderedSnoc(rs: seq<Req>, r: Req)
    requires Ordered(rs) && forall q :: q in rs ==> q.p.id < r.p.id
    ensures Ordered(rs + [r])
  {
    assert forall i :: 0 <= i < |rs| ==> rs[i] in rs;
  }

  lemma WaitingsSnoc(o: Options, rs: seq<Req>, r: Req)
    requires WaitingsOk(o, rs) && WaitingOk(o, r)
    ensures WaitingsOk(o, rs + [r])
  {
  }

  lemma EnqueueKeepsInv(o: Options, s: Sched, p: Params)
    requires Inv(o, s) && Validate(o, p).None?
    requires forall r :: r in s.All() ==> r.p.id < p.id
    ensures Inv(o, Enqueue(s, p))
  {
    hide Ordered, WaitingsOk, PrefillsOk, RunningsOk, Validate, Total;
    var s' := Enqueue(s, p);
    assert s'.All() == s.All() + [NewReq(p)];
    OrderedSnoc(s.All(), NewReq(p));
    WaitingsSnoc(o, s.waiting, NewReq(p));
    assert s'.Live() == s.Live();
  }

  predicate SameParams(a: seq<Req>, b: seq<Req>) {
    |a| == |b| && forall i :: 0 <= i < |a| ==> a[i].p == b[i].p
  }

  lemma OrderedSame(a: seq<Req>, b: seq<Req>)
    requires Ordered(a) && SameParams(a, b)
    ensures Ordered(b)
  {
  }

  lemma AdmissionIsBacked(o: Options, s: Sched, p: Params)
    requires o.Valid() && CanAdmit(o, s, p)
    ensures s.CanReserve(ReservationFor(o, p))
  {
    assert o.Floor() >= 0.0;
  }

  lemma AdmitBooks(o: Options, s: Sched)
    requires o.Valid() && Books(o, s) && AdmitsHead(o, s) && s.waiting[0].table == []
    ensures Books(o, Admit(o, s))
  {
    AdmitBalances(o, s);
    AdmissionIsBacked(o, s, s.waiting[0].p);
  }

  lemma AdmittedOk(o: Options, s: Sched)
    requires Books(o, s) && AdmitsHead(o, s) && WaitingOk(o, s.waiting[0])
    ensures PrefillOk(o, Admit(o, s).prefill[|s.prefill|], 0) && Admit(o, s).prefill[|s.prefill|].progress == 0
  {
    FreeSlotInRange(o, s);
  }

  lemma AdmitOrder(o: Options, s: Sched)
    requires AdmitsHead(o, s)
    ensures SameParams(s.All(), Admit(o, s).All())
  {
    assert s.All() == s.running + s.prefill + [s.waiting[0]] + s.waiting[1..];
  }

  lemma PrefillsSnoc(o: Options, rs: seq<Req>, r: Req)
    requires PrefillsOk(o, rs, if rs == [] then 0 else rs[0].progress) && PrefillOk(o, r, 0) && r.progress == 0
    ensures PrefillsOk(o, rs + [r], (rs + [r])[0].progress)
  {
  }

  lemma WaitingsTail(o: Options, rs: seq<Req>)
    requires WaitingsOk(o, rs) && rs != []
    ensures WaitingOk(o, rs[0]) && WaitingsOk(o, rs[1..])
  {
  }

  lemma AdmitKeepsInv(o: Options, s: Sched)
    requires Inv(o, s) && AdmitsHead(o, s)
    ensures Inv(o, Admit(o, s))
    ensures SameParams(s.All(), Admit(o, s).All())
  {
    hide Books, Ordered, WaitingsOk, PrefillsOk, RunningsOk, CanAdmit, PrefillOk, Validate;
    WaitingsTail(o, s.waiting);
    AdmitBooks(o, s);
    AdmittedOk(o, s);
    PrefillsSnoc(o, s.prefill, Admit(o, s).prefill[|s.prefill|]);
    AdmitOrder(o, s);
    OrderedSame(s.All(), Admit(o, s).All());
  }

  lemma {:induction false} AdmitAllKeepsInv(o: Options, s: Sched)
    requires Inv(o, s)
    ensures Inv(o, AdmitAll(o, s))
    decreases |s.waiting|
  {
    if AdmitsHead(o, s) {
      AdmitKeepsInv(o, s);
      AdmitAllKeepsInv(o, Admit(o, s));
    }
  }
}
