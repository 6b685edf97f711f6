/** Completion keeps the invariant; a finished request leaves nothing behind. */
module CompleteStepInvariant {
  import opened Types
  import opened SchedulerSpec
  import opened Ledger
  import opened SchedulerInvariant
  import opened PlanStepInvariant

  /** A produced token either keeps the row running or finishes the request. */
  lemma ProduceRunning(o: Options, r: Req, t: TokenId)
    requires RunningOk(o, r, true)
    ensures var r' := Produce(o, r, t);
            && SameHold(r', r) && r'.p == r.p
            && (r'.state == Running ==> RunningOk(o, r', false))
            && (r'.state == Running <==> r'.reason == FinishReason.Unfinished)
  {
  }

  lemma ProduceFirst(o: Options, r: Req, t: TokenId)
    requires PrefillOk(o, r, r.PromptLen())
    ensures var r' := Produce(o, r.(progress := r.PromptLen()), t);
            && SameHold(r', r) && r'.p == r.p
            && (r'.state == Running ==> RunningOk(o, r', false))
            && (r'.state == Running <==> r'.reason == FinishReason.Unfinished)
  {
  }

  lemma LeaveBooks(o: Options, s: Sched, popped: Sched, i: nat, r: Req)
    requires Books(o, s) && i < |s.Live()| && SameHold(r, s.Live()[i]) && r.slot >= 0 && r.reserved >= 0
    requires popped.Live() == s.Live()[..i] + s.Live()[i + 1..]
    requires popped.free == s.free && popped.reserved == s.reserved && popped.freeSlots == s.freeSlots
    requires |popped.prefill| + |popped.running| == |s.prefill| + |s.running| - 1
    ensures Books(o, Release(popped, r))
  {
    hide Total;
    ReleaseBalances(s, Release(popped, r), i, r);
  }

  lemma KeepBooks(o: Options, s: Sched, s': Sched, i: nat, r: Req)
    requires Books(o, s) && i < |s.Live()| && s'.Live() == s.Live()[i := r] && SameHold(r, s.Live()[i])
    requires FreeSide(s') == FreeSide(s) && s'.free == s.free && s'.freeSlots == s.freeSlots
    requires |s'.prefill| + |s'.running| == |s.prefill| + |s.running|
    ensures Books(o, s')
  {
    hide Total;
    Exchange(s, s', i, r);
  }

  // -------------------------------------------------------------- decode rows

  lemma RowStays(o: Options, s: Sched, j: nat, r: Req)
    requires InvAt(o, s, 0, j, |s.running|) && j < |s.running|
    requires SameHold(r, s.running[j]) && r.p == s.running[j].p && RunningOk(o, r, false)
    ensures InvAt(o, s.(running := s.running[j := r]), 0, j + 1, |s.running|)
  {
    hide Books, RunningOk, PrefillOk, WaitingOk;
    var s' := s.(running := s.running[j := r]);
    assert s'.Live() == s.Live()[j := r];
    KeepBooks(o, s, s', j, r);
    RowOrder(s, s', j);
    OrderedSame(s.All(), s'.All());
  }

  function Without(s: Sched, j: nat): Sched
    requires j < |s.running|
  {
    s.(running := s.running[..j] + s.running[j + 1..])
  }

  lemma RowLeavesBooks(o: Options, s: Sched, j: nat, r: Req)
    requires Books(o, s) && j < |s.running| && SameHold(r, s.running[j]) && r.slot >= 0 && r.reserved >= 0
    ensures Books(o, Release(Without(s, j), r))
  {
    hide Books, Total;
    var popped := Without(s, j);
    assert s.Live()[j] == s.running[j];
    assert popped.Live() == s.Live()[..j] + s.Live()[j + 1..];
    LeaveBooks(o, s, popped, j, r);
  }

  lemma RowLeavesOrder(s: Sched, j: nat)
    requires j < |s.running| && Ordered(s.All())
    ensures Ordered(Without(s, j).All())
  {
    OrderedRemove(s.All(), j);
    assert Without(s, j).All() == s.All()[..j] + s.All()[j + 1..];
  }

  lemma RowLeaves(o: Options, s: Sched, j: nat, r: Req)
    requires InvAt(o, s, 0, j, |s.running|) && j < |s.running|
    requires SameHold(r, s.running[j])
    ensures InvAt(o, Release(Without(s, j), r), 0, j, |s.running| - 1)
  {
    GrownRow(o, s, j);
    hide Books, Ordered, RunningsOk, PrefillsOk, WaitingsOk;
    RowLeavesBooks(o, s, j, r);
    RowLeavesOrder(s, j);
    RunningsRemove(o, s.running, j);
    assert Release(Without(s, j), r).All() == Without(s, j).All();
  }

  lemma RunningsRemove(o: Options, rs: seq<Req>, j: nat)
    requires j < |rs| && RunningsOk(o, rs, j, |rs|)
    ensures RunningsOk(o, rs[..j] + rs[j + 1..], j, |rs| - 1)
  {
    hide RunningOk;
    var rest := rs[..j] + rs[j + 1..];
    forall i | 0 <= i < |rest|
      ensures RunningOk(o, rest[i], j <= i < |rs| - 1)
    {
      assert rest[i] == rs[if i < j then i else i + 1];
    }
  }

  lemma AllRowsDone(o: Options, s: Sched)
    requires InvAt(o, s, 0, |s.running|, |s.running|) && s.prefill == []
    ensures Inv(o, s)
  {
  }

  lemma {:induction false} CompleteRowsKeepsInv(o: Options, s: Sched, j: nat, sampled: seq<TokenId>)
    requires InvAt(o, s, 0, j, |s.running|) && s.prefill == [] && j + |sampled| == |s.running|
    ensures Inv(o, CompleteRows(o, s, j, sampled).0)
    decreases |sampled|
  {
    hide InvAt, SameHold;
    if sampled == [] {
      AllRowsDone(o, s);
    } else {
      var r := Produce(o, s.running[j], sampled[0]);
      GrownRow(o, s, j);
      ProduceRunning(o, s.running[j], sampled[0]);
      hide Produce, RunningOk;
      if r.state == Running {
        RowStays(o, s, j, r);
        CompleteRowsKeepsInv(o, s.(running := s.running[j := r]), j + 1, sampled[1..]);
      } else {
        RowLeaves(o, s, j, r);
        CompleteRowsKeepsInv(o, Release(Without(s, j), r), j, sampled[1..]);
      }
    }
  }

  lemma GrownRow(o: Options, s: Sched, j: nat)
    requires InvAt(o, s, 0, j, |s.running|) && j < |s.running|
    ensures RunningOk(o, s.running[j], true)
  {
  }

  // ------------------------------------------------------------------ prefill

  lemma Advanced(o: Options, r: Req, end: int)
    requires PrefillOk(o, r, end) && r.progress < end < r.PromptLen()
    ensures PrefillOk(o, r.(progress := end), end)
  {
  }

  lemma HeadAdvancesBooks(o: Options, s: Sched, r: Req)
    requires Books(o, s) && s.prefill != [] && SameHold(r, s.prefill[0])
    ensures Books(o, s.(prefill := s.prefill[0 := r]))
  {
    hide Books, Total;
    var s' := s.(prefill := s.prefill[0 := r]);
    assert s'.Live() == s.Live()[|s.running| := r];
    KeepBooks(o, s, s', |s.running|, r);
  }

  lemma HeadAdvances(o: Options, s: Sched, end: int)
    requires InvAt(o, s, end, 0, 0) && s.prefill != [] && s.prefill[0].progress < end < s.prefill[0].PromptLen()
    ensures Inv(o, s.(prefill := s.prefill[0 := s.prefill[0].(progress := end)]))
  {
    hide Books, Ordered, WaitingsOk, PrefillsOk, RunningsOk, PrefillOk;
    var r := s.prefill[0].(progress := end);
    var s' := s.(prefill := s.prefill[0 := r]);
    HeadOk(o, s.prefill, end);
    Advanced(o, s.prefill[0], end);
    HeadReplaced(o, s.prefill, end, r, end);
    HeadAdvancesBooks(o, s, r);
    HeadOrder(s, s');
    OrderedSame(s.All(), s'.All());
  }

  lemma NextHead(o: Options, rs: seq<Req>, head: int)
    requires rs != [] && PrefillsOk(o, rs, head)
    ensures PrefillsOk(o, rs[1..], if |rs| == 1 then 0 else rs[1].progress)
  {
  }

  lemma HeadJoins(o: Options, s: Sched, r: Req)
    requires s.prefill != [] && InvAt(o, s, s.prefill[0].PromptLen(), 0, 0)
    requires SameHold(r, s.prefill[0]) && r.p == s.prefill[0].p && RunningOk(o, r, false)
    ensures Inv(o, s.(prefill := s.prefill[1..], running := s.running + [r]))
  {
    hide Books, RunningOk, PrefillOk, WaitingOk;
    var s' := s.(prefill := s.prefill[1..], running := s.running + [r]);
    assert s'.Live() == s.Live()[|s.running| := r];
    KeepBooks(o, s, s', |s.running|, r);
    NextHead(o, s.prefill, s.prefill[0].PromptLen());
    OrderedSame(s.All(), s'.All());
  }

  lemma HeadLeavesBooks(o: Options, s: Sched, r: Req)
    requires Books(o, s) && s.prefill != [] && SameHold(r, s.prefill[0]) && r.slot >= 0 && r.reserved >= 0
    ensures Books(o, Release(s.(prefill := s.prefill[1..]), r))
  {
    hide Books, Total;
    var popped, k := s.(prefill := s.prefill[1..]), |s.running|;
    assert popped.Live() == s.Live()[..k] + s.Live()[k + 1..];
    LeaveBooks(o, s, popped, k, r);
  }

  lemma HeadLeavesOrder(s: Sched)
    requires s.prefill != [] && Ordered(s.All())
    ensures Ordered(s.(prefill := s.prefill[1..]).All())
  {
    var popped, k := s.(prefill := s.prefill[1..]), |s.running|;
    OrderedRemove(s.All(), k);
    assert popped.All() == s.All()[..k] + s.All()[k + 1..];
  }

  lemma HeadLeaves(o: Options, s: Sched, r: Req)
    requires s.prefill != [] && InvAt(o, s, s.prefill[0].PromptLen(), 0, 0)
    requires SameHold(r, s.prefill[0])
    ensures Inv(o, Release(s.(prefill := s.prefill[1..]), r))
  {
    PrefillHead(o, s, s.prefill[0].PromptLen());
    hide Books, Ordered, RunningsOk, PrefillsOk, WaitingsOk;
    HeadLeavesBooks(o, s, r);
    HeadLeavesOrder(s);
    NextHead(o, s.prefill, s.prefill[0].PromptLen());
    assert Release(s.(prefill := s.prefill[1..]), r).All() == s.(prefill := s.prefill[1..]).All();
  }

  lemma PrefillHead(o: Options, s: Sched, head: int)
    requires InvAt(o, s, head, 0, 0) && s.prefill != []
    ensures PrefillOk(o, s.prefill[0], head)
  {
  }

  lemma CompletePrefillKeepsInv(o: Options, s: Sched, end: int, sampled: seq<TokenId>)
    requires InvAt(o, s, end, 0, 0) && s.prefill != [] && s.prefill[0].progress < end <= s.prefill[0].PromptLen()
    requires end == s.prefill[0].PromptLen() ==> |sampled| == 1
    ensures Inv(o, CompletePrefill(o, s, end, sampled).0)
  {
    hide InvAt;
    PrefillHead(o, s, end);
    if end < s.prefill[0].PromptLen() {
      HeadAdvances(o, s, end);
    } else {
      ProduceFirst(o, s.prefill[0], sampled[0]);
      var r := Produce(o, s.prefill[0].(progress := end), sampled[0]);
      if r.state == Running {
        HeadJoins(o, s, r);
      } else {
        HeadLeaves(o, s, r);
      }
    }
  }

  lemma CompleteStepKeepsInv(o: Options, plan: Planned, sampled: seq<TokenId>)
    requires PlanInv(o, plan) && |sampled| == plan.Yield()
    ensures Inv(o, CompleteStep(o, plan, sampled).0)
  {
    hide InvAt;
    match plan.work
    case PrefillChunk(_, end) => CompletePrefillKeepsInv(o, plan.s, end, sampled);
    case DecodeBatch => CompleteRowsKeepsInv(o, plan.s, 0, sampled);
  }

  // -------------------------------------------------------- pool partition

  lemma BooksByElement(o: Options, s: Sched, x: int)
    requires Balance(s) == Capital(o)
    ensures Total(s.Live()).blocks[x] + multiset(s.free)[x] == multiset(Descending(o.totalBlocks - 1, 1))[x]
    ensures Total(s.Live()).slots[x] + multiset(s.freeSlots)[x] == multiset(Descending(o.maxBatch - 1, 0))[x]
    ensures Total(s.Live()).reserved == s.reserved
  {
    hide Total, Descending;
    assert Balance(s).blocks[x] == Capital(o).blocks[x];
    assert Balance(s).slots[x] == Capital(o).slots[x];
  }

  /** In every reachable state the free stack and the live tables hold each usable
      block exactly once (so live requests share none), the same for batch slots,
      and promises add up. */
  lemma PoolPartition(o: Options, s: Sched, x: int)
    requires Books(o, s)
    ensures multiset(s.free)[x] + Total(s.Live()).blocks[x] == if 1 <= x < o.totalBlocks then 1 else 0
    ensures multiset(s.freeSlots)[x] + Total(s.Live()).slots[x] == if 0 <= x < o.maxBatch then 1 else 0
    ensures Total(s.Live()).reserved == s.reserved
  {
    DescendingCounts(o.totalBlocks - 1, 1, x);
    DescendingCounts(o.maxBatch - 1, 0, x);
    BooksByElement(o, s, x);
  }
}
