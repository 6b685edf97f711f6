/** One whole step keeps the accounts: admission, aborts, then produced tokens. */
module StepAccounting {
  import opened Types
  import opened ForwardPass
  import opened SoloDecoding
  import opened SchedulerSpec
  import opened SchedulerInvariant
  import opened PlanStepInvariant
  import opened Accounting

  lemma {:induction false} AdmitAllStory(o: Options, s: Sched)
    ensures SameStory(s.All(), AdmitAll(o, s).All())
    decreases |s.waiting|
  {
    if AdmitsHead(o, s) {
      AdmitStory(o, s);
      AdmitAllStory(o, Admit(o, s));
    }
  }

  lemma AdmitStory(o: Options, s: Sched)
    requires s.waiting != []
    ensures SameStory(s.All(), Admit(o, s).All())
  {
    assert s.All() == s.running + s.prefill + [s.waiting[0]] + s.waiting[1..];
  }

  /** Aborting rows `k..` from the young end settles each of them. */
  lemma {:induction false} AbortsAccounted(m: Model, o: Options, accepted: map<RequestId, Params>,
                                           rows: seq<Req>, others: seq<Req>, k: nat,
                                           log: seq<StepResult>, notices: seq<StepResult>)
    requires Accounted(m, o, accepted, rows + others, log) && Ordered(rows + others)
    requires k <= |rows| && |notices| == |rows| - k && (notices != [] ==> o.policy == Watermark)
    requires forall i :: 0 <= i < |notices| ==> notices[i] == AbortNotice(rows[|rows| - 1 - i].p.id)
    ensures Accounted(m, o, accepted, rows[..k] + others, log + notices)
    ensures Ordered(rows[..k] + others)
    decreases |notices|
  {
    hide Accounted, Ordered;
    if notices == [] {
      assert rows[..k] == rows && log + notices == log;
    } else {
      var last := |rows| - 1;
      var rest := rows[..last];
      AbortSettles(m, o, accepted, rows + others, log, last);
      OrderedRemove(rows + others, last);
      assert (rows + others)[..last] + (rows + others)[last + 1..] == rest + others;
      AbortsAccounted(m, o, accepted, rest, others, k, log + [notices[0]], notices[1..]);
      assert rest[..k] == rows[..k];
      assert log + notices == log + [notices[0]] + notices[1..];
    }
  }

  ghost predicate Producing(r: Req) {
    r.p.prompt != [] && r.reason == FinishReason.Unfinished
  }

  ghost predicate SoloTokens(m: Model, rs: seq<Req>, sampled: seq<TokenId>) {
    && |rs| == |sampled|
    && forall k :: 0 <= k < |rs| ==> Producing(rs[k]) && sampled[k] == Sample(m, rs[k].Tokens())
  }

  lemma AllAtRow(s: Sched, j: nat, r: Req)
    requires j < |s.running|
    ensures s.All()[j] == s.running[j]
    ensures s.(running := s.running[j := r]).All() == s.All()[j := r]
    ensures s.(running := s.running[..j] + s.running[j + 1..]).All() == s.All()[..j] + s.All()[j + 1..]
  {
  }

  lemma ReplacedInOrder(rs: seq<Req>, i: nat, r: Req)
    requires Ordered(rs) && i < |rs| && r.p == rs[i].p
    ensures Ordered(rs[i := r])
  {
  }

  lemma SoloTail(m: Model, rs: seq<Req>, sampled: seq<TokenId>)
    requires SoloTokens(m, rs, sampled) && sampled != []
    ensures Producing(rs[0]) && sampled[0] == Sample(m, rs[0].Tokens())
    ensures SoloTokens(m, rs[1..], sampled[1..])
  {
  }

  lemma {:induction false} CompleteRowsAccounted(m: Model, o: Options, accepted: map<RequestId, Params>, s: Sched, j: nat,
                                                 sampled: seq<TokenId>, log: seq<StepResult>)
    requires j + |sampled| == |s.running| && SoloTokens(m, s.running[j..], sampled)
    requires Accounted(m, o, accepted, s.All(), log) && Ordered(s.All())
    ensures var (s', out) := CompleteRows(o, s, j, sampled);
            Accounted(m, o, accepted, s'.All(), log + out) && Ordered(s'.All())
    decreases |sampled|
  {
    hide Accounted, Ordered, Sample, CompleteRows, SoloTokens;
    if sampled == [] {
      CompleteNothing(o, s, j);
      assert log + [] == log;
    } else {
      var r := Produce(o, s.running[j], sampled[0]);
      var e := Emission(r, sampled[0]);
      var t := if r.state == Running then s.(running := s.running[j := r])
               else Release(s.(running := s.running[..j] + s.running[j + 1..]), r);
      var j' := if r.state == Running then j + 1 else j;
      CompleteRowsUnfold(o, s, j, sampled, t, j');
      AllAtRow(s, j, r);
      SoloTail(m, s.running[j..], sampled);
      assert t.running[j'..] == s.running[j..][1..];
      if r.state == Running {
        EmitAndStay(m, o, accepted, s.All(), log, j, sampled[0]);
        ReplacedInOrder(s.All(), j, r);
      } else {
        EmitAndLeave(m, o, accepted, s.All(), log, j, sampled[0]);
        OrderedRemove(s.All(), j);
      }
      CompleteRowsAccounted(m, o, accepted, t, j', sampled[1..], log + [e]);
      assert log + CompleteRows(o, s, j, sampled).1 == log + [e] + CompleteRows(o, t, j', sampled[1..]).1;
    }
  }

  lemma CompleteNothing(o: Options, s: Sched, j: nat)
    requires j == |s.running|
    ensures CompleteRows(o, s, j, []) == (s, [])
  {
  }

  lemma CompleteRowsUnfold(o: Options, s: Sched, j: nat, sampled: seq<TokenId>, t: Sched, j': nat)
    requires j + |sampled| == |s.running| && sampled != []
    requires var r := Produce(o, s.running[j], sampled[0]);
             if r.state == Running then t == s.(running := s.running[j := r]) && j' == j + 1
             else t == Release(s.(running := s.running[..j] + s.running[j + 1..]), r) && j' == j
    ensures var (s', out) := CompleteRows(o, s, j, sampled);
            && s' == CompleteRows(o, t, j', sampled[1..]).0
            && out == [Emission(Produce(o, s.running[j], sampled[0]), sampled[0])] + CompleteRows(o, t, j', sampled[1..]).1
  {
  }

  lemma CompletePrefillAccounted(m: Model, o: Options, accepted: map<RequestId, Params>, s: Sched, end: int,
                                 sampled: seq<TokenId>, log: seq<StepResult>)
    requires s.prefill != [] && end <= s.prefill[0].PromptLen() && Producing(s.prefill[0])
    requires if end < s.prefill[0].PromptLen() then sampled == [] else SoloTokens(m, [s.prefill[0]], sampled)
    requires Accounted(m, o, accepted, s.All(), log) && Ordered(s.All())
    ensures var (s', out) := CompletePrefill(o, s, end, sampled);
            Accounted(m, o, accepted, s'.All(), log + out)
  {
    hide Accounted, Sample, Ordered;
    var k := |s.running|;
    var r := s.prefill[0].(progress := end);
    var (s', out) := CompletePrefill(o, s, end, sampled);
    var all := s.All()[k := r];
    SameStoryAccounted(m, o, accepted, s.All(), all, log);
    ReplacedInOrder(s.All(), k, r);
    assert r.Tokens() == s.prefill[0].Tokens();
    if end < r.PromptLen() {
      assert s'.All() == all && log + out == log;
    } else {
      assert sampled[0] == Sample(m, [s.prefill[0]][0].Tokens());
      var r' := Produce(o, r, sampled[0]);
      PrefillLeaves(s, r, r');
      if r'.state == Running {
        EmitAndStay(m, o, accepted, all, log, k, sampled[0]);
      } else {
        EmitAndLeave(m, o, accepted, all, log, k, sampled[0]);
      }
    }
  }

  lemma PrefillLeaves(s: Sched, r: Req, r': Req)
    requires s.prefill != []
    ensures var all, k := s.All()[|s.running| := r], |s.running|;
            && all[k] == r
            && s.(prefill := s.prefill[1..], running := s.running + [r']).All() == all[k := r']
            && Release(s.(prefill := s.prefill[1..]), r').All() == all[..k] + all[k + 1..]
  {
  }
}
