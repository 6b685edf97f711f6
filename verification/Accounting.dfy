/** What clients have been told, against the solo stream of each request. */
module Accounting {
  import opened Types
  import opened ForwardPass
  import opened SoloDecoding
  import opened SchedulerSpec
  import opened SchedulerInvariant

  /** What was reported about `r` plus what solo decoding would still report is
      the whole solo stream. */
  ghost predicate Told(m: Model, eos: seq<TokenId>, r: Req, log: seq<StepResult>) {
    r.p.prompt != [] && LogFor(log, r.p.id) + Stream(m, eos, r.p, r.outputs) == Stream(m, eos, r.p, [])
  }

  /** A request that is gone was told its whole solo stream, or, under the
      watermark policy only, a proper prefix of it and one abort notice. */
  ghost predicate Settled(m: Model, o: Options, p: Params, h: seq<StepResult>) {
    && p.prompt != []
    && var whole := Stream(m, o.eos, p, []);
       h == whole || (o.policy == Watermark && exists n: nat :: n < |whole| && h == whole[..n] + [AbortNotice(p.id)])
  }

  ghost predicate Present(rs: seq<Req>, p: Params) {
    exists i :: 0 <= i < |rs| && rs[i].p == p
  }

  ghost predicate AllTold(m: Model, o: Options, accepted: map<RequestId, Params>, rs: seq<Req>, log: seq<StepResult>) {
    forall i :: 0 <= i < |rs| ==>
      rs[i].p.id in accepted && accepted[rs[i].p.id] == rs[i].p && Told(m, o.eos, rs[i], log)
  }

  ghost predicate NoneLost(m: Model, o: Options, accepted: map<RequestId, Params>, rs: seq<Req>, log: seq<StepResult>) {
    forall id :: id in accepted ==>
      accepted[id].id == id && (Present(rs, accepted[id]) || Settled(m, o, accepted[id], LogFor(log, id)))
  }

  ghost predicate Accounted(m: Model, o: Options, accepted: map<RequestId, Params>, rs: seq<Req>, log: seq<StepResult>) {
    && AllTold(m, o, accepted, rs, log)
    && NoneLost(m, o, accepted, rs, log)
    && forall i :: 0 <= i < |log| ==> log[i].id in accepted
  }

  /** One production follows the solo stream. */
  lemma ProduceFollowsStream(m: Model, o: Options, r: Req, t: TokenId)
    requires r.p.prompt != [] && r.reason == FinishReason.Unfinished && t == Sample(m, r.Tokens())
    ensures var r' := Produce(o, r, t);
            Stream(m, o.eos, r.p, r.outputs) ==
              [Emission(r', t)] + if r'.state == Running then Stream(m, o.eos, r.p, r'.outputs) else []
    ensures Emission(Produce(o, r, t), t).id == r.p.id && Produce(o, r, t).p == r.p
  {
  }

  lemma LogForOne(log: seq<StepResult>, e: StepResult, id: RequestId)
    ensures LogFor(log + [e], id) == LogFor(log, id) + if e.id == id then [e] else []
  {
    assert (log + [e])[..|log|] == log;
  }

  lemma OrderedIds(rs: seq<Req>, i: nat, k: nat)
    requires Ordered(rs) && i < |rs| && k < |rs| && i != k
    ensures rs[i].p.id != rs[k].p.id
  {
  }

  lemma OthersHear(m: Model, eos: seq<TokenId>, r: Req, log: seq<StepResult>, e: StepResult)
    requires Told(m, eos, r, log) && e.id != r.p.id
    ensures Told(m, eos, r, log + [e])
  {
    LogForOne(log, e, r.p.id);
  }

  lemma SelfHears(m: Model, o: Options, r: Req, log: seq<StepResult>, t: TokenId)
    requires Told(m, o.eos, r, log) && r.reason == FinishReason.Unfinished && t == Sample(m, r.Tokens())
    requires Produce(o, r, t).state == Running
    ensures Told(m, o.eos, Produce(o, r, t), log + [Emission(Produce(o, r, t), t)])
  {
    hide Stream, Produce, Emission, Sample, LogFor;
    ProduceFollowsStream(m, o, r, t);
    var r' := Produce(o, r, t);
    var e := Emission(r', t);
    LogForOne(log, e, r.p.id);
    var heard, rest := LogFor(log, r.p.id), Stream(m, o.eos, r.p, r'.outputs);
    assert heard + ([e] + rest) == heard + [e] + rest;
  }

  lemma StillSettled(m: Model, o: Options, p: Params, log: seq<StepResult>, e: StepResult)
    requires Settled(m, o, p, LogFor(log, p.id)) && e.id != p.id
    ensures Settled(m, o, p, LogFor(log + [e], p.id))
  {
    LogForOne(log, e, p.id);
  }

  lemma PresentSelf(rs: seq<Req>, i: nat)
    requires i < |rs|
    ensures Present(rs, rs[i].p)
  {
  }

  lemma PresentReplace(rs: seq<Req>, i: nat, r: Req, p: Params)
    requires Present(rs, p) && i < |rs| && r.p == rs[i].p
    ensures Present(rs[i := r], p)
  {
    var k :| 0 <= k < |rs| && rs[k].p == p;
    assert rs[i := r][k].p == p;
  }

  lemma PresentRemove(rs: seq<Req>, i: nat, p: Params)
    requires Present(rs, p) && i < |rs| && rs[i].p != p
    ensures Present(rs[..i] + rs[i + 1..], p)
  {
    var k :| 0 <= k < |rs| && rs[k].p == p;
    assert (rs[..i] + rs[i + 1..])[if k < i then k else k - 1].p == p;
  }

  lemma StayTold(m: Model, o: Options, accepted: map<RequestId, Params>, rs: seq<Req>, log: seq<StepResult>, i: nat, r: Req, e: StepResult)
    requires AllTold(m, o, accepted, rs, log) && Ordered(rs) && i < |rs|
    requires r.p == rs[i].p && e.id == r.p.id && Told(m, o.eos, r, log + [e])
    ensures AllTold(m, o, accepted, rs[i := r], log + [e])
  {
    hide Told, Ordered;
    forall k | 0 <= k < |rs| && k != i
      ensures Told(m, o.eos, rs[k], log + [e])
    {
      OrderedIds(rs, i, k);
      OthersHear(m, o.eos, rs[k], log, e);
    }
  }

  lemma LeaveTold(m: Model, o: Options, accepted: map<RequestId, Params>, rs: seq<Req>, log: seq<StepResult>, i: nat, e: StepResult)
    requires AllTold(m, o, accepted, rs, log) && Ordered(rs) && i < |rs| && e.id == rs[i].p.id
    ensures AllTold(m, o, accepted, rs[..i] + rs[i + 1..], log + [e])
  {
    hide Told, Ordered;
    forall k | 0 <= k < |rs| && k != i
      ensures Told(m, o.eos, rs[k], log + [e])
    {
      OrderedIds(rs, i, k);
      OthersHear(m, o.eos, rs[k], log, e);
    }
  }

  /** Whoever was settled stays so, and only the request spoken about may need settling. */
  lemma NoneLostAfter(m: Model, o: Options, accepted: map<RequestId, Params>, rs: seq<Req>, rs': seq<Req>, log: seq<StepResult>, e: StepResult)
    requires NoneLost(m, o, accepted, rs, log)
    requires forall id :: id in accepted && id != e.id && Present(rs, accepted[id]) ==> Present(rs', accepted[id])
    requires e.id in accepted ==>
               Present(rs', accepted[e.id]) || Settled(m, o, accepted[e.id], LogFor(log + [e], e.id))
    ensures NoneLost(m, o, accepted, rs', log + [e])
  {
    hide Settled, Present;
    forall id | id in accepted && id != e.id && !Present(rs, accepted[id])
      ensures Settled(m, o, accepted[id], LogFor(log + [e], id))
    {
      StillSettled(m, o, accepted[id], log, e);
    }
  }

  /** Emitting for request `i` while it stays keeps the accounts. */
  lemma EmitAndStay(m: Model, o: Options, accepted: map<RequestId, Params>, rs: seq<Req>, log: seq<StepResult>, i: nat, t: TokenId)
    requires Accounted(m, o, accepted, rs, log) && Ordered(rs) && i < |rs|
    requires rs[i].reason == FinishReason.Unfinished && t == Sample(m, rs[i].Tokens())
    requires Produce(o, rs[i], t).state == Running
    ensures var r := Produce(o, rs[i], t);
            Accounted(m, o, accepted, rs[i := r], log + [Emission(r, t)])
  {
    var r := Produce(o, rs[i], t);
    var e := Emission(r, t);
    assert Told(m, o.eos, rs[i], log);
    SelfHears(m, o, rs[i], log, t);
    assert e.id == r.p.id && r.p == rs[i].p && accepted[e.id] == r.p;
    hide Told, Produce, Emission, AllTold, NoneLost, Present, Sample;
    StayTold(m, o, accepted, rs, log, i, r, e);
    forall p | Present(rs, p)
      ensures Present(rs[i := r], p)
    {
      PresentReplace(rs, i, r, p);
    }
    PresentSelf(rs, i);
    NoneLostAfter(m, o, accepted, rs, rs[i := r], log, e);
  }

  /** A request that leaves with its last word, or with an abort notice, is settled. */
  lemma LeaveSettled(m: Model, o: Options, accepted: map<RequestId, Params>, rs: seq<Req>, log: seq<StepResult>, i: nat, e: StepResult)
    requires Accounted(m, o, accepted, rs, log) && Ordered(rs) && i < |rs| && e.id == rs[i].p.id
    requires Settled(m, o, rs[i].p, LogFor(log, rs[i].p.id) + [e])
    ensures Accounted(m, o, accepted, rs[..i] + rs[i + 1..], log + [e])
  {
    hide NoneLost, Present, Settled, Told;
    LogForOne(log, e, e.id);
    assert accepted[e.id] == rs[i].p;
    LeaveTold(m, o, accepted, rs, log, i, e);
    forall p | Present(rs, p) && p != rs[i].p
      ensures Present(rs[..i] + rs[i + 1..], p)
    {
      PresentRemove(rs, i, p);
    }
    assert NoneLost(m, o, accepted, rs, log);
    assert forall id :: id in accepted && id != e.id ==> accepted[id] != rs[i].p by { DistinctParams(m, o, accepted, rs, log, i); }
    NoneLostAfter(m, o, accepted, rs, rs[..i] + rs[i + 1..], log, e);
  }

  lemma DistinctParams(m: Model, o: Options, accepted: map<RequestId, Params>, rs: seq<Req>, log: seq<StepResult>, i: nat)
    requires NoneLost(m, o, accepted, rs, log) && i < |rs|
    ensures forall id :: id in accepted && id != rs[i].p.id ==> accepted[id] != rs[i].p
  {
  }

  lemma EmitAndLeave(m: Model, o: Options, accepted: map<RequestId, Params>, rs: seq<Req>, log: seq<StepResult>, i: nat, t: TokenId)
    requires Accounted(m, o, accepted, rs, log) && Ordered(rs) && i < |rs|
    requires rs[i].p.prompt != [] && rs[i].reason == FinishReason.Unfinished && t == Sample(m, rs[i].Tokens())
    requires Produce(o, rs[i], t).state != Running
    ensures Accounted(m, o, accepted, rs[..i] + rs[i + 1..], log + [Emission(Produce(o, rs[i], t), t)])
  {
    var e := Emission(Produce(o, rs[i], t), t);
    ProduceFollowsStream(m, o, rs[i], t);
    assert Told(m, o.eos, rs[i], log);
    hide Stream, Produce, Sample, Accounted;
    assert Stream(m, o.eos, rs[i].p, rs[i].outputs) == [e];
    LeaveSettled(m, o, accepted, rs, log, i, e);
  }

  lemma AbortSettles(m: Model, o: Options, accepted: map<RequestId, Params>, rs: seq<Req>, log: seq<StepResult>, i: nat)
    requires Accounted(m, o, accepted, rs, log) && Ordered(rs) && i < |rs| && o.policy == Watermark
    ensures Accounted(m, o, accepted, rs[..i] + rs[i + 1..], log + [AbortNotice(rs[i].p.id)])
  {
    var p := rs[i].p;
    assert Told(m, o.eos, rs[i], log);
    var h, rest, whole := LogFor(log, p.id), Stream(m, o.eos, p, rs[i].outputs), Stream(m, o.eos, p, []);
    hide Stream;
    assert h == whole[..|h|];
    LeaveSettled(m, o, accepted, rs, log, i, AbortNotice(p.id));
  }

  /** Bookkeeping that changes neither parameters nor outputs is invisible. */
  predicate SameStory(a: seq<Req>, b: seq<Req>) {
    |a| == |b| && forall i :: 0 <= i < |a| ==> a[i].p == b[i].p && a[i].outputs == b[i].outputs
  }

  lemma SameStoryAccounted(m: Model, o: Options, accepted: map<RequestId, Params>, a: seq<Req>, b: seq<Req>, log: seq<StepResult>)
    requires Accounted(m, o, accepted, a, log) && SameStory(a, b)
    ensures Accounted(m, o, accepted, b, log)
  {
    hide Stream, Settled;
    forall i | 0 <= i < |b|
      ensures Told(m, o.eos, b[i], log) && b[i].p.id in accepted && accepted[b[i].p.id] == b[i].p
    {
      assert Told(m, o.eos, a[i], log);
    }
    forall id | id in accepted
      ensures Present(b, accepted[id]) || Settled(m, o, accepted[id], LogFor(log, id))
    {
      if k :| 0 <= k < |a| && a[k].p == accepted[id] {
        assert b[k].p == accepted[id];
      }
    }
  }

  lemma {:induction false} NothingSaid(log: seq<StepResult>, id: RequestId)
    requires forall i :: 0 <= i < |log| ==> log[i].id != id
    ensures LogFor(log, id) == []
  {
    if log != [] {
      NothingSaid(log[..|log| - 1], id);
    }
  }

  lemma ArrivalTold(m: Model, o: Options, accepted: map<RequestId, Params>, rs: seq<Req>, log: seq<StepResult>, p: Params)
    requires AllTold(m, o, accepted, rs, log) && p.id !in accepted && p.prompt != []
    requires LogFor(log, p.id) == []
    ensures AllTold(m, o, accepted[p.id := p], rs + [NewReq(p)], log)
  {
    assert Told(m, o.eos, NewReq(p), log);
    hide Told;
  }

  lemma ArrivalNotLost(m: Model, o: Options, accepted: map<RequestId, Params>, rs: seq<Req>, log: seq<StepResult>, p: Params)
    requires NoneLost(m, o, accepted, rs, log) && p.id !in accepted
    ensures NoneLost(m, o, accepted[p.id := p], rs + [NewReq(p)], log)
  {
    hide Settled, Present;
    forall id | id in accepted && Present(rs, accepted[id])
      ensures Present(rs + [NewReq(p)], accepted[id])
    {
      PresentAppend(rs, NewReq(p), accepted[id]);
    }
    PresentAppend(rs, NewReq(p), p);
  }

  /** A new request starts with everything still to be told. */
  lemma ArrivalAccounted(m: Model, o: Options, accepted: map<RequestId, Params>, rs: seq<Req>, log: seq<StepResult>, p: Params)
    requires Accounted(m, o, accepted, rs, log) && p.id !in accepted && p.prompt != []
    ensures Accounted(m, o, accepted[p.id := p], rs + [NewReq(p)], log)
  {
    hide AllTold, NoneLost;
    NothingSaid(log, p.id);
    ArrivalTold(m, o, accepted, rs, log, p);
    ArrivalNotLost(m, o, accepted, rs, log, p);
  }

  lemma PresentAppend(rs: seq<Req>, r: Req, q: Params)
    requires Present(rs, q) || q == r.p
    ensures Present(rs + [r], q)
  {
    if q == r.p {
      assert (rs + [r])[|rs|].p == q;
    } else {
      var k :| 0 <= k < |rs| && rs[k].p == q;
      assert (rs + [r])[k].p == q;
    }
  }
}
