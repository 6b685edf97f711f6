/** A request leaves the engine in exactly the step that reports it finished. */
module Departures {
  import opened Types
  import opened ForwardPass
  import opened SoloDecoding
  import opened SchedulerSpec
  import opened Accounting
  import opened EngineMachine

  /** `results` report request `id` as finished. */
  predicate FinishedIn(results: seq<StepResult>, id: RequestId) {
    exists k :: 0 <= k < |results| && results[k].id == id && results[k].finished
  }

  lemma FinishedSnoc(results: seq<StepResult>, e: StepResult)
    ensures forall id :: FinishedIn(results + [e], id) <==> FinishedIn(results, id) || (e.id == id && e.finished)
  {
    forall id
      ensures FinishedIn(results + [e], id) <==> FinishedIn(results, id) || (e.id == id && e.finished)
    {
      if k :| 0 <= k < |results| && results[k].id == id && results[k].finished {
        assert (results + [e])[k] == results[k];
      }
      assert (results + [e])[|results|] == e;
    }
  }

  lemma {:induction false} HeardInLog(log: seq<StepResult>, k: nat)
    requires k < |log|
    ensures log[k] in LogFor(log, log[k].id)
  {
    var last := |log| - 1;
    if k < last {
      HeardInLog(log[..last], k);
    }
  }

  ghost predicate NoneFinished(h: seq<StepResult>) {
    forall k :: 0 <= k < |h| ==> !h[k].finished
  }

  lemma StillTalking(m: Model, eos: seq<TokenId>, r: Req, log: seq<StepResult>)
    requires Told(m, eos, r, log) && r.p.maxNew > 0
    ensures NoneFinished(LogFor(log, r.p.id))
  {
    StreamShape(m, eos, r.p, []);
    var h, rest, whole := LogFor(log, r.p.id), Stream(m, eos, r.p, r.outputs), Stream(m, eos, r.p, []);
    hide Stream;
    forall k | 0 <= k < |h|
      ensures !h[k].finished
    {
      assert h[k] == whole[k] && |rest| > 0;
    }
  }

  lemma LastWord(m: Model, o: Options, p: Params, h: seq<StepResult>)
    requires Settled(m, o, p, h) && p.maxNew > 0
    ensures h != [] && h[|h| - 1].finished
  {
    StreamShape(m, o.eos, p, []);
    hide Stream;
  }

  lemma FinishedIsHeard(results: seq<StepResult>, id: RequestId)
    ensures NoneFinished(LogFor(results, id)) <==> !FinishedIn(results, id)
  {
    var now := LogFor(results, id);
    if k :| 0 <= k < |results| && results[k].id == id && results[k].finished {
      HeardInLog(results, k);
      var i :| 0 <= i < |now| && now[i] == results[k];
    }
    if i :| 0 <= i < |now| && now[i].finished {
      assert now[i] in results;
    }
  }

  lemma NewsDecides(before: seq<StepResult>, now: seq<StepResult>)
    requires NoneFinished(before)
    ensures NoneFinished(before + now) <==> NoneFinished(now)
  {
    if i :| 0 <= i < |now| && now[i].finished {
      assert (before + now)[|before| + i].finished;
    }
  }

  lemma SaidNow(log: seq<StepResult>, results: seq<StepResult>, id: RequestId)
    requires NoneFinished(LogFor(log, id))
    ensures NoneFinished(LogFor(log + results, id)) <==> !FinishedIn(results, id)
  {
    LogForConcat(log, results, id);
    FinishedIsHeard(results, id);
    NewsDecides(LogFor(log, id), LogFor(results, id));
  }

  /** Stay or leave, read off the step's own results. */
  lemma LeavesWhenFinished(m: Model, o: Options, st: State, st': State, results: seq<StepResult>, p: Params)
    requires Accounted(m, o, st.accepted, st.s.All(), st.log) && Accounted(m, o, st.accepted, st'.s.All(), st'.log)
    requires st'.log == st.log + results && Present(st.s.All(), p) && p.maxNew > 0
    ensures Present(st'.s.All(), p) <==> !FinishedIn(results, p.id)
  {
    hide Stream, Settled, NoneLost;
    var i :| 0 <= i < |st.s.All()| && st.s.All()[i].p == p;
    assert Told(m, o.eos, st.s.All()[i], st.log);
    StillTalking(m, o.eos, st.s.All()[i], st.log);
    SaidNow(st.log, results, p.id);
    if Present(st'.s.All(), p) {
      var k :| 0 <= k < |st'.s.All()| && st'.s.All()[k].p == p;
      assert Told(m, o.eos, st'.s.All()[k], st'.log);
      StillTalking(m, o.eos, st'.s.All()[k], st'.log);
    } else {
      GoneIsSettled(m, o, st, st', p);
      LastWord(m, o, p, LogFor(st'.log, p.id));
    }
  }

  lemma GoneIsSettled(m: Model, o: Options, st: State, st': State, p: Params)
    requires Accounted(m, o, st.accepted, st.s.All(), st.log) && Accounted(m, o, st.accepted, st'.s.All(), st'.log)
    requires Present(st.s.All(), p) && !Present(st'.s.All(), p)
    ensures Settled(m, o, p, LogFor(st'.log, p.id))
  {
    hide Settled, Told;
    var i :| 0 <= i < |st.s.All()| && st.s.All()[i].p == p;
    assert p.id in st.accepted && st.accepted[p.id] == p;
  }
}
