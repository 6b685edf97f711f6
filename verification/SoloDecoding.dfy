/** The reference: one request decoded alone, greedily, with every step
    recomputing the whole prefix. Engine behaviour is stated against it. */
module SoloDecoding {
  import opened Types
  import opened ForwardPass

  /** Token appended after `outs`: scripted if teacher forcing covers the
      position, the model's own choice otherwise. */
  function Appended(p: Params, outs: seq<TokenId>, sampled: TokenId): TokenId {
    if |outs| < |p.forced| then p.forced[|outs|] else sampled
  }

  /** Stop check on the outputs so far; an EOS wins a simultaneous length stop. */
  function StopReason(eos: seq<TokenId>, p: Params, outs: seq<TokenId>): FinishReason
    requires outs != []
  {
    if !p.ignoreEos && outs[|outs| - 1] in eos then Eos
    else if |outs| >= p.maxNew then Length
    else Unfinished
  }

  /** Everything a client is told about `p` from the moment its outputs are `outs`. */
  function Stream(m: Model, eos: seq<TokenId>, p: Params, outs: seq<TokenId>): (s: seq<StepResult>)
    requires p.prompt != []
    ensures s != []
    decreases p.maxNew - |outs|
  {
    var sampled := Sample(m, p.prompt + outs);
    var next := outs + [Appended(p, outs, sampled)];
    var reason := StopReason(eos, p, next);
    [StepResult(p.id, sampled, reason != Unfinished, reason)] +
    if reason == Unfinished then Stream(m, eos, p, next) else []
  }

  function AbortNotice(id: RequestId): StepResult {
    StepResult(id, 0, true, Aborted)
  }

  /** The emissions of one request, in order. */
  function LogFor(log: seq<StepResult>, id: RequestId): (s: seq<StepResult>)
    ensures forall e :: e in s ==> e in log && e.id == id
  {
    if log == [] then []
    else LogFor(log[..|log| - 1], id) + if log[|log| - 1].id == id then [log[|log| - 1]] else []
  }

  lemma Associate(a: seq<StepResult>, b: seq<StepResult>, c: seq<StepResult>)
    ensures (a + b) + c == a + (b + c)
  {
  }

  lemma {:induction false} LogForConcat(a: seq<StepResult>, b: seq<StepResult>, id: RequestId)
    ensures LogFor(a + b, id) == LogFor(a, id) + LogFor(b, id)
  {
    if b == [] {
      assert a + b == a;
    } else {
      var front, last := b[..|b| - 1], b[|b| - 1];
      var one := if last.id == id then [last] else [];
      LogForConcat(a, front, id);
      assert (a + b)[..|a + b| - 1] == a + front && (a + b)[|a + b| - 1] == last;
      assert LogFor(a + b, id) == LogFor(a + front, id) + one;
      assert LogFor(b, id) == LogFor(front, id) + one;
      Associate(LogFor(a, id), LogFor(front, id), one);
    }
  }

  ghost predicate OneFinishLast(s: seq<StepResult>) {
    forall i :: 0 <= i < |s| ==> (s[i].finished <==> i == |s| - 1) && (s[i].finished <==> s[i].reason != Unfinished)
  }

  /** The client view of a solo run: exactly one finished emission, the last,
      never an abort, at most `maxNew` emissions, exactly `maxNew` if EOS is ignored. */
  lemma {:induction false} StreamShape(m: Model, eos: seq<TokenId>, p: Params, outs: seq<TokenId>)
    requires p.prompt != [] && |outs| < p.maxNew
    ensures var s := Stream(m, eos, p, outs);
            && OneFinishLast(s)
            && |s| <= p.maxNew - |outs|
            && (s[|s| - 1].reason == Eos || s[|s| - 1].reason == Length)
            && (s[|s| - 1].reason == Length ==> |s| == p.maxNew - |outs|)
            && (p.ignoreEos ==> s[|s| - 1].reason == Length)
            && forall e :: e in s ==> e.id == p.id && e.reason != Aborted
    decreases p.maxNew - |outs|
  {
    var next := outs + [Appended(p, outs, Sample(m, p.prompt + outs))];
    if StopReason(eos, p, next) == Unfinished {
      StreamShape(m, eos, p, next);
    }
  }

  // ------------------------------------------- the reference without any stops

  /** The first `n` tokens appended after the prompt, were decoding never to stop:
      the script while it lasts, then the greedy continuation. */
  function Greedy(m: Model, p: Params, n: nat): (outs: seq<TokenId>)
    requires p.prompt != []
    ensures |outs| == n
    ensures forall k :: 0 <= k < n && k < |p.forced| ==> outs[k] == p.forced[k]
  {
    if n == 0 then []
    else
      var outs := Greedy(m, p, n - 1);
      outs + [Appended(p, outs, Sample(m, p.prompt + outs))]
  }

  /** A shorter reference is a prefix of a longer one. */
  lemma {:induction false} GreedyPrefix(m: Model, p: Params, n: nat, k: nat)
    requires p.prompt != [] && k <= n
    ensures Greedy(m, p, n)[..k] == Greedy(m, p, k)
  {
    hide Sample;
    if k < n {
      GreedyPrefix(m, p, n - 1, k);
      assert Greedy(m, p, n)[..n - 1] == Greedy(m, p, n - 1);
      assert Greedy(m, p, n)[..k] == Greedy(m, p, n)[..n - 1][..k];
    } else {
      assert Greedy(m, p, n)[..n] == Greedy(m, p, n);
    }
  }

  /** What the reference appends at each position: the script's token while there is
      one, and from then on the model's own choice after everything before it. */
  lemma GreedyContinues(m: Model, p: Params, n: nat, k: nat)
    requires p.prompt != [] && k < n
    ensures Greedy(m, p, n)[k] ==
              if k < |p.forced| then p.forced[k] else Sample(m, p.prompt + Greedy(m, p, n)[..k])
  {
    hide Sample;
    GreedyPrefix(m, p, n, k);
    GreedyPrefix(m, p, n, k + 1);
    assert Greedy(m, p, n)[k] == Greedy(m, p, n)[..k + 1][k];
  }

  /** Emission `k` in full: the model's own choice after `k` appended tokens, and a
      reason read off the appended token alone. An EOS stops unless ignored and wins
      over the length limit; the limit stops at exactly `maxNew`. */
  ghost predicate SaidAt(m: Model, eos: seq<TokenId>, p: Params, e: StepResult, k: nat)
    requires p.prompt != []
  {
    var isEos := !p.ignoreEos && Greedy(m, p, k + 1)[k] in eos;
    && e.id == p.id && e.token == Sample(m, p.prompt + Greedy(m, p, k))
    && (e.reason == Eos <==> isEos)
    && (e.reason == Length <==> !isEos && k + 1 >= p.maxNew)
    && e.reason != Aborted && (e.finished <==> e.reason != Unfinished)
  }

  lemma FirstExplained(m: Model, eos: seq<TokenId>, p: Params, n: nat)
    requires p.prompt != [] && n < p.maxNew
    ensures var s := Stream(m, eos, p, Greedy(m, p, n));
            && SaidAt(m, eos, p, s[0], n)
            && (|s| > 1 ==> n + 1 < p.maxNew && s[1..] == Stream(m, eos, p, Greedy(m, p, n + 1)))
  {
    hide Sample;
    var outs := Greedy(m, p, n);
    assert Greedy(m, p, n + 1) == outs + [Appended(p, outs, Sample(m, p.prompt + outs))];
  }

  /** Every emission of a solo run is the one the stop-free reference explains. */
  lemma {:induction false} StreamExplained(m: Model, eos: seq<TokenId>, p: Params, n: nat)
    requires p.prompt != [] && n < p.maxNew
    ensures var s := Stream(m, eos, p, Greedy(m, p, n));
            forall k :: 0 <= k < |s| ==> SaidAt(m, eos, p, s[k], n + k)
    decreases p.maxNew - n
  {
    hide Sample, SaidAt, Greedy;
    var s := Stream(m, eos, p, Greedy(m, p, n));
    FirstExplained(m, eos, p, n);
    hide Stream;
    if |s| > 1 {
      StreamExplained(m, eos, p, n + 1);
      forall k | 1 <= k < |s|
        ensures SaidAt(m, eos, p, s[k], n + k)
      {
        assert s[k] == s[1..][k - 1];
      }
    }
  }
}
