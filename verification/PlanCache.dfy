/** The GEMM plan cache and graph capture: what a capture region may find, and why
    it never has to ask for a new plan. */
module PlanCaching {
  import opened Types
  import opened PrefillAttention

  datatype GemmError = NotPlannedInCapture | NoAlgorithm

  datatype Plan = Plan(config: GemmConfig, available: bool)

  /** Strides of an unbatched problem are meaningless; equal problems share a key. */
  function Normalized(c: GemmConfig): (n: GemmConfig)
    ensures n.batch == 1 ==> n.strideA == n.strideB == n.strideD == 0
  {
    if c.batch == 1 then c.(strideA := 0, strideB := 0, strideD := 0) else c
  }

  /** Normalizing twice is normalizing once, and keeps every address the call uses. */
  lemma NormalizedKeepsProblem(c: GemmConfig, i: nat, col: nat, row: nat,
                               a: seq<real>, aBase: nat, b: seq<real>, bBase: nat, alpha: real)
    requires InRange(c, i, col, row)
    ensures Normalized(Normalized(c)) == Normalized(c)
    ensures Cell(Normalized(c), i, col, row) == Cell(c, i, col, row)
    ensures Product(Normalized(c), a, aBase, b, bBase, alpha, i, col, row) == Product(c, a, aBase, b, bBase, alpha, i, col, row)
  {
    hide Dot;
    if c.batch == 1 {
      assert i == 0;
    }
  }

  /** The widths every linear layer of the model is built from. */
  datatype Dims = Dims(layers: nat, hidden: nat, qkvWidth: nat, gateUpWidth: nat, intermediate: nat, vocab: nat)

  /** The linear layers of one transformer layer at `rows` rows, in order. */
  function LayerConfigs(d: Dims, rows: nat): seq<GemmConfig> {
    [Linear(rows, d.qkvWidth, d.hidden, d.hidden, d.qkvWidth, true),
     Linear(rows, d.hidden, d.hidden, d.hidden, d.hidden, false),
     Linear(rows, d.gateUpWidth, d.hidden, d.hidden, d.gateUpWidth, false),
     Linear(rows, d.hidden, d.intermediate, d.gateUpWidth, d.hidden, false)]
  }

  function LmHead(d: Dims, rows: nat): GemmConfig {
    Linear(rows, d.vocab, d.hidden, d.hidden, d.vocab, false)
  }

  /** Everything a decode forward at `rows` rows needs planned. */
  function DecodeConfigs(d: Dims, rows: nat): seq<GemmConfig> {
    (if d.layers > 0 then LayerConfigs(d, rows) else []) + [LmHead(d, rows)]
  }

  /** The five products of a forward fit together: every call multiplies dense weights
      with `rows` whole rows, one product reads what the one before it wrote, and only
      the first adds a bias. */
  lemma LayersChain(d: Dims, rows: nat)
    ensures var cs, head := LayerConfigs(d, rows), LmHead(d, rows);
            && |cs| == 4
            && (forall c :: c in cs + [head] ==> c.n == rows && c.transposeA && c.lda == c.k && c.ldd == c.m && c.batch == 1)
            && (forall c :: c in cs + [head] ==> c.bias == (c == cs[0]))
            // The residual stream: into attention and out, into the MLP and out, into the head.
            && cs[0].k == cs[0].ldb == cs[1].m == cs[2].k == cs[2].ldb == cs[3].m == head.k == head.ldb == d.hidden
            && cs[0].m == d.qkvWidth && cs[1].k == cs[1].ldb == d.hidden
            // The down projection reads the gate half of rows as wide as gate and up together.
            && cs[2].m == cs[3].ldb == d.gateUpWidth && cs[3].k == d.intermediate
            && head.m == d.vocab
  {
  }

  class PlanCache {
    // The heuristic's answer per configuration: a property of the device.
    const supported: GemmConfig -> bool
    var plans: seq<Plan>
    var index: map<GemmConfig, nat>

    /** The index is exactly the positions of the plans, one per configuration. */
    ghost predicate Valid()
      reads this
    {
      && (forall c :: c in index ==> index[c] < |plans| && plans[index[c]].config == c)
      && (forall k :: 0 <= k < |plans| ==> plans[k].config in index && index[plans[k].config] == k)
      && forall k :: 0 <= k < |plans| ==> plans[k] == Plan(plans[k].config, supported(plans[k].config))
    }

    ghost function Known(): set<GemmConfig>
      reads this
    {
      index.Keys
    }

    constructor (heuristic: GemmConfig -> bool)
      ensures Valid() && supported == heuristic && Known() == {}
    {
      supported := heuristic;
      plans := [];
      index := map[];
    }

    method BuildPlan(c: GemmConfig) returns (plan: Plan)
      requires Valid() && c !in index
      modifies this
      ensures Valid() && Known() == old(Known()) + {c} && old(plans) <= plans && |plans| == old(|plans|) + 1
      ensures plan == Plan(c, supported(c))
    {
      plan := Plan(c, supported(c));
      plans := plans + [plan];
      index := index[c := |plans| - 1];
    }

    /** Is the configuration runnable? Plans it on first sight. */
    method Probe(config: GemmConfig) returns (available: bool)
      requires Valid()
      modifies this
      ensures Valid() && available == supported(Normalized(config))
      ensures Known() == old(Known()) + {Normalized(config)} && old(plans) <= plans
      ensures Normalized(config) in old(Known()) ==> plans == old(plans)
    {
      var c := Normalized(config);
      if c in index {
        return plans[index[c]].available;
      }
      var plan := BuildPlan(c);
      available := plan.available;
    }

    /** The plan a run uses. Inside a capture region a miss is an error. */
    method Run(config: GemmConfig, capturing: bool) returns (error: Option<GemmError>)
      requires Valid()
      modifies this
      ensures Valid() && old(plans) <= plans
      ensures capturing || Normalized(config) in old(Known()) ==> plans == old(plans) && Known() == old(Known())
      ensures !capturing ==> Known() == old(Known()) + {Normalized(config)}
      ensures error.None? <==> supported(Normalized(config)) && (capturing ==> Normalized(config) in old(Known()))
    {
      var c := Normalized(config);
      if c in index {
        return if plans[index[c]].available then None else Some(NoAlgorithm);
      }
      if capturing {
        return Some(NotPlannedInCapture);
      }
      var plan := BuildPlan(c);
      error := if plan.available then None else Some(NoAlgorithm);
    }

    ghost predicate Runnable(configs: seq<GemmConfig>) {
      forall j :: 0 <= j < |configs| ==> supported(Normalized(configs[j]))
    }

    /** Several runs in a row; stops at the first error. What is known is not asked for again. */
    method RunAll(configs: seq<GemmConfig>, capturing: bool) returns (error: Option<GemmError>)
      requires Valid()
      modifies this
      ensures Valid() && old(plans) <= plans && old(Known()) <= Known()
      ensures capturing || Knows(configs, old(Known())) ==> plans == old(plans) && Known() == old(Known())
      ensures error.None? <==> Runnable(configs) && (capturing ==> Knows(configs, old(Known())))
      ensures error.None? ==> Knows(configs, Known())
    {
      for k := 0 to |configs|
        invariant Valid() && old(plans) <= plans && old(Known()) <= Known()
        invariant capturing || Knows(configs, old(Known())) ==> plans == old(plans) && Known() == old(Known())
        invariant forall j :: 0 <= j < k ==> Normalized(configs[j]) in Known() && supported(Normalized(configs[j]))
      {
        error := Run(configs[k], capturing);
        if error.Some? {
          return;
        }
      }
      error := None;
    }

    /** The GEMMs of one decode forward: every layer's, then the head's. At a row
        count already known it asks for no plan, inside a capture region or not. */
    method DecodeForward(d: Dims, rows: nat, capturing: bool) returns (error: Option<GemmError>)
      requires Valid()
      modifies this
      ensures Valid() && old(plans) <= plans && old(Known()) <= Known()
      ensures capturing || Knows(DecodeConfigs(d, rows), old(Known())) ==> plans == old(plans) && Known() == old(Known())
      ensures error.None? <==>
                Runnable(DecodeConfigs(d, rows)) && (capturing ==> Knows(DecodeConfigs(d, rows), old(Known())))
      ensures error.None? ==> Knows(DecodeConfigs(d, rows), Known())
    {
      hide LayerConfigs, LmHead, Normalized;
      var layer, head := LayerConfigs(d, rows), LmHead(d, rows);
      DecodeParts(d, rows, Known());
      for l := 0 to d.layers
        invariant Valid() && old(plans) <= plans && old(Known()) <= Known()
        invariant capturing || Knows(DecodeConfigs(d, rows), old(Known())) ==> plans == old(plans) && Known() == old(Known())
        invariant l > 0 ==> Runnable(layer) && Knows(layer, Known()) && (capturing ==> Knows(layer, old(Known())))
      {
        DecodeParts(d, rows, Known());
        error := RunAll(layer, capturing);
        if error.Some? {
          return;
        }
      }
      error := Run(head, capturing);
      DecodeParts(d, rows, Known());
    }

    /** What the head and the layers need is what the forward needs. */
    lemma DecodeParts(d: Dims, rows: nat, known: set<GemmConfig>)
      ensures Knows(DecodeConfigs(d, rows), known) <==>
                (d.layers > 0 ==> Knows(LayerConfigs(d, rows), known)) && Normalized(LmHead(d, rows)) in known
      ensures Runnable(DecodeConfigs(d, rows)) <==>
                (d.layers > 0 ==> Runnable(LayerConfigs(d, rows))) && supported(Normalized(LmHead(d, rows)))
    {
      hide LayerConfigs, LmHead, Normalized;
      var layer, all := LayerConfigs(d, rows), DecodeConfigs(d, rows);
      assert all[|all| - 1] == LmHead(d, rows);
      if d.layers > 0 {
        assert forall j :: 0 <= j < |layer| ==> all[j] == layer[j];
      }
    }

    /** Plan a batch of configurations ahead of any run; true when all are available. */
    method ProbeAll(configs: seq<GemmConfig>) returns (ok: bool)
      requires Valid()
      modifies this
      ensures Valid() && old(plans) <= plans && old(Known()) <= Known()
      ensures ok == Runnable(configs) && Knows(configs, Known())
    {
      ok := true;
      for k := 0 to |configs|
        invariant Valid() && old(plans) <= plans && old(Known()) <= Known()
        invariant ok <==> forall j :: 0 <= j < k ==> supported(Normalized(configs[j]))
        invariant forall j :: 0 <= j < k ==> Normalized(configs[j]) in Known()
      {
        var available := Probe(configs[k]);
        ok := ok && available;
      }
    }

    /** Before serving, every bucket and the batch cap itself are probed. */
    method ProbeDecodeConfigs(d: Dims, buckets: seq<nat>, maxBatch: nat) returns (ok: bool)
      requires Valid()
      modifies this
      ensures Valid() && old(plans) <= plans && old(Known()) <= Known()
      ensures forall b :: b in buckets + [maxBatch] ==> Knows(DecodeConfigs(d, b), Known())
      ensures ok ==> forall b :: b in buckets + [maxBatch] ==> Runnable(DecodeConfigs(d, b))
      ensures !ok ==> exists b :: b in buckets + [maxBatch] && !Runnable(LayerConfigs(d, b) + [LmHead(d, b)])
    {
      hide LayerConfigs, LmHead, Normalized, Knows, PlanCache.Runnable;
      var shapes := buckets;
      if shapes == [] || shapes[|shapes| - 1] != maxBatch {
        shapes := shapes + [maxBatch];
      }
      assert forall b :: b in buckets + [maxBatch] <==> b in shapes;
      ok := true;
      for k := 0 to |shapes|
        invariant Valid() && old(plans) <= plans && old(Known()) <= Known()
        invariant forall i :: 0 <= i < k ==> Knows(DecodeConfigs(d, shapes[i]), Known())
        invariant ok ==> forall i :: 0 <= i < k ==> Runnable(DecodeConfigs(d, shapes[i]))
        invariant !ok ==> exists i :: 0 <= i < k && !Runnable(LayerConfigs(d, shapes[i]) + [LmHead(d, shapes[i])])
      {
        ghost var before := Known();
        var available := ProbeAll(LayerConfigs(d, shapes[k]) + [LmHead(d, shapes[k])]);
        forall i | 0 <= i < k
          ensures Knows(DecodeConfigs(d, shapes[i]), Known())
        {
          StillKnown(DecodeConfigs(d, shapes[i]), before, Known());
        }
        ProbedIsEnough(d, shapes[k]);
        ok := ok && available;
      }
    }

    lemma ProbedIsEnough(d: Dims, rows: nat)
      requires Knows(LayerConfigs(d, rows) + [LmHead(d, rows)], Known())
      ensures Knows(DecodeConfigs(d, rows), Known())
      ensures Runnable(LayerConfigs(d, rows) + [LmHead(d, rows)]) ==> Runnable(DecodeConfigs(d, rows))
    {
      hide LayerConfigs, LmHead, Normalized;
      var probed := LayerConfigs(d, rows) + [LmHead(d, rows)];
      assert probed[|probed| - 1] == LmHead(d, rows);
    }

    /** Warm every bucket eagerly, then capture every bucket. Both phases run the same
        forward at the same row count, so capture adds no plan and fails in no case
        the warmup did not already fail in. */
    method CaptureDecodeGraphs(d: Dims, buckets: seq<nat>) returns (captured: nat, error: Option<GemmError>, ghost warm: seq<Plan>)
      requires Valid()
      modifies this
      ensures Valid() && old(plans) <= warm <= plans
      ensures error.None? <==> forall b :: 0 <= b < |buckets| ==> Runnable(DecodeConfigs(d, buckets[b]))
      ensures captured == if error.None? then |buckets| else 0
      ensures error.None? ==> plans == warm && forall b :: 0 <= b < |buckets| ==> Knows(DecodeConfigs(d, buckets[b]), Known())
      ensures (forall b :: 0 <= b < |buckets| ==> Knows(DecodeConfigs(d, buckets[b]), old(Known()))) ==>
                plans == old(plans) && Known() == old(Known())
    {
      hide DecodeConfigs, Knows, PlanCache.Runnable;
      captured, warm := 0, plans;
      for b := 0 to |buckets|
        invariant Valid() && old(plans) <= plans && old(Known()) <= Known()
        invariant forall i :: 0 <= i < b ==> Runnable(DecodeConfigs(d, buckets[i])) && Knows(DecodeConfigs(d, buckets[i]), Known())
        invariant (forall i :: 0 <= i < |buckets| ==> Knows(DecodeConfigs(d, buckets[i]), old(Known()))) ==>
                    plans == old(plans) && Known() == old(Known())
      {
        ghost var before := Known();
        error := DecodeForward(d, buckets[b], false);
        if error.Some? {
          warm := plans;
          return;
        }
        forall i | 0 <= i < b
          ensures Knows(DecodeConfigs(d, buckets[i]), Known())
        {
          StillKnown(DecodeConfigs(d, buckets[i]), before, Known());
        }
      }
      warm := plans;
      ghost var known := Known();
      for b := 0 to |buckets|
        invariant Valid() && captured == b && plans == warm && Known() == known
        invariant forall i :: 0 <= i < |buckets| ==> Runnable(DecodeConfigs(d, buckets[i])) && Knows(DecodeConfigs(d, buckets[i]), Known())
      {
        error := DecodeForward(d, buckets[b], true);
        assert error.None?;
        captured := captured + 1;
      }
      error := None;
    }

    /** Once warm, the head of a final prefill chunk, one row, is planned too. */
    lemma FinalChunkHeadIsWarm(d: Dims)
      requires Knows(DecodeConfigs(d, 1), Known())
      ensures Normalized(LmHead(d, 1)) in Known()
    {
      DecodeParts(d, 1, Known());
    }
  }

  ghost predicate Knows(configs: seq<GemmConfig>, known: set<GemmConfig>) {
    forall j :: 0 <= j < |configs| ==> Normalized(configs[j]) in known
  }

  lemma StillKnown(configs: seq<GemmConfig>, known: set<GemmConfig>, more: set<GemmConfig>)
    requires Knows(configs, known) && known <= more
    ensures Knows(configs, more)
  {
  }

  /** Life of the cache: probe, capture, then serve. A step at any bucket, or at the
      batch cap, adds no plan whether it replays, runs eagerly or is being captured. */
  method ServeAfterCapture(cache: PlanCache, d: Dims, buckets: seq<nat>, maxBatch: nat, steps: seq<nat>)
    returns (ready: bool, ghost warm: seq<Plan>)
    requires cache.Valid() && forall k :: 0 <= k < |steps| ==> steps[k] in buckets + [maxBatch]
    modifies cache
    ensures cache.Valid() && cache.plans == warm
    ensures ready ==> forall b :: b in buckets + [maxBatch] ==> Knows(DecodeConfigs(d, b), cache.Known())
  {
    hide DecodeConfigs, LayerConfigs, LmHead, Knows, PlanCache.Runnable;
    ready := cache.ProbeDecodeConfigs(d, buckets, maxBatch);
    warm := cache.plans;
    if !ready {
      return;
    }
    ghost var known := cache.Known();
    assert forall b :: 0 <= b < |buckets| ==> buckets[b] in buckets + [maxBatch];
    var captured, error, _ := cache.CaptureDecodeGraphs(d, buckets);
    for k := 0 to |steps|
      invariant cache.Valid() && cache.plans == warm && cache.Known() == known
    {
      error := cache.DecodeForward(d, steps[k], false);
      assert error.None?;
    }
  }
}
