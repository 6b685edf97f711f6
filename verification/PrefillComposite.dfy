/** One layer's prefill attention as a whole: scores, causal softmax and values over
    the executor's buffers amount to plain attention of each query over its own prefix. */
module PrefillComposite {
  import opened SchedulerSpec
  import opened Execution
  import opened PrefillAttention

  /** The scaled scores of row `t` of head `h` against keys `0..n`. */
  function PrefixScores(sh: Shape, khat: seq<real>, qkv: seq<real>, alpha: real, h: nat, t: nat, n: nat): (s: seq<real>)
    requires sh.group >= 1
    ensures |s| == n && forall j :: 0 <= j < n ==> s[j] == Score(sh, khat, qkv, alpha, h, t, j)
  {
    seq(n, j requires 0 <= j < n => Score(sh, khat, qkv, alpha, h, t, j))
  }

  /** Component `r` of attention of head `h` of row `t` over positions `0..n`: what the
      query, its keys and its values determine, with no word about chunks or masks. */
  function Attention(sh: Shape, softmax: seq<real> -> seq<real>, khat: seq<real>, vhat: seq<real>, qkv: seq<real>, alpha: real,
                     h: nat, t: nat, n: nat, r: nat): real
    requires sh.group >= 1
  {
    var weights := softmax(PrefixScores(sh, khat, qkv, alpha, h, t, n));
    1.0 * Dot(vhat, h / sh.group * sh.plane + r, sh.headDim, weights, 0, 1, n)
  }

  /** Element `j` of a vector laid out from `base`. */
  function Nth(a: seq<real>, base: nat, j: nat): real { At(a, base + j) }

  /** The first `n` scores of query `t` of head `h`. */
  function RowPrefix(sh: Shape, scores: seq<real>, h: nat, t: nat, n: nat): (s: seq<real>)
    ensures |s| == n
  {
    seq(n, j requires 0 <= j < n => At(scores, ScoreIndex(sh, h, t, j)))
  }

  /** The causal softmax contract: query `t` sits at position `chunkStart + t`, weighs
      positions up to its own, and gives later ones an exact zero. */
  function Weight(sh: Shape, softmax: seq<real> -> seq<real>, chunkStart: nat, scores: seq<real>, h: nat, t: nat, s: nat): real {
    if s <= chunkStart + t then At(softmax(RowPrefix(sh, scores, h, t, chunkStart + t + 1)), s) else 0.0
  }

  ghost predicate Weighted(sh: Shape, softmax: seq<real> -> seq<real>, chunkStart: nat, scores: seq<real>, probs: seq<real>) {
    forall h, t, s :: 0 <= h < sh.Heads() && 0 <= t < sh.rows && 0 <= s < sh.ctx ==>
      At(probs, ScoreIndex(sh, h, t, s)) == Weight(sh, softmax, chunkStart, scores, h, t, s)
  }

  /** Zero weights past `n` leave a sum over the prefix. */
  lemma {:induction false} MaskedTail(a: seq<real>, aBase: nat, aStep: nat, b: seq<real>, bBase: nat, n: nat, k: nat)
    requires n <= k && forall j :: n <= j < k ==> Nth(b, bBase, j) == 0.0
    ensures Dot(a, aBase, aStep, b, bBase, 1, k) == Dot(a, aBase, aStep, b, bBase, 1, n)
    decreases k
  {
    if n < k {
      MaskedTail(a, aBase, aStep, b, bBase, n, k - 1);
      assert Nth(b, bBase, k - 1) == 0.0;
    }
  }

  lemma {:induction false} SameWeights(a: seq<real>, aBase: nat, aStep: nat, b: seq<real>, bBase: nat, w: seq<real>, n: nat)
    requires forall j :: 0 <= j < n ==> Nth(b, bBase, j) == At(w, j)
    ensures Dot(a, aBase, aStep, b, bBase, 1, n) == Dot(a, aBase, aStep, w, 0, 1, n)
  {
    if n > 0 {
      SameWeights(a, aBase, aStep, b, bBase, w, n - 1);
      assert Nth(b, bBase, n - 1) == At(w, n - 1);
    }
  }

  lemma PrefixIsScores(sh: Shape, scores: seq<real>, khat: seq<real>, qkv: seq<real>, alpha: real, h: nat, t: nat, n: nat)
    requires sh.Valid() && h < sh.Heads() && t < sh.rows && n <= sh.ctx
    requires ScoresOf(sh, scores, khat, qkv, alpha, 0, sh.Heads())
    ensures RowPrefix(sh, scores, h, t, n) == PrefixScores(sh, khat, qkv, alpha, h, t, n)
  {
    hide ScoreIndex, Score;
    forall j | 0 <= j < n
      ensures RowPrefix(sh, scores, h, t, n)[j] == Score(sh, khat, qkv, alpha, h, t, j)
    {
      assert At(scores, ScoreIndex(sh, h, t, j)) == Score(sh, khat, qkv, alpha, h, t, j);
    }
  }

  lemma RowIndex(sh: Shape, h: nat, t: nat, s: nat)
    ensures ScoreIndex(sh, h, t, 0) + s == ScoreIndex(sh, h, t, s)
  {
  }

  lemma RowWeights(sh: Shape, softmax: seq<real> -> seq<real>, chunkStart: nat, scores: seq<real>, probs: seq<real>, h: nat, t: nat)
    requires h < sh.Heads() && t < sh.rows && Weighted(sh, softmax, chunkStart, scores, probs)
    ensures var row, w := ScoreIndex(sh, h, t, 0), softmax(RowPrefix(sh, scores, h, t, chunkStart + t + 1));
            forall j :: 0 <= j < sh.ctx ==> Nth(probs, row, j) == if j <= chunkStart + t then At(w, j) else 0.0
  {
    hide ScoreIndex, RowPrefix;
    forall j | 0 <= j < sh.ctx
      ensures Nth(probs, ScoreIndex(sh, h, t, 0), j) == Weight(sh, softmax, chunkStart, scores, h, t, j)
    {
      RowIndex(sh, h, t, j);
    }
  }

  /** What the value product contracts, over the whole context, is attention of the
      query over its own prefix: chunk shape and mask drop out. */
  lemma CompositeIsAttention(sh: Shape, softmax: seq<real> -> seq<real>, chunkStart: nat, scores: seq<real>, probs: seq<real>,
                             khat: seq<real>, vhat: seq<real>, qkv: seq<real>, alpha: real, h: nat, t: nat, r: nat)
    requires sh.Valid() && chunkStart + sh.rows == sh.ctx && h < sh.Heads() && t < sh.rows
    requires ScoresOf(sh, scores, khat, qkv, alpha, 0, sh.Heads()) && Weighted(sh, softmax, chunkStart, scores, probs)
    ensures Output(sh, vhat, probs, h, t, r) == Attention(sh, softmax, khat, vhat, qkv, alpha, h, t, chunkStart + t + 1, r)
  {
    hide Dot, ScoresOf, PrefixScores, RowPrefix, Weighted, ScoreIndex, Nth, Shape.Valid;
    var n := chunkStart + t + 1;
    var base, row := h / sh.group * sh.plane + r, ScoreIndex(sh, h, t, 0);
    var w := softmax(RowPrefix(sh, scores, h, t, n));
    RowWeights(sh, softmax, chunkStart, scores, probs, h, t);
    MaskedTail(vhat, base, sh.headDim, probs, row, n, sh.ctx);
    SameWeights(vhat, base, sh.headDim, probs, row, w, n);
    PrefixIsScores(sh, scores, khat, qkv, alpha, h, t, n);
  }

  // ------------------------------------------------- chunks do not matter

  /** Where component `c` of key or value `s` of KV head `g` sits, and of query `t` of head `h`. */
  function KvIndex(sh: Shape, g: nat, s: nat, c: nat): nat { g * sh.plane + s * sh.headDim + c }
  function QIndex(sh: Shape, h: nat, t: nat, c: nat): nat { h * sh.headDim + t * sh.qStride + c }

  ghost predicate SameTile(sh: Shape, a: seq<real>, b: seq<real>, g: nat, n: nat) {
    forall s, c :: 0 <= s < n && 0 <= c < sh.headDim ==> At(a, KvIndex(sh, g, s, c)) == At(b, KvIndex(sh, g, s, c))
  }

  ghost predicate SameQuery(sh: Shape, a: seq<real>, t: nat, b: seq<real>, u: nat, h: nat) {
    forall c :: 0 <= c < sh.headDim ==> At(a, QIndex(sh, h, t, c)) == At(b, QIndex(sh, h, u, c))
  }

  function Strided(a: seq<real>, base: nat, step: nat, j: nat): real { At(a, base + j * step) }

  lemma {:induction false} DotAgrees(a: seq<real>, a': seq<real>, aBase: nat, step: nat, b: seq<real>, bBase: nat,
                                     b': seq<real>, bBase': nat, k: nat)
    requires forall j :: 0 <= j < k ==> Strided(a, aBase, step, j) == Strided(a', aBase, step, j)
    requires forall j :: 0 <= j < k ==> Nth(b, bBase, j) == Nth(b', bBase', j)
    ensures Dot(a, aBase, step, b, bBase, 1, k) == Dot(a', aBase, step, b', bBase', 1, k)
  {
    if k > 0 {
      DotAgrees(a, a', aBase, step, b, bBase, b', bBase', k - 1);
      assert Strided(a, aBase, step, k - 1) == Strided(a', aBase, step, k - 1);
      assert Nth(b, bBase, k - 1) == Nth(b', bBase', k - 1);
    }
  }

  lemma ScoreAgrees(sh: Shape, sh': Shape, khat: seq<real>, khat': seq<real>, qkv: seq<real>, qkv': seq<real>, alpha: real,
                    h: nat, t: nat, t': nat, n: nat, s: nat)
    requires sh.group >= 1 && sh' == sh.(rows := sh'.rows, ctx := sh'.ctx) && s < n
    requires SameTile(sh, khat, khat', h / sh.group, n) && SameQuery(sh, qkv, t, qkv', t', h)
    ensures Score(sh, khat, qkv, alpha, h, t, s) == Score(sh', khat', qkv', alpha, h, t', s)
  {
    hide Dot;
    var k, q, q' := KvIndex(sh, h / sh.group, s, 0), QIndex(sh, h, t, 0), QIndex(sh, h, t', 0);
    forall c | 0 <= c < sh.headDim
      ensures Strided(khat, k, 1, c) == Strided(khat', k, 1, c) && Nth(qkv, q, c) == Nth(qkv', q', c)
    {
      assert At(khat, KvIndex(sh, h / sh.group, s, c)) == At(khat', KvIndex(sh, h / sh.group, s, c));
      assert At(qkv, QIndex(sh, h, t, c)) == At(qkv', QIndex(sh, h, t', c));
    }
    DotAgrees(khat, khat', k, 1, qkv, q, qkv', q', sh.headDim);
  }

  /** The same query over the same keys and values attends alike as a row of any two
      chunks: how a prompt is cut, and what lies past the position, is invisible. */
  lemma AttentionIgnoresChunks(sh: Shape, sh': Shape, softmax: seq<real> -> seq<real>, khat: seq<real>, khat': seq<real>,
                               vhat: seq<real>, vhat': seq<real>, qkv: seq<real>, qkv': seq<real>, alpha: real,
                               h: nat, t: nat, t': nat, n: nat, r: nat)
    requires sh.group >= 1 && sh' == sh.(rows := sh'.rows, ctx := sh'.ctx) && r < sh.headDim
    requires SameTile(sh, khat, khat', h / sh.group, n) && SameTile(sh, vhat, vhat', h / sh.group, n)
    requires SameQuery(sh, qkv, t, qkv', t', h)
    ensures Attention(sh, softmax, khat, vhat, qkv, alpha, h, t, n, r)
         == Attention(sh', softmax, khat', vhat', qkv', alpha, h, t', n, r)
  {
    hide Dot, Score, SameQuery;
    forall s | 0 <= s < n
      ensures Score(sh, khat, qkv, alpha, h, t, s) == Score(sh', khat', qkv', alpha, h, t', s)
    {
      ScoreAgrees(sh, sh', khat, khat', qkv, qkv', alpha, h, t, t', n, s);
    }
    assert PrefixScores(sh, khat, qkv, alpha, h, t, n) == PrefixScores(sh', khat', qkv', alpha, h, t', n);
    var w := softmax(PrefixScores(sh, khat, qkv, alpha, h, t, n));
    var base := h / sh.group * sh.plane + r;
    forall s | 0 <= s < n
      ensures Strided(vhat, base, sh.headDim, s) == Strided(vhat', base, sh.headDim, s)
    {
      assert At(vhat, KvIndex(sh, h / sh.group, s, r)) == At(vhat', KvIndex(sh, h / sh.group, s, r));
    }
    DotAgrees(vhat, vhat', base, sh.headDim, w, 0, w, 0, n);
  }

  // -------------------------------------------------------- the three passes

  /** Score index `x` read back as head, query, position. */
  function WeightAt(sh: Shape, softmax: seq<real> -> seq<real>, chunkStart: nat, scores: seq<real>, x: nat): real
    requires sh.ctx > 0 && sh.ScorePlane() > 0
  {
    var rest := x % sh.ScorePlane();
    Weight(sh, softmax, chunkStart, scores, x / sh.ScorePlane(), rest / sh.ctx, rest % sh.ctx)
  }

  lemma WeightAtIndex(sh: Shape, softmax: seq<real> -> seq<real>, chunkStart: nat, scores: seq<real>, h: nat, t: nat, s: nat)
    requires sh.Valid() && h < sh.Heads() && t < sh.rows && s < sh.ctx && sh.ScorePlane() > 0
    ensures WeightAt(sh, softmax, chunkStart, scores, ScoreIndex(sh, h, t, s)) == Weight(sh, softmax, chunkStart, scores, h, t, s)
  {
    hide Weight, Shape.Valid;
    var rest := t * sh.ctx + s;
    ScoreIndexBounds(sh, h, t, s);
    Split(h, sh.ScorePlane(), rest);
    Split(t, sh.ctx, s);
  }

  lemma Split(q: nat, d: nat, r: nat)
    requires r < d
    ensures (q * d + r) / d == q && (q * d + r) % d == r
  {
    var n := q * d + r;
    DivMod(q, d, r, n / d, n % d);
  }

  lemma PlaneIsPositive(sh: Shape)
    requires sh.Valid()
    ensures sh.ScorePlane() > 0
  {
    MulMono(1, sh.rows, sh.ctx);
  }

  method PrefillSoftmax(sh: Shape, softmax: seq<real> -> seq<real>, chunkStart: nat, scores: array<real>, probs: array<real>)
    requires sh.Valid() && scores != probs && probs.Length >= sh.Heads() * sh.ScorePlane()
    modifies probs
    ensures Weighted(sh, softmax, chunkStart, scores[..], probs[..])
    ensures forall x :: sh.Heads() * sh.ScorePlane() <= x < probs.Length ==> probs[x] == old(probs[x])
  {
    hide Weight, WeightAt, ScoreIndex;
    PlaneIsPositive(sh);
    ghost var given := scores[..];
    for x := 0 to sh.Heads() * sh.ScorePlane()
      invariant forall y :: 0 <= y < x ==> probs[y] == WeightAt(sh, softmax, chunkStart, given, y)
      invariant forall y :: x <= y < probs.Length ==> probs[y] == old(probs[y])
    {
      probs[x] := WeightAt(sh, softmax, chunkStart, scores[..], x);
    }
    forall h, t, s | 0 <= h < sh.Heads() && 0 <= t < sh.rows && 0 <= s < sh.ctx
      ensures At(probs[..], ScoreIndex(sh, h, t, s)) == Weight(sh, softmax, chunkStart, given, h, t, s)
    {
      IndexInRegion(sh, h, t, s);
      WeightAtIndex(sh, softmax, chunkStart, given, h, t, s);
    }
  }

  lemma IndexInRegion(sh: Shape, h: nat, t: nat, s: nat)
    requires h < sh.Heads() && t < sh.rows && s < sh.ctx
    ensures ScoreIndex(sh, h, t, s) < sh.Heads() * sh.ScorePlane()
  {
    ScoreIndexBounds(sh, h, t, s);
    MulMono(h + 1, sh.Heads(), sh.ScorePlane());
  }

  /** The buffers a composite step works in. */
  ghost predicate Buffers(sh: Shape, scores: array<real>, probs: array<real>, out: array<real>) {
    && scores != probs && scores != out && probs != out
    && scores.Length >= sh.Heads() * sh.ScorePlane() && probs.Length >= sh.Heads() * sh.ScorePlane()
    && out.Length >= sh.rows * sh.outStride
  }

  /** One layer's composite after the gather, in either GEMM form: every head of every
      chunk row ends up attending to exactly its own prefix. */
  method EnqueuePrefillAttention(sh: Shape, mode: Mode, chunkStart: nat, softmax: seq<real> -> seq<real>,
                                 khat: seq<real>, vhat: seq<real>, qkv: seq<real>, alpha: real,
                                 scores: array<real>, probs: array<real>, out: array<real>)
    requires sh.Valid() && chunkStart + sh.rows == sh.ctx && Buffers(sh, scores, probs, out)
    modifies scores, probs, out
    ensures forall h, t, r :: 0 <= h < sh.Heads() && 0 <= t < sh.rows && 0 <= r < sh.headDim ==>
              At(out[..], OutIndex(sh, h, t, r)) == Attention(sh, softmax, khat, vhat, qkv, alpha, h, t, chunkStart + t + 1, r)
    ensures forall x :: sh.rows * sh.outStride <= x < out.Length ==> out[x] == old(out[x])
  {
    hide Attention, Weighted, ScoresOf, ScoreIndex, OutIndex, Output;
    Scores(sh, mode, scores, khat, qkv, alpha);
    PrefillSoftmax(sh, softmax, chunkStart, scores, probs);
    ghost var s := scores[..];
    var p := probs[..];
    Outputs(sh, mode, out, vhat, p);
    forall h, t, r | 0 <= h < sh.Heads() && 0 <= t < sh.rows && 0 <= r < sh.headDim
      ensures At(out[..], OutIndex(sh, h, t, r)) == Attention(sh, softmax, khat, vhat, qkv, alpha, h, t, chunkStart + t + 1, r)
    {
      assert At(out[..], OutIndex(sh, h, t, r)) == Output(sh, vhat, p, h, t, r);
      CompositeIsAttention(sh, softmax, chunkStart, s, p, khat, vhat, qkv, alpha, h, t, r);
    }
  }

  // ---------------------------------------------------------- from the executor

  /** Head counts and width of the model. */
  datatype Geometry = Geometry(kvHeads: nat, group: nat, headDim: nat)
  {
    function QHeads(): nat { kvHeads * group }
    function Hidden(): nat { QHeads() * headDim }
    function QkvWidth(): nat { (QHeads() + 2 * kvHeads) * headDim }
  }

  /** The shape of the composite for prompt slice `begin..end`. */
  function ShapeOf(g: Geometry, lim: Limits, begin: nat, end: nat): Shape
    requires begin < end && lim.Valid()
  {
    Shape(end - begin, end, g.headDim, g.group, g.kvHeads, g.QkvWidth(), g.Hidden(), lim.maxSeqLen * g.headDim)
  }

  /** A slice that passes the executor's checks is a valid shape, and every region it
      addresses fits the scratch allocated once for the limits. */
  lemma CheckedSliceFits(g: Geometry, lim: Limits, req: Req, begin: int, end: int)
    requires lim.Valid() && g.group >= 1 && g.headDim >= 1 && SliceCheck(lim, req, begin, end).None?
    ensures 0 <= begin < end
    ensures var sh := ShapeOf(g, lim, begin, end);
            && sh.Valid() && begin + sh.rows == sh.ctx
            && sh.Heads() * sh.ScorePlane() <= g.QHeads() * (lim.prefillChunk * lim.maxSeqLen)
            && sh.rows * sh.qStride <= lim.InputRows() * g.QkvWidth()
            && sh.rows * sh.outStride <= lim.InputRows() * g.Hidden()
            && sh.ctx * sh.headDim <= sh.plane
    // A qkv row holds the queries, then the keys and values; a plane holds one KV head
    // of the longest sequence.
    ensures ShapeOf(g, lim, begin, end) ==
              Shape(end - begin, end, g.headDim, g.group, g.kvHeads, (g.kvHeads * g.group + 2 * g.kvHeads) * g.headDim,
                    g.kvHeads * g.group * g.headDim, lim.maxSeqLen * g.headDim)
  {
    hide BlocksReal;
    var rows := end - begin;
    MulMono(end, lim.maxSeqLen, g.headDim);
    MulMono(rows, lim.prefillChunk, end);
    MulMono(end, lim.maxSeqLen, lim.prefillChunk);
    MulMono(rows * end, lim.prefillChunk * lim.maxSeqLen, g.QHeads());
    MulMono(rows, lim.InputRows(), g.QkvWidth());
    MulMono(rows, lim.InputRows(), g.Hidden());
    MulMono(g.QHeads(), g.QHeads() + 2 * g.kvHeads, g.headDim);
  }
}
