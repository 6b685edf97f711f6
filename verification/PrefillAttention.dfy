/** The prefill attention products as strided-batched and as per-head GEMM calls:
    column-major address algebra over flat buffers, for every shape. */
module PrefillAttention {

  /** A column-major problem: D[m, n] = alpha * op(A) * B, batched by strides. */
  datatype GemmConfig = GemmConfig(
    m: nat, n: nat, k: nat, transposeA: bool,
    lda: nat, ldb: nat, ldd: nat,
    batch: nat, strideA: nat, strideB: nat, strideD: nat,
    floatD: bool, bias: bool)

  function Linear(rows: nat, outFeatures: nat, inFeatures: nat, actStride: nat, outStride: nat, bias: bool): GemmConfig {
    GemmConfig(outFeatures, rows, inFeatures, true, inFeatures, actStride, outStride, 1, 0, 0, 0, false, bias)
  }

  function PrefillScores(rows: nat, ctx: nat, headDim: nat, group: nat, qStride: nat): GemmConfig {
    var batched := group > 1;
    GemmConfig(ctx, rows, headDim, true, headDim, qStride, ctx, group,
               0, if batched then headDim else 0, if batched then rows * ctx else 0, true, false)
  }

  function PrefillPv(rows: nat, ctx: nat, headDim: nat, group: nat, outStride: nat): GemmConfig {
    var batched := group > 1;
    GemmConfig(headDim, rows, ctx, false, headDim, ctx, outStride, group,
               0, if batched then rows * ctx else 0, if batched then headDim else 0, false, false)
  }

  function At(mem: seq<real>, i: int): real { if 0 <= i < |mem| then mem[i] else 0.0 }

  /** Sum of `k` products along two strided vectors. */
  function Dot(a: seq<real>, aBase: nat, aStep: nat, b: seq<real>, bBase: nat, bStep: nat, k: nat): real {
    if k == 0 then 0.0
    else Dot(a, aBase, aStep, b, bBase, bStep, k - 1) + At(a, aBase + (k - 1) * aStep) * At(b, bBase + (k - 1) * bStep)
  }

  /** Offset of element (row, col) of batch element `i` of D. */
  function Cell(c: GemmConfig, i: nat, col: nat, row: nat): nat { i * c.strideD + col * c.ldd + row }

  /** What a call computes for that element. */
  function Product(c: GemmConfig, a: seq<real>, aBase: nat, b: seq<real>, bBase: nat, alpha: real,
                   i: nat, col: nat, row: nat): real {
    alpha * Dot(a, aBase + i * c.strideA + if c.transposeA then row * c.lda else row, if c.transposeA then 1 else c.lda,
                b, bBase + i * c.strideB + col * c.ldb, 1, c.k)
  }

  predicate InRange(c: GemmConfig, i: nat, col: nat, row: nat) { i < c.batch && col < c.n && row < c.m }

  /** Distinct elements of D have distinct addresses. */
  ghost predicate CellsDistinct(c: GemmConfig) {
    forall i, col, row, i', col', row' ::
      InRange(c, i, col, row) && InRange(c, i', col', row') && Cell(c, i, col, row) == Cell(c, i', col', row') ==>
        i == i' && col == col' && row == row'
  }

  ghost predicate CellsFit(c: GemmConfig, base: nat, length: int) {
    forall i, col, row :: InRange(c, i, col, row) ==> base + Cell(c, i, col, row) < length
  }

  ghost predicate IsCell(c: GemmConfig, base: nat, x: int) {
    exists i, col, row :: InRange(c, i, col, row) && base + Cell(c, i, col, row) == x
  }

  /** The elements written before position (i, col, row) in batch, column, row order. */
  predicate Earlier(i': nat, col': nat, row': nat, i: nat, col: nat, row: nat) {
    i' < i || (i' == i && (col' < col || (col' == col && row' < row)))
  }

  ghost predicate ComputedBefore(c: GemmConfig, d: seq<real>, dBase: nat, a: seq<real>, aBase: nat, b: seq<real>, bBase: nat,
                                 alpha: real, i: nat, col: nat, row: nat) {
    forall i', col', row' :: InRange(c, i', col', row') && Earlier(i', col', row', i, col, row) ==>
      At(d, dBase + Cell(c, i', col', row')) == Product(c, a, aBase, b, bBase, alpha, i', col', row')
  }

  ghost predicate Computed(c: GemmConfig, d: seq<real>, dBase: nat, a: seq<real>, aBase: nat, b: seq<real>, bBase: nat, alpha: real) {
    forall i, col, row :: InRange(c, i, col, row) ==>
      At(d, dBase + Cell(c, i, col, row)) == Product(c, a, aBase, b, bBase, alpha, i, col, row)
  }

  ghost predicate Outside(c: GemmConfig, base: nat, before: seq<real>, after: seq<real>) {
    |after| == |before| && forall x :: 0 <= x < |before| && !IsCell(c, base, x) ==> after[x] == before[x]
  }

  lemma NextCell(c: GemmConfig, d: seq<real>, d': seq<real>, dBase: nat, a: seq<real>, aBase: nat, b: seq<real>, bBase: nat,
                 alpha: real, i: nat, col: nat, row: nat)
    requires CellsDistinct(c) && CellsFit(c, dBase, |d|) && InRange(c, i, col, row)
    requires ComputedBefore(c, d, dBase, a, aBase, b, bBase, alpha, i, col, row)
    requires dBase + Cell(c, i, col, row) < |d|
    requires d' == d[dBase + Cell(c, i, col, row) := Product(c, a, aBase, b, bBase, alpha, i, col, row)]
    ensures ComputedBefore(c, d', dBase, a, aBase, b, bBase, alpha, i, col, row + 1)
  {
    hide Product, Cell;
    forall i', col', row' | InRange(c, i', col', row') && Earlier(i', col', row', i, col, row + 1)
      ensures At(d', dBase + Cell(c, i', col', row')) == Product(c, a, aBase, b, bBase, alpha, i', col', row')
    {
      if !(i' == i && col' == col && row' == row) {
        assert Cell(c, i', col', row') != Cell(c, i, col, row);
      }
    }
  }

  lemma CellIsCell(c: GemmConfig, base: nat, i: nat, col: nat, row: nat)
    requires InRange(c, i, col, row)
    ensures IsCell(c, base, base + Cell(c, i, col, row))
  {
  }

  /** One GEMM call, element by element. */
  method GemmStridedBatched(c: GemmConfig, d: array<real>, dBase: nat, a: seq<real>, aBase: nat, b: seq<real>, bBase: nat, alpha: real)
    requires CellsDistinct(c) && CellsFit(c, dBase, d.Length)
    modifies d
    ensures Computed(c, d[..], dBase, a, aBase, b, bBase, alpha)
    ensures Outside(c, dBase, old(d[..]), d[..])
  {
    hide Product, Cell, CellsDistinct, IsCell;
    for i := 0 to c.batch
      invariant ComputedBefore(c, d[..], dBase, a, aBase, b, bBase, alpha, i, 0, 0)
      invariant Outside(c, dBase, old(d[..]), d[..])
    {
      for col := 0 to c.n
        invariant ComputedBefore(c, d[..], dBase, a, aBase, b, bBase, alpha, i, col, 0)
        invariant Outside(c, dBase, old(d[..]), d[..])
      {
        for row := 0 to c.m
          invariant ComputedBefore(c, d[..], dBase, a, aBase, b, bBase, alpha, i, col, row)
          invariant Outside(c, dBase, old(d[..]), d[..])
        {
          ghost var before := d[..];
          assert InRange(c, i, col, row);
          CellIsCell(c, dBase, i, col, row);
          d[dBase + Cell(c, i, col, row)] := Product(c, a, aBase, b, bBase, alpha, i, col, row);
          assert d[..] == before[dBase + Cell(c, i, col, row) := Product(c, a, aBase, b, bBase, alpha, i, col, row)];
          NextCell(c, before, d[..], dBase, a, aBase, b, bBase, alpha, i, col, row);
        }
      }
    }
  }

  // ------------------------------------------------------------- the two forms

  /** One chunk's attention: `rows` queries over `ctx` gathered positions, `group`
      query heads per KV head; strides are those of the buffers in place. */
  datatype Shape = Shape(rows: nat, ctx: nat, headDim: nat, group: nat, kvHeads: nat, qStride: nat, outStride: nat, plane: nat)
  {
    predicate Valid() {
      && rows >= 1 && ctx >= 1 && headDim >= 1 && group >= 1 && outStride == Heads() * headDim
      && plane >= ctx * headDim && qStride >= Heads() * headDim
    }
    function Heads(): nat { kvHeads * group }
    function ScorePlane(): nat { rows * ctx }
  }

  /** Scores are packed [head, query, position]. */
  function ScoreIndex(sh: Shape, h: nat, t: nat, s: nat): nat { h * sh.ScorePlane() + t * sh.ctx + s }

  /** Outputs are rows of attn_out with heads side by side. */
  function OutIndex(sh: Shape, h: nat, t: nat, r: nat): nat { t * sh.outStride + h * sh.headDim + r }

  /** The row-major definitions: query `t` of head `h` against key `s`, and the
      probability-weighted sum of values, KV head shared by its group. */
  function Score(sh: Shape, khat: seq<real>, qkv: seq<real>, alpha: real, h: nat, t: nat, s: nat): real
    requires sh.group >= 1
  {
    alpha * Dot(khat, h / sh.group * sh.plane + s * sh.headDim, 1, qkv, h * sh.headDim + t * sh.qStride, 1, sh.headDim)
  }

  function Output(sh: Shape, vhat: seq<real>, probs: seq<real>, h: nat, t: nat, r: nat): real
    requires sh.group >= 1
  {
    1.0 * Dot(vhat, h / sh.group * sh.plane + r, sh.headDim, probs, ScoreIndex(sh, h, t, 0), 1, sh.ctx)
  }

  ghost predicate ScoresOf(sh: Shape, d: seq<real>, khat: seq<real>, qkv: seq<real>, alpha: real, lo: nat, hi: nat)
    requires sh.group >= 1
  {
    forall h, t, s :: lo <= h < hi && 0 <= t < sh.rows && 0 <= s < sh.ctx ==>
      At(d, ScoreIndex(sh, h, t, s)) == Score(sh, khat, qkv, alpha, h, t, s)
  }

  ghost predicate OutputsOf(sh: Shape, d: seq<real>, vhat: seq<real>, probs: seq<real>, lo: nat, hi: nat)
    requires sh.group >= 1
  {
    forall h, t, r :: lo <= h < hi && 0 <= t < sh.rows && 0 <= r < sh.headDim ==>
      At(d, OutIndex(sh, h, t, r)) == Output(sh, vhat, probs, h, t, r)
  }

  // -------------------------------------------------------------- mixed radix

  lemma MulMono(a: nat, b: nat, c: nat)
    requires a <= b
    ensures a * c <= b * c
  {
  }

  /** `q * d + r` with `r < d` determines both. */
  lemma DivMod(q: nat, d: nat, r: nat, q': nat, r': nat)
    requires r < d && r' < d && q * d + r == q' * d + r'
    ensures q == q' && r == r'
  {
    if q < q' {
      MulMono(q + 1, q', d);
    } else if q' < q {
      MulMono(q' + 1, q, d);
    }
  }

  lemma ScoreIndexBounds(sh: Shape, h: nat, t: nat, s: nat)
    requires t < sh.rows && s < sh.ctx
    ensures h * sh.ScorePlane() <= ScoreIndex(sh, h, t, s) < (h + 1) * sh.ScorePlane()
    ensures t * sh.ctx + s < sh.ScorePlane()
  {
    MulMono(t + 1, sh.rows, sh.ctx);
    assert (h + 1) * sh.ScorePlane() == h * sh.ScorePlane() + sh.ScorePlane();
  }

  lemma ScoreIndexUnique(sh: Shape, h: nat, t: nat, s: nat, h': nat, t': nat, s': nat)
    requires t < sh.rows && s < sh.ctx && t' < sh.rows && s' < sh.ctx
    requires ScoreIndex(sh, h, t, s) == ScoreIndex(sh, h', t', s')
    ensures h == h' && t == t' && s == s'
  {
    ScoreIndexBounds(sh, h, t, s);
    ScoreIndexBounds(sh, h', t', s');
    DivMod(h, sh.ScorePlane(), t * sh.ctx + s, h', t' * sh.ctx + s');
    DivMod(t, sh.ctx, s, t', s');
  }

  lemma OutIndexBounds(sh: Shape, h: nat, t: nat, r: nat)
    requires sh.Valid() && h < sh.Heads() && r < sh.headDim && t < sh.rows
    ensures h * sh.headDim + r < sh.outStride && OutIndex(sh, h, t, r) < sh.rows * sh.outStride
  {
    MulMono(h + 1, sh.Heads(), sh.headDim);
    MulMono(t + 1, sh.rows, sh.outStride);
  }

  lemma OutIndexUnique(sh: Shape, h: nat, t: nat, r: nat, h': nat, t': nat, r': nat)
    requires sh.Valid() && h < sh.Heads() && h' < sh.Heads() && t < sh.rows && t' < sh.rows
    requires r < sh.headDim && r' < sh.headDim && OutIndex(sh, h, t, r) == OutIndex(sh, h', t', r')
    ensures h == h' && t == t' && r == r'
  {
    OutIndexBounds(sh, h, t, r);
    OutIndexBounds(sh, h', t', r');
    DivMod(t, sh.outStride, h * sh.headDim + r, t', h' * sh.headDim + r');
    DivMod(h, sh.headDim, r, h', r');
  }

  // ------------------------------------------------- one call, one head group

  /** Heads `h0 .. h0 + batch` of one KV head: the batched call or one per-head call. */
  predicate HeadRun(sh: Shape, h0: nat, batch: nat) {
    sh.Valid() && 1 <= batch && h0 + batch <= sh.Heads() && h0 / sh.group == (h0 + batch - 1) / sh.group
  }

  lemma SameKvHead(sh: Shape, h0: nat, batch: nat, i: nat)
    requires HeadRun(sh, h0, batch) && i < batch
    ensures (h0 + i) / sh.group == h0 / sh.group
  {
    DivMonotone(h0, h0 + i, sh.group);
    DivMonotone(h0 + i, h0 + batch - 1, sh.group);
  }

  lemma DivMonotone(a: nat, b: nat, d: nat)
    requires a <= b && d > 0
    ensures a / d <= b / d
  {
    var p, q := a / d, b / d;
    assert a == p * d + a % d && b == q * d + b % d;
    assert p > q ==> p * d >= (q + 1) * d;
  }

  // Where a run of heads starts in each buffer.
  function ScoreBase(sh: Shape, h0: nat): nat { h0 * sh.ScorePlane() }
  function HeadBase(sh: Shape, h0: nat): nat { h0 * sh.headDim }
  function KvBase(sh: Shape, h0: nat): nat
    requires sh.group >= 1
  {
    h0 / sh.group * sh.plane
  }

  /** A zeroed stride is harmless for the only batch element. */
  lemma Strides(h0: nat, i: nat, step: nat, stride: nat, batch: nat)
    requires i < batch && stride == if batch > 1 then step else 0
    ensures h0 * step + i * stride == (h0 + i) * step
  {
    assert (h0 + i) * step == h0 * step + i * step;
  }

  lemma ScoreCells(sh: Shape, h0: nat, batch: nat, i: nat, t: nat, s: nat)
    requires HeadRun(sh, h0, batch) && i < batch
    ensures var c := PrefillScores(sh.rows, sh.ctx, sh.headDim, batch, sh.qStride);
            ScoreBase(sh, h0) + Cell(c, i, t, s) == ScoreIndex(sh, h0 + i, t, s)
  {
    hide HeadRun;
    var c := PrefillScores(sh.rows, sh.ctx, sh.headDim, batch, sh.qStride);
    Strides(h0, i, sh.ScorePlane(), c.strideD, batch);
  }

  lemma ScoreProducts(sh: Shape, khat: seq<real>, qkv: seq<real>, alpha: real, h0: nat, batch: nat, i: nat, t: nat, s: nat)
    requires HeadRun(sh, h0, batch) && i < batch
    ensures var c := PrefillScores(sh.rows, sh.ctx, sh.headDim, batch, sh.qStride);
            Product(c, khat, KvBase(sh, h0), qkv, HeadBase(sh, h0), alpha, i, t, s)
              == Score(sh, khat, qkv, alpha, h0 + i, t, s)
  {
    hide Dot;
    SameKvHead(sh, h0, batch, i);
    var c := PrefillScores(sh.rows, sh.ctx, sh.headDim, batch, sh.qStride);
    Strides(h0, i, sh.headDim, c.strideB, batch);
    assert i * c.strideA == 0;
    assert HeadBase(sh, h0) + i * c.strideB + t * c.ldb == (h0 + i) * sh.headDim + t * sh.qStride;
  }

  lemma ScoreCallFits(sh: Shape, h0: nat, batch: nat, length: int)
    requires HeadRun(sh, h0, batch) && length >= sh.Heads() * sh.ScorePlane()
    ensures var c := PrefillScores(sh.rows, sh.ctx, sh.headDim, batch, sh.qStride);
            CellsDistinct(c) && CellsFit(c, ScoreBase(sh, h0), length)
  {
    hide Cell;
    var c := PrefillScores(sh.rows, sh.ctx, sh.headDim, batch, sh.qStride);
    forall i, t, s | InRange(c, i, t, s)
      ensures ScoreBase(sh, h0) + Cell(c, i, t, s) < length
    {
      ScoreCells(sh, h0, batch, i, t, s);
      ScoreIndexBounds(sh, h0 + i, t, s);
      MulMono(h0 + i + 1, sh.Heads(), sh.ScorePlane());
    }
    forall i, t, s, i', t', s' | InRange(c, i, t, s) && InRange(c, i', t', s') && Cell(c, i, t, s) == Cell(c, i', t', s')
      ensures i == i' && t == t' && s == s'
    {
      ScoreCells(sh, h0, batch, i, t, s);
      ScoreCells(sh, h0, batch, i', t', s');
      ScoreIndexUnique(sh, h0 + i, t, s, h0 + i', t', s');
    }
  }

  /** A call computes exactly its heads' scores and leaves every other head's alone. */
  lemma ScoreCallMeans(sh: Shape, before: seq<real>, after: seq<real>, khat: seq<real>, qkv: seq<real>, alpha: real, h0: nat, batch: nat)
    requires HeadRun(sh, h0, batch)
    requires var c := PrefillScores(sh.rows, sh.ctx, sh.headDim, batch, sh.qStride);
             && Computed(c, after, ScoreBase(sh, h0), khat, KvBase(sh, h0), qkv, HeadBase(sh, h0), alpha)
             && Outside(c, ScoreBase(sh, h0), before, after)
    ensures ScoresOf(sh, after, khat, qkv, alpha, h0, h0 + batch)
    ensures forall h, t, s :: 0 <= h && !(h0 <= h < h0 + batch) && 0 <= t < sh.rows && 0 <= s < sh.ctx ==>
              At(after, ScoreIndex(sh, h, t, s)) == At(before, ScoreIndex(sh, h, t, s))
  {
    hide Cell, Product, Score, ScoreIndex;
    var c := PrefillScores(sh.rows, sh.ctx, sh.headDim, batch, sh.qStride);
    forall h, t, s | h0 <= h < h0 + batch && 0 <= t < sh.rows && 0 <= s < sh.ctx
      ensures At(after, ScoreIndex(sh, h, t, s)) == Score(sh, khat, qkv, alpha, h, t, s)
    {
      assert InRange(c, h - h0, t, s);
      ScoreCells(sh, h0, batch, h - h0, t, s);
      ScoreProducts(sh, khat, qkv, alpha, h0, batch, h - h0, t, s);
    }
    forall h, t, s | 0 <= h && !(h0 <= h < h0 + batch) && 0 <= t < sh.rows && 0 <= s < sh.ctx
      ensures At(after, ScoreIndex(sh, h, t, s)) == At(before, ScoreIndex(sh, h, t, s))
    {
      forall i, t', s' | InRange(c, i, t', s')
        ensures ScoreBase(sh, h0) + Cell(c, i, t', s') != ScoreIndex(sh, h, t, s)
      {
        ScoreCells(sh, h0, batch, i, t', s');
        if ScoreIndex(sh, h0 + i, t', s') == ScoreIndex(sh, h, t, s) {
          ScoreIndexUnique(sh, h0 + i, t', s', h, t, s);
        }
      }
    }
  }

  lemma OutCells(sh: Shape, h0: nat, batch: nat, i: nat, t: nat, r: nat)
    requires HeadRun(sh, h0, batch) && i < batch
    ensures var c := PrefillPv(sh.rows, sh.ctx, sh.headDim, batch, sh.outStride);
            HeadBase(sh, h0) + Cell(c, i, t, r) == OutIndex(sh, h0 + i, t, r)
  {
    hide HeadRun;
    var c := PrefillPv(sh.rows, sh.ctx, sh.headDim, batch, sh.outStride);
    Strides(h0, i, sh.headDim, c.strideD, batch);
  }

  lemma OutProducts(sh: Shape, vhat: seq<real>, probs: seq<real>, h0: nat, batch: nat, i: nat, t: nat, r: nat)
    requires HeadRun(sh, h0, batch) && i < batch
    ensures var c := PrefillPv(sh.rows, sh.ctx, sh.headDim, batch, sh.outStride);
            Product(c, vhat, KvBase(sh, h0), probs, ScoreBase(sh, h0), 1.0, i, t, r) == Output(sh, vhat, probs, h0 + i, t, r)
  {
    hide Dot;
    SameKvHead(sh, h0, batch, i);
    var c := PrefillPv(sh.rows, sh.ctx, sh.headDim, batch, sh.outStride);
    Strides(h0, i, sh.ScorePlane(), c.strideB, batch);
    assert i * c.strideA == 0;
    assert ScoreBase(sh, h0) + i * c.strideB + t * c.ldb == ScoreIndex(sh, h0 + i, t, 0);
  }

  lemma OutCallFits(sh: Shape, h0: nat, batch: nat, length: int)
    requires HeadRun(sh, h0, batch) && length >= sh.rows * sh.outStride
    ensures var c := PrefillPv(sh.rows, sh.ctx, sh.headDim, batch, sh.outStride);
            CellsDistinct(c) && CellsFit(c, HeadBase(sh, h0), length)
  {
    hide Cell;
    var c := PrefillPv(sh.rows, sh.ctx, sh.headDim, batch, sh.outStride);
    forall i, t, r | InRange(c, i, t, r)
      ensures HeadBase(sh, h0) + Cell(c, i, t, r) < length
    {
      OutCells(sh, h0, batch, i, t, r);
      OutIndexBounds(sh, h0 + i, t, r);
    }
    forall i, t, r, i', t', r' | InRange(c, i, t, r) && InRange(c, i', t', r') && Cell(c, i, t, r) == Cell(c, i', t', r')
      ensures i == i' && t == t' && r == r'
    {
      OutCells(sh, h0, batch, i, t, r);
      OutCells(sh, h0, batch, i', t', r');
      OutIndexUnique(sh, h0 + i, t, r, h0 + i', t', r');
    }
  }

  lemma OutCallMeans(sh: Shape, before: seq<real>, after: seq<real>, vhat: seq<real>, probs: seq<real>, h0: nat, batch: nat)
    requires HeadRun(sh, h0, batch)
    requires var c := PrefillPv(sh.rows, sh.ctx, sh.headDim, batch, sh.outStride);
             && Computed(c, after, HeadBase(sh, h0), vhat, KvBase(sh, h0), probs, ScoreBase(sh, h0), 1.0)
             && Outside(c, HeadBase(sh, h0), before, after)
    ensures OutputsOf(sh, after, vhat, probs, h0, h0 + batch)
    ensures forall h, t, r :: 0 <= h < sh.Heads() && !(h0 <= h < h0 + batch) && 0 <= t < sh.rows && 0 <= r < sh.headDim ==>
              At(after, OutIndex(sh, h, t, r)) == At(before, OutIndex(sh, h, t, r))
  {
    hide Cell, Product, Output, OutIndex;
    var c := PrefillPv(sh.rows, sh.ctx, sh.headDim, batch, sh.outStride);
    forall h, t, r | h0 <= h < h0 + batch && 0 <= t < sh.rows && 0 <= r < sh.headDim
      ensures At(after, OutIndex(sh, h, t, r)) == Output(sh, vhat, probs, h, t, r)
    {
      assert InRange(c, h - h0, t, r);
      OutCells(sh, h0, batch, h - h0, t, r);
      OutProducts(sh, vhat, probs, h0, batch, h - h0, t, r);
    }
    forall h, t, r | 0 <= h < sh.Heads() && !(h0 <= h < h0 + batch) && 0 <= t < sh.rows && 0 <= r < sh.headDim
      ensures At(after, OutIndex(sh, h, t, r)) == At(before, OutIndex(sh, h, t, r))
    {
      forall i, t', r' | InRange(c, i, t', r')
        ensures HeadBase(sh, h0) + Cell(c, i, t', r') != OutIndex(sh, h, t, r)
      {
        OutCells(sh, h0, batch, i, t', r');
        if OutIndex(sh, h0 + i, t', r') == OutIndex(sh, h, t, r) {
          OutIndexUnique(sh, h0 + i, t', r', h, t, r);
        }
      }
    }
  }

  // ------------------------------------------------------------ the two loops

  datatype Mode = StridedBatched | PerHead

  lemma GroupRun(sh: Shape, g: nat)
    requires sh.Valid() && g < sh.kvHeads
    ensures HeadRun(sh, g * sh.group, sh.group) && (g + 1) * sh.group == g * sh.group + sh.group
    ensures g * sh.group / sh.group == g
  {
    MulMono(g + 1, sh.kvHeads, sh.group);
    QuotientOf(g, sh.group, 0);
    QuotientOf(g, sh.group, sh.group - 1);
  }

  lemma QuotientOf(q: nat, d: nat, r: nat)
    requires r < d
    ensures (q * d + r) / d == q
  {
    var n := q * d + r;
    DivMod(q, d, r, n / d, n % d);
  }

  lemma SingleRun(sh: Shape, h: nat)
    requires sh.Valid() && h < sh.Heads()
    ensures HeadRun(sh, h, 1)
  {
  }

  /** Call the scores GEMM for heads `h0 ..`. */
  method ScoresCall(sh: Shape, h0: nat, batch: nat, scores: array<real>, khat: seq<real>, qkv: seq<real>, alpha: real)
    requires HeadRun(sh, h0, batch) && scores.Length >= sh.Heads() * sh.ScorePlane()
    requires ScoresOf(sh, scores[..], khat, qkv, alpha, 0, h0)
    modifies scores
    ensures ScoresOf(sh, scores[..], khat, qkv, alpha, 0, h0 + batch)
    ensures forall x :: sh.Heads() * sh.ScorePlane() <= x < scores.Length ==> scores[x] == old(scores[x])
  {
    hide CellsDistinct, CellsFit, Computed, Outside, Score, ScoreIndex, HeadRun;
    ghost var before := scores[..];
    var c := PrefillScores(sh.rows, sh.ctx, sh.headDim, batch, sh.qStride);
    ScoreCallFits(sh, h0, batch, scores.Length);
    GemmStridedBatched(c, scores, ScoreBase(sh, h0), khat, KvBaseOf(sh, h0, batch), qkv, HeadBase(sh, h0), alpha);
    ScoreCallMeans(sh, before, scores[..], khat, qkv, alpha, h0, batch);
    ScoreCallStays(sh, before, scores[..], h0, batch);
  }

  function KvBaseOf(sh: Shape, h0: nat, batch: nat): nat
    requires HeadRun(sh, h0, batch)
  {
    KvBase(sh, h0)
  }

  lemma ScoreCallStays(sh: Shape, before: seq<real>, after: seq<real>, h0: nat, batch: nat)
    requires HeadRun(sh, h0, batch)
    requires Outside(PrefillScores(sh.rows, sh.ctx, sh.headDim, batch, sh.qStride), ScoreBase(sh, h0), before, after)
    ensures |after| == |before|
    ensures forall x :: sh.Heads() * sh.ScorePlane() <= x < |before| ==> after[x] == before[x]
  {
    hide Cell;
    var c := PrefillScores(sh.rows, sh.ctx, sh.headDim, batch, sh.qStride);
    forall i, t, s | InRange(c, i, t, s)
      ensures ScoreBase(sh, h0) + Cell(c, i, t, s) < sh.Heads() * sh.ScorePlane()
    {
      ScoreCells(sh, h0, batch, i, t, s);
      ScoreIndexBounds(sh, h0 + i, t, s);
      MulMono(h0 + i + 1, sh.Heads(), sh.ScorePlane());
    }
  }

  /** Either form leaves every head's row-major scores, and nothing else changes. */
  method Scores(sh: Shape, mode: Mode, scores: array<real>, khat: seq<real>, qkv: seq<real>, alpha: real)
    requires sh.Valid() && scores.Length >= sh.Heads() * sh.ScorePlane()
    modifies scores
    ensures ScoresOf(sh, scores[..], khat, qkv, alpha, 0, sh.Heads())
    ensures forall x :: sh.Heads() * sh.ScorePlane() <= x < scores.Length ==> scores[x] == old(scores[x])
  {
    hide Score, ScoreIndex, HeadRun;
    if mode == StridedBatched {
      for g := 0 to sh.kvHeads
        invariant ScoresOf(sh, scores[..], khat, qkv, alpha, 0, g * sh.group)
        invariant forall x :: sh.Heads() * sh.ScorePlane() <= x < scores.Length ==> scores[x] == old(scores[x])
      {
        GroupRun(sh, g);
        ScoresCall(sh, g * sh.group, sh.group, scores, khat, qkv, alpha);
      }
    } else {
      for h := 0 to sh.Heads()
        invariant ScoresOf(sh, scores[..], khat, qkv, alpha, 0, h)
        invariant forall x :: sh.Heads() * sh.ScorePlane() <= x < scores.Length ==> scores[x] == old(scores[x])
      {
        SingleRun(sh, h);
        ScoresCall(sh, h, 1, scores, khat, qkv, alpha);
      }
    }
  }

  lemma OutCallStays(sh: Shape, before: seq<real>, after: seq<real>, h0: nat, batch: nat)
    requires HeadRun(sh, h0, batch)
    requires Outside(PrefillPv(sh.rows, sh.ctx, sh.headDim, batch, sh.outStride), HeadBase(sh, h0), before, after)
    ensures |after| == |before|
    ensures forall x :: sh.rows * sh.outStride <= x < |before| ==> after[x] == before[x]
  {
    hide Cell;
    var c := PrefillPv(sh.rows, sh.ctx, sh.headDim, batch, sh.outStride);
    forall i, t, r | InRange(c, i, t, r)
      ensures HeadBase(sh, h0) + Cell(c, i, t, r) < sh.rows * sh.outStride
    {
      OutCells(sh, h0, batch, i, t, r);
      OutIndexBounds(sh, h0 + i, t, r);
    }
  }

  method OutputsCall(sh: Shape, h0: nat, batch: nat, out: array<real>, vhat: seq<real>, probs: seq<real>)
    requires HeadRun(sh, h0, batch) && out.Length >= sh.rows * sh.outStride
    requires OutputsOf(sh, out[..], vhat, probs, 0, h0)
    modifies out
    ensures OutputsOf(sh, out[..], vhat, probs, 0, h0 + batch)
    ensures forall x :: sh.rows * sh.outStride <= x < out.Length ==> out[x] == old(out[x])
  {
    hide CellsDistinct, CellsFit, Computed, Outside, Output, OutIndex;
    ghost var before := out[..];
    var c := PrefillPv(sh.rows, sh.ctx, sh.headDim, batch, sh.outStride);
    OutCallFits(sh, h0, batch, out.Length);
    GemmStridedBatched(c, out, HeadBase(sh, h0), vhat, KvBaseOf(sh, h0, batch), probs, ScoreBase(sh, h0), 1.0);
    OutCallMeans(sh, before, out[..], vhat, probs, h0, batch);
    OutCallStays(sh, before, out[..], h0, batch);
  }

  /** Either form leaves every head's row-major outputs, and nothing else changes. */
  method Outputs(sh: Shape, mode: Mode, out: array<real>, vhat: seq<real>, probs: seq<real>)
    requires sh.Valid() && out.Length >= sh.rows * sh.outStride
    modifies out
    ensures OutputsOf(sh, out[..], vhat, probs, 0, sh.Heads())
    ensures forall x :: sh.rows * sh.outStride <= x < out.Length ==> out[x] == old(out[x])
  {
    hide Output, OutIndex, HeadRun;
    if mode == StridedBatched {
      for g := 0 to sh.kvHeads
        invariant OutputsOf(sh, out[..], vhat, probs, 0, g * sh.group)
        invariant forall x :: sh.rows * sh.outStride <= x < out.Length ==> out[x] == old(out[x])
      {
        GroupRun(sh, g);
        OutputsCall(sh, g * sh.group, sh.group, out, vhat, probs);
      }
    } else {
      for h := 0 to sh.Heads()
        invariant OutputsOf(sh, out[..], vhat, probs, 0, h)
        invariant forall x :: sh.rows * sh.outStride <= x < out.Length ==> out[x] == old(out[x])
      {
        SingleRun(sh, h);
        OutputsCall(sh, h, 1, out, vhat, probs);
      }
    }
  }

  // ------------------------------------------------------------- equivalence

  /** Every packed score is some head's score, so the property determines them all. */
  lemma ScoresDetermined(sh: Shape, d1: seq<real>, d2: seq<real>, khat: seq<real>, qkv: seq<real>, alpha: real)
    requires sh.Valid() && |d1| == |d2| >= sh.Heads() * sh.ScorePlane()
    requires ScoresOf(sh, d1, khat, qkv, alpha, 0, sh.Heads()) && ScoresOf(sh, d2, khat, qkv, alpha, 0, sh.Heads())
    ensures d1[..sh.Heads() * sh.ScorePlane()] == d2[..sh.Heads() * sh.ScorePlane()]
  {
    hide Score, ScoreIndex;
    forall x | 0 <= x < sh.Heads() * sh.ScorePlane()
      ensures d1[x] == d2[x]
    {
      var h, t, s := ScoreDecode(sh, x);
      assert At(d1, ScoreIndex(sh, h, t, s)) == Score(sh, khat, qkv, alpha, h, t, s);
      assert At(d2, ScoreIndex(sh, h, t, s)) == Score(sh, khat, qkv, alpha, h, t, s);
    }
  }

  lemma ScoreDecode(sh: Shape, x: nat) returns (h: nat, t: nat, s: nat)
    requires sh.Valid() && x < sh.Heads() * sh.ScorePlane()
    ensures h < sh.Heads() && t < sh.rows && s < sh.ctx && ScoreIndex(sh, h, t, s) == x
  {
    MulMono(1, sh.rows, sh.ctx);
    h := x / sh.ScorePlane();
    var rest := x % sh.ScorePlane();
    t, s := rest / sh.ctx, rest % sh.ctx;
    assert x == h * sh.ScorePlane() + rest && rest == t * sh.ctx + s;
    Below(x, sh.ScorePlane(), sh.Heads());
    Below(rest, sh.ctx, sh.rows);
  }

  lemma Below(n: nat, d: nat, k: nat)
    requires d > 0 && n < k * d
    ensures n / d < k
  {
    var q := n / d;
    assert n == q * d + n % d;
    assert q >= k ==> q * d >= k * d;
  }

  lemma OutDecode(sh: Shape, x: nat) returns (h: nat, t: nat, r: nat)
    requires sh.Valid() && x < sh.rows * sh.outStride
    ensures h < sh.Heads() && t < sh.rows && r < sh.headDim && OutIndex(sh, h, t, r) == x
  {
    assert sh.outStride > 0;
    t := x / sh.outStride;
    var rest := x % sh.outStride;
    h, r := rest / sh.headDim, rest % sh.headDim;
    assert x == t * sh.outStride + rest && rest == h * sh.headDim + r;
    Below(x, sh.outStride, sh.rows);
    Below(rest, sh.headDim, sh.Heads());
  }

  lemma OutputsDetermined(sh: Shape, d1: seq<real>, d2: seq<real>, vhat: seq<real>, probs: seq<real>)
    requires sh.Valid() && |d1| == |d2| >= sh.rows * sh.outStride
    requires OutputsOf(sh, d1, vhat, probs, 0, sh.Heads()) && OutputsOf(sh, d2, vhat, probs, 0, sh.Heads())
    ensures d1[..sh.rows * sh.outStride] == d2[..sh.rows * sh.outStride]
  {
    hide Output, OutIndex;
    forall x | 0 <= x < sh.rows * sh.outStride
      ensures d1[x] == d2[x]
    {
      var h, t, r := OutDecode(sh, x);
      assert At(d1, OutIndex(sh, h, t, r)) == Output(sh, vhat, probs, h, t, r);
      assert At(d2, OutIndex(sh, h, t, r)) == Output(sh, vhat, probs, h, t, r);
    }
  }

  /** Every element a scores call reads lies inside its gathered tile or its row. */
  lemma ScoreReadsInside(sh: Shape, h: nat, t: nat, s: nat, p: nat)
    requires sh.Valid() && h < sh.Heads() && t < sh.rows && s < sh.ctx && p < sh.headDim
    ensures h / sh.group < sh.kvHeads
    ensures h / sh.group * sh.plane + s * sh.headDim + p < (h / sh.group + 1) * sh.plane
    ensures h * sh.headDim + t * sh.qStride + p < sh.rows * sh.qStride
  {
    Below(h, sh.group, sh.kvHeads);
    MulMono(s + 1, sh.ctx, sh.headDim);
    MulMono(h + 1, sh.Heads(), sh.headDim);
    MulMono(t + 1, sh.rows, sh.qStride);
    assert (h / sh.group + 1) * sh.plane == h / sh.group * sh.plane + sh.plane;
  }

  /** So does a values call: its V tile and its probability row. */
  lemma OutReadsInside(sh: Shape, h: nat, t: nat, r: nat, p: nat)
    requires sh.Valid() && h < sh.Heads() && t < sh.rows && r < sh.headDim && p < sh.ctx
    ensures h / sh.group < sh.kvHeads
    ensures h / sh.group * sh.plane + r + p * sh.headDim < (h / sh.group + 1) * sh.plane
    ensures h * sh.ScorePlane() <= ScoreIndex(sh, h, t, 0) + p < (h + 1) * sh.ScorePlane() <= sh.Heads() * sh.ScorePlane()
  {
    Below(h, sh.group, sh.kvHeads);
    MulMono(p + 1, sh.ctx, sh.headDim);
    assert (h / sh.group + 1) * sh.plane == h / sh.group * sh.plane + sh.plane;
    ScoreIndexBounds(sh, h, t, p);
    MulMono(h + 1, sh.Heads(), sh.ScorePlane());
  }

  /** The column-major dual of a linear layer: row-major activations in, row-major
      outputs out, each output the dot product of its weight row and its token row. */
  lemma LinearIsRowMajor(rows: nat, outFeatures: nat, inFeatures: nat, actStride: nat, outStride: nat, bias: bool,
                         weight: seq<real>, act: seq<real>, token: nat, feature: nat)
    ensures var c := Linear(rows, outFeatures, inFeatures, actStride, outStride, bias);
            && Cell(c, 0, token, feature) == token * outStride + feature
            && Product(c, weight, 0, act, 0, 1.0, 0, token, feature)
                 == Dot(weight, feature * inFeatures, 1, act, token * actStride, 1, inFeatures)
  {
    hide Dot;
  }
}
