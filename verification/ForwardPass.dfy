/** The transformer forward pass as the executor runs it: layer by layer, one
    activation row per token, every row-wise stage an arbitrary function. A row
    meets other tokens only through the K/V entries its attention reads. */
module ForwardPass {
  import opened Types

  // Bit patterns of one token's residual row, and of its K and V in one layer.
  type Row = seq<nat>
  type KvEntry = seq<nat>
  // Cached context, one sequence of entries per layer.
  type Past = seq<seq<KvEntry>>

  /** `kv(l, x, p)`: the entry layer `l` caches for a token at position `p`;
      `block(l, x, ctx)`: attention over `ctx` (its own entry last) and the MLP. */
  datatype Model = Model(
    layers: nat,
    vocab: nat,
    embed: TokenId -> Row,
    kv: (nat, Row, nat) -> KvEntry,
    block: (nat, Row, seq<KvEntry>) -> Row,
    argmax: Row -> TokenId)
  {
    ghost predicate Valid() {
      forall x: Row :: 0 <= argmax(x) < vocab
    }
  }

  /** Residual row entering layer `l` of the last token of `chunk`, whose earlier
      tokens are computed beside it and whose history before them is `past`. */
  function Residual(m: Model, past: Past, chunk: seq<TokenId>, l: nat): Row
    requires chunk != [] && l <= |past|
    decreases l, |chunk|, 0
  {
    if l == 0 then m.embed(chunk[|chunk| - 1])
    else m.block(l - 1, Residual(m, past, chunk, l - 1), Context(m, past, chunk, l - 1))
  }

  /** The entry layer `l` caches for the last token of `chunk`. */
  function Entry(m: Model, past: Past, chunk: seq<TokenId>, l: nat): KvEntry
    requires chunk != [] && l < |past|
    decreases l, |chunk|, 1
  {
    m.kv(l, Residual(m, past, chunk, l), |past[l]| + |chunk| - 1)
  }

  /** Layer-`l` entries of the history and of every token of `chunk`. */
  function Context(m: Model, past: Past, chunk: seq<TokenId>, l: nat): (ctx: seq<KvEntry>)
    requires l < |past|
    ensures |ctx| == |past[l]| + |chunk|
    decreases l, |chunk|, 2
  {
    if chunk == [] then past[l]
    else Context(m, past, chunk[..|chunk| - 1], l) + [Entry(m, past, chunk, l)]
  }

  /** The cache left behind by `chunk`, all layers. */
  function Contexts(m: Model, past: Past, chunk: seq<TokenId>): (c: Past)
    ensures |c| == |past|
    ensures forall l :: 0 <= l < |past| ==> c[l] == Context(m, past, chunk, l)
  {
    seq(|past|, l requires 0 <= l < |past| => Context(m, past, chunk, l))
  }

  function NoPast(m: Model): (c: Past)
    ensures |c| == m.layers && forall l :: 0 <= l < |c| ==> c[l] == []
  {
    seq(m.layers, _ => [])
  }

  /** Greedy choice after `tokens`: the whole prefix recomputed, no cache at all. */
  function Sample(m: Model, tokens: seq<TokenId>): TokenId
    requires tokens != []
  {
    m.argmax(Residual(m, NoPast(m), tokens, m.layers))
  }

  /** The cache a token sequence deserves: what recomputation would produce. */
  function TrueCache(m: Model, tokens: seq<TokenId>): (c: Past)
    ensures |c| == m.layers
  {
    Contexts(m, NoPast(m), tokens)
  }

  lemma ResidualStep(m: Model, past: Past, past': Past, a: seq<TokenId>, b: seq<TokenId>, l: nat)
    requires 0 < l <= |past| == |past'| && b != []
    requires Residual(m, past', b, l - 1) == Residual(m, past, a + b, l - 1)
    requires Context(m, past', b, l - 1) == Context(m, past, a + b, l - 1)
    ensures Residual(m, past', b, l) == Residual(m, past, a + b, l)
  {
  }

  lemma ContextStep(m: Model, past: Past, past': Past, a: seq<TokenId>, b: seq<TokenId>, l: nat)
    requires l < |past| == |past'| && b != [] && |past'[l]| == |past[l]| + |a|
    requires Residual(m, past', b, l) == Residual(m, past, a + b, l)
    requires Context(m, past', b[..|b| - 1], l) == Context(m, past, a + b[..|b| - 1], l)
    ensures Entry(m, past', b, l) == Entry(m, past, a + b, l)
    ensures Context(m, past', b, l) == Context(m, past, a + b, l)
  {
    assert (a + b)[..|a + b| - 1] == a + b[..|b| - 1];
  }

  /** Running `b` against the cache left by `a` is running `a + b` from scratch:
      chunk boundaries and caching are invisible in residuals and in entries. */
  lemma {:induction false} CachingIsExact(m: Model, past: Past, a: seq<TokenId>, b: seq<TokenId>, l: nat)
    requires l <= |past|
    ensures b != [] ==> Residual(m, Contexts(m, past, a), b, l) == Residual(m, past, a + b, l)
    ensures l < |past| ==> Context(m, Contexts(m, past, a), b, l) == Context(m, past, a + b, l)
    ensures b != [] && l < |past| ==> Entry(m, Contexts(m, past, a), b, l) == Entry(m, past, a + b, l)
    decreases l, |b|
  {
    if b == [] {
      assert a + b == a;
    } else {
      hide Residual, Entry, Context;
      var past' := Contexts(m, past, a);
      CachingIsExact(m, past, a, b[..|b| - 1], l);
      if l > 0 {
        CachingIsExact(m, past, a, b, l - 1);
        ResidualStep(m, past, past', a, b, l);
      } else {
        EmbeddingsAgree(m, past, past', a, b);
      }
      if l < |past| {
        ContextStep(m, past, past', a, b, l);
      }
    }
  }

  lemma EmbeddingsAgree(m: Model, past: Past, past': Past, a: seq<TokenId>, b: seq<TokenId>)
    requires b != []
    ensures Residual(m, past', b, 0) == Residual(m, past, a + b, 0)
  {
  }

  /** A prefix's cache is a prefix of the cache. */
  lemma {:induction false} ContextPrefix(m: Model, past: Past, tokens: seq<TokenId>, n: nat, l: nat)
    requires l < |past| && n <= |tokens|
    ensures Context(m, past, tokens[..n], l) == Context(m, past, tokens, l)[..|past[l]| + n]
    decreases |tokens|
  {
    if n == |tokens| {
      assert tokens[..n] == tokens;
    } else {
      var front := tokens[..|tokens| - 1];
      ContextPrefix(m, past, front, n, l);
      assert front[..n] == tokens[..n];
    }
  }
}
