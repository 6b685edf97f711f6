/** The paged KV pool on values: where a position lives, what a step writes, and
    why the paged contents always equal what recomputation would give. */
module PagedCache {
  import opened Types
  import opened ForwardPass
  import opened SchedulerSpec
  import opened Ledger
  import opened SchedulerInvariant

  /** One token slot of one layer of the pool. */
  datatype Loc = Loc(layer: nat, block: BlockId, offset: nat)

  type KvPool = map<Loc, KvEntry>

  function Read(kv: KvPool, loc: Loc): KvEntry {
    if loc in kv then kv[loc] else []
  }

  /** Logical position to physical slot, through the block table. */
  function SlotOf(table: seq<BlockId>, l: nat, p: nat): Loc
    requires p < KV_BLOCK_SIZE * |table|
  {
    Loc(l, table[p / KV_BLOCK_SIZE], p % KV_BLOCK_SIZE)
  }

  /** What attention in layer `l` reads: positions `0..n`, through the table. */
  function GatherLayer(kv: KvPool, table: seq<BlockId>, l: nat, n: nat): (ctx: seq<KvEntry>)
    requires n <= KV_BLOCK_SIZE * |table|
    ensures |ctx| == n
    ensures forall p :: 0 <= p < n ==> ctx[p] == Read(kv, SlotOf(table, l, p))
  {
    seq(n, p requires 0 <= p < n => Read(kv, SlotOf(table, l, p)))
  }

  function Gather(layers: nat, kv: KvPool, table: seq<BlockId>, n: nat): (past: Past)
    requires n <= KV_BLOCK_SIZE * |table|
    ensures |past| == layers
    ensures forall l :: 0 <= l < layers ==> past[l] == GatherLayer(kv, table, l, n)
  {
    seq(layers, l requires 0 <= l < layers => GatherLayer(kv, table, l, n))
  }

  /** A slice of one sequence: tokens `chunk` at positions `begin..`, written and
      attended through `table`. A decode row is a slice of one token. */
  datatype Slice = Slice(table: seq<BlockId>, begin: nat, chunk: seq<TokenId>)
  {
    predicate Valid() { chunk != [] && End() <= KV_BLOCK_SIZE * |table| }
    function End(): nat { begin + |chunk| }
  }

  ghost predicate Touches(x: Slice, loc: Loc)
    requires x.Valid()
  {
    exists p :: x.begin <= p < x.End() && SlotOf(x.table, loc.layer, p) == loc
  }

  function Before(m: Model, kv: KvPool, x: Slice): Past
    requires x.Valid()
  {
    Gather(m.layers, kv, x.table, x.begin)
  }

  /** Each slice computed as if it were alone on the pool before the step. */
  function SliceEntry(m: Model, kv: KvPool, x: Slice, i: nat, l: nat): KvEntry
    requires x.Valid() && i < |x.chunk| && l < m.layers
  {
    Entry(m, Before(m, kv, x), x.chunk[..i + 1], l)
  }

  function SliceToken(m: Model, kv: KvPool, x: Slice): TokenId
    requires x.Valid()
  {
    m.argmax(Residual(m, Before(m, kv, x), x.chunk, m.layers))
  }

  ghost predicate Wrote(m: Model, kv: KvPool, x: Slice, kv': KvPool)
    requires x.Valid()
  {
    forall l, i :: 0 <= l < m.layers && 0 <= i < |x.chunk| ==>
      Read(kv', SlotOf(x.table, l, x.begin + i)) == SliceEntry(m, kv, x, i, l)
  }

  /** One executed step: every slice wrote its own entries, and nothing else
      changed outside the dummy block. */
  ghost predicate Executed(m: Model, kv: KvPool, xs: seq<Slice>, kv': KvPool) {
    && (forall k :: 0 <= k < |xs| ==> xs[k].Valid() && Wrote(m, kv, xs[k], kv'))
    && forall loc: Loc :: loc.block != DUMMY_BLOCK && (forall k :: 0 <= k < |xs| ==> !Touches(xs[k], loc)) ==>
         Read(kv', loc) == Read(kv, loc)
  }

  // ------------------------------------------------------- exclusive ownership

  ghost predicate Injective(table: seq<BlockId>) {
    forall a, b :: 0 <= a < b < |table| ==> table[a] != table[b]
  }

  ghost predicate Disjoint(s: seq<BlockId>, t: seq<BlockId>) {
    forall a, b :: 0 <= a < |s| && 0 <= b < |t| ==> s[a] != t[b]
  }

  predicate InPool(o: Options, table: seq<BlockId>) {
    forall a :: 0 <= a < |table| ==> DUMMY_BLOCK < table[a] < o.totalBlocks
  }

  lemma OnceInjective(table: seq<BlockId>)
    requires forall x :: multiset(table)[x] <= 1
    ensures Injective(table)
  {
    forall a, b | 0 <= a < b < |table|
      ensures table[a] != table[b]
    {
      var front, back := table[..b], table[b..];
      assert table == front + back && front[a] in multiset(front) && back[0] in multiset(back);
      var x: int := table[b];
      assert multiset(table)[x] <= 1;
      assert multiset(front + back)[x] == multiset(front)[x] + multiset(back)[x];
    }
  }

  lemma BooksBound(o: Options, s: Sched, x: int)
    requires Books(o, s)
    ensures Total(s.Live()).blocks[x] <= if 1 <= x < o.totalBlocks then 1 else 0
  {
    hide Total, Descending;
    DescendingCounts(o.totalBlocks - 1, 1, x);
    assert Balance(s).blocks[x] == Capital(o).blocks[x];
  }

  /** A live table: distinct, real blocks. */
  lemma OwnTable(o: Options, s: Sched, i: nat)
    requires Books(o, s) && i < |s.Live()|
    ensures Injective(s.Live()[i].table) && InPool(o, s.Live()[i].table)
  {
    hide Books;
    var table := s.Live()[i].table;
    TotalBounds(s.Live(), i);
    forall x
      ensures multiset(table)[x] <= if 1 <= x < o.totalBlocks then 1 else 0
    {
      BooksBound(o, s, x);
    }
    OnceInjective(table);
    forall a | 0 <= a < |table|
      ensures DUMMY_BLOCK < table[a] < o.totalBlocks
    {
      assert table[a] in multiset(table);
    }
  }

  /** No block is in two live tables. */
  lemma OtherTable(o: Options, s: Sched, i: nat, k: nat)
    requires Books(o, s) && i < k < |s.Live()|
    ensures Disjoint(s.Live()[i].table, s.Live()[k].table)
  {
    hide Books;
    var t, u := s.Live()[i].table, s.Live()[k].table;
    TablesDisjoint(s.Live(), i, k);
    forall a, b | 0 <= a < |t| && 0 <= b < |u|
      ensures t[a] != u[b]
    {
      BooksBound(o, s, t[a]);
      assert t[a] in multiset(t) && u[b] in multiset(u);
      assert (multiset(t) + multiset(u))[t[a]] <= 1;
    }
  }

  /** Distinct positions of one injective table are distinct slots. */
  lemma SlotsDistinct(table: seq<BlockId>, l: nat, p: nat, q: nat)
    requires Injective(table) && p < q < KV_BLOCK_SIZE * |table|
    ensures SlotOf(table, l, p) != SlotOf(table, l, q)
  {
    if p / KV_BLOCK_SIZE != q / KV_BLOCK_SIZE {
      assert table[p / KV_BLOCK_SIZE] != table[q / KV_BLOCK_SIZE];
    }
  }

  // --------------------------------------------------------------- agreement

  /** The first `n` cached positions of `table` are those of `tokens`. */
  ghost predicate Agrees(m: Model, kv: KvPool, table: seq<BlockId>, tokens: seq<TokenId>, n: nat) {
    && n <= KV_BLOCK_SIZE * |table| && n <= |tokens|
    && Gather(m.layers, kv, table, n) == TrueCache(m, tokens[..n])
  }

  lemma AgreesAtZero(m: Model, kv: KvPool, table: seq<BlockId>, tokens: seq<TokenId>)
    ensures Agrees(m, kv, table, tokens, 0)
  {
    var g, t := Gather(m.layers, kv, table, 0), TrueCache(m, tokens[..0]);
    forall l | 0 <= l < m.layers
      ensures g[l] == t[l]
    {
      assert t[l] == Context(m, NoPast(m), tokens[..0], l);
    }
  }

  /** Only slots below `n` matter, and only their contents. */
  lemma AgreesFrame(m: Model, kv: KvPool, kv': KvPool, table: seq<BlockId>, table': seq<BlockId>,
                    tokens: seq<TokenId>, tokens': seq<TokenId>, n: nat)
    requires Agrees(m, kv, table, tokens, n)
    requires table <= table' && n <= |tokens'| && tokens'[..n] == tokens[..n]
    requires forall l, p :: 0 <= l < m.layers && 0 <= p < n ==>
               Read(kv', SlotOf(table, l, p)) == Read(kv, SlotOf(table, l, p))
    ensures Agrees(m, kv', table', tokens', n)
  {
    var g, g' := Gather(m.layers, kv, table, n), Gather(m.layers, kv', table', n);
    forall l | 0 <= l < m.layers
      ensures g[l] == g'[l]
    {
      forall p | 0 <= p < n
        ensures g[l][p] == g'[l][p]
      {
        assert SlotOf(table', l, p) == SlotOf(table, l, p);
      }
    }
    assert g == g';
  }

  /** A slice computed over an agreeing cache yields exactly the entries and the
      token of recomputing the whole prefix. */
  lemma SliceIsExact(m: Model, kv: KvPool, x: Slice, tokens: seq<TokenId>, i: nat, l: nat)
    requires x.Valid() && x.End() <= |tokens| && x.chunk == tokens[x.begin..x.End()]
    requires Agrees(m, kv, x.table, tokens, x.begin)
    requires i < |x.chunk| && l < m.layers
    ensures SliceEntry(m, kv, x, i, l) == TrueCache(m, tokens[..x.End()])[l][x.begin + i]
  {
    hide Residual;
    var a, b := tokens[..x.begin], x.chunk[..i + 1];
    CachingIsExact(m, NoPast(m), a, b, l);
    var n := x.begin + i + 1;
    assert a + b == tokens[..n];
    LastEntry(m, tokens, x.End(), n, l);
  }

  /** Position `n - 1` of a prefix's cache is the entry of its `n`-token prefix. */
  lemma LastEntry(m: Model, tokens: seq<TokenId>, end: nat, n: nat, l: nat)
    requires 0 < n <= end <= |tokens| && l < m.layers
    ensures TrueCache(m, tokens[..end])[l][n - 1] == Entry(m, NoPast(m), tokens[..n], l)
  {
    hide Residual, Entry;
    assert tokens[..end][..n] == tokens[..n];
    ContextPrefix(m, NoPast(m), tokens[..end], n, l);
  }

  lemma SliceTokenIsSample(m: Model, kv: KvPool, x: Slice, tokens: seq<TokenId>)
    requires x.Valid() && x.End() == |tokens| && x.chunk == tokens[x.begin..]
    requires Agrees(m, kv, x.table, tokens, x.begin)
    ensures SliceToken(m, kv, x) == Sample(m, tokens)
  {
    CachingIsExact(m, NoPast(m), tokens[..x.begin], x.chunk, m.layers);
    assert tokens[..x.begin] + x.chunk == tokens;
  }

  /** After the step the slice's sequence is cached through its end. */
  lemma SliceExtendsCache(m: Model, kv: KvPool, x: Slice, tokens: seq<TokenId>, kv': KvPool)
    requires x.Valid() && x.End() <= |tokens| && x.chunk == tokens[x.begin..x.End()]
    requires Agrees(m, kv, x.table, tokens, x.begin)
    requires Wrote(m, kv, x, kv')
    requires forall l, p :: 0 <= l < m.layers && 0 <= p < x.begin ==>
               Read(kv', SlotOf(x.table, l, p)) == Read(kv, SlotOf(x.table, l, p))
    ensures Agrees(m, kv', x.table, tokens, x.End())
  {
    var g, t := Gather(m.layers, kv', x.table, x.End()), TrueCache(m, tokens[..x.End()]);
    forall l | 0 <= l < m.layers
      ensures g[l] == t[l]
    {
      forall p | 0 <= p < x.End()
        ensures g[l][p] == t[l][p]
      {
        if p < x.begin {
          OldPosition(m, kv, x, tokens, l, p);
        } else {
          SliceIsExact(m, kv, x, tokens, p - x.begin, l);
        }
      }
      assert |t[l]| == x.End();
    }
  }

  lemma OldPosition(m: Model, kv: KvPool, x: Slice, tokens: seq<TokenId>, l: nat, p: nat)
    requires x.Valid() && x.End() <= |tokens|
    requires Agrees(m, kv, x.table, tokens, x.begin) && l < m.layers && p < x.begin
    ensures TrueCache(m, tokens[..x.End()])[l][p] == Read(kv, SlotOf(x.table, l, p))
  {
    assert tokens[..x.End()][..x.begin] == tokens[..x.begin];
    ContextPrefix(m, NoPast(m), tokens[..x.End()], x.begin, l);
    assert Gather(m.layers, kv, x.table, x.begin)[l][p] == TrueCache(m, tokens[..x.begin])[l][p];
  }
}
