/** The layer loop over device rows. Rows run together, layer by layer, scattering
    into one pool and attending through their own tables; under slot independence
    each row still computes what it would compute alone. */
module RowForward {
  import opened Types
  import opened ForwardPass
  import opened PagedCache

  /** Row `r` is the last token of `xs[r]`: its sequence's chunk up to that row. */
  function LastSlot(x: Slice, l: nat): Loc
    requires x.Valid()
  {
    SlotOf(x.table, l, x.End() - 1)
  }

  ghost predicate AllValid(xs: seq<Slice>) {
    forall r :: 0 <= r < |xs| ==> xs[r].Valid()
  }

  /** Rows write distinct real slots. */
  ghost predicate DistinctSlots(xs: seq<Slice>)
    requires AllValid(xs)
  {
    && (forall r, q :: 0 <= r < q < |xs| ==> LastSlot(xs[r], 0) != LastSlot(xs[q], 0))
    && forall r :: 0 <= r < |xs| ==> LastSlot(xs[r], 0).block != DUMMY_BLOCK
  }

  /** No row writes what another row reads from before the step. */
  ghost predicate PastUntouched(xs: seq<Slice>)
    requires AllValid(xs)
  {
    && (forall r, q, p :: 0 <= r < |xs| && 0 <= q < |xs| && 0 <= p < xs[r].begin ==>
          LastSlot(xs[q], 0) != SlotOf(xs[r].table, 0, p))
    && forall r, p :: 0 <= r < |xs| && 0 <= p < xs[r].begin ==> SlotOf(xs[r].table, 0, p).block != DUMMY_BLOCK
  }

  /** Earlier tokens of a row's chunk are rows too. */
  ghost predicate PrefixClosed(xs: seq<Slice>) {
    forall r, n :: 0 <= r < |xs| && 1 <= n < |xs[r].chunk| ==> HasRow(xs, xs[r], n)
  }

  ghost predicate HasRow(xs: seq<Slice>, x: Slice, n: nat)
    requires n <= |x.chunk|
  {
    exists q :: 0 <= q < |xs| && xs[q] == Slice(x.table, x.begin, x.chunk[..n])
  }

  ghost predicate Independent(xs: seq<Slice>) {
    AllValid(xs) && DistinctSlots(xs) && PastUntouched(xs) && PrefixClosed(xs)
  }

  /** Residual rows entering layer `l`: each as if its slice ran alone. */
  ghost predicate RowsAt(m: Model, kv0: KvPool, xs: seq<Slice>, x: seq<Row>, l: nat)
    requires AllValid(xs)
  {
    |x| >= |xs| && l <= m.layers &&
    forall r :: 0 <= r < |xs| ==> x[r] == Residual(m, Before(m, kv0, xs[r]), xs[r].chunk, l)
  }

  predicate Targeted(xs: seq<Slice>, loc: Loc)
    requires AllValid(xs)
  {
    exists r :: 0 <= r < |xs| && LastSlot(xs[r], loc.layer) == loc
  }

  /** What one layer's scatter does, in whatever order its rows run. */
  ghost predicate Scattered(m: Model, kv: KvPool, xs: seq<Slice>, x: seq<Row>, l: nat, kv': KvPool)
    requires AllValid(xs) && |x| >= |xs|
  {
    && (forall r :: 0 <= r < |xs| ==> Read(kv', LastSlot(xs[r], l)) == m.kv(l, x[r], xs[r].End() - 1))
    && forall loc: Loc :: loc.layer != l || (loc.block != DUMMY_BLOCK && !Targeted(xs, loc)) ==>
         Read(kv', loc) == Read(kv, loc)
  }

  ghost predicate LayersDone(m: Model, kv0: KvPool, xs: seq<Slice>, l: nat, kv: KvPool)
    requires AllValid(xs)
  {
    && l <= m.layers
    && (forall r, k :: 0 <= r < |xs| && 0 <= k < l ==>
          Read(kv, LastSlot(xs[r], k)) == Entry(m, Before(m, kv0, xs[r]), xs[r].chunk, k))
    && forall loc: Loc :: loc.layer >= l || (loc.block != DUMMY_BLOCK && !Targeted(xs, loc)) ==>
         Read(kv, loc) == Read(kv0, loc)
  }

  lemma SameSlotEveryLayer(t: seq<BlockId>, p: nat, u: seq<BlockId>, q: nat, l: nat)
    requires p < KV_BLOCK_SIZE * |t| && q < KV_BLOCK_SIZE * |u|
    ensures SlotOf(t, l, p) == SlotOf(u, l, q) <==> SlotOf(t, 0, p) == SlotOf(u, 0, q)
  {
  }

  lemma ScatterAdvances(m: Model, kv0: KvPool, xs: seq<Slice>, l: nat, kv: KvPool, x: seq<Row>, kv': KvPool)
    requires AllValid(xs) && l < m.layers && LayersDone(m, kv0, xs, l, kv) && RowsAt(m, kv0, xs, x, l)
    requires Scattered(m, kv, xs, x, l, kv')
    ensures LayersDone(m, kv0, xs, l + 1, kv')
  {
    hide Targeted, Residual;
    forall r, k | 0 <= r < |xs| && 0 <= k < l + 1
      ensures Read(kv', LastSlot(xs[r], k)) == Entry(m, Before(m, kv0, xs[r]), xs[r].chunk, k)
    {
      if k < l {
        assert LastSlot(xs[r], k).layer == k;
      }
    }
  }

  lemma BeforeShape(m: Model, kv: KvPool, x: Slice)
    requires x.Valid()
    ensures |Before(m, kv, x)| == m.layers
    ensures forall l :: 0 <= l < m.layers ==> |Before(m, kv, x)[l]| == x.begin
  {
  }

  /** Position `begin + n - 1` of a row's context, written by an earlier row. */
  lemma SiblingEntry(m: Model, kv0: KvPool, xs: seq<Slice>, l: nat, kv': KvPool, r: nat, n: nat)
    requires Independent(xs) && LayersDone(m, kv0, xs, l + 1, kv') && r < |xs| && 1 <= n <= |xs[r].chunk|
    ensures |Before(m, kv0, xs[r])| == m.layers
    ensures Read(kv', SlotOf(xs[r].table, l, xs[r].begin + n - 1)) == Entry(m, Before(m, kv0, xs[r]), xs[r].chunk[..n], l)
  {
    hide DistinctSlots, PastUntouched, Targeted, Residual;
    var x := xs[r];
    BeforeShape(m, kv0, x);
    var q := r;
    if n < |x.chunk| {
      assert HasRow(xs, x, n);
      q :| 0 <= q < |xs| && xs[q] == Slice(x.table, x.begin, x.chunk[..n]);
    } else {
      assert x.chunk[..n] == x.chunk;
    }
    assert LastSlot(xs[q], l) == SlotOf(x.table, l, x.begin + n - 1);
    assert Before(m, kv0, xs[q]) == Before(m, kv0, x);
  }

  /** What attention of row `r` reads in layer `l` is exactly its solo context. */
  lemma LayerContext(m: Model, kv0: KvPool, xs: seq<Slice>, l: nat, kv': KvPool, r: nat)
    requires Independent(xs) && l < m.layers && LayersDone(m, kv0, xs, l + 1, kv') && r < |xs|
    ensures |Before(m, kv0, xs[r])| == m.layers
    ensures GatherLayer(kv', xs[r].table, l, xs[r].End()) == Context(m, Before(m, kv0, xs[r]), xs[r].chunk, l)
  {
    hide Residual, LayersDone;
    var x := xs[r];
    BeforeShape(m, kv0, x);
    var past := Before(m, kv0, x);
    hide Before;
    var g, c := GatherLayer(kv', x.table, l, x.End()), Context(m, past, x.chunk, l);
    forall p | 0 <= p < x.End()
      ensures g[p] == c[p]
    {
      ContextPrefix(m, past, x.chunk, if p < x.begin then 0 else p - x.begin + 1, l);
      if p < x.begin {
        PastRead(m, kv0, xs, l, kv', r, p);
        assert x.chunk[..0] == [];
      } else {
        SiblingEntry(m, kv0, xs, l, kv', r, p - x.begin + 1);
      }
    }
  }

  lemma PastRead(m: Model, kv0: KvPool, xs: seq<Slice>, l: nat, kv': KvPool, r: nat, p: nat)
    requires Independent(xs) && l < m.layers && LayersDone(m, kv0, xs, l + 1, kv') && r < |xs| && p < xs[r].begin
    ensures |Before(m, kv0, xs[r])| == m.layers
    ensures Read(kv', SlotOf(xs[r].table, l, p)) == Before(m, kv0, xs[r])[l][p]
  {
    hide DistinctSlots, PrefixClosed;
    var loc := SlotOf(xs[r].table, l, p);
    assert SlotOf(xs[r].table, 0, p).block == loc.block;
    forall q | 0 <= q < |xs|
      ensures LastSlot(xs[q], l) != loc
    {
      SameSlotEveryLayer(xs[q].table, xs[q].End() - 1, xs[r].table, p, l);
    }
    assert !Targeted(xs, loc);
  }

  lemma RowsStart(m: Model, kv0: KvPool, xs: seq<Slice>, x: seq<Row>)
    requires AllValid(xs) && |x| >= |xs|
    requires forall r :: 0 <= r < |xs| ==> x[r] == m.embed(xs[r].chunk[|xs[r].chunk| - 1])
    ensures RowsAt(m, kv0, xs, x, 0) && LayersDone(m, kv0, xs, 0, kv0)
  {
  }

  /** Attention over those contexts carries every row to the next layer. */
  lemma NextRows(m: Model, kv0: KvPool, xs: seq<Slice>, l: nat, kv: KvPool, x: seq<Row>, x': seq<Row>)
    requires Independent(xs) && l < m.layers && LayersDone(m, kv0, xs, l + 1, kv) && RowsAt(m, kv0, xs, x, l)
    requires |x'| >= |xs|
    requires forall r :: 0 <= r < |xs| ==> x'[r] == m.block(l, x[r], GatherLayer(kv, xs[r].table, l, xs[r].End()))
    ensures RowsAt(m, kv0, xs, x', l + 1)
  {
    hide LayersDone, DistinctSlots, PastUntouched, PrefixClosed;
    forall r | 0 <= r < |xs|
      ensures x'[r] == Residual(m, Before(m, kv0, xs[r]), xs[r].chunk, l + 1)
    {
      LayerContext(m, kv0, xs, l, kv, r);
    }
  }

  /** The token sampled from a finished row is its slice's token. */
  lemma RowToken(m: Model, kv0: KvPool, xs: seq<Slice>, x: seq<Row>, r: nat)
    requires AllValid(xs) && RowsAt(m, kv0, xs, x, m.layers) && r < |xs|
    ensures m.argmax(x[r]) == SliceToken(m, kv0, xs[r])
  {
  }

  lemma LastIsTouched(x: Slice, loc: Loc)
    requires x.Valid()
    ensures LastSlot(x, loc.layer) == loc ==> Touches(x, loc)
  {
  }

  /** After the last layer a decode batch has executed each of its one-token slices. */
  lemma BatchExecuted(m: Model, kv0: KvPool, xs: seq<Slice>, kv: KvPool)
    requires AllValid(xs) && LayersDone(m, kv0, xs, m.layers, kv)
    requires forall r :: 0 <= r < |xs| ==> |xs[r].chunk| == 1
    ensures Executed(m, kv0, xs, kv)
  {
    hide Residual, Before, Entry;
    forall r | 0 <= r < |xs|
      ensures Wrote(m, kv0, xs[r], kv)
    {
      assert xs[r].chunk[..1] == xs[r].chunk;
    }
    forall loc: Loc | loc.block != DUMMY_BLOCK && forall k :: 0 <= k < |xs| ==> !Touches(xs[k], loc)
      ensures Read(kv, loc) == Read(kv0, loc)
    {
      forall r | 0 <= r < |xs|
        ensures LastSlot(xs[r], loc.layer) != loc
      {
        LastIsTouched(xs[r], loc);
      }
    }
  }

  /** The rows of one prefill slice: every prefix of its chunk. */
  function SliceRows(x: Slice): (xs: seq<Slice>)
    ensures |xs| == |x.chunk|
    ensures forall i :: 0 <= i < |xs| ==> xs[i] == Slice(x.table, x.begin, x.chunk[..i + 1])
  {
    seq(|x.chunk|, i requires 0 <= i < |x.chunk| => Slice(x.table, x.begin, x.chunk[..i + 1]))
  }

  lemma RowIsTouched(x: Slice, i: nat, loc: Loc)
    requires x.Valid() && i < |x.chunk| && AllValid(SliceRows(x))
    ensures LastSlot(SliceRows(x)[i], loc.layer) == loc ==> Touches(x, loc)
  {
  }

  lemma SliceExecuted(m: Model, kv0: KvPool, x: Slice, kv: KvPool)
    requires x.Valid() && AllValid(SliceRows(x)) && LayersDone(m, kv0, SliceRows(x), m.layers, kv)
    ensures Executed(m, kv0, [x], kv)
  {
    hide Residual, Entry;
    var xs := SliceRows(x);
    forall l, i | 0 <= l < m.layers && 0 <= i < |x.chunk|
      ensures Read(kv, SlotOf(x.table, l, x.begin + i)) == SliceEntry(m, kv0, x, i, l)
    {
      assert LastSlot(xs[i], l) == SlotOf(x.table, l, x.begin + i);
      assert Before(m, kv0, xs[i]) == Before(m, kv0, x);
    }
    forall loc: Loc | loc.block != DUMMY_BLOCK && !Touches([x][0], loc)
      ensures Read(kv, loc) == Read(kv0, loc)
    {
      forall r | 0 <= r < |xs|
        ensures LastSlot(xs[r], loc.layer) != loc
      {
        RowIsTouched(x, r, loc);
      }
    }
  }

  lemma SliceRowsClosed(x: Slice)
    ensures PrefixClosed(SliceRows(x))
  {
    var xs := SliceRows(x);
    forall r, n | 0 <= r < |xs| && 1 <= n < |xs[r].chunk|
      ensures HasRow(xs, xs[r], n)
    {
      assert xs[r].chunk[..n] == x.chunk[..n];
      assert xs[n - 1] == Slice(xs[r].table, xs[r].begin, xs[r].chunk[..n]);
    }
  }

  lemma SliceRowsDistinct(x: Slice)
    requires x.Valid() && Injective(x.table) && forall b :: 0 <= b < |x.table| ==> x.table[b] != DUMMY_BLOCK
    ensures AllValid(SliceRows(x)) && DistinctSlots(SliceRows(x))
  {
    var xs := SliceRows(x);
    forall r, q | 0 <= r < q < |xs|
      ensures LastSlot(xs[r], 0) != LastSlot(xs[q], 0)
    {
      SlotsDistinct(x.table, 0, xs[r].End() - 1, xs[q].End() - 1);
    }
  }

  lemma SliceRowsPast(x: Slice)
    requires x.Valid() && Injective(x.table) && forall b :: 0 <= b < |x.table| ==> x.table[b] != DUMMY_BLOCK
    ensures AllValid(SliceRows(x)) && PastUntouched(SliceRows(x))
  {
    var xs := SliceRows(x);
    forall r, q, p | 0 <= r < |xs| && 0 <= q < |xs| && 0 <= p < xs[r].begin
      ensures LastSlot(xs[q], 0) != SlotOf(xs[r].table, 0, p)
    {
      SlotsDistinct(x.table, 0, p, xs[q].End() - 1);
    }
  }

  /** One sequence's own rows never collide. */
  lemma SliceRowsIndependent(x: Slice)
    requires x.Valid() && Injective(x.table) && forall b :: 0 <= b < |x.table| ==> x.table[b] != DUMMY_BLOCK
    ensures Independent(SliceRows(x))
  {
    hide DistinctSlots, PastUntouched, PrefixClosed;
    SliceRowsDistinct(x);
    SliceRowsPast(x);
    SliceRowsClosed(x);
  }

  /** Tables of distinct real blocks, no block in two of them. */
  ghost predicate TablesApart(xs: seq<Slice>) {
    && (forall r :: 0 <= r < |xs| ==> Injective(xs[r].table) && forall b :: 0 <= b < |xs[r].table| ==> xs[r].table[b] != DUMMY_BLOCK)
    && forall r, q :: 0 <= r < |xs| && 0 <= q < |xs| && r != q ==> Disjoint(xs[r].table, xs[q].table)
  }

  /** Decode rows of sequences that share no block never collide. */
  lemma BatchIndependent(xs: seq<Slice>)
    requires AllValid(xs) && TablesApart(xs) && forall r :: 0 <= r < |xs| ==> |xs[r].chunk| == 1
    ensures Independent(xs)
  {
    forall r, q, p | 0 <= r < |xs| && 0 <= q < |xs| && 0 <= p <= xs[r].begin && (r != q || p < xs[r].begin)
      ensures LastSlot(xs[q], 0) != SlotOf(xs[r].table, 0, p)
    {
      if r == q {
        SlotsDistinct(xs[r].table, 0, p, xs[r].End() - 1);
      } else {
        var a, b := (xs[q].End() - 1) / KV_BLOCK_SIZE, p / KV_BLOCK_SIZE;
        assert Disjoint(xs[q].table, xs[r].table);
        assert xs[q].table[a] != xs[r].table[b];
      }
    }
    forall r, q | 0 <= r < q < |xs|
      ensures LastSlot(xs[r], 0) != LastSlot(xs[q], 0)
    {
      assert LastSlot(xs[q], 0) != SlotOf(xs[r].table, 0, xs[r].begin);
    }
  }
}
