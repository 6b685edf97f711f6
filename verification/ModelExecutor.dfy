/** The host half of the executor: hard checks, mirror fill, slot addressing, and
    the layer loop over a paged pool held in a real array. Rows may run in any
    order; padding rows hold arbitrary values and write only the dummy block. */
module Execution {
  import opened Types
  import opened ForwardPass
  import opened SchedulerSpec
  import opened PagedCache
  import opened StepExactness
  import opened RowForward
  import opened Requests
  import Scheduling

  datatype ExecutorError =
    | BatchTooLarge | NoGraphs | NoBucket
    | NoTokenYet | BadSeqLen | TokenOutsideVocab | TableTooShort | TableTooWide | BadBlock
    | NotASlice | ChunkTooLarge | ChunkPastMaxSeqLen

  /** The sizes every buffer is allocated for. */
  datatype Limits = Limits(maxBatch: int, prefillChunk: int, maxSeqLen: int, numKvBlocks: int, vocab: nat)
  {
    predicate Valid() { maxBatch >= 1 && prefillChunk >= 1 && maxSeqLen >= 1 && numKvBlocks >= 1 }
    function Width(): int { BlocksForTokens(maxSeqLen) }
    function InputRows(): int { Max(maxBatch, prefillChunk) }
  }

  predicate RealBlock(lim: Limits, b: BlockId) { DUMMY_BLOCK < b < lim.numKvBlocks }

  predicate InVocabulary(lim: Limits, t: TokenId) { 0 <= t < lim.vocab }

  predicate BlocksReal(lim: Limits, table: seq<BlockId>) {
    forall i :: 0 <= i < |table| ==> RealBlock(lim, table[i])
  }

  /** The checks on a block table before it is copied out, in order. */
  function TableCheck(lim: Limits, table: seq<BlockId>, needed: int): Option<ExecutorError> {
    if |table| < BlocksForTokens(needed) then Some(TableTooShort)
    else if |table| > lim.Width() then Some(TableTooWide)
    else if !BlocksReal(lim, table) then Some(BadBlock)
    else None
  }

  /** The checks on a decode row, in order. */
  function DecodeCheck(lim: Limits, r: Req): Option<ExecutorError> {
    if r.outputs == [] then Some(NoTokenYet)
    else if r.SeqLen() < 1 || r.SeqLen() > lim.maxSeqLen then Some(BadSeqLen)
    else if !InVocabulary(lim, r.outputs[|r.outputs| - 1]) then Some(TokenOutsideVocab)
    else TableCheck(lim, r.table, r.SeqLen())
  }

  /** The checks on a prefill slice. */
  function SliceCheck(lim: Limits, r: Req, begin: int, end: int): Option<ExecutorError> {
    if begin < 0 || begin >= end || end > r.PromptLen() then Some(NotASlice)
    else if end - begin > lim.prefillChunk then Some(ChunkTooLarge)
    else if end > lim.maxSeqLen then Some(ChunkPastMaxSeqLen)
    else if |r.table| < BlocksForTokens(end) then Some(TableTooShort)
    else if |r.table| > lim.Width() then Some(TableTooWide)
    else if exists i :: begin <= i < end && !InVocabulary(lim, r.p.prompt[i]) then Some(TokenOutsideVocab)
    else if !BlocksReal(lim, r.table) then Some(BadBlock)
    else None
  }

  /** A row passes exactly when it has a token in the vocabulary, a length within the
      limit, and a table of real blocks that covers the length and fits a mirror row. */
  lemma DecodeCheckMeans(lim: Limits, r: Req)
    requires lim.Valid()
    ensures var n, last := |r.p.prompt| + |r.outputs|, |r.outputs| - 1;
            DecodeCheck(lim, r).None? <==>
              && r.outputs != [] && n <= lim.maxSeqLen && 0 <= r.outputs[last] < lim.vocab
              && n <= 16 * |r.table| && 16 * (|r.table| - 1) < lim.maxSeqLen
              && forall i :: 0 <= i < |r.table| ==> 1 <= r.table[i] < lim.numKvBlocks
  {
    hide RealBlock;
    assert forall i :: 0 <= i < |r.table| ==> (RealBlock(lim, r.table[i]) <==> 1 <= r.table[i] < lim.numKvBlocks) by {
      RealMeans(lim);
    }
  }

  lemma RealMeans(lim: Limits)
    ensures forall b :: RealBlock(lim, b) <==> 1 <= b < lim.numKvBlocks
  {
  }

  /** Which check a failing row reports: the first, in the executor's order. */
  lemma DecodeCheckOrder(lim: Limits, r: Req)
    requires lim.Valid()
    ensures var n, e := |r.p.prompt| + |r.outputs|, DecodeCheck(lim, r);
            && (e == Some(NoTokenYet) <==> r.outputs == [])
            && (e == Some(BadSeqLen) <==> r.outputs != [] && n > lim.maxSeqLen)
            && (e == Some(TokenOutsideVocab) <==>
                  r.outputs != [] && n <= lim.maxSeqLen && !(0 <= r.outputs[|r.outputs| - 1] < lim.vocab))
            && (e == Some(TableTooShort) ==> 16 * |r.table| < n)
            && (e == Some(TableTooWide) ==> 16 * (|r.table| - 1) >= lim.maxSeqLen && n <= 16 * |r.table|)
            && (e == Some(BadBlock) ==> exists i :: 0 <= i < |r.table| && !(1 <= r.table[i] < lim.numKvBlocks))
  {
  }

  /** A slice passes exactly when it is a non-empty piece of the prompt of at most one
      chunk, within the length limit, in the vocabulary, and covered by real blocks. */
  lemma SliceCheckMeans(lim: Limits, r: Req, begin: int, end: int)
    requires lim.Valid()
    ensures SliceCheck(lim, r, begin, end).None? <==>
              && 0 <= begin < end <= |r.p.prompt| && end - begin <= lim.prefillChunk && end <= lim.maxSeqLen
              && (forall i :: begin <= i < end ==> 0 <= r.p.prompt[i] < lim.vocab)
              && end <= 16 * |r.table| && 16 * (|r.table| - 1) < lim.maxSeqLen
              && forall i :: 0 <= i < |r.table| ==> 1 <= r.table[i] < lim.numKvBlocks
  {
    hide RealBlock;
    RealMeans(lim);
  }

  /** Which check a failing slice reports: the first, in the executor's order. */
  lemma SliceCheckOrder(lim: Limits, r: Req, begin: int, end: int)
    requires lim.Valid()
    ensures var e := SliceCheck(lim, r, begin, end);
            && (e == Some(NotASlice) <==> !(0 <= begin < end <= |r.p.prompt|))
            && (e == Some(ChunkTooLarge) <==> 0 <= begin < end <= |r.p.prompt| && end - begin > lim.prefillChunk)
            && (e == Some(ChunkPastMaxSeqLen) <==>
                  0 <= begin < end <= |r.p.prompt| && end - begin <= lim.prefillChunk && end > lim.maxSeqLen)
            && (e == Some(TableTooShort) ==> 16 * |r.table| < end <= lim.maxSeqLen)
            && (e == Some(TableTooWide) ==> 16 * (|r.table| - 1) >= lim.maxSeqLen && end <= 16 * |r.table|)
            && (e == Some(TokenOutsideVocab) ==> end <= 16 * |r.table|)
            && (e == Some(TokenOutsideVocab) ==>
                  exists i :: begin <= i < end && i < |r.p.prompt| && 0 <= i && !(0 <= r.p.prompt[i] < lim.vocab))
            && (e == Some(BadBlock) ==> exists i :: 0 <= i < |r.table| && !(1 <= r.table[i] < lim.numKvBlocks))
            && (e == Some(BadBlock) ==>
                  forall i :: begin <= i < end && i < |r.p.prompt| && 0 <= i ==> 0 <= r.p.prompt[i] < lim.vocab)
  {
  }

  /** A live row's slot is its own; a dummy slot is nobody's. */
  lemma OnePlace(xs: seq<Slice>, r: nat, loc: Loc, l: nat)
    requires AllValid(xs) && DistinctSlots(xs) && loc.layer == l
    requires if r < |xs| then loc == LastSlot(xs[r], l) else loc.block == DUMMY_BLOCK
    ensures forall q :: 0 <= q < |xs| && q != r ==> LastSlot(xs[q], l) != loc
    ensures r < |xs| ==> Targeted(xs, loc)
  {
    forall q | 0 <= q < |xs| && q != r
      ensures LastSlot(xs[q], l) != loc
    {
      assert LastSlot(xs[q], 0).block != DUMMY_BLOCK;
      if r < |xs| {
        SameSlotEveryLayer(xs[q].table, xs[q].End() - 1, xs[r].table, xs[r].End() - 1, l);
      }
    }
  }

  method RowSet(rows: nat) returns (s: set<nat>)
    ensures forall r: nat :: r in s <==> r < rows
  {
    s := {};
    for k := 0 to rows
      invariant forall r: nat :: r in s <==> r < k
    {
      s := s + {k};
    }
  }

  datatype PrefillOutput = PrefillOutput(rows: int, finalChunk: bool, firstToken: TokenId)
  datatype DecodeOutput = DecodeOutput(tokens: seq<TokenId>, rows: nat, bucket: int)

  lemma RowTokens(m: Model, kv0: KvPool, xs: seq<Slice>, x: seq<Row>, tokens: seq<TokenId>)
    requires AllValid(xs) && RowsAt(m, kv0, xs, x, m.layers) && |tokens| == |xs|
    requires forall k :: 0 <= k < |tokens| ==> tokens[k] == m.argmax(x[k])
    ensures forall k :: 0 <= k < |tokens| ==> tokens[k] == SliceToken(m, kv0, xs[k])
  {
    forall k | 0 <= k < |tokens|
      ensures tokens[k] == SliceToken(m, kv0, xs[k])
    {
      RowToken(m, kv0, xs, x, k);
    }
  }

  lemma SliceMeansOk(lim: Limits, r: Req, begin: int, end: int)
    requires SliceCheck(lim, r, begin, end).None?
    ensures 0 <= begin < end <= r.PromptLen() && PromptSlice(r, begin, end).Valid()
    ensures end - begin <= lim.prefillChunk && |r.table| <= lim.Width() && BlocksReal(lim, r.table)
  {
  }

  lemma LastRowToken(m: Model, kv0: KvPool, slice: Slice, x: seq<Row>)
    requires slice.Valid() && AllValid(SliceRows(slice)) && |x| == |slice.chunk|
    requires RowsAt(m, kv0, SliceRows(slice), x, m.layers)
    ensures m.argmax(x[|x| - 1]) == SliceToken(m, kv0, slice)
  {
    RowToken(m, kv0, SliceRows(slice), x, |x| - 1);
    assert slice.chunk[..|x|] == slice.chunk;
  }

  /** The slice of a row that has tokens; any slice for one that has none. */
  function LastSlice(r: Req): Slice {
    if r.outputs == [] then Slice(r.table, 0, []) else RowSlice(r)
  }

  lemma RowMeansOk(lim: Limits, r: Req)
    requires DecodeCheck(lim, r).None?
    ensures r.outputs != [] && LastSlice(r) == RowSlice(r) && RowSlice(r).Valid() && RowSlice(r).End() == r.SeqLen()
    ensures |r.table| <= lim.Width() && BlocksReal(lim, r.table)
  {
  }

  class ModelExecutor {
    const m: Model
    const lim: Limits
    const buckets: seq<int>
    const hasGraphs: bool
    const padEagerToBucket: int
    // Host mirrors, uploaded before every step.
    const inputIds: array<TokenId>
    const positions: array<int>
    const seqLens: array<int>
    const blockTables: array2<BlockId>
    // [layer, block, offset]
    const pool: array3<KvEntry>

    constructor (model: Model, limits: Limits, captured: bool, padding: int)
      requires limits.Valid() && limits.vocab == model.vocab
      ensures Valid() && m == model && lim == limits && hasGraphs == captured && padEagerToBucket == padding
      ensures inputIds.Length == positions.Length == Max(limits.maxBatch, limits.prefillChunk)
      ensures blockTables.Length0 == seqLens.Length == limits.maxBatch && blockTables.Length1 == BlocksForTokens(limits.maxSeqLen)
      ensures forall b :: b in buckets <==> b in {1, 2, 4, 8, 16, 32, 48, 64} && b <= limits.maxBatch
      ensures fresh(inputIds) && fresh(positions) && fresh(seqLens) && fresh(blockTables) && fresh(pool)
    {
      var ladder := Scheduling.MakeDecodeBuckets(limits.maxBatch);
      assert forall b :: b in Scheduling.LADDER ==> b >= 1;
      m, lim, buckets, hasGraphs, padEagerToBucket := model, limits, ladder, captured, padding;
      inputIds := new TokenId[limits.InputRows()];
      positions := new int[limits.InputRows()];
      seqLens := new int[limits.maxBatch];
      blockTables := new BlockId[limits.maxBatch, limits.Width()];
      pool := new KvEntry[model.layers, limits.numKvBlocks, KV_BLOCK_SIZE];
    }

    ghost predicate Valid() {
      && lim.Valid() && lim.vocab == m.vocab
      && inputIds.Length == positions.Length == lim.InputRows() && seqLens.Length == lim.maxBatch
      && inputIds != positions && inputIds != seqLens && positions != seqLens
      && blockTables.Length0 == lim.maxBatch && blockTables.Length1 == lim.Width()
      && pool.Length0 == m.layers && pool.Length1 == lim.numKvBlocks && pool.Length2 == KV_BLOCK_SIZE
      && (forall i, j :: 0 <= i < j < |buckets| ==> buckets[i] < buckets[j])
      && forall b :: b in buckets ==> 1 <= b <= lim.maxBatch
    }

    /** The pool as the cache theorems see it. */
    ghost function Contents(): (kv: KvPool)
      reads pool
      ensures forall l: nat, b: BlockId, f: nat :: l < pool.Length0 && 0 <= b < pool.Length1 && f < pool.Length2 ==>
                Read(kv, Loc(l, b, f)) == pool[l, b, f]
    {
      map l: nat, b: int, f: nat | l < pool.Length0 && 0 <= b < pool.Length1 && f < pool.Length2 :: Loc(l, b, f) := pool[l, b, f]
    }

    method WriteEntry(l: nat, b: BlockId, f: nat, e: KvEntry)
      requires l < pool.Length0 && 0 <= b < pool.Length1 && f < pool.Length2
      modifies pool
      ensures forall loc: Loc :: Read(Contents(), loc) == if loc == Loc(l, b, f) then e else old(Read(Contents(), loc))
    {
      pool[l, b, f] := e;
    }

    // ------------------------------------------------------------- mirror fill

    ghost predicate TableLoaded(row: nat, table: seq<BlockId>)
      requires row < blockTables.Length0
      reads blockTables
    {
      forall i :: 0 <= i < blockTables.Length1 ==> blockTables[row, i] == if i < |table| then table[i] else DUMMY_BLOCK
    }

    /** Copy a block table into a mirror row, dummy-padded; stop at a bad id. */
    method FillTableRow(row: nat, table: seq<BlockId>) returns (ok: bool)
      requires row < blockTables.Length0 && |table| <= blockTables.Length1
      modifies blockTables
      ensures ok <==> BlocksReal(lim, table)
      ensures ok ==> TableLoaded(row, table)
      ensures forall r, i :: 0 <= r < blockTables.Length0 && 0 <= i < blockTables.Length1 && r != row ==>
                blockTables[r, i] == old(blockTables[r, i])
    {
      for i := 0 to |table|
        invariant forall k :: 0 <= k < i ==> RealBlock(lim, table[k]) && blockTables[row, k] == table[k]
        invariant forall r, k :: 0 <= r < blockTables.Length0 && 0 <= k < blockTables.Length1 && r != row ==>
                    blockTables[r, k] == old(blockTables[r, k])
      {
        if !RealBlock(lim, table[i]) {
          return false;
        }
        blockTables[row, i] := table[i];
      }
      for i := |table| to blockTables.Length1
        invariant forall k :: 0 <= k < |table| ==> blockTables[row, k] == table[k]
        invariant forall k :: |table| <= k < i ==> blockTables[row, k] == DUMMY_BLOCK
        invariant forall r, k :: 0 <= r < blockTables.Length0 && 0 <= k < blockTables.Length1 && r != row ==>
                    blockTables[r, k] == old(blockTables[r, k])
      {
        blockTables[row, i] := DUMMY_BLOCK;
      }
      ok := true;
    }

    ghost predicate RowLoaded(row: nat, v: Req)
      requires row < inputIds.Length && row < positions.Length && row < seqLens.Length && row < blockTables.Length0
      reads inputIds, positions, seqLens, blockTables
    {
      && v.outputs != []
      && inputIds[row] == v.outputs[|v.outputs| - 1]
      && positions[row] == v.SeqLen() - 1 && seqLens[row] == v.SeqLen()
      && TableLoaded(row, v.table)
    }

    ghost predicate RowPadded(row: nat)
      requires row < inputIds.Length && row < positions.Length && row < seqLens.Length && row < blockTables.Length0
      reads inputIds, positions, seqLens, blockTables
    {
      inputIds[row] == 0 && positions[row] == 0 && seqLens[row] == 0 && TableLoaded(row, [])
    }

    /** Eager sizing: live rows, unless the padding option asks for a bucket and the
        smallest one covering both exists. */
    predicate EagerRows(live: nat, rows: nat) {
      if padEagerToBucket <= 0 || buckets == [] then rows == live
      else
        var want := Max(live, Min(padEagerToBucket, buckets[|buckets| - 1]));
        if want > 0 && exists b :: b in buckets && b >= want
        then rows in buckets && rows >= want && forall b :: b in buckets && b >= want ==> rows <= b
        else rows == live
    }

    /** How many rows a decode step runs at: the caller's bucket, or the live rows,
        or what the padding option asks for. */
    method DecodeRows(live: nat, padToRows: int) returns (rows: nat)
      requires Valid() && live <= lim.maxBatch && (padToRows > 0 ==> live <= padToRows <= lim.maxBatch)
      ensures live <= rows <= lim.maxBatch
      ensures padToRows > 0 ==> rows == padToRows
      ensures padToRows <= 0 ==> EagerRows(live, rows)
      ensures padToRows <= 0 && (padEagerToBucket <= 0 || buckets == []) ==> rows == live
      ensures padToRows <= 0 && padEagerToBucket > 0 && buckets != [] ==>
                var top := buckets[|buckets| - 1];
                if live > top then rows == live
                else
                  // The smallest bucket that holds the batch and the request, or the largest there is.
                  && rows in buckets && rows >= live && (rows >= padEagerToBucket || rows == top)
                  && forall b :: b in buckets && b >= live && (b >= padEagerToBucket || b == top) ==> rows <= b
    {
      assert buckets != [] ==> buckets[|buckets| - 1] in buckets && forall b :: b in buckets ==> b <= buckets[|buckets| - 1];
      rows := live;
      if padToRows > 0 {
        rows := padToRows;
      } else if padEagerToBucket > 0 && buckets != [] {
        var want := Max(live, Min(padEagerToBucket, buckets[|buckets| - 1]));
        var bucket := Scheduling.SelectBucket(want, buckets);
        if bucket > 0 {
          rows := bucket;
        }
      }
    }

    /** Check and load one live row. */
    method FillRow(row: nat, request: Request) returns (failed: Option<ExecutorError>)
      requires Valid() && row < lim.maxBatch
      modifies inputIds, positions, seqLens, blockTables
      ensures failed == DecodeCheck(lim, request.Value())
      ensures failed.None? ==> RowLoaded(row, request.Value())
      ensures forall r :: 0 <= r < lim.maxBatch && r != row ==>
                inputIds[r] == old(inputIds[r]) && positions[r] == old(positions[r]) && seqLens[r] == old(seqLens[r])
      ensures forall r, i :: 0 <= r < lim.maxBatch && 0 <= i < lim.Width() && r != row ==>
                blockTables[r, i] == old(blockTables[r, i])
    {
      if request.outputs == [] {
        return Some(NoTokenYet);
      }
      var seqLen := request.SeqLen();
      if seqLen < 1 || seqLen > lim.maxSeqLen {
        return Some(BadSeqLen);
      }
      var token := request.outputs[|request.outputs| - 1];
      if !InVocabulary(lim, token) {
        return Some(TokenOutsideVocab);
      }
      if |request.blocks| < BlocksForTokens(seqLen) {
        return Some(TableTooShort);
      }
      if |request.blocks| > lim.Width() {
        return Some(TableTooWide);
      }
      inputIds[row] := token;
      positions[row] := seqLen - 1;
      seqLens[row] := seqLen;
      var ok := FillTableRow(row, request.blocks);
      failed := if ok then None else Some(BadBlock);
    }

    /** A padding row: token 0 at position 0 of length 0, every table entry the dummy. */
    method PadRow(row: nat)
      requires Valid() && row < lim.maxBatch
      modifies inputIds, positions, seqLens, blockTables
      ensures RowPadded(row) && inputIds[row] == 0 && positions[row] == 0 && seqLens[row] == 0
      ensures forall r :: 0 <= r < lim.maxBatch && r != row ==>
                inputIds[r] == old(inputIds[r]) && positions[r] == old(positions[r]) && seqLens[r] == old(seqLens[r])
      ensures forall r, i :: 0 <= r < lim.maxBatch && 0 <= i < lim.Width() && r != row ==>
                blockTables[r, i] == old(blockTables[r, i])
    {
      inputIds[row] := 0;
      positions[row] := 0;
      seqLens[row] := 0;
      var _ := FillTableRow(row, []);
    }

    /** Some row failed its checks: the first one, and what it failed. */
    ghost predicate FirstFailure(batch: seq<Request>, e: ExecutorError)
      reads batch
    {
      exists k :: 0 <= k < |batch| && DecodeCheck(lim, batch[k].Value()) == Some(e)
        && forall j :: 0 <= j < k ==> DecodeCheck(lim, batch[j].Value()).None?
    }

    /** Load every live row and pad the rest; all checks pass or nothing runs. */
    method FillDecodeMirrors(batch: seq<Request>, padToRows: int) returns (r: Result<nat, ExecutorError>)
      requires Valid() && |batch| <= lim.maxBatch && (padToRows > 0 ==> |batch| <= padToRows <= lim.maxBatch)
      modifies inputIds, positions, seqLens, blockTables
      ensures r.Ok? ==> |batch| <= r.value <= lim.maxBatch && if padToRows > 0 then r.value == padToRows else EagerRows(|batch|, r.value)
      ensures r.Ok? ==> forall k :: 0 <= k < |batch| ==>
                DecodeCheck(lim, batch[k].Value()).None? && RowLoaded(k, batch[k].Value())
      ensures r.Ok? ==> forall k :: |batch| <= k < r.value ==> RowPadded(k)
      ensures r.Err? ==> FirstFailure(batch, r.error)
    {
      hide DecodeCheck, EagerRows, RowLoaded, RowPadded, FirstFailure;
      var rows := DecodeRows(|batch|, padToRows);
      var failed := FillLive(batch);
      if failed.Some? {
        return Err(failed.value);
      }
      PadRows(batch, rows);
      r := Ok(rows);
    }

    /** The live rows, first to last, stopping at the first that fails a check. */
    method FillLive(batch: seq<Request>) returns (failed: Option<ExecutorError>)
      requires Valid() && |batch| <= lim.maxBatch
      modifies inputIds, positions, seqLens, blockTables
      ensures failed.None? ==> forall k :: 0 <= k < |batch| ==>
                DecodeCheck(lim, batch[k].Value()).None? && RowLoaded(k, batch[k].Value())
      ensures failed.Some? ==> FirstFailure(batch, failed.value)
    {
      hide DecodeCheck;
      for row := 0 to |batch|
        invariant forall k :: 0 <= k < row ==> DecodeCheck(lim, batch[k].Value()).None? && RowLoaded(k, batch[k].Value())
      {
        failed := FillRow(row, batch[row]);
        if failed.Some? {
          return;
        }
      }
      failed := None;
    }

    /** Padding after the live rows, which stay loaded. */
    method PadRows(batch: seq<Request>, rows: nat)
      requires Valid() && |batch| <= rows <= lim.maxBatch
      requires forall k :: 0 <= k < |batch| ==> RowLoaded(k, batch[k].Value())
      modifies inputIds, positions, seqLens, blockTables
      ensures forall k :: 0 <= k < |batch| ==> RowLoaded(k, batch[k].Value())
      ensures forall k :: |batch| <= k < rows ==> RowPadded(k)
    {
      for row := |batch| to rows
        invariant forall k :: 0 <= k < |batch| ==> RowLoaded(k, batch[k].Value())
        invariant forall k :: |batch| <= k < row ==> RowPadded(k)
      {
        label before:
        PadRow(row);
        forall k | |batch| <= k < row
          ensures RowPadded(k)
        {
          assert old@before(RowPadded(k)) && k != row;
        }
      }
    }

    /** Load one slice of one prompt; every row shares mirror row 0's table. */
    method FillPrefillMirrors(request: Request, begin: int, end: int) returns (r: Result<nat, ExecutorError>)
      requires Valid()
      modifies inputIds, positions, blockTables
      ensures r.Ok? <==> SliceCheck(lim, request.Value(), begin, end).None?
      ensures r.Err? ==> Some(r.error) == SliceCheck(lim, request.Value(), begin, end)
      ensures r.Ok? ==> r.value == end - begin && TableLoaded(0, request.blocks)
      ensures r.Ok? ==> forall i :: 0 <= i < r.value ==>
                inputIds[i] == request.p.prompt[begin + i] && positions[i] == begin + i
    {
      if begin < 0 || begin >= end || end > request.PromptLen() {
        return Err(NotASlice);
      }
      var rows := end - begin;
      if rows > lim.prefillChunk {
        return Err(ChunkTooLarge);
      }
      if end > lim.maxSeqLen {
        return Err(ChunkPastMaxSeqLen);
      }
      if |request.blocks| < BlocksForTokens(end) {
        return Err(TableTooShort);
      }
      if |request.blocks| > lim.Width() {
        return Err(TableTooWide);
      }
      for i := 0 to rows
        invariant forall j :: begin <= j < begin + i ==> InVocabulary(lim, request.p.prompt[j])
        invariant forall k :: 0 <= k < i ==> inputIds[k] == request.p.prompt[begin + k] && positions[k] == begin + k
      {
        var token := request.p.prompt[begin + i];
        if !InVocabulary(lim, token) {
          return Err(TokenOutsideVocab);
        }
        inputIds[i] := token;
        positions[i] := begin + i;
      }
      var ok := FillTableRow(0, request.blocks);
      r := if ok then Ok(rows) else Err(BadBlock);
    }

    // ------------------------------------------------------------- layer loop

    /** Device row `r` addresses the pool as the last token of `x`. */
    ghost predicate RowAddresses(tableRow: nat, position: int, x: Slice)
      requires tableRow < blockTables.Length0
      reads blockTables
    {
      && x.Valid() && position == x.End() - 1 && |x.table| <= blockTables.Length1
      && BlocksReal(lim, x.table) && TableLoaded(tableRow, x.table)
    }

    function TableRow(shared: bool, r: nat): nat { if shared then 0 else r }

    /** Mirrors ready for a step of `rows` rows, the first `|xs|` of them live. */
    ghost predicate Ready(rows: nat, shared: bool, xs: seq<Slice>)
      requires Valid()
      reads positions, blockTables
    {
      && |xs| <= rows <= lim.InputRows() && (!shared ==> rows <= lim.maxBatch)
      && (forall r :: 0 <= r < |xs| ==> RowAddresses(TableRow(shared, r), positions[r], xs[r]))
      && forall r :: |xs| <= r < rows ==> !shared && positions[r] == 0 && TableLoaded(r, [])
    }

    lemma LiveAddress(tableRow: nat, position: int, x: Slice, l: nat, p: nat)
      requires Valid() && tableRow < lim.maxBatch && RowAddresses(tableRow, position, x) && p < x.End()
      ensures p / KV_BLOCK_SIZE < lim.Width()
      ensures RealBlock(lim, blockTables[tableRow, p / KV_BLOCK_SIZE])
      ensures Loc(l, blockTables[tableRow, p / KV_BLOCK_SIZE], p % KV_BLOCK_SIZE) == SlotOf(x.table, l, p)
    {
    }

    lemma PadAddress(row: nat)
      requires Valid() && row < lim.maxBatch && TableLoaded(row, [])
      ensures 0 < lim.Width() && blockTables[row, 0] == DUMMY_BLOCK
    {
    }

    /** The slot a device row writes: its own, or somewhere in the dummy block. */
    method WriteSlot(rows: nat, shared: bool, r: nat, ghost xs: seq<Slice>, l: nat) returns (p: nat, b: BlockId, f: nat)
      requires Valid() && Ready(rows, shared, xs) && r < rows
      ensures 0 <= b < lim.numKvBlocks && f < KV_BLOCK_SIZE
      ensures if r < |xs| then p == xs[r].End() - 1 && Loc(l, b, f) == LastSlot(xs[r], l) else b == DUMMY_BLOCK
    {
      p := positions[r];
      if r < |xs| {
        assert RowAddresses(TableRow(shared, r), p, xs[r]);
        LiveAddress(TableRow(shared, r), p, xs[r], l, p);
      } else {
        PadAddress(r);
      }
      b, f := blockTables[TableRow(shared, r), p / KV_BLOCK_SIZE], p % KV_BLOCK_SIZE;
    }

    /** Every row publishes its entry of layer `l`; rows run in any order. */
    method ScatterLayer(l: nat, rows: nat, shared: bool, x: seq<Row>, ghost xs: seq<Slice>)
      requires Valid() && l < m.layers && Ready(rows, shared, xs) && |xs| <= |x| == rows
      requires AllValid(xs) && DistinctSlots(xs)
      modifies pool
      ensures Scattered(m, old(Contents()), xs, x, l, Contents())
    {
      hide Contents, Targeted, Ready, DistinctSlots;
      var pending: set<nat> := RowSet(rows);
      while pending != {}
        invariant forall r :: r in pending ==> r < rows
        invariant forall r: nat :: r < rows ==> r in pending || WrittenRow(l, x, xs, r)
        invariant forall loc: Loc :: loc.layer != l || (loc.block != DUMMY_BLOCK && !Targeted(xs, loc)) ==>
                    Read(Contents(), loc) == old(Read(Contents(), loc))
        decreases |pending|
      {
        var r: nat :| r in pending;
        var p, b, f := WriteSlot(rows, shared, r, xs, l);
        OnePlace(xs, r, Loc(l, b, f), l);
        WriteEntry(l, b, f, m.kv(l, x[r], p));
        pending := pending - {r};
      }
      forall r | 0 <= r < |xs|
        ensures Read(Contents(), LastSlot(xs[r], l)) == m.kv(l, x[r], xs[r].End() - 1)
      {
        assert WrittenRow(l, x, xs, r);
      }
    }

    ghost predicate WrittenRow(l: nat, x: seq<Row>, xs: seq<Slice>, r: nat)
      requires AllValid(xs)
      reads pool
    {
      r < |xs| && r < |x| ==> Read(Contents(), LastSlot(xs[r], l)) == m.kv(l, x[r], xs[r].End() - 1)
    }

    /** Cached entries `0..n` of a sequence, through its mirror table row. */
    method GatherRow(l: nat, tableRow: nat, n: nat, ghost x: Slice) returns (ctx: seq<KvEntry>)
      requires Valid() && l < m.layers && tableRow < lim.maxBatch
      requires x.Valid() && RowAddresses(tableRow, x.End() - 1, x) && n <= x.End()
      ensures ctx == GatherLayer(Contents(), x.table, l, n)
    {
      hide Contents, RowAddresses;
      ctx := [];
      for p := 0 to n
        invariant |ctx| == p && forall q :: 0 <= q < p ==> ctx[q] == Read(Contents(), SlotOf(x.table, l, q))
      {
        LiveAddress(tableRow, x.End() - 1, x, l, p);
        ctx := ctx + [pool[l, blockTables[tableRow, p / KV_BLOCK_SIZE], p % KV_BLOCK_SIZE]];
      }
    }

    method EmbedGather(rows: nat, ghost xs: seq<Slice>) returns (x: seq<Row>)
      requires Valid() && |xs| <= rows <= lim.InputRows() && AllValid(xs)
      requires forall r :: 0 <= r < |xs| ==> inputIds[r] == xs[r].chunk[|xs[r].chunk| - 1]
      ensures |x| == rows && RowsAt(m, Contents(), xs, x, 0) && LayersDone(m, Contents(), xs, 0, Contents())
    {
      hide Contents, RowsAt, LayersDone;
      x := [];
      for r := 0 to rows
        invariant |x| == r && forall k :: 0 <= k < r ==> x[k] == m.embed(inputIds[k])
      {
        x := x + [m.embed(inputIds[r])];
      }
      RowsStart(m, Contents(), xs, x);
    }

    /** Mirrors hold a decode batch: row `r` feeds the last token of `xs[r]`. */
    ghost predicate DecodeLoaded(rows: nat, xs: seq<Slice>)
      requires Valid()
      reads inputIds, positions, seqLens, blockTables
    {
      && Ready(rows, false, xs) && AllValid(xs)
      && (forall r :: 0 <= r < |xs| ==> inputIds[r] == xs[r].chunk[|xs[r].chunk| - 1] && seqLens[r] == xs[r].End())
      && forall r :: |xs| <= r < rows ==> seqLens[r] == 0
    }

    /** Paged attention and the rest of the layer; a padding row exits at length 0
        and carries whatever its registers held. */
    method AttendDecode(l: nat, rows: nat, x: seq<Row>, ghost xs: seq<Slice>) returns (x': seq<Row>)
      requires Valid() && l < m.layers && |x| == rows && DecodeLoaded(rows, xs)
      ensures |x'| == rows >= |xs|
      ensures forall r :: 0 <= r < |xs| ==> x'[r] == m.block(l, x[r], GatherLayer(Contents(), xs[r].table, l, xs[r].End()))
    {
      hide Contents;
      x' := [];
      for r := 0 to rows
        invariant |x'| == r
        invariant forall k :: 0 <= k < |xs| && k < r ==>
                    x'[k] == m.block(l, x[k], GatherLayer(Contents(), xs[k].table, l, xs[k].End()))
      {
        if seqLens[r] <= 0 {
          var garbage: Row := *;
          x' := x' + [garbage];
        } else {
          assert RowAddresses(TableRow(false, r), positions[r], xs[r]);
          var ctx := GatherRow(l, r, seqLens[r], xs[r]);
          x' := x' + [m.block(l, x[r], ctx)];
        }
      }
    }

    /** One layer of a decode forward: publish every row's entry, then attend. */
    method DecodeLayer(l: nat, rows: nat, x: seq<Row>, ghost xs: seq<Slice>, ghost kv0: KvPool) returns (next: seq<Row>)
      requires Valid() && l < m.layers && |x| == rows && DecodeLoaded(rows, xs) && Independent(xs)
      requires LayersDone(m, kv0, xs, l, Contents()) && RowsAt(m, kv0, xs, x, l)
      modifies pool
      ensures |next| == rows && LayersDone(m, kv0, xs, l + 1, Contents()) && RowsAt(m, kv0, xs, next, l + 1)
    {
      hide Contents, LayersDone, RowsAt, Scattered, PastUntouched, PrefixClosed, DistinctSlots;
      ghost var kv := Contents();
      ScatterLayer(l, rows, false, x, xs);
      ScatterAdvances(m, kv0, xs, l, kv, x, Contents());
      next := AttendDecode(l, rows, x, xs);
      NextRows(m, kv0, xs, l, Contents(), x, next);
    }

    method EnqueueDecodeForward(rows: nat, ghost xs: seq<Slice>) returns (x: seq<Row>)
      requires Valid() && DecodeLoaded(rows, xs) && Independent(xs)
      modifies pool
      ensures |x| == rows && LayersDone(m, old(Contents()), xs, m.layers, Contents())
      ensures RowsAt(m, old(Contents()), xs, x, m.layers)
    {
      hide Contents, LayersDone, RowsAt, Scattered, PastUntouched, PrefixClosed, DistinctSlots;
      ghost var kv0 := Contents();
      x := EmbedGather(rows, xs);
      for l := 0 to m.layers
        invariant DecodeLoaded(rows, xs) && |x| == rows
        invariant LayersDone(m, kv0, xs, l, Contents()) && RowsAt(m, kv0, xs, x, l)
      {
        x := DecodeLayer(l, rows, x, xs, kv0);
      }
    }

    /** Mirrors hold one prefill slice, a row per token. */
    ghost predicate SliceLoaded(slice: Slice)
      requires Valid()
      reads inputIds, positions, blockTables
    {
      && slice.Valid() && |slice.chunk| <= lim.InputRows() && |slice.table| <= lim.Width()
      && BlocksReal(lim, slice.table) && TableLoaded(0, slice.table)
      && forall i :: 0 <= i < |slice.chunk| ==> inputIds[i] == slice.chunk[i] && positions[i] == slice.begin + i
    }

    lemma SliceReady(slice: Slice)
      requires Valid() && SliceLoaded(slice)
      ensures AllValid(SliceRows(slice)) && Ready(|slice.chunk|, true, SliceRows(slice))
      ensures forall r :: 0 <= r < |slice.chunk| ==>
                inputIds[r] == SliceRows(slice)[r].chunk[|SliceRows(slice)[r].chunk| - 1]
    {
    }

    /** Gather the context once; row `i` attends causally to its own prefix of it. */
    method AttendPrefill(l: nat, chunkStart: nat, ctxLen: nat, x: seq<Row>, ghost slice: Slice) returns (x': seq<Row>)
      requires Valid() && l < m.layers && SliceLoaded(slice) && |x| == |slice.chunk|
      requires chunkStart == slice.begin && ctxLen == slice.End()
      ensures |x'| == |x|
      ensures forall r :: 0 <= r < |x| ==>
                x'[r] == m.block(l, x[r], GatherLayer(Contents(), slice.table, l, slice.begin + r + 1))
    {
      hide Contents;
      var gathered := GatherRow(l, 0, ctxLen, slice);
      x' := [];
      for r := 0 to |x|
        invariant |x'| == r
        invariant forall k :: 0 <= k < r ==>
                    x'[k] == m.block(l, x[k], GatherLayer(Contents(), slice.table, l, slice.begin + k + 1))
      {
        assert gathered[..chunkStart + r + 1] == GatherLayer(Contents(), slice.table, l, slice.begin + r + 1);
        x' := x' + [m.block(l, x[r], gathered[..chunkStart + r + 1])];
      }
    }

    /** One layer of a prefill forward: publish the slice's entries, then attend. */
    method PrefillLayer(l: nat, rows: nat, chunkStart: nat, ctxLen: nat, x: seq<Row>, ghost slice: Slice, ghost kv0: KvPool)
      returns (next: seq<Row>)
      requires Valid() && l < m.layers && SliceLoaded(slice) && Independent(SliceRows(slice))
      requires |x| == rows == |slice.chunk| && chunkStart == slice.begin && ctxLen == slice.End()
      requires LayersDone(m, kv0, SliceRows(slice), l, Contents()) && RowsAt(m, kv0, SliceRows(slice), x, l)
      modifies pool
      ensures |next| == rows && LayersDone(m, kv0, SliceRows(slice), l + 1, Contents())
      ensures RowsAt(m, kv0, SliceRows(slice), next, l + 1)
    {
      hide Contents, LayersDone, RowsAt, Scattered, PastUntouched, PrefixClosed, DistinctSlots, SliceRows, Ready;
      ghost var kv, xs := Contents(), SliceRows(slice);
      SliceReady(slice);
      ScatterLayer(l, rows, true, x, xs);
      ScatterAdvances(m, kv0, xs, l, kv, x, Contents());
      next := AttendPrefill(l, chunkStart, ctxLen, x, slice);
      NextRows(m, kv0, xs, l, Contents(), x, next);
    }

    method EnqueuePrefillForward(rows: nat, chunkStart: nat, ctxLen: nat, ghost slice: Slice) returns (x: seq<Row>)
      requires Valid() && SliceLoaded(slice) && Independent(SliceRows(slice))
      requires rows == |slice.chunk| && chunkStart == slice.begin && ctxLen == slice.End()
      modifies pool
      ensures |x| == rows && LayersDone(m, old(Contents()), SliceRows(slice), m.layers, Contents())
      ensures RowsAt(m, old(Contents()), SliceRows(slice), x, m.layers)
    {
      hide Contents, LayersDone, RowsAt, Scattered, PastUntouched, PrefixClosed, DistinctSlots, SliceRows, Ready;
      ghost var kv0, xs := Contents(), SliceRows(slice);
      SliceReady(slice);
      x := EmbedGather(rows, xs);
      for l := 0 to m.layers
        invariant SliceLoaded(slice) && |x| == rows
        invariant LayersDone(m, kv0, xs, l, Contents()) && RowsAt(m, kv0, xs, x, l)
      {
        x := PrefillLayer(l, rows, chunkStart, ctxLen, x, slice, kv0);
      }
    }

    // ------------------------------------------------------------ entry points

    method Argmax(rows: nat, x: seq<Row>) returns (tokens: seq<TokenId>)
      requires rows <= |x|
      ensures |tokens| == rows && forall r :: 0 <= r < rows ==> tokens[r] == m.argmax(x[r])
    {
      tokens := [];
      for r := 0 to rows
        invariant |tokens| == r && forall k :: 0 <= k < r ==> tokens[k] == m.argmax(x[k])
      {
        tokens := tokens + [m.argmax(x[r])];
      }
    }

    /** One prefill slice. Either a check failed and the pool is untouched, or the
        slice has executed; the final slice yields its sequence's first token. */
    method PrefillChunk(request: Request, begin: int, end: int) returns (r: Result<PrefillOutput, ExecutorError>)
      requires Valid() && Injective(request.blocks)
      modifies inputIds, positions, blockTables, pool
      ensures r.Ok? <==> SliceCheck(lim, request.Value(), begin, end).None?
      ensures r.Err? ==> Some(r.error) == SliceCheck(lim, request.Value(), begin, end) && Contents() == old(Contents())
      ensures r.Ok? ==>
                var slice := PromptSlice(request.Value(), begin, end);
                && slice.Valid() && Executed(m, old(Contents()), [slice], Contents())
                && r.value.rows == end - begin && (r.value.finalChunk <==> end == request.PromptLen())
                && (r.value.finalChunk ==> r.value.firstToken == SliceToken(m, old(Contents()), slice))
    {
      hide Contents, LayersDone, RowsAt, Executed, Independent, SliceToken, SliceCheck, SliceRows;
      var filled := FillPrefillMirrors(request, begin, end);
      if filled.Err? {
        return Err(filled.error);
      }
      var rows := filled.value;
      var finalChunk := end == request.PromptLen();
      SliceMeansOk(lim, request.Value(), begin, end);
      ghost var kv0, slice := Contents(), PromptSlice(request.Value(), begin, end);
      SliceRowsIndependent(slice);
      var x := EnqueuePrefillForward(rows, begin, end, slice);
      SliceExecuted(m, kv0, slice, Contents());
      var first: TokenId := -1;
      if finalChunk {
        var tokens := Argmax(1, x[rows - 1..]);
        first := tokens[0];
        LastRowToken(m, kv0, slice, x);
      }
      r := Ok(PrefillOutput(rows, finalChunk, first));
    }

    ghost predicate OwnTables(batch: seq<Request>)
      reads batch
    {
      && (forall k :: 0 <= k < |batch| ==> Injective(batch[k].blocks))
      && forall j, k :: 0 <= j < |batch| && 0 <= k < |batch| && j != k ==> Disjoint(batch[j].blocks, batch[k].blocks)
    }

    ghost predicate BatchOk(batch: seq<Request>)
      reads batch
    {
      forall k :: 0 <= k < |batch| ==> DecodeCheck(lim, batch[k].Value()).None?
    }

    /** One slice per row of a decode batch. */
    ghost function BatchSlices(batch: seq<Request>): (xs: seq<Slice>)
      reads batch
      ensures |xs| == |batch| && forall k :: 0 <= k < |batch| ==> xs[k] == LastSlice(batch[k].Value())
    {
      if batch == [] then [] else BatchSlices(batch[..|batch| - 1]) + [LastSlice(batch[|batch| - 1].Value())]
    }

    ghost predicate AllLoaded(batch: seq<Request>, rows: nat)
      requires Valid() && |batch| <= rows <= lim.maxBatch
      reads inputIds, positions, seqLens, blockTables, batch
    {
      && (forall k :: 0 <= k < |batch| ==> RowLoaded(k, batch[k].Value()))
      && forall k :: |batch| <= k < rows ==> RowPadded(k)
    }

    lemma LoadedRow(row: nat, v: Req)
      requires Valid() && row < lim.maxBatch && DecodeCheck(lim, v).None? && RowLoaded(row, v)
      ensures var x := LastSlice(v);
              && RowAddresses(row, positions[row], x) && |x.chunk| == 1 && BlocksReal(lim, x.table)
              && inputIds[row] == x.chunk[|x.chunk| - 1] && seqLens[row] == x.End()
    {
      RowMeansOk(lim, v);
    }

    lemma BatchReady(batch: seq<Request>, rows: nat)
      requires Valid() && BatchOk(batch) && |batch| <= rows <= lim.maxBatch && AllLoaded(batch, rows)
      ensures DecodeLoaded(rows, BatchSlices(batch))
      ensures forall k :: 0 <= k < |batch| ==> |BatchSlices(batch)[k].chunk| == 1 && BatchSlices(batch)[k].Valid()
      ensures forall k :: 0 <= k < |batch| ==> BlocksReal(lim, BatchSlices(batch)[k].table)
    {
      hide DecodeCheck, LastSlice, RowLoaded, RowAddresses, TableLoaded, BlocksReal, BatchSlices;
      var xs := BatchSlices(batch);
      forall k | 0 <= k < |batch|
        ensures RowAddresses(k, positions[k], xs[k]) && |xs[k].chunk| == 1 && BlocksReal(lim, xs[k].table) && xs[k].Valid()
        ensures inputIds[k] == xs[k].chunk[|xs[k].chunk| - 1] && seqLens[k] == xs[k].End()
      {
        LoadedRow(k, batch[k].Value());
        Addressed(k, positions[k], xs[k]);
      }
      forall k | |xs| <= k < rows
        ensures positions[k] == 0 && seqLens[k] == 0 && TableLoaded(k, [])
      {
        assert RowPadded(k);
      }
    }

    lemma Addressed(tableRow: nat, position: int, x: Slice)
      requires tableRow < blockTables.Length0 && RowAddresses(tableRow, position, x)
      ensures x.Valid()
    {
    }

    /** A loaded batch of sequences that share no block is a set of independent rows. */
    lemma BatchLoaded(batch: seq<Request>, rows: nat)
      requires Valid() && OwnTables(batch) && BatchOk(batch) && |batch| <= rows <= lim.maxBatch && AllLoaded(batch, rows)
      ensures DecodeLoaded(rows, BatchSlices(batch)) && Independent(BatchSlices(batch))
      ensures forall k :: 0 <= k < |batch| ==> |BatchSlices(batch)[k].chunk| == 1
    {
      hide Independent, DecodeCheck, DecodeLoaded, AllLoaded;
      BatchReady(batch, rows);
      BatchIndependent(BatchSlices(batch));
    }

    /** The batch's slices have executed and `tokens` are theirs. */
    ghost predicate BatchRan(batch: seq<Request>, kv: KvPool, kv': KvPool, tokens: seq<TokenId>)
      reads batch
    {
      && Executed(m, kv, BatchSlices(batch), kv') && |tokens| == |batch|
      && forall k :: 0 <= k < |batch| ==> tokens[k] == SliceToken(m, kv, BatchSlices(batch)[k])
    }

    /** Load, run and sample one decode batch at whatever row count padding gives. */
    method RunDecode(batch: seq<Request>, padToRows: int) returns (r: Result<DecodeOutput, ExecutorError>)
      requires Valid() && OwnTables(batch) && |batch| <= lim.maxBatch
      requires padToRows > 0 ==> |batch| <= padToRows <= lim.maxBatch
      modifies inputIds, positions, seqLens, blockTables, pool
      ensures r.Ok? <==> BatchOk(batch)
      ensures r.Err? ==> FirstFailure(batch, r.error) && Contents() == old(Contents())
      ensures r.Ok? ==> |batch| <= r.value.rows <= lim.maxBatch
      ensures r.Ok? ==> if padToRows > 0 then r.value.rows == padToRows else EagerRows(|batch|, r.value.rows)
      ensures r.Ok? ==> BatchRan(batch, old(Contents()), Contents(), r.value.tokens)
    {
      hide Contents, Executed, SliceToken, DecodeCheck, OwnTables, RowLoaded, RowPadded, EagerRows, FirstFailure, BatchRan;
      var filled := FillDecodeMirrors(batch, padToRows);
      if filled.Err? {
        FailedIsNotOk(batch, filled.error);
        return Err(filled.error);
      }
      var tokens := RunLoaded(batch, filled.value);
      r := Ok(DecodeOutput(tokens, filled.value, -1));
    }

    lemma FailedIsNotOk(batch: seq<Request>, e: ExecutorError)
      requires FirstFailure(batch, e)
      ensures !BatchOk(batch)
    {
      hide DecodeCheck;
    }

    /** Run and sample a loaded batch. */
    method RunLoaded(batch: seq<Request>, rows: nat) returns (tokens: seq<TokenId>)
      requires Valid() && OwnTables(batch) && BatchOk(batch) && |batch| <= rows <= lim.maxBatch && AllLoaded(batch, rows)
      modifies pool
      ensures BatchRan(batch, old(Contents()), Contents(), tokens)
    {
      hide Contents, LayersDone, RowsAt, Executed, SliceToken, DecodeCheck, Residual,
        OwnTables, DecodeLoaded, AllLoaded, LastSlice, BatchSlices;
      ghost var kv0, xs := Contents(), BatchSlices(batch);
      BatchLoaded(batch, rows);
      var x := EnqueueDecodeForward(rows, xs);
      BatchExecuted(m, kv0, xs, Contents());
      tokens := Argmax(|batch|, x);
      RowTokens(m, kv0, xs, x, tokens);
    }

    method BucketForRows(rows: int) returns (bucket: int)
      ensures bucket == if rows in buckets then rows else -1
    {
      for k := 0 to |buckets|
        invariant rows !in buckets[..k]
      {
        if buckets[k] == rows {
          return rows;
        }
      }
      assert buckets[..|buckets|] == buckets;
      return -1;
    }

    /** The eager path: live rows, or what the padding option asks for. */
    method DecodeEager(batch: seq<Request>) returns (r: Result<DecodeOutput, ExecutorError>)
      requires Valid() && OwnTables(batch)
      modifies inputIds, positions, seqLens, blockTables, pool
      ensures r.Ok? <==> batch == [] || (|batch| <= lim.maxBatch && BatchOk(batch))
      ensures r.Err? ==> Contents() == old(Contents())
      ensures r.Err? ==> if |batch| > lim.maxBatch then r.error == BatchTooLarge else FirstFailure(batch, r.error)
      ensures r.Ok? ==> BatchRan(batch, old(Contents()), Contents(), r.value.tokens)
      ensures r.Ok? ==> r.value.bucket == if batch != [] && r.value.rows in buckets then r.value.rows else -1
      ensures r.Ok? && batch != [] ==> EagerRows(|batch|, r.value.rows)
    {
      hide Contents, Executed, SliceToken, DecodeCheck, OwnTables, BatchSlices, LastSlice;
      if batch == [] {
        NothingRan(m, Contents());
        return Ok(DecodeOutput([], 0, -1));
      }
      if |batch| > lim.maxBatch {
        return Err(BatchTooLarge);
      }
      r := RunDecode(batch, 0);
      if r.Ok? {
        var bucket := BucketForRows(r.value.rows);
        r := Ok(r.value.(bucket := bucket));
      }
    }

    /** The replay path: padded to the smallest covering bucket. */
    method DecodeGraph(batch: seq<Request>) returns (r: Result<DecodeOutput, ExecutorError>)
      requires Valid() && OwnTables(batch)
      modifies inputIds, positions, seqLens, blockTables, pool
      ensures r.Ok? <==> batch == [] || (hasGraphs && |batch| <= lim.maxBatch && Covered(batch) && BatchOk(batch))
      ensures r.Err? ==> Contents() == old(Contents())
      ensures r.Err? ==> if !hasGraphs then r.error == NoGraphs
                         else if |batch| > lim.maxBatch then r.error == BatchTooLarge
                         else if !Covered(batch) then r.error == NoBucket
                         else FirstFailure(batch, r.error)
      ensures r.Ok? ==> BatchRan(batch, old(Contents()), Contents(), r.value.tokens)
      ensures r.Ok? && batch != [] ==> r.value.bucket == r.value.rows >= |batch| && r.value.rows in buckets
      ensures r.Ok? && batch != [] ==> forall b :: b in buckets && b >= |batch| ==> r.value.rows <= b
    {
      hide Contents, Executed, SliceToken, DecodeCheck, OwnTables, BatchSlices, LastSlice;
      if batch == [] {
        NothingRan(m, Contents());
        return Ok(DecodeOutput([], 0, -1));
      }
      if !hasGraphs {
        return Err(NoGraphs);
      }
      if |batch| > lim.maxBatch {
        return Err(BatchTooLarge);
      }
      var bucket := Scheduling.SelectBucket(|batch|, buckets);
      if bucket < 0 {
        return Err(NoBucket);
      }
      r := RunDecode(batch, bucket);
      if r.Ok? {
        r := Ok(r.value.(bucket := bucket));
      }
    }

    predicate Covered(batch: seq<Request>) {
      exists b :: b in buckets && b >= |batch|
    }
  }

  lemma NothingRan(m: Model, kv: KvPool)
    ensures Executed(m, kv, [], kv)
  {
  }

  lemma WrittenAlike(m: Model, kv: KvPool, x: Slice, kv1: KvPool, kv2: KvPool, loc: Loc)
    requires x.Valid() && Touches(x, loc) && loc.layer < m.layers
    requires Wrote(m, kv, x, kv1) && Wrote(m, kv, x, kv2)
    ensures Read(kv1, loc) == Read(kv2, loc)
  {
    hide SliceEntry;
    var p :| x.begin <= p < x.End() && SlotOf(x.table, loc.layer, p) == loc;
    var i := p - x.begin;
    assert x.begin + i == p;
    assert Read(kv1, SlotOf(x.table, loc.layer, x.begin + i)) == SliceEntry(m, kv, x, i, loc.layer);
    assert Read(kv2, SlotOf(x.table, loc.layer, x.begin + i)) == SliceEntry(m, kv, x, i, loc.layer);
  }

  /** Isolation: slices alone determine a step's tokens and the pool outside the
      dummy block, whatever the row order, the padding and the path taken. */
  lemma StepIsDetermined(m: Model, kv: KvPool, xs: seq<Slice>, kv1: KvPool, kv2: KvPool, loc: Loc)
    requires Executed(m, kv, xs, kv1) && Executed(m, kv, xs, kv2)
    requires loc.block != DUMMY_BLOCK && loc.layer < m.layers
    ensures Read(kv1, loc) == Read(kv2, loc)
  {
    hide SliceEntry;
    if k :| 0 <= k < |xs| && Touches(xs[k], loc) {
      WrittenAlike(m, kv, xs[k], kv1, kv2, loc);
    }
  }
}
