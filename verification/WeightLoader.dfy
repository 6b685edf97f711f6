/** The load loop over one device slab: every region ends up holding exactly its
    converted tensor, for any checkpoint contents and any copy-engine schedule. */
module WeightLoading {
  import opened Types
  import opened Staging

  /** A checkpoint tensor and the contiguous slab range it is destined for. */
  datatype Tensor = Tensor(dst: nat, src: Bytes, count: nat, dtype: Dtype)
  {
    predicate FitsIn(deviceLength: int) { dst + count <= deviceLength && 2 * count <= |src| }
    predicate Touches(i: int) { dst <= i < dst + count }
  }

  ghost predicate Acceptable(t: Tensor)
    requires 2 * t.count <= |t.src|
  {
    t.dtype != OtherDtype && NoneRefused(t.src, t.dtype, 0, t.count)
  }

  ghost predicate Apart(a: Tensor, b: Tensor) {
    a.dst + a.count <= b.dst || b.dst + b.count <= a.dst
  }

  ghost predicate Planned(ts: seq<Tensor>, deviceLength: int) {
    && (forall k :: 0 <= k < |ts| ==> ts[k].FitsIn(deviceLength))
    && forall j, k :: 0 <= j < k < |ts| ==> Apart(ts[j], ts[k])
  }

  /** The slab range of `t` holds its elementwise conversion. */
  ghost predicate Resident(dev: seq<nat>, t: Tensor)
    requires t.FitsIn(|dev|)
  {
    dev[t.dst..t.dst + t.count] == ConvertedRange(t.src, t.dtype, 0, t.count)
  }

  lemma JustWritten(before: seq<nat>, t: Tensor)
    requires t.FitsIn(|before|)
    ensures Resident(Overwrite(before, t.dst, ConvertedRange(t.src, t.dtype, 0, t.count)), t)
  {
    hide Converted;
  }

  lemma StaysResident(before: seq<nat>, t: Tensor, other: Tensor, after: seq<nat>)
    requires |after| == |before| && t.FitsIn(|before|) && other.FitsIn(|before|) && Resident(before, t) && Apart(t, other)
    requires forall i :: 0 <= i < |before| && !other.Touches(i) ==> after[i] == before[i]
    ensures Resident(after, t)
  {
    assert after[t.dst..t.dst + t.count] == before[t.dst..t.dst + t.count];
  }

  /** Upload every tensor in map order; stop at the first that is refused. Either
      way the copy engine is drained before the slab is used or freed. */
  method LoadWeights(up: StagedUploader, ts: seq<Tensor>) returns (failed: Option<(nat, UploadError)>)
    requires up.Valid() && Planned(ts, up.device.Length)
    modifies up, up.staging, up.device
    ensures up.Valid() && up.inFlight == []
    ensures failed.None? <==> forall k :: 0 <= k < |ts| ==> Acceptable(ts[k])
    ensures failed.None? ==> forall k :: 0 <= k < |ts| ==> Resident(up.device[..], ts[k])
    ensures failed.Some? ==> Blames(ts, failed.value.0, failed.value.1)
  {
    hide Resident, Acceptable, StagedUploader.Outcome, ConvertedRange, NoneRefused, Reports;
    for k := 0 to |ts|
      invariant up.Valid()
      invariant forall j :: 0 <= j < k ==> Resident(up.Outcome(), ts[j]) && Acceptable(ts[j])
    {
      var t := ts[k];
      ghost var before := up.Outcome();
      var error := up.Upload(t.dst, t.src, t.count, t.dtype, 0);
      AcceptableMeans(t);
      if error.Some? {
        up.Synchronize();
        return Some((k, error.value));
      }
      JustWritten(before, t);
      forall j | 0 <= j < k
        ensures Resident(up.Outcome(), ts[j])
      {
        StaysResident(before, ts[j], t, up.Outcome());
      }
    }
    up.Synchronize();
    failed := None;
  }

  lemma AcceptableMeans(t: Tensor)
    requires 2 * t.count <= |t.src|
    ensures Acceptable(t) <==> t.dtype != OtherDtype && NoneRefused(t.src, t.dtype, 0, t.count)
  {
  }

  /** Tensor `k` is the first unacceptable one and `e` is why. */
  ghost predicate Blames(ts: seq<Tensor>, k: nat, e: UploadError)
    requires forall j :: 0 <= j < |ts| ==> 2 * ts[j].count <= |ts[j].src|
  {
    && k < |ts| && (forall j :: 0 <= j < k ==> Acceptable(ts[j])) && !Acceptable(ts[k])
    && if ts[k].dtype == OtherDtype then e == UnsupportedDtype
       else Reports(e, ts[k].src, ts[k].dtype, 0, ts[k].count, 0)
  }

  /** Any layout of consecutive regions is one the load loop may be run on. */
  lemma LayoutIsPlanned(ts: seq<Tensor>, starts: seq<nat>, total: nat)
    requires |starts| == |ts| && forall k :: 0 <= k < |ts| ==> ts[k].dst == starts[k] && 2 * ts[k].count <= |ts[k].src|
    requires forall k :: 0 <= k < |ts| ==> starts[k] + ts[k].count <= total
    requires forall j, k :: 0 <= j < k < |ts| ==> starts[j] + ts[j].count <= starts[k]
    ensures Planned(ts, total)
  {
  }

  // ------------------------------------------------------------ slab planning

  /** Hands out consecutive aligned regions of one slab. */
  class SlabPlanner {
    const align: nat
    var offset: nat

    constructor (a: nat)
      requires a > 0
      ensures align == a && offset == 0
    {
      align := a;
      offset := 0;
    }

    method Take(bytes: nat) returns (at: nat)
      requires align > 0
      modifies `offset
      ensures at == old(offset) && at + bytes <= offset < at + bytes + align
      ensures at % align == 0 ==> offset % align == 0
    {
      at := offset;
      var up := (bytes + align - 1) / align * align;
      RoundedUp(bytes, align);
      offset := offset + up;
      SumOfMultiples(at, up, align);
    }
  }

  lemma RoundedUp(bytes: nat, align: nat)
    requires align > 0
    ensures var up := (bytes + align - 1) / align * align; bytes <= up < bytes + align && up % align == 0
  {
    var q := (bytes + align - 1) / align;
    assert bytes + align - 1 == q * align + (bytes + align - 1) % align;
    MultipleOf(q, align);
  }

  lemma {:induction false} MultipleOf(q: nat, align: nat)
    requires align > 0
    ensures q * align % align == 0
  {
    if q > 0 {
      MultipleOf(q - 1, align);
      assert q * align == (q - 1) * align + align;
      assert ((q - 1) * align + align) % align == (q - 1) * align % align by { AddModulus((q - 1) * align, align); }
    }
  }

  lemma AddModulus(n: nat, d: nat)
    requires d > 0
    ensures (n + d) % d == n % d
  {
    var q, r := n / d, n % d;
    assert n + d == (q + 1) * d + r;
    UniqueRemainder(n + d, d, q + 1, r);
  }

  lemma UniqueRemainder(n: nat, d: nat, q: nat, r: nat)
    requires r < d && n == q * d + r
    ensures n % d == r
  {
    var k := n / d - q;
    assert k * d == r - n % d;
    assert k >= 1 ==> k * d >= d;
    assert k <= -1 ==> k * d <= -1 * d;
  }

  lemma SumOfMultiples(a: nat, b: nat, d: nat)
    requires d > 0 && b % d == 0
    ensures a % d == 0 ==> (a + b) % d == 0
  {
    if a % d == 0 {
      var p, q := a / d, b / d;
      assert a + b == (p + q) * d;
      MultipleOf(p + q, d);
    }
  }

  /** Lay out regions of the given sizes: aligned, in order, pairwise disjoint. */
  method PlanSlab(sizes: seq<nat>, align: nat) returns (starts: seq<nat>, total: nat)
    requires align > 0
    ensures |starts| == |sizes| && total % align == 0
    ensures forall k :: 0 <= k < |sizes| ==> starts[k] % align == 0 && starts[k] + sizes[k] <= total
    ensures forall j, k :: 0 <= j < k < |sizes| ==> starts[j] + sizes[j] <= starts[k]
  {
    var plan := new SlabPlanner(align);
    starts := [];
    for k := 0 to |sizes|
      invariant |starts| == k && plan.align == align && plan.offset % align == 0
      invariant forall j :: 0 <= j < k ==> starts[j] % align == 0 && starts[j] + sizes[j] <= plan.offset
      invariant forall i, j :: 0 <= i < j < k ==> starts[i] + sizes[i] <= starts[j]
    {
      var at := plan.Take(sizes[k]);
      starts := starts + [at];
    }
    total := plan.offset;
  }
}
