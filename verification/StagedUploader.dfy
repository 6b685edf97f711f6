/** The double-buffered uploader against an asynchronous copy engine. Issued copies
    form a FIFO and read the staging slot only when they fire, which the device may
    do between any two host steps; overwriting a slot too early would corrupt them. */
module Staging {
  import opened Types
  import opened FloatConversion

  datatype Dtype = BF16 | F16 | OtherDtype

  datatype UploadError = StagingTooSmall | UnsupportedDtype | Fp16Overflow(index: nat, bits: nat)

  // Smallest staging buffer accepted, in bytes.
  const MIN_STAGING_BYTES := 4096

  /** A copy issued to the stream: `n` elements out of a slot. */
  datatype Copy = Copy(dst: nat, slot: nat, n: nat)

  type Bytes = seq<nat>

  /** Little-endian 16-bit load of element `i`. */
  function Load16(src: Bytes, i: nat): (w: nat)
    requires 2 * i + 1 < |src|
    ensures w < 0x1_0000 && w % 0x100 == src[2 * i] % 0x100 && w / 0x100 == src[2 * i + 1] % 0x100
  {
    src[2 * i] % 0x100 + src[2 * i + 1] % 0x100 * 0x100
  }

  /** What element `i` must become on the device. */
  function Converted(src: Bytes, dtype: Dtype, i: nat): nat
    requires 2 * i + 1 < |src|
  {
    if dtype == BF16 then Bf16BitsToFp16BitsRne(Load16(src, i)) else Load16(src, i)
  }

  /** The element as its two bytes say, low byte first: an FP16 element arrives bit for
      bit; a BF16 one as the nearest binary16 value under its own sign. */
  lemma ConvertedMeans(src: Bytes, dtype: Dtype, i: nat)
    requires 2 * i + 1 < |src|
    ensures var lo, hi := src[2 * i] % 0x100, src[2 * i + 1] % 0x100;
            var w, h := lo + 0x100 * hi, Converted(src, dtype, i);
            && (dtype != BF16 ==> h % 0x100 == lo && h / 0x100 == hi)
            && (dtype == BF16 ==> (h >= 0x8000 <==> hi >= 0x80) && (w % 0x8000 > 0x7F80 <==> h % 0x8000 == 0x7E00))
            && (dtype == BF16 && w % 0x8000 < 0x4780 ==> NearestEven(ValueBf16(w), h % 0x8000))
  {
    hide NearestEven, ValueBf16, Bf16BitsToFp16BitsRne;
    Bf16RoundsToNearestEven(Load16(src, i));
  }

  /** Refusal in terms of values: only a BF16 element of magnitude 65536 or more, or
      infinite; never NaN, never an FP16 element. */
  lemma RefusedMeans(src: Bytes, dtype: Dtype, i: nat)
    requires 2 * i + 1 < |src|
    ensures var w := src[2 * i] % 0x100 + 0x100 * (src[2 * i + 1] % 0x100);
            Refused(src, dtype, i) <==> dtype == BF16 && 0x4780 <= w % 0x8000 <= 0x7F80
  {
  }

  function ConvertedRange(src: Bytes, dtype: Dtype, lo: nat, hi: nat): (t: seq<nat>)
    requires lo <= hi && 2 * hi <= |src|
    ensures |t| == hi - lo
    ensures forall k :: 0 <= k < hi - lo ==> t[k] == Converted(src, dtype, lo + k)
  {
    seq<nat>(hi - lo, k requires 0 <= k < hi - lo => Converted(src, dtype, lo + k))
  }

  predicate Refused(src: Bytes, dtype: Dtype, i: nat)
    requires 2 * i + 1 < |src|
  {
    dtype == BF16 && Bf16OverflowsFp16(Load16(src, i))
  }

  /** Element `f` is the first one of `lo..` the loader must refuse. */
  ghost predicate FirstRefused(src: Bytes, dtype: Dtype, lo: nat, f: nat)
    requires 2 * f + 1 < |src|
  {
    lo <= f && Refused(src, dtype, f) && forall k :: lo <= k < f ==> !Refused(src, dtype, k)
  }

  ghost predicate NoneRefused(src: Bytes, dtype: Dtype, lo: nat, hi: nat)
    requires 2 * hi <= |src|
  {
    forall k :: lo <= k < hi ==> !Refused(src, dtype, k)
  }

  /** `dev` with a range overwritten. */
  function Overwrite(dev: seq<nat>, at: nat, data: seq<nat>): (r: seq<nat>)
    requires at + |data| <= |dev|
    ensures |r| == |dev|
    ensures forall i :: 0 <= i < |dev| ==> r[i] == if at <= i < at + |data| then data[i - at] else dev[i]
  {
    dev[..at] + data + dev[at + |data|..]
  }

  predicate Fits(c: Copy, cap: nat, stage: int, dev: int) {
    c.n <= cap && c.slot < 2 && stage == 2 * cap && c.dst + c.n <= dev
  }

  function Payload(stage: seq<nat>, cap: nat, c: Copy): (data: seq<nat>)
    requires c.n <= cap && c.slot < 2 && |stage| == 2 * cap
    ensures |data| == c.n
  {
    stage[c.slot * cap..c.slot * cap + c.n]
  }

  /** The device after every copy in flight has fired on the present staging. */
  function Drained(dev: seq<nat>, stage: seq<nat>, cap: nat, q: seq<Copy>): (r: seq<nat>)
    requires forall k :: 0 <= k < |q| ==> Fits(q[k], cap, |stage|, |dev|)
    ensures |r| == |dev|
    decreases |q|
  {
    if q == [] then dev
    else
      assert Fits(q[0], cap, |stage|, |dev|);
      Drained(Overwrite(dev, q[0].dst, Payload(stage, cap, q[0])), stage, cap, q[1..])
  }

  lemma {:induction false} DrainedSnoc(dev: seq<nat>, stage: seq<nat>, cap: nat, q: seq<Copy>, c: Copy)
    requires (forall k :: 0 <= k < |q| ==> Fits(q[k], cap, |stage|, |dev|)) && Fits(c, cap, |stage|, |dev|)
    ensures Drained(dev, stage, cap, q + [c]) == Overwrite(Drained(dev, stage, cap, q), c.dst, Payload(stage, cap, c))
    decreases |q|
  {
    if q == [] {
      assert ([] + [c])[1..] == [];
    } else {
      assert (q + [c])[1..] == q[1..] + [c];
      DrainedSnoc(Overwrite(dev, q[0].dst, Payload(stage, cap, q[0])), stage, cap, q[1..], c);
    }
  }

  /** Host writes to a slot no copy in flight reads are invisible to the outcome. */
  lemma {:induction false} DrainedFrame(dev: seq<nat>, stage: seq<nat>, stage': seq<nat>, cap: nat, q: seq<Copy>, slot: nat)
    requires |stage| == |stage'| && forall k :: 0 <= k < |q| ==> Fits(q[k], cap, |stage|, |dev|) && q[k].slot != slot
    requires forall i :: 0 <= i < |stage| && !(slot * cap <= i < slot * cap + cap) ==> stage'[i] == stage[i]
    requires slot < 2
    ensures Drained(dev, stage, cap, q) == Drained(dev, stage', cap, q)
    decreases |q|
  {
    if q != [] {
      assert Fits(q[0], cap, |stage|, |dev|);
      assert Payload(stage, cap, q[0]) == Payload(stage', cap, q[0]);
      DrainedFrame(Overwrite(dev, q[0].dst, Payload(stage, cap, q[0])), stage, stage', cap, q[1..], slot);
    }
  }

  lemma DrainedOne(dev: seq<nat>, stage: seq<nat>, cap: nat, c: Copy)
    requires Fits(c, cap, |stage|, |dev|)
    ensures Drained(dev, stage, cap, [c]) == Overwrite(dev, c.dst, Payload(stage, cap, c))
  {
    hide Overwrite;
    assert [c][1..] == [];
  }

  /** Why the wait matters: a store under a copy in flight changes what arrives. */
  lemma EarlyStoreCorrupts(dev: seq<nat>, stage: seq<nat>, cap: nat, c: Copy, i: nat, value: nat)
    requires Fits(c, cap, |stage|, |dev|) && i < c.n && stage[c.slot * cap + i] != value
    ensures Drained(dev, stage[c.slot * cap + i := value], cap, [c]) != Drained(dev, stage, cap, [c])
  {
    hide Overwrite;
    var stage' := stage[c.slot * cap + i := value];
    DrainedOne(dev, stage, cap, c);
    DrainedOne(dev, stage', cap, c);
    hide Drained;
    assert Payload(stage', cap, c)[i] != Payload(stage, cap, c)[i];
    assert Overwrite(dev, c.dst, Payload(stage', cap, c))[c.dst + i] != Overwrite(dev, c.dst, Payload(stage, cap, c))[c.dst + i];
  }

  class StagedUploader {
    // Elements per slot.
    const cap: nat
    const staging: array<nat>
    const device: array<nat>
    var slotPending: seq<bool>
    var nextSlot: nat
    // The stream: copies issued and not yet fired, oldest first.
    var inFlight: seq<Copy>

    ghost predicate Valid()
      reads this, staging
    {
      && cap >= 1 && staging.Length == 2 * cap && staging != device && |slotPending| == 2 && nextSlot < 2
      && (forall k :: 0 <= k < |inFlight| ==> Fits(inFlight[k], cap, 2 * cap, device.Length))
      && (forall k :: 0 <= k < |inFlight| ==> slotPending[inFlight[k].slot])
      && forall j, k :: 0 <= j < k < |inFlight| ==> inFlight[j].slot != inFlight[k].slot
    }

    /** What the device will hold once everything issued has fired. */
    ghost function Outcome(): (r: seq<nat>)
      reads this, staging, device
      requires Valid()
      ensures |r| == device.Length
    {
      Drained(device[..], staging[..], cap, inFlight)
    }

    constructor (stagingBytes: nat, dev: array<nat>)
      requires stagingBytes >= MIN_STAGING_BYTES
      ensures Valid() && device == dev && inFlight == [] && fresh(staging)
      ensures cap == stagingBytes / 4 && Outcome() == dev[..]
    {
      cap := stagingBytes / 2 / 2;
      staging := new nat[2 * (stagingBytes / 2 / 2)];
      device := dev;
      slotPending := [false, false];
      nextSlot := 0;
      inFlight := [];
    }

    // ------------------------------------------------------------- the device

    /** The oldest copy fires: it reads its slot now. */
    method Fire()
      requires Valid() && inFlight != []
      modifies `inFlight, device
      ensures Valid() && inFlight == old(inFlight[1..]) && Outcome() == old(Outcome())
    {
      var c := inFlight[0];
      ghost var dev := device[..];
      for i := 0 to c.n
        invariant inFlight == old(inFlight)
        invariant forall k :: 0 <= k < device.Length ==>
                    device[k] == if c.dst <= k < c.dst + i then staging[c.slot * cap + k - c.dst] else dev[k]
      {
        device[c.dst + i] := staging[c.slot * cap + i];
      }
      inFlight := inFlight[1..];
      ghost var now := Overwrite(dev, c.dst, Payload(staging[..], cap, c));
      forall k | 0 <= k < device.Length
        ensures device[k] == now[k]
      {
        assert c.dst <= k < c.dst + c.n ==> Payload(staging[..], cap, c)[k - c.dst] == staging[c.slot * cap + k - c.dst];
      }
      assert device[..] == now;
    }

    /** Between any two host steps the copy engine may have moved on, or not. */
    method DeviceMayRun()
      requires Valid()
      modifies `inFlight, device
      ensures Valid() && Outcome() == old(Outcome()) && |inFlight| <= old(|inFlight|)
      ensures inFlight == old(inFlight)[old(|inFlight|) - |inFlight|..]
    {
      var fired: nat :| fired <= |inFlight|;
      for k := 0 to fired
        invariant Valid() && Outcome() == old(Outcome()) && inFlight == old(inFlight)[k..]
      {
        Fire();
      }
    }

    /** Event wait: every copy out of `slot` has fired. */
    method WaitSlot(slot: nat)
      requires Valid() && slot < 2
      modifies this, device
      ensures Valid() && Outcome() == old(Outcome()) && nextSlot == old(nextSlot)
      ensures forall k :: 0 <= k < |inFlight| ==> inFlight[k].slot != slot
      ensures slotPending == old(slotPending)[slot := false]
      ensures forall k :: 0 <= k < |inFlight| ==> inFlight[k] in old(inFlight)
    {
      if slotPending[slot] {
        while exists k :: 0 <= k < |inFlight| && inFlight[k].slot == slot
          invariant Valid() && Outcome() == old(Outcome()) && nextSlot == old(nextSlot) && slotPending == old(slotPending)
          invariant forall k :: 0 <= k < |inFlight| ==> inFlight[k] in old(inFlight)
          decreases |inFlight|
        {
          Fire();
        }
        slotPending := slotPending[slot := false];
      }
    }

    // --------------------------------------------------------------- the host

    /** A host store into a slot that no copy in flight reads. */
    method Store(slot: nat, at: nat, value: nat)
      requires Valid() && slot < 2 && slot * cap <= at < slot * cap + cap <= staging.Length
      requires forall k :: 0 <= k < |inFlight| ==> inFlight[k].slot != slot
      modifies staging
      ensures Valid() && Outcome() == old(Outcome()) && staging[..] == old(staging[..])[at := value]
    {
      hide Drained;
      ghost var before := staging[..];
      staging[at] := value;
      assert staging[..] == before[at := value];
      DrainedFrame(device[..], before, staging[..], cap, inFlight, slot);
    }

    /** Convert or copy one accepted element after the ones already in the slot. */
    method StoreElement(slot: nat, src: Bytes, lo: nat, i: nat, dtype: Dtype)
      requires Valid() && slot < 2 && i < cap && 2 * (lo + i) + 1 < |src| && slot * cap + cap <= staging.Length
      requires forall k :: 0 <= k < |inFlight| ==> inFlight[k].slot != slot
      requires !(dtype == BF16 && Bf16OverflowsFp16(Load16(src, lo + i))) && NoneRefused(src, dtype, lo, lo + i)
      requires staging[slot * cap..slot * cap + i] == ConvertedRange(src, dtype, lo, lo + i)
      modifies staging
      ensures Valid() && Outcome() == old(Outcome()) && NoneRefused(src, dtype, lo, lo + i + 1)
      ensures staging[slot * cap..slot * cap + i + 1] == ConvertedRange(src, dtype, lo, lo + i + 1)
    {
      hide Converted, Load16, Drained, Refused, ConvertedRange, StagedUploader.Outcome, NoneRefused, Bf16OverflowsFp16;
      var base, word := slot * cap, Load16(src, lo + i);
      Accepted(src, dtype, lo, lo + i);
      ghost var before := staging[..];
      Store(slot, base + i, if dtype == BF16 then Bf16BitsToFp16BitsRne(word) else word);
      assert staging[base..base + i + 1] == before[base..base + i] + [staging[base + i]];
    }

    /** Convert or copy one chunk into a drained slot while the device runs. */
    method FillSlot(slot: nat, src: Bytes, lo: nat, n: nat, dtype: Dtype, indexBase: nat) returns (failed: Option<UploadError>)
      requires Valid() && slot < 2 && n <= cap && 2 * (lo + n) <= |src|
      requires forall k :: 0 <= k < |inFlight| ==> inFlight[k].slot != slot
      modifies staging, `inFlight, device
      ensures Valid() && Outcome() == old(Outcome())
      ensures forall k :: 0 <= k < |inFlight| ==> inFlight[k].slot != slot
      ensures failed.None? ==> NoneRefused(src, dtype, lo, lo + n)
      ensures failed.None? ==> staging[slot * cap..slot * cap + n] == ConvertedRange(src, dtype, lo, lo + n)
      ensures failed.Some? ==> Reports(failed.value, src, dtype, lo, lo + n, indexBase)
    {
      hide Converted, Load16, Drained, Refused, ConvertedRange, StagedUploader.Outcome;
      var base := slot * cap;
      assert base + cap <= 2 * cap;
      NothingYet(src, dtype, lo);
      assert staging[base..base] == [];
      for i := 0 to n
        invariant Valid() && Outcome() == old(Outcome())
        invariant forall k :: 0 <= k < |inFlight| ==> inFlight[k].slot != slot
        invariant NoneRefused(src, dtype, lo, lo + i)
        invariant staging[base..base + i] == ConvertedRange(src, dtype, lo, lo + i)
      {
        DeviceMayRun();
        var word := Load16(src, lo + i);
        if dtype == BF16 && Bf16OverflowsFp16(word) {
          RefusedHere(src, dtype, lo + i);
          return Some(Fp16Overflow(indexBase + (lo + i), word));
        }
        StoreElement(slot, src, lo, i, dtype);
      }
      failed := None;
    }

    /** Queue the copy out of a filled slot and turn to the other slot. */
    method Issue(dst: nat, slot: nat, n: nat)
      requires Valid() && slot < 2 && n <= cap && dst + n <= device.Length
      requires forall k :: 0 <= k < |inFlight| ==> inFlight[k].slot != slot
      modifies this
      ensures Valid() && inFlight == old(inFlight) + [Copy(dst, slot, n)]
      ensures slotPending == old(slotPending)[slot := true] && nextSlot == 1 - slot
      ensures Outcome() == Overwrite(old(Outcome()), dst, staging[slot * cap..slot * cap + n])
    {
      hide Drained, Overwrite;
      DrainedSnoc(device[..], staging[..], cap, inFlight, Copy(dst, slot, n));
      inFlight := inFlight + [Copy(dst, slot, n)];
      slotPending := slotPending[slot := true];
      nextSlot := 1 - slot;
    }

    /** Stream one tensor. It is refused at its first out-of-range element whatever
        the chunking; otherwise the range it was sent to will hold its conversion. */
    method Upload(dst: nat, src: Bytes, count: nat, dtype: Dtype, indexBase: nat) returns (failed: Option<UploadError>)
      requires Valid() && dst + count <= device.Length && 2 * count <= |src|
      modifies this, staging, device
      ensures Valid()
      ensures dtype == OtherDtype ==> failed == Some(UnsupportedDtype) && Outcome() == old(Outcome())
      ensures dtype != OtherDtype ==> (failed.None? <==> NoneRefused(src, dtype, 0, count))
      ensures failed.None? ==> Outcome() == Overwrite(old(Outcome()), dst, ConvertedRange(src, dtype, 0, count))
      ensures failed.Some? && dtype != OtherDtype ==> Reports(failed.value, src, dtype, 0, count, indexBase)
      ensures failed.Some? && dtype != OtherDtype ==>
                && failed.value.Fp16Overflow? && indexBase <= failed.value.index < indexBase + count
                && FirstRefused(src, dtype, 0, failed.value.index - indexBase)
                && failed.value.bits == Load16(src, failed.value.index - indexBase)
      ensures failed.Some? ==> forall k :: 0 <= k < device.Length && !(dst <= k < dst + count) ==> Outcome()[k] == old(Outcome()[k])
    {
      hide Drained, Refused, Load16, Converted, ConvertedRange, Reports, NoneRefused, StagedUploader.Outcome, Overwrite, FirstRefused;
      if dtype == OtherDtype {
        return Some(UnsupportedDtype);
      }
      NothingYet(src, dtype, 0);
      var offset := 0;
      ghost var before, done := Outcome(), 0;
      NothingSent(before, dst, src, dtype);
      while offset < count
        invariant Valid() && done == Min(offset, count) && NoneRefused(src, dtype, 0, done)
        invariant Outcome() == Overwrite(before, dst, ConvertedRange(src, dtype, 0, done))
        decreases count - offset
      {
        var n := Min(cap, count - offset);
        var slot := nextSlot;
        WaitSlot(slot);
        failed := FillSlot(slot, src, offset, n, dtype, indexBase);
        if failed.Some? {
          ReportsFromStart(failed.value, src, dtype, offset, offset + n, count, indexBase);
          ReportsMeans(failed.value, src, dtype, count, indexBase);
          return;
        }
        Issue(dst + offset, slot, n);
        OverwriteMore(before, dst, src, dtype, offset, offset + n);
        NoneRefusedMore(src, dtype, offset, offset + n);
        offset, done := offset + cap, offset + n;
      }
      failed := None;
    }

    /** Both slots drained: everything issued has arrived. */
    method Synchronize()
      requires Valid()
      modifies this, device
      ensures Valid() && inFlight == [] && device[..] == old(Outcome()) == Outcome()
    {
      WaitSlot(0);
      WaitSlot(1);
      assert inFlight != [] ==> inFlight[0].slot < 2 by { if inFlight != [] { assert Fits(inFlight[0], cap, 2 * cap, device.Length); } }
    }
  }

  /** An uploader over `dev`, unless its staging would be too small to be useful. */
  method NewUploader(stagingBytes: nat, dev: array<nat>) returns (r: Result<StagedUploader, UploadError>)
    ensures r.Ok? <==> stagingBytes >= 4096
    ensures r.Ok? ==> r.value.Valid() && r.value.device == dev && r.value.Outcome() == dev[..] && r.value.inFlight == []
    ensures r.Err? ==> r.error == StagingTooSmall
  {
    if stagingBytes < MIN_STAGING_BYTES {
      return Err(StagingTooSmall);
    }
    var up := new StagedUploader(stagingBytes, dev);
    r := Ok(up);
  }

  /** The error names the first refused element of the range. */
  ghost predicate Reports(e: UploadError, src: Bytes, dtype: Dtype, lo: nat, hi: nat, indexBase: nat)
    requires 2 * hi <= |src|
  {
    && e.Fp16Overflow? && indexBase + lo <= e.index < indexBase + hi
    && FirstRefused(src, dtype, lo, e.index - indexBase) && e.bits == Load16(src, e.index - indexBase)
  }

  lemma RefusedHere(src: Bytes, dtype: Dtype, i: nat)
    requires 2 * i + 1 < |src| && dtype == BF16 && Bf16OverflowsFp16(Load16(src, i))
    ensures Refused(src, dtype, i)
  {
  }

  lemma NothingYet(src: Bytes, dtype: Dtype, lo: nat)
    requires 2 * lo <= |src|
    ensures NoneRefused(src, dtype, lo, lo) && ConvertedRange(src, dtype, lo, lo) == []
  {
  }

  lemma Accepted(src: Bytes, dtype: Dtype, lo: nat, i: nat)
    requires lo <= i && 2 * i + 1 < |src| && !(dtype == BF16 && Bf16OverflowsFp16(Load16(src, i)))
    requires NoneRefused(src, dtype, lo, i)
    ensures NoneRefused(src, dtype, lo, i + 1)
    ensures ConvertedRange(src, dtype, lo, i + 1) ==
              ConvertedRange(src, dtype, lo, i) + [if dtype == BF16 then Bf16BitsToFp16BitsRne(Load16(src, i)) else Load16(src, i)]
  {
    hide Load16, Bf16BitsToFp16BitsRne, Bf16OverflowsFp16;
  }

  lemma ReportsMeans(e: UploadError, src: Bytes, dtype: Dtype, count: nat, indexBase: nat)
    requires 2 * count <= |src| && Reports(e, src, dtype, 0, count, indexBase)
    ensures e.Fp16Overflow? && indexBase <= e.index < indexBase + count
    ensures FirstRefused(src, dtype, 0, e.index - indexBase) && e.bits == Load16(src, e.index - indexBase)
  {
  }

  lemma ReportsFromStart(e: UploadError, src: Bytes, dtype: Dtype, lo: nat, mid: nat, hi: nat, indexBase: nat)
    requires lo <= mid <= hi && 2 * hi <= |src| && NoneRefused(src, dtype, 0, lo)
    requires Reports(e, src, dtype, lo, mid, indexBase)
    ensures Reports(e, src, dtype, 0, hi, indexBase) && !NoneRefused(src, dtype, 0, hi)
  {
    hide Refused, Load16;
  }

  lemma NoneRefusedMore(src: Bytes, dtype: Dtype, mid: nat, hi: nat)
    requires mid <= hi && 2 * hi <= |src| && NoneRefused(src, dtype, 0, mid) && NoneRefused(src, dtype, mid, hi)
    ensures NoneRefused(src, dtype, 0, hi)
  {
  }

  lemma NothingSent(before: seq<nat>, dst: nat, src: Bytes, dtype: Dtype)
    requires dst <= |before|
    ensures Overwrite(before, dst, ConvertedRange(src, dtype, 0, 0)) == before
  {
  }

  lemma OverwriteMore(before: seq<nat>, dst: nat, src: Bytes, dtype: Dtype, mid: nat, hi: nat)
    requires mid <= hi && 2 * hi <= |src| && dst + hi <= |before|
    ensures Overwrite(Overwrite(before, dst, ConvertedRange(src, dtype, 0, mid)), dst + mid, ConvertedRange(src, dtype, mid, hi))
         == Overwrite(before, dst, ConvertedRange(src, dtype, 0, hi))
  {
    hide Converted;
  }
}
