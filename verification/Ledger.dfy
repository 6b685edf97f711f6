/** Conservation of blocks, promises and batch slots as one equation. */
module Ledger {
  import opened Types
  import opened SchedulerSpec

  /** What a request holds, or what the free side holds. */
  datatype Holdings = Holdings(blocks: multiset<BlockId>, reserved: int, slots: multiset<int>)

  function Plus(a: Holdings, b: Holdings): Holdings {
    Holdings(a.blocks + b.blocks, a.reserved + b.reserved, a.slots + b.slots)
  }

  function HeldBy(r: Req): Holdings {
    Holdings(multiset(r.table), r.reserved, multiset{r.slot})
  }

  function Total(rs: seq<Req>): Holdings {
    if rs == [] then Holdings(multiset{}, 0, multiset{})
    else Plus(Total(rs[..|rs| - 1]), HeldBy(rs[|rs| - 1]))
  }

  /** Everything outside the live requests; outstanding promises count negative. */
  function FreeSide(s: Sched): Holdings {
    Holdings(multiset(s.free), -s.reserved, multiset(s.freeSlots))
  }

  function Balance(s: Sched): Holdings {
    Plus(Total(s.Live()), FreeSide(s))
  }

  /** The whole pool but the dummy block, no promises, every batch slot. */
  function Capital(o: Options): Holdings {
    Holdings(multiset(Descending(o.totalBlocks - 1, 1)), 0, multiset(Descending(o.maxBatch - 1, 0)))
  }

  lemma PlusAssociates(a: Holdings, b: Holdings, c: Holdings)
    ensures Plus(Plus(a, b), c) == Plus(a, Plus(b, c))
  {
    assert a.blocks + b.blocks + c.blocks == a.blocks + (b.blocks + c.blocks);
    assert a.slots + b.slots + c.slots == a.slots + (b.slots + c.slots);
  }

  lemma PlusCommutes(a: Holdings, b: Holdings)
    ensures Plus(a, b) == Plus(b, a)
  {
    assert a.blocks + b.blocks == b.blocks + a.blocks;
    assert a.slots + b.slots == b.slots + a.slots;
  }

  lemma PlusZero(a: Holdings)
    ensures Plus(a, Holdings(multiset{}, 0, multiset{})) == a
  {
    assert a.blocks + multiset{} == a.blocks && a.slots + multiset{} == a.slots;
  }

  lemma TotalSnoc(rs: seq<Req>, r: Req)
    ensures Total(rs + [r]) == Plus(Total(rs), HeldBy(r))
  {
    assert (rs + [r])[..|rs|] == rs;
  }

  lemma {:induction false} TotalConcat(a: seq<Req>, b: seq<Req>)
    ensures Total(a + b) == Plus(Total(a), Total(b))
  {
    if b == [] {
      assert a + b == a;
      PlusZero(Total(a));
    } else {
      var front, last := b[..|b| - 1], b[|b| - 1];
      calc {
        Total(a + b);
        { assert a + b == (a + front) + [last]; TotalSnoc(a + front, last); }
        Plus(Total(a + front), HeldBy(last));
        { TotalConcat(a, front); }
        Plus(Plus(Total(a), Total(front)), HeldBy(last));
        { PlusAssociates(Total(a), Total(front), HeldBy(last)); }
        Plus(Total(a), Plus(Total(front), HeldBy(last)));
        { TotalSnoc(front, last); assert b == front + [last]; }
        Plus(Total(a), Total(b));
      }
    }
  }

  lemma CutAt(rs: seq<Req>, i: nat)
    requires i < |rs|
    ensures rs == (rs[..i] + [rs[i]]) + rs[i + 1..]
  {
  }

  lemma TotalSplit(rs: seq<Req>, i: nat)
    requires i < |rs|
    ensures Total(rs) == Plus(Total(rs[..i] + rs[i + 1..]), HeldBy(rs[i]))
  {
    var before, after := rs[..i], rs[i + 1..];
    CutAt(rs, i);
    TotalConcat(before + [rs[i]], after);
    TotalSnoc(before, rs[i]);
    TotalConcat(before, after);
    PlusAssociates(Total(before), HeldBy(rs[i]), Total(after));
    PlusCommutes(HeldBy(rs[i]), Total(after));
    PlusAssociates(Total(before), Total(after), HeldBy(rs[i]));
  }

  lemma TotalReplace(rs: seq<Req>, i: nat, r: Req)
    requires i < |rs|
    ensures Total(rs[i := r]) == Plus(Total(rs[..i] + rs[i + 1..]), HeldBy(r))
  {
    TotalSplit(rs[i := r], i);
    assert rs[i := r][..i] == rs[..i] && rs[i := r][i + 1..] == rs[i + 1..];
  }

  /** Exchange between one live request and the free side keeps the balance. */
  lemma Exchange(s: Sched, s': Sched, i: nat, r: Req)
    requires i < |s.Live()| && s'.Live() == s.Live()[i := r]
    requires Plus(HeldBy(r), FreeSide(s')) == Plus(HeldBy(s.Live()[i]), FreeSide(s))
    ensures Balance(s') == Balance(s)
  {
    TotalSplit(s.Live(), i);
    TotalReplace(s.Live(), i, r);
    Regroup(Total(s.Live()[..i] + s.Live()[i + 1..]), HeldBy(r), FreeSide(s'), HeldBy(s.Live()[i]), FreeSide(s));
  }

  lemma Regroup(rest: Holdings, a: Holdings, fa: Holdings, b: Holdings, fb: Holdings)
    requires Plus(a, fa) == Plus(b, fb)
    ensures Plus(Plus(rest, a), fa) == Plus(Plus(rest, b), fb)
  {
    PlusAssociates(rest, a, fa);
    PlusAssociates(rest, b, fb);
  }

  /** Popping a stack moves one element. */
  lemma PopMoves(stack: seq<int>)
    requires stack != []
    ensures multiset(Popped(stack)) + multiset{Top(stack)} == multiset(stack)
  {
    assert stack == Popped(stack) + [Top(stack)];
  }

  lemma AppendMoves(table: seq<int>, b: int)
    ensures multiset(table + [b]) == multiset(table) + multiset{b}
  {
  }

  /** Admission moves one slot and makes one promise. */
  lemma AdmitBalances(o: Options, s: Sched)
    requires s.waiting != [] && s.freeSlots != []
    requires s.waiting[0].table == []
    ensures Balance(Admit(o, s)) == Balance(s)
  {
    var s' := Admit(o, s);
    var r := s'.prefill[|s.prefill|];
    PopMoves(s.freeSlots);
    assert s'.Live() == s.Live() + [r];
    TotalConcat(s.Live(), [r]);
    assert [r][..0] == [];
    assert Total([r]) == HeldBy(r);
  }

  /** A live request takes one block off the stack, with or without a promise. */
  lemma GrowthBalances(s: Sched, s': Sched, i: nat, r: Req)
    requires i < |s.Live()| && s.free != [] && s'.Live() == s.Live()[i := r]
    requires r.table == s.Live()[i].table + [Top(s.free)] && r.slot == s.Live()[i].slot
    requires s'.free == Popped(s.free) && s'.freeSlots == s.freeSlots
    requires r.reserved - s'.reserved == s.Live()[i].reserved - s.reserved
    ensures Balance(s') == Balance(s)
  {
    PopMoves(s.free);
    AppendMoves(s.Live()[i].table, Top(s.free));
    Exchange(s, s', i, r);
  }

  predicate SameHold(a: Req, b: Req) {
    a.table == b.table && a.reserved == b.reserved && a.slot == b.slot
  }

  /** A request leaving returns all it held. */
  lemma ReleaseBalances(s: Sched, s': Sched, i: nat, r: Req)
    requires i < |s.Live()| && SameHold(r, s.Live()[i]) && r.slot >= 0
    requires s'.Live() == s.Live()[..i] + s.Live()[i + 1..]
    requires s'.free == s.free + r.table && s'.reserved == s.reserved - r.reserved
    requires s'.freeSlots == s.freeSlots + [r.slot]
    ensures Balance(s') == Balance(s)
  {
    TotalSplit(s.Live(), i);
    assert FreeSide(s') == Plus(HeldBy(r), FreeSide(s)) by {
      assert multiset(s.free + r.table) == multiset(r.table) + multiset(s.free);
      assert multiset(s.freeSlots + [r.slot]) == multiset{r.slot} + multiset(s.freeSlots);
    }
    PlusAssociates(Total(s'.Live()), HeldBy(r), FreeSide(s));
  }

  lemma {:induction false} TotalBounds(rs: seq<Req>, k: nat)
    requires k < |rs|
    ensures multiset(rs[k].table) <= Total(rs).blocks && rs[k].slot in Total(rs).slots
    ensures |Total(rs).slots| == |rs|
  {
    TotalSplit(rs, k);
    SlotCardinality(rs);
  }

  lemma {:induction false} SlotCardinality(rs: seq<Req>)
    ensures |Total(rs).slots| == |rs|
  {
    if rs != [] {
      SlotCardinality(rs[..|rs| - 1]);
    }
  }

  /** Two live requests never share a block. */
  lemma TablesDisjoint(rs: seq<Req>, i: nat, k: nat)
    requires i < k < |rs|
    ensures multiset(rs[i].table) + multiset(rs[k].table) <= Total(rs).blocks
  {
    TotalSplit(rs, k);
    var rest := rs[..k] + rs[k + 1..];
    assert rest[i] == rs[i];
    TotalBounds(rest, i);
  }

  lemma {:induction false} DescendingCounts(hi: int, lo: int, x: int)
    ensures multiset(Descending(hi, lo))[x] == if lo <= x <= hi then 1 else 0
    decreases hi - lo + 1
  {
    if hi >= lo {
      DescendingCounts(hi - 1, lo, x);
      assert Descending(hi, lo) == [hi] + Descending(hi - 1, lo);
    }
  }
}
