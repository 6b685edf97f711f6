/** One generation request as the scheduler mutates it, and its value. */
module Requests {
  import opened Types
  import opened SchedulerSpec

  class Request {
    // Set once when the request is created.
    const p: Params

    var outputs: seq<TokenId>
    var state: RequestState
    var reason: FinishReason
    var slot: int
    var reserved: int
    var progress: int
    // The block table: logical block index to physical block.
    var blocks: seq<BlockId>

    constructor (params: Params)
      ensures p == params && Value() == NewReq(params)
    {
      p := params;
      outputs := [];
      state := Waiting;
      reason := FinishReason.Unfinished;
      slot := -1;
      reserved := 0;
      progress := 0;
      blocks := [];
    }

    ghost function Value(): Req
      reads this
    {
      Req(p, outputs, state, reason, slot, reserved, progress, blocks)
    }

    function PromptLen(): int { |p.prompt| }

    function SeqLen(): int
      reads this
    {
      |p.prompt| + |outputs|
    }

    function TokenCapacity(): int
      reads this
    {
      |blocks| * KV_BLOCK_SIZE
    }

    predicate PrefillDone()
      reads this
    {
      progress >= |p.prompt|
    }

    /** Admission hands over a promise and a batch slot. */
    method StartPrefill(reservation: int, batchSlot: int)
      modifies `reserved, `slot, `state
      ensures Value() == old(Value()).(reserved := reservation, slot := batchSlot, state := RequestState.Prefill)
    {
      reserved := reservation;
      slot := batchSlot;
      state := RequestState.Prefill;
    }

    method AppendBlock(block: BlockId)
      modifies `blocks
      ensures Value() == old(Value()).(table := old(blocks) + [block])
    {
      blocks := blocks + [block];
    }

    /** Hand every owned block back and leave the table empty. */
    method ReleaseBlocks() returns (owned: seq<BlockId>)
      modifies `blocks
      ensures owned == old(blocks) && Value() == old(Value()).(table := [])
    {
      owned := blocks;
      blocks := [];
    }
  }

  lemma ValueParts(r: Request)
    ensures r.Value().p == r.p && r.Value().state == r.state && r.Value().reason == r.reason
    ensures r.Value().slot == r.slot && r.Value().reserved == r.reserved && r.Value().table == r.blocks
  {
  }

  ghost predicate Distinct(rs: seq<Request>) {
    forall i, j :: 0 <= i < j < |rs| ==> rs[i] != rs[j]
  }

  /** `r` is none of `rs`. */
  ghost predicate Apart(r: Request, rs: seq<Request>) {
    forall i :: 0 <= i < |rs| ==> rs[i] != r
  }

  /** In three queues without repetition, a member of one is in no other place. */
  lemma ApartInQueues(a: seq<Request>, b: seq<Request>, c: seq<Request>, k: nat)
    requires Distinct(a + b + c)
    ensures k < |a| ==> Apart(a[k], a[..k]) && Apart(a[k], a[k + 1..]) && Apart(a[k], b) && Apart(a[k], c)
    ensures k < |b| ==> Apart(b[k], a) && Apart(b[k], b[..k]) && Apart(b[k], b[k + 1..]) && Apart(b[k], c)
    ensures k < |c| ==> Apart(c[k], a) && Apart(c[k], b) && Apart(c[k], c[..k]) && Apart(c[k], c[k + 1..])
  {
    var all := a + b + c;
    assert forall i :: 0 <= i < |a| ==> all[i] == a[i];
    assert forall i :: 0 <= i < |b| ==> all[|a| + i] == b[i];
    assert forall i :: 0 <= i < |c| ==> all[|a| + |b| + i] == c[i];
  }

  ghost function Values(rs: seq<Request>): (vs: seq<Req>)
    reads rs
    ensures |vs| == |rs| && forall i :: 0 <= i < |rs| ==> vs[i] == rs[i].Value()
  {
    if rs == [] then [] else Values(rs[..|rs| - 1]) + [rs[|rs| - 1].Value()]
  }
}
