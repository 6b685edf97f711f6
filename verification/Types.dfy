/** Scalar types and small records shared by every component of the engine. */
module Types {
  type TokenId = int
  type RequestId = nat
  type BlockId = int

  // Host-only sentinel: never owned, never written into a device table.
  const INVALID_BLOCK: BlockId := -1
  // Physical block 0 never enters the free list; padding rows point at it.
  const DUMMY_BLOCK: BlockId := 0
  // Tokens per KV-cache block.
  const KV_BLOCK_SIZE := 16

  datatype Option<+T> = None | Some(value: T)
  datatype Result<+T, +E> = Ok(value: T) | Err(error: E)

  datatype FinishReason = Unfinished | Eos | Length | Aborted
  datatype RequestState = Waiting | Prefill | Running | Finished
  datatype AdmissionPolicy = ReserveFull | Watermark

  /** One reported token, or one abort notice (token 0, finished, Aborted). */
  datatype StepResult = StepResult(id: RequestId, token: TokenId, finished: bool, reason: FinishReason)

  /** What a client asked for; fixed for the lifetime of a request. */
  datatype Params = Params(id: RequestId, prompt: seq<TokenId>, maxNew: int, ignoreEos: bool, forced: seq<TokenId>)

  /** Blocks that hold `tokens` tokens of KV state. Every caller passes a
      non-negative count, where C++ and Dafny division agree. */
  function BlocksForTokens(tokens: int): (blocks: int)
    ensures tokens >= 0 ==> blocks >= 0 && 16 * (blocks - 1) < tokens <= 16 * blocks
  {
    (tokens + KV_BLOCK_SIZE - 1) / KV_BLOCK_SIZE
  }

  function CeilDiv(n: nat, d: nat): (q: nat)
    requires d > 0
  {
    (n + d - 1) / d
  }

  function Max(a: int, b: int): int { if a >= b then a else b }

  function Min(a: int, b: int): int { if a <= b then a else b }
}
