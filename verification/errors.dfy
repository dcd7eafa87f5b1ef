/**
 * The SDK's error taxonomy and the one classification rule the preparer's
 * catch blocks apply. The SDK tells its own errors apart with
 * `instanceof NitroliteError`; here that is a tag on a datatype.
 */
module Errors {
  import opened Types

  /** The context object a `ContractCallError` records next to its cause. */
  datatype Details =
    | TokenSpenderAmount(tokenAddress: Address, spender: Address, amount: int)
    | TokenAmount(tokenAddress: Address, amount: int)
    | DepositAmount(depositAmount: int)
    | CreateParams(create: CreateChannelParams)
    | CheckpointParams(checkpoint: CheckpointChannelParams)
    | ChallengeParams(challenge: ChallengeChannelParams)
    | ResizeParams(resize: ResizeChannelParams)
    | CloseParams(close: CloseChannelParams)

  /**
   * What a preparation can throw. The first two are the SDK's own
   * `NitroliteError` family; `Foreign` is anything else a collaborator
   * throws (a viem simulation revert, a network failure, a plain `Error`).
   */
  datatype Error =
    | InvalidParameterError(message: string)
    | ContractCallError(operation: string, cause: Error, details: Details)
    | Foreign(description: string)

  /** `err instanceof Errors.NitroliteError`. */
  predicate IsNitroliteError(e: Error) {
    !e.Foreign?
  }

  /** Number of `ContractCallError` layers wrapped around the original cause. */
  function WrapDepth(e: Error): (n: nat)
    ensures n == 0 <==> !e.ContractCallError?
  {
    match e
    case ContractCallError(_, cause, _) => 1 + WrapDepth(cause)
    case _ => 0
  }

  /** The original cause: what a caller reaches by following `cause` to its end. */
  function Root(e: Error): (r: Error)
    ensures !r.ContractCallError?
    ensures !e.ContractCallError? ==> r == e
    ensures IsNitroliteError(e) || r == e
  {
    match e
    case ContractCallError(_, cause, _) => Root(cause)
    case _ => e
  }

  /** The chain `e, e.cause, e.cause.cause, ...` down to the original cause. */
  function Causes(e: Error): (chain: seq<Error>)
    ensures |chain| == WrapDepth(e) + 1
    ensures chain[0] == e && chain[|chain| - 1] == Root(e)
    ensures forall i :: 0 <= i < |chain| - 1 ==>
              chain[i].ContractCallError? && chain[i + 1] == chain[i].cause
  {
    match e
    case ContractCallError(_, cause, _) => [e] + Causes(cause)
    case _ => [e]
  }

  /**
   * The catch block of create, checkpoint, challenge, resize, close,
   * withdraw and approve: an error of the SDK's own family is rethrown as
   * it is, anything else is wrapped in a `ContractCallError` naming the
   * operation.
   */
  function Rethrow(operation: string, err: Error, details: Details): (r: Error)
    ensures IsNitroliteError(r)
    ensures Root(r) == Root(err)
    ensures r == err <==> IsNitroliteError(err)
    ensures r != err ==> r.ContractCallError? && r.operation == operation && r.cause == err && r.details == details
    ensures WrapDepth(r) == if IsNitroliteError(err) then WrapDepth(err) else 1
  {
    if IsNitroliteError(err) then err else ContractCallError(operation, err, details)
  }

  /**
   * Rethrowing is idempotent: a second catch block around the first one,
   * whatever its operation name, changes nothing. Nothing is wrapped twice.
   */
  lemma RethrowIdempotent(op1: string, op2: string, err: Error, d1: Details, d2: Details)
    ensures Rethrow(op2, Rethrow(op1, err, d1), d2) == Rethrow(op1, err, d1)
  {
  }
}
