/**
 * Properties relating several preparations, or one preparation under
 * particular collaborator responses.
 */
module PrepareProperties {
  import opened Wrappers
  import opened Types
  import opened Errors
  import opened Services
  import opened Prepare

  /** Native asset: no allowance read, a single deposit transaction. */
  lemma DepositNativeToken(deps: PreparerDependencies, amount: int, depositTx: PreparedTransaction)
    requires IsNativeToken(deps)
    requires DepositReply(deps, amount) == Success(depositTx)
    ensures PrepareDepositTransactions(deps, amount).result == Success([depositTx])
    ensures AllowanceRead(deps) !in PrepareDepositTransactions(deps, amount).calls
  {
    assert ApprovalPhase(deps, amount) == Run(Success([]), []);
    assert [] + [depositTx] == [depositTx];
  }

  /** ERC20 with a short allowance: approve first, then deposit. */
  lemma DepositWithShortAllowance(
    deps: PreparerDependencies, amount: int, allowance: int,
    approveTx: PreparedTransaction, depositTx: PreparedTransaction)
    requires !IsNativeToken(deps)
    requires AllowanceReply(deps) == Success(allowance) && allowance < amount
    requires ApproveReply(deps, amount) == Success(approveTx)
    requires DepositReply(deps, amount) == Success(depositTx)
    ensures PrepareDepositTransactions(deps, amount).result == Success([approveTx, depositTx])
    ensures PrepareDepositTransactions(deps, amount).calls ==
              [AllowanceRead(deps), ApproveCall(deps, amount),
               PrepareCustody(Deposit(deps.addresses.tokenAddress, amount))]
  {
    assert ApprovalPhase(deps, amount) == Run(Success([approveTx]), [AllowanceRead(deps), ApproveCall(deps, amount)]);
    assert [approveTx] + [depositTx] == [approveTx, depositTx];
  }

  /** ERC20 with enough allowance: the deposit alone, no approve requested. */
  lemma DepositWithSufficientAllowance(
    deps: PreparerDependencies, amount: int, allowance: int, depositTx: PreparedTransaction)
    requires !IsNativeToken(deps)
    requires AllowanceReply(deps) == Success(allowance) && allowance >= amount
    requires DepositReply(deps, amount) == Success(depositTx)
    ensures PrepareDepositTransactions(deps, amount).result == Success([depositTx])
    ensures PrepareDepositTransactions(deps, amount).calls ==
              [AllowanceRead(deps), PrepareCustody(Deposit(deps.addresses.tokenAddress, amount))]
  {
    assert ApprovalPhase(deps, amount) == Run(Success([]), [AllowanceRead(deps)]);
    assert [] + [depositTx] == [depositTx];
  }

  /**
   * The allowance read sits outside any try block: whatever it throws,
   * even an error foreign to the SDK, reaches the caller as it is.
   */
  lemma DepositAllowanceErrorEscapes(deps: PreparerDependencies, amount: int, e: Error)
    requires !IsNativeToken(deps)
    requires AllowanceReply(deps) == Failure(e)
    ensures PrepareDepositTransactions(deps, amount) == Run(Failure(e), [AllowanceRead(deps)])
  {
  }

  /**
   * The deposit phase wraps without passing the SDK's own errors through:
   * even an `InvalidParameterError` from the deposit encoder comes back
   * inside a `ContractCallError`.
   */
  lemma DepositWrapsTypedErrors(deps: PreparerDependencies, amount: int, message: string)
    requires ApprovalPhase(deps, amount).result.Success?
    requires DepositReply(deps, amount) == Failure(InvalidParameterError(message))
    ensures PrepareDepositTransactions(deps, amount).result ==
              Failure(ContractCallError(DepositOperation, InvalidParameterError(message),
                                        TokenAmount(deps.addresses.tokenAddress, amount)))
  {
  }

  /**
   * Deposit-and-create is the deposit transactions followed by the create
   * transaction; a failing phase is named, the create phase is never
   * started after a failed deposit, and no partial list is returned.
   */
  lemma DepositAndCreateComposes(deps: PreparerDependencies, depositAmount: int, params: CreateChannelParams)
    ensures
      var r := PrepareDepositAndCreateChannelTransactions(deps, depositAmount, params);
      var deposit := PrepareDepositTransactions(deps, depositAmount);
      var create := PrepareCreateChannelTransaction(deps, params);
      && (r.result.Success? <==> deposit.result.Success? && create.result.Success?)
      && (r.result.Success? ==> r.result.value == deposit.result.value + [create.result.value])
      && (deposit.result.Failure? ==>
            && r.calls == deposit.calls
            && r.result == Failure(ContractCallError(DepositPartFailure, deposit.result.error,
                                                     DepositAmount(depositAmount))))
      && (deposit.result.Success? ==> r.calls == deposit.calls + create.calls)
      && (deposit.result.Success? && create.result.Failure? ==>
            r.result == Failure(ContractCallError(CreatePartFailure, create.result.error,
                                                  DepositAmount(depositAmount))))
  {
  }

  /**
   * A foreign error from the create-channel encoder is wrapped once by the
   * create preparation, and once more by deposit-and-create.
   */
  lemma DepositAndCreateWrapsTwice(
    deps: PreparerDependencies, depositAmount: int, params: CreateChannelParams,
    signed: InitialState, description: string)
    requires PrepareDepositTransactions(deps, depositAmount).result.Success?
    requires deps.signer.signInitialState(params) == Success(signed)
    requires deps.nitroliteService.prepare(CreateChannel(signed.channel, signed.initialState)) == Failure(Foreign(description))
    ensures
      var r := PrepareDepositAndCreateChannelTransactions(deps, depositAmount, params);
      && r.result.Failure?
      && WrapDepth(r.result.error) == 2
      && Causes(r.result.error) ==
           [r.result.error,
            ContractCallError(CreateOperation, Foreign(description), CreateParams(params)),
            Foreign(description)]
  {
  }

  /**
   * Checkpoint and challenge take the same arguments, but only checkpoint
   * demands two signatures: for an under-signed candidate, checkpoint fails
   * before any call while challenge makes its call.
   */
  lemma CheckpointChallengeAsymmetry(
    deps: PreparerDependencies, channelId: ChannelId, candidate: State, proofStates: Option<seq<State>>)
    requires !HasQuorum(candidate)
    ensures
      var checkpoint := PrepareCheckpointChannelTransaction(deps, CheckpointChannelParams(channelId, candidate, proofStates));
      var challenge := PrepareChallengeChannelTransaction(deps, ChallengeChannelParams(channelId, candidate, proofStates));
      && checkpoint == Run(Failure(InvalidParameterError(CheckpointQuorumMessage)), [])
      && challenge.calls == [PrepareCustody(Challenge(channelId, candidate, proofStates.GetOr([])))]
  {
  }

  /** A doubly-signed checkpoint with no proof states delegates with an empty proof sequence. */
  lemma CheckpointDefaultsProofStates(
    deps: PreparerDependencies, channelId: ChannelId, candidate: State, tx: PreparedTransaction)
    requires HasQuorum(candidate)
    requires deps.nitroliteService.prepare(Checkpoint(channelId, candidate, [])) == Success(tx)
    ensures PrepareCheckpointChannelTransaction(deps, CheckpointChannelParams(channelId, candidate, None)) ==
              Run(Success(tx), [PrepareCustody(Checkpoint(channelId, candidate, []))])
  {
  }

  /** Approving the native asset fails locally for every amount, with no call made. */
  lemma ApproveNativeTokenRejected(deps: PreparerDependencies)
    requires IsNativeToken(deps)
    ensures forall amount: int :: PrepareApproveTokensTransaction(deps, amount) ==
              Run(Failure(InvalidParameterError(NativeApprovalMessage)), [])
  {
  }

  /**
   * The resize signer runs outside the try block: a foreign signer error
   * reaches the caller unwrapped, unlike the same error from the close
   * signer, which comes back as a `ContractCallError`.
   */
  lemma ResizeAndCloseSignerErrors(
    deps: PreparerDependencies, resize: ResizeChannelParams, close: CloseChannelParams, description: string)
    requires deps.signer.signResizeState(resize) == Failure(Foreign(description))
    requires deps.signer.signFinalState(close) == Failure(Foreign(description))
    ensures PrepareResizeChannelTransaction(deps, resize).result == Failure(Foreign(description))
    ensures PrepareCloseChannelTransaction(deps, close).result ==
              Failure(ContractCallError(CloseOperation, Foreign(description), CloseParams(close)))
  {
  }
}
