/**
 * `NitroliteTransactionPreparer`: one preparation per channel-lifecycle
 * intent. Each one returns the prepared, unsent transactions (or the error
 * it throws) together with the collaborator calls it made. Nothing is
 * submitted and no state is kept between preparations.
 */
module Prepare {
  import opened Wrappers
  import opened Types
  import opened Errors
  import opened Services

  // Operation names and messages the preparer puts into its errors.
  const DepositApproveOperation := "prepareApprove (for deposit)"
  const DepositOperation := "prepareDeposit"
  const CreateOperation := "prepareCreateChannelTransaction"
  const DepositPartFailure := "Failed to prepare deposit part of depositAndCreateChannel"
  const CreatePartFailure := "Failed to prepare createChannel part of depositAndCreateChannel"
  const CheckpointOperation := "prepareCheckpointChannelTransaction"
  const ChallengeOperation := "prepareChallengeChannelTransaction"
  const ResizeOperation := "prepareResizeChannelTransaction"
  const CloseOperation := "prepareCloseChannelTransaction"
  const WithdrawOperation := "prepareWithdrawalTransaction"
  const ApproveTokensOperation := "prepareApproveTokensTransaction"
  const CheckpointQuorumMessage := "Candidate state for checkpoint must be signed by both participants."
  const NativeApprovalMessage := "Cannot prepare approval for ETH (zero address)"

  /** The configured token is the chain's native asset. */
  predicate IsNativeToken(deps: PreparerDependencies) {
    deps.addresses.tokenAddress == ZeroAddress
  }

  /** The allowance read a deposit makes: the account's allowance for the custody contract. */
  function AllowanceRead(deps: PreparerDependencies): Call {
    GetTokenAllowance(deps.addresses.tokenAddress, deps.account, deps.addresses.custody)
  }

  function AllowanceReply(deps: PreparerDependencies): Result<int, Error> {
    deps.erc20Service.getTokenAllowance(deps.addresses.tokenAddress, deps.account, deps.addresses.custody)
  }

  /** The approve call a deposit makes: the custody contract may spend `amount`. */
  function ApproveCall(deps: PreparerDependencies, amount: int): Call {
    PrepareApprove(deps.addresses.tokenAddress, deps.addresses.custody, amount)
  }

  function ApproveReply(deps: PreparerDependencies, amount: int): Result<PreparedTransaction, Error> {
    deps.erc20Service.prepareApprove(deps.addresses.tokenAddress, deps.addresses.custody, amount)
  }

  function DepositReply(deps: PreparerDependencies, amount: int): Result<PreparedTransaction, Error> {
    deps.nitroliteService.prepare(Deposit(deps.addresses.tokenAddress, amount))
  }

  /** A deposit of `amount` needs an approval first: an ERC20 whose allowance is short. */
  predicate NeedsApproval(deps: PreparerDependencies, amount: int) {
    && !IsNativeToken(deps)
    && AllowanceReply(deps).Success?
    && AllowanceReply(deps).value < amount
  }

  /** A checkpoint's candidate state carries at least two signatures. */
  predicate HasQuorum(s: State) {
    s.sigs.Some? && |s.sigs.value| >= 2
  }

  /** The approval half of a deposit: the allowance check and, when short, the approve. */
  function ApprovalPhase(deps: PreparerDependencies, amount: int): Run<seq<PreparedTransaction>> {
    var token := deps.addresses.tokenAddress;
    var spender := deps.addresses.custody;
    if token == ZeroAddress then Run(Success([]), [])
    else
      var read := AllowanceRead(deps);
      match AllowanceReply(deps)
      case Failure(e) => Run(Failure(e), [read])
      case Success(allowance) =>
        if allowance < amount then
          match ApproveReply(deps, amount)
          case Failure(e) =>
            Run(Failure(ContractCallError(DepositApproveOperation, e, TokenSpenderAmount(token, spender, amount))),
                [read, ApproveCall(deps, amount)])
          case Success(approveTx) => Run(Success([approveTx]), [read, ApproveCall(deps, amount)])
        else Run(Success([]), [read])
  }

  function PrepareDepositTransactions(deps: PreparerDependencies, amount: int): (r: Run<seq<PreparedTransaction>>)
    ensures StopsAtFirstFailure(deps, r)
    ensures 1 <= |r.calls| <= 3
    // the native asset needs no allowance read and no approval
    ensures IsNativeToken(deps) ==> r.calls == [PrepareCustody(Deposit(ZeroAddress, amount))]
    ensures !IsNativeToken(deps) ==> r.calls[0] == AllowanceRead(deps)
    // each collaborator is called at most once, in the order read, approve, deposit
    ensures !IsNativeToken(deps) && AllowanceReply(deps).Failure? ==> r.calls == [AllowanceRead(deps)]
    ensures !IsNativeToken(deps) && AllowanceReply(deps).Success? && !NeedsApproval(deps, amount) ==>
              r.calls == [AllowanceRead(deps), PrepareCustody(Deposit(deps.addresses.tokenAddress, amount))]
    ensures NeedsApproval(deps, amount) && ApproveReply(deps, amount).Failure? ==>
              r.calls == [AllowanceRead(deps), ApproveCall(deps, amount)]
    ensures NeedsApproval(deps, amount) && ApproveReply(deps, amount).Success? ==>
              r.calls == [AllowanceRead(deps), ApproveCall(deps, amount),
                          PrepareCustody(Deposit(deps.addresses.tokenAddress, amount))]
    ensures ApproveCall(deps, amount) in r.calls <==> NeedsApproval(deps, amount)
    ensures r.result.Success? <==>
              && (IsNativeToken(deps) || AllowanceReply(deps).Success?)
              && (NeedsApproval(deps, amount) ==> ApproveReply(deps, amount).Success?)
              && DepositReply(deps, amount).Success?
    // approve (when needed) strictly before deposit, and deposit last
    ensures r.result.Success? ==>
              var txs := r.result.value;
              && 1 <= |txs| <= 2
              && DepositReply(deps, amount) == Success(txs[|txs| - 1])
              && (|txs| == 2 <==> NeedsApproval(deps, amount))
              && (|txs| == 2 ==> ApproveReply(deps, amount) == Success(txs[0]))
    // the allowance read is outside any try: its error escapes as it is
    ensures r.result.Failure? && r.calls[|r.calls| - 1] == AllowanceRead(deps) ==>
              AllowanceReply(deps) == Failure(r.result.error)
    // every other failure is wrapped, even one of the SDK's own errors
    ensures r.result.Failure? && r.calls[|r.calls| - 1] != AllowanceRead(deps) ==>
              && r.result.error.ContractCallError?
              && Raised(deps, r.calls[|r.calls| - 1]) == Some(r.result.error.cause)
              && (if r.calls[|r.calls| - 1].PrepareApprove?
                  then r.result.error.operation == DepositApproveOperation
                       && r.result.error.details ==
                            TokenSpenderAmount(deps.addresses.tokenAddress, deps.addresses.custody, amount)
                  else r.result.error.operation == DepositOperation
                       && r.result.error.details == TokenAmount(deps.addresses.tokenAddress, amount))
  {
    var token := deps.addresses.tokenAddress;
    var approval := ApprovalPhase(deps, amount);
    if approval.result.Failure? then approval
    else
      var request := Deposit(token, amount);
      var calls := approval.calls + [PrepareCustody(request)];
      match deps.nitroliteService.prepare(request)
      case Failure(e) => Run(Failure(ContractCallError(DepositOperation, e, TokenAmount(token, amount))), calls)
      case Success(depositTx) => Run(Success(approval.result.value + [depositTx]), calls)
  }

  function PrepareCreateChannelTransaction(deps: PreparerDependencies, params: CreateChannelParams): (r: Run<PreparedTransaction>)
    ensures StopsAtFirstFailure(deps, r)
    ensures RethrowsLastFailure(deps, r, CreateOperation, CreateParams(params))
    ensures r.result.Failure? ==> IsNitroliteError(r.result.error)
    // the initial state is signed before the contract call is encoded
    ensures 1 <= |r.calls| <= 2 && r.calls[0] == SignInitialState(params)
    ensures |r.calls| == 2 <==> deps.signer.signInitialState(params).Success?
    ensures |r.calls| == 2 ==>
              var signed := deps.signer.signInitialState(params).value;
              r.calls[1] == PrepareCustody(CreateChannel(signed.channel, signed.initialState))
    ensures r.result.Success? ==>
              |r.calls| == 2 && deps.nitroliteService.prepare(r.calls[1].request) == Success(r.result.value)
  {
    match deps.signer.signInitialState(params)
    case Failure(e) => Run(Failure(Rethrow(CreateOperation, e, CreateParams(params))), [SignInitialState(params)])
    case Success(signed) =>
      var request := CreateChannel(signed.channel, signed.initialState);
      var calls := [SignInitialState(params), PrepareCustody(request)];
      match deps.nitroliteService.prepare(request)
      case Failure(e) => Run(Failure(Rethrow(CreateOperation, e, CreateParams(params))), calls)
      case Success(createTx) => Run(Success(createTx), calls)
  }

  function PrepareDepositAndCreateChannelTransactions(
    deps: PreparerDependencies, depositAmount: int, params: CreateChannelParams): (r: Run<seq<PreparedTransaction>>)
    ensures StopsAtFirstFailure(deps, r)
    // every failure is wrapped once more, naming the phase that failed
    ensures r.result.Failure? ==>
              && r.result.error.ContractCallError?
              && r.result.error.details == DepositAmount(depositAmount)
              && r.result.error.operation in {DepositPartFailure, CreatePartFailure}
    // the create phase is attempted exactly when the deposit phase succeeded
    ensures r.result.Failure? ==>
              (r.result.error.operation == CreatePartFailure <==> SignInitialState(params) in r.calls)
    ensures r.result.Success? ==>
              var txs := r.result.value;
              && 2 <= |txs| <= 3
              && DepositReply(deps, depositAmount) == Success(txs[|txs| - 2])
              && (|txs| == 3 <==> NeedsApproval(deps, depositAmount))
              && (|txs| == 3 ==> ApproveReply(deps, depositAmount) == Success(txs[0]))
              && |r.calls| >= 3
              && r.calls[|r.calls| - 1].PrepareCustody?
              && r.calls[|r.calls| - 1].request.CreateChannel?
              && deps.nitroliteService.prepare(r.calls[|r.calls| - 1].request) == Success(txs[|txs| - 1])
  {
    var deposit := PrepareDepositTransactions(deps, depositAmount);
    match deposit.result
    case Failure(e) =>
      var r := Run(Failure(ContractCallError(DepositPartFailure, e, DepositAmount(depositAmount))), deposit.calls);
      WrappedFailureStops(deps, deposit, r);
      r
    case Success(depositTxs) =>
      var create := PrepareCreateChannelTransaction(deps, params);
      var calls := deposit.calls + create.calls;
      match create.result
      case Failure(e) =>
        var r := Run(Failure(ContractCallError(CreatePartFailure, e, DepositAmount(depositAmount))), calls);
        SequencedRunsStop(deps, deposit, create, r);
        r
      case Success(createTx) =>
        var r := Run(Success(depositTxs + [createTx]), calls);
        SequencedRunsStop(deps, deposit, create, r);
        r
  }

  function PrepareCheckpointChannelTransaction(
    deps: PreparerDependencies, params: CheckpointChannelParams): (r: Run<PreparedTransaction>)
    ensures StopsAtFirstFailure(deps, r)
    ensures RethrowsLastFailure(deps, r, CheckpointOperation, CheckpointParams(params))
    ensures r.result.Failure? ==> IsNitroliteError(r.result.error)
    // an under-signed candidate never reaches a collaborator
    ensures r.calls == [] <==> !HasQuorum(params.candidateState)
    ensures !HasQuorum(params.candidateState) ==>
              r.result == Failure(InvalidParameterError(CheckpointQuorumMessage))
    ensures HasQuorum(params.candidateState) ==>
              r.calls == [PrepareCustody(Checkpoint(params.channelId, params.candidateState,
                                                    params.proofStates.GetOr([])))]
    ensures r.result.Success? ==>
              |r.calls| == 1 && deps.nitroliteService.prepare(r.calls[0].request) == Success(r.result.value)
  {
    if !HasQuorum(params.candidateState) then
      Run(Failure(InvalidParameterError(CheckpointQuorumMessage)), [])
    else
      var request := Checkpoint(params.channelId, params.candidateState, params.proofStates.GetOr([]));
      match deps.nitroliteService.prepare(request)
      case Failure(e) => Run(Failure(Rethrow(CheckpointOperation, e, CheckpointParams(params))), [PrepareCustody(request)])
      case Success(tx) => Run(Success(tx), [PrepareCustody(request)])
  }

  function PrepareChallengeChannelTransaction(
    deps: PreparerDependencies, params: ChallengeChannelParams): (r: Run<PreparedTransaction>)
    ensures StopsAtFirstFailure(deps, r)
    ensures RethrowsLastFailure(deps, r, ChallengeOperation, ChallengeParams(params))
    ensures r.result.Failure? ==> IsNitroliteError(r.result.error)
    // no signature check: whatever the candidate carries, the call is made
    ensures r.calls == [PrepareCustody(Challenge(params.channelId, params.candidateState,
                                                 params.proofStates.GetOr([])))]
    ensures r.result.Success? ==> deps.nitroliteService.prepare(r.calls[0].request) == Success(r.result.value)
  {
    var request := Challenge(params.channelId, params.candidateState, params.proofStates.GetOr([]));
    match deps.nitroliteService.prepare(request)
    case Failure(e) => Run(Failure(Rethrow(ChallengeOperation, e, ChallengeParams(params))), [PrepareCustody(request)])
    case Success(tx) => Run(Success(tx), [PrepareCustody(request)])
  }

  function PrepareResizeChannelTransaction(
    deps: PreparerDependencies, params: ResizeChannelParams): (r: Run<PreparedTransaction>)
    ensures StopsAtFirstFailure(deps, r)
    ensures 1 <= |r.calls| <= 2 && r.calls[0] == SignResizeState(params)
    // signing is outside the try: a signer error escapes as it is
    ensures deps.signer.signResizeState(params).Failure? ==>
              r.calls == [SignResizeState(params)] && r.result == Failure(deps.signer.signResizeState(params).error)
    ensures deps.signer.signResizeState(params).Success? ==>
              var signed := deps.signer.signResizeState(params).value;
              && r.calls == [SignResizeState(params), PrepareCustody(Resize(signed.channelId, signed.state))]
              && RethrowsLastFailure(deps, r, ResizeOperation, ResizeParams(params))
              && (r.result.Failure? ==> IsNitroliteError(r.result.error))
    ensures r.result.Success? ==>
              |r.calls| == 2 && deps.nitroliteService.prepare(r.calls[1].request) == Success(r.result.value)
  {
    match deps.signer.signResizeState(params)
    case Failure(e) => Run(Failure(e), [SignResizeState(params)])
    case Success(signed) =>
      var request := Resize(signed.channelId, signed.state);
      var calls := [SignResizeState(params), PrepareCustody(request)];
      match deps.nitroliteService.prepare(request)
      case Failure(e) => Run(Failure(Rethrow(ResizeOperation, e, ResizeParams(params))), calls)
      case Success(tx) => Run(Success(tx), calls)
  }

  function PrepareCloseChannelTransaction(
    deps: PreparerDependencies, params: CloseChannelParams): (r: Run<PreparedTransaction>)
    ensures StopsAtFirstFailure(deps, r)
    ensures RethrowsLastFailure(deps, r, CloseOperation, CloseParams(params))
    ensures r.result.Failure? ==> IsNitroliteError(r.result.error)
    // the final state is signed first; no signature count is checked here
    ensures 1 <= |r.calls| <= 2 && r.calls[0] == SignFinalState(params)
    ensures |r.calls| == 2 <==> deps.signer.signFinalState(params).Success?
    ensures |r.calls| == 2 ==>
              var signed := deps.signer.signFinalState(params).value;
              r.calls[1] == PrepareCustody(Close(signed.channelId, signed.state))
    ensures r.result.Success? ==>
              |r.calls| == 2 && deps.nitroliteService.prepare(r.calls[1].request) == Success(r.result.value)
  {
    match deps.signer.signFinalState(params)
    case Failure(e) => Run(Failure(Rethrow(CloseOperation, e, CloseParams(params))), [SignFinalState(params)])
    case Success(signed) =>
      var request := Close(signed.channelId, signed.state);
      var calls := [SignFinalState(params), PrepareCustody(request)];
      match deps.nitroliteService.prepare(request)
      case Failure(e) => Run(Failure(Rethrow(CloseOperation, e, CloseParams(params))), calls)
      case Success(tx) => Run(Success(tx), calls)
  }

  function PrepareWithdrawalTransaction(deps: PreparerDependencies, amount: int): (r: Run<PreparedTransaction>)
    ensures StopsAtFirstFailure(deps, r)
    ensures RethrowsLastFailure(deps, r, WithdrawOperation, TokenAmount(deps.addresses.tokenAddress, amount))
    ensures r.result.Failure? ==> IsNitroliteError(r.result.error)
    ensures r.calls == [PrepareCustody(Withdraw(deps.addresses.tokenAddress, amount))]
    ensures r.result.Success? ==> deps.nitroliteService.prepare(r.calls[0].request) == Success(r.result.value)
  {
    var token := deps.addresses.tokenAddress;
    var request := Withdraw(token, amount);
    match deps.nitroliteService.prepare(request)
    case Failure(e) => Run(Failure(Rethrow(WithdrawOperation, e, TokenAmount(token, amount))), [PrepareCustody(request)])
    case Success(tx) => Run(Success(tx), [PrepareCustody(request)])
  }

  function PrepareApproveTokensTransaction(deps: PreparerDependencies, amount: int): (r: Run<PreparedTransaction>)
    ensures StopsAtFirstFailure(deps, r)
    ensures RethrowsLastFailure(deps, r, ApproveTokensOperation, TokenSpenderAmount(deps.addresses.tokenAddress, deps.addresses.custody, amount))
    ensures r.result.Failure? ==> IsNitroliteError(r.result.error)
    // the native asset cannot be approved, and nothing is asked of the ERC20 service
    ensures r.calls == [] <==> IsNativeToken(deps)
    ensures IsNativeToken(deps) ==> r.result == Failure(InvalidParameterError(NativeApprovalMessage))
    ensures !IsNativeToken(deps) ==> r.calls == [ApproveCall(deps, amount)]
    ensures r.result.Success? ==> ApproveReply(deps, amount) == Success(r.result.value)
  {
    var token := deps.addresses.tokenAddress;
    var spender := deps.addresses.custody;
    if token == ZeroAddress then
      Run(Failure(InvalidParameterError(NativeApprovalMessage)), [])
    else
      match deps.erc20Service.prepareApprove(token, spender, amount)
      case Failure(e) =>
        Run(Failure(Rethrow(ApproveTokensOperation, e, TokenSpenderAmount(token, spender, amount))), [ApproveCall(deps, amount)])
      case Success(tx) => Run(Success(tx), [ApproveCall(deps, amount)])
  }
}
