/**
 * The preparer's collaborators, seen from outside: each is a function from
 * its arguments to what the awaited call resolves to or throws. The
 * preparer's own record of which collaborator calls it made is a trace of
 * `Call`s.
 */
module Services {
  import opened Wrappers
  import opened Types
  import opened Errors

  /** The ERC20 read and approve-encoding service. */
  datatype Erc20Service = Erc20Service(
    getTokenAllowance: (Address, Address, Address) -> Result<int, Error>,
    prepareApprove: (Address, Address, int) -> Result<PreparedTransaction, Error>)

  /** The custody-contract calls the Nitrolite service can simulate and encode. */
  datatype CustodyCall =
    | Deposit(tokenAddress: Address, amount: int)
    | CreateChannel(channel: Channel, initialState: State)
    | Checkpoint(channelId: ChannelId, candidateState: State, proofStates: seq<State>)
    | Challenge(channelId: ChannelId, candidateState: State, proofStates: seq<State>)
    | Resize(channelId: ChannelId, resizeState: State)
    | Close(channelId: ChannelId, finalState: State)
    | Withdraw(tokenAddress: Address, amount: int)

  /** `nitroliteService.prepareDeposit`, `prepareCreateChannel`, ..., `prepareWithdraw`. */
  datatype NitroliteService = NitroliteService(prepare: CustodyCall -> Result<PreparedTransaction, Error>)

  /** What the initial-state signer returns: the channel and its signed initial state. */
  datatype InitialState = InitialState(channel: Channel, initialState: State)

  /** What the resize and final-state signers return. */
  datatype SignedState = SignedState(channelId: ChannelId, state: State)

  /** `_prepareAndSignInitialState`, `_prepareAndSignResizeState`, `_prepareAndSignFinalState`. */
  datatype StateSigner = StateSigner(
    signInitialState: CreateChannelParams -> Result<InitialState, Error>,
    signResizeState: ResizeChannelParams -> Result<SignedState, Error>,
    signFinalState: CloseChannelParams -> Result<SignedState, Error>)

  /** The dependencies the preparer is constructed with and never changes. */
  datatype PreparerDependencies = PreparerDependencies(
    addresses: ContractAddresses,
    account: Address,
    erc20Service: Erc20Service,
    nitroliteService: NitroliteService,
    signer: StateSigner)

  /** One collaborator call, as it appears in a trace. */
  datatype Call =
    | GetTokenAllowance(tokenAddress: Address, owner: Address, spender: Address)
    | PrepareApprove(tokenAddress: Address, spender: Address, amount: int)
    | PrepareCustody(request: CustodyCall)
    | SignInitialState(create: CreateChannelParams)
    | SignResizeState(resize: ResizeChannelParams)
    | SignFinalState(close: CloseChannelParams)

  function ErrorOf<T>(reply: Result<T, Error>): Option<Error> {
    match reply
    case Success(_) => None
    case Failure(e) => Some(e)
  }

  /** The error the collaborator throws for `call`, if it throws. */
  function Raised(deps: PreparerDependencies, call: Call): Option<Error> {
    match call
    case GetTokenAllowance(token, owner, spender) => ErrorOf(deps.erc20Service.getTokenAllowance(token, owner, spender))
    case PrepareApprove(token, spender, amount) => ErrorOf(deps.erc20Service.prepareApprove(token, spender, amount))
    case PrepareCustody(request) => ErrorOf(deps.nitroliteService.prepare(request))
    case SignInitialState(p) => ErrorOf(deps.signer.signInitialState(p))
    case SignResizeState(p) => ErrorOf(deps.signer.signResizeState(p))
    case SignFinalState(p) => ErrorOf(deps.signer.signFinalState(p))
  }

  /** The outcome of one preparation together with the collaborator calls it made, in order. */
  datatype Run<+T> = Run(result: Result<T, Error>, calls: seq<Call>)

  /**
   * The preparer stops at the first collaborator that throws: every call but
   * the last one succeeded, a success means every call succeeded, and a
   * failure either was raised locally before any call (an
   * `InvalidParameterError`) or carries the original cause the last call
   * threw.
   */
  predicate StopsAtFirstFailure<T>(deps: PreparerDependencies, r: Run<T>) {
    && (forall i :: 0 <= i < |r.calls| - 1 ==> Raised(deps, r.calls[i]).None?)
    && (r.result.Success? ==> forall c <- r.calls :: Raised(deps, c).None?)
    && (r.result.Failure? && r.calls == [] ==> r.result.error.InvalidParameterError?)
    && (r.result.Failure? && r.calls != [] ==>
          var raised := Raised(deps, r.calls[|r.calls| - 1]);
          raised.Some? && Root(r.result.error) == Root(raised.value))
  }

  /**
   * The catch-block rule as seen from a run that failed at its last call:
   * a `NitroliteError` is rethrown unchanged, anything else is wrapped once
   * in a `ContractCallError` naming `operation` and recording `details`.
   */
  predicate RethrowsLastFailure<T>(deps: PreparerDependencies, r: Run<T>, operation: string, details: Details) {
    r.result.Failure? && r.calls != [] ==>
      var raised := Raised(deps, r.calls[|r.calls| - 1]);
      && raised.Some?
      && (IsNitroliteError(raised.value) ==> r.result.error == raised.value)
      && (!IsNitroliteError(raised.value) ==>
            && r.result.error.ContractCallError?
            && r.result.error.operation == operation
            && r.result.error.cause == raised.value
            && r.result.error.details == details)
  }

  /** A failure wrapped around the same calls keeps stopping at the first failure. */
  lemma WrappedFailureStops<T, U>(deps: PreparerDependencies, inner: Run<T>, r: Run<U>)
    requires StopsAtFirstFailure(deps, inner) && inner.result.Failure? && inner.calls != []
    requires r.calls == inner.calls && r.result.Failure?
    requires r.result.error.ContractCallError? && r.result.error.cause == inner.result.error
    ensures StopsAtFirstFailure(deps, r)
  {
  }

  /**
   * Running `second` after a successful `first` keeps stopping at the first
   * failure, provided the combined outcome follows `second`'s and keeps its
   * original cause.
   */
  lemma SequencedRunsStop<T, U, V>(deps: PreparerDependencies, first: Run<T>, second: Run<U>, r: Run<V>)
    requires StopsAtFirstFailure(deps, first) && first.result.Success?
    requires StopsAtFirstFailure(deps, second) && second.calls != []
    requires r.calls == first.calls + second.calls
    requires r.result.Success? <==> second.result.Success?
    requires r.result.Failure? ==> Root(r.result.error) == Root(second.result.error)
    ensures StopsAtFirstFailure(deps, r)
  {
  }
}
