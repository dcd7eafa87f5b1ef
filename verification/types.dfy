/**
 * The values the transaction preparer reads and passes along. Anything the
 * preparer only forwards to a collaborator is kept as an opaque hex string.
 */
module Types {
  import opened Wrappers

  /** Hex data as the SDK carries it: a `0x`-prefixed string. */
  type Hex = string

  /** An account or contract address. The preparer compares addresses as text. */
  type Address = Hex

  type ChannelId = Hex

  type Signature = Hex

  /** viem's `zeroAddress`, the sentinel for the chain's native asset. */
  const ZeroAddress: Address := "0x0000000000000000000000000000000000000000"

  /**
   * An off-chain channel state. The preparer only looks at `sigs`, which may
   * be missing; everything else (intent, version, data, allocations) is
   * carried in `content` for the signer and the custody contract.
   */
  datatype State = State(content: Hex, sigs: Option<seq<Signature>>)

  /** A channel definition (participants, adjudicator, challenge, nonce). */
  datatype Channel = Channel(content: Hex)

  /** An unsent, simulated contract call. */
  datatype PreparedTransaction = PreparedTransaction(to: Address, data: Hex, value: int)

  /** The network's resolved contract addresses. */
  datatype ContractAddresses = ContractAddresses(custody: Address, tokenAddress: Address)

  /** Parameters the signer turns into a channel and its initial state. */
  datatype CreateChannelParams = CreateChannelParams(content: Hex)

  /** Parameters of a checkpoint; `proofStates` may be left out. */
  datatype CheckpointChannelParams = CheckpointChannelParams(
    channelId: ChannelId,
    candidateState: State,
    proofStates: Option<seq<State>>)

  /** Parameters of a challenge; `proofStates` may be left out. */
  datatype ChallengeChannelParams = ChallengeChannelParams(
    channelId: ChannelId,
    candidateState: State,
    proofStates: Option<seq<State>>)

  /** Parameters the signer turns into a signed resize state. */
  datatype ResizeChannelParams = ResizeChannelParams(content: Hex)

  /** Parameters the signer turns into a signed final state. */
  datatype CloseChannelParams = CloseChannelParams(content: Hex)
}
