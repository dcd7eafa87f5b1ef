# Nitrolite transaction preparer

A Dafny model of `NitroliteTransactionPreparer`, the transaction-preparation
layer of the Nitrolite state-channel SDK. Given a channel-lifecycle intent
(deposit, create, deposit-and-create, checkpoint, challenge, resize, close,
withdraw, approve), it asks its collaborators for simulated, ABI-encoded
contract calls. It returns them as an ordered list of unsent
`PreparedTransaction`s, or it throws. It never submits anything and keeps no
state between calls.

How the model is built:

- `Types` holds the values the preparer reads or forwards. Addresses are hex
  strings, and the native asset is viem's `zeroAddress`, compared as text
  just as the SDK compares it. A channel state exposes only its optional
  `sigs`; everything else in it is carried opaquely.
- `Errors` holds the SDK's error family as a tagged datatype:
  `InvalidParameterError`, `ContractCallError(operation, cause, details)`,
  and `Foreign` for anything that is not a `NitroliteError`. `Rethrow` is the
  shared catch block. `Root` and `Causes` walk the `cause` chain down to the
  original failure.
- `Services` holds the collaborators. These are the ERC20 service, the
  Nitrolite custody service and the three state signers. Each is a function
  from its arguments to what the awaited call resolves to (`Success`) or
  throws (`Failure`). A preparation returns a `Run`: its outcome plus the
  ordered list of collaborator calls it made. So "no call was made" is
  simply an empty trace. `StopsAtFirstFailure` is the property every
  preparation keeps. Every call except the last one succeeded. A failure
  either came before any call (an `InvalidParameterError`) or keeps the
  original cause of the last call's failure.
- `Prepare` holds the nine preparations, one function each.
- `PrepareProperties` holds lemmas that relate preparations to each other,
  or that fix particular collaborator responses.

The model follows the code as written, including where it is not uniform:

- Deposit wraps the errors of approve and deposit every time. It does not
  pass the SDK's own errors through.
- Deposit-and-create wraps every failure of either phase once more. The
  wrapper names the phase, and its context is `depositAmount` in both
  cases.
- The allowance read in deposit and the signing step in resize are outside
  any `try`. Whatever they throw reaches the caller unchanged, even an
  error that is not a `NitroliteError`.
- Challenge and close do no local signature count. Only checkpoint demands
  at least two signatures.

## Model

| member | source | states |
|---|---|---|
| Errors.Rethrow | nitrolite/sdk/src/client/prepare.ts:90-92 | the result is always a NitroliteError; it is the input itself exactly when the input already was one, otherwise a single ContractCallError layer naming the operation and recording the given context around it; the original cause is kept |
| Errors.RethrowIdempotent | nitrolite/sdk/src/client/prepare.ts:90-92 | a second catch block of the same kind changes nothing, so an error is never wrapped twice by these blocks |
| Errors.WrapDepth | nitrolite/sdk/src/client/prepare.ts:108-116 | helper observing the cause chain the wrappers here build (no code of its own): counts the ContractCallError layers; zero exactly for an error that is not a wrapper |
| Errors.Root | nitrolite/sdk/src/client/prepare.ts:108-116 | helper observing the cause chain the wrappers here build (no code of its own): following `cause` always ends at an error that is not a ContractCallError, and a foreign error is its own root |
| Errors.Causes | nitrolite/sdk/src/client/prepare.ts:108-116 | helper observing the cause chain the wrappers here build (no code of its own): the cause chain starts at the error, ends at its root, has one entry per wrapper plus one, and links each wrapper to its cause |
| Prepare.PrepareDepositTransactions | nitrolite/sdk/src/client/prepare.ts:51-77 | the native asset gets no allowance read and only a deposit call; for an ERC20 the allowance read comes first; an approve is requested exactly when the allowance is short; on every path, success or failure, the call trace is pinned: each of read, approve and deposit is called at most once, in that order, and nothing follows the first failing call; on success there are one or two transactions, the deposit last and the approve (when present) first; an allowance-read error escapes unchanged; every other error is wrapped with the failing step's name and context (`{tokenAddress, spender, amount}` for approve, `{tokenAddress, amount}` for deposit), even the SDK's own; the allowance check and approve of lines 57-67 are the helper `ApprovalPhase` |
| Prepare.PrepareCreateChannelTransaction | nitrolite/sdk/src/client/prepare.ts:85-94 | the initial state is signed before the create call is encoded, and the create call uses the signed channel and state; failures are NitroliteErrors, a typed error passes through unchanged and a foreign one is wrapped once with context `{ params }` |
| Prepare.PrepareDepositAndCreateChannelTransactions | nitrolite/sdk/src/client/prepare.ts:103-118 | every failure is a ContractCallError carrying the deposit amount and naming the failed phase; it names the create phase exactly when a create was attempted; on success there are two or three transactions, with the deposit second to last and the created channel last |
| Prepare.PrepareCheckpointChannelTransaction | nitrolite/sdk/src/client/prepare.ts:126-139 | no call is made exactly when the candidate lacks two signatures, and then the result is InvalidParameterError; otherwise one checkpoint call is made with the proof states defaulting to empty; the catch rule applies, with context `{ params }` |
| Prepare.PrepareChallengeChannelTransaction | nitrolite/sdk/src/client/prepare.ts:146-155 | the challenge call is always made, whatever the candidate's signatures, with the proof states defaulting to empty; the catch rule applies, with context `{ params }` |
| Prepare.PrepareResizeChannelTransaction | nitrolite/sdk/src/client/prepare.ts:162-171 | a signer failure escapes unchanged and no resize call is made; after a successful signing the resize call uses the signed state, and its failures follow the catch rule, with context `{ params }` |
| Prepare.PrepareCloseChannelTransaction | nitrolite/sdk/src/client/prepare.ts:179-188 | the final state is signed before the close call, and there is no signature count; failures of either step follow the catch rule, with context `{ params }` |
| Prepare.PrepareWithdrawalTransaction | nitrolite/sdk/src/client/prepare.ts:196-205 | exactly one withdraw call for the configured token and amount; the catch rule applies, with context `{ amount, tokenAddress }` |
| Prepare.PrepareApproveTokensTransaction | nitrolite/sdk/src/client/prepare.ts:212-225 | no call is made exactly for the native asset, and then the result is InvalidParameterError; otherwise one approve for the custody contract; the catch rule applies, with context `{ amount, tokenAddress, spender }` |
| PrepareProperties.DepositNativeToken | nitrolite/sdk/src/client/prepare.ts:53-76 | for the native asset a successful deposit encoding gives exactly `[deposit]`, with no allowance read |
| PrepareProperties.DepositWithShortAllowance | nitrolite/sdk/src/client/prepare.ts:57-76 | when the allowance is below the amount, the result is exactly `[approve, deposit]` after the calls read, approve, deposit |
| PrepareProperties.DepositWithSufficientAllowance | nitrolite/sdk/src/client/prepare.ts:57-76 | when the allowance covers the amount, the result is exactly `[deposit]` and no approve is requested |
| PrepareProperties.DepositAllowanceErrorEscapes | nitrolite/sdk/src/client/prepare.ts:57-58 | a failing allowance read ends the deposit with that very error after one call |
| PrepareProperties.DepositWrapsTypedErrors | nitrolite/sdk/src/client/prepare.ts:69-74 | for the native asset and for an ERC20 whose approval phase succeeded alike, an InvalidParameterError from the deposit encoder comes back wrapped in a `prepareDeposit` ContractCallError with context `{tokenAddress, amount}` |
| PrepareProperties.DepositAndCreateComposes | nitrolite/sdk/src/client/prepare.ts:103-118 | the composition law: success exactly when both parts succeed, and then the deposit list followed by the create transaction; a failed deposit phase stops before any create call; each failing phase is wrapped with its own message |
| PrepareProperties.DepositAndCreateWrapsTwice | nitrolite/sdk/src/client/prepare.ts:85-118 | a foreign error from the create encoder reaches the deposit-and-create caller two layers deep: phase wrapper, then create wrapper, then the original |
| PrepareProperties.CheckpointChallengeAsymmetry | nitrolite/sdk/src/client/prepare.ts:126-155 | for the same under-signed candidate, checkpoint fails with no call, while challenge makes its call |
| PrepareProperties.CheckpointDefaultsProofStates | nitrolite/sdk/src/client/prepare.ts:127-134 | a doubly-signed checkpoint without proof states delegates with an empty sequence and returns the encoded transaction |
| PrepareProperties.ApproveNativeTokenRejected | nitrolite/sdk/src/client/prepare.ts:212-218 | for the native asset, every amount is rejected with InvalidParameterError and no call |
| PrepareProperties.ResizeAndCloseSignerErrors | nitrolite/sdk/src/client/prepare.ts:162-188 | the same foreign signer error reaches the caller unwrapped from resize but wrapped once from close |

## Left out

- Async scheduling: each awaited collaborator call is a function that returns or throws. Timing, cancellation and overlapping preparations are not modelled. Each preparation depends only on its inputs.
- The collaborators' internals are not modelled: viem simulation and ABI encoding, the `NitroliteService` and `Erc20Service` bodies, and the `_prepareAndSign*State` signing. They are arbitrary functions of their arguments.
- `PreparedTransaction` is an opaque `(to, data, value)` record. The preparer never looks inside it.
- The channel-parameter types and channel states are opaque except for the fields the preparer destructures: `channelId`, `candidateState` and `proofStates` of the checkpoint and challenge parameters, and `sigs` of the candidate state. The remaining fields are only forwarded to the signers, and their definitions are not part of this model.
- Contract addresses: only `custody` and `tokenAddress` are kept, since the preparer reads no other. The wallet clients, chain id and challenge duration are used only by the signers, so they are folded into the signer functions.
- The SDK's error classes are not part of this model. `InvalidParameterError` and `ContractCallError` stand for the whole `NitroliteError` family in the `instanceof` test. Each error's first constructor argument is kept as written: the two `InvalidParameterError` messages, and the operation name or phase message of each `ContractCallError`, which is held in its `operation` field. How the errors module builds or formats messages is not modelled.
- `err as Error` is a type assertion with no runtime effect, so it has no counterpart here.
- Amounts are TypeScript `bigint`s, unbounded and signed, and are modelled as `int`. Negative amounts are not rejected, as in the code.
- These files are UI components, wallet configuration, a type declaration and lint configuration, with no part in transaction preparation: srcs/nextjs/components/demo/demo-client.tsx, packages/nextjs/components/home/technology-partners.tsx, packages/nextjs/services/web3/wagmiConfig.tsx, packages/nextjs/components/PrivyConnector.tsx, packages/nextjs/services/web3/privyConfig.ts, packages/nextjs/types/recharts-patch.d.ts, .lintstagedrc.js.
