# TimeLock state machine in Dafny

This project models the `TimeLock` contract of a Stylus (Rust) smart contract. A single owner
schedules external calls. Each call is identified by an id derived from its five parameters:
target, value, function label, payload and timestamp. `queue` marks an id as pending, provided
the timestamp lies between 10 and 1000 seconds after the current block time. `execute` may run a
pending operation from its timestamp until 1000 seconds after it. It clears the pending flag
before it dispatches the external call. `cancel` clears a pending flag without making the call.

Layout:

- `evm_types.dfy` (module `EvmTypes`) defines the fixed-width values: `U64` block times, `U256`
  amounts and times, 20-byte addresses, bytes and 32-byte ids. It also defines `U256` addition,
  which wraps around modulo 2^256.
- `timelock_spec.dfy` (module `TimeLockSpec`) is the contract as a pure state machine. `State`
  holds `owner`, the `queued` mapping and the emitted events. `QueueStep`, `ExecuteStep` (with
  its guards `ExecuteChecks` and the state `AtDispatch` that the external call observes) and
  `CancelStep` each give the result and the next state of one call.
- `timelock.dfy` (module `TimeLockContract`) defines the class `TimeLock`. Its `owner` is
  immutable, its `queued` map is updated in place and its event log is ghost. Each entry point
  is proved equal to the matching step function.
- `timelock_traces.dfy` (module `TimeLockTraces`) covers whole sequences of calls. It proves:
  - an id is pending exactly when the last call that touched it was a `queue`;
  - the owner never changes;
  - the log only grows, and never with a `Queue` event.
- `timelock_scenarios.dfy` (module `TimeLockScenarios`) runs single operations through their
  whole lifecycle: queue, execute and replay; the window edges; expiry; cancel and re-queue;
  calls from a non-owner.

The caller (`msg::sender()`), the block time (`block::timestamp()`) and the success of the
external call are passed in as parameters. The id derivation, an ABI encoding followed by
Keccak-256, is a function value `hash: Operation -> Bytes32` supplied to the contract.

Two behaviours of the code a reader might not expect; the model follows the code:

- `queue` emits no `Queue` event. The event is declared (src/lib.rs:35-42) but `queue` never
  logs it (src/lib.rs:100-127).
- When the external call fails, `execute` returns `TxFailedError` and leaves the pending flag
  cleared (src/lib.rs:154-155, src/lib.rs:169).

## Model

| member | source | states |
|---|---|---|
| EvmTypes.WrappingAdd | src/lib.rs:150-151 | `U256` addition: the exact sum when it is below 2^256; otherwise the sum minus 2^256, which is smaller than the first operand |
| TimeLockSpec.QueueStep | src/lib.rs:100-127 | `queue` succeeds exactly when the sender is the owner, the id is not pending and `now + 10 <= timestamp <= now + 1000`. Success sets only that id's flag to true and logs nothing. Failures are checked in order: not the owner → `NotOwnerError`; pending → `AlreadyQueuedError(txId)`; outside the window → `TimestampNotInRangeError(now, timestamp)`. A failure changes nothing. The owner never changes |
| TimeLockSpec.ExecuteChecks | src/lib.rs:137-152 | `execute`'s guards pass exactly when the sender is the owner, the id is pending and `now` lies in `[timestamp, timestamp + GRACE_PERIOD]`, in every state. The sum is computed in `U256`, but it is always exact, because the not-passed guard has already ruled out `timestamp > now`. Otherwise the guards fail in order with `NotOwnerError`, `NotQueuedError(txId)`, `TimestampNotPassedError(now, timestamp)` or `TimestampExpiredError(now, timestamp + 1000)`, whose `expiresAt` is always exactly `timestamp + GRACE_PERIOD` |
| TimeLockSpec.AtDispatch | src/lib.rs:154-157 | When the external call is dispatched, the operation's id is no longer pending. The owner, the log and every other id's flag are unchanged |
| TimeLockSpec.ExecuteStep | src/lib.rs:129-171 | `execute` returns Ok exactly when its guards pass and the external call succeeds. A failed guard returns that guard's error and changes nothing. Once the guards pass, the flag is cleared whatever the call does. A successful call appends exactly one `Execute(txId, target, value, func, data, timestamp)` event. A failed call returns `TxFailedError` and logs nothing. The owner never changes |
| TimeLockSpec.CancelStep | src/lib.rs:173-198 | `cancel` succeeds exactly when the sender is the owner and the id is pending. Success clears only that flag and appends exactly `Cancel(txId)`. Otherwise it returns `NotOwnerError` first, then `NotQueuedError(txId)`, and changes nothing |
| TimeLockSpec.DispatchBlocksReentry | src/lib.rs:154-157 | At the moment of dispatch, `execute` and `cancel` of any operation with that id get `NotQueuedError(txId)`, and `queue` of the same operation at the same block time gets `TimestampNotInRangeError` |
| TimeLockSpec.ExpirySumNeverWraps | src/lib.rs:146-151 | Once `timestamp <= now` holds, as it does whenever line 150 is reached, `timestamp + GRACE_PERIOD` computed in `U256` is the exact sum |
| TimeLockContract.TimeLock.constructor | src/lib.rs:56-62 | A fresh contract has the given owner, nothing queued and an empty log |
| TimeLockContract.TimeLock.GetTxId | src/lib.rs:82-98 | The id is the hash of exactly the five parameters, as an `Operation`. The function has no reads clause, so it neither reads nor writes `owner` or `queued`. Equal five-tuples give equal ids |
| TimeLockContract.TimeLock.IsQueued | src/lib.rs:142 | Reading the storage mapping gives true exactly for a pending id; a missing key reads as false |
| TimeLockContract.TimeLock.Queue | src/lib.rs:100-127 | Returns the result and leaves the state that `QueueStep` gives for the old state |
| TimeLockContract.TimeLock.Execute | src/lib.rs:129-171 | Returns the result and leaves the state that `ExecuteStep` gives. `atCall` is present exactly when the guards passed. It is then the old state with the id's flag cleared, in which the id is not pending (clear before dispatch) |
| TimeLockContract.TimeLock.Cancel | src/lib.rs:173-198 | Returns the result and leaves the state that `CancelStep` gives |
| TimeLockTraces.StepTouch | src/lib.rs:123-124 | A call that does not touch an id leaves its flag as it was. A call that touches an id flips its flag, to true exactly when it is a `queue`. So `queue` is the only writer of false → true, and only `execute` or `cancel` write true → false |
| TimeLockTraces.PendingIffLastTouchQueued | src/lib.rs:113 | After any sequence of calls, an id is pending exactly when the most recent call that touched it was a `queue`. If no call touched it, it is pending exactly when it was pending before |
| TimeLockTraces.PendingFromInit | src/lib.rs:60 | From a fresh contract, an id is pending exactly when a successful `queue` of it is more recent than every `execute` that passed its guards and every successful `cancel` of it |
| TimeLockTraces.RunKeepsOwner | src/lib.rs:59 | No sequence of calls changes the owner |
| TimeLockTraces.RunOnlyAppendsExecuteAndCancel | src/lib.rs:159-166 | Calls only append to the log, and nothing they append is a `Queue` event |
| TimeLockScenarios.QueueExecuteReplay | src/lib.rs:123-170 | Queue for `now + 20`, then execute at `now + 20`: both succeed. The log is exactly one `Execute` event and the id is no longer pending. A second `execute` gets `NotQueuedError` |
| TimeLockScenarios.QueueWindowEdges | src/lib.rs:117-121 | `now + 9`, `now + 1001` and `now + 2000` are refused with `TimestampNotInRangeError`. `now + 10` and `now + 1000` are accepted |
| TimeLockScenarios.ExecuteAfterGrace | src/lib.rs:150-152 | Executing at `timestamp + 1001` gets `TimestampExpiredError(now, timestamp + 1000)` and changes nothing |
| TimeLockScenarios.CancelThenRequeue | src/lib.rs:185-197 | After queue then cancel, the log is exactly `[Cancel(txId)]`. A later `execute` gets `NotQueuedError`. The same parameters can be queued again |
| TimeLockScenarios.StrangerRefused | src/lib.rs:108-110 | A caller other than the owner gets `NotOwnerError` from `queue`, `execute` and `cancel`, whatever the other arguments, and nothing changes |

## Left out

- The ABI encoding of the five-tuple and the Keccak-256 hash (src/lib.rs:90-97) are not
  modelled. Both are library calls. The id is a function value supplied to the contract.
  No lemma assumes that distinct operations have distinct ids.
- The mechanics of the external call (src/lib.rs:157) are not modelled: the value transfer,
  and code the target runs, including calls back into the contract. The call's success is a
  boolean parameter. The model proves that the flag is cleared in the state the call observes
  (`TimeLock.Execute`'s `atCall`, `AtDispatch`). It proves that from that state `execute` and
  `cancel` of any operation with that id fail, and so does `queue` of the same operation
  (`DispatchBlocksReentry`). It does not model a nested call changing
  other ids' flags while the outer call runs.
- The host rolls back storage when an entry point returns `Err`; that is not modelled. The model
  follows the Rust text, so the `TxFailedError` path leaves the flag cleared.
- `msg::sender()` and `block::timestamp()` become parameters. Event wire encoding and the
  delivery of `evm::log` are not modelled: the log is a ghost sequence of `Event` values.
- Setting up `owner` is not modelled, because no code shown sets it. It is a constructor
  argument and read-only afterwards.
- The allocator, the `export-abi` feature and the SDK macros (src/lib.rs:10-23, 56-57, 64, 75)
  are not modelled.
- EvmTypes.WrappingAdd: the `U256` addition at src/lib.rs:150-151 is modelled as wrapping
  modulo 2^256; whether the library wraps or panics on overflow is not modelled. The guard order
  makes the question moot: line 146 returns whenever `timestamp > now`, so the sum is only formed
  with `timestamp <= now < 2^64` and never overflows (`ExpirySumNeverWraps`).
