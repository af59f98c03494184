# Cheat-call dispatcher and EvmOdin adapter

This project models two adapter components of the `evm-adapters` crate in Dafny.

- `CheatcodeHandler` wraps a sputnik stack executor. It intercepts exactly one operation, `Handler::call`. A call whose code address is the reserved cheat address `0x7109709ECfa91a80626fF3989D68f67F5b1DD12D` is not forwarded. Instead `apply_cheatcode` writes a block-timestamp override of 100 into the executor's cheat record and returns `(Succeed(Stopped), 32 bytes of 1)`. Every other operation, including `transact_call`, goes to the wrapped executor unchanged.
- `EvmOdin` runs test calls on an evmodin engine bound to a `MockedHost`. It builds the execution message, including the static-flag rule. It fails early when the destination has no code and classifies test outcomes (`check_success`). `HostExt for MockedHost` installs code (`set_code`) and reads it back (`get_code`).

Files:

- `wrappers.dfy`: `Option` and `Result`.
- `primitives.dfy`: bytes, 20-byte addresses, 32-byte words, `U256`, `u64`, `i64`, and the `as i64` cast.
- `sputnik.dfy`: the sputnik types the handler passes through, plus `HandlerOps`, the behaviour of the wrapped executor. `HandlerOps` has one function per `Handler` operation, taking the executor's state. Queries return a result; the other operations also return the new state.
- `cheatcodes.dfy`: the dispatcher, its specification functions `Serve` (bare executor) and `Handle` (wrapper), traces of operations, and the class `CheatcodeHandler`.
- `evmodin_types.dfy`: the evmodin and ABI types. The ABI codec and the engine are function-valued records.
- `evmodin.dfy`: the class `MockedHost` with `get_code`/`set_code`, the class `EvmOdin`, message construction, `check_success`, and `CallOutcome`, the function that specifies `call`.

Foreign code is passed in as function values: the wrapped sputnik executor (`HandlerOps`), the evmodin engine (`Engine`), the ABI codec (`Codec`) and keccak-256 (`MockedHost.keccak256`). Nothing is assumed about them, so every property holds for every engine, codec and hash.

Behaviour of the code worth noting:

- `check_success` with `should_fail` set and status `Success` returns `self.failed(address).unwrap_or(false)` (evm-adapters/src/evmodin.rs:68). A probe that reports `true` makes an expected-failure test pass, and a probe error counts as `false`.
- The static flag is also set when the ABI function's deprecated `constant` flag is set, not only for `view`/`pure` functions.
- `transact_call` is forwarded even when it is addressed to the cheat address. Only `Handler::call` is hooked.
- `gas_limit as i64` wraps: a gas limit of 2^63 or more becomes negative (`Primitives.AsI64`).

## Model

| member | source | states |
|---|---|---|
| Primitives.AsI64 | evm-adapters/src/evmodin.rs:100 | the `as i64` cast of a `u64`: the result is congruent to the input modulo 2^64, and equals it below 2^63 |
| Cheatcodes.IsCheatCall | evm-adapters/src/sputnik/cheatcodes/cheatcode_handler.rs:81 | the `code_address == *CHEATCODE_ADDRESS` test: a `call` whose code address is the cheat address (its own ensures only record that such an operation is a `call`) |
| Cheatcodes.Serve | evm-adapters/src/sputnik/cheatcodes/cheatcode_handler.rs:89-163 | every operation the `Handler` interface takes by `&self` leaves the executor's state unchanged |
| Cheatcodes.CheatEffect | evm-adapters/src/sputnik/cheatcodes/cheatcode_handler.rs:55-58 | after a cheat call, the cheat record's `block_timestamp` is `Some(100)` and the rest of the executor state is unchanged |
| Cheatcodes.CheatEffectIdempotent | evm-adapters/src/sputnik/cheatcodes/cheatcode_handler.rs:58 | applying the cheat effect twice leaves the same state as applying it once |
| Cheatcodes.Handle | evm-adapters/src/sputnik/cheatcodes/cheatcode_handler.rs:71-195 | a call to the cheat address gives the cheat effect and the fixed capture; every other operation gives exactly what the bare executor gives |
| Cheatcodes.CheatCallBypassesInner | evm-adapters/src/sputnik/cheatcodes/cheatcode_handler.rs:81-82 | a cheat call's outcome is the same for every wrapped executor, so the inner `call` is never consulted |
| Cheatcodes.OtherCallForwarded | evm-adapters/src/sputnik/cheatcodes/cheatcode_handler.rs:83-85 | a call to any other address reaches the inner `call` with identical arguments, and its new state and capture come back unmodified |
| Cheatcodes.RunBare | evm-adapters/src/sputnik/cheatcodes/cheatcode_handler.rs:65-195 | trace runner used by `WrapperIsTransparent`: folds the bare executor over a sequence of operations; its contract states only one reply per operation |
| Cheatcodes.RunWrapped | evm-adapters/src/sputnik/cheatcodes/cheatcode_handler.rs:65-195 | trace runner used by `WrapperIsTransparent` and `CheatCallsOnly`: folds the wrapper over a sequence of operations; its contract states only one reply per operation |
| Cheatcodes.WrapperIsTransparent | evm-adapters/src/sputnik/cheatcodes/cheatcode_handler.rs:63-195 | on any sequence of operations with no cheat call, the wrapper and the bare executor give the same replies and the same final state |
| Cheatcodes.CheatCallsOnly | evm-adapters/src/sputnik/cheatcodes/cheatcode_handler.rs:54-60 | any non-empty run of cheat calls ends in the state of a single cheat call, and every reply is the fixed capture, whatever the inputs |
| Cheatcodes.CheatcodeHandler.constructor | evm-adapters/src/sputnik/cheatcodes/cheatcode_handler.rs:23-25 | the handler owns the given executor and its state |
| Cheatcodes.CheatcodeHandler.TransactCall | evm-adapters/src/sputnik/cheatcodes/cheatcode_handler.rs:41-51 | `transact_call` is delegated with identical arguments and its result and new state are returned unchanged, even for the cheat address |
| Cheatcodes.CheatcodeHandler.ApplyCheatcode | evm-adapters/src/sputnik/cheatcodes/cheatcode_handler.rs:54-60 | whatever the input, the state becomes the cheat effect of the old state and the result is `(Succeed(Stopped), [1; 32])` |
| Cheatcodes.CheatcodeHandler.Call | evm-adapters/src/sputnik/cheatcodes/cheatcode_handler.rs:71-86 | a call to the cheat address applies the cheat; any other call is the inner call with the same six arguments, state and result unchanged |
| Cheatcodes.CheatcodeHandler.Balance | evm-adapters/src/sputnik/cheatcodes/cheatcode_handler.rs:89-91 | returns exactly the inner executor's balance, and the wrapper's view of the operation leaves the state untouched |
| Cheatcodes.CheatcodeHandler.CodeSize | evm-adapters/src/sputnik/cheatcodes/cheatcode_handler.rs:93-95 | returns exactly the inner executor's code size, state untouched |
| Cheatcodes.CheatcodeHandler.CodeHash | evm-adapters/src/sputnik/cheatcodes/cheatcode_handler.rs:97-99 | returns exactly the inner executor's code hash, state untouched |
| Cheatcodes.CheatcodeHandler.Code | evm-adapters/src/sputnik/cheatcodes/cheatcode_handler.rs:101-103 | returns exactly the inner executor's code, state untouched |
| Cheatcodes.CheatcodeHandler.Storage | evm-adapters/src/sputnik/cheatcodes/cheatcode_handler.rs:105-107 | returns exactly the inner executor's storage word, state untouched |
| Cheatcodes.CheatcodeHandler.OriginalStorage | evm-adapters/src/sputnik/cheatcodes/cheatcode_handler.rs:109-111 | returns exactly the inner executor's original storage word, state untouched |
| Cheatcodes.CheatcodeHandler.GasLeft | evm-adapters/src/sputnik/cheatcodes/cheatcode_handler.rs:113-115 | returns exactly the inner executor's gas left, state untouched |
| Cheatcodes.CheatcodeHandler.GasPrice | evm-adapters/src/sputnik/cheatcodes/cheatcode_handler.rs:117-119 | returns exactly the inner executor's gas price, state untouched |
| Cheatcodes.CheatcodeHandler.Origin | evm-adapters/src/sputnik/cheatcodes/cheatcode_handler.rs:121-123 | returns exactly the inner executor's origin, state untouched |
| Cheatcodes.CheatcodeHandler.BlockHash | evm-adapters/src/sputnik/cheatcodes/cheatcode_handler.rs:125-127 | returns exactly the inner executor's block hash, state untouched |
| Cheatcodes.CheatcodeHandler.BlockNumber | evm-adapters/src/sputnik/cheatcodes/cheatcode_handler.rs:129-131 | returns exactly the inner executor's block number, state untouched |
| Cheatcodes.CheatcodeHandler.BlockCoinbase | evm-adapters/src/sputnik/cheatcodes/cheatcode_handler.rs:133-135 | returns exactly the inner executor's coinbase, state untouched |
| Cheatcodes.CheatcodeHandler.BlockTimestamp | evm-adapters/src/sputnik/cheatcodes/cheatcode_handler.rs:137-139 | returns exactly the inner executor's block timestamp, state untouched |
| Cheatcodes.CheatcodeHandler.BlockDifficulty | evm-adapters/src/sputnik/cheatcodes/cheatcode_handler.rs:141-143 | returns exactly the inner executor's difficulty, state untouched |
| Cheatcodes.CheatcodeHandler.BlockGasLimit | evm-adapters/src/sputnik/cheatcodes/cheatcode_handler.rs:145-147 | returns exactly the inner executor's block gas limit, state untouched |
| Cheatcodes.CheatcodeHandler.ChainId | evm-adapters/src/sputnik/cheatcodes/cheatcode_handler.rs:149-151 | returns exactly the inner executor's chain id, state untouched |
| Cheatcodes.CheatcodeHandler.Exists | evm-adapters/src/sputnik/cheatcodes/cheatcode_handler.rs:153-155 | returns exactly the inner executor's `exists` flag, state untouched |
| Cheatcodes.CheatcodeHandler.Deleted | evm-adapters/src/sputnik/cheatcodes/cheatcode_handler.rs:157-159 | returns exactly the inner executor's `deleted` flag, state untouched |
| Cheatcodes.CheatcodeHandler.IsCold | evm-adapters/src/sputnik/cheatcodes/cheatcode_handler.rs:161-163 | returns exactly the inner executor's `is_cold` flag, state untouched |
| Cheatcodes.CheatcodeHandler.SetStorage | evm-adapters/src/sputnik/cheatcodes/cheatcode_handler.rs:165-167 | forwarded with the same arguments; the inner new state and `Result` are taken over unchanged |
| Cheatcodes.CheatcodeHandler.Log | evm-adapters/src/sputnik/cheatcodes/cheatcode_handler.rs:169-171 | forwarded with the same arguments; the inner new state and `Result` are taken over unchanged |
| Cheatcodes.CheatcodeHandler.MarkDelete | evm-adapters/src/sputnik/cheatcodes/cheatcode_handler.rs:173-175 | forwarded with the same arguments; the inner new state and `Result` are taken over unchanged |
| Cheatcodes.CheatcodeHandler.Create | evm-adapters/src/sputnik/cheatcodes/cheatcode_handler.rs:177-186 | forwarded with the same arguments; the inner new state and `Capture` are taken over unchanged |
| Cheatcodes.CheatcodeHandler.PreValidate | evm-adapters/src/sputnik/cheatcodes/cheatcode_handler.rs:188-195 | forwarded with the same arguments; the inner new state and `Result` are taken over unchanged |
| EvmOdin.FreshAccount | evm-adapters/src/evmodin.rs:139-147 | the account `set_code` inserts: nonce 0, balance 0, empty storage, the given code and hash |
| EvmOdin.Installed | evm-adapters/src/evmodin.rs:46-50 | the accounts after `set_code` of each entry in order; the addresses holding an account are exactly the old ones plus every entry's address |
| EvmOdin.LastEntry | evm-adapters/src/evmodin.rs:46-50 | the position of the last entry for an address in a contract list, or -1 when there is none |
| EvmOdin.InstalledLastWins | evm-adapters/src/evmodin.rs:46-50 | after installing a list in order, an address with entries holds a fresh account with its last entry's code and that code's hash; any other address keeps its account or stays absent |
| EvmOdin.IsStaticCall | evm-adapters/src/evmodin.rs:101-105 | `constant`, or view/pure mutability: a view or pure function is always static; a non-payable or payable one is static exactly when `constant` is set |
| EvmOdin.BuildMessage | evm-adapters/src/evmodin.rs:92-106 | sender `from`, destination `to`, depth 0, the calldata and value, kind `call_kind` or `Call`, gas the `as i64` of the gas limit, and static exactly when `constant` is set or the mutability is `view` or `pure` |
| EvmOdin.CheckSuccess | evm-adapters/src/evmodin.rs:56-77 | without `should_fail`: true exactly for `Success`; with it: true exactly for `Revert`, or for `Success` when the `failed()` probe succeeds with `true` |
| EvmOdin.CallOutcome | evm-adapters/src/evmodin.rs:80-124 | an encode error, or missing code at the destination, fails with the accounts unchanged; otherwise the engine runs the destination's code on the built message; a decode error fails with the engine's accounts kept; success returns the decoded data, the engine's status and gas 0 |
| EvmOdin.MissingCodeIgnoresEngine | evm-adapters/src/evmodin.rs:109-111 | a call to an address without an account fails, and its outcome is the same for every engine, so the engine never runs |
| EvmOdin.MockedHost.constructor | evm-adapters/src/evmodin.rs:164 | `MockedHost::default()` has no accounts |
| EvmOdin.MockedHost.GetCode | evm-adapters/src/evmodin.rs:133-135 | `None` exactly when the address has no account, otherwise that account's code |
| EvmOdin.MockedHost.SetCode | evm-adapters/src/evmodin.rs:137-149 | the address's account is overwritten with a fresh account: `get_code` then returns the code, nonce and balance are 0, storage empty, the code hash is keccak-256 of the code; all other addresses unchanged |
| EvmOdin.EvmOdin.constructor | evm-adapters/src/evmodin.rs:25-27 | stores the host, gas limit and revision, and leaves `call_kind` unset |
| EvmOdin.EvmOdin.Reset | evm-adapters/src/evmodin.rs:42-44 | the host becomes exactly the given one, so `init_state` then returns it; the configuration is kept |
| EvmOdin.EvmOdin.InitState | evm-adapters/src/evmodin.rs:52-54 | returns the host the adapter currently owns |
| EvmOdin.EvmOdin.InitializeContracts | evm-adapters/src/evmodin.rs:46-50 | the host's accounts become the old accounts with every entry installed in order, so the last entry for an address wins |
| EvmOdin.EvmOdin.Call | evm-adapters/src/evmodin.rs:80-124 | the new accounts and the result are those of `CallOutcome` on the old accounts and the adapter's configuration |

## Left out

- Bytecode interpretation: sputnik's `StackExecutor` and evmodin's `AnalyzedCode::analyze`/`execute` are foreign engines, modelled only as functions from state and message to new state and output.
- ABI encoding and decoding (`encode_function_data`, `decode_function_data`) are a foreign fallible codec, passed in as functions.
- keccak-256 is a foreign hash, passed in as a function.
- `CheatcodeBackend` and `MemoryStackStateOwned` are not part of this model. The cheat record is a field that `apply_cheatcode` writes; how reads consult the override is not modelled.
- The cheat record holds only `block_timestamp`, the one field the handler touches.
- The hex decoding and lazy initialisation of `CHEATCODE_ADDRESS`: the model gives the address's 20 bytes directly as a Dafny `const`, which cannot change.
- Selector decoding of cheat calls is an unfinished TODO in the source and is not invented here. The input of a cheat call is ignored.
- Whether nested calls made by the inner executor go through the wrapper's `call` depends on the foreign executor. Here each `HandlerOps.call` is one opaque step, and re-entry is not modelled.
- The tracer, `tracing::error!` logging of unexpected statuses, and `Deref` are plumbing with no behaviour to prove.
- The `failed()` probe is a foreign call through the adapter. `CheckSuccess` takes its outcome as a parameter, so the probe's own effect on the host is not modelled.
- Real gas accounting does not exist in the source (gas is reported as 0), so none is modelled.
- `MockedHost` is modelled only by its account map. Its other data (block context, recorded calls) is not modelled, so the engine's effect on the host is its effect on the accounts.
- `EvmOdin` is generic over its host; the model fixes the host to `MockedHost`, the one `HostExt` implementation in the source.
- EvmOdin.EvmOdin.Reset and EvmOdin.EvmOdin.InitState do not model Rust's move of the host into the adapter (`new`, `reset`) or the read-only borrow `init_state` lends. The host is a shared `MockedHost` object here. A caller that keeps a reference to it can change the adapter's host, two adapters built on one host share it, and a caller can mutate the host through the `InitState` result.
- EvmOdin.MockedHost.keccak256: keccak-256 is one global function in the source. Here each host carries its own hash function, so the model does not rule out `reset` to a host with a different hash, which would change the hashes later `set_code` calls store.
- The tests that use compiled Solidity fixtures (Greeter, GreeterTest) are not modelled.
