/** The cheat-code handler: a wrapper around a sputnik executor that intercepts the one
    `Handler::call` whose code address is the reserved cheat address, and forwards every
    other operation to the executor untouched.

    The wrapped executor is described by `HandlerOps` (its behaviour) applied to an
    `ExecutorState` (the state it owns). `Serve` is what the bare executor does with one
    operation, `Handle` is what the wrapper does with it; the class `CheatcodeHandler`
    is the wrapper itself, each of its members specified by `Handle`. */
module Cheatcodes {
  import opened Wrappers
  import opened Primitives
  import opened Sputnik

  /** `CHEATCODE_ADDRESS`, the address 0x7109709ECfa91a80626fF3989D68f67F5b1DD12D: the
      one destination the handler intercepts. */
  const CHEATCODE_ADDRESS: Address := [0x71, 0x09, 0x70, 0x9E, 0xCF, 0xA9, 0x1A, 0x80, 0x62, 0x6F,
                                       0xF3, 0x98, 0x9D, 0x68, 0xF6, 0x7F, 0x5B, 0x1D, 0xD1, 0x2D]

  /** The block timestamp the one implemented cheat code installs. */
  const CHEAT_TIMESTAMP: U256 := 100

  /** The output of every cheat call: 32 bytes, each equal to 1. */
  const CHEAT_OUTPUT: Bytes := [1, 1, 1, 1, 1, 1, 1, 1, 1, 1, 1, 1, 1, 1, 1, 1,
                                1, 1, 1, 1, 1, 1, 1, 1, 1, 1, 1, 1, 1, 1, 1, 1]

  /** The capture every cheat call returns. */
  const CHEAT_CAPTURE: CallCapture := Exit((Succeed(Stopped), CHEAT_OUTPUT))

  /** One operation of the `Handler` interface, or `transact_call`, with its arguments. */
  datatype Op =
    | CallOp(args: CallArgs)
    | BalanceOp(address: Address)
    | CodeSizeOp(address: Address)
    | CodeHashOp(address: Address)
    | CodeOp(address: Address)
    | StorageOp(address: Address, index: H256)
    | OriginalStorageOp(address: Address, index: H256)
    | GasLeftOp
    | GasPriceOp
    | OriginOp
    | BlockHashOp(number: U256)
    | BlockNumberOp
    | BlockCoinbaseOp
    | BlockTimestampOp
    | BlockDifficultyOp
    | BlockGasLimitOp
    | ChainIdOp
    | ExistsOp(address: Address)
    | DeletedOp(address: Address)
    | IsColdOp(address: Address, slot: Option<H256>)
    | SetStorageOp(address: Address, index: H256, word: H256)
    | LogOp(address: Address, topics: seq<H256>, data: Bytes)
    | MarkDeleteOp(address: Address, target: Address)
    | CreateOp(caller: Address, scheme: CreateScheme, value: U256, initCode: Bytes, targetGas: Option<u64>)
    | PreValidateOp(context: Context, opcode: Opcode, stack: Stack)
    | TransactCallOp(caller: Address, address: Address, value: U256, data: Bytes, gasLimit: u64, accessList: AccessList)

  /** What an operation returns, one constructor per return type. */
  datatype Reply =
    | Word(word: U256)
    | Hash(hash: H256)
    | Addr(addr: Address)
    | Code(code: Bytes)
    | Flag(flag: bool)
    | Done(done: Unit)
    | Called(called: CallCapture)
    | Created(created: CreateCapture)
    | Transacted(transacted: (ExitReason, Bytes))

  /** The operations that the `Handler` interface takes by `&self`. */
  predicate IsQuery(op: Op) {
    || op.BalanceOp? || op.CodeSizeOp? || op.CodeHashOp? || op.CodeOp? || op.StorageOp?
    || op.OriginalStorageOp? || op.GasLeftOp? || op.GasPriceOp? || op.OriginOp? || op.BlockHashOp?
    || op.BlockNumberOp? || op.BlockCoinbaseOp? || op.BlockTimestampOp? || op.BlockDifficultyOp?
    || op.BlockGasLimitOp? || op.ChainIdOp? || op.ExistsOp? || op.DeletedOp? || op.IsColdOp?
  }

  /** A `Handler::call` addressed to the cheat address. */
  predicate IsCheatCall(op: Op): (b: bool)
    ensures b ==> op.CallOp? && !IsQuery(op)
    ensures op.TransactCallOp? ==> !b
  {
    op.CallOp? && op.args.codeAddress == CHEATCODE_ADDRESS
  }

  /** What the bare executor does with `op` in state `s`: the new state and the reply.
      Queries leave the state as it was. */
  function Serve<W>(ops: HandlerOps<W>, s: ExecutorState<W>, op: Op): (r: (ExecutorState<W>, Reply))
    ensures IsQuery(op) ==> r == (s, r.1)
  {
    match op
    case CallOp(args) => var res := ops.call(s, args); (res.0, Called(res.1))
    case BalanceOp(a) => (s, Word(ops.balance(s, a)))
    case CodeSizeOp(a) => (s, Word(ops.codeSize(s, a)))
    case CodeHashOp(a) => (s, Hash(ops.codeHash(s, a)))
    case CodeOp(a) => (s, Code(ops.code(s, a)))
    case StorageOp(a, i) => (s, Hash(ops.storage(s, a, i)))
    case OriginalStorageOp(a, i) => (s, Hash(ops.originalStorage(s, a, i)))
    case GasLeftOp => (s, Word(ops.gasLeft(s)))
    case GasPriceOp => (s, Word(ops.gasPrice(s)))
    case OriginOp => (s, Addr(ops.origin(s)))
    case BlockHashOp(n) => (s, Hash(ops.blockHash(s, n)))
    case BlockNumberOp => (s, Word(ops.blockNumber(s)))
    case BlockCoinbaseOp => (s, Addr(ops.blockCoinbase(s)))
    case BlockTimestampOp => (s, Word(ops.blockTimestamp(s)))
    case BlockDifficultyOp => (s, Word(ops.blockDifficulty(s)))
    case BlockGasLimitOp => (s, Word(ops.blockGasLimit(s)))
    case ChainIdOp => (s, Word(ops.chainId(s)))
    case ExistsOp(a) => (s, Flag(ops.accountExists(s, a)))
    case DeletedOp(a) => (s, Flag(ops.deleted(s, a)))
    case IsColdOp(a, i) => (s, Flag(ops.isCold(s, a, i)))
    case SetStorageOp(a, i, w) => var res := ops.setStorage(s, a, i, w); (res.0, Done(res.1))
    case LogOp(a, t, d) => var res := ops.log(s, a, t, d); (res.0, Done(res.1))
    case MarkDeleteOp(a, t) => var res := ops.markDelete(s, a, t); (res.0, Done(res.1))
    case CreateOp(c, sc, v, code, g) => var res := ops.create(s, c, sc, v, code, g); (res.0, Created(res.1))
    case PreValidateOp(ctx, o, st) => var res := ops.preValidate(s, ctx, o, st); (res.0, Done(res.1))
    case TransactCallOp(c, a, v, d, g, al) => var res := ops.transactCall(s, c, a, v, d, g, al); (res.0, Transacted(res.1))
  }

  /** The state `apply_cheatcode` leaves: the cheat record's block timestamp set to 100,
      nothing else changed. */
  function CheatEffect<W>(s: ExecutorState<W>): (s': ExecutorState<W>)
    ensures s'.cheats.blockTimestamp == Some(CHEAT_TIMESTAMP)
    ensures s'.rest == s.rest
  {
    s.(cheats := s.cheats.(blockTimestamp := Some(CHEAT_TIMESTAMP)))
  }

  /** Applying the cheat effect a second time changes nothing. */
  lemma CheatEffectIdempotent<W>(s: ExecutorState<W>)
    ensures CheatEffect(CheatEffect(s)) == CheatEffect(s)
  {
  }

  /** What the wrapper does with `op`: a cheat call applies the cheat effect and returns
      the fixed capture; every other operation, `transact_call` to the cheat address
      included, is served by the wrapped executor exactly as it would serve it alone. */
  function Handle<W>(ops: HandlerOps<W>, s: ExecutorState<W>, op: Op): (r: (ExecutorState<W>, Reply))
    ensures IsCheatCall(op) ==> r == (CheatEffect(s), Called(CHEAT_CAPTURE))
    ensures !IsCheatCall(op) ==> r == Serve(ops, s, op)
  {
    if IsCheatCall(op) then (CheatEffect(s), Called(CHEAT_CAPTURE)) else Serve(ops, s, op)
  }

  /** A cheat call's outcome does not depend on the wrapped executor at all: replacing
      its `call` (or anything else) by any other behaviour gives the same outcome, so
      the wrapped `call` is never reached. */
  lemma CheatCallBypassesInner<W>(ops: HandlerOps<W>, other: HandlerOps<W>, s: ExecutorState<W>, op: Op)
    requires IsCheatCall(op)
    ensures Handle(ops, s, op) == Handle(other, s, op)
  {
  }

  /** A call to any other address reaches the wrapped `call` with the very same
      arguments, and its result comes back unmodified. */
  lemma OtherCallForwarded<W>(ops: HandlerOps<W>, s: ExecutorState<W>, args: CallArgs)
    requires args.codeAddress != CHEATCODE_ADDRESS
    ensures Handle(ops, s, CallOp(args)) == (ops.call(s, args).0, Called(ops.call(s, args).1))
  {
  }

  /** The bare executor run on a sequence of operations: the final state and one reply
      per operation. */
  function RunBare<W>(ops: HandlerOps<W>, s: ExecutorState<W>, trace: seq<Op>): (r: (ExecutorState<W>, seq<Reply>))
    decreases |trace|
    ensures |r.1| == |trace|
  {
    if trace == [] then (s, [])
    else
      var first := Serve(ops, s, trace[0]);
      var rest := RunBare(ops, first.0, trace[1..]);
      (rest.0, [first.1] + rest.1)
  }

  /** The wrapper run on a sequence of operations. */
  function RunWrapped<W>(ops: HandlerOps<W>, s: ExecutorState<W>, trace: seq<Op>): (r: (ExecutorState<W>, seq<Reply>))
    decreases |trace|
    ensures |r.1| == |trace|
  {
    if trace == [] then (s, [])
    else
      var first := Handle(ops, s, trace[0]);
      var rest := RunWrapped(ops, first.0, trace[1..]);
      (rest.0, [first.1] + rest.1)
  }

  /** Transparency: on any sequence of operations without a cheat call, the wrapper and
      the bare executor give the same replies and end in the same state. */
  lemma {:induction false} WrapperIsTransparent<W>(ops: HandlerOps<W>, s: ExecutorState<W>, trace: seq<Op>)
    requires forall i :: 0 <= i < |trace| ==> !IsCheatCall(trace[i])
    ensures RunWrapped(ops, s, trace) == RunBare(ops, s, trace)
    decreases |trace|
  {
    if trace != [] {
      WrapperIsTransparent(ops, Serve(ops, s, trace[0]).0, trace[1..]);
    }
  }

  /** Any number of cheat calls in a row: the wrapped executor is never consulted, every
      reply is the fixed capture, and the state is the one a single cheat call leaves. */
  lemma {:induction false} CheatCallsOnly<W>(ops: HandlerOps<W>, s: ExecutorState<W>, trace: seq<Op>)
    requires forall i :: 0 <= i < |trace| ==> IsCheatCall(trace[i])
    ensures RunWrapped(ops, s, trace).0 == if trace == [] then s else CheatEffect(s)
    ensures forall i :: 0 <= i < |trace| ==> RunWrapped(ops, s, trace).1[i] == Called(CHEAT_CAPTURE)
    decreases |trace|
  {
    if trace != [] {
      var rest := trace[1..];
      assert forall i :: 0 <= i < |rest| ==> rest[i] == trace[i + 1];
      CheatCallsOnly(ops, CheatEffect(s), rest);
      CheatEffectIdempotent(s);
      var tail := RunWrapped(ops, CheatEffect(s), rest);
      assert Handle(ops, s, trace[0]) == (CheatEffect(s), Called(CHEAT_CAPTURE));
      assert RunWrapped(ops, s, trace) == (tail.0, [Called(CHEAT_CAPTURE)] + tail.1);
    }
  }

  /** The handler: it owns the wrapped executor, whose behaviour is `ops` and whose
      current state is `state`. */
  class CheatcodeHandler<W> {
    const ops: HandlerOps<W>
    var state: ExecutorState<W>

    constructor (ops: HandlerOps<W>, state: ExecutorState<W>)
      ensures this.ops == ops && this.state == state
    {
      this.ops := ops;
      this.state := state;
    }

    /** `transact_call`: handed to the wrapped executor with identical arguments. */
    method TransactCall(caller: Address, address: Address, value: U256, data: Bytes,
                        gasLimit: u64, accessList: AccessList) returns (r: (ExitReason, Bytes))
      modifies this
      ensures (state, Transacted(r)) == Handle(ops, old(state), TransactCallOp(caller, address, value, data, gasLimit, accessList))
      ensures (state, r) == ops.transactCall(old(state), caller, address, value, data, gasLimit, accessList)
    {
      var (next, result) := ops.transactCall(state, caller, address, value, data, gasLimit, accessList);
      state, r := next, result;
    }

    /** `apply_cheatcode`: writes the block timestamp override into the executor's
        cheat record in place and returns the fixed capture, whatever the input. */
    method ApplyCheatcode(input: Bytes) returns (r: CallCapture)
      modifies this
      ensures state == CheatEffect(old(state))
      ensures r == CHEAT_CAPTURE
    {
      state := state.(cheats := state.cheats.(blockTimestamp := Some(CHEAT_TIMESTAMP)));
      r := Exit((Succeed(Stopped), CHEAT_OUTPUT));
    }

    /** `Handler::call`: the one intercepted operation. */
    method Call(codeAddress: Address, transfer: Option<Transfer>, input: Bytes,
                targetGas: Option<u64>, isStatic: bool, context: Context) returns (r: CallCapture)
      modifies this
      ensures (state, Called(r)) == Handle(ops, old(state), CallOp(CallArgs(codeAddress, transfer, input, targetGas, isStatic, context)))
      ensures codeAddress == CHEATCODE_ADDRESS ==> state == CheatEffect(old(state)) && r == CHEAT_CAPTURE
      ensures codeAddress != CHEATCODE_ADDRESS ==>
        (state, r) == ops.call(old(state), CallArgs(codeAddress, transfer, input, targetGas, isStatic, context))
    {
      if codeAddress == CHEATCODE_ADDRESS {
        r := ApplyCheatcode(input);
      } else {
        var (next, result) := ops.call(state, CallArgs(codeAddress, transfer, input, targetGas, isStatic, context));
        state, r := next, result;
      }
    }

    function Balance(address: Address): (r: U256)
      reads this
      ensures Handle(ops, state, BalanceOp(address)) == (state, Word(r))
    {
      ops.balance(state, address)
    }

    function CodeSize(address: Address): (r: U256)
      reads this
      ensures Handle(ops, state, CodeSizeOp(address)) == (state, Word(r))
    {
      ops.codeSize(state, address)
    }

    function CodeHash(address: Address): (r: H256)
      reads this
      ensures Handle(ops, state, CodeHashOp(address)) == (state, Hash(r))
    {
      ops.codeHash(state, address)
    }

    function Code(address: Address): (r: Bytes)
      reads this
      ensures Handle(ops, state, CodeOp(address)) == (state, Reply.Code(r))
    {
      ops.code(state, address)
    }

    function Storage(address: Address, index: H256): (r: H256)
      reads this
      ensures Handle(ops, state, StorageOp(address, index)) == (state, Hash(r))
    {
      ops.storage(state, address, index)
    }

    function OriginalStorage(address: Address, index: H256): (r: H256)
      reads this
      ensures Handle(ops, state, OriginalStorageOp(address, index)) == (state, Hash(r))
    {
      ops.originalStorage(state, address, index)
    }

    function GasLeft(): (r: U256)
      reads this
      ensures Handle(ops, state, GasLeftOp) == (state, Word(r))
    {
      ops.gasLeft(state)
    }

    function GasPrice(): (r: U256)
      reads this
      ensures Handle(ops, state, GasPriceOp) == (state, Word(r))
    {
      ops.gasPrice(state)
    }

    function Origin(): (r: Address)
      reads this
      ensures Handle(ops, state, OriginOp) == (state, Addr(r))
    {
      ops.origin(state)
    }

    function BlockHash(number: U256): (r: H256)
      reads this
      ensures Handle(ops, state, BlockHashOp(number)) == (state, Hash(r))
    {
      ops.blockHash(state, number)
    }

    function BlockNumber(): (r: U256)
      reads this
      ensures Handle(ops, state, BlockNumberOp) == (state, Word(r))
    {
      ops.blockNumber(state)
    }

    function BlockCoinbase(): (r: Address)
      reads this
      ensures Handle(ops, state, BlockCoinbaseOp) == (state, Addr(r))
    {
      ops.blockCoinbase(state)
    }

    function BlockTimestamp(): (r: U256)
      reads this
      ensures Handle(ops, state, BlockTimestampOp) == (state, Word(r))
    {
      ops.blockTimestamp(state)
    }

    function BlockDifficulty(): (r: U256)
      reads this
      ensures Handle(ops, state, BlockDifficultyOp) == (state, Word(r))
    {
      ops.blockDifficulty(state)
    }

    function BlockGasLimit(): (r: U256)
      reads this
      ensures Handle(ops, state, BlockGasLimitOp) == (state, Word(r))
    {
      ops.blockGasLimit(state)
    }

    function ChainId(): (r: U256)
      reads this
      ensures Handle(ops, state, ChainIdOp) == (state, Word(r))
    {
      ops.chainId(state)
    }

    function Exists(address: Address): (r: bool)
      reads this
      ensures Handle(ops, state, ExistsOp(address)) == (state, Flag(r))
    {
      ops.accountExists(state, address)
    }

    function Deleted(address: Address): (r: bool)
      reads this
      ensures Handle(ops, state, DeletedOp(address)) == (state, Flag(r))
    {
      ops.deleted(state, address)
    }

    function IsCold(address: Address, index: Option<H256>): (r: bool)
      reads this
      ensures Handle(ops, state, IsColdOp(address, index)) == (state, Flag(r))
    {
      ops.isCold(state, address, index)
    }

    method SetStorage(address: Address, index: H256, value: H256) returns (r: Unit)
      modifies this
      ensures (state, Done(r)) == Handle(ops, old(state), SetStorageOp(address, index, value))
    {
      var (next, result) := ops.setStorage(state, address, index, value);
      state, r := next, result;
    }

    method Log(address: Address, topics: seq<H256>, data: Bytes) returns (r: Unit)
      modifies this
      ensures (state, Done(r)) == Handle(ops, old(state), LogOp(address, topics, data))
    {
      var (next, result) := ops.log(state, address, topics, data);
      state, r := next, result;
    }

    method MarkDelete(address: Address, target: Address) returns (r: Unit)
      modifies this
      ensures (state, Done(r)) == Handle(ops, old(state), MarkDeleteOp(address, target))
    {
      var (next, result) := ops.markDelete(state, address, target);
      state, r := next, result;
    }

    method Create(caller: Address, scheme: CreateScheme, value: U256, initCode: Bytes,
                  targetGas: Option<u64>) returns (r: CreateCapture)
      modifies this
      ensures (state, Created(r)) == Handle(ops, old(state), CreateOp(caller, scheme, value, initCode, targetGas))
    {
      var (next, result) := ops.create(state, caller, scheme, value, initCode, targetGas);
      state, r := next, result;
    }

    method PreValidate(context: Context, opcode: Opcode, stack: Stack) returns (r: Unit)
      modifies this
      ensures (state, Done(r)) == Handle(ops, old(state), PreValidateOp(context, opcode, stack))
    {
      var (next, result) := ops.preValidate(state, context, opcode, stack);
      state, r := next, result;
    }
  }
}
