/** The interface of the wrapped sputnik executor, as far as the cheat-code handler
    sees it. The executor itself (its interpreter, gas metering, substate journal and
    native backend) is foreign: its behaviour enters the model as the functions of a
    `HandlerOps` record, applied to the executor's state. */
module Sputnik {
  import opened Wrappers
  import opened Primitives

  datatype ExitSucceed = Stopped | Returned | Suicided

  datatype ExitError =
    | StackUnderflow | StackOverflow | InvalidJump | InvalidRange | DesignatedInvalid
    | CallTooDeep | CreateCollision | CreateContractLimit | OutOfOffset | OutOfGas
    | OutOfFund | PCUnderflow | CreateEmpty | Other(message: string)

  datatype ExitRevert = Reverted

  datatype ExitFatal =
    | NotSupported | UnhandledInterrupt | CallErrorAsFatal(cause: ExitError) | FatalOther(text: string)

  datatype ExitReason =
    | Succeed(succeed: ExitSucceed)
    | Error(error: ExitError)
    | Revert(revert: ExitRevert)
    | Fatal(fatal: ExitFatal)

  /** `Capture<E, Infallible>`: the trap arm has an uninhabited payload, so only `Exit` remains. */
  datatype Capture<+E> = Exit(exit: E)

  datatype Transfer = Transfer(source: Address, target: Address, amount: U256)

  datatype Context = Context(address: Address, caller: Address, apparentValue: U256)

  datatype CreateScheme =
    | Legacy(creator: Address)
    | Create2(deployer: Address, codeHash: H256, salt: H256)
    | Fixed(fixedAddress: Address)

  datatype Opcode = Opcode(code: byte)

  type Stack = seq<H256>

  type AccessList = seq<(Address, seq<H256>)>

  /** The arguments of `Handler::call`. */
  datatype CallArgs = CallArgs(
    codeAddress: Address,
    transfer: Option<Transfer>,
    input: Bytes,
    targetGas: Option<u64>,
    isStatic: bool,
    context: Context)

  /** The cheat record of the cheat-enabled backend. Only the field that the handler
      writes is modelled. */
  datatype Cheatcodes = Cheatcodes(blockTimestamp: Option<U256>)

  /** The state owned by the wrapped executor: the cheat record inside its backend,
      and everything else (`rest`: substate, native backend, metadata), which the
      handler never touches. */
  datatype ExecutorState<W> = ExecutorState(cheats: Cheatcodes, rest: W)

  type CallCapture = Capture<(ExitReason, Bytes)>
  type CreateCapture = Capture<(ExitReason, Option<Address>, Bytes)>
  type Unit = Result<(), ExitError>

  /** What the wrapped executor does for each operation of sputnik's `Handler`
      interface and for `transact_call`, given its current state. Queries read the
      state; the other operations return the new state beside their result. */
  datatype HandlerOps<!W> = HandlerOps(
    call: (ExecutorState<W>, CallArgs) -> (ExecutorState<W>, CallCapture),
    balance: (ExecutorState<W>, Address) -> U256,
    codeSize: (ExecutorState<W>, Address) -> U256,
    codeHash: (ExecutorState<W>, Address) -> H256,
    code: (ExecutorState<W>, Address) -> Bytes,
    storage: (ExecutorState<W>, Address, H256) -> H256,
    originalStorage: (ExecutorState<W>, Address, H256) -> H256,
    gasLeft: ExecutorState<W> -> U256,
    gasPrice: ExecutorState<W> -> U256,
    origin: ExecutorState<W> -> Address,
    blockHash: (ExecutorState<W>, U256) -> H256,
    blockNumber: ExecutorState<W> -> U256,
    blockCoinbase: ExecutorState<W> -> Address,
    blockTimestamp: ExecutorState<W> -> U256,
    blockDifficulty: ExecutorState<W> -> U256,
    blockGasLimit: ExecutorState<W> -> U256,
    chainId: ExecutorState<W> -> U256,
    accountExists: (ExecutorState<W>, Address) -> bool,
    deleted: (ExecutorState<W>, Address) -> bool,
    isCold: (ExecutorState<W>, Address, Option<H256>) -> bool,
    setStorage: (ExecutorState<W>, Address, H256, H256) -> (ExecutorState<W>, Unit),
    log: (ExecutorState<W>, Address, seq<H256>, Bytes) -> (ExecutorState<W>, Unit),
    markDelete: (ExecutorState<W>, Address, Address) -> (ExecutorState<W>, Unit),
    create: (ExecutorState<W>, Address, CreateScheme, U256, Bytes, Option<u64>) -> (ExecutorState<W>, CreateCapture),
    preValidate: (ExecutorState<W>, Context, Opcode, Stack) -> (ExecutorState<W>, Unit),
    transactCall: (ExecutorState<W>, Address, Address, U256, Bytes, u64, AccessList) -> (ExecutorState<W>, (ExitReason, Bytes)))
}
