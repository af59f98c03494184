/** The types of the evmodin engine and of ethers' ABI description that the adapter
    handles. Both crates are foreign; only their shapes are modelled. */
module EvmodinTypes {
  import opened Wrappers
  import opened Primitives

  datatype Revision =
    | Frontier | Homestead | Tangerine | Spurious | Byzantium | Constantinople
    | Petersburg | Istanbul | Berlin | London | Shanghai

  datatype CallKind = Call | DelegateCall | CallCode | Create | Create2(salt: U256)

  datatype StatusCode =
    | Success | Failure | Revert | OutOfGas | InvalidInstruction | UndefinedInstruction
    | StackOverflow | StackUnderflow | BadJumpDestination | InvalidMemoryAccess
    | CallDepthExceeded | StaticModeViolation | PrecompileFailure | ContractValidationFailure
    | ArgumentOutOfRange | InsufficientBalance | InternalError(message: string)

  /** The execution message handed to the engine. */
  datatype Message = Message(
    kind: CallKind,
    isStatic: bool,
    depth: int,
    gas: i64,
    destination: Address,
    sender: Address,
    inputData: Bytes,
    value: U256)

  /** What the engine reports back. */
  datatype Output = Output(statusCode: StatusCode, gasLeft: i64, outputData: Bytes, createAddress: Option<Address>)

  /** An account of the mocked host. */
  datatype Account = Account(nonce: u64, balance: U256, code: Bytes, codeHash: H256, storage: map<H256, H256>)

  datatype StateMutability = Pure | View | NonPayable | Payable

  datatype Param = Param(name: string, kind: string)

  /** An ABI function description; `constant` is the deprecated flag older ABIs carry. */
  datatype Function = Function(
    name: string,
    inputs: seq<Param>,
    outputs: seq<Param>,
    constant: bool,
    stateMutability: StateMutability)

  datatype AbiError = AbiError(message: string)

  /** The ABI codec: encoding the arguments of a call, decoding its return data. Both
      can fail. */
  datatype Codec<!T, !D> = Codec(
    encode: (Function, T) -> Result<Bytes, AbiError>,
    decode: (Function, Bytes) -> Result<D, AbiError>)

  /** The bytecode engine: analyses and runs `code` against the host's accounts. */
  datatype Engine = Engine(
    execute: (Bytes, map<Address, Account>, Message, Revision) -> (map<Address, Account>, Output))
}
