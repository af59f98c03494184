/** The evmodin adapter: the `Evm` operations over an evmodin engine bound to a mocked
    host, and the host's code-storage extension (`HostExt`). */
module EvmOdin {
  import opened Wrappers
  import opened Primitives
  import opened EvmodinTypes

  /** The account `set_code` installs: nonce 0, balance 0, empty storage, the given
      code and its hash. */
  function FreshAccount(code: Bytes, hash: H256): (acc: Account)
    ensures acc.nonce == 0 && acc.balance == 0 && acc.storage == map[]
    ensures acc.code == code && acc.codeHash == hash
  {
    Account(0, 0, code, hash, map[])
  }

  /** The accounts after installing `contracts`, one after the other, on `accounts`. */
  function Installed(accounts: map<Address, Account>, contracts: seq<(Address, Bytes)>,
                     keccak256: Bytes -> H256): (r: map<Address, Account>)
    decreases |contracts|
    ensures r.Keys == accounts.Keys + set i | 0 <= i < |contracts| :: contracts[i].0
  {
    if contracts == [] then accounts
    else
      var last := contracts[|contracts| - 1];
      Installed(accounts, contracts[..|contracts| - 1], keccak256)[last.0 := FreshAccount(last.1, keccak256(last.1))]
  }

  /** The position of the last entry of `contracts` for `address`, or -1 if none. */
  function LastEntry(contracts: seq<(Address, Bytes)>, address: Address): (k: int)
    decreases |contracts|
    ensures -1 <= k < |contracts|
    ensures k >= 0 ==> contracts[k].0 == address
    ensures forall j :: k < j < |contracts| ==> contracts[j].0 != address
  {
    if contracts == [] then -1
    else if contracts[|contracts| - 1].0 == address then |contracts| - 1
    else LastEntry(contracts[..|contracts| - 1], address)
  }

  /** `initialize_contracts` lets the last entry for an address win: that address then
      holds a fresh account with that entry's code; an address without an entry keeps
      what it had, or stays absent. */
  lemma {:induction false} InstalledLastWins(accounts: map<Address, Account>, contracts: seq<(Address, Bytes)>,
                                             keccak256: Bytes -> H256, address: Address)
    ensures var k := LastEntry(contracts, address);
      k >= 0 ==> address in Installed(accounts, contracts, keccak256) &&
                 Installed(accounts, contracts, keccak256)[address] ==
                   FreshAccount(contracts[k].1, keccak256(contracts[k].1))
    ensures LastEntry(contracts, address) == -1 ==>
      (address in Installed(accounts, contracts, keccak256) <==> address in accounts) &&
      (address in accounts ==> Installed(accounts, contracts, keccak256)[address] == accounts[address])
    decreases |contracts|
  {
    if contracts != [] {
      InstalledLastWins(accounts, contracts[..|contracts| - 1], keccak256, address);
    }
  }

  /** The host's `is_static` rule: the deprecated `constant` flag, or a view or pure
      function. */
  predicate IsStaticCall(func: Function): (b: bool)
    ensures func.stateMutability == View || func.stateMutability == Pure ==> b
    ensures func.stateMutability == NonPayable || func.stateMutability == Payable ==> (b <==> func.constant)
  {
    func.constant || func.stateMutability == View || func.stateMutability == Pure
  }

  /** The message `call` builds for the engine. */
  function BuildMessage(from: Address, to: Address, func: Function, calldata: Bytes, value: U256,
                        callKind: Option<CallKind>, gasLimit: u64): (m: Message)
    ensures m.sender == from && m.destination == to && m.depth == 0
    ensures m.inputData == calldata && m.value == value
    ensures callKind.Some? ==> m.kind == callKind.value
    ensures callKind.None? ==> m.kind == Call
    ensures gasLimit < TWO_63 ==> m.gas == gasLimit
    ensures gasLimit >= TWO_63 ==> m.gas == gasLimit - TWO_64
    ensures m.isStatic <==> func.constant || func.stateMutability in {View, Pure}
  {
    Message(
      kind := if callKind.Some? then callKind.value else Call,
      isStatic := IsStaticCall(func),
      depth := 0,
      gas := AsI64(gasLimit),
      destination := to,
      sender := from,
      inputData := calldata,
      value := value)
  }

  /** `check_success`. `failed` is the outcome of the `failed()` probe on the tested
      address; it is consulted only for an expected failure that did not revert. */
  function CheckSuccess(result: StatusCode, shouldFail: bool, failed: Result<bool, string>): (passed: bool)
    ensures !shouldFail ==> (passed <==> result == Success)
    ensures shouldFail ==> (passed <==> result == Revert || (result == Success && failed == Ok(true)))
  {
    if shouldFail then
      match result
      case Revert => true
      case Success => if failed.Ok? then failed.value else false
      case _ => false
    else
      result.Success?
  }

  datatype CallError = Abi(cause: AbiError) | MissingCode

  /** What `call` does, as a function of the host's accounts before it: the accounts
      after it and its result. */
  function CallOutcome<T, D>(accounts: map<Address, Account>, gasLimit: u64, callKind: Option<CallKind>,
                             revision: Revision, from: Address, to: Address, func: Function, args: T,
                             value: U256, codec: Codec<T, D>, engine: Engine)
    : (out: (map<Address, Account>, Result<(D, StatusCode, u64), CallError>))
    // an encoding error comes first and changes nothing
    ensures codec.encode(func, args).Err? ==> out == (accounts, Err(Abi(codec.encode(func, args).error)))
    // an address without code fails before the engine runs, and changes nothing
    ensures codec.encode(func, args).Ok? && to !in accounts ==> out == (accounts, Err(MissingCode))
    // otherwise the engine runs the destination's code on the built message
    ensures codec.encode(func, args).Ok? && to in accounts ==>
      var run := engine.execute(accounts[to].code, accounts,
                                BuildMessage(from, to, func, codec.encode(func, args).value, value, callKind, gasLimit),
                                revision);
      && out.0 == run.0
      && (codec.decode(func, run.1.outputData).Err? ==> out.1 == Err(Abi(codec.decode(func, run.1.outputData).error)))
      && (codec.decode(func, run.1.outputData).Ok? ==>
            out.1 == Ok((codec.decode(func, run.1.outputData).value, run.1.statusCode, 0)))
  {
    match codec.encode(func, args)
    case Err(e) => (accounts, Err(Abi(e)))
    case Ok(calldata) =>
      var message := BuildMessage(from, to, func, calldata, value, callKind, gasLimit);
      if to !in accounts then (accounts, Err(MissingCode))
      else
        var run := engine.execute(accounts[to].code, accounts, message, revision);
        match codec.decode(func, run.1.outputData)
        case Err(e) => (run.0, Err(Abi(e)))
        case Ok(retdata) => (run.0, Ok((retdata, run.1.statusCode, 0)))
  }

  /** A call to an address without code never reaches the engine: its outcome is the
      same whatever engine is plugged in. */
  lemma MissingCodeIgnoresEngine<T, D>(accounts: map<Address, Account>, gasLimit: u64, callKind: Option<CallKind>,
                                       revision: Revision, from: Address, to: Address, func: Function, args: T,
                                       value: U256, codec: Codec<T, D>, engine: Engine, other: Engine)
    requires to !in accounts
    ensures CallOutcome(accounts, gasLimit, callKind, revision, from, to, func, args, value, codec, engine)
         == CallOutcome(accounts, gasLimit, callKind, revision, from, to, func, args, value, codec, other)
    ensures CallOutcome(accounts, gasLimit, callKind, revision, from, to, func, args, value, codec, engine).1.Err?
  {
  }

  /** The mocked host with the `HostExt` extension. Only its accounts are modelled;
      `keccak256` is the hash it stores beside installed code. */
  class MockedHost {
    var accounts: map<Address, Account>
    const keccak256: Bytes -> H256

    /** `MockedHost::default()`: no accounts. */
    constructor (keccak256: Bytes -> H256)
      ensures accounts == map[] && this.keccak256 == keccak256
    {
      accounts := map[];
      this.keccak256 := keccak256;
    }

    /** `get_code`: the code of the account at `address`, or `None` when there is no
        account there. */
    function GetCode(address: Address): (r: Option<Bytes>)
      reads this
      ensures r.None? <==> address !in accounts
      ensures r.Some? ==> r.value == accounts[address].code
    {
      if address in accounts then Some(accounts[address].code) else None
    }

    /** `set_code`: installs a fresh account holding `bytecode` at `address`, replacing
        whatever account was there; other addresses are untouched. */
    method SetCode(address: Address, bytecode: Bytes)
      modifies this
      ensures accounts == old(accounts)[address := FreshAccount(bytecode, keccak256(bytecode))]
      ensures GetCode(address) == Some(bytecode)
      ensures accounts[address].nonce == 0 && accounts[address].balance == 0
      ensures accounts[address].storage == map[] && accounts[address].codeHash == keccak256(bytecode)
      ensures forall b :: b != address ==> (b in accounts <==> b in old(accounts))
      ensures forall b :: b != address && b in accounts ==> accounts[b] == old(accounts)[b]
    {
      var hash := keccak256(bytecode);
      accounts := accounts[address := Account(0, 0, bytecode, hash, map[])];
    }
  }

  /** The adapter: an engine configuration bound to a host it owns. */
  class EvmOdin {
    var host: MockedHost
    var gasLimit: u64
    var callKind: Option<CallKind>
    var revision: Revision

    /** `EvmOdin::new`: no call kind is chosen, so calls default to `Call`. */
    constructor (host: MockedHost, gasLimit: u64, revision: Revision)
      ensures this.host == host && this.gasLimit == gasLimit && this.revision == revision
      ensures callKind == None
    {
      this.host := host;
      this.gasLimit := gasLimit;
      this.revision := revision;
      callKind := None;
    }

    /** `reset`: the whole host is replaced; nothing of the old one remains. */
    method Reset(state: MockedHost)
      modifies this
      ensures host == state && InitState() == state
      ensures gasLimit == old(gasLimit) && callKind == old(callKind) && revision == old(revision)
    {
      host := state;
    }

    /** `init_state`: the host the adapter currently owns. */
    function InitState(): (r: MockedHost)
      reads this
      ensures r == host
    {
      host
    }

    /** `initialize_contracts`: `set_code` for each entry, in order. */
    method InitializeContracts(contracts: seq<(Address, Bytes)>)
      modifies host
      ensures host.accounts == Installed(old(host.accounts), contracts, host.keccak256)
    {
      for i := 0 to |contracts|
        invariant host.accounts == Installed(old(host.accounts), contracts[..i], host.keccak256)
      {
        assert contracts[..i + 1][..i] == contracts[..i];
        host.SetCode(contracts[i].0, contracts[i].1);
      }
      assert contracts[..|contracts|] == contracts;
    }

    /** `call`: encode, build the message, fetch the destination's code, run the engine,
        decode. The gas figure is always 0. */
    method Call<T, D>(from: Address, to: Address, func: Function, args: T, value: U256,
                      codec: Codec<T, D>, engine: Engine)
      returns (r: Result<(D, StatusCode, u64), CallError>)
      modifies host
      ensures (host.accounts, r) ==
        CallOutcome(old(host.accounts), gasLimit, callKind, revision, from, to, func, args, value, codec, engine)
    {
      var encoded := codec.encode(func, args);
      if encoded.Err? {
        return Err(Abi(encoded.error));
      }
      var message := BuildMessage(from, to, func, encoded.value, value, callKind, gasLimit);
      var bytecode := host.GetCode(to);
      if bytecode.None? {
        return Err(MissingCode);
      }
      var (accounts, output) := engine.execute(bytecode.value, host.accounts, message, revision);
      host.accounts := accounts;
      var retdata := codec.decode(func, output.outputData);
      if retdata.Err? {
        return Err(Abi(retdata.error));
      }
      var gas: u64 := 0;
      r := Ok((retdata.value, output.statusCode, gas));
    }
  }
}
