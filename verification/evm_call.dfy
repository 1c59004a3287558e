/** What the emitted `call` and `create` do before handing over to the EVM
    runner: choose the configuration, bound the gas limit, build the
    transaction descriptor that prices the call, and assemble the runner's
    arguments. The runner, the pricing function and the chain id come from the
    runtime and are parameters here. */
module EvmCall {
  import opened Wrappers

  const U64_MAX: nat := 0xFFFF_FFFF_FFFF_FFFF
  const U256_LIMIT: nat := 0x1_0000_0000_0000_0000_0000_0000_0000_0000_0000_0000_0000_0000_0000_0000_0000_0000

  type U64 = x: nat | x <= U64_MAX
  type U256 = x: nat | x < U256_LIMIT

  type Bytes = seq<bv8>
  /** A 20-byte account address. */
  type H160 = s: seq<bv8> | |s| == 20 witness seq(20, _ => 0)
  /** A 32-byte storage key. */
  type H256 = s: seq<bv8> | |s| == 32 witness seq(32, _ => 0)
  type AccessList = seq<(H160, seq<H256>)>

  /** The EVM configuration: the estimate flag, and every other setting kept
      opaque. */
  datatype EvmConfig = EvmConfig(estimate: bool, otherSettings: string)

  /** The arguments `call` and `create` share; `create` has no recipient. */
  datatype Request = Request(
    from: H160,
    data: Bytes,
    value: U256,
    gasLimit: U256,
    maxFeePerGas: Option<U256>,
    maxPriorityFeePerGas: Option<U256>,
    nonce: Option<U256>,
    estimate: bool,
    accessList: Option<AccessList>)

  datatype Action = CallTo(to: H160) | CreateContract

  /** The transaction descriptor (`TransactionData::new`) used only to price the call. */
  datatype TransactionData = TransactionData(
    action: Action,
    input: Bytes,
    nonce: U256,
    gasLimit: U256,
    gasPrice: Option<U256>,
    maxFeePerGas: Option<U256>,
    maxPriorityFeePerGas: Option<U256>,
    value: U256,
    chainId: Option<U64>,
    accessList: AccessList)

  /** What `transaction_weight` returns for a descriptor. */
  datatype Weights = Weights(weightLimit: Option<nat>, proofSizeBaseCost: Option<nat>)

  /** The arguments passed to `Runner::call` (with a recipient) or
      `Runner::create` (without one). */
  datatype RunnerArgs = RunnerArgs(
    from: H160,
    to: Option<H160>,
    data: Bytes,
    value: U256,
    gasLimit: U64,
    maxFeePerGas: Option<U256>,
    maxPriorityFeePerGas: Option<U256>,
    nonce: Option<U256>,
    accessList: AccessList,
    isTransactional: bool,
    validate: bool,
    weightLimit: Option<nat>,
    proofSizeBaseCost: Option<nat>,
    config: EvmConfig)

  datatype Prepared = Prepared(transaction: TransactionData, runner: RunnerArgs)

  /** The `config` binding: a copy of the runtime's configuration with
      `estimate` set when an estimate is asked for, nothing otherwise. */
  function EstimateConfig(estimate: bool, base: EvmConfig): (r: Option<EvmConfig>)
    ensures r.Some? <==> estimate
    ensures r.Some? ==> r.value.estimate && r.value.otherSettings == base.otherSettings
  {
    if estimate then Some(base.(estimate := true)) else None
  }

  /** A 256-bit value narrowed to 64 bits, saturating instead of wrapping:
      both `gas_limit.min(u64::MAX.into())` and `unique_saturated_into()`. */
  function SaturateU64(x: U256): (r: U64)
    ensures r <= x
    ensures x <= U64_MAX ==> r == x
    ensures x > U64_MAX ==> r == U64_MAX
  {
    if x <= U64_MAX then x else U64_MAX
  }

  /** The descriptor and runner arguments shared by `call` and `create`, for a
      descriptor gas limit `txGas`. */
  function Prepare(action: Action, req: Request, txGas: U256, chainId: U64, base: EvmConfig,
                   weigh: TransactionData -> Weights): Prepared
  {
    var tx := TransactionData(
      action, req.data, req.nonce.GetOr(0), txGas, None,
      req.maxFeePerGas, req.maxPriorityFeePerGas, req.value, Some(chainId), req.accessList.GetOr([]));
    var w := weigh(tx);
    var config := EstimateConfig(req.estimate, base);
    Prepared(tx, RunnerArgs(
      req.from, if action.CallTo? then Some(action.to) else None, req.data, req.value, SaturateU64(txGas),
      req.maxFeePerGas, req.maxPriorityFeePerGas, req.nonce, req.accessList.GetOr([]),
      false, true, w.weightLimit, w.proofSizeBaseCost, config.GetOr(base)))
  }

  /** Properties `call` and `create` share. */
  ghost predicate SharedArguments(req: Request, p: Prepared, chainId: U64, base: EvmConfig, weigh: TransactionData -> Weights) {
    // an absent nonce is zero in the descriptor but stays absent for the runner
    && p.transaction.nonce == (if req.nonce.Some? then req.nonce.value else 0)
    && p.runner.nonce == req.nonce
    // fee caps are passed through unset, never defaulted
    && p.transaction.gasPrice.None?
    && p.transaction.maxFeePerGas == p.runner.maxFeePerGas == req.maxFeePerGas
    && p.transaction.maxPriorityFeePerGas == p.runner.maxPriorityFeePerGas == req.maxPriorityFeePerGas
    && p.transaction.chainId == Some(chainId)
    && p.transaction.accessList == p.runner.accessList == (if req.accessList.Some? then req.accessList.value else [])
    && p.transaction.input == p.runner.data == req.data
    && p.transaction.value == p.runner.value == req.value
    && p.runner.from == req.from
    // the runner is priced by the descriptor it was given
    && p.runner.weightLimit == weigh(p.transaction).weightLimit
    && p.runner.proofSizeBaseCost == weigh(p.transaction).proofSizeBaseCost
    && !p.runner.isTransactional && p.runner.validate
    // the estimate flag selects the configuration
    && (req.estimate ==> p.runner.config.estimate && p.runner.config.otherSettings == base.otherSettings)
    && (!req.estimate ==> p.runner.config == base)
  }

  /** The emitted `call`: the gas limit is bounded to 64 bits before the
      descriptor is built. */
  function Call(req: Request, to: H160, chainId: U64, base: EvmConfig, weigh: TransactionData -> Weights)
    : (p: Prepared)
    ensures SharedArguments(req, p, chainId, base, weigh)
    ensures p.transaction.action == CallTo(to) && p.runner.to == Some(to)
    ensures p.transaction.gasLimit <= U64_MAX && p.transaction.gasLimit <= req.gasLimit
    ensures req.gasLimit <= U64_MAX ==> p.transaction.gasLimit == req.gasLimit
    ensures req.gasLimit > U64_MAX ==> p.transaction.gasLimit == U64_MAX
    ensures p.runner.gasLimit == p.transaction.gasLimit
  {
    Prepare(CallTo(to), req, SaturateU64(req.gasLimit), chainId, base, weigh)
  }

  /** The emitted `create`: the descriptor gets the gas limit unbounded; only
      the runner's copy is narrowed to 64 bits. */
  function Create(req: Request, chainId: U64, base: EvmConfig, weigh: TransactionData -> Weights)
    : (p: Prepared)
    ensures SharedArguments(req, p, chainId, base, weigh)
    ensures p.transaction.action == CreateContract && p.runner.to.None?
    ensures p.transaction.gasLimit == req.gasLimit
    ensures p.runner.gasLimit <= req.gasLimit
    ensures req.gasLimit <= U64_MAX ==> p.runner.gasLimit == req.gasLimit
    ensures req.gasLimit > U64_MAX ==> p.runner.gasLimit == U64_MAX
  {
    Prepare(CreateContract, req, req.gasLimit, chainId, base, weigh)
  }

  /** `call` and `create` give the runner the same gas limit, but above 64 bits
      `create` prices a larger one than `call`. */
  lemma CallCreateGas(req: Request, to: H160, chainId: U64, base: EvmConfig, weigh: TransactionData -> Weights)
    ensures Call(req, to, chainId, base, weigh).runner.gasLimit == Create(req, chainId, base, weigh).runner.gasLimit
    ensures req.gasLimit > U64_MAX ==>
      Call(req, to, chainId, base, weigh).transaction.gasLimit < Create(req, chainId, base, weigh).transaction.gasLimit
  {
  }

  datatype DispatchError = DispatchError(reason: string)

  /** A runner failure: the dispatch error and the weight it consumed. */
  datatype RunnerError = RunnerError(error: DispatchError, weight: nat)

  /** `.map_err(|err| err.error.into())`: a runner failure surfaces as its
      dispatch error, a success is returned as it is. */
  function ForwardResult<I>(outcome: Result<I, RunnerError>): (r: Result<I, DispatchError>)
    ensures r.Success? <==> outcome.Success?
    ensures r.Success? ==> r.value == outcome.value
    ensures r.Failure? ==> r.error == outcome.error.error
  {
    match outcome
    case Success(info) => Success(info)
    case Failure(e) => Failure(e.error)
  }
}
