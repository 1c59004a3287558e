/** `evm_apis`: the Ethereum RPC runtime API impl and the transaction-conversion
    impl, as impl records over the five identifiers the caller passes in. The
    behaviour of the emitted method bodies is modelled in `EvmExtrinsics`,
    `EvmCall` and `PendingBlock`. */
module EvmApis {
  import opened Extraction
  import opened Template

  function ConfigUse(item: string): Use<Term> {
    Use("pallet_evm::Config", Hole(Runtime), item)
  }

  /** A storage value of the Ethereum pallet, read at the runtime. */
  function EthereumStorage(path: string): Use<Term> {
    Use(path, Hole(Runtime), "get")
  }

  /** The references of the `call` and `create` bodies, which differ only in
      the runner entry point. */
  function RunnerUses(entry: string): seq<Use<Term>> {
    [
      ConfigUse("config"),
      Use("pallet_evm::Config::ChainId", Hole(Runtime), "get"),
      Use("pallet_ethereum::Pallet", Hole(Runtime), "transaction_weight"),
      Use("pallet_evm::Config::Runner", Hole(Runtime), entry),
      ConfigUse("config")
    ]
  }

  const RpcMethods: seq<Method<Term>> := [
    Method("chain_id", [Use("pallet_evm::Config::ChainId", Hole(Runtime), "get")]),
    Method("account_basic", [Use("pallet_evm::Pallet", Hole(Runtime), "account_basic")]),
    Method("gas_price", [Use("pallet_evm::Config::FeeCalculator", Hole(Runtime), "min_gas_price")]),
    Method("account_code_at", [Use("pallet_evm::AccountCodes", Hole(Runtime), "get")]),
    Method("author", [Use("pallet_evm::Pallet", Hole(Runtime), "find_author")]),
    Method("storage_at", [Use("pallet_evm::AccountStorages", Hole(Runtime), "get")]),
    Method("call", RunnerUses("call")),
    Method("create", RunnerUses("create")),
    Method("current_transaction_statuses", [EthereumStorage("pallet_ethereum::CurrentTransactionStatuses")]),
    Method("current_block", [EthereumStorage("pallet_ethereum::CurrentBlock")]),
    Method("current_receipts", [EthereumStorage("pallet_ethereum::CurrentReceipts")]),
    Method("current_all", [
      EthereumStorage("pallet_ethereum::CurrentBlock"),
      EthereumStorage("pallet_ethereum::CurrentReceipts"),
      EthereumStorage("pallet_ethereum::CurrentTransactionStatuses")]),
    Method("extrinsic_filter", [Use("", Hole(RuntimeCall), "Ethereum")]),
    Method("elasticity", [Use("pallet_base_fee::Elasticity", Hole(Runtime), "get")]),
    Method("gas_limit_multiplier_support", []),
    Method("pending_block", [
      Use("", Hole(Executive), "apply_extrinsic"),
      Use("", Hole(Ethereum), "on_finalize"),
      Use("", Lit("System"), "block_number"),
      EthereumStorage("pallet_ethereum::CurrentBlock"),
      EthereumStorage("pallet_ethereum::CurrentTransactionStatuses")]),
    Method("initialize_pending_block", [Use("", Hole(Executive), "initialize_block")])
  ]

  const Skeleton: seq<Impl<Term>> := [
    Impl("fp_rpc::EthereumRuntimeRPCApi", [Hole(Block)], Hole(Runtime), RpcMethods),
    Impl(
      "fp_rpc::ConvertTransactionRuntimeApi",
      [Hole(Block)],
      Hole(Runtime),
      [
        Method("convert_transaction", [
          Use("", Lit("UncheckedExtrinsic"), "new_unsigned"),
          Use("pallet_ethereum::Call", Hole(Runtime), "transact")])
      ])
  ]

  /** Positions of the methods whose bodies refer to the extracted fields. */
  const ExtrinsicFilterIndex: nat := 12
  const PendingBlockIndex: nat := 15
  const InitializePendingBlockIndex: nat := 16

  /** The caller's identifiers by placeholder; placeholders of the asset
      skeleton never occur here and get the empty identifier. */
  function Env(runtime: Ident, block: Ident, runtimeCall: Ident, executive: Ident, ethereum: Ident): Template.Env {
    (p: Param) =>
      match p
      case Runtime => runtime
      case Block => block
      case RuntimeCall => runtimeCall
      case Executive => executive
      case Ethereum => ethereum
      case _ => ""
  }

  function EvmApis(runtime: Ident, block: Ident, runtimeCall: Ident, executive: Ident, ethereum: Ident)
    : (r: seq<Impl<Ident>>)
    ensures |r| == 2 && |r[0].methods| == 17 && |r[1].methods| == 1
    ensures r[0].traitPath == "fp_rpc::EthereumRuntimeRPCApi"
    ensures r[1].traitPath == "fp_rpc::ConvertTransactionRuntimeApi"
    ensures forall i :: 0 <= i < 2 ==> r[i].target == runtime && r[i].traitArgs == [block]
    ensures r[0].methods[ExtrinsicFilterIndex] == Method("extrinsic_filter", [Use("", runtimeCall, "Ethereum")])
    // pending_block applies through the executive, then finalises the Ethereum pallet
    ensures r[0].methods[PendingBlockIndex] == Method("pending_block", [
      Use("", executive, "apply_extrinsic"),
      Use("", ethereum, "on_finalize"),
      Use("", "System", "block_number"),
      Use("pallet_ethereum::CurrentBlock", runtime, "get"),
      Use("pallet_ethereum::CurrentTransactionStatuses", runtime, "get")])
    ensures r[0].methods[InitializePendingBlockIndex] ==
      Method("initialize_pending_block", [Use("", executive, "initialize_block")])
    // an Ethereum transaction becomes an unsigned extrinsic of the runtime's call
    ensures r[1].methods[0] == Method("convert_transaction", [
      Use("", "UncheckedExtrinsic", "new_unsigned"),
      Use("pallet_ethereum::Call", runtime, "transact")])
  {
    var env := Env(runtime, block, runtimeCall, executive, ethereum);
    var r := Instantiate(Skeleton, env);
    FilledImpls(env);
    FilledMethods(env);
    r
  }

  /** The two instantiated impls, component by component. */
  lemma FilledImpls(env: Template.Env)
    ensures var r := Instantiate(Skeleton, env);
      && |r| == 2 && |r[0].methods| == 17 && |r[1].methods| == 1
      && r[0].traitPath == "fp_rpc::EthereumRuntimeRPCApi"
      && r[1].traitPath == "fp_rpc::ConvertTransactionRuntimeApi"
      && r[0].target == env(Runtime) && r[0].traitArgs == [env(Block)]
      && r[1].target == env(Runtime) && r[1].traitArgs == [env(Block)]
      && (forall k :: 0 <= k < 17 ==> r[0].methods[k] == FillMethod(RpcMethods[k], env))
      && r[1].methods[0] == FillMethod(Skeleton[1].methods[0], env)
  {
    var r := Instantiate(Skeleton, env);
    assert r[0] == FillImpl(Skeleton[0], env);
    assert r[1] == FillImpl(Skeleton[1], env);
  }

  /** The instantiated methods that mention the caller's identifiers. */
  lemma FilledMethods(env: Template.Env)
    ensures FillMethod(RpcMethods[ExtrinsicFilterIndex], env) ==
      Method("extrinsic_filter", [Use("", env(RuntimeCall), "Ethereum")])
    ensures FillMethod(RpcMethods[PendingBlockIndex], env) == Method("pending_block", [
      Use("", env(Executive), "apply_extrinsic"),
      Use("", env(Ethereum), "on_finalize"),
      Use("", "System", "block_number"),
      Use("pallet_ethereum::CurrentBlock", env(Runtime), "get"),
      Use("pallet_ethereum::CurrentTransactionStatuses", env(Runtime), "get")])
    ensures FillMethod(RpcMethods[InitializePendingBlockIndex], env) ==
      Method("initialize_pending_block", [Use("", env(Executive), "initialize_block")])
    ensures FillMethod(Skeleton[1].methods[0], env) == Method("convert_transaction", [
      Use("", "UncheckedExtrinsic", "new_unsigned"),
      Use("pallet_ethereum::Call", env(Runtime), "transact")])
  {
  }

  /** The three extracted identifiers reach no method but `extrinsic_filter`,
      `pending_block` and `initialize_pending_block`: every other method is the
      same whatever they are. */
  lemma FieldsOnlyReachThreeMethods(
    runtime: Ident, block: Ident,
    runtimeCall1: Ident, executive1: Ident, ethereum1: Ident,
    runtimeCall2: Ident, executive2: Ident, ethereum2: Ident, k: nat)
    requires k < 17 && k != ExtrinsicFilterIndex && k != PendingBlockIndex && k != InitializePendingBlockIndex
    ensures EvmApis(runtime, block, runtimeCall1, executive1, ethereum1)[0].methods[k] ==
            EvmApis(runtime, block, runtimeCall2, executive2, ethereum2)[0].methods[k]
  {
    var env1 := Env(runtime, block, runtimeCall1, executive1, ethereum1);
    var env2 := Env(runtime, block, runtimeCall2, executive2, ethereum2);
    var m := RpcMethods[k];
    assert !MethodMentions(m, RuntimeCall) && !MethodMentions(m, Executive) && !MethodMentions(m, Ethereum);
    FillMethodLocal(m, env1, env2);
  }
}
