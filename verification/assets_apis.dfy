/** `assets_apis`: the fee-query, call-fee-query and oracle-query runtime API
    impls, as impl records over the seven identifiers the caller passes in. */
module AssetsApis {
  import opened Extraction
  import opened Template

  /** The value type of the oracle API, written literally into the template. */
  const TimestampedValue: string := "orml_oracle::TimestampedValue<sp_runtime::FixedU128, u64>"

  /** The four methods of a fee-query impl; the first two differ between the
      two impls, and each delegates to the pallet function of its own name. */
  function FeeMethods(info: string, details: string): seq<Method<Term>> {
    [
      Method(info, [Use("", Hole(TransactionPayment), info)]),
      Method(details, [Use("", Hole(TransactionPayment), details)]),
      Method("query_weight_to_fee", [Use("", Hole(TransactionPayment), "weight_to_fee")]),
      Method("query_length_to_fee", [Use("", Hole(TransactionPayment), "length_to_fee")])
    ]
  }

  const Skeleton: seq<Impl<Term>> := [
    Impl(
      "pallet_transaction_payment_rpc_runtime_api::TransactionPaymentApi",
      [Hole(Block), Hole(Balance)],
      Hole(Runtime),
      FeeMethods("query_info", "query_fee_details")),
    Impl(
      "pallet_transaction_payment_rpc_runtime_api::TransactionPaymentCallApi",
      [Hole(Block), Hole(Balance), Hole(Call)],
      Hole(Runtime),
      FeeMethods("query_call_info", "query_call_fee_details")),
    Impl(
      "orml_oracle_runtime_api::OracleApi",
      [Hole(Block), Lit("()"), Hole(OracleKey), Lit(TimestampedValue)],
      Lit("Runtime"),
      [
        Method("get_value", [Use("", Hole(Oracle), "get")]),
        Method("get_all_values", [Use("", Hole(Oracle), "get_all_values")])
      ])
  ]

  /** The caller's identifiers by placeholder; placeholders of the EVM skeleton
      never occur here and get the empty identifier. */
  function Env(
    runtime: Ident, block: Ident, transactionPayment: Ident, balance: Ident,
    call: Ident, oracleKey: Ident, oracle: Ident): Template.Env
  {
    (p: Param) =>
      match p
      case Runtime => runtime
      case Block => block
      case TransactionPayment => transactionPayment
      case Balance => balance
      case Call => call
      case OracleKey => oracleKey
      case Oracle => oracle
      case _ => ""
  }

  function AssetsApis(
    runtime: Ident, block: Ident, transactionPayment: Ident, balance: Ident,
    call: Ident, oracleKey: Ident, oracle: Ident): (r: seq<Impl<Ident>>)
    ensures |r| == 3
    ensures |r[0].methods| == 4 && |r[1].methods| == 4 && |r[2].methods| == 2
    // both fee APIs are implemented for the caller's runtime ...
    ensures r[0].target == runtime && r[1].target == runtime
    // ... but the oracle API always for `Runtime`
    ensures r[2].target == "Runtime"
    ensures r[0].traitPath == "pallet_transaction_payment_rpc_runtime_api::TransactionPaymentApi"
    ensures r[1].traitPath == "pallet_transaction_payment_rpc_runtime_api::TransactionPaymentCallApi"
    ensures r[2].traitPath == "orml_oracle_runtime_api::OracleApi"
    ensures r[0].traitArgs == [block, balance]
    ensures r[1].traitArgs == [block, balance, call]
    ensures r[2].traitArgs == [block, "()", oracleKey, TimestampedValue]
    // every fee method delegates to the transaction-payment pallet alone
    ensures forall i, k, l :: 0 <= i < 2 && 0 <= k < |r[i].methods| && 0 <= l < |r[i].methods[k].uses| ==>
      r[i].methods[k].uses[l].subject == transactionPayment
    ensures forall i :: 0 <= i < 2 ==>
      r[i].methods[2] == Method("query_weight_to_fee", [Use("", transactionPayment, "weight_to_fee")])
    ensures r[0].methods[0].name == "query_info" && r[0].methods[1].name == "query_fee_details"
    ensures r[1].methods[0].name == "query_call_info" && r[1].methods[1].name == "query_call_fee_details"
    ensures forall i :: 0 <= i < 2 ==> r[i].methods[3].name == "query_length_to_fee"
    ensures r[2].methods[0].name == "get_value" && r[2].methods[1].name == "get_all_values"
    // every oracle method delegates to the oracle pallet alone
    ensures forall k, l :: 0 <= k < |r[2].methods| && 0 <= l < |r[2].methods[k].uses| ==>
      r[2].methods[k].uses[l].subject == oracle
    // each method body is one call into its pallet's function
    ensures r[0].methods[0] == Method("query_info", [Use("", transactionPayment, "query_info")])
    ensures r[0].methods[1] == Method("query_fee_details", [Use("", transactionPayment, "query_fee_details")])
    ensures r[0].methods[3] == Method("query_length_to_fee", [Use("", transactionPayment, "length_to_fee")])
    ensures r[1].methods[0] == Method("query_call_info", [Use("", transactionPayment, "query_call_info")])
    ensures r[1].methods[1] == Method("query_call_fee_details", [Use("", transactionPayment, "query_call_fee_details")])
    ensures r[1].methods[3] == Method("query_length_to_fee", [Use("", transactionPayment, "length_to_fee")])
    ensures r[2].methods[0] == Method("get_value", [Use("", oracle, "get")])
    ensures r[2].methods[1] == Method("get_all_values", [Use("", oracle, "get_all_values")])
  {
    var env := Env(runtime, block, transactionPayment, balance, call, oracleKey, oracle);
    FilledShape(env);
    FilledNames(env);
    FeeMethodsDelegate(env);
    OracleMethodsDelegate(env);
    FilledRecords(env);
    Instantiate(Skeleton, env)
  }

  lemma FilledShape(env: Template.Env)
    ensures var r := Instantiate(Skeleton, env);
      && |r| == 3
      && |r[0].methods| == 4 && |r[1].methods| == 4 && |r[2].methods| == 2
      && r[0].target == env(Runtime) && r[1].target == env(Runtime) && r[2].target == "Runtime"
      && r[0].traitArgs == [env(Block), env(Balance)]
      && r[1].traitArgs == [env(Block), env(Balance), env(Call)]
      && r[2].traitArgs == [env(Block), "()", env(OracleKey), TimestampedValue]
  {
    FilledImpls(env);
  }

  lemma FilledNames(env: Template.Env)
    ensures var r := Instantiate(Skeleton, env);
      && |r| == 3 && |r[0].methods| == 4 && |r[1].methods| == 4 && |r[2].methods| == 2
      && r[0].traitPath == "pallet_transaction_payment_rpc_runtime_api::TransactionPaymentApi"
      && r[1].traitPath == "pallet_transaction_payment_rpc_runtime_api::TransactionPaymentCallApi"
      && r[2].traitPath == "orml_oracle_runtime_api::OracleApi"
      && r[0].methods[0].name == "query_info" && r[0].methods[1].name == "query_fee_details"
      && r[1].methods[0].name == "query_call_info" && r[1].methods[1].name == "query_call_fee_details"
      && r[0].methods[3].name == "query_length_to_fee" && r[1].methods[3].name == "query_length_to_fee"
      && r[2].methods[0].name == "get_value" && r[2].methods[1].name == "get_all_values"
  {
    FilledImpls(env);
    FilledMethods("query_info", "query_fee_details", env);
    FilledMethods("query_call_info", "query_call_fee_details", env);
  }

  lemma FilledRecords(env: Template.Env)
    ensures var r := Instantiate(Skeleton, env);
      && |r| == 3 && |r[0].methods| == 4 && |r[1].methods| == 4 && |r[2].methods| == 2
      && r[0].methods[0] == Method("query_info", [Use("", env(TransactionPayment), "query_info")])
      && r[0].methods[1] == Method("query_fee_details", [Use("", env(TransactionPayment), "query_fee_details")])
      && r[0].methods[3] == Method("query_length_to_fee", [Use("", env(TransactionPayment), "length_to_fee")])
      && r[1].methods[0] == Method("query_call_info", [Use("", env(TransactionPayment), "query_call_info")])
      && r[1].methods[1] == Method("query_call_fee_details", [Use("", env(TransactionPayment), "query_call_fee_details")])
      && r[1].methods[3] == Method("query_length_to_fee", [Use("", env(TransactionPayment), "length_to_fee")])
      && r[2].methods[0] == Method("get_value", [Use("", env(Oracle), "get")])
      && r[2].methods[1] == Method("get_all_values", [Use("", env(Oracle), "get_all_values")])
  {
    FilledImpls(env);
    FilledMethods("query_info", "query_fee_details", env);
    FilledMethods("query_call_info", "query_call_fee_details", env);
  }

  lemma FeeMethodsDelegate(env: Template.Env)
    ensures var r := Instantiate(Skeleton, env);
      && |r| == 3 && |r[0].methods| == 4 && |r[1].methods| == 4
      && (forall i, k, l :: 0 <= i < 2 && 0 <= k < |r[i].methods| && 0 <= l < |r[i].methods[k].uses| ==>
            r[i].methods[k].uses[l].subject == env(TransactionPayment))
      && (forall i :: 0 <= i < 2 ==>
            r[i].methods[2] == Method("query_weight_to_fee", [Use("", env(TransactionPayment), "weight_to_fee")]))
  {
    FilledImpls(env);
    FilledMethods("query_info", "query_fee_details", env);
    FilledMethods("query_call_info", "query_call_fee_details", env);
  }

  lemma OracleMethodsDelegate(env: Template.Env)
    ensures var r := Instantiate(Skeleton, env);
      && |r| == 3 && |r[2].methods| == 2
      && (forall k, l :: 0 <= k < |r[2].methods| && 0 <= l < |r[2].methods[k].uses| ==>
            r[2].methods[k].uses[l].subject == env(Oracle))
  {
    FilledImpls(env);
    FilledMethods("query_info", "query_fee_details", env);
  }

  /** The three instantiated impls, component by component. */
  lemma FilledImpls(env: Template.Env)
    ensures var r := Instantiate(Skeleton, env);
      && |r| == 3
      && r[0].target == env(Runtime) && r[1].target == env(Runtime) && r[2].target == "Runtime"
      && r[0].traitArgs == [env(Block), env(Balance)]
      && r[1].traitArgs == [env(Block), env(Balance), env(Call)]
      && r[2].traitArgs == [env(Block), "()", env(OracleKey), TimestampedValue]
      && (forall i, k :: 0 <= i < 3 && 0 <= k < |Skeleton[i].methods| ==>
            |r[i].methods| == |Skeleton[i].methods| && r[i].methods[k] == FillMethod(Skeleton[i].methods[k], env))
  {
    var r := Instantiate(Skeleton, env);
    assert r[0] == FillImpl(Skeleton[0], env);
    assert r[1] == FillImpl(Skeleton[1], env);
    assert r[2] == FillImpl(Skeleton[2], env);
  }

  /** The instantiated fee and oracle methods: one use each, on the pallet of
      their impl. */
  lemma FilledMethods(info: string, details: string, env: Template.Env)
    ensures var ms := FeeMethods(info, details);
      && FillMethod(ms[0], env) == Method(info, [Use("", env(TransactionPayment), info)])
      && FillMethod(ms[1], env) == Method(details, [Use("", env(TransactionPayment), details)])
      && FillMethod(ms[2], env) == Method("query_weight_to_fee", [Use("", env(TransactionPayment), "weight_to_fee")])
      && FillMethod(ms[3], env) == Method("query_length_to_fee", [Use("", env(TransactionPayment), "length_to_fee")])
    ensures FillMethod(Skeleton[2].methods[0], env) == Method("get_value", [Use("", env(Oracle), "get")])
    ensures FillMethod(Skeleton[2].methods[1], env) == Method("get_all_values", [Use("", env(Oracle), "get_all_values")])
  {
  }

  /** The oracle impl is the same whatever runtime identifier the caller
      passes: its target is the literal `Runtime`. */
  lemma OracleImplIgnoresRuntime(
    runtime1: Ident, runtime2: Ident, block: Ident, transactionPayment: Ident, balance: Ident,
    call: Ident, oracleKey: Ident, oracle: Ident)
    ensures AssetsApis(runtime1, block, transactionPayment, balance, call, oracleKey, oracle)[2] ==
            AssetsApis(runtime2, block, transactionPayment, balance, call, oracleKey, oracle)[2]
  {
    var env1 := Env(runtime1, block, transactionPayment, balance, call, oracleKey, oracle);
    var env2 := Env(runtime2, block, transactionPayment, balance, call, oracleKey, oracle);
    assert !Mentions(Skeleton[2], Runtime);
    FillImplLocal(Skeleton[2], env1, env2);
  }
}
