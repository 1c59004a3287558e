# Runtime-API code generation: extraction and synthesis, modelled in Dafny

This project models the core of the procedural macro crate that generates
Substrate runtime-API impls for the EVM and asset pallet groupings:

- **Field extraction.** `EVMAPIFields::try_from` and `AssetAPIFields::try_from`
  scan a list of declaration items. Each `type X = ...;` alias whose name they
  recognise overwrites one slot, so the last declaration wins. Every other item
  is passed over. The slots are then checked in a fixed order, and the first
  unset one produces a literal error message.
- **Template instantiation.** `assets_apis` and `evm_apis` are modelled as
  lists of impl records. Each record holds the trait, its generic arguments,
  the target type and, per method, the items the body refers to. A fixed
  skeleton has placeholders, and the caller's identifiers fill them in.
- **Emitted EVM logic.** Four pieces of the generated code get a pure model:
  - `extrinsic_filter` and `convert_transaction`;
  - the gas-limit and configuration handling of `call` and `create`;
  - the apply-then-finalise protocol of `pending_block`.

Files, one module each:

| file | module | what |
|---|---|---|
| wrappers.dfy | `Wrappers` | `Option`, `Result` |
| extraction.dfy | `Extraction` | items, the shared scan, last-write-wins, insertion and permutation lemmas |
| evm_fields.dfy | `EvmFields` | `EVMAPIFields::try_from` |
| asset_fields.dfy | `AssetFields` | `AssetAPIFields::try_from` |
| template.dfy | `Template` | impl records, placeholders, instantiation, shape and locality lemmas |
| assets_apis.dfy | `AssetsApis` | the `assets_apis` skeleton |
| evm_apis.dfy | `EvmApis` | the `evm_apis` skeleton |
| evm_extrinsics.dfy | `EvmExtrinsics` | emitted `extrinsic_filter`, `convert_transaction` |
| evm_call.dfy | `EvmCall` | emitted `call`, `create` up to the runner call |
| pending_block.dfy | `PendingBlock` | emitted `pending_block` |

Things the model takes as parameters:

- `fetch_ident` is the parameter `resolve: TypeExpr -> Ident`. Nothing is
  assumed about it.
- The chain's state and the runtime functions `pending_block` calls are
  parameters: `apply_extrinsic`, `System::block_number`, `on_finalize` and the
  storage reads.
- The chain id, the runtime's EVM configuration and `transaction_weight` are
  parameters of `call` and `create`.

Facts about the code that the model keeps as written:

- The EVM extractor reports a missing `RuntimeCall` alias as
  "`type Call` not specified, but required". The message does not name the
  alias. `EvmFields.MissingCallReportsCall` states this.
- `call` bounds the gas limit to 64 bits before it builds the transaction
  descriptor. `create` prices the call with the unbounded 256-bit gas limit,
  and only the runner's copy is saturated. `EvmCall.CallCreateGas` states the
  difference.
- The body of `fetch_ident` is not part of the modelled source, so it is the
  total parameter `resolve`. A resolver that panicked on a type that is not a
  path would abort `try_from`, even when a later alias of the same name is
  well-formed. The model does not represent that.
- Extraction errors are the literal strings of the source.
  `Extraction.Missing` builds them from the type's name.

## Model

| member | source | states |
|---|---|---|
| Extraction.LastAlias | procedural/src/apis/evm.rs:21-34 | the reference for last-write-wins: absent exactly when no alias of that name occurs, otherwise the expression of an alias of that name with no later alias of the same name |
| Extraction.Scan | procedural/src/apis/assets.rs:25-39 | a slot is set exactly when its name is recognised and some alias of that name occurs, and then it holds the resolver's identifier for the last such alias |
| Extraction.ScanInsertIrrelevant | procedural/src/apis/evm.rs:22-33 | a non-alias item, or an alias of an unrecognised name, inserted anywhere leaves every slot unchanged |
| Extraction.ScanAppendAlias | procedural/src/apis/assets.rs:25-39 | appending a recognised alias overwrites exactly its own slot |
| Extraction.ScanPermutation | procedural/src/apis/assets.rs:25-39 | when no two aliases share a name, any rearrangement of the items gives the same slots |
| Extraction.Missing | procedural/src/apis/assets.rs:42-46 | the error for an unset slot is the fixed text "`type NAME` not specified, but required" with the expected type's name in place of NAME |
| EvmFields.TryFrom | procedural/src/apis/evm.rs:16-45 | `Ok` iff aliases `RuntimeCall`, `Executive` and `Ethereum` all occur; each field is the resolver's identifier for the last alias of its name; otherwise the error follows the order Executive, Ethereum, RuntimeCall, with each literal message |
| EvmFields.TryFromIgnoresIrrelevant | procedural/src/apis/evm.rs:21-34 | inserting an irrelevant item anywhere leaves the result, success or error, unchanged |
| EvmFields.TryFromAppendOverwrites | procedural/src/apis/evm.rs:21-34 | appending a recognised alias to a successful input changes only the field of that name, to the new alias's identifier |
| EvmFields.MissingCallReportsCall | procedural/src/apis/evm.rs:24-38 | with only `RuntimeCall` missing, the error is exactly the `Call` message and not one about `RuntimeCall`, and appending that alias makes extraction succeed |
| EvmFields.MissingOneReportsIt | procedural/src/apis/evm.rs:36-37 | with only `Executive` or only `Ethereum` missing, extraction fails with that type's message, and appending that alias makes it succeed |
| AssetFields.TryFrom | procedural/src/apis/assets.rs:18-54 | `Ok` iff all five aliases occur; each field is the identifier for the last alias of its name; otherwise the error follows the order TransactionPayment, Balance, RuntimeCall, OracleKey, Oracle, with each literal message |
| AssetFields.TryFromIgnoresIrrelevant | procedural/src/apis/assets.rs:25-39 | non-alias items and aliases of unlisted names are skipped: inserting one anywhere changes neither the error nor any field |
| AssetFields.TryFromPermutation | procedural/src/apis/assets.rs:25-39 | when the alias names are pairwise distinct, any permutation of the items gives the same result |
| AssetFields.TryFromAppendOverwrites | procedural/src/apis/assets.rs:25-39 | appending a recognised alias to a successful input changes only that one field |
| AssetFields.TryFromAppendCompletes | procedural/src/apis/assets.rs:41-46 | an input missing exactly one field fails with that field's message, and succeeds once an alias for that field is appended |
| Template.Instantiate | procedural/src/apis/assets.rs:66-131 | filling the placeholders keeps the number of impls and each impl's shape: trait, argument count, method names and referenced items |
| Template.InstantiatePlaces | procedural/src/apis/assets.rs:66-131 | in every instantiated impl, a placeholder `#p` at a trait argument, the target or a reference's subject becomes the caller's identifier for `p`, a literal keeps its text, and trait paths, method names, paths and items are copied |
| Template.FillImplLocal | procedural/src/apis/assets.rs:66-131 | an instantiated impl depends only on the identifiers of the placeholders its skeleton mentions |
| AssetsApis.AssetsApis | procedural/src/apis/assets.rs:57-132 | three impls, `TransactionPaymentApi`, `TransactionPaymentCallApi` and `OracleApi` with their method names; both fee APIs target `runtime`, with arguments `[block, balance]` and `[block, balance, call]`; each method body is exactly one call: the fee methods into `transaction_payment`'s function of the same name, `query_weight_to_fee` and `query_length_to_fee` into `weight_to_fee` and `length_to_fee`; the oracle impl targets the literal `Runtime` and its methods call `oracle`'s `get` and `get_all_values` |
| AssetsApis.OracleImplIgnoresRuntime | procedural/src/apis/assets.rs:117-122 | the oracle impl is the same whatever `runtime` identifier is passed |
| EvmApis.EvmApis | procedural/src/apis/evm.rs:48-280 | two impls for `runtime` over `block`, of `fp_rpc::EthereumRuntimeRPCApi` and `fp_rpc::ConvertTransactionRuntimeApi`; `extrinsic_filter` matches on `runtime_call`; `pending_block` applies through `executive`, finalises `ethereum` and reads the block and statuses at `runtime`; `initialize_pending_block` goes through `executive`; `convert_transaction` builds an unsigned extrinsic |
| EvmApis.FieldsOnlyReachThreeMethods | procedural/src/apis/evm.rs:63-269 | every method except `extrinsic_filter`, `pending_block` and `initialize_pending_block` is the same whatever `runtime_call`, `executive` and `ethereum` are |
| EvmExtrinsics.EthereumTransaction | procedural/src/apis/evm.rs:235-238 | yields a transaction exactly for an `Ethereum(transact { .. })` call, and it is that call's transaction |
| EvmExtrinsics.ExtrinsicFilter | procedural/src/apis/evm.rs:232-239 | the output is no longer than the input |
| EvmExtrinsics.FilterSelectsInOrder | procedural/src/apis/evm.rs:235-238 | there are increasing input positions whose transactions are exactly the output, and every extrinsic carrying an Ethereum transaction is among them |
| EvmExtrinsics.FilterConcat | procedural/src/apis/evm.rs:235-238 | filtering a concatenation is the concatenation of the filtered parts |
| EvmExtrinsics.ConvertTransaction | procedural/src/apis/evm.rs:271-278 | the extrinsic is unsigned and carries `transact` with the given transaction |
| EvmExtrinsics.FilterConvertRoundTrip | procedural/src/apis/evm.rs:271-278 | filtering converted transactions gives back the transactions |
| EvmCall.EstimateConfig | procedural/src/apis/evm.rs:111-117 | a configuration is chosen iff `estimate` is set, and then it is the runtime's with `estimate = true` |
| EvmCall.SaturateU64 | procedural/src/apis/evm.rs:119 | the gas limit narrowed to 64 bits saturates at `u64::MAX` and is unchanged below it |
| EvmCall.Call | procedural/src/apis/evm.rs:99-150 | the descriptor and the runner get `min(gas_limit, 2^64-1)`, equal to `u64::MAX` above it; an absent nonce is zero in the descriptor but absent for the runner; the fee caps pass through unset; the chain id is set; the weights come from the descriptor; the config is the estimate copy iff `estimate`, else the runtime's |
| EvmCall.Create | procedural/src/apis/evm.rs:153-201 | as for `call`, except that there is no recipient, the descriptor keeps the unbounded gas limit, and only the runner's copy saturates |
| EvmCall.CallCreateGas | procedural/src/apis/evm.rs:119-190 | `call` and `create` give the runner the same gas, and above 64 bits `create` prices a larger gas limit than `call` |
| EvmCall.ForwardResult | procedural/src/apis/evm.rs:149 | a runner success is returned as is, and a runner failure surfaces as its dispatch error |
| PendingBlock.PendingBlock | procedural/src/apis/evm.rs:251-264 | every extrinsic is applied once, in order, whatever its outcome; then one finalisation at the block number read after applying, plus one; the block and statuses returned are read from the finalised state |
| PendingBlock.ApplyAllConcat | procedural/src/apis/evm.rs:254-256 | applying a concatenation applies the first part, then the second |
| PendingBlock.OutcomesIgnored | procedural/src/apis/evm.rs:255 | two `apply_extrinsic` functions that change the state alike reach the same state, whatever outcomes they report |

## Left out

- The body of `fetch_ident` is not part of this model. It is the uninterpreted
  parameter `resolve`, and nothing is claimed about generic or tuple types.
- Token output is not modelled: the exact `quote!` text, method signatures,
  argument and return types, doc comments and `use` lines. The impl records
  keep only traits, arguments, targets, method names and referenced items.
- The foreign functions the generated code calls are not modelled:
  `Runner::call` and `create`, `transaction_weight`, `FeeCalculator`,
  `find_author`, the storage getters and the big-endian key conversion of
  `storage_at`. Only their arguments and call order are modelled.
- The read methods (`chain_id`, `account_basic`, `gas_price`,
  `account_code_at`, `author`, `storage_at`, `current_*`, `elasticity`,
  `gas_limit_multiplier_support`) are only modelled through the items they
  refer to in `EvmApis.EvmApis`. Each body is one to three storage or
  configuration reads: `current_all` makes three, `storage_at` converts its
  key to big-endian before its read, and `gas_limit_multiplier_support` is
  empty. What the reads return is runtime behaviour.
- `initialize_pending_block` appears only as the template's reference to
  `executive::initialize_block`. Initialising a block is runtime behaviour.
- Concurrency around `pending_block` is not modelled. The model is one
  sequential run over an abstract state.
- Block numbers are unbounded in the model, so `block_number() + 1` never
  overflows.
- The `macro_rules!` groupings and the `SystemConfig` trait only assign types
  and constants: src/assets.rs, src/governance.rs and src/lib.rs.
- `#[cfg(feature = ...)]` branches are build configuration.
- ExtrinsicFilter: its own contract gives only the length bound. The full
  characterisation (which items are kept, in what order) is
  `EvmExtrinsics.FilterSelectsInOrder`.
- EvmApis.EvmApis: the contract spells out only the methods that refer to the
  caller's identifiers beyond `runtime`. The references of the other methods
  are fixed by the skeleton, and `Template.Instantiate` keeps them unchanged.
