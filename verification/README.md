# Nym vesting signing client and delegation records, in Dafny

This project models two pieces of the Nym validator client and mixnet contract.

- **The vesting signing client.** Each of the eleven `VestingSigningClient` methods of `NymdClient` becomes exactly one call `execute(sender, contract, msg, fee, memo, funds)` against the vesting contract. The call fixes:
  - which fee-table `Operation` variant is charged;
  - which `VestingExecuteMsg` variant is built, and from which arguments;
  - which coins, if any, are attached as funds;
  - a fixed memo;
  - the sender, which is the client's own address, and the contract, which is the configured vesting contract address.

  If no vesting contract address is configured, the method returns that error and never reaches `execute`. Otherwise whatever `execute` returns is the method's result, unchanged.
- **The delegation value objects.** These are `Delegation` with its constructor, getters, derived equality and `Display`, and the two paged delegation responses with their constructors.

Modules:

| file | module | contents |
|---|---|---|
| wrappers.dfy | `Wrappers` | `Option`, `Result` |
| coins.dfy | `Coins` | `Uint128`, `U64`, `Coin`, the client's `CosmosCoin`, decimal rendering of amounts and its inverse |
| fees.dfy | `Fees` | the fee-table `Operation` variants the vesting client uses, `Fee` |
| vesting_messages.dfy | `VestingMessages` | the vesting contract's `ExecuteMsg`, node descriptors |
| vesting_signing_client.dfy | `VestingSigningClient` | `VestingOp` (one constructor per method), `Build`, `Dispatch`, `Submit` and their properties |
| call_decoding.dfy | `CallDecoding` | reads the operation back from an `execute` call; the inverse of `Dispatch` |
| delegation.dfy | `Delegations` | `Delegation`, its `Display` and a parser for it, the paged responses |

Three collaborators are not part of this model. Each enters as a function-valued parameter:
- the client's fee computation `operation_fee`, held in `NymdClient.operationFee`;
- the coin conversion `cosmwasm_coin_to_cosmos_coin`, held in `NymdClient.convert`;
- the signing client's `execute`, an argument of `Submit`.

`Submit` is generic in the type of the execute result. Its contract can therefore say only "passed through unchanged".

Each Rust method is split in two, following the method's own order:
- `Build` covers the part before `execute`: the fee variant, the message, the memo and the funds.
- `Dispatch` adds the sender, the contract address lookup (the `?` on `vesting_contract_address()`) and the fee value.

Memos are reproduced verbatim as `PrefixedMemo(name)`, which is the literal `"VestingContract::" + name`. This includes `"VestingContract::WithdrawVested"` and the misspelt `"VestingContract::DeledateToMixnode"`.

The code builds the fee and the message before it looks up the contract address. Both steps are pure, so the order is not observable, and a missing address still stops the method before `execute`. The lookup failure is whatever `vesting_contract_address()` returns; that function is not part of this model, so the error is one variant, `NoContractAddressAvailable`. `execute` may fail with any `NymdError`; that error is returned unchanged.

## Model

| member | source | states |
|---|---|---|
| VestingSigningClient.Build | common/client-libs/validator-client/src/nymd/traits/vesting_signing_client.rs:75-289 | At most one coin is attached. Funds are non-empty exactly for BondGateway, BondMixnode, DelegateToMixnode and CreatePeriodicVestingAccount. The operation's coin argument travels exactly once: as the single converted fund for those four, never also in the message body; otherwise the message body carries exactly the operation's coin, or none when it has none. |
| VestingSigningClient.Dispatch | common/client-libs/validator-client/src/nymd/traits/vesting_signing_client.rs:86-95 | Fails exactly when no vesting contract address is configured, and then with that lookup error. On success the call goes from the client's own address to the configured vesting contract. It charges the client's fee for the method's fee variant and carries the method's message, memo and funds. |
| VestingSigningClient.Submit | common/client-libs/validator-client/src/nymd/traits/vesting_signing_client.rs:86-95 | With no contract address, `execute` is never invoked and the lookup error is returned. Otherwise `execute` is invoked exactly once, with the dispatched call, and its result (success or error) is returned unchanged. |
| VestingSigningClient.EachMethodChargesItsOwnVariant | common/client-libs/validator-client/src/nymd/traits/vesting_signing_client.rs:81-274 | Each method charges the fee variant of its own name: `vesting_bond_gateway` charges `BondGateway` (:81), `vesting_unbond_gateway` charges `UnbondGateway` (:99), and so on through `create_periodic_vesting_account` charging `CreatePeriodicVestingAccount` (:274). |
| VestingSigningClient.FeeVariantOneToOne | common/client-libs/validator-client/src/nymd/traits/vesting_signing_client.rs:81-274 | Two operations charge the same fee variant if and only if they are calls of the same method, so no variant is reused. |
| VestingSigningClient.EveryFeeVariantCharged | common/client-libs/validator-client/src/nymd/traits/vesting_signing_client.rs:81-274 | Every one of the eleven fee variants is charged by some method, so methods and variants correspond one to one. |
| VestingSigningClient.MemoNamesFeeVariant | common/client-libs/validator-client/src/nymd/traits/vesting_signing_client.rs:92-285 | Every memo is "VestingContract::" followed by the charged fee variant's name, with two exceptions: withdrawal uses "WithdrawVested" and delegation the misspelt "DeledateToMixnode". Together with `EachMethodChargesItsOwnVariant` this fixes all eleven memos verbatim, e.g. "VestingContract::BondGateway" for `vesting_bond_gateway`. |
| VestingSigningClient.MemoOneToOne | common/client-libs/validator-client/src/nymd/traits/vesting_signing_client.rs:92-285 | Two operations carry the same memo if and only if they are calls of the same method. |
| VestingSigningClient.DelegationAmountOnlyInFunds | common/client-libs/validator-client/src/nymd/traits/vesting_signing_client.rs:233-267 | Delegation puts only the node identity in the message and sends its amount solely as the one converted fund. Undelegation carries only the node identity and no funds. |
| VestingSigningClient.BodyAmountOperations | common/client-libs/validator-client/src/nymd/traits/vesting_signing_client.rs:113-232 | Withdrawal and the three track operations carry their amount unchanged in the message and attach no funds. Track messages copy the owner unchanged, and undelegation tracking takes its `address` argument as `owner` and passes the node identity through. |
| VestingSigningClient.BondOperations | common/client-libs/validator-client/src/nymd/traits/vesting_signing_client.rs:75-156 | Bonding a gateway or mix node copies the descriptor and owner signature verbatim into the message and attaches exactly the converted pledge. |
| VestingSigningClient.CreateAccountPassesThrough | common/client-libs/validator-client/src/nymd/traits/vesting_signing_client.rs:268-289 | Account creation passes the address and start time through unchanged, an absent start time staying absent, and attaches exactly the converted amount. |
| CallDecoding.DecodeBuild | common/client-libs/validator-client/src/nymd/traits/vesting_signing_client.rs:75-289 | When the coin conversion is invertible, the message and funds of every method decode back to the original operation: no argument is dropped or altered. |
| CallDecoding.DecodeDispatch | common/client-libs/validator-client/src/nymd/traits/vesting_signing_client.rs:86-95 | With a configured contract, dispatch succeeds and its `execute` call decodes back to the operation. |
| CallDecoding.DispatchInjective | common/client-libs/validator-client/src/nymd/traits/vesting_signing_client.rs:75-289 | Under an invertible coin conversion, distinct operations never produce the same `execute` call. |
| Delegations.NewDelegation | common/mixnet-contract/src/delegation.rs:15-29 | `Delegation::new(id, c)` has `node_identity() == id` and `amount() == c`. |
| Delegations.DelegationEq | common/mixnet-contract/src/delegation.rs:9-13 | Derived equality compares node identity, denomination and amount field by field, and holds if and only if the two delegations are the same value. |
| Delegations.Display | common/mixnet-contract/src/delegation.rs:32-39 | `Display for Delegation`: the text "<amount> <denom> delegated to <node identity>" parses back to the delegation when the denomination has no space, so the text determines every field. |
| Delegations.ParseDisplayOnlyExactText | common/mixnet-contract/src/delegation.rs:32-39 | Whatever the display parser accepts is exactly the `Display` text of the parsed delegation: the amount in canonical decimal (no leading zero), a space, the space-free denomination, " delegated to ", the node identity. With `Display`'s contract this pins the printed text to `"{} {} delegated to {}"` exactly. |
| Delegations.DisplayInjective | common/mixnet-contract/src/delegation.rs:32-39 | Distinct delegations with well-formed denominations never display alike. |
| Delegations.NewPagedMixDelegationsResponse | common/mixnet-contract/src/delegation.rs:49-60 | The constructor keeps the node identity and the delegations (same length, same elements in the same order). It keeps the cursor too, an absent cursor staying absent. |
| Delegations.NewPagedGatewayDelegationsResponse | common/mixnet-contract/src/delegation.rs:70-81 | The same guarantees for the gateway response. |
| Coins.NatToDecimal | common/mixnet-contract/src/delegation.rs:36-37 | The amount printed by `Display` is a non-empty string of decimal digits. It starts with '0' only for zero, and has one digit exactly when the amount is below ten. |
| Coins.DecimalRoundTrip | common/mixnet-contract/src/delegation.rs:36-37 | Reading the printed amount back gives the amount, and the printed form is canonical. |
| Coins.CanonicalDecimalRoundTrip | common/mixnet-contract/src/delegation.rs:36-37 | Every canonical numeral is the printed form of its value, so printing is a bijection onto canonical numerals. |

## Left out

- The `async`/`await` plumbing of `execute` is left out. `execute` is a pure function of the call, and only whether it is invoked, and with what, is recorded.
- The gas tables behind `operation_fee` are left out because their source is not part of this model. The fee is an arbitrary function of the fee variant.
- `cosmwasm_coin_to_cosmos_coin` is left out because its source is not part of this model. It is an arbitrary function on coins. The decoding lemmas assume it has a left inverse.
- `vesting_contract_address()` is not part of this model. It is modelled as a configured optional address, and its error as the single variant `NoContractAddressAvailable`.
- The serde/JsonSchema wire encoding of the execute messages and the `Delegation` records is left out. Its definitions are not part of this model.
- The `MixNode` and `Gateway` descriptors keep only an identity key, host and version. The dispatcher moves them whole, so their other fields play no part.
- The fee-table `Operation` variants used outside the vesting client (mixnet and contract-management operations) are left out.
- nym-wallet/src-tauri/src/utils.rs is left out:
  - `major_to_minor` and `minor_to_major` wrap a wallet `Coin` type that is not part of this model;
  - `owns_mixnode` and `owns_gateway` are network queries behind a lock;
  - `get_approximate_fee` folds fee coins with an addition and a live gas price that are not part of this model.
- nym-wallet/src/components/Nav.tsx and Accounts/Accounts.tsx are React UI.
- Major/minor denomination conversion, sequence-number retry, concurrency and cancellation are left out. None of them appears in the modelled code.
- Following pagination cursors across several pages is left out. A paged query returns one page with `start_next_after`; the callers of the paged queries echo the cursor back to fetch the next page, and those callers are not part of this model. Only the response constructors are.
- The client never classifies the errors `execute` reports and never retries: a failure of `execute` (including a stale account sequence) is returned to the caller as it is. There is therefore no error classification or sequence retry to model.
- Delegations.Display: the round trip is stated only for denominations without a space. Chain denominations never contain one, and with a space the text would be ambiguous.
