/** The execute messages of the vesting contract, and the node descriptors
    they carry. */
module VestingMessages {
  import opened Wrappers
  import opened Coins

  /** A node's identity key, as text. */
  type IdentityKey = string

  /** A mix node descriptor. Its full field list belongs to the mixnet
      contract; the dispatcher only moves the value whole, so the fields kept
      here are the ones that identify it. */
  datatype MixNode = MixNode(identityKey: IdentityKey, host: string, version: string)

  /** A gateway descriptor, kept at the same level of detail as `MixNode`. */
  datatype Gateway = Gateway(identityKey: IdentityKey, host: string, version: string)

  /** `ExecuteMsg` of the vesting contract: one variant per operation, each
      carrying that operation's parameters. */
  datatype ExecuteMsg =
    | BondGateway(gateway: Gateway, ownerSignature: string)
    | UnbondGateway
    | TrackUnbondGateway(owner: string, amount: Coin)
    | BondMixnode(mixNode: MixNode, ownerSignature: string)
    | UnbondMixnode
    | TrackUnbondMixnode(owner: string, amount: Coin)
    | WithdrawVestedCoins(amount: Coin)
    | TrackUndelegation(owner: string, mixIdentity: IdentityKey, amount: Coin)
    | DelegateToMixnode(mixIdentity: IdentityKey)
    | UndelegateFromMixnode(mixIdentity: IdentityKey)
    | CreateAccount(address: string, startTime: Option<U64>)

  /** The coin a message carries in its body, if it has an `amount` field. */
  function BodyAmount(msg: ExecuteMsg): Option<Coin> {
    if msg.TrackUnbondGateway? || msg.TrackUnbondMixnode? || msg.WithdrawVestedCoins? || msg.TrackUndelegation?
    then Some(msg.amount)
    else None
  }
}
