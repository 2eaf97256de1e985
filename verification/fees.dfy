/** The fee-table variants the vesting client charges, and the fee value the
    client attaches to a transaction. */
module Fees {
  import opened Coins

  /** The variants of the fee table's `Operation` that the vesting client
      uses, one per vesting operation. */
  datatype Operation =
    | BondGateway
    | UnbondGateway
    | TrackUnbondGateway
    | BondMixnode
    | UnbondMixnode
    | TrackUnbondMixnode
    | WithdrawVestedCoins
    | TrackUndelegation
    | DelegateToMixnode
    | UndelegateFromMixnode
    | CreatePeriodicVestingAccount
  {
    /** The variant's identifier as written in the client code. */
    function Name(): string {
      match this
      case BondGateway => "BondGateway"
      case UnbondGateway => "UnbondGateway"
      case TrackUnbondGateway => "TrackUnbondGateway"
      case BondMixnode => "BondMixnode"
      case UnbondMixnode => "UnbondMixnode"
      case TrackUnbondMixnode => "TrackUnbondMixnode"
      case WithdrawVestedCoins => "WithdrawVestedCoins"
      case TrackUndelegation => "TrackUndelegation"
      case DelegateToMixnode => "DelegateToMixnode"
      case UndelegateFromMixnode => "UndelegateFromMixnode"
      case CreatePeriodicVestingAccount => "CreatePeriodicVestingAccount"
    }
  }

  /** The fee the client computes for a variant. How it is computed (gas
      tables, gas price) is not part of this model: the client holds it as a
      function of the variant. */
  datatype Fee = Fee(amount: seq<CosmosCoin>, gasLimit: nat)
}
