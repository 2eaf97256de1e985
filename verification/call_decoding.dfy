/** Reading the operation back from the `execute` call the client makes:
    the partner of `VestingSigningClient.Dispatch`. Everything an operation
    is given reaches the contract, in the message or as funds. */
module CallDecoding {
  import opened Wrappers
  import opened Coins
  import Msg = VestingMessages
  import opened VestingSigningClient

  /** The single attached coin, read back through `unconvert`. */
  function SingleFund(funds: seq<CosmosCoin>, unconvert: CosmosCoin -> Coin): Option<Coin> {
    if |funds| == 1 then Some(unconvert(funds[0])) else None
  }

  /** The operation a message and its funds stand for, or `None` when the
      funds do not match the message (a coin missing, or one too many). */
  function DecodeRequest(msg: Msg.ExecuteMsg, funds: seq<CosmosCoin>, unconvert: CosmosCoin -> Coin): Option<VestingOp> {
    match msg
    case BondGateway(gateway, ownerSignature) =>
      (match SingleFund(funds, unconvert)
       case None => None
       case Some(pledge) => Some(BondGateway(gateway, pledge, ownerSignature)))
    case BondMixnode(mixNode, ownerSignature) =>
      (match SingleFund(funds, unconvert)
       case None => None
       case Some(pledge) => Some(BondMixnode(mixNode, pledge, ownerSignature)))
    case DelegateToMixnode(mixIdentity) =>
      (match SingleFund(funds, unconvert)
       case None => None
       case Some(amount) => Some(DelegateToMixnode(mixIdentity, amount)))
    case CreateAccount(address, startTime) =>
      (match SingleFund(funds, unconvert)
       case None => None
       case Some(amount) => Some(CreatePeriodicVestingAccount(address, startTime, amount)))
    case _ =>
      if funds != [] then None
      else match msg
        case UnbondGateway => Some(UnbondGateway)
        case TrackUnbondGateway(owner, amount) => Some(TrackUnbondGateway(owner, amount))
        case UnbondMixnode => Some(UnbondMixnode)
        case TrackUnbondMixnode(owner, amount) => Some(TrackUnbondMixnode(owner, amount))
        case WithdrawVestedCoins(amount) => Some(WithdrawVestedCoins(amount))
        case TrackUndelegation(owner, mixIdentity, amount) => Some(TrackUndelegation(owner, mixIdentity, amount))
        case UndelegateFromMixnode(mixIdentity) => Some(UndelegateFromMixnode(mixIdentity))
        case _ => None
  }

  /** The operation an `execute` call stands for. */
  function Decode(call: Call, unconvert: CosmosCoin -> Coin): Option<VestingOp> {
    DecodeRequest(call.msg, call.funds, unconvert)
  }

  /** Decoding undoes `Build` whenever `unconvert` undoes the coin
      conversion: no argument of any method is dropped or altered on its way
      into the message or the funds. */
  lemma DecodeBuild(op: VestingOp, convert: Coin -> CosmosCoin, unconvert: CosmosCoin -> Coin)
    requires forall c :: unconvert(convert(c)) == c
    ensures var r := Build(op, convert); DecodeRequest(r.msg, r.funds, unconvert) == Some(op)
  {
    match op
    case BondGateway(_, pledge, _) => assert unconvert(convert(pledge)) == pledge;
    case BondMixnode(_, pledge, _) => assert unconvert(convert(pledge)) == pledge;
    case DelegateToMixnode(_, amount) => assert unconvert(convert(amount)) == amount;
    case CreatePeriodicVestingAccount(_, _, amount) => assert unconvert(convert(amount)) == amount;
    case _ =>
  }

  /** The call `Dispatch` produces determines the operation it came from. */
  lemma DecodeDispatch(client: NymdClient, op: VestingOp, unconvert: CosmosCoin -> Coin)
    requires forall c :: unconvert(client.convert(c)) == c
    requires client.vestingContract.Some?
    ensures Dispatch(client, op).Success?
    ensures Decode(Dispatch(client, op).value, unconvert) == Some(op)
  {
    DecodeBuild(op, client.convert, unconvert);
  }

  /** Distinct operations never produce the same `execute` call, provided
      the coin conversion loses nothing. */
  lemma DispatchInjective(client: NymdClient, a: VestingOp, b: VestingOp, unconvert: CosmosCoin -> Coin)
    requires forall c :: unconvert(client.convert(c)) == c
    requires client.vestingContract.Some?
    requires Dispatch(client, a) == Dispatch(client, b)
    ensures a == b
  {
    DecodeDispatch(client, a, unconvert);
    DecodeDispatch(client, b, unconvert);
  }
}
