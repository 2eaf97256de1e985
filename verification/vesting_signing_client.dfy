/** The vesting signing client of the validator client: each of its eleven
    operations becomes exactly one `execute` call on the vesting contract,
    with a fee of the operation's own fee-table variant, a vesting contract
    message, the funds (if any) taken from the caller's wallet, and a fixed
    memo. */
module VestingSigningClient {
  import opened Wrappers
  import opened Coins
  import Fees
  import Msg = VestingMessages

  /** One call of a `VestingSigningClient` method, with its arguments. */
  datatype VestingOp =
    | BondGateway(gateway: Msg.Gateway, pledge: Coin, ownerSignature: string)
    | UnbondGateway
    | TrackUnbondGateway(owner: string, amount: Coin)
    | BondMixnode(mixNode: Msg.MixNode, pledge: Coin, ownerSignature: string)
    | UnbondMixnode
    | TrackUnbondMixnode(owner: string, amount: Coin)
    | WithdrawVestedCoins(amount: Coin)
    | TrackUndelegation(address: string, mixIdentity: Msg.IdentityKey, amount: Coin)
    | DelegateToMixnode(mixIdentity: Msg.IdentityKey, amount: Coin)
    | UndelegateFromMixnode(mixIdentity: Msg.IdentityKey)
    | CreatePeriodicVestingAccount(address: string, startTime: Option<U64>, amount: Coin)

  /** The errors of this client. `NoContractAddressAvailable` is the failed
      lookup of the vesting contract address; `ClientError` stands for the
      other failures of the signing client. `execute` may fail with any of
      them, and its error is handed back unchanged. */
  datatype NymdError =
    | NoContractAddressAvailable
    | ClientError(reason: string)

  /** The client: its own address, the configured vesting contract address
      (possibly missing), its fee computation and the coin conversion used for
      funds. The last two are not part of this model and enter as functions. */
  datatype NymdClient = NymdClient(
    address: string,
    vestingContract: Option<string>,
    operationFee: Fees.Operation -> Fees.Fee,
    convert: Coin -> CosmosCoin)

  /** Everything a method fixes before it contacts the contract: the fee
      variant it charges, the message, the memo and the attached funds. */
  datatype Request = Request(
    feeOperation: Fees.Operation,
    msg: Msg.ExecuteMsg,
    memo: string,
    funds: seq<CosmosCoin>)

  /** The arguments of one `execute(sender, contract, msg, fee, memo, funds)`. */
  datatype Call = Call(
    sender: string,
    contract: string,
    msg: Msg.ExecuteMsg,
    fee: Fees.Fee,
    memo: string,
    funds: seq<CosmosCoin>)

  /** What happened when a method ran: its result and the `execute` calls it
      made, in order. */
  datatype Outcome<T> = Outcome(result: Result<T, NymdError>, executed: seq<Call>)

  /** Whether two operations are calls of the same trait method. */
  predicate SameMethod(a: VestingOp, b: VestingOp) {
    || (a.BondGateway? && b.BondGateway?)
    || (a.UnbondGateway? && b.UnbondGateway?)
    || (a.TrackUnbondGateway? && b.TrackUnbondGateway?)
    || (a.BondMixnode? && b.BondMixnode?)
    || (a.UnbondMixnode? && b.UnbondMixnode?)
    || (a.TrackUnbondMixnode? && b.TrackUnbondMixnode?)
    || (a.WithdrawVestedCoins? && b.WithdrawVestedCoins?)
    || (a.TrackUndelegation? && b.TrackUndelegation?)
    || (a.DelegateToMixnode? && b.DelegateToMixnode?)
    || (a.UndelegateFromMixnode? && b.UndelegateFromMixnode?)
    || (a.CreatePeriodicVestingAccount? && b.CreatePeriodicVestingAccount?)
  }

  /** The coin argument of an operation (the pledge of a bond, the amount of
      the others), if it has one. */
  function CoinArgument(op: VestingOp): Option<Coin> {
    if op.BondGateway? || op.BondMixnode? then Some(op.pledge)
    else if op.UnbondGateway? || op.UnbondMixnode? || op.UndelegateFromMixnode? then None
    else Some(op.amount)
  }

  /** The operations that move coins out of the caller's wallet. */
  predicate PaysFromWallet(op: VestingOp) {
    op.BondGateway? || op.BondMixnode? || op.DelegateToMixnode? || op.CreatePeriodicVestingAccount?
  }

  /** Every memo is "VestingContract::" followed by a name. */
  function PrefixedMemo(name: string): string {
    "VestingContract::" + name
  }

  /** The part of each method that precedes `execute`: the fee variant, the
      message and the funds. An operation's coin travels exactly once: as
      converted funds for the operations that pay from the wallet, in the
      message body for the others, and not at all when it has none. */
  function Build(op: VestingOp, convert: Coin -> CosmosCoin): (r: Request)
    ensures |r.funds| <= 1
    ensures r.funds != [] <==> PaysFromWallet(op)
    ensures r.funds != [] ==>
      && CoinArgument(op).Some?
      && r.funds == [convert(CoinArgument(op).value)]
      && Msg.BodyAmount(r.msg).None?
    ensures r.funds == [] ==> Msg.BodyAmount(r.msg) == CoinArgument(op)
  {
    match op
    case BondGateway(gateway, pledge, ownerSignature) =>
      Request(Fees.BondGateway, Msg.BondGateway(gateway, ownerSignature),
              PrefixedMemo("BondGateway"), [convert(pledge)])
    case UnbondGateway =>
      Request(Fees.UnbondGateway, Msg.UnbondGateway,
              PrefixedMemo("UnbondGateway"), [])
    case TrackUnbondGateway(owner, amount) =>
      Request(Fees.TrackUnbondGateway, Msg.TrackUnbondGateway(owner, amount),
              PrefixedMemo("TrackUnbondGateway"), [])
    case BondMixnode(mixNode, pledge, ownerSignature) =>
      Request(Fees.BondMixnode, Msg.BondMixnode(mixNode, ownerSignature),
              PrefixedMemo("BondMixnode"), [convert(pledge)])
    case UnbondMixnode =>
      Request(Fees.UnbondMixnode, Msg.UnbondMixnode,
              PrefixedMemo("UnbondMixnode"), [])
    case TrackUnbondMixnode(owner, amount) =>
      Request(Fees.TrackUnbondMixnode, Msg.TrackUnbondMixnode(owner, amount),
              PrefixedMemo("TrackUnbondMixnode"), [])
    case WithdrawVestedCoins(amount) =>
      Request(Fees.WithdrawVestedCoins, Msg.WithdrawVestedCoins(amount),
              PrefixedMemo("WithdrawVested"), [])
    case TrackUndelegation(address, mixIdentity, amount) =>
      Request(Fees.TrackUndelegation, Msg.TrackUndelegation(address, mixIdentity, amount),
              PrefixedMemo("TrackUndelegation"), [])
    case DelegateToMixnode(mixIdentity, amount) =>
      Request(Fees.DelegateToMixnode, Msg.DelegateToMixnode(mixIdentity),
              PrefixedMemo("DeledateToMixnode"), [convert(amount)])
    case UndelegateFromMixnode(mixIdentity) =>
      Request(Fees.UndelegateFromMixnode, Msg.UndelegateFromMixnode(mixIdentity),
              PrefixedMemo("UndelegateFromMixnode"), [])
    case CreatePeriodicVestingAccount(address, startTime, amount) =>
      Request(Fees.CreatePeriodicVestingAccount, Msg.CreateAccount(address, startTime),
              PrefixedMemo("CreatePeriodicVestingAccount"), [convert(amount)])
  }

  /** `vesting_contract_address()`: the configured address, or an error. */
  function VestingContractAddress(client: NymdClient): Result<string, NymdError> {
    match client.vestingContract
    case None => Failure(NoContractAddressAvailable)
    case Some(contract) => Success(contract)
  }

  /** The `execute` call a method makes, or the error that stops it first.
      The call always goes from the client's own address to the vesting
      contract and charges the fee of the operation's fee variant; a missing
      contract address is the only way to fail before `execute`. */
  function Dispatch(client: NymdClient, op: VestingOp): (r: Result<Call, NymdError>)
    ensures r.Failure? <==> client.vestingContract.None?
    ensures r.Failure? ==> r.error == NoContractAddressAvailable
    ensures r.Success? ==>
      var request := Build(op, client.convert);
      && r.value.sender == client.address
      && Some(r.value.contract) == client.vestingContract
      && r.value.fee == client.operationFee(request.feeOperation)
      && r.value.msg == request.msg
      && r.value.memo == request.memo
      && r.value.funds == request.funds
  {
    var request := Build(op, client.convert);
    var fee := client.operationFee(request.feeOperation);
    var contract :- VestingContractAddress(client);
    Success(Call(client.address, contract, request.msg, fee, request.memo, request.funds))
  }

  /** A whole method run against the signing client's `execute`, which is
      not part of this model and enters as a function. `execute` is invoked
      exactly once when the contract address is known and never otherwise,
      and whatever it returns is the method's result, unchanged. */
  function Submit<T>(client: NymdClient, op: VestingOp, execute: Call -> Result<T, NymdError>): (o: Outcome<T>)
    ensures client.vestingContract.None? ==>
      o.executed == [] && o.result == Failure(NoContractAddressAvailable)
    ensures client.vestingContract.Some? ==>
      && |o.executed| == 1
      && o.result == execute(o.executed[0])
      && Success(o.executed[0]) == Dispatch(client, op)
  {
    match Dispatch(client, op)
    case Failure(e) => Outcome(Failure(e), [])
    case Success(call) => Outcome(execute(call), [call])
  }

  /** Each method charges its own fee variant: two operations share a fee
      variant exactly when they are calls of the same method. */
  lemma FeeVariantOneToOne(convert: Coin -> CosmosCoin, a: VestingOp, b: VestingOp)
    ensures Build(a, convert).feeOperation == Build(b, convert).feeOperation <==> SameMethod(a, b)
  {
  }

  /** Each method charges the fee-table variant of its own name. */
  lemma EachMethodChargesItsOwnVariant(convert: Coin -> CosmosCoin, op: VestingOp)
    ensures op.BondGateway? ==> Build(op, convert).feeOperation == Fees.BondGateway
    ensures op.UnbondGateway? ==> Build(op, convert).feeOperation == Fees.UnbondGateway
    ensures op.TrackUnbondGateway? ==> Build(op, convert).feeOperation == Fees.TrackUnbondGateway
    ensures op.BondMixnode? ==> Build(op, convert).feeOperation == Fees.BondMixnode
    ensures op.UnbondMixnode? ==> Build(op, convert).feeOperation == Fees.UnbondMixnode
    ensures op.TrackUnbondMixnode? ==> Build(op, convert).feeOperation == Fees.TrackUnbondMixnode
    ensures op.WithdrawVestedCoins? ==> Build(op, convert).feeOperation == Fees.WithdrawVestedCoins
    ensures op.TrackUndelegation? ==> Build(op, convert).feeOperation == Fees.TrackUndelegation
    ensures op.DelegateToMixnode? ==> Build(op, convert).feeOperation == Fees.DelegateToMixnode
    ensures op.UndelegateFromMixnode? ==> Build(op, convert).feeOperation == Fees.UndelegateFromMixnode
    ensures op.CreatePeriodicVestingAccount? ==>
      Build(op, convert).feeOperation == Fees.CreatePeriodicVestingAccount
  {
  }

  /** Every fee variant is charged by some method, so the methods and the
      variants correspond one to one. */
  lemma EveryFeeVariantCharged(convert: Coin -> CosmosCoin, f: Fees.Operation)
    ensures exists op :: Build(op, convert).feeOperation == f
  {
    var c := Coin("", 0);
    var op := match f
      case BondGateway => BondGateway(Msg.Gateway("", "", ""), c, "")
      case UnbondGateway => UnbondGateway
      case TrackUnbondGateway => TrackUnbondGateway("", c)
      case BondMixnode => BondMixnode(Msg.MixNode("", "", ""), c, "")
      case UnbondMixnode => UnbondMixnode
      case TrackUnbondMixnode => TrackUnbondMixnode("", c)
      case WithdrawVestedCoins => WithdrawVestedCoins(c)
      case TrackUndelegation => TrackUndelegation("", "", c)
      case DelegateToMixnode => DelegateToMixnode("", c)
      case UndelegateFromMixnode => UndelegateFromMixnode("")
      case CreatePeriodicVestingAccount => CreatePeriodicVestingAccount("", None, c);
    assert Build(op, convert).feeOperation == f;
  }

  /** Each memo names the fee variant charged, except the two that the
      client code spells differently: "VestingContract::WithdrawVested" and the
      misspelt "VestingContract::DeledateToMixnode". */
  lemma MemoNamesFeeVariant(convert: Coin -> CosmosCoin, op: VestingOp)
    ensures Build(op, convert).memo == PrefixedMemo(
      if op.WithdrawVestedCoins? then "WithdrawVested"
      else if op.DelegateToMixnode? then "DeledateToMixnode"
      else Build(op, convert).feeOperation.Name())
  {
  }

  /** Memos tell the methods apart: two operations carry the same memo
      exactly when they are calls of the same method. */
  lemma MemoOneToOne(convert: Coin -> CosmosCoin, a: VestingOp, b: VestingOp)
    ensures Build(a, convert).memo == Build(b, convert).memo <==> SameMethod(a, b)
  {
    var ma, mb := Build(a, convert).memo, Build(b, convert).memo;
    var n := |"VestingContract::"|;
    assert ma == mb ==> ma[n..] == mb[n..];
  }

  /** Delegation sends its amount only as funds and names only the node in
      the message; undelegation sends neither an amount nor funds. */
  lemma DelegationAmountOnlyInFunds(convert: Coin -> CosmosCoin, mixIdentity: Msg.IdentityKey, amount: Coin)
    ensures var r := Build(DelegateToMixnode(mixIdentity, amount), convert);
      r.msg == Msg.DelegateToMixnode(mixIdentity) && r.funds == [convert(amount)]
    ensures var r := Build(UndelegateFromMixnode(mixIdentity), convert);
      r.msg == Msg.UndelegateFromMixnode(mixIdentity) && r.funds == []
  {
  }

  /** Withdrawal and the three track operations carry their amount in the
      message body, unchanged, and attach no funds. The track operations copy
      the owner unchanged; undelegation tracking takes it from its `address`
      argument and passes the node identity through. */
  lemma BodyAmountOperations(convert: Coin -> CosmosCoin, owner: string, mixIdentity: Msg.IdentityKey, amount: Coin)
    ensures Build(WithdrawVestedCoins(amount), convert).msg == Msg.WithdrawVestedCoins(amount)
    ensures Build(TrackUnbondGateway(owner, amount), convert).msg == Msg.TrackUnbondGateway(owner, amount)
    ensures Build(TrackUnbondMixnode(owner, amount), convert).msg == Msg.TrackUnbondMixnode(owner, amount)
    ensures Build(TrackUndelegation(owner, mixIdentity, amount), convert).msg
         == Msg.TrackUndelegation(owner, mixIdentity, amount)
    ensures Build(WithdrawVestedCoins(amount), convert).funds == []
    ensures Build(TrackUnbondGateway(owner, amount), convert).funds == []
    ensures Build(TrackUnbondMixnode(owner, amount), convert).funds == []
    ensures Build(TrackUndelegation(owner, mixIdentity, amount), convert).funds == []
  {
  }

  /** Bonding copies the node descriptor and the owner signature into the
      message and attaches the converted pledge as the only funds. */
  lemma BondOperations(
    convert: Coin -> CosmosCoin, gateway: Msg.Gateway, mixNode: Msg.MixNode, pledge: Coin, ownerSignature: string)
    ensures Build(BondGateway(gateway, pledge, ownerSignature), convert).msg
         == Msg.BondGateway(gateway, ownerSignature)
    ensures Build(BondMixnode(mixNode, pledge, ownerSignature), convert).msg
         == Msg.BondMixnode(mixNode, ownerSignature)
    ensures Build(BondGateway(gateway, pledge, ownerSignature), convert).funds == [convert(pledge)]
    ensures Build(BondMixnode(mixNode, pledge, ownerSignature), convert).funds == [convert(pledge)]
  {
  }

  /** Account creation passes the address and the start time through, an
      absent start time staying absent, and funds the account with the
      converted amount. */
  lemma CreateAccountPassesThrough(
    convert: Coin -> CosmosCoin, address: string, startTime: Option<U64>, amount: Coin)
    ensures var r := Build(CreatePeriodicVestingAccount(address, startTime, amount), convert);
      && r.msg.CreateAccount?
      && r.msg.address == address
      && r.msg.startTime == startTime
      && r.funds == [convert(amount)]
  {
  }
}
