/** The delegation value objects of the mixnet contract: a single delegation
    and the two paged query responses. */
module Delegations {
  import opened Wrappers
  import opened Coins

  /** A stake of `amount` delegated to the node whose identity key is
      `nodeIdentity`. Its fields are private in the contract and read through
      `Amount` and `NodeIdentity`. */
  datatype Delegation = Delegation(nodeIdentity: string, amount: Coin) {

    function Amount(): Coin {
      amount
    }

    function NodeIdentity(): string {
      nodeIdentity
    }
  }

  const DELEGATED_TO: string := " delegated to "

  /** `Delegation::new`: the getters give back exactly what was passed in. */
  function NewDelegation(nodeIdentity: string, amount: Coin): (d: Delegation)
    ensures d.NodeIdentity() == nodeIdentity
    ensures d.Amount() == amount
  {
    Delegation(nodeIdentity, amount)
  }

  /** The derived `PartialEq`: field by field, and `Coin`'s own derived
      equality on denomination and amount. */
  function DelegationEq(a: Delegation, b: Delegation): (r: bool)
    ensures r <==> a == b
  {
    && a.nodeIdentity == b.nodeIdentity
    && a.amount.denom == b.amount.denom
    && a.amount.amount == b.amount.amount
  }

  datatype PagedMixDelegationsResponse = PagedMixDelegationsResponse(
    nodeIdentity: string,
    delegations: seq<Delegation>,
    startNextAfter: Option<string>)

  datatype PagedGatewayDelegationsResponse = PagedGatewayDelegationsResponse(
    nodeIdentity: string,
    delegations: seq<Delegation>,
    startNextAfter: Option<string>)

  /** `PagedMixDelegationsResponse::new`: every field is kept, the page in
      its given order and an absent cursor absent. */
  function NewPagedMixDelegationsResponse(
    nodeIdentity: string, delegations: seq<Delegation>, startNextAfter: Option<string>
  ): (r: PagedMixDelegationsResponse)
    ensures r.nodeIdentity == nodeIdentity
    ensures |r.delegations| == |delegations|
    ensures forall i :: 0 <= i < |delegations| ==> r.delegations[i] == delegations[i]
    ensures r.startNextAfter == startNextAfter
  {
    PagedMixDelegationsResponse(nodeIdentity, delegations, startNextAfter)
  }

  /** `PagedGatewayDelegationsResponse::new`, with the same guarantees. */
  function NewPagedGatewayDelegationsResponse(
    nodeIdentity: string, delegations: seq<Delegation>, startNextAfter: Option<string>
  ): (r: PagedGatewayDelegationsResponse)
    ensures r.nodeIdentity == nodeIdentity
    ensures |r.delegations| == |delegations|
    ensures forall i :: 0 <= i < |delegations| ==> r.delegations[i] == delegations[i]
    ensures r.startNextAfter == startNextAfter
  {
    PagedGatewayDelegationsResponse(nodeIdentity, delegations, startNextAfter)
  }

  /** The position of the first `c` in `s`, if any. */
  function IndexOf(s: string, c: char): (r: Option<nat>)
    ensures r.Some? ==> r.value < |s| && s[r.value] == c && c !in s[..r.value]
    ensures r.None? ==> c !in s
  {
    if |s| == 0 then None
    else if s[0] == c then Some(0)
    else match IndexOf(s[1..], c)
      case None => None
      case Some(k) =>
        assert s[..k + 1] == [s[0]] + s[1..][..k];
        Some(k + 1)
  }

  lemma FirstIndex(s: string, c: char, k: nat)
    requires k < |s| && s[k] == c && c !in s[..k]
    ensures IndexOf(s, c) == Some(k)
  {
    assert forall m :: 0 <= m < k ==> s[..k][m] == s[m];
  }

  /** Reads a delegation back from its `Display` text: the amount, in
      canonical decimal (no leading zero), up to the first space, the denomination up to the next space, then the fixed
      " delegated to " and the node identity. */
  function ParseDisplay(s: string): Option<Delegation> {
    match IndexOf(s, ' ')
    case None => None
    case Some(i) =>
      var digits := s[..i];
      if !IsCanonicalDecimal(digits) || DecimalToNat(digits) >= UINT128_LIMIT then None
      else ParseDenomAndNode(DecimalToNat(digits), s[i + 1..])
  }

  /** The part of `ParseDisplay` after the amount and its space. */
  function ParseDenomAndNode(amount: Uint128, rest: string): Option<Delegation> {
    match IndexOf(rest, ' ')
    case None => None
    case Some(j) =>
      var tail := rest[j..];
      if |tail| < |DELEGATED_TO| || tail[..|DELEGATED_TO|] != DELEGATED_TO then None
      else Some(Delegation(tail[|DELEGATED_TO|..], Coin(rest[..j], amount)))
  }

  /** `Display for Delegation`: the amount, the denomination, and the node
      it is delegated to. The text determines the delegation: parsing it
      gives the delegation back. Denominations never contain a space. */
  function Display(d: Delegation): (s: string)
    ensures ' ' !in d.amount.denom ==> ParseDisplay(s) == Some(d)
  {
    var s := NatToDecimal(d.amount.amount) + " " + d.amount.denom + DELEGATED_TO + d.nodeIdentity;
    DisplayParsesBack(d, s);
    s
  }

  lemma DisplayParsesBack(d: Delegation, s: string)
    requires s == NatToDecimal(d.amount.amount) + " " + d.amount.denom + DELEGATED_TO + d.nodeIdentity
    ensures ' ' !in d.amount.denom ==> ParseDisplay(s) == Some(d)
  {
    if ' ' !in d.amount.denom {
      var digits := NatToDecimal(d.amount.amount);
      var rest := d.amount.denom + DELEGATED_TO + d.nodeIdentity;
      assert s == digits + [' '] + rest;
      assert s[..|digits|] == digits;
      assert s[|digits| + 1..] == rest;
      FirstIndex(s, ' ', |digits|);
      DecimalRoundTrip(d.amount.amount);
      DenomAndNodeParse(d, rest);
    }
  }

  lemma DenomAndNodeParse(d: Delegation, rest: string)
    requires ' ' !in d.amount.denom
    requires rest == d.amount.denom + DELEGATED_TO + d.nodeIdentity
    ensures ParseDenomAndNode(d.amount.amount, rest) == Some(d)
  {
    assert rest[..|d.amount.denom|] == d.amount.denom;
    FirstIndex(rest, ' ', |d.amount.denom|);
    var tail := rest[|d.amount.denom|..];
    assert tail == DELEGATED_TO + d.nodeIdentity;
    assert tail[..|DELEGATED_TO|] == DELEGATED_TO;
    assert tail[|DELEGATED_TO|..] == d.nodeIdentity;
  }

  /** Only the exact `Display` text of a delegation parses: whatever
      `ParseDisplay` accepts is the canonical amount, a space, the
      denomination, " delegated to " and the node identity. */
  lemma ParseDisplayOnlyExactText(s: string)
    ensures ParseDisplay(s).Some? ==>
      var d := ParseDisplay(s).value;
      && ' ' !in d.amount.denom
      && s == NatToDecimal(d.amount.amount) + " " + d.amount.denom + DELEGATED_TO + d.nodeIdentity
  {
    if ParseDisplay(s).Some? {
      var d := ParseDisplay(s).value;
      var i := IndexOf(s, ' ').value;
      var digits, rest := s[..i], s[i + 1..];
      CanonicalDecimalRoundTrip(digits);
      DenomAndNodeOnlyExactText(DecimalToNat(digits), rest);
      assert s == digits + " " + rest;
    }
  }

  lemma DenomAndNodeOnlyExactText(amount: Uint128, rest: string)
    ensures ParseDenomAndNode(amount, rest).Some? ==>
      var d := ParseDenomAndNode(amount, rest).value;
      && d.amount.amount == amount
      && ' ' !in d.amount.denom
      && rest == d.amount.denom + DELEGATED_TO + d.nodeIdentity
  {
    if ParseDenomAndNode(amount, rest).Some? {
      var j := IndexOf(rest, ' ').value;
      var tail := rest[j..];
      assert rest == rest[..j] + tail;
      assert tail == tail[..|DELEGATED_TO|] + tail[|DELEGATED_TO|..];
    }
  }

  /** Two delegations with well-formed denominations never print alike. */
  lemma DisplayInjective(a: Delegation, b: Delegation)
    requires ' ' !in a.amount.denom && ' ' !in b.amount.denom
    requires Display(a) == Display(b)
    ensures a == b
  {
  }
}
