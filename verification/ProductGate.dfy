/** The off-chain checks of a collaborator list, and why they imply the contract's. */
module ProductGate {
  import opened Types
  import opened Split
  import opened Contract
  import opened Payouts

  /** `percent` is a decimal with two places, held as its exact number of hundredths. */
  datatype Collaborator = Collaborator(address: Address, percent: int)

  datatype GateResult =
    | Accepted(collaborators: seq<Collaborator>)
    | BadSum
    | BadShare
    | Ineligible
    | NoWallet

  function PercentSum(list: seq<Collaborator>): int {
    if list == [] then 0 else list[0].percent + PercentSum(list[1..])
  }

  /** `payable` holds the wallets that are registered and have a USDC trustline. */
  function ResolveCollaborators(input: seq<Collaborator>, wallet: Option<Address>, payable: set<Address>): GateResult {
    if |input| > 0 then
      if PercentSum(input) != 100_00 then BadSum
      else if exists i :: 0 <= i < |input| && input[i].percent <= 0 then BadShare
      else if exists i :: 0 <= i < |input| && input[i].address !in payable then Ineligible
      else Accepted(input)
    else if wallet.None? then NoWallet
    else if wallet.value !in payable then Ineligible
    else Accepted([Collaborator(wallet.value, 100_00)])
  }

  /** The recipient vector the service sends: a share of p percent is 100 p basis points. */
  function ToRecipients(list: seq<Collaborator>): (recipients: seq<Recipient>)
    ensures |recipients| == |list|
    ensures forall i :: 0 <= i < |list| ==> recipients[i] == Recipient(list[i].address, list[i].percent)
  {
    seq(|list|, i requires 0 <= i < |list| => Recipient(list[i].address, list[i].percent))
  }

  /** The checks the settlement service repeats before it calls the contract. */
  predicate ServiceChecks(list: seq<Collaborator>) {
    |list| > 0 && PercentSum(list) == 100_00 && |list| <= MAX_RECIPIENTS
  }

  lemma {:induction false} PercentSumIsShareSum(list: seq<Collaborator>)
    ensures PercentSum(list) == Sum(SharesOf(ToRecipients(list)))
  {
    if list != [] {
      PercentSumIsShareSum(list[1..]);
      assert SharesOf(ToRecipients(list))[1..] == SharesOf(ToRecipients(list[1..]));
    }
  }

  lemma {:induction false} PrefixSumAtMostWhole(shares: seq<int>, i: nat)
    requires i <= |shares|
    requires forall k :: 0 <= k < |shares| ==> shares[k] > 0
    ensures Sum(shares[..i]) <= Sum(shares)
  {
    PositiveSum(shares);
    if i > 0 {
      PrefixSumAtMostWhole(shares[1..], i - 1);
      assert shares[..i][1..] == shares[1..][..i - 1];
    }
  }

  /** Every collaborator's percentage, in hundredths. */
  function Percents(list: seq<Collaborator>): (percents: seq<int>)
    ensures |percents| == |list|
  {
    seq(|list|, i requires 0 <= i < |list| => list[i].percent)
  }

  ghost predicate AllPayable(list: seq<Collaborator>, payable: set<Address>) {
    forall i :: 0 <= i < |list| ==> list[i].address in payable
  }

  ghost predicate AllPositive(list: seq<Collaborator>) {
    forall i :: 0 <= i < |list| ==> list[i].percent > 0
  }

  /** What each answer of the gate says about the list, the creator's wallet and the payable wallets. */
  ghost predicate AnswerFits(input: seq<Collaborator>, wallet: Option<Address>, payable: set<Address>,
                             answer: GateResult)
  {
    var whole := Sum(Percents(input)) == 100_00;
    match answer
    case Accepted(list) =>
      if input != [] then list == input && whole && AllPositive(input) && AllPayable(input, payable)
      else wallet.Some? && wallet.value in payable && list == [Collaborator(wallet.value, 100_00)]
    case BadSum => input != [] && !whole
    case BadShare => input != [] && whole && !AllPositive(input)
    case Ineligible =>
      if input != [] then whole && AllPositive(input) && !AllPayable(input, payable)
      else wallet.Some? && wallet.value !in payable
    case NoWallet => input == [] && wallet.None?
  }

  /**
   * The gate accepts a list exactly as it was given, or the creator alone when none was;
   * it does so if and only if nothing is wrong, and each rejection names what is.
   */
  lemma GateMeaning(input: seq<Collaborator>, wallet: Option<Address>, payable: set<Address>, answer: GateResult)
    ensures ResolveCollaborators(input, wallet, payable) == answer <==> AnswerFits(input, wallet, payable, answer)
  {
    PercentSumIsSum(input);
  }

  lemma {:induction false} PercentSumIsSum(list: seq<Collaborator>)
    ensures PercentSum(list) == Sum(Percents(list))
  {
    if list != [] {
      PercentSumIsSum(list[1..]);
      assert Percents(list)[1..] == Percents(list[1..]);
    }
  }

  /** Among lists of positive shares for different wallets, the service accepts exactly what the contract does. */
  lemma ServiceChecksAreContractChecks(list: seq<Collaborator>)
    requires AllPositive(list) && Distinct(ToRecipients(list))
    ensures ServiceChecks(list) <==> Validate(ToRecipients(list)) == Valid
    ensures ServiceChecks(list) <==> 1 <= |list| <= 10 && Sum(Percents(list)) == 100_00
  {
    PercentSumIsSum(list);
    PercentSumIsShareSum(list);
    ValidateMeaning(ToRecipients(list));
  }

  /**
   * A list that passed the product gate and the service's own checks is rejected by
   * the contract only for a duplicate address, and then always.
   */
  lemma GateImpliesContract(input: seq<Collaborator>, wallet: Option<Address>, payable: set<Address>)
    requires ResolveCollaborators(input, wallet, payable).Accepted?
    requires |ResolveCollaborators(input, wallet, payable).collaborators| <= 10
    ensures var recipients := ToRecipients(ResolveCollaborators(input, wallet, payable).collaborators);
      Validate(recipients) == if Distinct(recipients) then Valid else Invalid(DuplicateRecipient)
  {
    var list := ResolveCollaborators(input, wallet, payable).collaborators;
    var recipients := ToRecipients(list);
    assert PercentSum(list) == 100_00 by {
      if |input| == 0 {
        assert list[1..] == [];
      }
    }
    PositiveListVerdict(list);
  }

  lemma PositiveListVerdict(list: seq<Collaborator>)
    requires ServiceChecks(list)
    requires forall i :: 0 <= i < |list| ==> list[i].percent > 0
    ensures var recipients := ToRecipients(list);
      Validate(recipients) == if Distinct(recipients) then Valid else Invalid(DuplicateRecipient)
  {
    var recipients := ToRecipients(list);
    PercentSumIsShareSum(list);
    ValidateMeaning(recipients);
    var verdict := ValidateFrom(recipients, 0);
    if verdict.Invalid? {
      RejectionMeaning(recipients, 0, verdict.error);
      if verdict.error == ArithmeticOverflow {
        var i :| 0 <= i < |recipients| && Sum(SharesOf(recipients[..i + 1])) > I128_MAX;
        assert SharesOf(recipients[..i + 1]) == SharesOf(recipients)[..i + 1];
        PrefixSumAtMostWhole(SharesOf(recipients), i + 1);
        assert false;
      }
    }
  }

  /** What the contract accepts also passes the service's checks. */
  lemma ContractImpliesServiceChecks(list: seq<Collaborator>)
    requires Validate(ToRecipients(list)) == Valid
    ensures ServiceChecks(list) && forall i :: 0 <= i < |list| ==> list[i].percent > 0
  {
    ValidateMeaning(ToRecipients(list));
    PercentSumIsShareSum(list);
    forall i | 0 <= i < |list| ensures list[i].percent > 0 {
      assert SharesOf(ToRecipients(list))[i] > 0;
    }
  }
}
