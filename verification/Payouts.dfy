/** When the contract pays, what a payment does to every balance, and what its event log proves. */
module Payouts {
  import opened Types
  import opened Split
  import opened Ledger
  import opened Contract

  // ------------------------------------------------------------------ validation

  lemma {:induction false} ValidateFromMeaning(recipients: seq<Recipient>, sum: int)
    requires 0 <= sum
    ensures ValidateFrom(recipients, sum) == Valid <==>
              && (forall i :: 0 <= i < |recipients| ==> recipients[i].shareBps > 0)
              && Distinct(recipients)
              && sum + Sum(SharesOf(recipients)) == BPS
  {
    if recipients != [] {
      var rest := recipients[1..];
      assert SharesOf(recipients)[1..] == SharesOf(rest);
      assert forall i :: 0 <= i < |rest| ==> rest[i] == recipients[i + 1];
      assert forall i :: 1 <= i < |recipients| ==> recipients[i] == rest[i - 1];
      if recipients[0].shareBps > 0 {
        ValidateFromMeaning(rest, sum + recipients[0].shareBps);
        if forall i :: 0 <= i < |rest| ==> rest[i].shareBps > 0 {
          PositiveSum(SharesOf(rest));
        }
        assert Listed(recipients[0].address, rest) ==> !Distinct(recipients);
      }
    }
  }

  lemma {:induction false} PositiveSum(shares: seq<int>)
    requires forall i :: 0 <= i < |shares| ==> shares[i] > 0
    ensures Sum(shares) >= |shares|
  {
    if shares != [] {
      PositiveSum(shares[1..]);
    }
  }

  /** The one-pass check accepts exactly one to ten different recipients with positive shares of 10000 in all. */
  lemma ValidateMeaning(recipients: seq<Recipient>)
    ensures Validate(recipients) == Valid <==> Acceptable(recipients)
    ensures Validate(recipients) == Valid <==>
              && 1 <= |recipients| <= 10
              && (forall i :: 0 <= i < |recipients| ==> recipients[i].shareBps > 0)
              && (forall i, j :: 0 <= i < j < |recipients| ==> recipients[i].address != recipients[j].address)
              && Sum(SharesOf(recipients)) == 10_000
  {
    ValidateFromMeaning(recipients, 0);
    var shares := SharesOf(recipients);
    assert (forall i :: 0 <= i < |shares| ==> shares[i] > 0)
        == (forall i :: 0 <= i < |recipients| ==> recipients[i].shareBps > 0);
  }

  /** Each rejection names a defect the list really has. */
  lemma {:induction false} RejectionMeaning(recipients: seq<Recipient>, sum: int, error: ContractError)
    requires 0 <= sum
    requires ValidateFrom(recipients, sum) == Invalid(error)
    ensures match error
      case ZeroAllocation => exists i :: 0 <= i < |recipients| && recipients[i].shareBps <= 0
      case DuplicateRecipient => !Distinct(recipients)
      case ArithmeticOverflow =>
        exists i ::
          0 <= i < |recipients| && recipients[i].shareBps > 0 && sum + Sum(SharesOf(recipients[..i + 1])) > I128_MAX
      case InvalidAllocationSum => sum + Sum(SharesOf(recipients)) != BPS && Distinct(recipients)
      case _ => false
  {
    if recipients != [] {
      var head, rest := recipients[0], recipients[1..];
      assert SharesOf(recipients)[1..] == SharesOf(rest);
      if head.shareBps <= 0 {
        assert error == ZeroAllocation;
      } else if !IsI128(sum + head.shareBps) {
        assert SharesOf(recipients[..1]) == [head.shareBps];
        assert Sum([head.shareBps]) == head.shareBps + Sum([]);
      } else if Listed(head.address, rest) {
        var i :| 0 <= i < |rest| && rest[i].address == head.address;
        assert recipients[i + 1] == rest[i];
      } else {
        RejectionMeaning(rest, sum + head.shareBps, error);
        match error {
          case ZeroAllocation =>
            var i :| 0 <= i < |rest| && rest[i].shareBps <= 0;
            assert recipients[i + 1].shareBps <= 0;
          case DuplicateRecipient =>
            var i, j :| 0 <= i < j < |rest| && rest[i].address == rest[j].address;
            assert recipients[i + 1].address == recipients[j + 1].address;
          case ArithmeticOverflow =>
            var i :| && 0 <= i < |rest| && rest[i].shareBps > 0
                     && sum + head.shareBps + Sum(SharesOf(rest[..i + 1])) > I128_MAX;
            LongerPrefix(recipients, i);
            assert recipients[i + 1].shareBps > 0;
          case InvalidAllocationSum =>
            assert forall i :: 1 <= i < |recipients| ==> recipients[i] == rest[i - 1];
          case _ =>
        }
      }
    }
  }

  /** What the pass over the recipients finds at position `i`, `sum` already allocated. */
  datatype Finding = Fine | NotPositive | SumOverflows | Repeated

  ghost function FindingAt(recipients: seq<Recipient>, i: nat, sum: int): Finding
    requires i < |recipients|
  {
    if recipients[i].shareBps <= 0 then NotPositive
    else if sum + Sum(SharesOf(recipients[..i + 1])) > 170_141_183_460_469_231_731_687_303_715_884_105_727
    then SumOverflows
    else if exists j :: i < j < |recipients| && recipients[j].address == recipients[i].address then Repeated
    else Fine
  }

  /** The first position where anything is wrong, and what it is. */
  ghost predicate FirstWrong(recipients: seq<Recipient>, sum: int, i: nat, finding: Finding) {
    && i < |recipients| && FindingAt(recipients, i, sum) == finding != Fine
    && forall k :: 0 <= k < i ==> FindingAt(recipients, k, sum) == Fine
  }

  ghost predicate NothingWrong(recipients: seq<Recipient>, sum: int) {
    forall k :: 0 <= k < |recipients| ==> FindingAt(recipients, k, sum) == Fine
  }

  function ErrorFor(finding: Finding): ContractError
    requires finding != Fine
  {
    match finding
    case NotPositive => ZeroAllocation
    case SumOverflows => ArithmeticOverflow
    case Repeated => DuplicateRecipient
  }

  lemma FindingLater(recipients: seq<Recipient>, sum: int, k: nat)
    requires 0 < k < |recipients|
    ensures FindingAt(recipients, k, sum) == FindingAt(recipients[1..], k - 1, sum + recipients[0].shareBps)
  {
    var rest := recipients[1..];
    LongerPrefix(recipients, k - 1);
    assert rest[k - 1] == recipients[k];
    assert forall j :: k < j < |recipients| ==> recipients[j] == rest[j - 1];
    assert forall j :: k - 1 < j < |rest| ==> rest[j] == recipients[j + 1];
  }

  lemma FindingFirst(recipients: seq<Recipient>, sum: int)
    requires recipients != [] && sum >= 0
    ensures FindingAt(recipients, 0, sum)
         == if recipients[0].shareBps <= 0 then NotPositive
            else if !IsI128(sum + recipients[0].shareBps) then SumOverflows
            else if Listed(recipients[0].address, recipients[1..]) then Repeated
            else Fine
  {
    var rest := recipients[1..];
    assert SharesOf(recipients[..0 + 1]) == [recipients[0].shareBps] && [recipients[0].shareBps][1..] == [];
    assert Sum(SharesOf(recipients[..0 + 1])) == recipients[0].shareBps;
    if Listed(recipients[0].address, rest) {
      var j :| 0 <= j < |rest| && rest[j].address == recipients[0].address;
      assert recipients[j + 1].address == recipients[0].address;
    }
    if j :| 0 < j < |recipients| && recipients[j].address == recipients[0].address {
      assert rest[j - 1].address == recipients[0].address;
    }
  }

  /** The pass reports the first thing that is wrong, or in the end a wrong sum. */
  lemma {:induction false} FirstWrongDecides(recipients: seq<Recipient>, sum: int, i: nat, finding: Finding)
    requires sum >= 0 && FirstWrong(recipients, sum, i, finding)
    ensures ValidateFrom(recipients, sum) == Invalid(ErrorFor(finding))
  {
    FindingFirst(recipients, sum);
    if i > 0 {
      var rest, more := recipients[1..], sum + recipients[0].shareBps;
      assert FindingAt(recipients, 0, sum) == Fine;
      forall k | 0 < k <= i ensures FindingAt(rest, k - 1, more) == FindingAt(recipients, k, sum) {
        FindingLater(recipients, sum, k);
      }
      forall k | 0 <= k < i - 1 ensures FindingAt(rest, k, more) == Fine {
        assert FindingAt(rest, k + 1 - 1, more) == FindingAt(recipients, k + 1, sum);
      }
      FirstWrongDecides(rest, more, i - 1, finding);
    }
  }

  lemma {:induction false} NothingWrongDecides(recipients: seq<Recipient>, sum: int)
    requires sum >= 0 && NothingWrong(recipients, sum)
    ensures ValidateFrom(recipients, sum)
         == if sum + Sum(SharesOf(recipients)) == 10_000 then Valid else Invalid(InvalidAllocationSum)
  {
    if recipients != [] {
      var rest, more := recipients[1..], sum + recipients[0].shareBps;
      FindingFirst(recipients, sum);
      assert FindingAt(recipients, 0, sum) == Fine;
      forall k | 0 <= k < |rest| ensures FindingAt(rest, k, more) == Fine {
        FindingLater(recipients, sum, k + 1);
        assert FindingAt(recipients, k + 1, sum) == Fine;
      }
      NothingWrongDecides(rest, more);
      assert SharesOf(recipients)[1..] == SharesOf(rest);
    }
  }

  lemma {:induction false} WrongOrNot(recipients: seq<Recipient>, n: nat) returns (i: nat)
    requires n <= |recipients|
    ensures i <= n && forall k :: 0 <= k < i ==> FindingAt(recipients, k, 0) == Fine
    ensures i < n ==> FindingAt(recipients, i, 0) != Fine
  {
    i := 0;
    if n > 0 {
      i := WrongOrNot(recipients, n - 1);
      if i == n - 1 && FindingAt(recipients, i, 0) == Fine {
        i := n;
      }
    }
  }

  /** Which verdict a list gets: by its length, then by the first thing wrong in it, then by its sum. */
  ghost predicate VerdictFits(recipients: seq<Recipient>, verdict: Verdict) {
    var n := |recipients|;
    match verdict
    case Valid => 1 <= n <= 10 && NothingWrong(recipients, 0) && Sum(SharesOf(recipients)) == 10_000
    case Invalid(error) =>
      match error
      case EmptyRecipients => n == 0
      case TooManyRecipients => n > 10
      case ZeroAllocation => 1 <= n <= 10 && exists i: nat :: FirstWrong(recipients, 0, i, NotPositive)
      case ArithmeticOverflow => 1 <= n <= 10 && exists i: nat :: FirstWrong(recipients, 0, i, SumOverflows)
      case DuplicateRecipient => 1 <= n <= 10 && exists i: nat :: FirstWrong(recipients, 0, i, Repeated)
      case InvalidAllocationSum => 1 <= n <= 10 && NothingWrong(recipients, 0) && Sum(SharesOf(recipients)) != 10_000
      case _ => false
  }

  /** The verdict on every list, errors included: the one verdict that fits. */
  lemma VerdictMeaning(recipients: seq<Recipient>, verdict: Verdict)
    ensures Validate(recipients) == verdict <==> VerdictFits(recipients, verdict)
  {
    if 1 <= |recipients| <= 10 {
      var i := WrongOrNot(recipients, |recipients|);
      if i < |recipients| {
        assert FirstWrong(recipients, 0, i, FindingAt(recipients, i, 0));
        FirstWrongDecides(recipients, 0, i, FindingAt(recipients, i, 0));
        OneFirstWrong(recipients, i, FindingAt(recipients, i, 0));
      } else {
        NothingWrongDecides(recipients, 0);
      }
    }
  }

  lemma OneFirstWrong(recipients: seq<Recipient>, i: nat, found: Finding)
    requires FirstWrong(recipients, 0, i, found)
    ensures forall k: nat, finding :: FirstWrong(recipients, 0, k, finding) ==> finding == found
    ensures !NothingWrong(recipients, 0)
  {
    forall k: nat, finding | FirstWrong(recipients, 0, k, finding) ensures finding == found {
      SameFirstWrong(recipients, i, found, k, finding);
    }
  }

  lemma SameFirstWrong(recipients: seq<Recipient>, i: nat, found: Finding, k: nat, finding: Finding)
    requires FirstWrong(recipients, 0, i, found) && FirstWrong(recipients, 0, k, finding)
    ensures finding == found
  {
    var first := if i < k then i else k;
    assert FindingAt(recipients, first, 0) != Fine;
    assert i == k;
  }

  lemma LongerPrefix(recipients: seq<Recipient>, i: nat)
    requires i < |recipients| - 1
    ensures Sum(SharesOf(recipients[..i + 2])) == recipients[0].shareBps + Sum(SharesOf(recipients[1..][..i + 1]))
  {
    var prefix := recipients[..i + 2];
    assert prefix[1..] == recipients[1..][..i + 1];
    assert SharesOf(prefix)[1..] == SharesOf(prefix[1..]);
  }

  // -------------------------------------------------------------------- overflow

  /** Whenever the checked arithmetic finishes, it finishes with the unchecked amounts. */
  lemma {:induction false} CheckedIsAmounts(pool: int, shares: seq<int>, distributed: int)
    ensures CheckedAmounts(pool, shares, distributed).Some?
        ==> CheckedAmounts(pool, shares, distributed).value == AmountsFrom(pool, shares, distributed)
  {
    if |shares| > 1 {
      CheckedIsAmounts(pool, shares[1..], distributed + Share(pool, shares[0]));
    }
  }

  ghost predicate ProductsFit(pool: int, shares: seq<int>) {
    forall i :: 0 <= i < |shares| - 1 ==>
      pool * shares[i] <= 170_141_183_460_469_231_731_687_303_715_884_105_727
  }

  /** Only a product can overflow: the running total never passes the pool. */
  lemma {:induction false} OverflowMeaning(pool: nat, shares: seq<int>, distributed: nat)
    requires pool <= I128_MAX
    requires forall i :: 0 <= i < |shares| ==> shares[i] > 0
    requires BPS * distributed + pool * Sum(shares) <= BPS * pool
    ensures CheckedAmounts(pool, shares, distributed).Some? <==> ProductsFit(pool, shares)
  {
    if |shares| == 1 {
      PositiveSum(shares);
      NothingLeft(pool, Sum(shares), distributed);
    } else if shares != [] {
      var rest := shares[1..];
      PositiveSum(rest);
      assert Sum(shares) == shares[0] + Sum(rest);
      RunningTotal(pool, shares[0], Sum(rest), distributed);
      CheckedHead(pool, shares, distributed);
      if pool * shares[0] <= I128_MAX {
        OverflowMeaning(pool, rest, distributed + Share(pool, shares[0]));
      }
      ProductsFitHead(pool, shares);
    }
  }

  lemma NothingLeft(pool: nat, later: nat, distributed: nat)
    requires BPS * distributed + pool * later <= BPS * pool
    ensures distributed <= pool
  {
    assert pool * later >= 0;
  }

  lemma RunningTotal(pool: nat, share: nat, later: nat, distributed: nat)
    requires BPS * distributed + pool * (share + later) <= BPS * pool
    ensures 0 <= Share(pool, share) && distributed + Share(pool, share) <= pool
    ensures BPS * (distributed + Share(pool, share)) + pool * later <= BPS * pool
  {
    assert pool * (share + later) == pool * share + pool * later;
    assert pool * share >= 0 && pool * later >= 0;
    assert BPS * Share(pool, share) <= pool * share;
  }

  lemma CheckedHead(pool: nat, shares: seq<int>, distributed: nat)
    requires |shares| > 1 && shares[0] > 0
    requires distributed + Share(pool, shares[0]) <= I128_MAX
    ensures CheckedAmounts(pool, shares, distributed).Some?
        <==> pool * shares[0] <= I128_MAX
             && CheckedAmounts(pool, shares[1..], distributed + Share(pool, shares[0])).Some?
  {
    assert pool * shares[0] >= 0;
  }

  lemma ProductsFitHead(pool: nat, shares: seq<int>)
    requires |shares| > 1
    ensures ProductsFit(pool, shares) <==> pool * shares[0] <= I128_MAX && ProductsFit(pool, shares[1..])
  {
    var rest := shares[1..];
    if ProductsFit(pool, shares) {
      forall i | 0 <= i < |rest| - 1 ensures pool * rest[i] <= I128_MAX {
        assert rest[i] == shares[i + 1];
      }
    }
    if pool * shares[0] <= I128_MAX && ProductsFit(pool, rest) {
      forall i | 0 <= i < |shares| - 1 ensures pool * shares[i] <= I128_MAX {
        if i > 0 {
          assert rest[i - 1] == shares[i];
        }
      }
    }
  }

  /** Totals up to (2^127 - 1) / 10000 never overflow, whatever the valid shares. */
  lemma SmallTotalsFit(total: nat, shares: seq<int>)
    requires Whole(shares)
    requires total <= 170_141_183_460_469_231_731_687_303_715_884_105_727 / 10_000
    ensures IsI128(total * FEE_BPS) && ProductsFit(Pool(total), shares)
  {
    FeeBounds(total);
    forall i | 0 <= i < |shares| - 1 ensures Pool(total) * shares[i] <= I128_MAX {
      ShareAtMostWhole(shares, i);
      ProductAtMost(Pool(total), shares[i], BPS);
    }
  }

  lemma ProductAtMost(pool: nat, share: nat, whole: nat)
    requires share <= whole
    ensures pool * share <= pool * whole
  {
  }

  lemma {:induction false} ShareAtMostWhole(shares: seq<int>, i: nat)
    requires i < |shares|
    requires forall k :: 0 <= k < |shares| ==> shares[k] > 0
    ensures shares[i] <= Sum(shares)
  {
    PositiveSum(shares[1..]);
    if i > 0 {
      ShareAtMostWhole(shares[1..], i - 1);
    }
  }

  // ----------------------------------------------------------------------- funds

  /** The balance the platform must hold: what it pays out to itself comes straight back. */
  function Needed(platform: Address, recipients: seq<Recipient>, amounts: seq<int>): nat
    requires |recipients| == |amounts|
  {
    if recipients == [] then 0
    else
      var rest := Needed(platform, recipients[1..], amounts[1..]);
      if amounts[0] <= 0 then rest
      else if recipients[0].address != platform then amounts[0] + rest
      else if amounts[0] > rest then amounts[0] else rest
  }

  /** Every recipient with a positive amount has a trustline with room for it. */
  ghost predicate CanReceive(ledger: Accounts, platform: Address, recipients: seq<Recipient>, amounts: seq<int>)
    requires |recipients| == |amounts|
  {
    forall i :: 0 <= i < |recipients| && amounts[i] > 0 && recipients[i].address != platform ==>
      && recipients[i].address in ledger
      && ledger[recipients[i].address].balance + amounts[i] <= ledger[recipients[i].address].limit
  }

  function NonNegative(amount: int): nat {
    if amount > 0 then amount else 0
  }

  /** What the list pays to `a`. */
  function PaidTo(a: Address, recipients: seq<Recipient>, amounts: seq<int>): nat
    requires |recipients| == |amounts|
  {
    if recipients == [] then 0
    else (if recipients[0].address == a then NonNegative(amounts[0]) else 0) + PaidTo(a, recipients[1..], amounts[1..])
  }

  function PaidOut(amounts: seq<int>): nat {
    if amounts == [] then 0 else NonNegative(amounts[0]) + PaidOut(amounts[1..])
  }

  lemma {:induction false} NeededBounds(platform: Address, recipients: seq<Recipient>, amounts: seq<int>)
    requires |recipients| == |amounts|
    ensures Needed(platform, recipients, amounts) <= PaidOut(amounts)
    ensures !Listed(platform, recipients) ==> Needed(platform, recipients, amounts) == PaidOut(amounts)
  {
    if recipients != [] {
      NeededBounds(platform, recipients[1..], amounts[1..]);
      if !Listed(platform, recipients) {
        assert forall i :: 0 <= i < |recipients[1..]| ==> recipients[1..][i] == recipients[i + 1];
        assert recipients[0].address != platform;
      }
    }
  }

  lemma {:induction false} PaidOutIsSum(amounts: seq<int>)
    requires forall i :: 0 <= i < |amounts| ==> amounts[i] >= 0
    ensures PaidOut(amounts) == Sum(amounts)
  {
    if amounts != [] {
      PaidOutIsSum(amounts[1..]);
    }
  }

  /** The transfer loop gets through exactly when the float covers the need and everyone can receive. */
  lemma {:induction false} PayAllSucceeds(ledger: Accounts, platform: Address, recipients: seq<Recipient>,
                                          amounts: seq<int>)
    requires |recipients| == |amounts|
    requires WithinLimits(ledger) && platform in ledger
    requires Distinct(recipients)
    ensures PayAll(ledger, platform, recipients, amounts).Some? <==>
              && Needed(platform, recipients, amounts) <= ledger[platform].balance
              && CanReceive(ledger, platform, recipients, amounts)
  {
    if recipients != [] {
      var rest, restAmounts := recipients[1..], amounts[1..];
      assert forall i :: 1 <= i < |recipients| ==> recipients[i] == rest[i - 1] && amounts[i] == restAmounts[i - 1];
      var to, amount := recipients[0].address, amounts[0];
      if amount <= 0 {
        PayAllSucceeds(ledger, platform, rest, restAmounts);
      } else {
        TransferSucceeds(ledger, platform, to, amount);
        var paid := Transfer(ledger, platform, to, amount);
        if paid.Some? {
          TransferEffect(ledger, platform, to, amount);
          PayAllSucceeds(paid.value, platform, rest, restAmounts);
          SameRoom(ledger, paid.value, platform, recipients, amounts);
        }
      }
    }
  }

  /** Paying the head of the list leaves the others' room as it was. */
  lemma SameRoom(ledger: Accounts, paid: Accounts, platform: Address, recipients: seq<Recipient>, amounts: seq<int>)
    requires |recipients| == |amounts| && recipients != [] && amounts[0] > 0
    requires Distinct(recipients)
    requires paid.Keys == ledger.Keys
    requires forall a :: a in ledger && a != platform && a != recipients[0].address ==> paid[a] == ledger[a]
    requires recipients[0].address != platform ==>
      && recipients[0].address in ledger
      && ledger[recipients[0].address].balance + amounts[0] <= ledger[recipients[0].address].limit
    ensures CanReceive(paid, platform, recipients[1..], amounts[1..])
       <==> CanReceive(ledger, platform, recipients, amounts)
  {
    var rest, restAmounts := recipients[1..], amounts[1..];
    if CanReceive(paid, platform, rest, restAmounts) {
      forall i | 0 <= i < |recipients| && amounts[i] > 0 && recipients[i].address != platform
        ensures recipients[i].address in ledger
        ensures ledger[recipients[i].address].balance + amounts[i] <= ledger[recipients[i].address].limit
      {
        if i > 0 {
          assert rest[i - 1] == recipients[i] && restAmounts[i - 1] == amounts[i];
        }
      }
    }
    if CanReceive(ledger, platform, recipients, amounts) {
      forall i | 0 <= i < |rest| && restAmounts[i] > 0 && rest[i].address != platform
        ensures rest[i].address in paid
        ensures paid[rest[i].address].balance + restAmounts[i] <= paid[rest[i].address].limit
      {
        assert rest[i] == recipients[i + 1] && restAmounts[i] == amounts[i + 1];
      }
    }
  }

  /** Account by account, what the transfer loop leaves behind. */
  lemma {:induction false} PayAllEffect(ledger: Accounts, platform: Address, recipients: seq<Recipient>,
                                        amounts: seq<int>)
    requires |recipients| == |amounts|
    requires WithinLimits(ledger)
    requires PayAll(ledger, platform, recipients, amounts).Some?
    ensures var after := PayAll(ledger, platform, recipients, amounts).value;
      && WithinLimits(after)
      && after.Keys == ledger.Keys
      && Supply(after) == Supply(ledger)
      && (forall a :: Balance(after, a) == Balance(ledger, a) + PaidTo(a, recipients, amounts)
                                           - (if a == platform then PaidOut(amounts) else 0))
  {
    if recipients != [] {
      if amounts[0] > 0 {
        TransferEffect(ledger, platform, recipients[0].address, amounts[0]);
        var paid := Transfer(ledger, platform, recipients[0].address, amounts[0]).value;
        TransferSucceeds(ledger, platform, recipients[0].address, amounts[0]);
        PayAllEffect(paid, platform, recipients[1..], amounts[1..]);
      } else {
        PayAllEffect(ledger, platform, recipients[1..], amounts[1..]);
      }
    }
  }
}
