/**
 * The other places that compute the split: the service and the helpers, proved equal to
 * the contract, and the dashboard's preview in cents, with its distance from the payout.
 */
module Mirrors {
  import opened Types
  import opened Split
  import opened Contract
  import opened Payouts
  import opened SettlementLaws

  /** The amounts the settlement service writes into the settlement rows, in base units. */
  method SplitForRows(total: int, recipients: seq<Recipient>) returns (fee: int, pool: int, amounts: seq<int>)
    ensures fee == Fee(total) && pool == Pool(total)
    ensures amounts == Amounts(Pool(total), SharesOf(recipients))
  {
    fee := Quot(total * 500, 10_000);
    pool := total - fee;
    amounts := [];
    var distributed := 0;
    ghost var shares := SharesOf(recipients);
    assert [] + AmountsFrom(pool, shares, 0) == AmountsFrom(pool, shares, 0);
    for i := 0 to |recipients|
      invariant amounts + AmountsFrom(pool, shares[i..], distributed) == AmountsFrom(pool, shares, 0)
    {
      AmountsStep(pool, shares, i, distributed, amounts);
      var amount;
      if i == |recipients| - 1 {
        amount := pool - distributed;
      } else {
        amount := Quot(pool * recipients[i].shareBps, 10_000);
        distributed := distributed + amount;
      }
      amounts := amounts + [amount];
    }
    assert amounts + [] == amounts;
  }

  lemma AmountsStep(pool: int, shares: seq<int>, i: nat, distributed: int, amounts: seq<int>)
    requires i < |shares|
    ensures var amount := Share(pool, shares[i]);
      amounts + AmountsFrom(pool, shares[i..], distributed)
      == if i == |shares| - 1
         then amounts + [pool - distributed] + AmountsFrom(pool, shares[i + 1..], distributed)
         else amounts + [amount] + AmountsFrom(pool, shares[i + 1..], distributed + amount)
  {
    var rest := shares[i..];
    assert rest[1..] == shares[i + 1..] && rest[0] == shares[i];
    if i == |shares| - 1 {
      assert AmountsFrom(pool, rest, distributed) == [pool - distributed];
    }
  }

  /**
   * On the direct success path the rows are what was paid: recipient by recipient the
   * published payment, and the fee and the amounts add up to the total.
   */
  lemma RowsAreThePayment(c: Chain, signers: set<Address>, order: OrderId, total: int, recipients: seq<Recipient>)
    requires Ledger.WithinLimits(c.ledger)
    requires Settle(c, signers, order, total, recipients).0 == Success
    ensures var amounts := Amounts(Pool(total), SharesOf(recipients));
      var paid := Settle(c, signers, order, total, recipients).1.history[|c.history|..];
      && |paid| == |recipients| + 1
      && (forall i :: 0 <= i < |recipients| ==> paid[i] == RecipientPaid(order, recipients[i].address, amounts[i]))
      && paid[|recipients|] == SettlementExecuted(order, total, Fee(total), Pool(total), |recipients|)
      && Fee(total) + Sum(amounts) == total
  {
    SettleEffect(c, signers, order, total, recipients);
    FeeBounds(total);
    SplitBounds(Pool(total), SharesOf(recipients));
    var after := Settle(c, signers, order, total, recipients).1;
    assert after.history[|c.history|..] == Receipt(order, total, recipients);
  }

  // -------------------------------------------------------- integration test helpers

  function PlatformFeeAmount(total: int): int {
    Quot(total * 500, 10_000)
  }

  function CreatorPoolAmount(total: int): int {
    total - PlatformFeeAmount(total)
  }

  function RecipientShareAmount(pool: int, shareBps: int): int {
    Quot(pool * shareBps, 10_000)
  }

  /** The reduce over the amounts before the last. */
  function Reduced(amounts: seq<int>, sum: int): int {
    if amounts == [] then sum else Reduced(amounts[1..], sum + amounts[0])
  }

  function LastRecipientAmount(pool: int, previous: seq<int>): int {
    pool - Reduced(previous, 0)
  }

  lemma {:induction false} ReducedIsSum(amounts: seq<int>, sum: int)
    ensures Reduced(amounts, sum) == sum + Sum(amounts)
  {
    if amounts != [] {
      ReducedIsSum(amounts[1..], sum + amounts[0]);
    }
  }

  lemma {:induction false} SumOfInit(xs: seq<int>)
    requires xs != []
    ensures Sum(xs) == Sum(xs[..|xs| - 1]) + xs[|xs| - 1]
  {
    if |xs| > 1 {
      SumOfInit(xs[1..]);
      assert xs[..|xs| - 1][1..] == xs[1..][..|xs| - 2];
    } else {
      assert xs[1..] == [] && xs[..0] == [];
    }
  }

  /** Whenever the contract computes amounts at all, the helpers compute the same ones. */
  lemma HelpersMatchContract(total: nat, shares: seq<int>, i: nat)
    requires i < |shares|
    requires CheckedAmounts(Pool(total), shares, 0).Some?
    ensures PlatformFeeAmount(total) == Fee(total) && CreatorPoolAmount(total) == Pool(total)
    ensures var amounts := CheckedAmounts(Pool(total), shares, 0).value;
      amounts[i] == if i < |shares| - 1 then RecipientShareAmount(CreatorPoolAmount(total), shares[i])
                    else LastRecipientAmount(CreatorPoolAmount(total), amounts[..i])
  {
    var pool := Pool(total);
    CheckedIsAmounts(pool, shares, 0);
    var amounts := Amounts(pool, shares);
    AmountsFromAt(pool, shares, 0, i);
    AmountsFromSum(pool, shares, 0);
    SumOfInit(amounts);
    ReducedIsSum(amounts[..|shares| - 1], 0);
  }

  // ------------------------------------------------------------- dashboard preview

  /** The preview the product form shows, in cents; shares are already whole basis points. */
  method ComputeSplit(totalCents: nat, shares: seq<nat>)
    returns (feeCents: nat, poolCents: nat, recipientCents: seq<int>)
    ensures feeCents == totalCents / 20 && poolCents == totalCents - totalCents / 20
    ensures recipientCents == Amounts(poolCents, shares)
  {
    feeCents := totalCents * 500 / 10_000;
    poolCents := totalCents - feeCents;
    recipientCents := [];
    var distributed := 0;
    assert [] + AmountsFrom(poolCents, shares, 0) == AmountsFrom(poolCents, shares, 0);
    for i := 0 to |shares|
      invariant recipientCents + AmountsFrom(poolCents, shares[i..], distributed) == AmountsFrom(poolCents, shares, 0)
    {
      AmountsStep(poolCents, shares, i, distributed, recipientCents);
      var cents;
      if i == |shares| - 1 {
        cents := poolCents - distributed;
      } else {
        cents := poolCents * shares[i] / 10_000;
        distributed := distributed + cents;
      }
      recipientCents := recipientCents + [cents];
    }
    assert recipientCents + [] == recipientCents;
  }

  /** The previewed pool, in base units, is the paid pool and less than one cent more. */
  lemma PreviewPool(cents: nat)
    ensures (cents - cents / 20) * BASE_PER_CENT == 95_000 * cents + 5_000 * (cents % 20)
  {
  }

  lemma PreviewedShare(previewPool: nat, pool: nat, share: nat, extra: nat)
    requires previewPool * BASE_PER_CENT == pool + extra && extra < BASE_PER_CENT
    requires share <= BPS
    ensures var preview := previewPool * share / BPS * BASE_PER_CENT; var paid := pool * share / BPS;
      -BASE_PER_CENT < preview - paid < BASE_PER_CENT
  {
    var p, q, e := previewPool * share, pool * share, extra * share;
    assert BASE_PER_CENT * p == q + e by {
      assert BASE_PER_CENT * p == (previewPool * BASE_PER_CENT) * share;
      assert (pool + extra) * share == q + e;
    }
    assert 0 <= e <= extra * BPS;
    assert BPS * (p / BPS) <= p < BPS * (p / BPS) + BPS;
    assert BPS * (q / BPS) <= q < BPS * (q / BPS) + BPS;
  }

  /**
   * Preview against payout, same recipients in the same order, for a price in cents:
   * the preview adds up to the price; every non-last recipient is shown within a cent
   * of what it gets; the last is shown at most n - 1 base units less and less than
   * n cents more.
   */
  lemma PreviewBounds(cents: nat, shares: seq<int>, i: nat)
    requires Whole(shares) && i < |shares|
    ensures var n := |shares|;
      var fee, pool := cents / 20, cents - cents / 20;
      var preview, paid := Amounts(pool, shares), Amounts(Pool(cents * BASE_PER_CENT), shares);
      && fee + Sum(preview) == cents
      && (i < n - 1 ==> -BASE_PER_CENT < preview[i] * BASE_PER_CENT - paid[i] < BASE_PER_CENT)
      && -(n - 1) <= preview[n - 1] * BASE_PER_CENT - paid[n - 1] < n * BASE_PER_CENT
  {
    var pool, paidPool := cents - cents / 20, Pool(cents * BASE_PER_CENT);
    assert paidPool == 95_000 * cents;
    PreviewPool(cents);
    SplitBounds(pool, shares);
    SplitBounds(paidPool, shares);
    ShareAtMostWhole(shares, i);
    PreviewedShare(pool, paidPool, shares[i], 5_000 * (cents % 20));
    PreviewedLast(cents, shares);
  }

  lemma PreviewedLast(cents: nat, shares: seq<int>)
    requires Whole(shares)
    ensures var n := |shares|;
      var preview, paid := Amounts(cents - cents / 20, shares), Amounts(Pool(cents * BASE_PER_CENT), shares);
      -(n - 1) <= preview[n - 1] * BASE_PER_CENT - paid[n - 1] < n * BASE_PER_CENT
  {
    var n := |shares|;
    var pool, paidPool, last := cents - cents / 20, Pool(cents * BASE_PER_CENT), shares[n - 1];
    PreviewPool(cents);
    var extra := 5_000 * (cents % 20);
    assert paidPool == 95_000 * cents;
    LastShares(pool, shares);
    LastShares(paidPool, shares);
    var r, s := Residue(pool, shares[..n - 1]), Residue(paidPool, shares[..n - 1]);
    ResidueBounds(pool, shares[..n - 1]);
    ResidueBounds(paidPool, shares[..n - 1]);
    ShareAtMostWhole(shares, n - 1);
    LastDifference(pool, paidPool, last, extra, r, s, n,
                   Amounts(pool, shares)[n - 1], Amounts(paidPool, shares)[n - 1]);
  }

  lemma LastShares(pool: nat, shares: seq<int>)
    requires Whole(shares)
    ensures var n := |shares|;
      BPS * Amounts(pool, shares)[n - 1] == pool * shares[n - 1] + Residue(pool, shares[..n - 1])
  {
    var n := |shares|;
    LastAmount(pool, shares, 0);
    assert pool * (BPS - shares[n - 1]) == pool * BPS - pool * shares[n - 1];
  }

  lemma LastDifference(pool: nat, paidPool: nat, share: nat, extra: nat, r: int, s: int, n: nat, preview: int,
                       paid: int)
    requires pool * BASE_PER_CENT == paidPool + extra && extra <= 95_000
    requires share <= BPS && n >= 1
    requires 0 <= r <= 9_999 * (n - 1) && 0 <= s <= 9_999 * (n - 1)
    requires BPS * preview == pool * share + r && BPS * paid == paidPool * share + s
    ensures -(n - 1) <= preview * BASE_PER_CENT - paid < n * BASE_PER_CENT
  {
    var e := extra * share;
    assert BASE_PER_CENT * (pool * share) == paidPool * share + e by {
      assert BASE_PER_CENT * (pool * share) == (pool * BASE_PER_CENT) * share;
      assert (paidPool + extra) * share == paidPool * share + e;
    }
    assert 0 <= e <= 95_000 * BPS by {
      assert extra * share <= 95_000 * share;
    }
    assert BPS * (preview * BASE_PER_CENT - paid) == e + BASE_PER_CENT * r - s;
  }

  /** What the dashboard promises: fee and amounts shown are the ones settlement pays. */
  ghost predicate PreviewMatches(cents: nat, shares: seq<int>) {
    var preview, paid := Amounts(cents - cents / 20, shares), Amounts(Pool(cents * BASE_PER_CENT), shares);
    && cents / 20 * BASE_PER_CENT == Fee(cents * BASE_PER_CENT)
    && forall i :: 0 <= i < |shares| ==> preview[i] * BASE_PER_CENT == paid[i]
  }

  /** The 5% of the price, and every share but the last of the rest, come out in whole cents. */
  predicate WholeCents(cents: nat, shares: seq<int>) {
    cents % 20 == 0 && forall i :: 0 <= i < |shares| - 1 ==> (cents - cents / 20) * shares[i] % BPS == 0
  }

  /** The preview is what settlement pays if and only if no division leaves part of a cent. */
  lemma PreviewExact(cents: nat, shares: seq<int>)
    requires Whole(shares)
    ensures PreviewMatches(cents, shares) <==> WholeCents(cents, shares)
  {
    PreviewPool(cents);
    assert Pool(cents * BASE_PER_CENT) == 95_000 * cents;
    if WholeCents(cents, shares) {
      WholeCentsMatch(cents - cents / 20, shares, 0);
    }
    if PreviewMatches(cents, shares) {
      MatchIsWholeCents(cents, shares);
    }
  }

  lemma {:induction false} WholeCentsMatch(pool: nat, shares: seq<int>, distributed: int)
    requires forall i :: 0 <= i < |shares| - 1 ==> shares[i] > 0 && pool * shares[i] % BPS == 0
    ensures forall i :: 0 <= i < |shares| ==>
              AmountsFrom(pool, shares, distributed)[i] * BASE_PER_CENT
              == AmountsFrom(pool * BASE_PER_CENT, shares, distributed * BASE_PER_CENT)[i]
  {
    if |shares| > 1 {
      WholeShare(pool, shares[0]);
      WholeCentsMatch(pool, shares[1..], distributed + Share(pool, shares[0]));
    }
  }

  lemma WholeShare(pool: nat, share: nat)
    requires pool * share % BPS == 0
    ensures Share(pool * BASE_PER_CENT, share) == Share(pool, share) * BASE_PER_CENT
  {
    var q := pool * share / BPS;
    assert pool * BASE_PER_CENT * share == BPS * (q * BASE_PER_CENT) by {
      assert pool * share == BPS * q;
      assert pool * BASE_PER_CENT * share == pool * share * BASE_PER_CENT;
    }
  }

  lemma MatchIsWholeCents(cents: nat, shares: seq<int>)
    requires Whole(shares) && PreviewMatches(cents, shares)
    ensures WholeCents(cents, shares)
  {
    var pool := cents - cents / 20;
    PreviewPool(cents);
    assert cents % 20 == 0;
    SplitBounds(pool, shares);
    SplitBounds(pool * BASE_PER_CENT, shares);
    forall i | 0 <= i < |shares| - 1 ensures pool * shares[i] % BPS == 0 {
      MatchedShare(pool, shares[i]);
    }
  }

  lemma MatchedShare(pool: nat, share: nat)
    requires pool * share / BPS * BASE_PER_CENT == pool * BASE_PER_CENT * share / BPS
    ensures pool * share % BPS == 0
  {
    var q, r := pool * share / BPS, pool * share % BPS;
    assert pool * BASE_PER_CENT * share == BPS * (q * BASE_PER_CENT) + r * BASE_PER_CENT by {
      assert pool * share == BPS * q + r;
      assert pool * BASE_PER_CENT * share == pool * share * BASE_PER_CENT;
    }
  }

  /** One cent for one recipient: settlement keeps 5% of it, which the preview cannot show. */
  lemma OneCentIsMisstated()
    ensures !PreviewMatches(1, [BPS])
  {
    assert [BPS][1..] == [];
    assert Whole([BPS]);
    PreviewExact(1, [BPS]);
  }
}
