/**
 * The 95/5-then-shares arithmetic: a 5% platform fee, then the creator pool cut
 * by basis points, every recipient but the last getting a truncated share and the
 * last one the remainder. Every party that computes a split is proved against
 * `Fee`, `Pool` and `Amounts`.
 */
module Split {
  import opened Types
  import opened Sequences

  const FEE_BPS := 500
  const BPS := 10_000
  const MAX_RECIPIENTS := 10
  const I128_MAX := 0x7FFF_FFFF_FFFF_FFFF_FFFF_FFFF_FFFF_FFFF
  const I128_MIN := -I128_MAX - 1

  /** Base units (10^-7 USDC) in one cent. */
  const BASE_PER_CENT := 100_000

  predicate IsI128(x: int) {
    I128_MIN <= x <= I128_MAX
  }

  /** Division truncating toward zero, as Rust's `/` and a bigint's `/` do it. */
  function Quot(a: int, b: int): int
    requires b > 0
  {
    if a >= 0 then a / b else -(-a / b)
  }

  function Fee(total: int): int {
    Quot(total * FEE_BPS, BPS)
  }

  function Pool(total: int): int {
    total - Fee(total)
  }

  function Share(pool: int, bps: int): int {
    Quot(pool * bps, BPS)
  }

  function Sum(xs: seq<int>): int {
    if xs == [] then 0 else xs[0] + Sum(xs[1..])
  }

  /** Amounts for the recipients still to be served, `distributed` already given out. */
  function AmountsFrom(pool: int, shares: seq<int>, distributed: int): (amounts: seq<int>)
    ensures |amounts| == |shares|
  {
    if shares == [] then []
    else if |shares| == 1 then [pool - distributed]
    else
      var amount := Share(pool, shares[0]);
      [amount] + AmountsFrom(pool, shares[1..], distributed + amount)
  }

  function Amounts(pool: int, shares: seq<int>): (amounts: seq<int>)
    ensures |amounts| == |shares|
  {
    AmountsFrom(pool, shares, 0)
  }

  function SharesOf(recipients: seq<Recipient>): (shares: seq<int>)
    ensures |shares| == |recipients|
    ensures forall i :: 0 <= i < |recipients| ==> shares[i] == recipients[i].shareBps
  {
    seq(|recipients|, i requires 0 <= i < |recipients| => recipients[i].shareBps)
  }

  /** A share list the contract accepts, apart from who the recipients are. */
  ghost predicate Whole(shares: seq<int>) {
    && shares != []
    && (forall i :: 0 <= i < |shares| ==> shares[i] > 0)
    && Sum(shares) == BPS
  }

  // ---------------------------------------------------------------- conservation

  lemma {:induction false} AmountsFromSum(pool: int, shares: seq<int>, distributed: int)
    requires shares != []
    ensures Sum(AmountsFrom(pool, shares, distributed)) == pool - distributed
  {
    if |shares| == 1 {
      assert Sum([pool - distributed]) == pool - distributed + Sum([]);
    } else {
      var amount := Share(pool, shares[0]);
      AmountsFromSum(pool, shares[1..], distributed + amount);
      assert AmountsFrom(pool, shares, distributed)[1..] == AmountsFrom(pool, shares[1..], distributed + amount);
    }
  }

  lemma {:induction false} AmountsFromAt(pool: int, shares: seq<int>, distributed: int, i: nat)
    requires i < |shares|
    ensures i < |shares| - 1 ==> AmountsFrom(pool, shares, distributed)[i] == Share(pool, shares[i])
  {
    if |shares| > 1 && i > 0 {
      AmountsFromAt(pool, shares[1..], distributed + Share(pool, shares[0]), i - 1);
    }
  }

  // -------------------------------------------------------------------- rounding

  /** What the truncations of `pool * share / 10000` lose, in ten-thousandths. */
  function Residue(pool: int, shares: seq<int>): int {
    if shares == [] then 0 else pool * shares[0] % BPS + Residue(pool, shares[1..])
  }

  lemma {:induction false} ResidueBounds(pool: int, shares: seq<int>)
    ensures 0 <= Residue(pool, shares) <= 9_999 * |shares|
  {
    if shares != [] {
      ResidueBounds(pool, shares[1..]);
    }
  }

  /** Ten thousand times the last amount: its exact share plus everyone else's residue. */
  lemma {:induction false} LastAmount(pool: nat, shares: seq<int>, distributed: int)
    requires shares != []
    requires forall i :: 0 <= i < |shares| ==> shares[i] >= 0
    ensures var n := |shares|;
      BPS * AmountsFrom(pool, shares, distributed)[n - 1]
      == BPS * (pool - distributed) - pool * (Sum(shares) - shares[n - 1]) + Residue(pool, shares[..n - 1])
  {
    var n := |shares|;
    if n == 1 {
      assert Sum(shares) == shares[0] + Sum([]);
    } else {
      var s, rest := shares[0], shares[1..];
      LastAmount(pool, rest, distributed + Share(pool, s));
      assert shares[..n - 1][1..] == rest[..n - 2] && shares[..n - 1][0] == s;
      assert Sum(shares) == s + Sum(rest) && rest[n - 2] == shares[n - 1];
      ShareAndResidue(pool, s);
      EarlierShare(pool, s, Sum(rest) - shares[n - 1], Share(pool, s), distributed);
    }
  }

  lemma ShareAndResidue(pool: nat, share: nat)
    ensures BPS * Share(pool, share) + pool * share % BPS == pool * share
  {
    assert pool * share >= 0;
  }

  lemma EarlierShare(pool: int, share: int, later: int, amount: int, distributed: int)
    ensures BPS * (pool - (distributed + amount)) - pool * later
         == BPS * (pool - distributed) - BPS * amount - pool * (share + later) + pool * share
  {
    assert pool * (share + later) == pool * share + pool * later;
  }

  /**
   * The contract's split of a valid list: nothing is negative, nothing is lost,
   * every amount but the last is the floor of its share, and the last one exceeds
   * its own floor by at most n - 1 base units.
   */
  lemma SplitBounds(pool: nat, shares: seq<int>)
    requires Whole(shares)
    ensures var amounts := Amounts(pool, shares);
      && Sum(amounts) == pool
      && (forall i :: 0 <= i < |shares| ==> amounts[i] >= pool * shares[i] / BPS >= 0)
      && (forall i :: 0 <= i < |shares| - 1 ==> amounts[i] == pool * shares[i] / BPS)
      && amounts[|shares| - 1] <= pool * shares[|shares| - 1] / BPS + |shares| - 1
  {
    var n := |shares|;
    var amounts := Amounts(pool, shares);
    AmountsFromSum(pool, shares, 0);
    forall i | 0 <= i < n
      ensures pool * shares[i] / BPS >= 0
      ensures i < n - 1 ==> amounts[i] == pool * shares[i] / BPS
    {
      assert pool * shares[i] >= 0;
      AmountsFromAt(pool, shares, 0, i);
    }
    LastExcess(pool, shares);
  }

  lemma LastExcess(pool: nat, shares: seq<int>)
    requires Whole(shares)
    ensures var n := |shares|;
      0 <= Amounts(pool, shares)[n - 1] - pool * shares[n - 1] / BPS <= n - 1
  {
    var n := |shares|;
    LastAmount(pool, shares, 0);
    ResidueBounds(pool, shares[..n - 1]);
    var exact := pool * shares[n - 1];
    assert pool * (BPS - shares[n - 1]) == pool * BPS - exact;
    assert BPS * Amounts(pool, shares)[n - 1] == exact + Residue(pool, shares[..n - 1]);
  }

  /** The fee of a non-negative total leaves a non-negative pool, and the two make the total. */
  lemma FeeBounds(total: nat)
    ensures 0 <= Fee(total) <= total
    ensures 0 <= Pool(total) <= total
    ensures 20 * Fee(total) <= total < 20 * Fee(total) + 20
  {
  }

  // ------------------------------------------------------------- order stability

  /**
   * Listing the same recipients in another order moves each address by at most
   * n - 1 base units and leaves the total alone.
   */
  lemma OrderStability(pool: nat, first: seq<Recipient>, second: seq<Recipient>, i: nat, j: nat)
    requires multiset(first) == multiset(second)
    requires Whole(SharesOf(first))
    requires i < |first| && j < |second| && first[i] == second[j]
    ensures Sum(Amounts(pool, SharesOf(first))) == Sum(Amounts(pool, SharesOf(second)))
    ensures var n := |first|; var a, b := Amounts(pool, SharesOf(first)), Amounts(pool, SharesOf(second));
      |second| == n && -(n - 1) <= a[i] - b[j] <= n - 1
  {
    assert |multiset(first)| == |first| && |multiset(second)| == |second|;
    WholeUnderPermutation(first, second);
    SplitBounds(pool, SharesOf(first));
    SplitBounds(pool, SharesOf(second));
  }

  lemma {:induction false} SumOfPermutation(first: seq<Recipient>, second: seq<Recipient>)
    requires multiset(first) == multiset(second)
    ensures Sum(SharesOf(first)) == Sum(SharesOf(second))
    decreases |first|
  {
    assert |multiset(first)| == |first| && |multiset(second)| == |second|;
    if first == [] {
      assert SharesOf(first) == SharesOf(second);
    } else {
      var k, without := TakeOut(first, second);
      SumOfPermutation(first[1..], without);
      assert SharesOf(first)[1..] == SharesOf(first[1..]);
      assert SharesOf(without) == SharesOf(second)[..k] + SharesOf(second)[k + 1..];
      SumRemove(SharesOf(second), k);
    }
  }

  lemma {:induction false} SumRemove(xs: seq<int>, k: nat)
    requires k < |xs|
    ensures Sum(xs) == xs[k] + Sum(xs[..k] + xs[k + 1..])
  {
    var without := xs[..k] + xs[k + 1..];
    if k == 0 {
      assert without == xs[1..];
    } else {
      SumRemove(xs[1..], k - 1);
      assert without[1..] == xs[1..][..k - 1] + xs[1..][k..];
    }
  }

  lemma WholeUnderPermutation(first: seq<Recipient>, second: seq<Recipient>)
    requires multiset(first) == multiset(second)
    requires Whole(SharesOf(first))
    ensures Whole(SharesOf(second))
  {
    assert |multiset(first)| == |first| && |multiset(second)| == |second|;
    SumOfPermutation(first, second);
    forall k | 0 <= k < |second| ensures SharesOf(second)[k] > 0 {
      assert second[k] in multiset(first);
      var i :| 0 <= i < |first| && first[i] == second[k];
      assert SharesOf(first)[i] > 0;
    }
  }

  // --------------------------------------------------- amounts the backend sends

  /** How many of the shares leave half a base unit behind when the price is `cents`. */
  function HalfUnits(cents: int, shares: seq<int>): (count: nat)
    ensures count <= |shares|
  {
    if shares == [] then 0
    else (if cents * shares[0] % 2 == 1 then 1 else 0) + HalfUnits(cents, shares[1..])
  }

  lemma {:induction false} HalfUnitsAreTheResidue(cents: nat, shares: seq<int>)
    requires forall i :: 0 <= i < |shares| ==> shares[i] >= 0
    ensures Residue(95_000 * cents, shares) == 5_000 * HalfUnits(cents, shares)
  {
    if shares != [] {
      var product := cents * shares[0];
      assert 95_000 * cents * shares[0] == 95_000 * product;
      assert product >= 0;
      assert 95_000 * product % BPS == 5_000 * (product % 2);
      HalfUnitsAreTheResidue(cents, shares[1..]);
    }
  }

  /**
   * A price is a whole number of cents. Its fee is then exact, and twice the excess
   * of the last recipient over its exact share is the number of other recipients
   * whose cents times basis points is odd: no dust at all for an even price.
   */
  lemma CentPrices(cents: nat, shares: seq<int>)
    requires Whole(shares)
    ensures var total := cents * BASE_PER_CENT; var n := |shares|;
      && Fee(total) == 5_000 * cents && Pool(total) == 95_000 * cents
      && 2 * Amounts(Pool(total), shares)[n - 1] - 19 * cents * shares[n - 1]
         == HalfUnits(cents, shares[..n - 1])
      && (cents % 2 == 0 ==> HalfUnits(cents, shares[..n - 1]) == 0)
  {
    var n := |shares|;
    var pool := 95_000 * cents;
    assert Pool(cents * BASE_PER_CENT) == pool;
    LastAmount(pool, shares, 0);
    HalfUnitsAreTheResidue(cents, shares[..n - 1]);
    assert pool * (BPS - shares[n - 1]) == BPS * pool - pool * shares[n - 1];
    assert pool * shares[n - 1] == 5_000 * (19 * cents * shares[n - 1]);
    if cents % 2 == 0 {
      EvenPriceHasNoDust(cents, shares[..n - 1]);
    }
  }

  lemma {:induction false} EvenPriceHasNoDust(cents: nat, shares: seq<int>)
    requires cents % 2 == 0
    ensures HalfUnits(cents, shares) == 0
  {
    if shares != [] {
      assert cents * shares[0] == 2 * (cents / 2 * shares[0]);
      EvenPriceHasNoDust(cents, shares[1..]);
    }
  }
}
