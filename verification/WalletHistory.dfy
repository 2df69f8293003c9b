/** Wallet history: a bounded fetch of two sources, merged, sorted newest first and sliced into pages. */
module WalletHistory {
  import opened Sequences

  /** `createdAt` orders the query; the page shows `settledAt`, the settlement's own timestamp. */
  datatype RecipientRow = RecipientRow(id: string, createdAt: int, settledAt: int)

  datatype WithdrawalRow = WithdrawalRow(id: string, createdAt: int)

  datatype Kind = Settlement | Withdrawal

  datatype Tx = Tx(id: string, kind: Kind, createdAt: int)

  function SettlementTxs(rows: seq<RecipientRow>): (txs: seq<Tx>)
    ensures |txs| == |rows|
  {
    seq(|rows|, i requires 0 <= i < |rows| => Tx(rows[i].id, Settlement, rows[i].settledAt))
  }

  function WithdrawalTxs(rows: seq<WithdrawalRow>): (txs: seq<Tx>)
    ensures |txs| == |rows|
  {
    seq(|rows|, i requires 0 <= i < |rows| => Tx(rows[i].id, Withdrawal, rows[i].createdAt))
  }

  function Take<T>(s: seq<T>, n: nat): seq<T> {
    if |s| <= n then s else s[..n]
  }

  /** `slice(skip, skip + limit)` of a sequence that may be shorter. */
  function Slice<T>(s: seq<T>, skip: nat, limit: nat): seq<T> {
    Take(s, skip + limit)[|Take(s, skip)|..]
  }

  /** Stable insertion: `tx` goes before the entries it ties with. */
  function Insert(tx: Tx, txs: seq<Tx>): seq<Tx> {
    if txs == [] || tx.createdAt >= txs[0].createdAt then [tx] + txs
    else [txs[0]] + Insert(tx, txs[1..])
  }

  /** The stable newest-first sort. */
  function Sort(txs: seq<Tx>): seq<Tx> {
    if txs == [] then [] else Insert(txs[0], Sort(txs[1..]))
  }

  /** The page, from the rows the two queries returned. */
  function PageOf(recipients: seq<RecipientRow>, withdrawals: seq<WithdrawalRow>, page: nat, limit: nat): seq<Tx>
    requires page >= 1
  {
    Slice(Sort(SettlementTxs(recipients) + WithdrawalTxs(withdrawals)), (page - 1) * limit, limit)
  }

  /** The page as served: each query takes only the newest 2 * page * limit rows. */
  function GetTransactions(recipients: seq<RecipientRow>, withdrawals: seq<WithdrawalRow>, page: nat,
                           limit: nat): seq<Tx>
    requires page >= 1
  {
    PageOf(Take(recipients, page * limit * 2), Take(withdrawals, page * limit * 2), page, limit)
  }

  // -------------------------------------------------------------------- the sort

  ghost predicate NewestFirst(txs: seq<Tx>) {
    |txs| < 2 || (txs[0].createdAt >= txs[1].createdAt && NewestFirst(txs[1..]))
  }

  lemma {:induction false} PairwiseNewestFirst(txs: seq<Tx>)
    requires forall i, j :: 0 <= i < j < |txs| ==> txs[i].createdAt >= txs[j].createdAt
    ensures NewestFirst(txs)
  {
    if txs != [] {
      PairwiseNewestFirst(txs[1..]);
    }
  }

  lemma {:induction false} HeadIsNewest(txs: seq<Tx>, i: nat)
    requires NewestFirst(txs) && i < |txs|
    ensures txs[0].createdAt >= txs[i].createdAt
  {
    if i > 0 {
      HeadIsNewest(txs[1..], i - 1);
    }
  }

  lemma {:induction false} TakeNewestFirst(txs: seq<Tx>, n: nat)
    requires NewestFirst(txs)
    ensures NewestFirst(Take(txs, n))
    decreases n
  {
    if n >= 2 && |txs| >= 2 {
      TakeNewestFirst(txs[1..], n - 1);
      assert Take(txs, n)[1..] == Take(txs[1..], n - 1);
    }
  }

  lemma {:induction false} InsertSorts(tx: Tx, txs: seq<Tx>)
    requires NewestFirst(txs)
    ensures NewestFirst(Insert(tx, txs))
  {
    if txs == [] || tx.createdAt >= txs[0].createdAt {
      assert ([tx] + txs)[1..] == txs;
    } else {
      InsertSorts(tx, txs[1..]);
      var rest := Insert(tx, txs[1..]);
      assert rest[0] == tx || rest[0] == txs[1];
      assert ([txs[0]] + rest)[1..] == rest;
    }
  }

  lemma {:induction false} InsertKeeps(tx: Tx, txs: seq<Tx>)
    ensures multiset(Insert(tx, txs)) == multiset([tx]) + multiset(txs)
  {
    if txs != [] && tx.createdAt < txs[0].createdAt {
      InsertKeeps(tx, txs[1..]);
      assert txs == [txs[0]] + txs[1..];
    }
  }

  /** The sort is a newest-first permutation of its input. */
  lemma {:induction false} SortSorts(txs: seq<Tx>)
    ensures NewestFirst(Sort(txs)) && multiset(Sort(txs)) == multiset(txs)
  {
    if txs != [] {
      SortSorts(txs[1..]);
      InsertSorts(txs[0], Sort(txs[1..]));
      InsertKeeps(txs[0], Sort(txs[1..]));
      assert txs == [txs[0]] + txs[1..];
    }
  }

  /** The two-source merge, the first source winning ties. */
  function Merge(a: seq<Tx>, b: seq<Tx>): seq<Tx> {
    if a == [] then b
    else if b == [] then a
    else if a[0].createdAt >= b[0].createdAt then [a[0]] + Merge(a[1..], b)
    else [b[0]] + Merge(a, b[1..])
  }

  lemma {:induction false} InsertIntoMerge(a: seq<Tx>, b: seq<Tx>)
    requires a != [] && NewestFirst(a)
    ensures Insert(a[0], Merge(a[1..], b)) == Merge(a, b)
    decreases |b|
  {
    var rest := a[1..];
    if b == [] {
      assert Merge(rest, b) == rest;
      assert [a[0]] + rest == a;
    } else if a[0].createdAt < b[0].createdAt {
      InsertIntoMerge(a, b[1..]);
      assert Merge(rest, b) == [b[0]] + Merge(rest, b[1..]) by {
        if rest == [] {
          assert b == [b[0]] + b[1..];
        }
      }
    }
  }

  lemma {:induction false} SortOfSorted(b: seq<Tx>)
    requires NewestFirst(b)
    ensures Sort(b) == b
  {
    if b != [] {
      SortOfSorted(b[1..]);
      assert [b[0]] + b[1..] == b;
    }
  }

  /** Sorting two concatenated newest-first sources is merging them. */
  lemma {:induction false} SortIsMerge(a: seq<Tx>, b: seq<Tx>)
    requires NewestFirst(a) && NewestFirst(b)
    ensures Sort(a + b) == Merge(a, b)
  {
    if a == [] {
      assert a + b == b;
      SortOfSorted(b);
    } else {
      assert (a + b)[1..] == a[1..] + b && (a + b)[0] == a[0];
      SortIsMerge(a[1..], b);
      InsertIntoMerge(a, b);
    }
  }

  /** The first k entries of a merge depend on no more than the first k of each source. */
  lemma {:induction false} MergeOfPrefixes(a: seq<Tx>, b: seq<Tx>, m: nat, n: nat, k: nat)
    requires k <= m && k <= n
    ensures Take(Merge(Take(a, m), Take(b, n)), k) == Take(Merge(a, b), k)
    decreases k
  {
    var x, y := Take(a, m), Take(b, n);
    if k > 0 {
      if a == [] || b == [] {
        assert x == [] || y == [];
      } else if a[0].createdAt >= b[0].createdAt {
        assert x[1..] == Take(a[1..], m - 1);
        MergeOfPrefixes(a[1..], b, m - 1, n, k - 1);
        TakeCons(a[0], Merge(a[1..], b), k);
        TakeCons(a[0], Merge(x[1..], y), k);
      } else {
        assert y[1..] == Take(b[1..], n - 1);
        MergeOfPrefixes(a, b[1..], m, n - 1, k - 1);
        TakeCons(b[0], Merge(a, b[1..]), k);
        TakeCons(b[0], Merge(x, y[1..]), k);
      }
    }
  }

  lemma TakeCons<T>(head: T, tail: seq<T>, k: nat)
    requires k > 0
    ensures Take([head] + tail, k) == [head] + Take(tail, k - 1)
  {
  }

  // ------------------------------------------------------------------- the theorem

  /** The rows in the order the query returns them; recipient rows and their settlements order alike. */
  ghost predicate FetchOrder(recipients: seq<RecipientRow>, withdrawals: seq<WithdrawalRow>) {
    && NewestFirst(WithdrawalTxs(withdrawals))
    && (forall i, j :: 0 <= i < j < |recipients| ==> recipients[i].createdAt >= recipients[j].createdAt)
    && (forall i, j :: 0 <= i < |recipients| && 0 <= j < |recipients|
                       && recipients[i].createdAt >= recipients[j].createdAt ==>
          recipients[i].settledAt >= recipients[j].settledAt)
  }

  /**
   * The bounded fetch loses nothing: every page equals, row by row, the page of the
   * full merge of all settlements and withdrawals.
   */
  lemma BoundedMergeIsFullMerge(recipients: seq<RecipientRow>, withdrawals: seq<WithdrawalRow>, page: nat, limit: nat)
    requires page >= 1 && limit >= 1
    requires FetchOrder(recipients, withdrawals)
    ensures GetTransactions(recipients, withdrawals, page, limit) == PageOf(recipients, withdrawals, page, limit)
  {
    var bound, skip := page * limit * 2, (page - 1) * limit;
    assert skip + limit == page * limit;
    var a, b := SettlementTxs(recipients), WithdrawalTxs(withdrawals);
    assert SettlementTxs(Take(recipients, bound)) == Take(a, bound);
    assert WithdrawalTxs(Take(withdrawals, bound)) == Take(b, bound);
    PairwiseNewestFirst(a);
    BoundedSliceIsSlice(a, b, bound, skip, limit);
  }

  lemma BoundedSliceIsSlice(a: seq<Tx>, b: seq<Tx>, bound: nat, skip: nat, limit: nat)
    requires NewestFirst(a) && NewestFirst(b) && skip + limit <= bound
    ensures Slice(Sort(Take(a, bound) + Take(b, bound)), skip, limit) == Slice(Sort(a + b), skip, limit)
  {
    TakeNewestFirst(a, bound);
    TakeNewestFirst(b, bound);
    SortIsMerge(a, b);
    SortIsMerge(Take(a, bound), Take(b, bound));
    MergeOfPrefixes(a, b, bound, bound, skip + limit);
    SliceOfPrefix(Merge(a, b), Merge(Take(a, bound), Take(b, bound)), skip, limit);
  }

  lemma SliceOfPrefix<T>(s: seq<T>, t: seq<T>, skip: nat, limit: nat)
    requires Take(s, skip + limit) == Take(t, skip + limit)
    ensures Slice(s, skip, limit) == Slice(t, skip, limit)
  {
    assert Take(s, skip) == Take(Take(s, skip + limit), skip);
    assert Take(t, skip) == Take(Take(t, skip + limit), skip);
  }

  // ---------------------------------------------------------- what the pages show

  /** All settlements and withdrawals of the wallet, newest first. */
  function History(recipients: seq<RecipientRow>, withdrawals: seq<WithdrawalRow>): seq<Tx> {
    Merge(SettlementTxs(recipients), WithdrawalTxs(withdrawals))
  }

  /** The entries of one kind, in their order. */
  function OfKind(kind: Kind, txs: seq<Tx>): seq<Tx> {
    if txs == [] then []
    else (if txs[0].kind == kind then [txs[0]] else []) + OfKind(kind, txs[1..])
  }

  predicate AllOf(kind: Kind, txs: seq<Tx>) {
    forall i :: 0 <= i < |txs| ==> txs[i].kind == kind
  }

  lemma {:induction false} OfOneKind(kind: Kind, other: Kind, txs: seq<Tx>)
    requires AllOf(other, txs)
    ensures OfKind(kind, txs) == if kind == other then txs else []
  {
    if txs != [] {
      OfOneKind(kind, other, txs[1..]);
    }
  }

  /** In `txs` no later entry is newer, and of entries of one time the settlements come first. */
  ghost predicate Arranged(txs: seq<Tx>) {
    forall i, j :: 0 <= i < j < |txs| ==>
      && txs[i].createdAt >= txs[j].createdAt
      && (txs[i].createdAt == txs[j].createdAt && txs[j].kind == Settlement ==> txs[i].kind == Settlement)
  }

  lemma {:induction false} MergeArranges(a: seq<Tx>, b: seq<Tx>)
    requires AllOf(Settlement, a) && AllOf(Withdrawal, b) && NewestFirst(a) && NewestFirst(b)
    ensures Arranged(Merge(a, b)) && forall tx :: tx in Merge(a, b) ==> tx in a || tx in b
    decreases |a| + |b|
  {
    if a == [] {
      PairsNewestFirst(b);
    } else if b == [] {
      PairsNewestFirst(a);
    } else if a[0].createdAt >= b[0].createdAt {
      MergeArranges(a[1..], b);
      HeadFirst(a[0], a[1..], b);
    } else {
      MergeArranges(a, b[1..]);
      HeadFirst(b[0], a, b[1..]);
    }
  }

  /** The sources can be read off `txs`. */
  ghost predicate HoldsBoth(txs: seq<Tx>, a: seq<Tx>, b: seq<Tx>) {
    OfKind(Settlement, txs) == a && OfKind(Withdrawal, txs) == b && |txs| == |a| + |b|
  }

  lemma OneMore(head: Tx, rest: seq<Tx>, a: seq<Tx>, b: seq<Tx>)
    requires HoldsBoth(rest, a, b)
    ensures if head.kind == Settlement then HoldsBoth([head] + rest, [head] + a, b)
            else HoldsBoth([head] + rest, a, [head] + b)
  {
    assert ([head] + rest)[1..] == rest;
  }

  lemma OnlyOneSource(a: seq<Tx>, b: seq<Tx>)
    requires AllOf(Settlement, a) && AllOf(Withdrawal, b)
    ensures HoldsBoth(a, a, []) && HoldsBoth(b, [], b)
  {
    OfOneKind(Settlement, Withdrawal, b);
    OfOneKind(Withdrawal, Withdrawal, b);
    OfOneKind(Settlement, Settlement, a);
    OfOneKind(Withdrawal, Settlement, a);
  }

  /** Each source can be read off the merge again. */
  lemma {:induction false} MergeKeepsBoth(a: seq<Tx>, b: seq<Tx>)
    requires AllOf(Settlement, a) && AllOf(Withdrawal, b)
    ensures HoldsBoth(Merge(a, b), a, b)
    decreases |a| + |b|
  {
    if a == [] || b == [] {
      OnlyOneSource(a, b);
    } else if a[0].createdAt >= b[0].createdAt {
      MergeKeepsBoth(a[1..], b);
      OneMore(a[0], Merge(a[1..], b), a[1..], b);
      assert [a[0]] + a[1..] == a;
    } else {
      MergeKeepsBoth(a, b[1..]);
      OneMore(b[0], Merge(a, b[1..]), a, b[1..]);
      assert [b[0]] + b[1..] == b;
    }
  }

  lemma PairsNewestFirst(txs: seq<Tx>)
    requires NewestFirst(txs)
    ensures forall i, j :: 0 <= i < j < |txs| ==> txs[i].createdAt >= txs[j].createdAt
  {
    forall i, j | 0 <= i < j < |txs| ensures txs[i].createdAt >= txs[j].createdAt {
      TailNewestFirst(txs, i);
      HeadIsNewest(txs[i..], j - i);
    }
  }

  lemma {:induction false} TailNewestFirst(txs: seq<Tx>, i: nat)
    requires NewestFirst(txs) && i <= |txs|
    ensures NewestFirst(txs[i..])
  {
    if i > 0 {
      TailNewestFirst(txs[1..], i - 1);
      assert txs[1..][i - 1..] == txs[i..];
    }
  }

  /** The entry a merge puts first may stand there. */
  lemma HeadFirst(head: Tx, a: seq<Tx>, b: seq<Tx>)
    requires Arranged(Merge(a, b)) && forall tx :: tx in Merge(a, b) ==> tx in a || tx in b
    requires NewestFirst(a) && NewestFirst(b) && AllOf(Settlement, a) && AllOf(Withdrawal, b)
    requires a != [] ==> head.createdAt >= a[0].createdAt
    requires a != [] && head.kind == Withdrawal ==> head.createdAt > a[0].createdAt
    requires b != [] ==> head.createdAt >= b[0].createdAt
    ensures Arranged([head] + Merge(a, b))
  {
    var rest := Merge(a, b);
    forall j | 0 <= j < |rest|
      ensures head.createdAt >= rest[j].createdAt
      ensures head.createdAt == rest[j].createdAt && rest[j].kind == Settlement ==> head.kind == Settlement
    {
      assert rest[j] in rest;
      if rest[j] in a {
        var i :| 0 <= i < |a| && a[i] == rest[j];
        HeadIsNewest(a, i);
      } else {
        var i :| 0 <= i < |b| && b[i] == rest[j];
        HeadIsNewest(b, i);
      }
    }
  }

  /**
   * The history holds every settlement and every withdrawal once, each source in its own
   * order, newest first, and settlements before withdrawals of the same time. A settlement
   * shows its recipient row's id and the settlement's time, a withdrawal its own.
   */
  lemma HistoryMeaning(recipients: seq<RecipientRow>, withdrawals: seq<WithdrawalRow>)
    requires FetchOrder(recipients, withdrawals)
    ensures var h := History(recipients, withdrawals);
      var credits, debits := OfKind(Settlement, h), OfKind(Withdrawal, h);
      && Arranged(h) && |h| == |recipients| + |withdrawals|
      && |credits| == |recipients| && |debits| == |withdrawals|
      && (forall i :: 0 <= i < |recipients| ==> credits[i] == Tx(recipients[i].id, Settlement, recipients[i].settledAt))
      && (forall i :: 0 <= i < |withdrawals| ==>
            debits[i] == Tx(withdrawals[i].id, Withdrawal, withdrawals[i].createdAt))
  {
    PairwiseNewestFirst(SettlementTxs(recipients));
    MergeArranges(SettlementTxs(recipients), WithdrawalTxs(withdrawals));
    MergeKeepsBoth(SettlementTxs(recipients), WithdrawalTxs(withdrawals));
  }

  /** `shown` is what is left of `h` after the first `skip` entries, cut to `limit`. */
  ghost predicate Window(shown: seq<Tx>, h: seq<Tx>, skip: nat, limit: nat) {
    && |shown| == (if |h| <= skip then 0 else if |h| - skip < limit then |h| - skip else limit)
    && forall k :: 0 <= k < |shown| ==> shown[k] == h[skip + k]
  }

  lemma SliceIsWindow(s: seq<Tx>, skip: nat, limit: nat)
    ensures Window(Slice(s, skip, limit), s, skip, limit)
  {
  }

  lemma FullPage(recipients: seq<RecipientRow>, withdrawals: seq<WithdrawalRow>, page: nat, limit: nat, skip: nat)
    requires page >= 1 && skip == (page - 1) * limit && FetchOrder(recipients, withdrawals)
    ensures Window(PageOf(recipients, withdrawals, page, limit), History(recipients, withdrawals), skip, limit)
  {
    PairwiseNewestFirst(SettlementTxs(recipients));
    SortIsMerge(SettlementTxs(recipients), WithdrawalTxs(withdrawals));
    SliceIsWindow(History(recipients, withdrawals), skip, limit);
  }

  /** The page that is served: entry by entry the `limit` entries after those of the earlier pages. */
  lemma PageMeaning(recipients: seq<RecipientRow>, withdrawals: seq<WithdrawalRow>, page: nat, limit: nat, skip: nat)
    requires page >= 1 && limit >= 1 && skip == (page - 1) * limit && FetchOrder(recipients, withdrawals)
    ensures Window(GetTransactions(recipients, withdrawals, page, limit), History(recipients, withdrawals), skip, limit)
  {
    BoundedMergeIsFullMerge(recipients, withdrawals, page, limit);
    FullPage(recipients, withdrawals, page, limit, skip);
  }

  /** The first pages, one after another. */
  function FirstPages(recipients: seq<RecipientRow>, withdrawals: seq<WithdrawalRow>, pages: nat, limit: nat): seq<Tx> {
    if pages == 0 then []
    else FirstPages(recipients, withdrawals, pages - 1, limit) + GetTransactions(recipients, withdrawals, pages, limit)
  }

  /** The first pages together are the newest entries of the history: none is skipped or shown twice. */
  lemma {:induction false} PagesTile(recipients: seq<RecipientRow>, withdrawals: seq<WithdrawalRow>, pages: nat,
                                     limit: nat, total: nat)
    requires limit >= 1 && total == pages * limit && FetchOrder(recipients, withdrawals)
    ensures Window(FirstPages(recipients, withdrawals, pages, limit), History(recipients, withdrawals), 0, total)
    decreases pages
  {
    if pages > 0 {
      OnePageLess(pages, limit);
      PagesTile(recipients, withdrawals, pages - 1, limit, total - limit);
      PageMeaning(recipients, withdrawals, pages, limit, total - limit);
      NextPage(History(recipients, withdrawals), FirstPages(recipients, withdrawals, pages - 1, limit),
               GetTransactions(recipients, withdrawals, pages, limit), total - limit, limit);
    }
  }

  lemma OnePageLess(pages: nat, limit: nat)
    requires pages > 0
    ensures pages * limit >= limit && (pages - 1) * limit == pages * limit - limit
  {
  }

  lemma NextPage(h: seq<Tx>, shown: seq<Tx>, served: seq<Tx>, skip: nat, limit: nat)
    requires Window(shown, h, 0, skip) && Window(served, h, skip, limit)
    ensures Window(shown + served, h, 0, skip + limit)
  {
  }

  // ------------------------------------------------------------------------- ties

  function Times(txs: seq<Tx>): (times: seq<int>)
    ensures |times| == |txs|
  {
    seq(|txs|, i requires 0 <= i < |txs| => txs[i].createdAt)
  }

  /** Newest-first arrangements of the same entries show the same timestamps. */
  lemma {:induction false} ArrangementsShareTimes(s: seq<Tx>, t: seq<Tx>)
    requires NewestFirst(s) && NewestFirst(t)
    requires multiset(Times(s)) == multiset(Times(t))
    ensures Times(s) == Times(t)
    decreases |s|
  {
    assert |multiset(Times(s))| == |s| && |multiset(Times(t))| == |t|;
    if s != [] {
      NewestIsKnown(s, t);
      NewestIsKnown(t, s);
      var x := Times(s)[0];
      TimesTail(s);
      TimesTail(t);
      assert multiset(Times(s[1..])) == multiset(Times(s)) - multiset{x} == multiset(Times(t[1..]));
      ArrangementsShareTimes(s[1..], t[1..]);
    }
  }

  /** The newest time of one arrangement is not newer than that of the other. */
  lemma NewestIsKnown(s: seq<Tx>, t: seq<Tx>)
    requires NewestFirst(s) && s != [] && t != [] && multiset(Times(s)) == multiset(Times(t))
    ensures Times(t)[0] <= Times(s)[0]
  {
    assert Times(t)[0] in multiset(Times(s));
    var i :| 0 <= i < |s| && s[i].createdAt == Times(t)[0];
    HeadIsNewest(s, i);
  }

  lemma TimesTail(s: seq<Tx>)
    requires s != []
    ensures Times(s) == [Times(s)[0]] + Times(s[1..])
  {
  }

  lemma TimesOfTake(txs: seq<Tx>, skip: nat, limit: nat)
    ensures Times(Slice(txs, skip, limit)) == Slice(Times(txs), skip, limit)
  {
  }

  lemma {:induction false} TimesAsMultiset(s: seq<Tx>, t: seq<Tx>)
    requires multiset(s) == multiset(t)
    ensures multiset(Times(s)) == multiset(Times(t))
    decreases |s|
  {
    assert |multiset(s)| == |s| && |multiset(t)| == |t|;
    if s == [] {
      assert t == [];
    } else {
      var k, without := TakeOut(s, t);
      TimesAsMultiset(s[1..], without);
      assert Times(s) == [s[0].createdAt] + Times(s[1..]);
      assert Times(t) == Times(t[..k]) + [t[k].createdAt] + Times(t[k + 1..]);
      assert Times(without) == Times(t[..k]) + Times(t[k + 1..]);
    }
  }

  lemma PagesShareTimes(s: seq<Tx>, t: seq<Tx>, skip: nat, limit: nat)
    requires multiset(s) == multiset(t)
    ensures Times(Slice(Sort(s), skip, limit)) == Times(Slice(Sort(t), skip, limit))
  {
    SortSorts(s);
    SortSorts(t);
    TimesAsMultiset(Sort(s), Sort(t));
    ArrangementsShareTimes(Sort(s), Sort(t));
    TimesOfTake(Sort(s), skip, limit);
    TimesOfTake(Sort(t), skip, limit);
  }

  lemma FullPagesShareTimes(recipients: seq<RecipientRow>, withdrawals: seq<WithdrawalRow>,
                            others: seq<RecipientRow>, otherWithdrawals: seq<WithdrawalRow>, page: nat, limit: nat)
    requires page >= 1
    requires multiset(SettlementTxs(recipients)) == multiset(SettlementTxs(others))
    requires multiset(WithdrawalTxs(withdrawals)) == multiset(WithdrawalTxs(otherWithdrawals))
    ensures Times(PageOf(recipients, withdrawals, page, limit)) == Times(PageOf(others, otherWithdrawals, page, limit))
  {
    PagesShareTimes(SettlementTxs(recipients) + WithdrawalTxs(withdrawals),
                    SettlementTxs(others) + WithdrawalTxs(otherWithdrawals), (page - 1) * limit, limit);
  }

  /**
   * When the database breaks ties differently from one query to the next, a bounded
   * page still shows exactly the timestamps of the full merge.
   */
  lemma TieOrderIsImmaterial(recipients: seq<RecipientRow>, withdrawals: seq<WithdrawalRow>,
                             others: seq<RecipientRow>, otherWithdrawals: seq<WithdrawalRow>, page: nat, limit: nat)
    requires page >= 1 && limit >= 1
    requires FetchOrder(recipients, withdrawals)
    requires multiset(SettlementTxs(recipients)) == multiset(SettlementTxs(others))
    requires multiset(WithdrawalTxs(withdrawals)) == multiset(WithdrawalTxs(otherWithdrawals))
    ensures Times(GetTransactions(recipients, withdrawals, page, limit))
         == Times(PageOf(others, otherWithdrawals, page, limit))
  {
    BoundedMergeIsFullMerge(recipients, withdrawals, page, limit);
    FullPagesShareTimes(recipients, withdrawals, others, otherWithdrawals, page, limit);
  }
}
