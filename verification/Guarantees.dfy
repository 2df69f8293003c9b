/** The protocol's promises, for every run: any actions in any order from an empty shop. */
module Guarantees {
  import opened Types
  import opened Split
  import opened Contract
  import opened SettlementLaws
  import opened OrderStates
  import opened Protocol
  import opened Safety
  import Ledger

  // ------------------------------------------------------------ money moves once

  function Executions(history: seq<Entry>): nat {
    if history == [] then 0 else (if history[0].SettlementExecuted? then 1 else 0) + Executions(history[1..])
  }

  lemma {:induction false} PaymentsAreNoExecutions(entries: seq<Entry>, summary: Entry)
    requires forall i :: 0 <= i < |entries| ==> entries[i].RecipientPaid?
    requires summary.SettlementExecuted?
    ensures Executions(entries + [summary]) == 1
  {
    if entries == [] {
      assert [] + [summary] == [summary] && [summary][1..] == [];
    } else {
      assert (entries + [summary])[1..] == entries[1..] + [summary];
      PaymentsAreNoExecutions(entries[1..], summary);
    }
  }

  /** The sum of the creator pools, at the orders' prices. */
  ghost function Pools(orders: map<OrderId, Order>, marked: set<OrderId>): int
    requires marked <= orders.Keys
  {
    if marked == {} then 0
    else
      var o :| o in marked;
      Pool(BaseTotal(orders[o].cents)) + Pools(orders, marked - {o})
  }

  lemma {:induction false} PoolsPick(orders: map<OrderId, Order>, marked: set<OrderId>, o: OrderId)
    requires marked <= orders.Keys && o in marked
    ensures Pools(orders, marked) == Pool(BaseTotal(orders[o].cents)) + Pools(orders, marked - {o})
    decreases marked
  {
    var p :| p in marked && Pools(orders, marked) == Pool(BaseTotal(orders[p].cents)) + Pools(orders, marked - {p});
    if p != o {
      PoolsPick(orders, marked - {p}, o);
      PoolsPick(orders, marked - {o}, p);
      assert marked - {p} - {o} == marked - {o} - {p};
    }
  }

  lemma {:induction false} PoolsSame(orders: map<OrderId, Order>, later: map<OrderId, Order>, marked: set<OrderId>)
    requires marked <= orders.Keys
    requires forall o :: o in orders ==> o in later && later[o].cents == orders[o].cents
    ensures marked <= later.Keys && Pools(later, marked) == Pools(orders, marked)
    decreases marked
  {
    if marked != {} {
      var o :| o in marked && Pools(orders, marked) == Pool(BaseTotal(orders[o].cents)) + Pools(orders, marked - {o});
      PoolsSame(orders, later, marked - {o});
      PoolsPick(later, marked, o);
    }
  }

  ghost predicate PoolsMatch(s: State) {
    s.chain.markers <= s.orders.Keys && PoolSum(s.chain.history) == Pools(s.orders, s.chain.markers)
  }

  lemma StepPools(s: State, action: Action, genesis: Ledger.Accounts)
    requires Invariant(s, genesis) && PoolsMatch(s)
    ensures PoolsMatch(Step(s, action))
  {
    if action.Include? {
      InclusionPools(s, action.tx, action.executed, genesis);
    } else if action.Outside? {
      OutsidePools(s, action.call);
    } else {
      OtherStepsKeepPools(s, action, genesis);
    }
  }

  lemma OtherStepsKeepPools(s: State, action: Action, genesis: Ledger.Accounts)
    requires Invariant(s, genesis) && PoolsMatch(s) && !action.Include? && !action.Outside?
    ensures PoolsMatch(Step(s, action))
  {
    var t := Step(s, action);
    StepKeeps(s, action, genesis);
    OtherStepsKeepChain(s, action);
    PoolsSame(s.orders, t.orders, s.chain.markers);
  }

  lemma OtherStepsKeepChain(s: State, action: Action)
    requires !action.Include? && !action.Outside?
    ensures Step(s, action).chain == s.chain
  {
    match action {
      case Act(h, answer) => ActChain(s, h, answer);
      case _ =>
    }
  }

  lemma InclusionPools(s: State, tx: nat, executed: bool, genesis: Ledger.Accounts)
    requires Invariant(s, genesis) && PoolsMatch(s)
    ensures PoolsMatch(IncludeStep(s, tx, executed))
  {
    if tx in s.txs && s.txs[tx].status == Pending && executed {
      assert TxOk(s, s.txs[tx]);
      var terms := s.txs[tx].terms;
      if Settle(s.chain, s.signers, terms.order, terms.total, terms.recipients).0 == Success {
        ExecutionPools(s, tx);
      } else {
        assert IncludeStep(s, tx, executed).chain == s.chain;
      }
    }
  }

  lemma ExecutionPools(s: State, tx: nat)
    requires tx in s.txs && s.txs[tx].status == Pending && PoolsMatch(s) && Ledger.WithinLimits(s.chain.ledger)
    requires s.txs[tx].terms.order in s.orders
    requires s.txs[tx].terms.total == BaseTotal(s.orders[s.txs[tx].terms.order].cents)
    requires var terms := s.txs[tx].terms;
      Settle(s.chain, s.signers, terms.order, terms.total, terms.recipients).0 == Success
    ensures PoolsMatch(IncludeStep(s, tx, true))
  {
    var terms := s.txs[tx].terms;
    SettlementPools(s.chain, s.signers, terms);
    PoolsAdd(s.orders, s.chain.markers, terms.order);
  }

  lemma SettlementPools(c: Chain, signers: set<Address>, terms: Terms)
    requires Ledger.WithinLimits(c.ledger)
    requires Settle(c, signers, terms.order, terms.total, terms.recipients).0 == Success
    ensures var after := Settle(c, signers, terms.order, terms.total, terms.recipients).1;
      && terms.order !in c.markers && after.markers == c.markers + {terms.order}
      && PoolSum(after.history) == PoolSum(c.history) + Pool(terms.total)
  {
    SettleEffect(c, signers, terms.order, terms.total, terms.recipients);
    var receipt := Receipt(terms.order, terms.total, terms.recipients);
    Appended(c.history, receipt, Payer(c), Payer(c), terms.order);
    ReceiptSums(terms.order, terms.total, terms.recipients, Payer(c), Payer(c), terms.order);
  }

  lemma PoolsAdd(orders: map<OrderId, Order>, marked: set<OrderId>, o: OrderId)
    requires marked <= orders.Keys && o in orders && o !in marked
    ensures Pools(orders, marked + {o}) == Pools(orders, marked) + Pool(BaseTotal(orders[o].cents))
  {
    PoolsPick(orders, marked + {o}, o);
    assert marked + {o} - {o} == marked;
  }

  lemma OutsidePools(s: State, call: Call)
    requires s.chain.config.Some? && PoolsMatch(s)
    ensures PoolsMatch(Step(s, Outside(call)))
  {
    if call.TokenTransfer? {
      var moved := [Moved(call.from, call.to, call.amount)];
      assert moved[1..] == [];
      Appended(s.chain.history, moved, call.from, call.from, OrderId(""));
    }
  }

  lemma {:induction false} RunPools(s: State, actions: seq<Action>, genesis: Ledger.Accounts)
    requires Invariant(s, genesis) && PoolsMatch(s)
    ensures PoolsMatch(Run(s, actions))
    decreases |actions|
  {
    if actions != [] {
      StepKeeps(s, actions[0], genesis);
      StepPools(s, actions[0], genesis);
      RunPools(Step(s, actions[0]), actions[1..], genesis);
    }
  }

  /**
   * Money moves at most once. In every run, each order has either no chain event at all
   * or one complete payout at its price; apart from other transfers, and what it pays itself
   * when it is a recipient, the platform has spent exactly the creator pools of the
   * marked orders; and the token supply is what it was at the start.
   */
  lemma MoneyMovesAtMostOnce(s: State, actions: seq<Action>, genesis: Ledger.Accounts)
    requires Init(s, genesis)
    ensures var t := Run(s, actions); var platform := s.chain.config.value.platform;
      && (forall o :: Executions(Of(o, t.chain.history)) <= 1)
      && (forall o :: o !in t.chain.markers ==> Of(o, t.chain.history) == [])
      && (forall o :: o in t.chain.markers ==> PaidAtPrice(t, o))
      && t.chain.markers <= t.orders.Keys
      && Ledger.Balance(t.chain.ledger, platform)
         == Ledger.Balance(genesis, platform) + OtherFlow(platform, t.chain.history)
            + ReceivedBy(platform, t.chain.history) - Pools(t.orders, t.chain.markers)
      && Ledger.Supply(t.chain.ledger) == Ledger.Supply(genesis)
  {
    var t := Run(s, actions);
    InitInvariant(s, genesis);
    RunKeeps(s, actions, genesis);
    RunPools(s, actions, genesis);
    RunConfig(s, actions, genesis);
    PlatformOutflow(t.chain, genesis);
    forall o ensures Executions(Of(o, t.chain.history)) <= 1 {
      if o in t.chain.markers {
        var total, list :| Of(o, t.chain.history) == Receipt(o, total, list) && total > 0 && Acceptable(list);
        PaymentsAreNoExecutions(PaidEntries(o, list, Amounts(Pool(total), SharesOf(list))),
                                SettlementExecuted(o, total, Fee(total), Pool(total), |list|));
      }
    }
  }

  lemma {:induction false} RunConfig(s: State, actions: seq<Action>, genesis: Ledger.Accounts)
    requires Invariant(s, genesis)
    ensures Run(s, actions).chain.config == s.chain.config
    decreases |actions|
  {
    if actions != [] {
      StepAccounted(s, actions[0], genesis);
      StepKeeps(s, actions[0], genesis);
      RunConfig(Step(s, actions[0]), actions[1..], genesis);
    }
  }

  // ------------------------------------------------- the database claims no false payout

  /**
   * In every reachable state, after any crash and any recovery: a SETTLED status, a
   * Settlement row, an announced completion or a delivery mail means the order's marker
   * is set and its whole price has been paid out on chain.
   */
  lemma NoPayoutIsClaimedInVain(s: State, actions: seq<Action>, genesis: Ledger.Accounts, o: OrderId)
    requires Init(s, genesis)
    ensures var t := Run(s, actions);
      && (forall m :: m in t.mails ==> m < |t.emitted|)
      && ((o in t.orders && t.orders[o].status == Settled) || o in t.rows || o in t.emitted
          || (exists m :: m in t.mails && t.emitted[m] == o)
          ==> o in t.chain.markers && PaidAtPrice(t, o))
  {
    InitInvariant(s, genesis);
    RunKeeps(s, actions, genesis);
    var t := Run(s, actions);
    if o in t.rows {
      assert RowOk(t, o, t.rows[o]);
    }
  }

  // ----------------------------------------------------- one row, one delivery, for good

  lemma {:induction false} RunExtends(s: State, actions: seq<Action>, genesis: Ledger.Accounts)
    requires Invariant(s, genesis)
    ensures var t := Run(s, actions);
      && s.chain.markers <= t.chain.markers
      && (forall o :: o in s.chain.markers ==> Of(o, t.chain.history) == Of(o, s.chain.history))
      && (forall o :: o in s.rows ==> o in t.rows && t.rows[o] == s.rows[o])
      && (forall o :: o in s.orders ==> o in t.orders && t.orders[o].cents == s.orders[o].cents)
      && (forall x :: x in s.txs ==> x in t.txs && t.txs[x].terms == s.txs[x].terms)
      && s.emitted <= t.emitted
    decreases |actions|
  {
    if actions != [] {
      StepKeeps(s, actions[0], genesis);
      RunExtends(Step(s, actions[0]), actions[1..], genesis);
    }
  }

  lemma {:induction false} RunAppend(s: State, first: seq<Action>, second: seq<Action>)
    ensures Run(s, first + second) == Run(Run(s, first), second)
    decreases |first|
  {
    if first == [] {
      assert first + second == second;
    } else {
      assert (first + second)[1..] == first[1..] + second;
      RunAppend(Step(s, first[0]), first[1..], second);
    }
  }

  /**
   * What is paid stays paid, what is recorded stays recorded, and an order keeps its
   * price, however the run goes on and whatever happens to its product.
   */
  lemma RecordsAreFinal(s: State, actions: seq<Action>, later: seq<Action>, genesis: Ledger.Accounts, o: OrderId)
    requires Init(s, genesis)
    ensures var t, u := Run(s, actions), Run(s, actions + later);
      && (o in t.chain.markers ==> o in u.chain.markers && Of(o, u.chain.history) == Of(o, t.chain.history))
      && (o in t.rows ==> o in u.rows && u.rows[o] == t.rows[o])
      && (o in t.orders ==> o in u.orders && u.orders[o].cents == t.orders[o].cents)
  {
    InitInvariant(s, genesis);
    RunKeeps(s, actions, genesis);
    RunAppend(s, actions, later);
    RunExtends(Run(s, actions), later, genesis);
  }

  /**
   * Goods ship at most once. Over its whole life an order is announced as completed at
   * most once, no two mails go out for it, and each is preceded by its row and its payout.
   */
  lemma GoodsShipAtMostOnce(s: State, actions: seq<Action>, genesis: Ledger.Accounts)
    requires Init(s, genesis)
    ensures var t := Run(s, actions);
      && NoDuplicates(t.emitted)
      && (forall o :: o in t.emitted ==> o in t.rows && o in t.chain.markers)
      && (forall i :: 0 <= i < |t.mails| ==> t.mails[i] < |t.emitted|)
      && (forall i, j :: 0 <= i < j < |t.mails| ==> t.emitted[t.mails[i]] != t.emitted[t.mails[j]])
  {
    InitInvariant(s, genesis);
    RunKeeps(s, actions, genesis);
    var t := Run(s, actions);
    forall o | o in t.emitted ensures o in t.chain.markers {
      assert RowOk(t, o, t.rows[o]);
    }
    forall i | 0 <= i < |t.mails| ensures t.mails[i] < |t.emitted| {
      assert t.mails[i] in t.mails;
    }
    forall i, j | 0 <= i < j < |t.mails| ensures t.emitted[t.mails[i]] != t.emitted[t.mails[j]] {
      assert t.mails[i] != t.mails[j];
    }
  }

  // ---------------------------------------------------------------- outcomes are final

  /** Transactions that have an outcome keep it. */
  ghost predicate Final(s: State, t: State) {
    forall x :: x in s.txs && s.txs[x].status != Pending ==> x in t.txs && t.txs[x] == s.txs[x]
  }

  lemma StepFinal(s: State, action: Action)
    requires Safe(s)
    ensures Final(s, Step(s, action))
  {
    match action {
      case Act(h, answer) => ActFinal(s, h, answer);
      case Include(tx, executed) => IncludeFinal(s, tx, executed);
      case _ => OthersKeepTxs(s, action);
    }
  }

  lemma OthersKeepTxs(s: State, action: Action)
    requires !action.Act? && !action.Include?
    ensures Step(s, action).txs == s.txs
  {
    match action {
      case Resume(o) => assert o in s.orders ==> Perform(s, Emit(Payment(o, s.orders[o].cents))).txs == s.txs;
      case Dispatch(_) =>
      case Deliver(_) =>
      case _ =>
    }
  }

  lemma ActFinal(s: State, h: nat, answer: Answer)
    requires Safe(s)
    ensures Final(s, ActStep(s, h, answer))
  {
    if h in s.acts {
      var move := Decide(s, h, s.acts[h], answer);
      PerformFinal(s, move.effect);
      assert Continue(Perform(s, move.effect), h, move.next).txs == Perform(s, move.effect).txs;
    }
  }

  lemma PerformFinal(s: State, effect: Effect)
    requires TxsOk(s)
    ensures Final(s, Perform(s, effect))
  {
    match effect {
      case Submit(_) => assert s.next !in s.txs;
      case _ =>
    }
  }

  lemma IncludeFinal(s: State, tx: nat, executed: bool)
    ensures Final(s, IncludeStep(s, tx, executed))
  {
  }

  /** A confirmed transaction stays confirmed, and a failed one failed, however the run goes on. */
  lemma {:induction false} OutcomesAreFinal(s: State, later: seq<Action>, genesis: Ledger.Accounts)
    requires Invariant(s, genesis)
    ensures Final(s, Run(s, later))
    decreases |later|
  {
    if later != [] {
      StepFinal(s, later[0]);
      StepKeeps(s, later[0], genesis);
      OutcomesAreFinal(Step(s, later[0]), later[1..], genesis);
    }
  }

  // ------------------------------------------------------------- payment references

  /** No payment reference belongs to two orders. */
  ghost predicate RefsUnique(s: State) {
    forall o, p :: o in s.orders && p in s.orders && o != p && s.orders[o].paymentRef.Some? ==>
      s.orders[p].paymentRef != s.orders[o].paymentRef
  }

  /** A reference is only claimed after the look at who else has it, in the same statement. */
  lemma ClaimsAreFree(s: State, h: nat, answer: Answer)
    requires h in s.acts
    ensures var effect := Decide(s, h, s.acts[h], answer).effect;
      effect.Claim? ==> !RefTakenByOther(s, effect.ref, effect.order)
  {
    if s.acts[h].Paying? {
      var Paying(o, ref, at) := s.acts[h];
      assert at.ClaimRef? || !DecidePaying(s, o, ref, at, answer).effect.Claim?;
    } else {
      OnlyWebhooksClaim(s, h, s.acts[h], answer);
    }
  }

  lemma OnlyWebhooksClaim(s: State, h: nat, pc: Pc, answer: Answer)
    requires !pc.Paying?
    ensures !Decide(s, h, pc, answer).effect.Claim?
  {
    match pc {
      case Settling(job, at) =>
      case Recording(o, at, caller) =>
      case _ =>
    }
  }

  lemma PerformRefs(s: State, effect: Effect)
    requires RefsUnique(s) && (effect.Claim? ==> !RefTakenByOther(s, effect.ref, effect.order))
    ensures RefsUnique(Perform(s, effect))
  {
    match effect {
      case Write(o, _, _) =>
      case Claim(o, _, ref) =>
      case _ =>
    }
  }

  lemma StepRefs(s: State, action: Action)
    requires RefsUnique(s)
    ensures RefsUnique(Step(s, action))
  {
    if action.Act? {
      ActRefs(s, action.actor, action.answer);
    } else if !action.Checkout? {
      OthersKeepOrders(s, action);
    }
  }

  lemma OthersKeepOrders(s: State, action: Action)
    requires !action.Act? && !action.Checkout?
    ensures Step(s, action).orders == s.orders
  {
    match action {
      case Include(tx, executed) => assert IncludeStep(s, tx, executed).orders == s.orders;
      case Resume(_) =>
      case _ =>
    }
  }

  lemma ActRefs(s: State, h: nat, answer: Answer)
    requires RefsUnique(s)
    ensures RefsUnique(ActStep(s, h, answer))
  {
    if h in s.acts {
      var move := Decide(s, h, s.acts[h], answer);
      ClaimsAreFree(s, h, answer);
      PerformRefs(s, move.effect);
      assert Continue(Perform(s, move.effect), h, move.next).orders == Perform(s, move.effect).orders;
    }
  }

  // ------------------------------------------------------------------ what rows say

  /**
   * The row a handler writes after seeing its own transaction confirm is the payment:
   * the same recipients, each with the amount the chain published for it.
   */
  lemma DirectRowsAreThePayment(s: State, actions: seq<Action>, genesis: Ledger.Accounts, o: OrderId)
    requires Init(s, genesis)
    requires o in Run(s, actions).rows && Run(s, actions).rows[o].direct
    ensures var t := Run(s, actions); var row := t.rows[o]; var events := Of(o, t.chain.history);
      && |row.amounts| == |row.recipients| && |events| == |row.recipients| + 1
      && (forall i :: 0 <= i < |row.recipients| ==>
            events[i] == RecipientPaid(o, row.recipients[i].address, row.amounts[i]))
      && events[|row.recipients|] == SettlementExecuted(o, row.total, row.fee, row.total - row.fee, |row.recipients|)
  {
    InitInvariant(s, genesis);
    RunKeeps(s, actions, genesis);
    assert RowOk(Run(s, actions), o, Run(s, actions).rows[o]);
  }

  /**
   * A row rebuilt by a recovery has the paid total and fee; when it lists the paid
   * recipients in another order, each of its amounts is off by at most n - 1 base units.
   */
  lemma RecoveredRowsDriftLittle(s: State, actions: seq<Action>, genesis: Ledger.Accounts, o: OrderId)
    requires Init(s, genesis) && o in Run(s, actions).rows
    ensures var t := Run(s, actions); exists list :: PaidLike(t, o, t.rows[o], list)
  {
    InitInvariant(s, genesis);
    RunKeeps(s, actions, genesis);
    var t := Run(s, actions);
    assert RowOk(t, o, t.rows[o]) && PaidAtPrice(t, o);
    var list :| Acceptable(list) && Paid(t, o, BaseTotal(t.orders[o].cents), list);
    RowDrifts(t, o, t.rows[o], list);
  }

  /** The order was paid to `list`, with the row's total and fee, and the row's amounts are near the paid ones. */
  ghost predicate PaidLike(s: State, o: OrderId, row: Row, list: seq<Recipient>) {
    var events := Of(o, s.chain.history);
    && Acceptable(list) && Paid(s, o, row.total, list) && Drifts(row, list)
    && |events| == |list| + 1
    && events[|list|] == SettlementExecuted(o, row.total, row.fee, row.total - row.fee, |list|)
  }

  /** How far the amounts of a row are from a payout of the same total to `paid`. */
  ghost predicate Drifts(row: Row, paid: seq<Recipient>) {
    && |row.amounts| == |row.recipients|
    && (multiset(paid) == multiset(row.recipients) ==>
          && Sum(row.amounts) == Pool(row.total)
          && (forall i, j :: 0 <= i < |paid| && 0 <= j < |row.recipients| && paid[i] == row.recipients[j] ==>
                -(|paid| - 1) <= Amounts(Pool(row.total), SharesOf(paid))[i] - row.amounts[j] <= |paid| - 1))
  }

  lemma RowDrifts(s: State, o: OrderId, row: Row, paid: seq<Recipient>)
    requires RowOk(s, o, row) && Acceptable(paid) && Paid(s, o, row.total, paid)
    ensures PaidLike(s, o, row, paid)
  {
    FeeBounds(row.total);
    if multiset(paid) == multiset(row.recipients) {
      Drift(Pool(row.total), paid, row.recipients);
    }
  }

  lemma Drift(pool: nat, paid: seq<Recipient>, recorded: seq<Recipient>)
    requires multiset(paid) == multiset(recorded) && Whole(SharesOf(paid))
    ensures Sum(Amounts(pool, SharesOf(recorded))) == pool
    ensures forall i, j :: 0 <= i < |paid| && 0 <= j < |recorded| && paid[i] == recorded[j] ==>
              -(|paid| - 1) <= Amounts(pool, SharesOf(paid))[i] - Amounts(pool, SharesOf(recorded))[j] <= |paid| - 1
  {
    WholeUnderPermutation(paid, recorded);
    SplitBounds(pool, SharesOf(recorded));
    forall i, j | 0 <= i < |paid| && 0 <= j < |recorded| && paid[i] == recorded[j]
      ensures -(|paid| - 1) <= Amounts(pool, SharesOf(paid))[i] - Amounts(pool, SharesOf(recorded))[j] <= |paid| - 1
    {
      OrderStability(pool, paid, recorded, i, j);
    }
  }
}
