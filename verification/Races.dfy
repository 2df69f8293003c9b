/**
 * A run that no serial run can imitate: a webhook that read its order before another
 * handler failed it brings an order with a transaction hash back into settlement, and a
 * crash leaves it there for recovery to find.
 */
module Races {
  import opened Types
  import opened OrderStates
  import opened Protocol
  import opened Safety
  import opened Guarantees
  import opened Serial
  import opened Incidents
  import opened Duplicates
  import Ledger

  /** Every serial run is a run: of the actions that it admits. */
  lemma {:induction false} SerialIsRun(s: State, actions: seq<Action>) returns (admitted: seq<Action>)
    ensures Run(s, admitted) == SerialRun(s, actions)
    decreases |actions|
  {
    admitted := [];
    if actions != [] {
      admitted := SerialIsRun(SerialStep(s, actions[0]), actions[1..]);
      if Admits(s, actions[0]) {
        admitted := [actions[0]] + admitted;
      }
    }
  }

  /** The shop's only order, of a creator who has a wallet. */
  ghost predicate Stage(u: State, sale: Sale, status: OrderStatus, hash: Option<Hash>) {
    && u.orders.Keys == {sale.order}
    && u.orders[sale.order].product == sale.product && u.orders[sale.order].cents == sale.contents.cents
    && u.orders[sale.order].status == status && u.orders[sale.order].txHash == hash
    && sale.product in u.products && u.products[sale.product].creator in u.connected
  }

  ghost predicate Both(u: State, h: nat, p: Pc, k: nat, q: Pc) {
    h != k && h < u.next && k < u.next && u.acts == map[h := p, k := q]
  }

  /** A second payment is announced while the order's settlement is about to be submitted. */
  lemma SecondPayment(s: State, actions: seq<Action>, u: State, sale: Sale, ref: PaymentRef, h: nat, send: Pc)
    returns (more: seq<Action>, v: State, k: nat)
    requires Run(s, actions) == u && u.acts == map[h := send] && h < u.next
    requires Stage(u, sale, SettlementPending, None)
    ensures Run(s, more) == v && Stage(v, sale, SettlementPending, None)
    ensures Both(v, h, send, k, Paying(sale.order, ref, FindRef)) && v.orders == u.orders
  {
    k := u.next;
    RunThen(s, actions, u, Webhook(sale.order, ref));
    more := actions + [Webhook(sale.order, ref)];
    v := Start(u, Paying(sale.order, ref, FindRef));
  }

  /** A statement that only reads. */
  lemma Read(s: State, actions: seq<Action>, u: State, h: nat, pc: Pc, answer: Answer, next: Pc)
    returns (more: seq<Action>)
    requires Run(s, actions) == u && h in u.acts && u.acts[h] == pc && Truthful(u, pc, answer)
    requires Decide(u, h, pc, answer) == Move(Nothing, Some(next))
    ensures Run(s, more) == u.(acts := u.acts[h := next])
  {
    more := Advance(s, actions, u, h, pc, answer, Nothing, Some(next));
  }

  /** The webhook reads the order, in settlement as it is, and may claim it. */
  lemma ReadEarly(s: State, actions: seq<Action>, u: State, sale: Sale, ref: PaymentRef, h: nat, send: Pc, k: nat)
    returns (more: seq<Action>, v: State)
    requires Run(s, actions) == u && Stage(u, sale, SettlementPending, None) && !RefTaken(u, ref)
    requires Both(u, h, send, k, Paying(sale.order, ref, FindRef))
    ensures Run(s, more) == v && Stage(v, sale, SettlementPending, None) && v.orders == u.orders
    ensures Both(v, h, send, k, Paying(sale.order, ref, ClaimRef(PaymentReceived, sale.contents.cents)))
  {
    var o := sale.order;
    var load, wallet := Paying(o, ref, LoadOrder), Paying(o, ref, FindWallet(u.orders[o]));
    var claim := Paying(o, ref, ClaimRef(PaymentReceived, sale.contents.cents));
    assert Transitions(SettlementPending)[3] == PaymentReceived;
    more := Read(s, actions, u, k, Paying(o, ref, FindRef), Good, load);
    v := u.(acts := u.acts[k := load]);
    more := Read(s, more, v, k, load, Good, wallet);
    v := v.(acts := v.acts[k := wallet]);
    more := Read(s, more, v, k, wallet, Good, claim);
    v := v.(acts := v.acts[k := claim]);
  }

  /** The settlement is submitted; its transaction is the next number. */
  lemma SubmitOnce(s: State, actions: seq<Action>, u: State, sale: Sale, h: nat) returns (more: seq<Action>)
    requires Run(s, actions) == u && h in u.acts && u.acts[h] == Settling(Job(sale), Send(Shares(sale), 0))
    ensures Run(s, more)
         == u.(txs := u.txs[u.next := Tx(SaleTerms(sale), Pending)], next := u.next + 1,
               acts := u.acts[h := Settling(Job(sale), Poll(Shares(sale), 0, u.next, 0))])
  {
    var poll := Settling(Job(sale), Poll(Shares(sale), 0, u.next, 0));
    more := Advance(s, actions, u, h, u.acts[h], Good, Submit(SaleTerms(sale)), Some(poll));
  }

  /** A pending transaction fails. */
  lemma Revert(s: State, actions: seq<Action>, u: State, tx: nat) returns (more: seq<Action>)
    requires Run(s, actions) == u && tx in u.txs && u.txs[tx].status == Pending
    ensures Run(s, more) == u.(txs := u.txs[tx := u.txs[tx].(status := Reverted)])
  {
    RunThen(s, actions, u, Include(tx, false));
    more := actions + [Include(tx, false)];
    assert Step(u, Include(tx, false)) == IncludeStep(u, tx, false);
  }

  /** The settlement is submitted, and its transaction fails. */
  lemma RevertOnChain(s: State, actions: seq<Action>, u: State, sale: Sale, h: nat, k: nat, claim: Pc)
    returns (more: seq<Action>, v: State)
    requires Run(s, actions) == u && Stage(u, sale, SettlementPending, None)
    requires Both(u, h, Settling(Job(sale), Send(Shares(sale), 0)), k, claim)
    ensures Run(s, more) == v && Stage(v, sale, SettlementPending, None)
    ensures HasStatus(v, Some(OnChain(u.next)), Reverted)
    ensures Both(v, h, Settling(Job(sale), Poll(Shares(sale), 0, u.next, 0)), k, claim)
  {
    more := SubmitOnce(s, actions, u, sale, h);
    var sent := Run(s, more);
    SameStage(u, sent, sale, SettlementPending, None);
    BothMove(u, sent, h, sent.acts[h], k, claim);
    more := Revert(s, more, sent, u.next);
    v := Run(s, more);
    SameStage(sent, v, sale, SettlementPending, None);
  }

  lemma SameStage(u: State, v: State, sale: Sale, status: OrderStatus, hash: Option<Hash>)
    requires Stage(u, sale, status, hash) && v.orders == u.orders
    requires v.products == u.products && v.connected == u.connected
    ensures Stage(v, sale, status, hash)
  {
  }

  /** The first of two handlers goes on. */
  lemma BothMove(u: State, v: State, h: nat, next: Pc, k: nat, q: Pc)
    requires h in u.acts && Both(u, h, u.acts[h], k, q) && v.acts == u.acts[h := next] && u.next <= v.next
    ensures Both(v, h, next, k, q)
  {
  }

  /** The order is marked failed, under this hash. */
  lemma WriteFailed(s: State, actions: seq<Action>, u: State, sale: Sale, h: nat, tx: nat) returns (more: seq<Action>)
    requires Run(s, actions) == u && h in u.acts && sale.order in u.orders
    requires u.acts[h] == Settling(Job(sale), Fail(Some(OnChain(tx)), false))
    ensures var failed := u.orders[sale.order].(status := SettlementFailed, txHash := Some(OnChain(tx)));
      Run(s, more) == u.(orders := u.orders[sale.order := failed], acts := u.acts - {h})
  {
    more := Advance(s, actions, u, h, u.acts[h], Good, Write(sale.order, SettlementFailed, Put(OnChain(tx))), None);
  }

  /** Polling finds the failure, and the order fails under the hash of its transaction. */
  lemma FailOnChain(s: State, actions: seq<Action>, u: State, sale: Sale, h: nat, tx: nat, k: nat, claim: Pc)
    returns (more: seq<Action>, v: State)
    requires Run(s, actions) == u && Stage(u, sale, SettlementPending, None)
    requires HasStatus(u, Some(OnChain(tx)), Reverted)
    requires Both(u, h, Settling(Job(sale), Poll(Shares(sale), 0, tx, 0)), k, claim)
    ensures Run(s, more) == v && Stage(v, sale, SettlementFailed, Some(OnChain(tx)))
    ensures v.acts == map[k := claim] && k < v.next
  {
    var poll, fail := u.acts[h], Settling(Job(sale), Fail(Some(OnChain(tx)), false));
    more := Read(s, actions, u, h, poll, Bad, fail);
    var seen := u.(acts := u.acts[h := fail]);
    SameStage(u, seen, sale, SettlementPending, None);
    more := WriteFailed(s, more, seen, sale, h, tx);
    v := Run(s, more);
    OneLeft(u, h, poll, k, claim, fail);
  }

  lemma OneLeft(u: State, h: nat, p: Pc, k: nat, q: Pc, next: Pc)
    requires Both(u, h, p, k, q)
    ensures u.acts[h := next] - {h} == map[k := q]
  {
  }

  /** The webhook claims the failed order, and announces its payment. */
  lemma ClaimFailed(s: State, actions: seq<Action>, u: State, sale: Sale, ref: PaymentRef, k: nat, hash: Option<Hash>)
    returns (more: seq<Action>, v: State, event: nat)
    requires Run(s, actions) == u && Stage(u, sale, SettlementFailed, hash) && k < u.next
    requires u.acts == map[k := Paying(sale.order, ref, ClaimRef(PaymentReceived, sale.contents.cents))]
    ensures Run(s, more) == v && Stage(v, sale, PaymentReceived, hash) && v.acts == map[]
    ensures event in v.payments && v.payments[event] == Job(sale)
  {
    var notify := Paying(sale.order, ref, Notify(sale.contents.cents));
    more, v := WriteClaim(s, actions, u, sale, ref, k);
    event := v.next;
    more := Advance(s, more, v, k, notify, Good, Emit(Job(sale)), None);
    v := v.(payments := v.payments[event := Job(sale)], next := event + 1, acts := v.acts - {k});
    assert v.acts == map[];
  }

  lemma WriteClaim(s: State, actions: seq<Action>, u: State, sale: Sale, ref: PaymentRef, k: nat)
    returns (more: seq<Action>, v: State)
    requires Run(s, actions) == u && k in u.acts && u.orders.Keys == {sale.order}
    requires u.acts[k] == Paying(sale.order, ref, ClaimRef(PaymentReceived, sale.contents.cents))
    ensures Run(s, more) == v
    ensures var claimed := u.orders[sale.order].(status := PaymentReceived, paymentRef := Some(ref));
      v == u.(orders := u.orders[sale.order := claimed],
              acts := u.acts[k := Paying(sale.order, ref, Notify(sale.contents.cents))])
  {
    var notify := Paying(sale.order, ref, Notify(sale.contents.cents));
    more := Advance(s, actions, u, k, u.acts[k], Good, Effect.Claim(sale.order, PaymentReceived, ref), Some(notify));
    v := Run(s, more);
  }

  /** The next handler marks the order SETTLEMENT_PENDING, and the process crashes. */
  lemma MarkThenCrash(s: State, actions: seq<Action>, u: State, sale: Sale, event: nat, hash: Option<Hash>)
    returns (more: seq<Action>, v: State)
    requires Run(s, actions) == u && Stage(u, sale, PaymentReceived, hash) && u.acts == map[]
    requires event in u.payments && u.payments[event] == Job(sale)
    ensures Run(s, more) == v && Stage(v, sale, SettlementPending, hash) && v.acts == map[]
  {
    var job, g := Job(sale), u.next;
    var mark := Settling(job, MarkPending(sale.product, hash));
    assert Transitions(PaymentReceived)[0] == SettlementPending;
    RunThen(s, actions, u, Dispatch(event));
    more := actions + [Dispatch(event)];
    v := Start(u.(payments := u.payments - {event}), Settling(job, ReadOrder));
    more := Read(s, more, v, g, Settling(job, ReadOrder), Good, mark);
    v := v.(acts := v.acts[g := mark]);
    more, v := MarkAndCrash(s, more, v, sale, g, hash);
  }

  lemma MarkAndCrash(s: State, actions: seq<Action>, u: State, sale: Sale, g: nat, hash: Option<Hash>)
    returns (more: seq<Action>, v: State)
    requires Run(s, actions) == u && Stage(u, sale, PaymentReceived, hash)
    requires g in u.acts && u.acts[g] == Settling(Job(sale), MarkPending(sale.product, hash))
    ensures Run(s, more) == v && Stage(v, sale, SettlementPending, hash) && v.acts == map[]
  {
    var load, write := Settling(Job(sale), LoadShares(sale.product, hash)), Write(sale.order, SettlementPending, Keep);
    more := Advance(s, actions, u, g, u.acts[g], Good, write, Some(load));
    var marked := Continue(Perform(u, write), g, Some(load));
    RunThen(s, more, marked, Crash);
    more := more + [Crash];
    v := Step(marked, Crash);
  }

  /** Recovery finds the order, with its hash, and asks the chain about the transaction. */
  lemma FindByHash(s: State, actions: seq<Action>, u: State, sale: Sale, hash: Option<Hash>)
    returns (more: seq<Action>, h: nat)
    requires Run(s, actions) == u && Stage(u, sale, SettlementPending, hash) && hash.Some? && u.acts == map[]
    ensures var t := Run(s, more);
      && h in t.acts && t.acts[h].Recovering? && t.acts[h].recover.AskTx?
      && t.acts[h].recover.snap == Snap(sale.order, SettlementPending, sale.contents.cents, hash)
  {
    h := u.next;
    RunThen(s, actions, u, Bootstrap);
    more := actions + [Bootstrap];
    var begun := Start(u, Recovering(FindStuck));
    var snap := Snap(sale.order, SettlementPending, sale.contents.cents, hash);
    assert [sale.order][1..] == [];
    assert Stuck(begun, [sale.order]) == [snap] + Stuck(begun, []);
    assert Stuck(begun, [sale.order]) == [snap];
    assert [snap][1..] == [];
    more := Read(s, more, begun, h, Recovering(FindStuck), Rows([sale.order]), Recovering(AskTx(snap, [])));
  }

  /**
   * Recovery does meet orders with a hash, but only after a race: two payments for one
   * order, the second read while the first was being settled and claimed after it failed.
   */
  lemma RecoveryByHash(s: State, genesis: Ledger.Accounts, sale: Sale, ref: PaymentRef)
    returns (actions: seq<Action>, h: nat)
    requires Sellable(s, genesis, sale) && ref != sale.ref
    ensures var t := Run(s, actions);
      && h in t.acts && t.acts[h].Recovering? && t.acts[h].recover.AskTx?
      && t.acts[h].recover.snap.order == sale.order && t.acts[h].recover.snap.txHash.Some?
  {
    actions := ReachSend(s, genesis, sale);
    actions := SerialIsRun(s, actions);
    var send := Settling(Job(sale), Send(Shares(sale), 0));
    var u, g, k := Solo(Begun(s, sale), s.next + 3, send), s.next + 3, 0;
    actions, u, k := SecondPayment(s, actions, u, sale, ref, g, send);
    actions, u := ReadEarly(s, actions, u, sale, ref, g, send, k);
    var tx, claim := u.next, Paying(sale.order, ref, ClaimRef(PaymentReceived, sale.contents.cents));
    actions, u := RevertOnChain(s, actions, u, sale, g, k, claim);
    actions, u := FailOnChain(s, actions, u, sale, g, tx, k, claim);
    var event;
    actions, u, event := ClaimFailed(s, actions, u, sale, ref, k, Some(OnChain(tx)));
    actions, u := MarkThenCrash(s, actions, u, sale, event, Some(OnChain(tx)));
    actions, h := FindByHash(s, actions, u, sale, Some(OnChain(tx)));
  }
}
