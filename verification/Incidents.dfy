/**
 * Runs that show why the guarantees stop where they do: a database failure that
 * overwrites SETTLED, and a lost answer that leaves a paid order SETTLEMENT_FAILED.
 */
module Incidents {
  import opened Types
  import opened Split
  import opened Contract
  import opened SettlementLaws
  import opened OrderStates
  import opened ProductGate
  import opened Protocol
  import opened Safety
  import opened Guarantees
  import opened Payouts
  import opened Serial
  import Ledger

  /** What is sold, and to whom the price is split. */
  datatype Sale = Sale(order: OrderId, product: ProductId, contents: Product, ref: PaymentRef)

  function Job(sale: Sale): Payment {
    Payment(sale.order, sale.contents.cents)
  }

  function Shares(sale: Sale): seq<Recipient> {
    ToRecipients(sale.contents.collaborators)
  }

  /** An empty shop over a contract that could settle this sale at once. */
  ghost predicate Sellable(s: State, genesis: Ledger.Accounts, sale: Sale) {
    && Init(s, genesis) && sale.contents.active && sale.contents.creator !in s.connected
    && Settleable(s.chain, s.signers, sale.order, BaseTotal(sale.contents.cents), Shares(sale))
  }

  // ----------------------------------------------- an order that waits for a wallet

  function Opened(s: State, sale: Sale, status: OrderStatus, ref: Option<PaymentRef>): State {
    s.(products := map[sale.product := sale.contents],
       orders := map[sale.order := Order(sale.product, sale.contents.cents, status, None, ref)])
  }

  /** The product is listed and the order placed. */
  lemma OpenOrder(s: State, genesis: Ledger.Accounts, sale: Sale) returns (actions: seq<Action>)
    requires Sellable(s, genesis, sale)
    ensures SerialRun(s, actions) == Opened(s, sale, PaymentPending, None)
  {
    actions := [PutProduct(sale.product, sale.contents)];
    var listed := s.(products := map[sale.product := sale.contents]);
    assert s.products[sale.product := sale.contents] == map[sale.product := sale.contents];
    Then(s, [], s, actions[0]);
    assert [] + actions == actions;
    Then(s, actions, listed, Checkout(sale.order, sale.product, sale.contents.cents));
    actions := actions + [Checkout(sale.order, sale.product, sale.contents.cents)];
    assert listed.orders == map[];
    assert Step(listed, actions[1]).orders == Opened(s, sale, PaymentPending, None).orders;
  }

  /** One handler runs, and it is here. */
  function Solo(t: State, h: nat, pc: Pc): State {
    t.(acts := map[h := pc])
  }

  /** The only handler executes its statement and goes on. */
  lemma SoloStep(t: State, h: nat, pc: Pc, answer: Answer, effect: Effect, next: Pc)
    requires Truthful(Solo(t, h, pc), pc, answer)
    requires Decide(Solo(t, h, pc), h, pc, answer) == Move(effect, Some(next))
    ensures Step(Solo(t, h, pc), Act(h, answer)) == Solo(Perform(t, effect), h, next)
  {
    ActIsStep(Solo(t, h, pc), h, answer);
    SoloPerform(t, h, pc, effect);
    SoloContinue(Perform(t, effect), h, pc, next);
  }

  lemma SoloContinue(t: State, h: nat, pc: Pc, next: Pc)
    ensures Continue(Solo(t, h, pc), h, Some(next)) == Solo(t, h, next)
  {
    assert map[h := pc][h := next] == map[h := next];
  }

  lemma ActIsStep(t: State, h: nat, answer: Answer)
    ensures Step(t, Act(h, answer)) == ActStep(t, h, answer)
  {
  }

  /** The only handler executes its last statement. */
  lemma SoloEnd(t: State, h: nat, pc: Pc, answer: Answer, effect: Effect)
    requires Truthful(Solo(t, h, pc), pc, answer)
    requires Decide(Solo(t, h, pc), h, pc, answer) == Move(effect, None)
    ensures Step(Solo(t, h, pc), Act(h, answer)) == Perform(t, effect).(acts := map[])
  {
    ActIsStep(Solo(t, h, pc), h, answer);
    SoloPerform(t, h, pc, effect);
    assert map[h := pc] - {h} == map[];
  }

  lemma SoloPerform(t: State, h: nat, pc: Pc, effect: Effect)
    ensures Perform(Solo(t, h, pc), effect) == Solo(Perform(t, effect), h, pc)
  {
  }

  /** The run goes on with the only handler's next statement. */
  lemma GoOn(s: State, actions: seq<Action>, t: State, h: nat, pc: Pc, answer: Answer, effect: Effect, next: Pc)
    returns (more: seq<Action>)
    requires SerialRun(s, actions) == Solo(t, h, pc) && !answer.Rows?
    requires Truthful(Solo(t, h, pc), pc, answer)
    requires Decide(Solo(t, h, pc), h, pc, answer) == Move(effect, Some(next))
    ensures more == actions + [Act(h, answer)]
    ensures SerialRun(s, more) == Solo(Perform(t, effect), h, next)
  {
    more := actions + [Act(h, answer)];
    Then(s, actions, Solo(t, h, pc), Act(h, answer));
    SoloStep(t, h, pc, answer, effect, next);
  }

  lemma Finish(s: State, actions: seq<Action>, t: State, h: nat, pc: Pc, answer: Answer, effect: Effect)
    returns (more: seq<Action>)
    requires SerialRun(s, actions) == Solo(t, h, pc) && !answer.Rows?
    requires Truthful(Solo(t, h, pc), pc, answer)
    requires Decide(Solo(t, h, pc), h, pc, answer) == Move(effect, None)
    ensures more == actions + [Act(h, answer)]
    ensures SerialRun(s, more) == Perform(t, effect).(acts := map[])
  {
    more := actions + [Act(h, answer)];
    Then(s, actions, Solo(t, h, pc), Act(h, answer));
    SoloEnd(t, h, pc, answer, effect);
  }

  /** A handler starts while nothing runs. */
  lemma Begin(s: State, actions: seq<Action>, t: State, action: Action, u: State, pc: Pc) returns (more: seq<Action>)
    requires SerialRun(s, actions) == t && t.acts == map[] && u.acts == map[] && Admits(t, action)
    requires Step(t, action) == Start(u, pc)
    ensures more == actions + [action]
    ensures SerialRun(s, more) == Solo(u.(next := u.next + 1), u.next, pc)
  {
    more := actions + [action];
    Then(s, actions, t, action);
    assert map[][u.next := pc] == map[u.next := pc];
  }

  /** The buyer pays while the creator has no wallet. */
  lemma PayDeferred(s: State, actions: seq<Action>, sale: Sale, t: State) returns (more: seq<Action>)
    requires SerialRun(s, actions) == t && t == Opened(s, sale, PaymentPending, None)
    requires s.acts == map[] && sale.contents.creator !in s.connected
    ensures SerialRun(s, more) == Opened(s, sale, WaitingWallet, Some(sale.ref)).(next := s.next + 1)
  {
    var o, ref, h := sale.order, sale.ref, s.next;
    var order, u := t.orders[o], t.(next := h + 1);
    more := Begin(s, actions, t, Webhook(o, ref), t, Paying(o, ref, FindRef));
    more := GoOn(s, more, u, h, Paying(o, ref, FindRef), Good, Nothing, Paying(o, ref, LoadOrder));
    more := GoOn(s, more, u, h, Paying(o, ref, LoadOrder), Good, Nothing, Paying(o, ref, FindWallet(order)));
    more := Defer(s, more, sale, u, h, order);
  }

  lemma Defer(s: State, actions: seq<Action>, sale: Sale, u: State, h: nat, order: Order) returns (more: seq<Action>)
    requires SerialRun(s, actions) == Solo(u, h, Paying(sale.order, sale.ref, FindWallet(order)))
    requires u == Opened(s, sale, PaymentPending, None).(next := h + 1) && order == u.orders[sale.order]
    requires s.acts == map[] && sale.contents.creator !in s.connected
    ensures SerialRun(s, more) == Opened(s, sale, WaitingWallet, Some(sale.ref)).(next := h + 1)
  {
    var o, ref := sale.order, sale.ref;
    var claim := Paying(o, ref, ClaimRef(WaitingWallet, order.cents));
    more := GoOn(s, actions, u, h, Paying(o, ref, FindWallet(order)), Good, Nothing, claim);
    more := Finish(s, more, u, h, claim, Good, Effect.Claim(o, WaitingWallet, ref));
    var claimed := order.(status := WaitingWallet, paymentRef := Some(ref));
    assert u.orders[o := claimed] == map[o := claimed];
  }

  /** The creator connects two wallets one after the other: the order is resumed twice. */
  function Queued(s: State, sale: Sale): State {
    var first := s.next + 1;
    Opened(s, sale, WaitingWallet, Some(sale.ref)).(
      connected := s.connected + {sale.contents.creator},
      payments := map[first := Job(sale), first + 1 := Job(sale)],
      next := first + 2)
  }

  lemma ResumeTwice(s: State, actions: seq<Action>, sale: Sale, t: State) returns (more: seq<Action>)
    requires SerialRun(s, actions) == t && s.payments == map[]
    requires t == Opened(s, sale, WaitingWallet, Some(sale.ref)).(next := s.next + 1)
    ensures SerialRun(s, more) == Queued(s, sale)
  {
    var connected := t.(connected := t.connected + {sale.contents.creator});
    Then(s, actions, t, Connect(sale.contents.creator));
    more := actions + [Connect(sale.contents.creator)];
    var once := connected.(payments := connected.payments[connected.next := Job(sale)], next := connected.next + 1);
    Then(s, more, connected, Resume(sale.order));
    more := more + [Resume(sale.order)];
    assert Step(connected, Resume(sale.order)) == once;
    Then(s, more, once, Resume(sale.order));
    more := more + [Resume(sale.order)];
    var twice := once.(payments := once.payments[once.next := Job(sale)], next := once.next + 1);
    assert Step(once, Resume(sale.order)) == twice;
    assert twice.payments == Queued(s, sale).payments;
  }

  // ---------------------------------------------------------------- a settlement begins

  /** The handler took the first event, and the order is SETTLEMENT_PENDING. */
  function Begun(s: State, sale: Sale): State {
    var first := s.next + 1;
    Opened(s, sale, SettlementPending, Some(sale.ref)).(
      connected := s.connected + {sale.contents.creator},
      payments := map[first + 1 := Job(sale)],
      next := first + 3)
  }

  lemma TakeFirst(s: State, actions: seq<Action>, sale: Sale) returns (more: seq<Action>)
    requires SerialRun(s, actions) == Queued(s, sale) && s.acts == map[]
    ensures SerialRun(s, more) == Solo(Begun(s, sale), s.next + 3, Settling(Job(sale), LoadShares(sale.product, None)))
  {
    var t, first, h, job := Queued(s, sale), s.next + 1, s.next + 3, Job(sale);
    var u := t.(payments := t.payments - {first});
    assert u.payments == map[first + 1 := job];
    more := Begin(s, actions, t, Dispatch(first), u, Settling(job, ReadOrder));
    more := MarkFirst(s, more, sale, u.(next := h + 1), h);
  }

  lemma MarkFirst(s: State, actions: seq<Action>, sale: Sale, v: State, h: nat) returns (more: seq<Action>)
    requires SerialRun(s, actions) == Solo(v, h, Settling(Job(sale), ReadOrder)) && h == s.next + 3
    requires v == Queued(s, sale).(payments := map[s.next + 2 := Job(sale)], next := h + 1)
    ensures SerialRun(s, more) == Solo(Begun(s, sale), h, Settling(Job(sale), LoadShares(sale.product, None)))
  {
    var job, mark := Job(sale), MarkPending(sale.product, None);
    ReadFirst(v, sale, h);
    more := GoOn(s, actions, v, h, Settling(job, ReadOrder), Good, Nothing, Settling(job, mark));
    MarkedFirst(s, sale, v);
    var write := Write(sale.order, SettlementPending, Keep);
    more := GoOn(s, more, v, h, Settling(job, mark), Good, write, Settling(job, LoadShares(sale.product, None)));
  }

  lemma ReadFirst(v: State, sale: Sale, h: nat)
    requires StatusIs(v, sale.order, WaitingWallet)
    requires v.orders[sale.order].product == sale.product && v.orders[sale.order].txHash == None
    ensures Decide(Solo(v, h, Settling(Job(sale), ReadOrder)), h, Settling(Job(sale), ReadOrder), Good)
         == Move(Nothing, Some(Settling(Job(sale), MarkPending(sale.product, None))))
  {
    assert Transitions(WaitingWallet)[0] == SettlementPending;
  }

  lemma MarkedFirst(s: State, sale: Sale, v: State)
    requires v == Queued(s, sale).(payments := map[s.next + 2 := Job(sale)], next := s.next + 4)
    ensures Perform(v, Write(sale.order, SettlementPending, Keep)) == Begun(s, sale)
  {
    var order := v.orders[sale.order].(status := SettlementPending);
    assert v.orders[sale.order := order] == map[sale.order := order];
  }

  lemma PassChecks(s: State, actions: seq<Action>, sale: Sale, t: State, h: nat) returns (more: seq<Action>)
    requires t == Begun(s, sale) && ServiceChecks(sale.contents.collaborators)
    requires SerialRun(s, actions) == Solo(t, h, Settling(Job(sale), LoadShares(sale.product, None)))
    ensures SerialRun(s, more) == Solo(t, h, Settling(Job(sale), GetAccount(Shares(sale), 0)))
  {
    var job, list := Job(sale), Shares(sale);
    var trust, probe, float := CheckTrustlines(None, list), ProbeMarker(None, list), CheckFloat(list);
    more := GoOn(s, actions, t, h, Settling(job, LoadShares(sale.product, None)), Good, Nothing, Settling(job, trust));
    more := GoOn(s, more, t, h, Settling(job, trust), Good, Nothing, Settling(job, probe));
    more := GoOn(s, more, t, h, Settling(job, probe), Absent, Nothing, Settling(job, float));
    more := GoOn(s, more, t, h, Settling(job, float), Good, Nothing, Settling(job, GetAccount(list, 0)));
  }

  lemma PassSimulation(s: State, actions: seq<Action>, sale: Sale, t: State, h: nat) returns (more: seq<Action>)
    requires SerialRun(s, actions) == Solo(t, h, Settling(Job(sale), GetAccount(Shares(sale), 0)))
    ensures SerialRun(s, more) == Solo(t, h, Settling(Job(sale), Send(Shares(sale), 0)))
  {
    var job, list := Job(sale), Shares(sale);
    more := GoOn(s, actions, t, h, Settling(job, GetAccount(list, 0)), Good, Nothing, Settling(job, Simulate(list, 0)));
    more := GoOn(s, more, t, h, Settling(job, Simulate(list, 0)), Good, Nothing, Settling(job, Send(list, 0)));
  }

  /** From the empty shop to the first submission, with a second event for the order on the bus. */
  lemma ReachSend(s: State, genesis: Ledger.Accounts, sale: Sale) returns (actions: seq<Action>)
    requires Sellable(s, genesis, sale)
    ensures SerialRun(s, actions) == Solo(Begun(s, sale), s.next + 3, Settling(Job(sale), Send(Shares(sale), 0)))
  {
    ValidateMeaning(Shares(sale));
    ContractImpliesServiceChecks(sale.contents.collaborators);
    actions := OpenOrder(s, genesis, sale);
    actions := PayDeferred(s, actions, sale, Opened(s, sale, PaymentPending, None));
    actions := ResumeTwice(s, actions, sale, Opened(s, sale, WaitingWallet, Some(sale.ref)).(next := s.next + 1));
    actions := TakeFirst(s, actions, sale);
    actions := PassChecks(s, actions, sale, Begun(s, sale), s.next + 3);
    actions := PassSimulation(s, actions, sale, Begun(s, sale), s.next + 3);
  }

  // ------------------------------------------------------------------- the payout lands

  function SaleTerms(sale: Sale): Terms {
    Terms(sale.order, BaseTotal(sale.contents.cents), Shares(sale))
  }

  /** The only transaction of `t`, before and after it executes. */
  function Submitted(t: State, sale: Sale): State {
    t.(txs := map[t.next := Tx(SaleTerms(sale), Pending)], next := t.next + 1)
  }

  ghost predicate Landed(t: State, sale: Sale, u: State) {
    && u == t.(txs := map[t.next := Tx(SaleTerms(sale), Confirmed)], next := t.next + 1, chain := u.chain)
    && sale.order in u.chain.markers
  }

  lemma Land(s: State, genesis: Ledger.Accounts, actions: seq<Action>, sale: Sale, t: State, h: nat, pc: Pc)
    returns (more: seq<Action>, after: State)
    requires Sellable(s, genesis, sale) && t.chain == s.chain && t.signers == s.signers
    requires SerialRun(s, actions) == Solo(Submitted(t, sale), h, pc)
    ensures SerialRun(s, more) == Solo(after, h, pc) && Landed(t, sale, after)
  {
    var terms, u := SaleTerms(sale), Solo(Submitted(t, sale), h, pc);
    SettleSucceeds(t.chain, t.signers, terms.order, terms.total, terms.recipients);
    SettleEffect(t.chain, t.signers, terms.order, terms.total, terms.recipients);
    Then(s, actions, u, Include(t.next, true));
    more := actions + [Include(t.next, true)];
    assert Step(u, Include(t.next, true)) == IncludeStep(u, t.next, true);
    assert u.txs[t.next := Tx(terms, Confirmed)] == map[t.next := Tx(terms, Confirmed)];
    after := t.(txs := map[t.next := Tx(terms, Confirmed)], next := t.next + 1,
                chain := Settle(t.chain, t.signers, terms.order, terms.total, terms.recipients).1);
  }

  // ------------------------------------------------------------------- a lost answer

  /**
   * The answer to a submission is lost, the transaction executes, and the retry finds
   * the order settled: the order rests SETTLEMENT_FAILED although it has been paid.
   */
  lemma FailedThoughPaid(s: State, genesis: Ledger.Accounts, sale: Sale) returns (actions: seq<Action>)
    requires Sellable(s, genesis, sale)
    ensures var t := SerialRun(s, actions);
      && Free(t, sale.order) && StatusIs(t, sale.order, SettlementFailed)
      && sale.order in t.chain.markers && sale.order !in t.rows
  {
    var t, h, job, list := Begun(s, sale), s.next + 3, Job(sale), Shares(sale);
    actions := ReachSend(s, genesis, sale);
    actions := LoseAnswer(s, actions, sale, t, h);
    var after;
    actions, after := Land(s, genesis, actions, sale, t, h, Settling(job, GetAccount(list, 1)));
    actions := FailRetry(s, actions, sale, after, h);
  }

  lemma LoseAnswer(s: State, actions: seq<Action>, sale: Sale, t: State, h: nat) returns (more: seq<Action>)
    requires SerialRun(s, actions) == Solo(t, h, Settling(Job(sale), Send(Shares(sale), 0))) && t.txs == map[]
    ensures SerialRun(s, more) == Solo(Submitted(t, sale), h, Settling(Job(sale), GetAccount(Shares(sale), 1)))
  {
    var job, list := Job(sale), Shares(sale);
    var retry := Settling(job, GetAccount(list, 1));
    more := GoOn(s, actions, t, h, Settling(job, Send(list, 0)), Lost, Submit(SaleTerms(sale)), retry);
    assert t.txs[t.next := Tx(SaleTerms(sale), Pending)] == map[t.next := Tx(SaleTerms(sale), Pending)];
  }

  lemma FailRetry(s: State, actions: seq<Action>, sale: Sale, t: State, h: nat) returns (more: seq<Action>)
    requires SerialRun(s, actions) == Solo(t, h, Settling(Job(sale), GetAccount(Shares(sale), 1)))
    requires sale.order in t.orders
    ensures var u := SerialRun(s, more);
      u.acts == map[] && StatusIs(u, sale.order, SettlementFailed) && u.chain == t.chain && u.rows == t.rows
  {
    var job, list := Job(sale), Shares(sale);
    var simulate, fail := Settling(job, Simulate(list, 1)), Settling(job, Fail(None, true));
    more := GoOn(s, actions, t, h, Settling(job, GetAccount(list, 1)), Good, Nothing, simulate);
    more := GoOn(s, more, t, h, simulate, Bad, Nothing, fail);
    more := Finish(s, more, t, h, fail, Good, Write(sale.order, SettlementFailed, Keep));
  }

  // ---------------------------------------------------------------- a failed statement

  lemma {:induction false} SpoiledLater(s: State, first: seq<Action>, action: Action, o: OrderId)
    requires SpoilStep(SerialRun(s, first), action, o)
    ensures EverSpoiled(s, first + [action], o)
    decreases |first|
  {
    if first == [] {
      assert [] + [action] == [action];
    } else {
      assert (first + [action])[1..] == first[1..] + [action];
      SpoiledLater(SerialStep(s, first[0]), first[1..], action, o);
    }
  }

  lemma ConfirmPayout(s: State, genesis: Ledger.Accounts, actions: seq<Action>, sale: Sale, t: State, h: nat)
    returns (more: seq<Action>, after: State)
    requires Sellable(s, genesis, sale) && t.chain == s.chain && t.signers == s.signers && t.txs == map[]
    requires SerialRun(s, actions) == Solo(t, h, Settling(Job(sale), Send(Shares(sale), 0)))
    ensures var created := CreateRow(BaseTotal(sale.contents.cents), Shares(sale), OnChain(t.next), true);
      SerialRun(s, more) == Solo(after, h, Recording(sale.order, created, Handler(Job(sale)))) && Landed(t, sale, after)
  {
    var job, list, submit := Job(sale), Shares(sale), Submit(SaleTerms(sale));
    var poll := Settling(job, Poll(list, 0, t.next, 0));
    more := GoOn(s, actions, t, h, Settling(job, Send(list, 0)), Good, submit, poll);
    assert t.txs[t.next := Tx(SaleTerms(sale), Pending)] == map[t.next := Tx(SaleTerms(sale), Pending)];
    more, after := Land(s, genesis, more, sale, t, h, poll);
    var created := CreateRow(BaseTotal(sale.contents.cents), list, OnChain(t.next), true);
    more := GoOn(s, more, after, h, poll, Good, Nothing, Recording(sale.order, created, Handler(job)));
  }

  lemma RecordPayout(s: State, actions: seq<Action>, sale: Sale, t: State, h: nat, hash: Hash)
    returns (more: seq<Action>)
    requires var create := CreateRow(BaseTotal(sale.contents.cents), Shares(sale), hash, true);
      SerialRun(s, actions) == Solo(t, h, Recording(sale.order, create, Handler(Job(sale))))
    requires sale.order in t.orders && t.rows == map[]
    ensures var u := SerialRun(s, more);
      && u.acts == map[] && StatusIs(u, sale.order, Settled)
      && u.chain == t.chain && u.payments == t.payments && u.next == t.next
  {
    var o, caller := sale.order, Handler(Job(sale));
    var total, list := BaseTotal(sale.contents.cents), Shares(sale);
    var row := NewRow(total, list, hash, true, h);
    var create := Recording(o, CreateRow(total, list, hash, true), caller);
    var mark := Recording(o, MarkSettled(hash), caller);
    more := GoOn(s, actions, t, h, create, Good, Insert(o, row), mark);
    var u := Perform(t, Insert(o, row));
    more := GoOn(s, more, u, h, mark, Good, Write(o, Settled, Put(hash)), Recording(o, Announce, caller));
    var v := Perform(u, Write(o, Settled, Put(hash)));
    more := Finish(s, more, v, h, Recording(o, Announce, caller), Good, EmitCompleted(o));
  }

  lemma FailSecond(s: State, actions: seq<Action>, sale: Sale, t: State, event: nat) returns (more: seq<Action>)
    requires SerialRun(s, actions) == t && t.acts == map[] && StatusIs(t, sale.order, Settled)
    requires event in t.payments && t.payments[event] == Job(sale)
    ensures var u := SerialRun(s, more);
      && u.acts == map[] && StatusIs(u, sale.order, SettlementFailed) && u.chain == t.chain
      && EverSpoiled(s, more, sale.order)
  {
    var u, h, job := t.(payments := t.payments - {event}), t.next, Job(sale);
    more := Begin(s, actions, t, Dispatch(event), u, Settling(job, ReadOrder));
    var v, fail := u.(next := h + 1), Settling(job, Fail(None, true));
    more := GoOn(s, more, v, h, Settling(job, ReadOrder), Throw, Nothing, fail);
    GivingUpSpoils(v, h, job);
    SpoiledLater(s, more, Act(h, Good), sale.order);
    more := OverwriteSettled(s, more, sale, v, h);
  }

  lemma GivingUpSpoils(v: State, h: nat, job: Payment)
    requires StatusIs(v, job.order, Settled)
    ensures SpoilStep(Solo(v, h, Settling(job, Fail(None, true))), Act(h, Good), job.order)
  {
  }

  lemma OverwriteSettled(s: State, actions: seq<Action>, sale: Sale, v: State, h: nat) returns (more: seq<Action>)
    requires SerialRun(s, actions) == Solo(v, h, Settling(Job(sale), Fail(None, true))) && sale.order in v.orders
    ensures more == actions + [Act(h, Good)]
    ensures var u := SerialRun(s, more);
      u.acts == map[] && StatusIs(u, sale.order, SettlementFailed) && u.chain == v.chain
  {
    var write := Write(sale.order, SettlementFailed, Keep);
    more := Finish(s, actions, v, h, Settling(Job(sale), Fail(None, true)), Good, write);
  }

  lemma SettleSent(s: State, genesis: Ledger.Accounts, actions: seq<Action>, sale: Sale, t: State, h: nat)
    returns (more: seq<Action>)
    requires Sellable(s, genesis, sale) && t.chain == s.chain && t.signers == s.signers
    requires t.txs == map[] && t.rows == map[] && sale.order in t.orders
    requires SerialRun(s, actions) == Solo(t, h, Settling(Job(sale), Send(Shares(sale), 0)))
    ensures var u := SerialRun(s, more);
      u.acts == map[] && StatusIs(u, sale.order, Settled) && sale.order in u.chain.markers && u.payments == t.payments
  {
    var after;
    more, after := ConfirmPayout(s, genesis, actions, sale, t, h);
    more := RecordPayout(s, more, sale, after, h, OnChain(t.next));
  }

  lemma ReachSettled(s: State, genesis: Ledger.Accounts, sale: Sale) returns (actions: seq<Action>)
    requires Sellable(s, genesis, sale)
    ensures var t := SerialRun(s, actions);
      && t.acts == map[] && StatusIs(t, sale.order, Settled) && sale.order in t.chain.markers
      && s.next + 2 in t.payments && t.payments[s.next + 2] == Job(sale)
  {
    actions := ReachSend(s, genesis, sale);
    actions := SettleSent(s, genesis, actions, sale, Begun(s, sale), s.next + 3);
  }

  /**
   * The order was resumed twice and the first event settled it. The read that begins the
   * handler of the second event fails, and the error path overwrites SETTLED: the run is
   * serial, the order is paid, and its status history breaks the transition table.
   */
  lemma ErrorOverwritesSettled(s: State, genesis: Ledger.Accounts, sale: Sale) returns (actions: seq<Action>)
    requires Sellable(s, genesis, sale)
    ensures var t := SerialRun(s, actions);
      && Free(t, sale.order) && StatusIs(t, sale.order, SettlementFailed) && sale.order in t.chain.markers
      && !Legal(StatusHistory(s, actions, sale.order))
  {
    actions := ReachSettled(s, genesis, sale);
    actions := FailSecond(s, actions, sale, SerialRun(s, actions), s.next + 2);
    StatusWritesAreLegal(s, actions, genesis, sale.order);
  }

  /** There is such a deployment: a platform with funds and one collaborator with a trustline. */
  lemma SomeDeployment() returns (s: State, genesis: Ledger.Accounts, sale: Sale)
    ensures Sellable(s, genesis, sale)
  {
    var platform, creator, usdc := Address("platform"), Address("creator"), Address("usdc");
    genesis := map[platform := Ledger.Account(1_000_000, 1_000_000), creator := Ledger.Account(0, 1_000_000)];
    var chain := Chain(Some(Config(platform, usdc)), {}, genesis, []);
    s := State(chain, {platform}, map[], map[], map[], map[], {}, map[], map[], [], {}, [], 0);
    var contents := Product(CreatorId("creator"), 10, [Collaborator(creator, 10_000)], true);
    sale := Sale(OrderId("order"), ProductId("product"), contents, PaymentRef("ref"));
    OneShare(chain, {platform}, sale, creator, platform);
  }

  lemma OneShare(c: Chain, signers: set<Address>, sale: Sale, creator: Address, platform: Address)
    requires sale.contents.collaborators == [Collaborator(creator, 10_000)] && sale.contents.cents == 10
    requires c.config.Some? && c.config.value.platform == platform && platform in signers && creator != platform
    requires c.markers == {} && platform in c.ledger && c.ledger[platform].balance == 1_000_000
    requires creator in c.ledger && c.ledger[creator] == Ledger.Account(0, 1_000_000)
    ensures Settleable(c, signers, sale.order, BaseTotal(sale.contents.cents), Shares(sale))
  {
    var list, total := Shares(sale), BaseTotal(10);
    assert list == [Recipient(creator, 10_000)];
    assert SharesOf(list) == [10_000];
    assert Sum([10_000]) == 10_000 + Sum([]);
    assert Amounts(Pool(total), [10_000]) == [950_000];
    assert list[1..] == [];
  }
}
