/**
 * Runs that announce one payment reference twice: a serial one in which another payment
 * replaced the reference, and one in which two webhooks for one order interleave.
 */
module Duplicates {
  import opened Types
  import opened OrderStates
  import opened Protocol
  import opened Guarantees
  import opened Serial
  import opened References
  import opened Incidents
  import Ledger

  /** The order of a sale whose creator has a wallet, and nothing under way. */
  ghost predicate Payable(t: State, sale: Sale) {
    && t.acts == map[] && sale.product in t.products && t.products[sale.product].creator in t.connected
    && sale.order in t.orders
    && t.orders[sale.order].product == sale.product && t.orders[sale.order].cents == sale.contents.cents
  }

  predicate Receivable(status: OrderStatus) {
    status == PaymentPending || status == SettlementPending
  }

  // ------------------------------------------------------------------ one serial payment

  /** The order paid under a reference, its event on the bus. */
  function Received(t: State, sale: Sale, ref: PaymentRef): State
    requires sale.order in t.orders
  {
    var paid := t.orders[sale.order].(status := PaymentReceived, paymentRef := Some(ref));
    t.(orders := t.orders[sale.order := paid], payments := t.payments[t.next + 1 := Job(sale)], next := t.next + 2)
  }

  lemma {:induction false} AnnouncementsAppend(s: State, first: seq<Action>, second: seq<Action>, ref: PaymentRef)
    ensures Announcements(s, first + second, ref)
         == Announcements(s, first, ref) + Announcements(SerialRun(s, first), second, ref)
    decreases |first|
  {
    if first == [] {
      assert first + second == second;
    } else {
      assert (first + second)[1..] == first[1..] + second;
      AnnouncementsAppend(SerialStep(s, first[0]), first[1..], second, ref);
    }
  }

  lemma Longer(s: State, actions: seq<Action>, more: seq<Action>, ref: PaymentRef)
    requires actions <= more
    ensures Announcements(s, more, ref) >= Announcements(s, actions, ref)
  {
    assert more == actions + more[|actions|..];
    AnnouncementsAppend(s, actions, more[|actions|..], ref);
  }

  lemma Pay(s: State, actions: seq<Action>, t: State, sale: Sale, ref: PaymentRef) returns (more: seq<Action>)
    requires SerialRun(s, actions) == t && Payable(t, sale) && !RefTaken(t, ref)
    requires Receivable(t.orders[sale.order].status)
    ensures SerialRun(s, more) == Received(t, sale, ref) && actions <= more
    ensures Announcements(s, more, ref) > Announcements(s, actions, ref)
  {
    var o, h, order := sale.order, t.next, t.orders[sale.order];
    var u := t.(next := h + 1);
    more := Begin(s, actions, t, Webhook(o, ref), t, Paying(o, ref, FindRef));
    more := GoOn(s, more, u, h, Paying(o, ref, FindRef), Good, Nothing, Paying(o, ref, LoadOrder));
    more := GoOn(s, more, u, h, Paying(o, ref, LoadOrder), Good, Nothing, Paying(o, ref, FindWallet(order)));
    Longer(s, actions, more, ref);
    more := Claim(s, more, t, sale, ref);
  }

  lemma Claim(s: State, actions: seq<Action>, t: State, sale: Sale, ref: PaymentRef) returns (more: seq<Action>)
    requires Payable(t, sale) && !RefTaken(t, ref) && Receivable(t.orders[sale.order].status)
    requires SerialRun(s, actions)
          == Solo(t.(next := t.next + 1), t.next, Paying(sale.order, ref, FindWallet(t.orders[sale.order])))
    ensures SerialRun(s, more) == Received(t, sale, ref) && actions <= more
    ensures Announcements(s, more, ref) > Announcements(s, actions, ref)
  {
    var o, h, order := sale.order, t.next, t.orders[sale.order];
    var u := t.(next := h + 1);
    var claim, notify := Paying(o, ref, ClaimRef(PaymentReceived, order.cents)), Paying(o, ref, Notify(order.cents));
    WalletFound(u, sale, ref, h);
    more := GoOn(s, actions, u, h, Paying(o, ref, FindWallet(order)), Good, Nothing, claim);
    more := GoOn(s, more, u, h, claim, Good, Effect.Claim(o, PaymentReceived, ref), notify);
    Longer(s, actions, more, ref);
    var claimed := Perform(u, Effect.Claim(o, PaymentReceived, ref));
    more := Announce(s, more, claimed, sale, h, ref);
    ClaimedThenReceived(t, sale, ref);
  }

  lemma ClaimedThenReceived(t: State, sale: Sale, ref: PaymentRef)
    requires sale.order in t.orders && t.acts == map[]
    ensures var u := Perform(t.(next := t.next + 1), Effect.Claim(sale.order, PaymentReceived, ref));
      u.(payments := u.payments[u.next := Job(sale)], next := u.next + 1, acts := map[]) == Received(t, sale, ref)
  {
  }

  lemma WalletFound(u: State, sale: Sale, ref: PaymentRef, h: nat)
    requires Payable(u, sale) && !RefTaken(u, ref) && Receivable(u.orders[sale.order].status)
    ensures var find := Paying(sale.order, ref, FindWallet(u.orders[sale.order]));
      Decide(Solo(u, h, find), h, find, Good)
      == Move(Nothing, Some(Paying(sale.order, ref, ClaimRef(PaymentReceived, sale.contents.cents))))
    ensures !RefTakenByOther(u, ref, sale.order)
  {
    assert Transitions(PaymentPending)[0] == PaymentReceived && Transitions(SettlementPending)[3] == PaymentReceived;
  }

  lemma Announce(s: State, actions: seq<Action>, u: State, sale: Sale, h: nat, ref: PaymentRef)
    returns (more: seq<Action>)
    requires SerialRun(s, actions) == Solo(u, h, Paying(sale.order, ref, Notify(sale.contents.cents)))
    ensures actions <= more
    ensures SerialRun(s, more) == u.(payments := u.payments[u.next := Job(sale)], next := u.next + 1, acts := map[])
    ensures Announcements(s, more, ref) > Announcements(s, actions, ref)
  {
    more := Finish(s, actions, u, h, Paying(sale.order, ref, Notify(sale.contents.cents)), Good, Emit(Job(sale)));
    AnnouncementsAppend(s, actions, [Act(h, Good)], ref);
    assert Announces(SerialRun(s, actions), Act(h, Good), ref);
  }

  // ------------------------------------------------------ the reference is replaced

  /** The settlement handler marked the order SETTLEMENT_PENDING; then the database failed it. */
  function Interrupted(t: State, sale: Sale, event: nat): State
    requires sale.order in t.orders
  {
    var pending := t.orders[sale.order].(status := SettlementPending);
    t.(orders := t.orders[sale.order := pending], payments := t.payments - {event}, next := t.next + 1)
  }

  lemma Interrupt(s: State, actions: seq<Action>, t: State, sale: Sale, event: nat) returns (more: seq<Action>)
    requires SerialRun(s, actions) == t && Payable(t, sale) && t.orders[sale.order].status == PaymentReceived
    requires event in t.payments && t.payments[event] == Job(sale)
    ensures SerialRun(s, more) == Interrupted(t, sale, event) && actions <= more
  {
    var u, h, job := t.(payments := t.payments - {event}), t.next, Job(sale);
    more := Begin(s, actions, t, Dispatch(event), u, Settling(job, ReadOrder));
    more := MarkThenStop(s, more, t, u.(next := h + 1), sale, h);
  }

  lemma MarkThenStop(s: State, actions: seq<Action>, t: State, v: State, sale: Sale, h: nat) returns (more: seq<Action>)
    requires SerialRun(s, actions) == Solo(v, h, Settling(Job(sale), ReadOrder))
    requires Payable(t, sale) && t.orders[sale.order].status == PaymentReceived
    requires v == t.(payments := v.payments, next := t.next + 1)
    ensures var pending := t.orders[sale.order].(status := SettlementPending);
      SerialRun(s, more) == v.(orders := t.orders[sale.order := pending])
    ensures actions <= more
  {
    var o, job, order := sale.order, Job(sale), t.orders[sale.order];
    var mark := Settling(job, MarkPending(order.product, order.txHash));
    var load := Settling(job, LoadShares(order.product, order.txHash));
    assert Transitions(PaymentReceived)[0] == SettlementPending;
    more := GoOn(s, actions, v, h, Settling(job, ReadOrder), Good, Nothing, mark);
    more := GoOn(s, more, v, h, mark, Good, Write(o, SettlementPending, Keep), load);
    var marked := Perform(v, Write(o, SettlementPending, Keep));
    more := GoOn(s, more, marked, h, load, Throw, Nothing, Settling(job, Fail(None, true)));
    more := Finish(s, more, marked, h, Settling(job, Fail(None, true)), Throw, Nothing);
  }

  lemma RunThen(s: State, actions: seq<Action>, t: State, action: Action)
    requires Run(s, actions) == t
    ensures Run(s, actions + [action]) == Step(t, action)
  {
    RunAppend(s, actions, [action]);
    assert Run(t, [action]) == Step(t, action);
  }

  lemma OpenForSale(s: State, genesis: Ledger.Accounts, sale: Sale) returns (actions: seq<Action>, t: State)
    requires Init(s, genesis) && sale.contents.active
    ensures SerialRun(s, actions) == Run(s, actions) == t && Payable(t, sale) && t.payments == map[]
    ensures t.orders == map[sale.order := Order(sale.product, sale.contents.cents, PaymentPending, None, None)]
  {
    var listed := s.(products := s.products[sale.product := sale.contents]);
    var connected := listed.(connected := listed.connected + {sale.contents.creator});
    actions := [PutProduct(sale.product, sale.contents)];
    Then(s, [], s, actions[0]);
    RunThen(s, [], s, actions[0]);
    assert [] + actions == actions;
    Then(s, actions, listed, Connect(sale.contents.creator));
    RunThen(s, actions, listed, Connect(sale.contents.creator));
    actions := actions + [Connect(sale.contents.creator)];
    Then(s, actions, connected, Checkout(sale.order, sale.product, sale.contents.cents));
    RunThen(s, actions, connected, Checkout(sale.order, sale.product, sale.contents.cents));
    actions := actions + [Checkout(sale.order, sale.product, sale.contents.cents)];
    t := Step(connected, Checkout(sale.order, sale.product, sale.contents.cents));
    var order := Order(sale.product, sale.contents.cents, PaymentPending, None, None);
    assert t == connected.(orders := connected.orders[sale.order := order]);
  }

  lemma OnlyHolder(t: State, o: OrderId, held: Option<PaymentRef>, ref: PaymentRef)
    requires t.orders.Keys == {o} && t.orders[o].paymentRef == held && held != Some(ref)
    ensures !RefTaken(t, ref)
  {
  }

  /**
   * A serial run that announces one reference twice: between the two, another payment
   * replaced the reference on the order, which a failing database had left
   * SETTLEMENT_PENDING.
   */
  lemma ReplacedThenRepeated(s: State, genesis: Ledger.Accounts, sale: Sale, other: PaymentRef)
    returns (actions: seq<Action>)
    requires Init(s, genesis) && sale.contents.active && other != sale.ref
    ensures Announcements(s, actions, sale.ref) >= 2
  {
    var t;
    actions, t := OpenForSale(s, genesis, sale);
    OnlyHolder(t, sale.order, None, sale.ref);
    actions := Pay(s, actions, t, sale, sale.ref);
    actions, t := PayAgain(s, actions, Received(t, sale, sale.ref), sale, sale.ref, other, t.next + 1);
    actions, t := PayAgain(s, actions, t, sale, other, sale.ref, t.next - 1);
  }

  lemma PayAgain(s: State, actions: seq<Action>, t: State, sale: Sale, held: PaymentRef, ref: PaymentRef, event: nat)
    returns (more: seq<Action>, after: State)
    requires SerialRun(s, actions) == t && Payable(t, sale) && t.orders.Keys == {sale.order}
    requires t.orders[sale.order].status == PaymentReceived && t.orders[sale.order].paymentRef == Some(held)
    requires held != ref
    requires event in t.payments && t.payments[event] == Job(sale)
    ensures SerialRun(s, more) == after && Payable(after, sale) && after.orders.Keys == {sale.order}
    ensures after.orders[sale.order].status == PaymentReceived && after.orders[sale.order].paymentRef == Some(ref)
    ensures after.next > 0 && after.next - 1 in after.payments && after.payments[after.next - 1] == Job(sale)
    ensures Announcements(s, more, ref) > Announcements(s, actions, ref)
    ensures Announcements(s, more, held) >= Announcements(s, actions, held)
  {
    var pending := Interrupted(t, sale, event);
    more := Interrupt(s, actions, t, sale, event);
    Longer(s, actions, more, ref);
    OnlyHolder(pending, sale.order, Some(held), ref);
    more := Pay(s, more, pending, sale, ref);
    Longer(s, actions, more, held);
    after := Received(pending, sale, ref);
  }

  // ------------------------------------------------------------- two webhooks interleave

  /** Two handlers run, and they are here. */
  function Pair(t: State, h: nat, p: Pc, k: nat, q: Pc): State {
    t.(acts := map[h := p, k := q])
  }

  /** The run goes on with a statement of handler `h`. */
  lemma Advance(s: State, actions: seq<Action>, t: State, h: nat, pc: Pc, answer: Answer, effect: Effect,
                next: Option<Pc>)
    returns (more: seq<Action>)
    requires Run(s, actions) == t && h in t.acts && t.acts[h] == pc && Truthful(t, pc, answer)
    requires Decide(t, h, pc, answer) == Move(effect, next)
    ensures Run(s, more) == Continue(Perform(t, effect), h, next)
  {
    more := actions + [Act(h, answer)];
    RunThen(s, actions, t, Act(h, answer));
    ActIsStep(t, h, answer);
  }

  /** One of two webhook handlers reads its way to the claim. */
  lemma ReachClaim(s: State, actions: seq<Action>, t: State, sale: Sale, h: nat, k: nat, q: Pc)
    returns (more: seq<Action>)
    requires Payable(t, sale) && !RefTaken(t, sale.ref) && t.orders[sale.order].status == PaymentPending && h != k
    requires Run(s, actions) == Pair(t, h, Paying(sale.order, sale.ref, FindRef), k, q)
    ensures Run(s, more)
         == Pair(t, h, Paying(sale.order, sale.ref, ClaimRef(PaymentReceived, sale.contents.cents)), k, q)
  {
    var o, ref := sale.order, sale.ref;
    var find, load := Paying(o, ref, FindRef), Paying(o, ref, LoadOrder);
    var wallet := Paying(o, ref, FindWallet(t.orders[o]));
    var claim := Paying(o, ref, ClaimRef(PaymentReceived, sale.contents.cents));
    more := Advance(s, actions, Pair(t, h, find, k, q), h, find, Good, Nothing, Some(load));
    PairMoves(t, h, find, k, q, load);
    more := Advance(s, more, Pair(t, h, load, k, q), h, load, Good, Nothing, Some(wallet));
    PairMoves(t, h, load, k, q, wallet);
    assert Transitions(PaymentPending)[0] == PaymentReceived;
    more := Advance(s, more, Pair(t, h, wallet, k, q), h, wallet, Good, Nothing, Some(claim));
    PairMoves(t, h, wallet, k, q, claim);
  }

  lemma PairMoves(t: State, h: nat, p: Pc, k: nat, q: Pc, next: Pc)
    requires h != k
    ensures Continue(Pair(t, h, p, k, q), h, Some(next)) == Pair(t, h, next, k, q)
    ensures Pair(t, h, p, k, q) == Pair(t, k, q, h, p)
  {
    assert map[h := p, k := q][h := next] == map[h := next, k := q];
    assert map[h := p, k := q] == map[k := q, h := p];
  }

  function Paid(t: State, sale: Sale): State
    requires sale.order in t.orders
  {
    t.(orders := t.orders[sale.order := t.orders[sale.order].(status := PaymentReceived, paymentRef := Some(sale.ref))])
  }

  /** The handler has claimed and announced the payment, and ended. */
  function Announced(t: State, sale: Sale, h: nat): State
    requires sale.order in t.orders
  {
    Paid(t, sale).(acts := t.acts - {h}, payments := t.payments[t.next := Job(sale)], next := t.next + 1)
  }

  /** A handler claims the reference, which only its own order may hold, and announces the payment. */
  lemma ClaimAndAnnounce(s: State, actions: seq<Action>, t: State, sale: Sale, h: nat) returns (more: seq<Action>)
    requires Run(s, actions) == t && sale.order in t.orders && h in t.acts && h < t.next
    requires t.acts[h] == Paying(sale.order, sale.ref, ClaimRef(PaymentReceived, sale.contents.cents))
    requires !RefTakenByOther(t, sale.ref, sale.order)
    ensures Run(s, more) == Announced(t, sale, h)
  {
    var o, ref, cents := sale.order, sale.ref, sale.contents.cents;
    var claim, notify := Paying(o, ref, ClaimRef(PaymentReceived, cents)), Paying(o, ref, Notify(cents));
    more := Advance(s, actions, t, h, claim, Good, Effect.Claim(o, PaymentReceived, ref), Some(notify));
    var u := Continue(Paid(t, sale), h, Some(notify));
    more := Advance(s, more, u, h, notify, Good, Emit(Job(sale)), None);
    assert t.acts[h := notify] - {h} == t.acts - {h};
  }

  /**
   * Two webhooks with the same order and reference pass every check, the unique index
   * included, and both announce the payment.
   */
  lemma InterleavedTwice(s: State, genesis: Ledger.Accounts, sale: Sale)
    returns (actions: seq<Action>, first: nat, second: nat)
    requires Init(s, genesis) && sale.contents.active
    ensures var t := Run(s, actions);
      && first != second && first in t.payments && second in t.payments
      && t.payments[first] == t.payments[second] == Job(sale)
  {
    var t;
    actions, t := OpenForSale(s, genesis, sale);
    OnlyHolder(t, sale.order, None, sale.ref);
    var h, k := t.next, t.next + 1;
    actions := BothReachClaim(s, actions, t, sale);
    var o, ref := sale.order, sale.ref;
    var claim := Paying(o, ref, ClaimRef(PaymentReceived, sale.contents.cents));
    var u := Pair(t.(next := k + 1), h, claim, k, claim);
    actions := BothAnnounce(s, actions, u, sale, h, k);
    first, second := k + 1, k + 2;
  }

  lemma BothAnnounce(s: State, actions: seq<Action>, t: State, sale: Sale, h: nat, k: nat) returns (more: seq<Action>)
    requires Run(s, actions) == t && sale.order in t.orders && h < k < t.next
    requires h in t.acts && t.acts[h] == Paying(sale.order, sale.ref, ClaimRef(PaymentReceived, sale.contents.cents))
    requires k in t.acts && t.acts[k] == t.acts[h]
    requires !RefTakenByOther(t, sale.ref, sale.order)
    ensures var u := Run(s, more);
      t.next in u.payments && t.next + 1 in u.payments && u.payments[t.next] == u.payments[t.next + 1] == Job(sale)
  {
    more := ClaimAndAnnounce(s, actions, t, sale, h);
    StillFree(t, sale, Announced(t, sale, h));
    more := ClaimAndAnnounce(s, more, Announced(t, sale, h), sale, k);
    TwiceOnTheBus(t, sale, h, k);
  }

  lemma TwiceOnTheBus(t: State, sale: Sale, h: nat, k: nat)
    requires sale.order in t.orders
    ensures var u := Announced(Announced(t, sale, h), sale, k);
      t.next in u.payments && t.next + 1 in u.payments && u.payments[t.next] == u.payments[t.next + 1] == Job(sale)
  {
  }

  /** The order's own claim leaves the reference free for a second claim by the same order. */
  lemma StillFree(t: State, sale: Sale, u: State)
    requires sale.order in t.orders && !RefTakenByOther(t, sale.ref, sale.order) && u.orders == Paid(t, sale).orders
    ensures sale.order in u.orders && !RefTakenByOther(u, sale.ref, sale.order)
  {
  }

  lemma BothReachClaim(s: State, actions: seq<Action>, t: State, sale: Sale) returns (more: seq<Action>)
    requires Run(s, actions) == t && Payable(t, sale) && !RefTaken(t, sale.ref)
    requires t.orders[sale.order].status == PaymentPending
    ensures var claim := Paying(sale.order, sale.ref, ClaimRef(PaymentReceived, sale.contents.cents));
      Run(s, more) == Pair(t.(next := t.next + 2), t.next, claim, t.next + 1, claim)
  {
    var o, ref, h, k := sale.order, sale.ref, t.next, t.next + 1;
    var find, claim := Paying(o, ref, FindRef), Paying(o, ref, ClaimRef(PaymentReceived, sale.contents.cents));
    var u := t.(next := k + 1);
    more := BothStart(s, actions, t, sale);
    more := ReachClaim(s, more, u, sale, h, k, find);
    PairMoves(u, h, claim, k, find, claim);
    more := ReachClaim(s, more, u, sale, k, h, claim);
    PairMoves(u, k, claim, h, claim, claim);
  }

  lemma BothStart(s: State, actions: seq<Action>, t: State, sale: Sale) returns (more: seq<Action>)
    requires Run(s, actions) == t && t.acts == map[]
    ensures var find := Paying(sale.order, sale.ref, FindRef);
      Run(s, more) == Pair(t.(next := t.next + 2), t.next, find, t.next + 1, find)
  {
    var webhook, find := Webhook(sale.order, sale.ref), Paying(sale.order, sale.ref, FindRef);
    RunThen(s, actions, t, webhook);
    RunThen(s, actions + [webhook], Start(t, find), webhook);
    more := actions + [webhook] + [webhook];
    assert map[][t.next := find][t.next + 1 := find] == map[t.next := find, t.next + 1 := find];
  }
}
