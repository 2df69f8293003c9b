/**
 * Serial runs, and transaction hashes: an order that can still be settled has none. So
 * nothing that recovery does for orders with a hash ever runs, and only a payment can
 * take an order back from SETTLEMENT_PENDING.
 */
module Hashes {
  import opened Types
  import opened OrderStates
  import opened Protocol
  import opened Safety
  import opened Serial
  import Ledger

  predicate Over(status: OrderStatus) {
    status == Settled || status == SettlementFailed
  }

  /** Only orders whose settlement is over have a hash. */
  predicate Hashless(s: State, o: OrderId) {
    o in s.orders && !Over(s.orders[o].status) ==> s.orders[o].txHash == None
  }

  predicate UnhashedSnaps(rest: seq<Snap>) {
    forall i :: 0 <= i < |rest| ==> rest[i].txHash == None
  }

  /** The points a serial run never leaves: none of them concerns a hash found with the order. */
  predicate Plain(pc: Pc) {
    match pc
    case Settling(_, at) =>
      (match at
       case MarkPending(_, known) => known == None
       case LoadShares(_, known) => known == None
       case CheckTrustlines(known, _) => known == None
       case ProbeMarker(known, _) => known == None
       case FindRow(known, _) => known == None
       case _ => true)
    case Recording(_, _, caller) =>
      caller.Handler? || (caller.ByMarker? && caller.snap.txHash == None && UnhashedSnaps(caller.rest))
    case Recovering(at) =>
      || at.FindStuck?
      || ((at.Reemit? || at.AskMarker? || at.FailUnsettled?) && at.snap.txHash == None && UnhashedSnaps(at.rest))
    case _ => true
  }

  ghost predicate NoHashes(s: State) {
    && (forall o :: Hashless(s, o))
    && (forall h :: h in s.acts ==> Plain(s.acts[h]))
  }

  // ------------------------------------------------------------------ handlers' moves

  lemma NextPlain(rest: seq<Snap>)
    requires UnhashedSnaps(rest)
    ensures NextStuck(rest).Some? ==> Plain(NextStuck(rest).value)
  {
    if rest != [] {
      forall i | 0 <= i < |rest[1..]| ensures rest[1..][i].txHash == None {
        assert rest[1..][i] == rest[i + 1];
      }
    }
  }

  /** The effect leaves no hash with an order that can still be settled, and the handler goes on plainly. */
  ghost predicate KeepsPlain(s: State, move: Move) {
    && (forall o :: Hashless(Perform(s, move.effect), o))
    && (move.next.Some? ==> Plain(move.next.value))
  }

  lemma SettlingPlain(s: State, job: Payment, at: SettlePc, answer: Answer)
    requires (forall o :: Hashless(s, o)) && Plain(Settling(job, at)) && View(s, Settling(job, at))
    ensures KeepsPlain(s, DecideSettling(s, job, at, answer))
  {
    var move := DecideSettling(s, job, at, answer);
    forall o ensures Hashless(Perform(s, move.effect), o) {
      assert Hashless(s, o);
    }
    if at.ReadOrder? {
      assert Hashless(s, job.order);
    }
  }

  lemma RecordingPlain(s: State, h: nat, p: OrderId, at: RecordPc, caller: Caller, answer: Answer)
    requires (forall o :: Hashless(s, o)) && Plain(Recording(p, at, caller))
    ensures KeepsPlain(s, DecideRecording(s, h, p, at, caller, answer))
  {
    var move := DecideRecording(s, h, p, at, caller, answer);
    forall o ensures Hashless(Perform(s, move.effect), o) {
      assert Hashless(s, o);
    }
    if !caller.Handler? {
      NextPlain(caller.rest);
    }
  }

  lemma PayingPlain(s: State, p: OrderId, ref: PaymentRef, at: PayPc, answer: Answer)
    requires (forall o :: Hashless(s, o)) && PayOk(s, p, at) && View(s, Paying(p, ref, at))
    ensures KeepsPlain(s, DecidePaying(s, p, ref, at, answer))
  {
    var move := DecidePaying(s, p, ref, at, answer);
    forall o ensures Hashless(Perform(s, move.effect), o) {
      assert Hashless(s, o);
    }
  }

  lemma RecoveringPlain(s: State, at: RecoverPc, answer: Answer)
    requires (forall o :: Hashless(s, o)) && Plain(Recovering(at))
    ensures KeepsPlain(s, DecideRecovering(s, at, answer))
  {
    var move := DecideRecovering(s, at, answer);
    forall o ensures Hashless(Perform(s, move.effect), o) {
      assert Hashless(s, o);
    }
    if at.FindStuck? {
      if answer.Rows? {
        StuckUnhashed(s, answer.ids);
        NextPlain(Stuck(s, answer.ids));
      }
    } else {
      NextPlain(at.rest);
    }
  }

  lemma {:induction false} StuckUnhashed(s: State, ids: seq<OrderId>)
    requires forall o :: Hashless(s, o)
    ensures UnhashedSnaps(Stuck(s, ids))
  {
    if ids != [] {
      StuckUnhashed(s, ids[1..]);
      assert Hashless(s, ids[0]);
    }
  }

  lemma ActPlain(s: State, h: nat, answer: Answer)
    requires Safe(s) && Orderly(s) && NoHashes(s)
    ensures NoHashes(ActStep(s, h, answer))
  {
    if h in s.acts && Truthful(s, s.acts[h], answer) {
      var move := Decide(s, h, s.acts[h], answer);
      assert Local(s, h, s.acts[h]);
      match s.acts[h] {
        case Settling(job, at) => SettlingPlain(s, job, at, answer);
        case Recording(p, at, caller) => RecordingPlain(s, h, p, at, caller, answer);
        case Paying(p, ref, at) => PayingPlain(s, p, ref, at, answer);
        case Recovering(at) => RecoveringPlain(s, at, answer);
        case Delivering(event, at) => DeliveringPlain(s, event, at, answer);
      }
      MovePlain(s, h, move);
    }
  }

  lemma DeliveringPlain(s: State, event: nat, at: DeliverPc, answer: Answer)
    requires forall o :: Hashless(s, o)
    ensures KeepsPlain(s, DecideDelivering(s, event, at, answer))
  {
    forall o ensures Hashless(Perform(s, DecideDelivering(s, event, at, answer).effect), o) {
      assert Hashless(s, o);
    }
  }

  lemma MovePlain(s: State, h: nat, move: Move)
    requires NoHashes(s) && h in s.acts && KeepsPlain(s, move)
    ensures NoHashes(Continue(Perform(s, move.effect), h, move.next))
  {
    var t := Perform(s, move.effect);
    PerformShop(s, move.effect);
    forall o ensures Hashless(Continue(t, h, move.next), o) {
      assert Hashless(t, o);
    }
  }

  // ---------------------------------------------------------------------- other steps

  lemma StepPlain(s: State, action: Action)
    requires Safe(s) && Orderly(s) && NoHashes(s)
    ensures NoHashes(Step(s, action))
  {
    if action.Act? {
      ActPlain(s, action.actor, action.answer);
    } else {
      forall o ensures Hashless(Step(s, action), o) {
        assert Hashless(s, o);
        OtherHashes(s, action, o);
      }
      OtherActs(s, action);
    }
  }

  lemma OtherHashes(s: State, action: Action, o: OrderId)
    requires !action.Act? && Hashless(s, o)
    ensures Hashless(Step(s, action), o)
  {
    if o in s.orders {
      StatusFromHandlers(s, action, o);
    } else if action.Include? {
      assert IncludeStep(s, action.tx, action.executed).orders == s.orders;
    } else {
      NewOrderUnhashed(s, action, o);
    }
  }

  lemma NewOrderUnhashed(s: State, action: Action, o: OrderId)
    requires !action.Act? && !action.Include? && o !in s.orders
    ensures Hashless(Step(s, action), o)
  {
    match action {
      case Checkout(_, _, _) =>
      case Resume(_) =>
      case _ =>
    }
  }

  lemma OtherActs(s: State, action: Action)
    requires !action.Act? && forall h :: h in s.acts ==> Plain(s.acts[h])
    ensures forall h :: h in Step(s, action).acts ==> Plain(Step(s, action).acts[h])
  {
    if action.Include? {
      assert IncludeStep(s, action.tx, action.executed).acts == s.acts;
    } else if action.Webhook? || action.Dispatch? || action.Bootstrap? || action.Deliver? {
      StartsPlain(s, action);
    } else if !action.Crash? {
      ShopKeepsActs(s, action);
    }
  }

  lemma StartsPlain(s: State, action: Action)
    requires action.Webhook? || action.Dispatch? || action.Bootstrap? || action.Deliver?
    requires forall h :: h in s.acts ==> Plain(s.acts[h])
    ensures forall h :: h in Step(s, action).acts ==> Plain(Step(s, action).acts[h])
  {
  }

  // ------------------------------------------------------------------------- theorems

  lemma {:induction false} SerialRunPlain(s: State, actions: seq<Action>, genesis: Ledger.Accounts)
    requires SerialInvariant(s, genesis) && NoHashes(s)
    ensures NoHashes(SerialRun(s, actions))
    decreases |actions|
  {
    if actions != [] {
      SerialStepKeeps(s, actions[0], genesis);
      if Admits(s, actions[0]) {
        StepPlain(s, actions[0]);
      }
      SerialRunPlain(SerialStep(s, actions[0]), actions[1..], genesis);
    }
  }

  /** The points of recovery that deal with a transaction hash, and with starting over. */
  predicate DealsWithHash(pc: Pc) {
    match pc
    case Recording(_, _, caller) => caller.ByHash? || caller.ByRecheck?
    case Recovering(at) => !at.FindStuck? && !at.Reemit? && !at.AskMarker? && !at.FailUnsettled?
    case _ => false
  }

  /**
   * In serial runs, crashes and lost answers included, an order that waits for settlement
   * or is in it has no transaction hash: the hash is stored with the outcome. So recovery
   * never asks about a transaction, adopts its outcome or rolls an order back.
   */
  lemma HashesComeWithOutcomes(s: State, actions: seq<Action>, genesis: Ledger.Accounts)
    requires Init(s, genesis)
    ensures var t := SerialRun(s, actions);
      && (forall o :: o in t.orders && t.orders[o].txHash.Some? ==> Over(t.orders[o].status))
      && (forall h :: h in t.acts ==> !DealsWithHash(t.acts[h]))
  {
    InitSerial(s, genesis);
    SerialRunPlain(s, actions, genesis);
    var t := SerialRun(s, actions);
    forall o | o in t.orders && t.orders[o].txHash.Some? ensures Over(t.orders[o].status) {
      assert Hashless(t, o);
    }
  }

  /** In serial runs only a payment webhook takes an order back from SETTLEMENT_PENDING. */
  lemma OnlyPaymentsReopen(s: State, actions: seq<Action>, genesis: Ledger.Accounts, action: Action, o: OrderId)
    requires Init(s, genesis)
    requires StatusIs(SerialRun(s, actions), o, SettlementPending)
    requires StatusIs(SerialStep(SerialRun(s, actions), action), o, PaymentReceived)
    ensures var t := SerialRun(s, actions);
      action.Act? && action.actor in t.acts && t.acts[action.actor].Paying? && t.acts[action.actor].order == o
  {
    var t := SerialRun(s, actions);
    InitSerial(s, genesis);
    SerialRunPlain(s, actions, genesis);
    if action.Act? {
      assert SerialStep(t, action) == ActStep(t, action.actor, action.answer);
      ReopenedBy(t, action.actor, action.answer, o);
    } else {
      StatusFromHandlers(t, action, o);
    }
  }

  lemma ReopenedBy(t: State, h: nat, answer: Answer, o: OrderId)
    requires NoHashes(t) && StatusIs(t, o, SettlementPending) && StatusIs(ActStep(t, h, answer), o, PaymentReceived)
    ensures h in t.acts && t.acts[h].Paying? && t.acts[h].order == o
  {
    var effect := Decide(t, h, t.acts[h], answer).effect;
    assert ActStep(t, h, answer).orders == Perform(t, effect).orders;
    WritesNoPayment(t, h, t.acts[h], answer);
  }

  lemma WritesNoPayment(s: State, h: nat, pc: Pc, answer: Answer)
    requires !DealsWithHash(pc)
    ensures var effect := Decide(s, h, pc, answer).effect;
      && (effect.Write? ==> effect.status != PaymentReceived)
      && (effect.Claim? ==> pc.Paying? && effect.order == pc.order)
  {
    match pc {
      case Settling(job, at) =>
      case Recording(p, at, caller) =>
      case Paying(p, ref, at) =>
      case Recovering(at) =>
      case Delivering(event, at) =>
    }
  }
}
