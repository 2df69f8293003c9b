/**
 * Where illegal status writes come from, in serial runs: every one of them goes back to
 * an answer the same handler got earlier, which names the statement that failed.
 */
module Failures {
  import opened Types
  import opened OrderStates
  import opened Protocol
  import opened Safety
  import opened Serial
  import Ledger

  /**
   * The read of the order, or the write that marks it SETTLEMENT_PENDING, failed; or,
   * after the order was marked SETTLED before its row was rebuilt, a statement that
   * rebuilds the row failed, or the product has no collaborators left.
   */
  predicate Blames(s: State, pc: Pc, answer: Answer, o: OrderId) {
    match pc
    case Settling(job, at) => job.order == o && answer == Throw && (at.ReadOrder? || at.MarkPending?)
    case Recording(p, at, caller) =>
      && p == o && caller.Handler? && StatusIs(s, o, Settled)
      && (answer == Throw || (at.ReloadShares? && NobodyToPay(s, at.product)))
    case _ => false
  }

  predicate NobodyToPay(s: State, product: ProductId) {
    product !in s.products || s.products[product].collaborators == []
  }

  /** In the `i`-th step of the run, handler `h` gets an answer that makes it give up order `o`. */
  ghost predicate BlamedAt(s: State, actions: seq<Action>, i: nat, h: nat, o: OrderId) {
    i < |actions| && actions[i].Act? && actions[i].actor == h &&
    var t := SerialRun(s, actions[..i]);
    Admits(t, actions[i]) && h in t.acts && Truthful(t, t.acts[h], actions[i].answer)
    && Blames(t, t.acts[h], actions[i].answer, o)
  }

  /** The `i`-th step of the run spoils the order. */
  ghost predicate SpoiledAt(s: State, actions: seq<Action>, i: nat, o: OrderId) {
    i < |actions| && SpoilStep(SerialRun(s, actions[..i]), actions[i], o)
  }

  /** The handler is about to give up an order that is not in settlement. */
  predicate Doomed(s: State, h: nat, o: OrderId) {
    h in s.acts && GivesUp(s.acts[h]) && GivenUp(s.acts[h]) == o && NotInSettlement(s, o)
  }

  /** The statement after which a handler is about to spoil its order failed, or found nobody to pay. */
  lemma DoomedByAnswer(s: State, h: nat, answer: Answer)
    requires Safe(s) && Orderly(s) && h in s.acts
    requires var move := Decide(s, h, s.acts[h], answer);
      move.next.Some? && GivesUp(move.next.value) && NotInSettlement(Perform(s, move.effect), GivenUp(move.next.value))
    ensures Blames(s, s.acts[h], answer, GivenUp(Decide(s, h, s.acts[h], answer).next.value))
  {
    assert Local(s, h, s.acts[h]) && View(s, s.acts[h]);
    match s.acts[h] {
      case Settling(job, at) => SettlingSpoils(s, job, at, answer);
      case Recording(o, at, caller) => RecordingSpoils(s, h, o, at, caller, answer);
      case _ => OthersNeverGiveUp(s, h, s.acts[h], answer);
    }
  }

  lemma OthersNeverGiveUp(s: State, h: nat, pc: Pc, answer: Answer)
    requires !pc.Settling? && !pc.Recording?
    ensures var move := Decide(s, h, pc, answer); move.next.Some? ==> !GivesUp(move.next.value)
  {
    match pc {
      case Paying(o, ref, at) =>
      case Recovering(at) =>
      case _ =>
    }
  }

  lemma SettlingSpoils(s: State, job: Payment, at: SettlePc, answer: Answer)
    requires View(s, Settling(job, at)) && job.order in s.orders
    requires var move := DecideSettling(s, job, at, answer);
      && move.next.Some? && GivesUp(move.next.value)
      && NotInSettlement(Perform(s, move.effect), GivenUp(move.next.value))
    ensures Blames(s, Settling(job, at), answer, GivenUp(DecideSettling(s, job, at, answer).next.value))
  {
  }

  lemma RecordingSpoils(s: State, h: nat, o: OrderId, at: RecordPc, caller: Caller, answer: Answer)
    requires View(s, Recording(o, at, caller)) && o in s.orders
    requires var move := DecideRecording(s, h, o, at, caller, answer);
      && move.next.Some? && GivesUp(move.next.value)
      && NotInSettlement(Perform(s, move.effect), GivenUp(move.next.value))
    ensures var next := DecideRecording(s, h, o, at, caller, answer).next.value;
      Blames(s, Recording(o, at, caller), answer, GivenUp(next))
  {
  }

  // -------------------------------------------------------------------- over a run

  /** A handler is doomed by its own answers only, and stays where it is until its next statement. */
  lemma StepDooms(s: State, action: Action, h: nat, o: OrderId)
    requires Safe(s) && Orderly(s) && Admits(s, action) && Doomed(Step(s, action), h, o) && !Doomed(s, h, o)
    ensures action.Act? && action.actor == h && h in s.acts && Truthful(s, s.acts[h], action.answer)
    ensures Blames(s, s.acts[h], action.answer, o)
  {
    if action.Act? {
      ActDooms(s, action.actor, action.answer, h, o);
    } else {
      OthersDoomNobody(s, action, h, o);
    }
  }

  lemma ActDooms(s: State, k: nat, answer: Answer, h: nat, o: OrderId)
    requires Safe(s) && Orderly(s) && Admits(s, Act(k, answer))
    requires Doomed(ActStep(s, k, answer), h, o) && !Doomed(s, h, o)
    ensures k == h && h in s.acts && Truthful(s, s.acts[h], answer) && Blames(s, s.acts[h], answer, o)
  {
    PerformShop(s, Decide(s, k, s.acts[k], answer).effect);
    if k == h {
      DoomedByAnswer(s, h, answer);
    } else {
      ElsewhereKeepsDoom(s, k, answer, h, o);
    }
  }

  lemma ElsewhereKeepsDoom(s: State, k: nat, answer: Answer, h: nat, o: OrderId)
    requires Safe(s) && Orderly(s) && Admits(s, Act(k, answer)) && k in s.acts && Truthful(s, s.acts[k], answer)
    requires k != h && h in s.acts && o in Owns(s.acts[h]) && GivesUp(s.acts[h])
    ensures NotInSettlement(ActStep(s, k, answer), o) ==> NotInSettlement(s, o)
    ensures h in ActStep(s, k, answer).acts && ActStep(s, k, answer).acts[h] == s.acts[h]
  {
    var effect := Decide(s, k, s.acts[k], answer).effect;
    PerformShop(s, effect);
    ActOrderly(s, k, answer);
    assert Owns(s.acts[h]) !! Owns(s.acts[k]);
    PerformMoves(s, effect, {o});
  }

  lemma OthersDoomNobody(s: State, action: Action, h: nat, o: OrderId)
    requires Safe(s) && !action.Act? && Doomed(Step(s, action), h, o)
    ensures Doomed(s, h, o)
  {
    OthersKeepActs(s, action, h);
    assert Local(s, h, s.acts[h]);
    StatusFromHandlers(s, action, o);
  }

  lemma OthersKeepActs(s: State, action: Action, h: nat)
    requires !action.Act? && h in Step(s, action).acts && GivesUp(Step(s, action).acts[h])
    ensures h in s.acts && s.acts[h] == Step(s, action).acts[h]
  {
    if action.Include? {
      assert IncludeStep(s, action.tx, action.executed).acts == s.acts;
    } else if action.Webhook? || action.Dispatch? || action.Bootstrap? || action.Deliver? {
      StartsHarmless(s, action, h);
    } else if !action.Crash? {
      ShopKeepsActs(s, action);
    }
  }

  /** Whoever starts has nothing to give up yet. */
  lemma StartsHarmless(s: State, action: Action, h: nat)
    requires action.Webhook? || action.Dispatch? || action.Bootstrap? || action.Deliver?
    requires h in Step(s, action).acts && GivesUp(Step(s, action).acts[h])
    ensures h in s.acts && s.acts[h] == Step(s, action).acts[h]
  {
  }

  /** A handler that is doomed after a run got the answer to blame in that run. */
  lemma {:induction false} DoomIsBlamed(s: State, actions: seq<Action>, genesis: Ledger.Accounts, h: nat, o: OrderId)
    returns (i: nat)
    requires SerialInvariant(s, genesis) && !Doomed(s, h, o) && Doomed(SerialRun(s, actions), h, o)
    ensures BlamedAt(s, actions, i, h, o)
    decreases |actions|
  {
    var n := |actions| - 1;
    if Doomed(SerialRun(s, actions[..n]), h, o) {
      i := DoomIsBlamed(s, actions[..n], genesis, h, o);
      BlamedLonger(s, actions, n, i, h, o);
    } else {
      LastBlamed(s, actions, genesis, h, o);
      i := n;
    }
  }

  lemma BlamedLonger(s: State, actions: seq<Action>, n: nat, i: nat, h: nat, o: OrderId)
    requires n <= |actions| && BlamedAt(s, actions[..n], i, h, o)
    ensures BlamedAt(s, actions, i, h, o)
  {
    assert actions[..n][..i] == actions[..i];
  }

  lemma LastBlamed(s: State, actions: seq<Action>, genesis: Ledger.Accounts, h: nat, o: OrderId)
    requires SerialInvariant(s, genesis) && actions != [] && Doomed(SerialRun(s, actions), h, o)
    requires !Doomed(SerialRun(s, actions[..|actions| - 1]), h, o)
    ensures BlamedAt(s, actions, |actions| - 1, h, o)
  {
    var n := |actions| - 1;
    var t := SerialRun(s, actions[..n]);
    SerialLast(s, actions);
    SerialRunKeeps(s, actions[..n], genesis);
    StepDooms(t, actions[n], h, o);
  }

  /**
   * Every statement that spoils an order is traced to its cause: earlier in the run the
   * same handler was told that one of the listed statements failed, or found a product
   * without collaborators.
   */
  lemma SpoilsAreBlamed(s: State, actions: seq<Action>, genesis: Ledger.Accounts, i: nat, o: OrderId)
    requires Init(s, genesis) && SpoiledAt(s, actions, i, o)
    ensures exists j: nat :: j < i && BlamedAt(s, actions, j, actions[i].actor, o)
  {
    var earlier, h := actions[..i], actions[i].actor;
    assert Doomed(SerialRun(s, earlier), h, o);
    InitSerial(s, genesis);
    var j := DoomIsBlamed(s, earlier, genesis, h, o);
    BlamedLonger(s, actions, i, j, h, o);
  }

  lemma {:induction false} SpoiledSomewhere(s: State, actions: seq<Action>, o: OrderId) returns (i: nat)
    requires EverSpoiled(s, actions, o)
    ensures SpoiledAt(s, actions, i, o)
    decreases |actions|
  {
    if SpoilStep(s, actions[0], o) {
      i := 0;
      assert actions[..0] == [];
    } else {
      i := SpoiledSomewhere(SerialStep(s, actions[0]), actions[1..], o);
      i := i + 1;
      assert actions[..i][1..] == actions[1..][..i - 1];
    }
  }

  /** A run in which no such failure is answered keeps every status history legal. */
  lemma LegalWithoutFailures(s: State, actions: seq<Action>, genesis: Ledger.Accounts, o: OrderId)
    requires Init(s, genesis) && forall j: nat, h: nat :: j < |actions| ==> !BlamedAt(s, actions, j, h, o)
    ensures Legal(StatusHistory(s, actions, o))
  {
    StatusWritesAreLegal(s, actions, genesis, o);
    if EverSpoiled(s, actions, o) {
      var i := SpoiledSomewhere(s, actions, o);
      SpoilsAreBlamed(s, actions, genesis, i, o);
    }
  }
}
