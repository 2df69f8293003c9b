/**
 * Serial runs, one order at a time. As long as the order itself loses nothing, the
 * database and the chain agree on it: no crash while it is SETTLEMENT_PENDING, no lost
 * answer or poll, and no failure of the few statements after which its handler writes a
 * wrong status or none. Failures elsewhere, and crashes at other times, do no harm.
 */
module NoLoss {
  import opened Types
  import opened OrderStates
  import opened SettlementLaws
  import opened Contract
  import opened Protocol
  import opened Safety
  import opened Serial
  import Ledger

  // ------------------------------------------------------------------- what is lost

  /** The answer leaves the handler's own order with a wrong status, or with none of its own. */
  predicate LosesAnswer(s: State, pc: Pc, answer: Answer, o: OrderId) {
    match pc
    case Settling(job, at) =>
      job.order == o &&
      (match at
       case ReadOrder => answer == Throw && StatusIs(s, o, Settled)
       case Send(_, _) => answer == Lost
       case Poll(_, _, _, polls) =>
         answer == Throw || (answer != Good && answer != Bad && polls + 1 >= POLL_MAX_ATTEMPTS)
       case Fail(_, last) => answer == Throw && last && StatusIs(s, o, SettlementPending)
       case _ => false)
    case Recording(p, at, caller) =>
      p == o && caller.Handler? && (at.CreateRow? || at.MarkSettled?) && answer == Throw
    case _ => false
  }

  /**
   * The order loses something: the process crashes while it is SETTLEMENT_PENDING, the
   * answer to its submission or the outcome of its transaction is lost, or a database
   * statement fails that reads it when it is SETTLED already, records its confirmed
   * payout, or was the last try to mark it failed.
   */
  ghost predicate Loses(s: State, action: Action, o: OrderId) {
    match action
    case Crash => StatusIs(s, o, SettlementPending)
    case Act(h, answer) => h in s.acts && LosesAnswer(s, s.acts[h], answer, o)
    case _ => false
  }

  /** The order loses something in the `i`-th step of the serial run. */
  ghost predicate LosesAt(s: State, actions: seq<Action>, i: nat, o: OrderId) {
    i < |actions| &&
    var t := SerialRun(s, actions[..i]);
    Admits(t, actions[i]) && Loses(t, actions[i], o)
  }

  ghost predicate Spared(s: State, actions: seq<Action>, o: OrderId) {
    forall i: nat :: i < |actions| ==> !LosesAt(s, actions, i, o)
  }

  // --------------------------------------------------------------- one order's stand

  predicate Finished(status: OrderStatus) {
    status == Settled || status == SettlementFailed
  }

  ghost predicate NoTx(s: State, o: OrderId) {
    forall t :: t in s.txs ==> s.txs[t].terms.order != o
  }

  ghost predicate NoPending(s: State, o: OrderId) {
    forall t :: t in s.txs && s.txs[t].terms.order == o ==> s.txs[t].status != Pending
  }

  ghost predicate OnlyTx(s: State, o: OrderId, tx: nat) {
    tx in s.txs && s.txs[tx].terms.order == o && forall t :: t in s.txs && s.txs[t].terms.order == o ==> t == tx
  }

  /** Chain and database agree on the order, and nothing is under way for it. */
  ghost predicate Agreed(s: State, o: OrderId) {
    o in s.orders ==>
      && (s.orders[o].status == Settled <==> o in s.chain.markers)
      && s.orders[o].status != SettlementPending
      && NoPending(s, o)
      && (!Finished(s.orders[o].status) ==> NoTx(s, o))
  }

  /** An order that recovery still means to look at: paid, as far as it was found. */
  ghost predicate RestStand(s: State, rest: seq<Snap>, o: OrderId) {
    Agreed(s, o) && forall i :: 0 <= i < |rest| && rest[i].order == o ==> rest[i].status == PaymentReceived
  }

  /** How far order `o` has come, seen from the point of the activity that owns it. */
  ghost predicate Stand(s: State, pc: Pc, o: OrderId) {
    match pc
    case Settling(job, at) =>
      (match at
       case ReadOrder => Agreed(s, o)
       case MarkPending(_, _) => Agreed(s, o)
       case Poll(_, _, tx, _) =>
         && OnlyTx(s, o, tx) && (o in s.chain.markers <==> s.txs[tx].status == Confirmed)
         && o !in s.rows
       case Fail(_, _) =>
         o !in s.chain.markers && NoPending(s, o) && (!StatusIs(s, o, SettlementPending) ==> Agreed(s, o))
       case FindRow(_, _) => false
       case AdoptRow(_) => false
       case MarkEarly => false
       case _ => o !in s.chain.markers && NoTx(s, o))
    case Recording(p, at, caller) =>
      if o == p then
        && caller.Handler? && o in s.chain.markers && NoPending(s, o)
        && (match at
            case CreateRow(_, _, _, _) => o !in s.rows
            case MarkSettled(_) => true
            case Announce => StatusIs(s, o, Settled)
            case _ => false)
      else !caller.Handler? && RestStand(s, caller.rest, o)
    case Paying(_, _, _) => Agreed(s, o)
    case Recovering(at) =>
      !at.FindStuck? && if o == at.snap.order then at.Reemit? && Agreed(s, o) else RestStand(s, at.rest, o)
    case Delivering(_, _) => false
  }

  /** The order is agreed when nobody owns it, and where its owner left it otherwise. */
  ghost predicate Tracked(s: State, o: OrderId) {
    && (Free(s, o) ==> Agreed(s, o))
    && (forall h :: h in s.acts && o in Owns(s.acts[h]) ==> Stand(s, s.acts[h], o))
  }

  /** Outside settlement an owned order is agreed as well. */
  lemma AgreedUnlessPending(s: State, pc: Pc, o: OrderId)
    requires o in Owns(pc) && Stand(s, pc, o) && View(s, pc) && !StatusIs(s, o, SettlementPending)
    ensures Agreed(s, o)
  {
    match pc {
      case Settling(job, at) =>
      case Recording(p, at, caller) =>
      case _ =>
    }
  }

  // ---------------------------------------------------------------- locality of stands

  /** Nothing about the order changed from `s` to `t`. */
  ghost predicate Untouched(s: State, t: State, o: OrderId) {
    && (o in s.orders <==> o in t.orders)
    && (o in s.orders ==> t.orders[o].status == s.orders[o].status)
    && (o in t.rows <==> o in s.rows)
    && (o in t.chain.markers <==> o in s.chain.markers)
    && (forall x :: x in s.txs && s.txs[x].terms.order == o ==> x in t.txs && t.txs[x] == s.txs[x])
    && (forall x :: x in t.txs && t.txs[x].terms.order == o ==> x in s.txs && t.txs[x] == s.txs[x])
  }

  lemma AgreedStable(s: State, t: State, o: OrderId)
    requires Untouched(s, t, o) && Agreed(s, o)
    ensures Agreed(t, o)
  {
  }

  lemma StandStable(s: State, t: State, pc: Pc, o: OrderId)
    requires Untouched(s, t, o) && Stand(s, pc, o)
    ensures Stand(t, pc, o)
  {
    if Agreed(s, o) {
      AgreedStable(s, t, o);
    }
    match pc {
      case Settling(job, at) =>
      case Recording(p, at, caller) =>
      case _ =>
    }
  }

  // ------------------------------------------------------------------ handlers' moves

  /** The order a submission is for, or whose data an effect writes. */
  function Touches(effect: Effect): set<OrderId> {
    if effect.Submit? then {effect.terms.order} else Target(effect)
  }

  lemma PerformTouches(s: State, effect: Effect, o: OrderId)
    requires o !in Touches(effect)
    requires effect.Submit? ==> s.next !in s.txs
    ensures Untouched(s, Perform(s, effect), o)
  {
    match effect {
      case Write(_, _, _) =>
      case Claim(_, _, _) =>
      case Insert(_, _) =>
      case Submit(_) =>
      case _ =>
    }
  }

  /** After the move of the order's owner the order stands where the owner goes, or is agreed. */
  ghost predicate Carried(s: State, move: Move, o: OrderId) {
    var t := Perform(s, move.effect);
    if move.next.Some? && o in Owns(move.next.value) then Stand(t, move.next.value, o) else Agreed(t, o)
  }

  lemma StartingCarried(s: State, job: Payment, at: SettlePc, answer: Answer)
    requires SettleOk(s, job, at) && View(s, Settling(job, at)) && Stand(s, Settling(job, at), job.order)
    requires !LosesAnswer(s, Settling(job, at), answer, job.order)
    requires at.ReadOrder? || at.MarkPending? || at.LoadShares?
    ensures Carried(s, DecideSettling(s, job, at, answer), job.order)
  {
  }

  lemma PreparingCarried(s: State, job: Payment, at: SettlePc, answer: Answer)
    requires SettleOk(s, job, at) && View(s, Settling(job, at)) && Stand(s, Settling(job, at), job.order)
    requires Truthful(s, Settling(job, at), answer)
    requires at.CheckTrustlines? || at.ProbeMarker? || at.CheckFloat? || at.FailLow? || at.GetAccount? || at.Simulate?
    ensures Carried(s, DecideSettling(s, job, at, answer), job.order)
  {
  }

  lemma SendingCarried(s: State, job: Payment, at: SettlePc, answer: Answer)
    requires Safe(s) && SettleOk(s, job, at) && View(s, Settling(job, at)) && Stand(s, Settling(job, at), job.order)
    requires Truthful(s, Settling(job, at), answer) && answer != Lost && at.Send?
    ensures Carried(s, DecideSettling(s, job, at, answer), job.order)
  {
    if answer == Good {
      SubmittedCarried(s, job, at);
    }
  }

  lemma SubmittedCarried(s: State, job: Payment, at: SettlePc)
    requires Safe(s) && at.Send? && Stand(s, Settling(job, at), job.order)
    ensures Carried(s, DecideSettling(s, job, at, Good), job.order)
  {
    assert s.next !in s.txs;
    RowsAreMarked(s, job.order);
  }

  lemma RowsAreMarked(s: State, o: OrderId)
    requires Safe(s)
    ensures o in s.rows ==> o in s.chain.markers
  {
    if o in s.rows {
      assert RowOk(s, o, s.rows[o]);
    }
  }

  lemma PollingCarried(s: State, job: Payment, at: SettlePc, answer: Answer)
    requires View(s, Settling(job, at)) && Stand(s, Settling(job, at), job.order) && at.Poll?
    requires Truthful(s, Settling(job, at), answer) && !LosesAnswer(s, Settling(job, at), answer, job.order)
    ensures Carried(s, DecideSettling(s, job, at, answer), job.order)
  {
    if answer == Good || answer == Bad {
      PolledOutcome(s, job, at, answer);
    }
  }

  lemma PolledOutcome(s: State, job: Payment, at: SettlePc, answer: Answer)
    requires View(s, Settling(job, at)) && Stand(s, Settling(job, at), job.order) && at.Poll?
    requires Truthful(s, Settling(job, at), answer) && (answer == Good || answer == Bad)
    ensures Carried(s, DecideSettling(s, job, at, answer), job.order)
  {
    var o := job.order;
    assert OnlyTx(s, o, at.tx) && NoPending(s, o);
  }

  lemma FailingCarried(s: State, job: Payment, at: SettlePc, answer: Answer)
    requires SettleOk(s, job, at) && View(s, Settling(job, at)) && Stand(s, Settling(job, at), job.order) && at.Fail?
    requires !LosesAnswer(s, Settling(job, at), answer, job.order)
    ensures Carried(s, DecideSettling(s, job, at, answer), job.order)
  {
  }

  lemma SettlingCarried(s: State, job: Payment, at: SettlePc, answer: Answer)
    requires Safe(s) && SettleOk(s, job, at) && View(s, Settling(job, at)) && Stand(s, Settling(job, at), job.order)
    requires Truthful(s, Settling(job, at), answer) && !LosesAnswer(s, Settling(job, at), answer, job.order)
    ensures Carried(s, DecideSettling(s, job, at, answer), job.order)
  {
    if at.Poll? {
      PollingCarried(s, job, at, answer);
    } else if at.Fail? {
      FailingCarried(s, job, at, answer);
    } else if at.Send? {
      SendingCarried(s, job, at, answer);
    } else if at.ReadOrder? || at.MarkPending? || at.LoadShares? {
      StartingCarried(s, job, at, answer);
    } else {
      PreparingCarried(s, job, at, answer);
    }
  }

  /** The order a confirmed payout is recorded for. */
  lemma RecordingCarried(s: State, h: nat, o: OrderId, at: RecordPc, caller: Caller, answer: Answer)
    requires o in s.orders && View(s, Recording(o, at, caller)) && Stand(s, Recording(o, at, caller), o)
    requires !LosesAnswer(s, Recording(o, at, caller), answer, o)
    ensures Carried(s, DecideRecording(s, h, o, at, caller, answer), o)
  {
  }

  lemma PayingCarried(s: State, o: OrderId, ref: PaymentRef, at: PayPc, answer: Answer)
    requires PayOk(s, o, at) && View(s, Paying(o, ref, at)) && Stand(s, Paying(o, ref, at), o)
    ensures Carried(s, DecidePaying(s, o, ref, at, answer), o)
  {
  }

  /** The order recovery looks at has been paid and nothing more: its event is emitted again. */
  lemma ReemittedCarried(s: State, at: RecoverPc, answer: Answer)
    requires !at.FindStuck? && Stand(s, Recovering(at), at.snap.order) && View(s, Recovering(at))
    ensures Carried(s, DecideRecovering(s, at, answer), at.snap.order)
  {
    var t := Perform(s, DecideRecovering(s, at, answer).effect);
    AgreedStable(s, t, at.snap.order);
    NotNext(at.rest, at.snap.order);
  }

  lemma NotNext(rest: seq<Snap>, o: OrderId)
    requires forall i :: 0 <= i < |rest| ==> rest[i].order != o
    ensures NextStuck(rest).Some? ==> o !in Owns(NextStuck(rest).value)
  {
    if rest != [] {
      forall i | 0 <= i < |rest[1..]| ensures rest[1..][i].order != o {
        assert rest[1..][i] == rest[i + 1];
      }
    }
  }

  /** An order further down the list is where it was when recovery turns to the next. */
  lemma NextStand(s: State, rest: seq<Snap>, o: OrderId)
    requires o in SnapOrders(rest) && RestStand(s, rest, o)
    ensures NextStuck(rest).Some? && o in Owns(NextStuck(rest).value) && Stand(s, NextStuck(rest).value, o)
  {
    var i :| 0 <= i < |rest| && rest[i].order == o;
    if i > 0 {
      assert rest[1..][i - 1] == rest[i];
    }
    forall j | 0 <= j < |rest[1..]| && rest[1..][j].order == o ensures rest[1..][j].status == PaymentReceived {
      assert rest[1..][j] == rest[j + 1];
    }
  }

  /** A move concerning another order of the list. */
  lemma RestCarried(s: State, move: Move, o: OrderId, rest: seq<Snap>)
    requires o in SnapOrders(rest) && RestStand(s, rest, o) && Untouched(s, Perform(s, move.effect), o)
    requires move.next == NextStuck(rest)
          || (move.next.Some? && KeepsRest(move.next.value, o, rest))
    ensures Carried(s, move, o)
  {
    var t := Perform(s, move.effect);
    AgreedStable(s, t, o);
    NextStand(t, rest, o);
  }

  predicate KeepsRest(pc: Pc, o: OrderId, rest: seq<Snap>) {
    match pc
    case Recording(p, _, caller) => p != o && !caller.Handler? && caller.rest == rest
    case Recovering(at) => !at.FindStuck? && at.snap.order != o && at.rest == rest
    case _ => false
  }

  lemma RecordingRest(s: State, h: nat, p: OrderId, at: RecordPc, caller: Caller, answer: Answer, o: OrderId)
    requires o != p && o in Owns(Recording(p, at, caller)) && View(s, Recording(p, at, caller))
    requires Stand(s, Recording(p, at, caller), o)
    ensures Carried(s, DecideRecording(s, h, p, at, caller, answer), o)
  {
    var move := DecideRecording(s, h, p, at, caller, answer);
    PerformTouches(s, move.effect, o);
    RestCarried(s, move, o, caller.rest);
  }

  lemma RecoveringRest(s: State, at: RecoverPc, answer: Answer, o: OrderId)
    requires !at.FindStuck? && o != at.snap.order && o in Owns(Recovering(at)) && Stand(s, Recovering(at), o)
    ensures Carried(s, DecideRecovering(s, at, answer), o)
  {
    var move := DecideRecovering(s, at, answer);
    PerformTouches(s, move.effect, o);
    RestCarried(s, move, o, at.rest);
  }

  lemma OwnerCarries(s: State, h: nat, answer: Answer, o: OrderId)
    requires Safe(s) && Orderly(s) && h in s.acts && o in Owns(s.acts[h]) && Stand(s, s.acts[h], o)
    requires Truthful(s, s.acts[h], answer) && !LosesAnswer(s, s.acts[h], answer, o)
    ensures Carried(s, Decide(s, h, s.acts[h], answer), o)
  {
    assert Local(s, h, s.acts[h]) && View(s, s.acts[h]);
    match s.acts[h] {
      case Settling(job, at) => SettlingCarried(s, job, at, answer);
      case Recording(p, at, caller) => RecorderCarries(s, h, p, at, caller, answer, o);
      case Paying(p, ref, at) => PayingCarried(s, p, ref, at, answer);
      case Recovering(at) => RecoveryCarries(s, at, answer, o);
      case Delivering(event, at) =>
    }
  }

  lemma RecorderCarries(s: State, h: nat, p: OrderId, at: RecordPc, caller: Caller, answer: Answer, o: OrderId)
    requires p in s.orders && o in Owns(Recording(p, at, caller)) && View(s, Recording(p, at, caller))
    requires Stand(s, Recording(p, at, caller), o) && !LosesAnswer(s, Recording(p, at, caller), answer, o)
    ensures Carried(s, DecideRecording(s, h, p, at, caller, answer), o)
  {
    if o == p {
      RecordingCarried(s, h, p, at, caller, answer);
    } else {
      RecordingRest(s, h, p, at, caller, answer, o);
    }
  }

  lemma RecoveryCarries(s: State, at: RecoverPc, answer: Answer, o: OrderId)
    requires o in Owns(Recovering(at)) && View(s, Recovering(at)) && Stand(s, Recovering(at), o)
    ensures Carried(s, DecideRecovering(s, at, answer), o)
  {
    if o == at.snap.order {
      ReemittedCarried(s, at, answer);
    } else {
      RecoveringRest(s, at, answer, o);
    }
  }

  // -------------------------------------------------------------------------- steps

  /** An activity's move that carries the order, or concerns others and may only take it up free. */
  lemma MoveTracked(s: State, h: nat, move: Move, o: OrderId)
    requires Exclusive(s) && Tracked(s, o) && h in s.acts
    requires if o in Owns(s.acts[h]) then Carried(s, move, o)
             else && Untouched(s, Perform(s, move.effect), o)
                  && (move.next.Some? && o in Owns(move.next.value) ==>
                        Free(s, o) && Stand(Perform(s, move.effect), move.next.value, o))
    ensures Tracked(Continue(Perform(s, move.effect), h, move.next), o)
  {
    var t := Perform(s, move.effect);
    var u := Continue(t, h, move.next);
    PerformShop(s, move.effect);
    forall k | k in u.acts && o in Owns(u.acts[k]) ensures Stand(t, u.acts[k], o) {
      if k != h {
        assert Owns(s.acts[k]) !! Owns(s.acts[h]);
        assert !Free(s, o);
        StandStable(s, t, s.acts[k], o);
      }
    }
    if Free(u, o) {
      FreedAgreed(s, t, u, h, move.next, o);
    }
    TrackedSame(t, u, o);
  }

  lemma FreedAgreed(s: State, t: State, u: State, h: nat, next: Option<Pc>, o: OrderId)
    requires Tracked(s, o) && h in s.acts && t.acts == s.acts && u == Continue(t, h, next) && Free(u, o)
    requires if o in Owns(s.acts[h]) then (next.Some? && o in Owns(next.value)) || Agreed(t, o)
             else Untouched(s, t, o)
    ensures Agreed(t, o)
  {
    if o !in Owns(s.acts[h]) {
      forall k | k in s.acts ensures o !in Owns(s.acts[k]) {
        assert k != h ==> u.acts[k] == s.acts[k];
      }
      assert Free(s, o);
      AgreedStable(s, t, o);
    } else {
      assert next.Some? ==> u.acts[h] == next.value;
    }
  }

  /** Who owns the order changed in `u`; the records did not. */
  lemma TrackedSame(t: State, u: State, o: OrderId)
    requires SameRecords(t, u)
    requires Free(u, o) ==> Agreed(t, o)
    requires forall k :: k in u.acts && o in Owns(u.acts[k]) ==> Stand(t, u.acts[k], o)
    ensures Tracked(u, o)
  {
    assert Untouched(t, u, o);
    if Free(u, o) {
      AgreedStable(t, u, o);
    }
    forall k | k in u.acts && o in Owns(u.acts[k]) ensures Stand(u, u.acts[k], o) {
      StandStable(t, u, u.acts[k], o);
    }
  }

  lemma ActTracked(s: State, h: nat, answer: Answer, o: OrderId)
    requires Safe(s) && Orderly(s) && Tracked(s, o)
    requires Admits(s, Act(h, answer)) && !Loses(s, Act(h, answer), o)
    ensures Tracked(ActStep(s, h, answer), o)
  {
    if h in s.acts && Truthful(s, s.acts[h], answer) {
      var move := Decide(s, h, s.acts[h], answer);
      if o in Owns(s.acts[h]) {
        OwnerCarries(s, h, answer, o);
      } else if s.acts[h] == Recovering(FindStuck) {
        FindStuckStand(s, h, answer, o);
      } else {
        ElsewhereUntouched(s, h, answer, o);
      }
      MoveTracked(s, h, move, o);
    }
  }

  /** A handler's statement touches, and a handler goes on with, its own orders only. */
  lemma ElsewhereUntouched(s: State, h: nat, answer: Answer, o: OrderId)
    requires Safe(s) && Orderly(s) && h in s.acts && s.acts[h] != Recovering(FindStuck) && o !in Owns(s.acts[h])
    ensures var move := Decide(s, h, s.acts[h], answer);
      Untouched(s, Perform(s, move.effect), o) && (move.next.Some? ==> o !in Owns(move.next.value))
  {
    ActInherits(s, h, answer);
    TouchesOwn(s, h, s.acts[h], answer);
    assert s.next !in s.txs;
    PerformTouches(s, Decide(s, h, s.acts[h], answer).effect, o);
  }

  lemma TouchesOwn(s: State, h: nat, pc: Pc, answer: Answer)
    ensures Touches(Decide(s, h, pc, answer).effect) <= Owns(pc)
  {
    match pc {
      case Settling(job, at) =>
      case Recording(p, at, caller) =>
      case Paying(p, ref, at) =>
      case Recovering(at) =>
      case Delivering(event, at) =>
    }
  }

  lemma ActInherits(s: State, h: nat, answer: Answer)
    requires Safe(s) && Orderly(s) && h in s.acts && s.acts[h] != Recovering(FindStuck)
    ensures Inherits(s.acts[h], Decide(s, h, s.acts[h], answer))
  {
    match s.acts[h] {
      case Settling(job, at) => SettlingProper(s, job, at, answer);
      case Recording(p, at, caller) => RecordingProper(s, h, p, at, caller, answer);
      case Paying(p, ref, at) => PayingProper(s, p, ref, at, answer);
      case Recovering(at) => RecoveringProper(s, at, answer);
      case Delivering(event, at) =>
    }
  }

  /** Recovery takes up free orders; an agreed one among them was found paid. */
  lemma FindStuckStand(s: State, h: nat, answer: Answer, o: OrderId)
    requires Tracked(s, o) && Admits(s, Act(h, answer)) && h in s.acts && s.acts[h] == Recovering(FindStuck)
    ensures var move := Decide(s, h, s.acts[h], answer);
      && move.effect == Nothing
      && (move.next.Some? && o in Owns(move.next.value) ==> Free(s, o) && Stand(s, move.next.value, o))
  {
    if answer.Rows? && o in SnapOrders(Stuck(s, answer.ids)) {
      var found := Stuck(s, answer.ids);
      StuckFresh(s, answer.ids);
      var i :| 0 <= i < |found| && found[i].order == o;
      var j :| 0 <= j < |answer.ids| && answer.ids[j] == found[i].order;
      assert Free(s, answer.ids[j]);
      forall k | 0 <= k < |found| && found[k].order == o ensures found[k].status == PaymentReceived {
        assert Fresh(s, found[k]);
      }
      NextStand(s, found, o);
    } else if answer.Rows? {
      var found := Stuck(s, answer.ids);
      forall i | 0 <= i < |found| ensures found[i].order != o {
        assert found[i].order in SnapOrders(found);
      }
      NotNext(found, o);
    }
  }

  /** A step that leaves the records of existing orders alone and moves no activity. */
  lemma QuietTracked(s: State, t: State, o: OrderId)
    requires Safe(s) && Tracked(s, o) && t.acts == s.acts
    requires t.rows == s.rows && t.txs == s.txs && t.chain.markers == s.chain.markers
    requires o in s.orders ==> o in t.orders && t.orders[o] == s.orders[o]
    requires o in t.orders && o !in s.orders ==>
               t.orders[o].status == PaymentPending && o !in s.chain.markers && NoTx(s, o)
    ensures Tracked(t, o)
  {
    assert Free(t, o) ==> Free(s, o);
    forall k | k in t.acts && o in Owns(t.acts[k]) ensures Stand(t, t.acts[k], o) {
      if o in s.orders || o !in t.orders {
        StandStable(s, t, s.acts[k], o);
      } else {
        OnlyWebhooksWait(s, k, o);
      }
    }
  }

  /** Of orders that do not exist only webhooks have heard. */
  lemma OnlyWebhooksWait(s: State, h: nat, o: OrderId)
    requires Safe(s) && h in s.acts && o in Owns(s.acts[h]) && o !in s.orders
    ensures s.acts[h].Paying?
  {
    assert Local(s, h, s.acts[h]);
  }

  lemma StartTracked(s: State, u: State, pc: Pc, o: OrderId)
    requires Safe(s) && Tracked(s, o) && SameRecords(s, u) && u.acts == s.acts && u.next == s.next
    requires o in Owns(pc) ==> Free(s, o) && (pc.Paying? || (pc.Settling? && pc.settle.ReadOrder?))
    ensures Tracked(Start(u, pc), o)
  {
    var t := Start(u, pc);
    assert s.next !in s.acts;
    if Free(t, o) {
      forall k | k in s.acts ensures o !in Owns(s.acts[k]) {
        assert t.acts[k] == s.acts[k];
      }
      assert Free(s, o);
    }
    TrackedSame(s, t, o);
  }

  lemma BusTracked(s: State, action: Action, o: OrderId)
    requires Safe(s) && Tracked(s, o) && Admits(s, action)
    requires action.Webhook? || action.Dispatch? || action.Bootstrap? || action.Deliver?
    ensures Tracked(Step(s, action), o)
  {
    if action.Webhook? {
      StartTracked(s, s, Paying(action.order, action.ref, FindRef), o);
    } else if action.Bootstrap? {
      StartTracked(s, s, Recovering(FindStuck), o);
    } else if action.Dispatch? {
      if action.event in s.payments {
        var taken := s.(payments := s.payments - {action.event});
        StartTracked(s, taken, Settling(s.payments[action.event], ReadOrder), o);
      }
    } else if action.event in s.undelivered {
      StartTracked(s, s.(undelivered := s.undelivered - {action.event}), Delivering(action.event, LoadBuyer), o);
    }
  }

  lemma ShopTracked(s: State, action: Action, o: OrderId)
    requires Safe(s) && Tracked(s, o)
    requires action.PutProduct? || action.Connect? || action.Checkout? || action.Resume?
    ensures Tracked(Step(s, action), o)
  {
    NewOrderIsClean(s, o);
    ShopIsQuiet(s, action);
    QuietTracked(s, Step(s, action), o);
  }

  lemma ShopIsQuiet(s: State, action: Action)
    requires action.PutProduct? || action.Connect? || action.Checkout? || action.Resume?
    ensures var t := Step(s, action);
      && t.acts == s.acts && t.rows == s.rows && t.txs == s.txs && t.chain == s.chain
      && (forall o :: o in s.orders ==> o in t.orders && t.orders[o] == s.orders[o])
      && (forall o :: o in t.orders && o !in s.orders ==> t.orders[o].status == PaymentPending)
  {
    match action {
      case Checkout(_, _, _) =>
      case Resume(_) =>
      case _ =>
    }
  }

  lemma NewOrderIsClean(s: State, o: OrderId)
    requires Safe(s)
    ensures o !in s.orders ==> o !in s.chain.markers && NoTx(s, o)
  {
    forall t | t in s.txs ensures s.txs[t].terms.order in s.orders {
      assert TxOk(s, s.txs[t]);
    }
    assert o in s.chain.markers ==> PaidAtPrice(s, o);
  }

  lemma OutsideTracked(s: State, call: Call, o: OrderId)
    requires Safe(s) && Tracked(s, o)
    ensures Tracked(Step(s, Outside(call)), o)
  {
    var t := s.(chain := Step(s, Outside(call)).chain);
    if !call.Settlement? {
      OutsideMarkers(s.chain, call);
    }
    QuietTracked(s, t, o);
  }

  lemma OutsideMarkers(c: Chain, call: Call)
    requires !call.Settlement?
    ensures Execute(c, call).markers == c.markers
  {
  }

  /** A crash sets every order free; it harms those in settlement only. */
  lemma CrashTracked(s: State, o: OrderId)
    requires Orderly(s) && Tracked(s, o) && !StatusIs(s, o, SettlementPending)
    ensures Tracked(Step(s, Crash), o)
  {
    var t := Step(s, Crash);
    if !Free(s, o) {
      var h :| h in s.acts && o in Owns(s.acts[h]);
      AgreedUnlessPending(s, s.acts[h], o);
    }
    TrackedSame(s, t, o);
  }

  // --------------------------------------------------------------------- inclusion

  /** An owner of the order either rules out a pending transaction or polls the only one. */
  lemma OwnerPolls(s: State, pc: Pc, o: OrderId)
    requires Stand(s, pc, o) && o in s.orders && o in Owns(pc)
    ensures NoPending(s, o)
         || (pc.Settling? && pc.settle.Poll? && pc.job.order == o && OnlyTx(s, o, pc.settle.tx))
  {
  }

  lemma InclusionTracked(s: State, t: State, tx: nat, o: OrderId)
    requires Safe(s) && Orderly(s) && Tracked(s, o)
    requires Included(s, t, tx) && s.txs[tx].status == Pending
    ensures Tracked(t, o)
  {
    if s.txs[tx].terms.order != o {
      InclusionUntouched(s, t, tx, o);
      forall k | k in t.acts && o in Owns(t.acts[k]) ensures Stand(t, t.acts[k], o) {
        StandStable(s, t, s.acts[k], o);
      }
      if Free(t, o) {
        assert Free(s, o);
        AgreedStable(s, t, o);
      }
    } else {
      assert TxOk(s, s.txs[tx]);
      assert !NoPending(s, o);
      assert !Free(s, o) && !Free(t, o);
      forall k | k in t.acts && o in Owns(t.acts[k]) ensures Stand(t, t.acts[k], o) {
        OwnerPolls(s, s.acts[k], o);
        PolledStand(s, t, tx, s.acts[k], o);
      }
    }
  }

  lemma InclusionUntouched(s: State, t: State, tx: nat, o: OrderId)
    requires Included(s, t, tx) && s.txs[tx].terms.order != o
    ensures Untouched(s, t, o)
  {
  }

  lemma PolledStand(s: State, t: State, tx: nat, pc: Pc, o: OrderId)
    requires Included(s, t, tx) && s.txs[tx].status == Pending && s.txs[tx].terms.order == o
    requires Stand(s, pc, o) && pc.Settling? && pc.settle.Poll? && OnlyTx(s, o, pc.settle.tx)
    ensures Stand(t, pc, o)
  {
    assert pc.settle.tx == tx;
    assert t.txs[tx].terms == s.txs[tx].terms;
  }

  lemma IncludeTracked(s: State, tx: nat, executed: bool, genesis: Ledger.Accounts, o: OrderId)
    requires SerialInvariant(s, genesis) && Tracked(s, o)
    ensures Tracked(IncludeStep(s, tx, executed), o)
  {
    IncludeIsIncluded(s, tx, executed, genesis);
    if IncludeStep(s, tx, executed) != s {
      InclusionTracked(s, IncludeStep(s, tx, executed), tx, o);
    }
  }

  lemma StepTracked(s: State, action: Action, genesis: Ledger.Accounts, o: OrderId)
    requires SerialInvariant(s, genesis) && Tracked(s, o) && Admits(s, action) && !Loses(s, action, o)
    ensures Tracked(Step(s, action), o)
  {
    if action.Act? {
      ActTracked(s, action.actor, action.answer, o);
    } else if action.Include? {
      IncludeTracked(s, action.tx, action.executed, genesis, o);
    } else if action.Webhook? || action.Dispatch? || action.Bootstrap? || action.Deliver? {
      BusTracked(s, action, o);
    } else if action.Outside? {
      OutsideTracked(s, action.call, o);
    } else if action.Crash? {
      CrashTracked(s, o);
    } else {
      ShopTracked(s, action, o);
    }
  }

  // --------------------------------------------------------------------- the theorem

  lemma {:induction false} SparedRunKeeps(s: State, actions: seq<Action>, genesis: Ledger.Accounts, o: OrderId)
    requires Init(s, genesis) && Spared(s, actions, o)
    ensures SerialInvariant(SerialRun(s, actions), genesis) && Tracked(SerialRun(s, actions), o)
    decreases |actions|
  {
    if actions == [] {
      InitSerial(s, genesis);
    } else {
      var n := |actions| - 1;
      var earlier, t := actions[..n], SerialRun(s, actions[..n]);
      SparedEarlier(s, actions, o);
      SparedRunKeeps(s, earlier, genesis, o);
      SerialLast(s, actions);
      SerialStepKeeps(t, actions[n], genesis);
      if Admits(t, actions[n]) {
        assert !LosesAt(s, actions, n, o);
        StepTracked(t, actions[n], genesis, o);
      }
    }
  }

  lemma SparedEarlier(s: State, actions: seq<Action>, o: OrderId)
    requires actions != [] && Spared(s, actions, o)
    ensures Spared(s, actions[..|actions| - 1], o)
  {
    var earlier := actions[..|actions| - 1];
    forall i: nat | i < |earlier| ensures !LosesAt(s, earlier, i, o) {
      assert earlier[..i] == actions[..i] && !LosesAt(s, actions, i, o);
    }
  }

  /**
   * An order that loses nothing itself: whenever it is not SETTLEMENT_PENDING, whoever is
   * working on it, it is SETTLED exactly when its marker is on chain, and no transaction
   * for it is pending; and it is SETTLEMENT_PENDING only while an activity works on it.
   */
  lemma SettledExactlyWhenMarked(s: State, actions: seq<Action>, genesis: Ledger.Accounts, o: OrderId)
    requires Init(s, genesis) && Spared(s, actions, o) && o in SerialRun(s, actions).orders
    ensures var t := SerialRun(s, actions);
      && (t.orders[o].status != SettlementPending ==>
            (t.orders[o].status == Settled <==> o in t.chain.markers) && NoPending(t, o))
      && (Free(t, o) ==> t.orders[o].status != SettlementPending)
  {
    SparedRunKeeps(s, actions, genesis, o);
    var t := SerialRun(s, actions);
    if !Free(t, o) && t.orders[o].status != SettlementPending {
      var h :| h in t.acts && o in Owns(t.acts[h]);
      AgreedUnlessPending(t, t.acts[h], o);
    }
  }

  /** Status and marker disagree: SETTLED unpaid, paid but not SETTLED, or left SETTLEMENT_PENDING. */
  ghost predicate Disagrees(s: State, o: OrderId) {
    && o in s.orders
    && if s.orders[o].status == SettlementPending then Free(s, o)
       else !(s.orders[o].status == Settled <==> o in s.chain.markers)
  }

  /** An order whose status and marker disagree lost something itself, in a step of the run. */
  lemma DisagreementMeansLoss(s: State, actions: seq<Action>, genesis: Ledger.Accounts, o: OrderId)
    requires Init(s, genesis) && Disagrees(SerialRun(s, actions), o)
    ensures exists i: nat :: LosesAt(s, actions, i, o)
  {
    if Spared(s, actions, o) {
      SettledExactlyWhenMarked(s, actions, genesis, o);
    }
  }

  // ------------------------------------------------------------------ handlers' ends

  /** The handler has marked its order SETTLEMENT_PENDING and not yet ended. */
  predicate UnderWay(s: State, pc: Pc) {
    (pc.Recording? && pc.caller.Handler?) || (pc.Settling? && StatusIs(s, pc.job.order, SettlementPending))
  }

  function OrderOf(pc: Pc): OrderId
    requires pc.Recording? || pc.Settling?
  {
    if pc.Recording? then pc.order else pc.job.order
  }

  /** SETTLED with the marker on chain, or SETTLEMENT_FAILED without it. */
  predicate Decided(s: State, o: OrderId) {
    && o in s.orders
    && (s.orders[o].status == Settled <==> o in s.chain.markers)
    && (s.orders[o].status == SettlementFailed <==> o !in s.chain.markers)
  }

  /** With this answer the handler, whose settlement is under way, ends. */
  ghost predicate Ends(t: State, h: nat, answer: Answer) {
    && h in t.acts && UnderWay(t, t.acts[h]) && Truthful(t, t.acts[h], answer)
    && Decide(t, h, t.acts[h], answer).next == None
    && Admits(t, Act(h, answer)) && !Loses(t, Act(h, answer), OrderOf(t.acts[h]))
  }

  /** Every handler that began a settlement, of an order that loses nothing, ends decided, one way or the other. */
  lemma HandlersEndDecided(s: State, actions: seq<Action>, genesis: Ledger.Accounts, h: nat, answer: Answer)
    requires Init(s, genesis) && Ends(SerialRun(s, actions), h, answer)
    requires Spared(s, actions, OrderOf(SerialRun(s, actions).acts[h]))
    ensures var t := SerialRun(s, actions); Decided(Step(t, Act(h, answer)), OrderOf(t.acts[h]))
  {
    var t := SerialRun(s, actions);
    var o := OrderOf(t.acts[h]);
    SparedRunKeeps(s, actions, genesis, o);
    EndDecided(t, h, answer, o);
  }

  lemma EndDecided(t: State, h: nat, answer: Answer, o: OrderId)
    requires Safe(t) && Orderly(t) && Tracked(t, o) && Ends(t, h, answer) && o == OrderOf(t.acts[h])
    ensures Decided(Step(t, Act(h, answer)), o)
  {
    var move := Decide(t, h, t.acts[h], answer);
    OwnerCarries(t, h, answer, o);
    LastMove(t, h, answer, o);
    EndedRecords(t, h, answer, move);
  }

  lemma EndedRecords(t: State, h: nat, answer: Answer, move: Move)
    requires h in t.acts && Truthful(t, t.acts[h], answer) && move == Decide(t, h, t.acts[h], answer)
    ensures SameRecords(Perform(t, move.effect), Step(t, Act(h, answer)))
  {
    assert Step(t, Act(h, answer)) == ActStep(t, h, answer);
  }

  /** The last statement of a handler under way writes a final status, or comes right after one. */
  lemma LastMove(t: State, h: nat, answer: Answer, o: OrderId)
    requires Safe(t) && Ends(t, h, answer) && o == OrderOf(t.acts[h]) && Stand(t, t.acts[h], o)
    ensures var u := Perform(t, Decide(t, h, t.acts[h], answer).effect); o in u.orders && Finished(u.orders[o].status)
  {
    assert Local(t, h, t.acts[h]);
    match t.acts[h] {
      case Settling(job, at) => SettlingLast(t, job, at, answer);
      case Recording(_, at, caller) => RecordingLast(t, h, o, at, caller, answer);
    }
  }

  lemma SettlingLast(s: State, job: Payment, at: SettlePc, answer: Answer)
    requires Stand(s, Settling(job, at), job.order) && StatusIs(s, job.order, SettlementPending)
    requires !LosesAnswer(s, Settling(job, at), answer, job.order) && DecideSettling(s, job, at, answer).next == None
    ensures var u := Perform(s, DecideSettling(s, job, at, answer).effect); StatusIs(u, job.order, SettlementFailed)
  {
  }

  lemma RecordingLast(s: State, h: nat, o: OrderId, at: RecordPc, caller: Caller, answer: Answer)
    requires Stand(s, Recording(o, at, caller), o) && !LosesAnswer(s, Recording(o, at, caller), answer, o)
    requires DecideRecording(s, h, o, at, caller, answer).next == None
    ensures var u := Perform(s, DecideRecording(s, h, o, at, caller, answer).effect); StatusIs(u, o, Settled)
  {
  }
}
