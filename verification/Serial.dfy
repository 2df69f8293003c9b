/**
 * Serial runs: at most one activity per order at a time. Crashes, lost answers, late
 * confirmations and failing database statements stay possible. Then every status write
 * is legal, except that a handler may give up an order that is not in settlement.
 */
module Serial {
  import opened Types
  import opened OrderStates
  import opened ProductGate
  import opened SettlementLaws
  import opened Protocol
  import opened Safety
  import Ledger

  function SnapOrders(snaps: seq<Snap>): set<OrderId> {
    set i | 0 <= i < |snaps| :: snaps[i].order
  }

  /** The orders an activity is working on, or has read and still means to work on. */
  function Owns(pc: Pc): set<OrderId> {
    match pc
    case Settling(job, _) => {job.order}
    case Recording(o, _, caller) => if caller.Handler? then {o} else {o} + SnapOrders(caller.rest)
    case Paying(o, _, _) => {o}
    case Recovering(at) => if at.FindStuck? then {} else {at.snap.order} + SnapOrders(at.rest)
    case Delivering(_, _) => {}
  }

  ghost predicate Free(s: State, o: OrderId) {
    forall h :: h in s.acts ==> o !in Owns(s.acts[h])
  }

  /** The points whose answer comes from the database. */
  predicate AsksDatabase(pc: Pc) {
    match pc
    case Settling(_, at) =>
      || at.ReadOrder? || at.MarkPending? || at.LoadShares? || at.FailLow?
      || at.Fail? || at.FindRow? || at.AdoptRow? || at.MarkEarly?
    case Recording(_, _, _) => true
    case Paying(_, _, _) => true
    case Recovering(at) => !at.AskMarker? && !at.AskTx? && !at.AskAgain?
    case Delivering(_, _) => true
  }

  ghost predicate Admits(s: State, action: Action) {
    match action
    case Webhook(o, _) => Free(s, o)
    case Dispatch(event) => event in s.payments ==> Free(s, s.payments[event].order)
    case Act(h, answer) =>
      h in s.acts && answer.Rows? && s.acts[h] == Recovering(FindStuck) ==>
        NoDuplicates(answer.ids) && forall i :: 0 <= i < |answer.ids| ==> Free(s, answer.ids[i])
    case _ => true
  }

  ghost function SerialStep(s: State, action: Action): State {
    if Admits(s, action) then Step(s, action) else s
  }

  ghost function SerialRun(s: State, actions: seq<Action>): State
    decreases |actions|
  {
    if actions == [] then s else SerialRun(SerialStep(s, actions[0]), actions[1..])
  }

  lemma {:induction false} SerialAppend(s: State, first: seq<Action>, second: seq<Action>)
    ensures SerialRun(s, first + second) == SerialRun(SerialRun(s, first), second)
    decreases |first|
  {
    if first == [] {
      assert first + second == second;
    } else {
      assert (first + second)[1..] == first[1..] + second;
      SerialAppend(SerialStep(s, first[0]), first[1..], second);
    }
  }

  /** A serial run, one action longer. */
  lemma Then(s: State, actions: seq<Action>, t: State, action: Action)
    requires SerialRun(s, actions) == t && Admits(t, action)
    ensures SerialRun(s, actions + [action]) == Step(t, action)
  {
    SerialAppend(s, actions, [action]);
    assert SerialRun(t, [action]) == SerialStep(t, action);
  }

  /** The last step of a serial run. */
  lemma SerialLast(s: State, actions: seq<Action>)
    requires actions != []
    ensures SerialRun(s, actions) == SerialStep(SerialRun(s, actions[..|actions| - 1]), actions[|actions| - 1])
  {
    var n := |actions| - 1;
    assert actions == actions[..n] + [actions[n]];
    SerialAppend(s, actions[..n], [actions[n]]);
    assert SerialRun(SerialRun(s, actions[..n]), [actions[n]]) == SerialStep(SerialRun(s, actions[..n]), actions[n]);
  }

  // ------------------------------------------------------------------- the invariant

  predicate StatusIs(s: State, o: OrderId, status: OrderStatus) {
    o in s.orders && s.orders[o].status == status
  }

  predicate Fresh(s: State, snap: Snap) {
    StatusIs(s, snap.order, snap.status) && IsStuck(snap.status)
  }

  /** The orders found stuck are as they were found, and are different orders. */
  predicate ListFresh(s: State, list: seq<Snap>) {
    && (forall i :: 0 <= i < |list| ==> Fresh(s, list[i]))
    && (forall i, j :: 0 <= i < j < |list| ==> list[i].order != list[j].order)
  }

  /** The orders still to recover, none of them the one at hand. */
  predicate RestFresh(s: State, o: OrderId, rest: seq<Snap>) {
    ListFresh(s, rest) && (forall i :: 0 <= i < |rest| ==> rest[i].order != o)
  }

  predicate Holds(s: State, o: OrderId, ref: PaymentRef) {
    o in s.orders && s.orders[o].paymentRef == Some(ref)
  }

  /** What an activity may rely on about its own orders. */
  predicate View(s: State, pc: Pc) {
    match pc
    case Settling(job, at) =>
      (match at
       case ReadOrder => true
       case MarkPending(_, _) => job.order in s.orders && CanTransition(s.orders[job.order].status, SettlementPending)
       case MarkEarly => StatusIs(s, job.order, SettlementPending) && job.order !in s.rows
       case Fail(_, last) => job.order in s.orders && (!last ==> StatusIs(s, job.order, SettlementPending))
       case _ => StatusIs(s, job.order, SettlementPending))
    case Recording(o, at, caller) =>
      if caller.Handler? then
        caller.job.order == o &&
        (match at
         case CreateRow(_, _, _, _) => StatusIs(s, o, SettlementPending) || (StatusIs(s, o, Settled) && o !in s.rows)
         case MarkSettled(_) => StatusIs(s, o, SettlementPending) || StatusIs(s, o, Settled)
         case Announce => true
         case _ => StatusIs(s, o, Settled) && o !in s.rows)
      else
        caller.snap.order == o && RestFresh(s, o, caller.rest) && (at.Announce? || StatusIs(s, o, SettlementPending))
    case Paying(o, ref, at) =>
      (match at
       case LoadOrder => !Holds(s, o, ref)
       case FindWallet(seen) => StatusIs(s, o, seen.status) && !Holds(s, o, ref)
       case ClaimRef(target, _) => o in s.orders && CanTransition(s.orders[o].status, target) && !Holds(s, o, ref)
       case _ => true)
    case Recovering(at) =>
      at.FindStuck? ||
      (RestFresh(s, at.snap.order, at.rest) &&
       (at.Reemit? || at.ReemitRolledBack? || StatusIs(s, at.snap.order, SettlementPending)))
    case Delivering(_, _) => true
  }

  ghost predicate Exclusive(s: State) {
    forall h, k :: h in s.acts && k in s.acts && h != k ==> Owns(s.acts[h]) !! Owns(s.acts[k])
  }

  ghost predicate Orderly(s: State) {
    && Exclusive(s)
    && (forall h :: h in s.acts ==> h < s.next && View(s, s.acts[h]))
  }

  // ------------------------------------------------------------------ locality of views

  /** The step from `s` to `t` did not change status, reference or row of the orders in `own`. */
  predicate Unmoved(s: State, t: State, own: set<OrderId>) {
    forall o :: o in own ==>
      && (o in s.orders ==>
            && o in t.orders && t.orders[o].status == s.orders[o].status
            && t.orders[o].paymentRef == s.orders[o].paymentRef)
      && (o in t.orders && o !in s.orders ==> t.orders[o].paymentRef == None)
      && (o in t.rows <==> o in s.rows)
  }

  lemma ViewStable(s: State, t: State, pc: Pc)
    requires View(s, pc) && Unmoved(s, t, Owns(pc))
    ensures View(t, pc)
  {
    match pc {
      case Settling(job, at) => assert job.order in Owns(pc);
      case Recording(o, at, caller) =>
        assert o in Owns(pc);
        if !caller.Handler? {
          RestStable(s, t, o, caller.rest);
        }
      case Paying(o, ref, at) => assert o in Owns(pc);
      case Recovering(at) =>
        if !at.FindStuck? {
          assert at.snap.order in Owns(pc);
          RestStable(s, t, at.snap.order, at.rest);
        }
      case Delivering(event, at) =>
    }
  }

  lemma RestStable(s: State, t: State, o: OrderId, rest: seq<Snap>)
    requires RestFresh(s, o, rest) && Unmoved(s, t, SnapOrders(rest))
    ensures RestFresh(t, o, rest)
  {
    forall i | 0 <= i < |rest| ensures Fresh(t, rest[i]) {
      assert rest[i].order in SnapOrders(rest);
      assert Fresh(s, rest[i]);
    }
  }

  // ----------------------------------------------------------------------- legality

  /** The order whose status or row an effect changes. */
  function Target(effect: Effect): set<OrderId> {
    match effect
    case Write(o, _, _) => {o}
    case Claim(o, _, _) => {o}
    case Insert(o, _) => {o}
    case _ => {}
  }

  /** The write is allowed by the transition table or leaves the status unchanged. */
  predicate LegalEffect(s: State, effect: Effect) {
    match effect
    case Write(o, status, _) =>
      o in s.orders && (status == s.orders[o].status || CanTransition(s.orders[o].status, status))
    case Claim(o, status, _) =>
      o in s.orders && (status == s.orders[o].status || CanTransition(s.orders[o].status, status))
    case _ => true
  }

  lemma PerformMoves(s: State, effect: Effect, own: set<OrderId>)
    requires own !! Target(effect)
    ensures Unmoved(s, Perform(s, effect), own)
  {
    match effect {
      case Write(o, _, _) =>
      case Claim(o, _, _) =>
      case Insert(o, _) =>
      case _ =>
    }
  }

  /** The point writes SETTLEMENT_FAILED for a handler that gives its order up. */
  predicate GivesUp(pc: Pc) {
    (pc.Settling? && (pc.settle.Fail? || pc.settle.FailLow?)) || (pc.Recording? && pc.record.FailUnshared?)
  }

  function GivenUp(pc: Pc): OrderId
    requires GivesUp(pc)
  {
    if pc.Settling? then pc.job.order else pc.order
  }

  /** The order that is given up is neither in settlement nor failed already. */
  predicate NotInSettlement(s: State, o: OrderId) {
    !StatusIs(s, o, SettlementPending) && !StatusIs(s, o, SettlementFailed)
  }

  /** The statement gives up an order that is not in settlement. */
  predicate Spoils(s: State, pc: Pc, answer: Answer) {
    GivesUp(pc) && answer != Throw && NotInSettlement(s, GivenUp(pc))
  }

  /** One step of an activity that respects the table unless it spoils, its own orders and its next view. */
  ghost predicate Proper(s: State, pc: Pc, answer: Answer, move: Move) {
    && (LegalEffect(s, move.effect) <==> !Spoils(s, pc, answer))
    && Target(move.effect) <= Owns(pc)
    && (move.next.Some? ==> View(Perform(s, move.effect), move.next.value))
  }

  /** Where the orders an activity owns next come from. */
  ghost predicate Inherits(pc: Pc, move: Move) {
    move.next.Some? ==> Owns(move.next.value) <= Owns(pc)
  }

  lemma SettlingProper(s: State, job: Payment, at: SettlePc, answer: Answer)
    requires Safe(s) && SettleOk(s, job, at) && View(s, Settling(job, at))
    ensures var move := DecideSettling(s, job, at, answer);
      Proper(s, Settling(job, at), answer, move) && Inherits(Settling(job, at), move)
  {
    if at.ReadOrder? || at.MarkPending? || at.LoadShares? {
      StartingProper(s, job, at, answer);
    } else if at.Fail? || at.FindRow? || at.AdoptRow? || at.MarkEarly? {
      ConcludingProper(s, job, at, answer);
    } else {
      InvokingProper(s, job, at, answer);
    }
  }

  lemma StartingProper(s: State, job: Payment, at: SettlePc, answer: Answer)
    requires Priced(s, job.order, job.cents) && View(s, Settling(job, at))
    requires at.ReadOrder? || at.MarkPending? || at.LoadShares?
    ensures var move := DecideSettling(s, job, at, answer);
      Proper(s, Settling(job, at), answer, move) && Inherits(Settling(job, at), move)
  {
  }

  lemma InvokingProper(s: State, job: Payment, at: SettlePc, answer: Answer)
    requires Priced(s, job.order, job.cents) && View(s, Settling(job, at))
    requires at.CheckTrustlines? || at.ProbeMarker? || at.CheckFloat? || at.FailLow?
          || at.GetAccount? || at.Simulate? || at.Send? || at.Poll?
    ensures var move := DecideSettling(s, job, at, answer);
      Proper(s, Settling(job, at), answer, move) && Inherits(Settling(job, at), move)
  {
  }

  lemma ConcludingProper(s: State, job: Payment, at: SettlePc, answer: Answer)
    requires Priced(s, job.order, job.cents) && View(s, Settling(job, at))
    requires at.Fail? || at.FindRow? || at.AdoptRow? || at.MarkEarly?
    ensures var move := DecideSettling(s, job, at, answer);
      Proper(s, Settling(job, at), answer, move) && Inherits(Settling(job, at), move)
  {
  }

  lemma NextStuckProper(s: State, rest: seq<Snap>)
    requires ListFresh(s, rest)
    ensures NextStuck(rest).Some? ==> View(s, NextStuck(rest).value) && Owns(NextStuck(rest).value) <= SnapOrders(rest)
  {
    if rest != [] {
      assert Fresh(s, rest[0]);
      assert RestFresh(s, rest[0].order, rest[1..]) by {
        forall i | 0 <= i < |rest[1..]| ensures Fresh(s, rest[1..][i]) && rest[1..][i].order != rest[0].order {
          assert rest[1..][i] == rest[i + 1];
        }
      }
      forall o | o in SnapOrders(rest[1..]) ensures o in SnapOrders(rest) {
        var i :| 0 <= i < |rest[1..]| && rest[1..][i].order == o;
        assert rest[i + 1].order == o;
      }
      assert rest[0].order in SnapOrders(rest);
    }
  }

  /** After writing order `o`, an activity that leaves the rest of its orders alone goes on properly. */
  lemma RestAfter(s: State, effect: Effect, o: OrderId, rest: seq<Snap>)
    requires RestFresh(s, o, rest) && Target(effect) <= {o}
    ensures RestFresh(Perform(s, effect), o, rest)
    ensures var next := NextStuck(rest);
      next.Some? ==> View(Perform(s, effect), next.value) && Owns(next.value) <= SnapOrders(rest)
  {
    forall p | p in SnapOrders(rest) ensures p != o {
      var i :| 0 <= i < |rest| && rest[i].order == p;
    }
    PerformMoves(s, effect, SnapOrders(rest));
    RestStable(s, Perform(s, effect), o, rest);
    NextStuckProper(Perform(s, effect), rest);
  }

  lemma RecordingProper(s: State, h: nat, o: OrderId, at: RecordPc, caller: Caller, answer: Answer)
    requires o in s.orders && View(s, Recording(o, at, caller))
    ensures var pc := Recording(o, at, caller); var move := DecideRecording(s, h, o, at, caller, answer);
      Proper(s, pc, answer, move) && Inherits(pc, move)
  {
    var move := DecideRecording(s, h, o, at, caller, answer);
    if caller.Handler? {
      HandlerRecordingProper(s, h, o, at, caller, answer);
    } else {
      RestAfter(s, move.effect, o, caller.rest);
      RecoveryRecordingProper(s, h, o, at, caller, answer);
    }
  }

  lemma HandlerRecordingProper(s: State, h: nat, o: OrderId, at: RecordPc, caller: Caller, answer: Answer)
    requires o in s.orders && View(s, Recording(o, at, caller))
    requires caller.Handler?
    ensures var pc := Recording(o, at, caller); var move := DecideRecording(s, h, o, at, caller, answer);
      Proper(s, pc, answer, move) && Inherits(pc, move)
  {
  }

  lemma RecoveryRecordingProper(s: State, h: nat, o: OrderId, at: RecordPc, caller: Caller, answer: Answer)
    requires o in s.orders && View(s, Recording(o, at, caller))
    requires !caller.Handler?
    requires var t := Perform(s, DecideRecording(s, h, o, at, caller, answer).effect);
      && RestFresh(t, o, caller.rest)
      && (NextStuck(caller.rest).Some? ==>
            View(t, NextStuck(caller.rest).value) && Owns(NextStuck(caller.rest).value) <= SnapOrders(caller.rest))
    ensures var pc := Recording(o, at, caller); var move := DecideRecording(s, h, o, at, caller, answer);
      Proper(s, pc, answer, move) && Inherits(pc, move)
  {
  }

  lemma PayingProper(s: State, o: OrderId, ref: PaymentRef, at: PayPc, answer: Answer)
    requires View(s, Paying(o, ref, at))
    ensures var move := DecidePaying(s, o, ref, at, answer);
      Proper(s, Paying(o, ref, at), answer, move) && Inherits(Paying(o, ref, at), move)
  {
  }

  lemma {:induction false} StuckFresh(s: State, ids: seq<OrderId>)
    requires NoDuplicates(ids)
    ensures ListFresh(s, Stuck(s, ids))
    ensures forall i :: 0 <= i < |Stuck(s, ids)| ==> Stuck(s, ids)[i].order in ids
  {
    if ids != [] {
      assert ids[0] !in ids[1..];
      StuckFresh(s, ids[1..]);
    }
  }

  lemma RecoveringProper(s: State, at: RecoverPc, answer: Answer)
    requires !at.FindStuck? && View(s, Recovering(at)) && at.snap.order in s.orders
    ensures var move := DecideRecovering(s, at, answer);
      Proper(s, Recovering(at), answer, move) && Inherits(Recovering(at), move)
  {
    var move := DecideRecovering(s, at, answer);
    RestAfter(s, move.effect, at.snap.order, at.rest);
  }

  // ------------------------------------------------------------------------- steps

  /** An activity that moves properly within its own orders keeps the others' views. */
  lemma MoveOrderly(s: State, h: nat, move: Move)
    requires Orderly(s) && h in s.acts
    requires Target(move.effect) <= Owns(s.acts[h])
    requires move.next.Some? ==> View(Perform(s, move.effect), move.next.value)
    requires move.next.Some? ==> forall k :: k in s.acts && k != h ==> Owns(s.acts[k]) !! Owns(move.next.value)
    ensures Orderly(Continue(Perform(s, move.effect), h, move.next))
  {
    var t := Perform(s, move.effect);
    PerformShop(s, move.effect);
    forall k | k in s.acts && k != h ensures View(t, s.acts[k]) {
      PerformMoves(s, move.effect, Owns(s.acts[k]));
      ViewStable(s, t, s.acts[k]);
    }
    var u := Continue(t, h, move.next);
    ContinueOrderly(s, t, h, move.next);
  }

  lemma PerformShop(s: State, effect: Effect)
    ensures var t := Perform(s, effect);
      && t.acts == s.acts && t.products == s.products && s.next <= t.next
      && t.orders.Keys == s.orders.Keys
      && (forall o :: o in s.orders ==> t.orders[o].product == s.orders[o].product)
  {
    match effect {
      case Write(_, _, _) =>
      case Claim(_, _, _) =>
      case _ =>
    }
  }

  lemma ContinueOrderly(s: State, t: State, h: nat, next: Option<Pc>)
    requires Orderly(s) && h in s.acts
    requires t.acts == s.acts && s.next <= t.next
    requires forall k :: k in s.acts && k != h ==> View(t, s.acts[k])
    requires next.Some? ==>
               View(t, next.value) && forall k :: k in s.acts && k != h ==> Owns(s.acts[k]) !! Owns(next.value)
    ensures Orderly(Continue(t, h, next))
  {
    var u := Continue(t, h, next);
    forall k | k in u.acts ensures k < u.next && View(u, u.acts[k]) {
      ViewStable(t, u, u.acts[k]);
    }
  }

  lemma ActOrderly(s: State, h: nat, answer: Answer)
    requires Safe(s) && Orderly(s) && Admits(s, Act(h, answer))
    ensures Orderly(ActStep(s, h, answer))
    ensures h in s.acts && Truthful(s, s.acts[h], answer) ==>
              Proper(s, s.acts[h], answer, Decide(s, h, s.acts[h], answer))
  {
    if h in s.acts && Truthful(s, s.acts[h], answer) {
      var pc := s.acts[h];
      if pc == Recovering(FindStuck) {
        FindStuckOrderly(s, h, answer);
      } else {
        ActProper(s, h, answer);
      }
      MoveOrderly(s, h, Decide(s, h, pc, answer));
    }
  }

  lemma ActProper(s: State, h: nat, answer: Answer)
    requires Safe(s) && Orderly(s) && h in s.acts && s.acts[h] != Recovering(FindStuck)
    ensures var move := Decide(s, h, s.acts[h], answer);
      && Proper(s, s.acts[h], answer, move)
      && (move.next.Some? ==> forall k :: k in s.acts && k != h ==> Owns(s.acts[k]) !! Owns(move.next.value))
  {
    var pc := s.acts[h];
    var move := Decide(s, h, pc, answer);
    match pc {
      case Settling(job, at) => SettlingProper(s, job, at, answer);
      case Recording(o, at, caller) => RecordingProper(s, h, o, at, caller, answer);
      case Paying(o, ref, at) => PayingProper(s, o, ref, at, answer);
      case Recovering(at) => RecoveringProper(s, at, answer);
      case Delivering(event, at) =>
    }
    assert Inherits(pc, move);
    forall k | move.next.Some? && k in s.acts && k != h ensures Owns(s.acts[k]) !! Owns(move.next.value) {
      assert Owns(s.acts[k]) !! Owns(pc);
    }
  }

  lemma FindStuckOrderly(s: State, h: nat, answer: Answer)
    requires Orderly(s) && Admits(s, Act(h, answer)) && h in s.acts && s.acts[h] == Recovering(FindStuck)
    ensures var move := Decide(s, h, s.acts[h], answer);
      && Proper(s, s.acts[h], answer, move)
      && (move.next.Some? ==> forall k :: k in s.acts && k != h ==> Owns(s.acts[k]) !! Owns(move.next.value))
  {
    if answer.Rows? {
      var found := Stuck(s, answer.ids);
      StuckFresh(s, answer.ids);
      NextStuckProper(s, found);
      forall k, o | k in s.acts && o in SnapOrders(found) ensures o !in Owns(s.acts[k]) {
        var i :| 0 <= i < |found| && found[i].order == o;
        var j :| 0 <= j < |answer.ids| && answer.ids[j] == o;
        assert Free(s, answer.ids[j]);
      }
    }
  }

  /** Steps that change no recorded status, product or row and start no owner. */
  lemma QuietOrderly(s: State, t: State)
    requires Orderly(s)
    requires t.acts == s.acts && s.next <= t.next
    requires forall o :: o in s.orders ==> o in t.orders && t.orders[o] == s.orders[o]
    requires forall o :: o in t.orders && o !in s.orders ==> t.orders[o].paymentRef == None
    requires t.rows == s.rows
    ensures Orderly(t)
  {
    forall k | k in t.acts ensures k < t.next && View(t, t.acts[k]) {
      ViewStable(s, t, t.acts[k]);
    }
  }

  lemma StartOrderly(s: State, u: State, pc: Pc)
    requires Orderly(s)
    requires u.acts == s.acts && u.next == s.next && u.orders == s.orders && u.rows == s.rows
    requires View(s, pc) && forall h :: h in s.acts ==> Owns(s.acts[h]) !! Owns(pc)
    ensures Orderly(Start(u, pc))
  {
    var t := Start(u, pc);
    forall k | k in t.acts ensures k < t.next && View(t, t.acts[k]) {
      ViewStable(s, t, t.acts[k]);
    }
  }

  lemma IncludeOrderly(s: State, tx: nat, executed: bool)
    requires Orderly(s)
    ensures Orderly(IncludeStep(s, tx, executed))
  {
    var t := IncludeStep(s, tx, executed);
    assert t.orders == s.orders && t.rows == s.rows && t.products == s.products && t.acts == s.acts && t.next == s.next;
    QuietOrderly(s, t);
  }

  lemma BusOrderly(s: State, action: Action)
    requires Orderly(s) && Admits(s, action)
    requires action.Webhook? || action.Dispatch? || action.Bootstrap? || action.Deliver?
    ensures Orderly(Step(s, action))
  {
    if action.Webhook? {
      StartOrderly(s, s, Paying(action.order, action.ref, FindRef));
    } else if action.Bootstrap? {
      StartOrderly(s, s, Recovering(FindStuck));
    } else if action.Dispatch? {
      if action.event in s.payments {
        StartOrderly(s, s.(payments := s.payments - {action.event}), Settling(s.payments[action.event], ReadOrder));
      }
    } else if action.event in s.undelivered {
      StartOrderly(s, s.(undelivered := s.undelivered - {action.event}), Delivering(action.event, LoadBuyer));
    }
  }

  lemma ShopOrderly(s: State, action: Action)
    requires Orderly(s) && Admits(s, action)
    requires action.PutProduct? || action.Connect? || action.Checkout?
    ensures Orderly(Step(s, action))
  {
    var t := Step(s, action);
    QuietOrderly(s, t);
  }

  lemma ElsewhereOrderly(s: State, action: Action)
    requires Orderly(s) && (action.Resume? || action.Outside? || action.Crash?)
    ensures Orderly(Step(s, action))
  {
    match action {
      case Resume(o) => QuietOrderly(s, Step(s, Resume(o)));
      case Outside(call) =>
        var t := s.(chain := Step(s, Outside(call)).chain);
        QuietOrderly(s, t);
      case _ =>
    }
  }

  lemma ShopKeepsActs(s: State, action: Action)
    requires action.PutProduct? || action.Connect? || action.Checkout? || action.Resume? || action.Outside?
    ensures Step(s, action).acts == s.acts
  {
    match action {
      case Resume(_) =>
      case Checkout(_, _, _) =>
      case _ =>
    }
  }

  lemma StepOrderly(s: State, action: Action)
    requires Safe(s) && Orderly(s) && Admits(s, action)
    ensures Orderly(Step(s, action))
  {
    if action.Act? {
      ActOrderly(s, action.actor, action.answer);
    } else if action.Include? {
      IncludeOrderly(s, action.tx, action.executed);
    } else if action.Webhook? || action.Dispatch? || action.Bootstrap? || action.Deliver? {
      BusOrderly(s, action);
    } else if action.PutProduct? || action.Connect? || action.Checkout? {
      ShopOrderly(s, action);
    } else {
      ElsewhereOrderly(s, action);
    }
  }

  // --------------------------------------------------------------- legal histories

  /** The statuses the backend writes. */
  predicate Backend(status: OrderStatus) {
    status == PaymentPending || status == PaymentReceived || status == WaitingWallet
    || status == SettlementPending || status == Settled || status == SettlementFailed
  }

  ghost predicate BackendOnly(s: State) {
    forall o :: o in s.orders ==> Backend(s.orders[o].status)
  }

  predicate LegalChange(s: State, t: State, o: OrderId) {
    o in s.orders && o in t.orders &&
    (t.orders[o].status == s.orders[o].status || CanTransition(s.orders[o].status, t.orders[o].status))
  }

  /** Only handlers change the status of an existing order. */
  lemma StatusFromHandlers(s: State, action: Action, o: OrderId)
    requires !action.Act? && o in s.orders
    ensures o in Step(s, action).orders && Step(s, action).orders[o] == s.orders[o]
  {
    if action.Include? {
      assert IncludeStep(s, action.tx, action.executed).orders == s.orders;
    } else {
      match action {
        case Checkout(_, _, _) =>
        case _ =>
      }
    }
  }

  /** The step is a statement that spoils order `o`. */
  ghost predicate SpoilStep(s: State, action: Action, o: OrderId) {
    && Admits(s, action) && action.Act? && action.actor in s.acts
    && Truthful(s, s.acts[action.actor], action.answer)
    && Spoils(s, s.acts[action.actor], action.answer)
    && GivenUp(s.acts[action.actor]) == o
  }

  /** A step changes an order's status along the table, unless it spoils the order. */
  lemma StepLegal(s: State, action: Action, o: OrderId)
    requires Safe(s) && Orderly(s) && Admits(s, action) && o in s.orders
    ensures LegalChange(s, Step(s, action), o) <==> !SpoilStep(s, action, o)
  {
    if action.Act? {
      var h, answer := action.actor, action.answer;
      if h in s.acts && Truthful(s, s.acts[h], answer) {
        ActOrderly(s, h, answer);
        EffectLegal(s, h, s.acts[h], answer, Decide(s, h, s.acts[h], answer), o);
      }
    } else {
      StatusFromHandlers(s, action, o);
    }
  }

  lemma EffectLegal(s: State, h: nat, pc: Pc, answer: Answer, move: Move, o: OrderId)
    requires o in s.orders && move == Decide(s, h, pc, answer)
    requires LegalEffect(s, move.effect) <==> !Spoils(s, pc, answer)
    ensures LegalChange(s, Continue(Perform(s, move.effect), h, move.next), o)
       <==> !(Spoils(s, pc, answer) && GivenUp(pc) == o)
  {
    if Spoils(s, pc, answer) {
      SpoiledEffect(s, h, pc, answer);
      SpoiledWrite(s, move.effect, o);
    } else {
      PerformLegal(s, move.effect, o);
    }
    assert Continue(Perform(s, move.effect), h, move.next).orders == Perform(s, move.effect).orders;
  }

  /** A spoiling statement writes SETTLEMENT_FAILED to the order it gives up. */
  lemma SpoiledEffect(s: State, h: nat, pc: Pc, answer: Answer)
    requires Spoils(s, pc, answer)
    ensures var effect := Decide(s, h, pc, answer).effect; effect.Write? && effect.order == GivenUp(pc)
  {
    match pc {
      case Settling(job, at) =>
      case Recording(o, at, caller) =>
    }
  }

  lemma SpoiledWrite(s: State, effect: Effect, o: OrderId)
    requires effect.Write? && o in s.orders && !LegalEffect(s, effect)
    ensures LegalChange(s, Perform(s, effect), o) <==> effect.order != o
  {
  }

  lemma PerformLegal(s: State, effect: Effect, o: OrderId)
    requires o in s.orders && LegalEffect(s, effect)
    ensures LegalChange(s, Perform(s, effect), o)
  {
    match effect {
      case Write(_, _, _) =>
      case Claim(_, _, _) =>
      case _ =>
    }
  }

  predicate BackendEffect(effect: Effect) {
    (effect.Write? || effect.Claim?) ==> Backend(effect.status)
  }

  lemma DecideBackend(s: State, h: nat, pc: Pc, answer: Answer)
    requires Local(s, h, pc)
    ensures BackendEffect(Decide(s, h, pc, answer).effect)
  {
    match pc {
      case Settling(job, at) => SettlingBackend(s, job, at, answer);
      case Recording(o, at, caller) =>
      case Paying(o, ref, at) =>
      case Recovering(at) =>
      case Delivering(event, at) =>
    }
  }

  lemma SettlingBackend(s: State, job: Payment, at: SettlePc, answer: Answer)
    ensures BackendEffect(DecideSettling(s, job, at, answer).effect)
  {
  }

  lemma PerformBackend(s: State, h: nat, move: Move)
    requires BackendOnly(s) && BackendEffect(move.effect)
    ensures BackendOnly(Continue(Perform(s, move.effect), h, move.next))
  {
    var t := Perform(s, move.effect);
    EffectBackend(s, move.effect);
    assert Continue(t, h, move.next).orders == t.orders;
  }

  lemma EffectBackend(s: State, effect: Effect)
    requires BackendOnly(s) && BackendEffect(effect)
    ensures BackendOnly(Perform(s, effect))
  {
    match effect {
      case Write(_, _, _) =>
      case Claim(_, _, _) =>
      case _ =>
    }
  }

  lemma StepBackend(s: State, action: Action)
    requires Safe(s) && BackendOnly(s)
    ensures BackendOnly(Step(s, action))
  {
    if action.Act? {
      var h, answer := action.actor, action.answer;
      if h in s.acts {
        DecideBackend(s, h, s.acts[h], answer);
        PerformBackend(s, h, Decide(s, h, s.acts[h], answer));
      }
    } else {
      var t := Step(s, action);
      forall o | o in t.orders ensures Backend(t.orders[o].status) {
        if o in s.orders {
          StatusFromHandlers(s, action, o);
        } else {
          NewOrder(s, action, o);
        }
      }
    }
  }

  lemma NewOrder(s: State, action: Action, o: OrderId)
    requires !action.Act?
    ensures o !in s.orders && o in Step(s, action).orders ==> Step(s, action).orders[o].status == PaymentPending
  {
    if action.Include? {
      assert IncludeStep(s, action.tx, action.executed).orders == s.orders;
    } else {
      match action {
        case Checkout(_, _, _) =>
        case _ =>
      }
    }
  }

  /** The statuses an order goes through along a serial run, one entry per step. */
  ghost function StatusHistory(s: State, actions: seq<Action>, o: OrderId): seq<OrderStatus>
    decreases |actions|
  {
    (if o in s.orders then [s.orders[o].status] else [])
    + if actions == [] then [] else StatusHistory(SerialStep(s, actions[0]), actions[1..], o)
  }

  ghost predicate SerialInvariant(s: State, genesis: Ledger.Accounts) {
    Invariant(s, genesis) && Orderly(s) && BackendOnly(s)
  }

  lemma SerialStepKeeps(s: State, action: Action, genesis: Ledger.Accounts)
    requires SerialInvariant(s, genesis)
    ensures SerialInvariant(SerialStep(s, action), genesis)
  {
    if Admits(s, action) {
      StepKeeps(s, action, genesis);
      StepOrderly(s, action);
      StepBackend(s, action);
    }
  }

  lemma {:induction false} SerialRunKeeps(s: State, actions: seq<Action>, genesis: Ledger.Accounts)
    requires SerialInvariant(s, genesis)
    ensures SerialInvariant(SerialRun(s, actions), genesis)
    decreases |actions|
  {
    if actions != [] {
      SerialStepKeeps(s, actions[0], genesis);
      SerialRunKeeps(SerialStep(s, actions[0]), actions[1..], genesis);
    }
  }

  /** Some statement of the run spoils the order. */
  ghost predicate EverSpoiled(s: State, actions: seq<Action>, o: OrderId)
    decreases |actions|
  {
    actions != [] && (SpoilStep(s, actions[0], o) || EverSpoiled(SerialStep(s, actions[0]), actions[1..], o))
  }

  /** The history is legal exactly when nothing spoils the order, and starts where the order does. */
  ghost predicate HistoryFits(s: State, actions: seq<Action>, o: OrderId) {
    var h := StatusHistory(s, actions, o);
    && (Legal(h) <==> !EverSpoiled(s, actions, o))
    && (forall i :: 0 <= i < |h| ==> Backend(h[i]))
    && (o in s.orders ==> h != [] && h[0] == s.orders[o].status)
    && (o !in s.orders && h != [] ==> h[0] == PaymentPending)
  }

  lemma {:induction false} HistoryIsLegal(s: State, actions: seq<Action>, genesis: Ledger.Accounts, o: OrderId)
    requires SerialInvariant(s, genesis)
    ensures HistoryFits(s, actions, o)
    decreases |actions|
  {
    if actions == [] {
      EmptyHistoryFits(s, o);
    } else {
      SerialStepKeeps(s, actions[0], genesis);
      HistoryIsLegal(SerialStep(s, actions[0]), actions[1..], genesis, o);
      if o in s.orders {
        SerialStepLegal(s, actions[0], o);
        assert Backend(s.orders[o].status);
        HistoryGrows(s, actions, o);
      } else {
        UnknownOrder(s, actions[0], o);
        HistoryWaits(s, actions, o);
      }
    }
  }

  lemma EmptyHistoryFits(s: State, o: OrderId)
    requires BackendOnly(s)
    ensures HistoryFits(s, [], o)
  {
    assert StatusHistory(s, [], o) == if o in s.orders then [s.orders[o].status] else [];
  }

  lemma HistoryGrows(s: State, actions: seq<Action>, o: OrderId)
    requires actions != [] && o in s.orders && Backend(s.orders[o].status)
    requires HistoryFits(SerialStep(s, actions[0]), actions[1..], o)
    requires var t := SerialStep(s, actions[0]);
      o in t.orders && (LegalChange(s, t, o) <==> !SpoilStep(s, actions[0], o))
    ensures HistoryFits(s, actions, o)
  {
    var rest := StatusHistory(SerialStep(s, actions[0]), actions[1..], o);
    assert StatusHistory(s, actions, o) == [s.orders[o].status] + rest;
    LegalCons(s.orders[o].status, rest);
  }

  lemma HistoryWaits(s: State, actions: seq<Action>, o: OrderId)
    requires actions != [] && o !in s.orders && !SpoilStep(s, actions[0], o)
    requires HistoryFits(SerialStep(s, actions[0]), actions[1..], o)
    requires var t := SerialStep(s, actions[0]); o in t.orders ==> t.orders[o].status == PaymentPending
    ensures HistoryFits(s, actions, o)
  {
    assert StatusHistory(s, actions, o) == StatusHistory(SerialStep(s, actions[0]), actions[1..], o);
  }

  lemma UnknownOrder(s: State, action: Action, o: OrderId)
    requires Safe(s) && o !in s.orders
    ensures !SpoilStep(s, action, o)
    ensures var t := SerialStep(s, action); o in t.orders ==> t.orders[o].status == PaymentPending
  {
    UnknownIsNotSpoiled(s, action, o);
    if o in SerialStep(s, action).orders {
      FirstStatus(s, action, o);
    }
  }

  lemma SerialStepLegal(s: State, action: Action, o: OrderId)
    requires Safe(s) && Orderly(s) && o in s.orders
    ensures var t := SerialStep(s, action);
      o in t.orders && (LegalChange(s, t, o) <==> !SpoilStep(s, action, o))
  {
    if Admits(s, action) {
      StepLegal(s, action, o);
      OrdersStay(s, action, o);
    }
  }

  lemma OrdersStay(s: State, action: Action, o: OrderId)
    requires o in s.orders
    ensures o in Step(s, action).orders
  {
    if action.Act? {
      var h, answer := action.actor, action.answer;
      if h in s.acts {
        PerformShop(s, Decide(s, h, s.acts[h], answer).effect);
      }
    } else {
      StatusFromHandlers(s, action, o);
    }
  }

  lemma UnknownIsNotSpoiled(s: State, action: Action, o: OrderId)
    requires Safe(s) && o !in s.orders
    ensures !SpoilStep(s, action, o)
  {
    if action.Act? && action.actor in s.acts {
      assert Local(s, action.actor, s.acts[action.actor]);
    }
  }

  lemma FirstStatus(s: State, action: Action, o: OrderId)
    requires o !in s.orders && o in SerialStep(s, action).orders
    ensures SerialStep(s, action).orders[o].status == PaymentPending
  {
    if action.Act? {
      var h, answer := action.actor, action.answer;
      if h in s.acts && Truthful(s, s.acts[h], answer) {
        PerformShop(s, Decide(s, h, s.acts[h], answer).effect);
      }
    } else {
      NewOrder(s, action, o);
    }
  }

  lemma LegalCons(status: OrderStatus, rest: seq<OrderStatus>)
    requires rest != []
    ensures Legal([status] + rest) <==> Legal(rest) && (rest[0] == status || CanTransition(status, rest[0]))
  {
    var h := [status] + rest;
    if Legal(rest) && (rest[0] == status || CanTransition(status, rest[0])) {
      forall i | 0 <= i < |h| - 1 ensures h[i] == h[i + 1] || CanTransition(h[i], h[i + 1]) {
        if i > 0 {
          assert h[i] == rest[i - 1] && h[i + 1] == rest[i - 1 + 1];
        }
      }
    }
    if Legal(h) {
      assert h[0] == h[0 + 1] || CanTransition(h[0], h[0 + 1]);
      forall i | 0 <= i < |rest| - 1 ensures rest[i] == rest[i + 1] || CanTransition(rest[i], rest[i + 1]) {
        assert h[i + 1] == rest[i] && h[i + 1 + 1] == rest[i + 1];
      }
    }
  }

  /** The longest way on among the statuses the backend writes. */
  function BackendRank(status: OrderStatus): nat {
    match status
    case PaymentPending => 4
    case PaymentReceived => 3
    case WaitingWallet => 2
    case SettlementPending => 1
    case _ => 0
  }

  lemma {:induction false} BackendChanges(history: seq<OrderStatus>)
    requires history != [] && Legal(history)
    requires forall i :: 0 <= i < |history| ==> Backend(history[i])
    ensures Changes(history) <= BackendRank(history[0]) + 3 * Rollbacks(history)
  {
    if |history| >= 2 {
      var rest := history[1..];
      assert forall i :: 0 <= i < |rest| ==> rest[i] == history[i + 1];
      assert Legal(rest) by {
        forall i | 0 <= i < |rest| - 1 ensures rest[i] == rest[i + 1] || CanTransition(rest[i], rest[i + 1]) {
          assert rest[i] == history[i + 1] && rest[i + 1] == history[i + 1 + 1];
        }
      }
      assert history[0] == history[0 + 1] || CanTransition(history[0], history[0 + 1]);
      BackendChanges(rest);
    }
  }

  lemma InitSerial(s: State, genesis: Ledger.Accounts)
    requires Init(s, genesis)
    ensures SerialInvariant(s, genesis)
  {
    InitInvariant(s, genesis);
  }

  /**
   * Serial runs, with crashes and failing database statements: the status history of an
   * order is legal exactly when no handler gave the order up while it was neither
   * SETTLEMENT_PENDING nor SETTLEMENT_FAILED; and a legal history that goes back from
   * SETTLEMENT_PENDING to PAYMENT_RECEIVED r times changes status at most 4 + 3r times
   * (the table alone allows 8 + 3r).
   */
  lemma StatusWritesAreLegal(s: State, actions: seq<Action>, genesis: Ledger.Accounts, o: OrderId)
    requires Init(s, genesis)
    ensures var h := StatusHistory(s, actions, o);
      && (Legal(h) <==> !EverSpoiled(s, actions, o))
      && (Legal(h) ==> Changes(h) <= 4 + 3 * Rollbacks(h))
      && (h != [] ==> h[0] == PaymentPending)
  {
    InitSerial(s, genesis);
    HistoryIsLegal(s, actions, genesis, o);
    var h := StatusHistory(s, actions, o);
    if h != [] && Legal(h) {
      BackendChanges(h);
    }
  }
}
