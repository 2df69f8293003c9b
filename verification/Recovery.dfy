/**
 * The startup recovery pass, statement by statement: every order found stuck is
 * re-emitted, restored, failed, rolled back or left, as what the pass is told about it
 * says, and the pass reports which.
 */
module Recovery {
  import opened Types
  import opened OrderStates
  import opened Protocol
  import opened Safety
  import opened Backend
  import opened Handlers
  import Serial

  /** What recovery did with one order. */
  datatype Fate = Reemitted | Adopted | Restored | Emptied | MarkedFailed | RolledBack | Left

  /** `true` is what the pass counts as recovered. */
  predicate IsRecovered(fate: Fate) {
    fate != MarkedFailed && fate != Left
  }

  /** The hash a restored row is stored under. */
  function HashFor(snap: Snap): Hash {
    if snap.txHash.Some? then snap.txHash.value else Placeholder(snap.order)
  }

  // --------------------------------------------------------------- what became of an order

  /** How the order's records changed. */
  ghost predicate FateHolds(told: seq<Line>, s: State, t: State, snap: Snap, h: nat, fate: Fate) {
    var o := snap.order;
    match fate
    case Reemitted => SameOrder(s, t, o) && SameRow(s, t, o)
    case Adopted => Updated(s, t, o, Settled, Keep) && o in s.rows
    case Restored => Rebuilt(told, s, t, o, HashFor(snap), h)
    case Emptied => Updated(s, t, o, SettlementFailed, Keep)
    case MarkedFailed => Updated(s, t, o, SettlementFailed, Keep)
    case RolledBack => Updated(s, t, o, PaymentReceived, Clear)
    case Left => SameOrder(s, t, o) && SameRow(s, t, o)
  }

  /** An order that was adopted or restored has a confirmed transaction, one that was failed a reverted one. */
  predicate FateFits(s: State, snap: Snap, fate: Fate) {
    && (fate == Adopted || fate == Restored || fate == Emptied ==> HasStatus(s, snap.txHash, Confirmed))
    && (fate == MarkedFailed ==> HasStatus(s, snap.txHash, Reverted))
  }

  /** What recovering one order promises about its records. */
  ghost predicate RecoveredOne(w: World, told: seq<Line>, s: State, t: State, snap: Snap, h: nat, fate: Fate) {
    && Kept(s, t, w.pinned - {snap.order}) && NoNewTx(s, t, w.pinned)
    && (Undisturbed(w, s, snap.order) ==> FateHolds(told, s, t, snap, h, fate))
  }

  lemma FateLonger(a: seq<Line>, b: seq<Line>, s: State, t: State, snap: Snap, h: nat, fate: Fate)
    requires FateHolds(a, s, t, snap, h, fate)
    ensures FateHolds(a + b, s, t, snap, h, fate)
  {
    if fate == Restored {
      var o := snap.order;
      var list :| SharesRead(a, o, s.orders[o].product, list)
               && Recorded(s, t, o, BaseTotal(s.orders[o].cents), list, HashFor(snap), false, h);
      SharesIn(a, b, o, s.orders[o].product, list);
    }
  }

  lemma FateEarlier(a: seq<Line>, b: seq<Line>, s: State, mid: State, t: State, snap: Snap, h: nat, fate: Fate)
    requires snap.order in s.orders && SameOrder(s, mid, snap.order) && SameRow(s, mid, snap.order)
    requires FateHolds(b, mid, t, snap, h, fate)
    ensures FateHolds(a + b, s, t, snap, h, fate)
  {
    if fate == Restored {
      RebuiltLater(a, b, s, mid, t, snap.order, HashFor(snap), h);
    }
  }

  lemma FateLater(told: seq<Line>, s: State, t: State, u: State, snap: Snap, h: nat, fate: Fate)
    requires snap.order in s.orders && snap.order in t.orders && FateHolds(told, s, t, snap, h, fate)
    requires SameOrder(t, u, snap.order) && SameRow(t, u, snap.order) && t.emitted <= u.emitted
    ensures FateHolds(told, s, u, snap, h, fate)
  {
    var o := snap.order;
    if fate == Restored {
      var list :| SharesRead(told, o, s.orders[o].product, list)
               && Recorded(s, t, o, BaseTotal(s.orders[o].cents), list, HashFor(snap), false, h);
      assert Recorded(s, u, o, BaseTotal(s.orders[o].cents), list, HashFor(snap), false, h);
    }
  }

  lemma OneAfterRead(w: World, a: seq<Line>, b: seq<Line>, s: State, mid: State, t: State, snap: Snap, h: nat,
                     fate: Fate)
    requires Kept(s, mid, w.pinned) && RecoveredOne(w, b, mid, t, snap, h, fate)
    ensures RecoveredOne(w, a + b, s, t, snap, h, fate)
  {
    KeptFewer(s, mid, w.pinned, w.pinned - {snap.order});
    KeptTransitive(s, mid, t, w.pinned - {snap.order});
    if Undisturbed(w, s, snap.order) {
      FateEarlier(a, b, s, mid, t, snap, h, fate);
    }
  }

  /** The order was updated, or the database failed and it was left. */
  lemma OneUpdate(w: World, told: seq<Line>, s: State, t: State, snap: Snap, h: nat, status: OrderStatus,
                  hash: HashWrite, ok: bool, fate: Fate)
    requires NoNewTx(s, t, w.pinned) && (w.reliable ==> ok)
    requires !ok ==> Kept(s, t, w.pinned)
    requires ok ==> Kept(s, t, w.pinned - {snap.order})
    requires ok && snap.order in w.pinned ==> Updated(s, t, snap.order, status, hash)
    requires ok ==> match fate
                    case Adopted => status == Settled && hash == Keep && snap.order in s.rows
                    case MarkedFailed => status == SettlementFailed && hash == Keep
                    case RolledBack => status == PaymentReceived && hash == Clear
                    case _ => false
    ensures ok ==> RecoveredOne(w, told, s, t, snap, h, fate)
    ensures !ok ==> RecoveredOne(w, told, s, t, snap, h, Left)
  {
    KeptFewer(s, t, if ok then w.pinned - {snap.order} else w.pinned, w.pinned - {snap.order});
  }

  /** The row was rebuilt, or nobody was there to be paid. */
  lemma OneRebuilt(w: World, told: seq<Line>, s: State, t: State, snap: Snap, h: nat, result: Rebuild)
    requires Rebuilds(w, told, s, t, h, snap.order, HashFor(snap), result)
    ensures result == RowCreated ==> RecoveredOne(w, told, s, t, snap, h, Restored)
    ensures result == NoShares || result == OrderMissing ==> RecoveredOne(w, told, s, t, snap, h, Emptied)
    ensures result == Threw ==> RecoveredOne(w, told, s, t, snap, h, Left)
  {
  }

  /** The row could not be created, and something else was done with the order, which was as before. */
  lemma OneAfterThrow(w: World, a: seq<Line>, b: seq<Line>, s: State, mid: State, t: State, snap: Snap, h: nat,
                      fate: Fate)
    requires Rebuilds(w, a, s, mid, h, snap.order, HashFor(snap), Threw) && RecoveredOne(w, b, mid, t, snap, h, fate)
    ensures RecoveredOne(w, a + b, s, t, snap, h, fate)
  {
    KeptTransitive(s, mid, t, w.pinned - {snap.order});
    if Undisturbed(w, s, snap.order) {
      FateEarlier(a, b, s, mid, t, snap, h, fate);
    }
  }

  // ----------------------------------------------------------- payments that were announced

  ghost predicate OnBus(s: State, payment: Payment) {
    exists e :: e in s.payments && s.payments[e] == payment
  }

  /** The payment was on the bus at some time since the run had this many steps. */
  ghost predicate Announced(tr: Trace, from: nat, payment: Payment) {
    exists k :: from <= k < |tr.trail| && OnBus(tr.trail[k], payment)
  }

  lemma AnnouncedNow(w: World, from: nat, payment: Payment)
    requires w.Valid() && from <= |w.log| && OnBus(w.st, payment)
    ensures Announced(w.Past(), from, payment)
  {
    assert w.trail[|w.log|] == w.st;
  }

  lemma AnnouncedOn(tr: Trace, later: Trace, from: nat, earlier: nat, payment: Payment)
    requires Continues(tr, later) && earlier <= from && Announced(tr, from, payment)
    ensures Announced(later, earlier, payment)
  {
    var k :| from <= k < |tr.trail| && OnBus(tr.trail[k], payment);
    SameTrail(tr, later, k);
  }

  /** An order that was re-emitted or rolled back had its payment announced. */
  ghost predicate Announces(tr: Trace, from: nat, snap: Snap, fate: Fate) {
    fate == Reemitted || fate == RolledBack ==> Announced(tr, from, Payment(snap.order, snap.cents))
  }

  lemma AnnouncesOn(tr: Trace, later: Trace, from: nat, earlier: nat, snap: Snap, fate: Fate)
    requires Continues(tr, later) && earlier <= from && Announces(tr, from, snap, fate)
    ensures Announces(later, earlier, snap, fate)
  {
    if fate == Reemitted || fate == RolledBack {
      AnnouncedOn(tr, later, from, earlier, Payment(snap.order, snap.cents));
    }
  }

  // ------------------------------------------------------------ what the pass was told

  ghost predicate Answered(told: seq<Line>, pc: Pc, answer: Answer) {
    exists line :: line in told && line.pc == pc && line.answer == answer
  }

  lemma AnsweredIn(a: seq<Line>, b: seq<Line>, pc: Pc, answer: Answer)
    ensures Answered(a, pc, answer) || Answered(b, pc, answer) ==> Answered(a + b, pc, answer)
  {
  }

  /** The chain reports no outcome: the transaction is pending, or unknown. */
  predicate NoOutcome(answer: Answer) {
    answer != Good && answer != Bad && answer != Throw
  }

  /** A paid order is announced again, unless its creator's wallet cannot be read. */
  predicate PaidFollows(w: World, fate: Fate) {
    fate == Reemitted || (fate == Left && !w.reliable)
  }

  /** A rebuilt order is restored or, if it has a row, goes the other way; with nobody to pay it may be emptied. */
  predicate RebuildFollows(w: World, s: State, o: OrderId, fate: Fate, otherwise: Fate) {
    Undisturbed(w, s, o) ==>
      || fate == (if o in s.rows then otherwise else Restored)
      || (fate == Emptied && !SellableProduct(s, s.orders[o].product))
  }

  /**
   * The fate of an order without a hash follows from what `is_settled` answered: a yes
   * restores it, unless it has a row; everything else fails it.
   */
  predicate UnhashedFollows(w: World, s: State, snap: Snap, fate: Fate, answer: Answer) {
    && (fate == Restored || fate == Emptied || fate == MarkedFailed || (fate == Left && !w.reliable))
    && (answer != Good ==> fate == MarkedFailed || fate == Left)
    && (answer == Good ==> RebuildFollows(w, s, snap.order, fate, MarkedFailed))
  }

  /** The fate of an order with a hash follows from the answers about its transaction. */
  predicate FateFollows(w: World, s: State, snap: Snap, fate: Fate, first: Answer, second: Answer) {
    var steady := Undisturbed(w, s, snap.order);
    match first
    case Good =>
      && (fate == Adopted || fate == Restored || fate == Emptied || fate == Left)
      && (steady ==> (fate == Adopted <==> snap.order in s.rows))
      && (steady && snap.order !in s.rows ==> RebuildFollows(w, s, snap.order, fate, Left))
    case Bad => fate == MarkedFailed || (fate == Left && !w.reliable)
    case Throw => fate == Left
    case _ =>
      match second
      case Good =>
        && (fate == Restored || fate == Emptied || fate == RolledBack || (fate == Left && !w.reliable))
        && RebuildFollows(w, s, snap.order, fate, RolledBack)
      case Bad => fate == MarkedFailed || ((fate == RolledBack || fate == Left) && !w.reliable)
      case _ => fate == RolledBack || (fate == Left && !w.reliable)
  }

  /** The fate of an order as it was found follows from what the pass was told about it. */
  ghost predicate FateTold(w: World, told: seq<Line>, s: State, snap: Snap, rest: seq<Snap>, fate: Fate) {
    if snap.status == PaymentReceived then PaidFollows(w, fate)
    else if snap.txHash.None? then
      exists answer ::
        Answered(told, Recovering(AskMarker(snap, rest)), answer) && UnhashedFollows(w, s, snap, fate, answer)
    else
      exists first, second ::
        && Answered(told, Recovering(AskTx(snap, rest)), first)
        && (NoOutcome(first) ==> Answered(told, Recovering(AskAgain(snap, rest)), second))
        && FateFollows(w, s, snap, fate, first, second)
  }

  /** The order, its row and what can be sold are as they were. */
  predicate SameCase(w: World, s: State, mid: State, o: OrderId) {
    Undisturbed(w, s, o) ==>
      && o in mid.orders && mid.orders[o] == s.orders[o] && (o in mid.rows <==> o in s.rows)
      && (SellableProduct(s, s.orders[o].product) ==> SellableProduct(mid, s.orders[o].product))
  }

  lemma KeptIsSameCase(w: World, s: State, mid: State, o: OrderId, pinned: set<OrderId>)
    requires Kept(s, mid, pinned) && (o in w.pinned ==> o in pinned)
    ensures SameCase(w, s, mid, o)
  {
  }

  lemma FollowsEarlier(w: World, s: State, mid: State, snap: Snap, fate: Fate, first: Answer, second: Answer)
    requires SameCase(w, s, mid, snap.order) && FateFollows(w, mid, snap, fate, first, second)
    ensures FateFollows(w, s, snap, fate, first, second)
  {
  }

  lemma UnhashedEarlier(w: World, s: State, mid: State, snap: Snap, fate: Fate, answer: Answer)
    requires SameCase(w, s, mid, snap.order) && UnhashedFollows(w, mid, snap, fate, answer)
    ensures UnhashedFollows(w, s, snap, fate, answer)
  {
  }

  lemma FateToldEarlier(w: World, a: seq<Line>, b: seq<Line>, s: State, mid: State, snap: Snap, rest: seq<Snap>,
                        fate: Fate)
    requires SameCase(w, s, mid, snap.order) && FateTold(w, b, mid, snap, rest, fate)
    ensures FateTold(w, a + b, s, snap, rest, fate)
  {
    if snap.status != PaymentReceived && snap.txHash.None? {
      var answer :|
        Answered(b, Recovering(AskMarker(snap, rest)), answer) && UnhashedFollows(w, mid, snap, fate, answer);
      AnsweredIn(a, b, Recovering(AskMarker(snap, rest)), answer);
      UnhashedEarlier(w, s, mid, snap, fate, answer);
    } else if snap.status != PaymentReceived {
      var first, second :| Answered(b, Recovering(AskTx(snap, rest)), first)
                        && (NoOutcome(first) ==> Answered(b, Recovering(AskAgain(snap, rest)), second))
                        && FateFollows(w, mid, snap, fate, first, second);
      AnsweredIn(a, b, Recovering(AskTx(snap, rest)), first);
      AnsweredIn(a, b, Recovering(AskAgain(snap, rest)), second);
      FollowsEarlier(w, s, mid, snap, fate, first, second);
    }
  }

  lemma FateToldLonger(w: World, a: seq<Line>, b: seq<Line>, s: State, snap: Snap, rest: seq<Snap>, fate: Fate)
    requires FateTold(w, a, s, snap, rest, fate)
    ensures FateTold(w, a + b, s, snap, rest, fate)
  {
    if snap.status != PaymentReceived && snap.txHash.None? {
      var answer :| Answered(a, Recovering(AskMarker(snap, rest)), answer) && UnhashedFollows(w, s, snap, fate, answer);
      AnsweredIn(a, b, Recovering(AskMarker(snap, rest)), answer);
    } else if snap.status != PaymentReceived {
      var first, second :| Answered(a, Recovering(AskTx(snap, rest)), first)
                        && (NoOutcome(first) ==> Answered(a, Recovering(AskAgain(snap, rest)), second))
                        && FateFollows(w, s, snap, fate, first, second);
      AnsweredIn(a, b, Recovering(AskTx(snap, rest)), first);
      AnsweredIn(a, b, Recovering(AskAgain(snap, rest)), second);
    }
  }

  // ------------------------------------------------------------------ orders without a hash

  method RecoverPaymentReceived(w: World, h: nat, snap: Snap, ghost rest: seq<Snap>)
    returns (fate: Fate, ghost told: seq<Line>)
    requires w.Valid() && w.At(h, Recovering(Reemit(snap, rest)))
    modifies w
    ensures w.Valid() && old(w.log) <= w.log && w.Reached(h, NextStuck(rest))
    ensures w.Told(h) == old(w.Told(h)) + told && RecoveredOne(w, told, old(w.st), w.st, snap, h, fate)
    ensures PaidFollows(w, fate) && Announces(w.Past(), |old(w.log)|, snap, fate)
  {
    ghost var start, line := w.st, Line(Recovering(FindStuck), Good, w.st);
    var ok;
    ok, line := w.EmitPayment(h, Payment(snap.order, snap.cents));
    told := [line];
    KeptFewer(start, w.st, w.pinned, w.pinned - {snap.order});
    fate := if ok then Reemitted else Left;
    if ok {
      AnnouncedNow(w, |old(w.log)|, Payment(snap.order, snap.cents));
    }
  }

  method MarkUnsettled(w: World, h: nat, snap: Snap, ghost rest: seq<Snap>) returns (fate: Fate, ghost told: seq<Line>)
    requires w.Valid() && w.At(h, Recovering(FailUnsettled(snap, rest)))
    modifies w
    ensures w.Valid() && old(w.log) <= w.log && w.Reached(h, NextStuck(rest))
    ensures w.Told(h) == old(w.Told(h)) + told && RecoveredOne(w, told, old(w.st), w.st, snap, h, fate)
    ensures fate == MarkedFailed || (fate == Left && !w.reliable)
  {
    ghost var start, line := w.st, Line(Recovering(FindStuck), Good, w.st);
    var ok;
    ok, line := w.Update(h, snap.order, SettlementFailed, Keep);
    told := [line];
    OneUpdate(w, told, start, w.st, snap, h, SettlementFailed, Keep, ok, MarkedFailed);
    fate := if ok then MarkedFailed else Left;
  }

  method AskSettled(w: World, h: nat, snap: Snap, ghost rest: seq<Snap>) returns (answer: Answer, ghost told: seq<Line>)
    requires w.Valid() && w.At(h, Recovering(AskMarker(snap, rest)))
    modifies w
    ensures w.Valid() && old(w.log) <= w.log && Kept(old(w.st), w.st, w.pinned)
    ensures w.Told(h) == old(w.Told(h)) + told && Answered(told, Recovering(AskMarker(snap, rest)), answer)
    ensures w.Reached(h, if answer == Good
                         then Some(Recording(snap.order, ReloadOrder(Placeholder(snap.order)), ByMarker(snap, rest)))
                         else Some(Recovering(FailUnsettled(snap, rest))))
  {
    var seen;
    answer, seen := w.Ask(h);
    told := [Line(Recovering(AskMarker(snap, rest)), answer, seen)];
    assert told[0] in told;
  }

  /**
   * No hash: the chain is asked whether the order settled; an error counts as no. A yes
   * restores the order, if it can be; everything else fails it.
   */
  method RecoverUnhashed(w: World, h: nat, snap: Snap, ghost rest: seq<Snap>)
    returns (fate: Fate, answer: Answer, ghost told: seq<Line>)
    requires w.Valid() && w.At(h, Recovering(AskMarker(snap, rest))) && snap.txHash == None
    modifies w
    ensures w.Valid() && old(w.log) <= w.log && w.Reached(h, NextStuck(rest))
    ensures w.Told(h) == old(w.Told(h)) + told && RecoveredOne(w, told, old(w.st), w.st, snap, h, fate)
    ensures Answered(told, Recovering(AskMarker(snap, rest)), answer)
    ensures UnhashedFollows(w, old(w.st), snap, fate, answer)
  {
    ghost var start, before, more := w.st, w.Told(h), [];
    answer, told := AskSettled(w, h, snap, rest);
    ghost var asked := w.st;
    if answer == Good {
      fate, more := RestoreUnhashed(w, h, snap, rest);
    } else {
      fate, more := MarkUnsettled(w, h, snap, rest);
    }
    OneAfterRead(w, told, more, start, asked, w.st, snap, h, fate);
    KeptIsSameCase(w, start, asked, snap.order, w.pinned);
    UnhashedEarlier(w, start, asked, snap, fate, answer);
    AnsweredIn(told, more, Recovering(AskMarker(snap, rest)), answer);
    Onward(before, told, more);
    told := told + more;
  }

  method RestoreUnhashed(w: World, h: nat, snap: Snap, ghost rest: seq<Snap>)
    returns (fate: Fate, ghost told: seq<Line>)
    requires w.Valid() && snap.txHash == None
    requires w.At(h, Recording(snap.order, ReloadOrder(Placeholder(snap.order)), ByMarker(snap, rest)))
    modifies w
    ensures w.Valid() && old(w.log) <= w.log && w.Reached(h, NextStuck(rest))
    ensures w.Told(h) == old(w.Told(h)) + told && RecoveredOne(w, told, old(w.st), w.st, snap, h, fate)
    ensures UnhashedFollows(w, old(w.st), snap, fate, Good)
  {
    ghost var start, before, more := w.st, w.Told(h), [];
    var result;
    result, told := RecordRecoveredSettlement(w, h, snap.order, Placeholder(snap.order), ByMarker(snap, rest));
    ghost var rebuilt := w.st;
    OneRebuilt(w, told, start, rebuilt, snap, h, result);
    match result {
      case RowCreated => fate := Restored;
      case NoShares => fate := Emptied;
      case OrderMissing => fate := Emptied;
      case Threw =>
        fate, more := MarkUnsettled(w, h, snap, rest);
        OneAfterThrow(w, told, more, start, rebuilt, w.st, snap, h, fate);
        Onward(before, told, more);
        told := told + more;
    }
  }

  // --------------------------------------------------------------- orders with a hash

  /** The transaction succeeded: adopt the row there is, or restore it. */
  method RecoverConfirmed(w: World, h: nat, snap: Snap, ghost rest: seq<Snap>)
    returns (fate: Fate, ghost told: seq<Line>)
    requires w.Valid() && w.At(h, Recovering(FindSettlement(snap, rest))) && snap.txHash.Some?
    requires HasStatus(w.st, snap.txHash, Confirmed)
    modifies w
    ensures w.Valid() && old(w.log) <= w.log && w.Reached(h, NextStuck(rest))
    ensures w.Told(h) == old(w.Told(h)) + told && RecoveredOne(w, told, old(w.st), w.st, snap, h, fate)
    ensures FateFits(w.st, snap, fate) && FateFollows(w, old(w.st), snap, fate, Good, Absent)
  {
    ghost var start, before, early, more := w.st, w.Told(h), w.Past(), [];
    ghost var line := Line(Recovering(FindStuck), Good, w.st);
    var ok, found;
    ok, found, line := FindSettlementOf(w, h, snap, rest);
    ghost var asked := w.st;
    told := [line];
    if !ok {
      fate := Left;
      KeptFewer(start, w.st, w.pinned, w.pinned - {snap.order});
    } else {
      if found {
        fate, more := Adopt(w, h, snap, rest);
      } else {
        fate, more := RestoreConfirmed(w, h, snap, rest);
      }
      OneAfterRead(w, told, more, start, asked, w.st, snap, h, fate);
      KeptIsSameCase(w, start, asked, snap.order, w.pinned);
      FollowsEarlier(w, start, asked, snap, fate, Good, Absent);
      Onward(before, told, more);
      told := told + more;
    }
    w.OutcomeStays(early, snap.txHash, Confirmed);
  }

  method FindSettlementOf(w: World, h: nat, snap: Snap, ghost rest: seq<Snap>)
    returns (ok: bool, found: bool, ghost line: Line)
    requires w.Valid() && w.At(h, Recovering(FindSettlement(snap, rest))) && snap.txHash.Some?
    modifies w
    ensures w.Valid() && old(w.log) <= w.log && Kept(old(w.st), w.st, w.pinned)
    ensures w.Told(h) == old(w.Told(h)) + [line]
    ensures (w.reliable ==> ok) && (ok ==> (found <==> snap.order in w.st.rows))
    ensures w.Reached(h, if !ok then NextStuck(rest)
                         else if found then Some(Recovering(AdoptSettled(snap, rest)))
                         else Some(Recording(snap.order, ReloadOrder(snap.txHash.value), ByHash(snap, rest))))
  {
    var answer, seen := w.Ask(h);
    ok, line := answer != Throw, Line(Recovering(FindSettlement(snap, rest)), answer, seen);
    found := snap.order in seen.rows;
  }

  method Adopt(w: World, h: nat, snap: Snap, ghost rest: seq<Snap>) returns (fate: Fate, ghost told: seq<Line>)
    requires w.Valid() && w.At(h, Recovering(AdoptSettled(snap, rest))) && snap.order in w.st.rows
    modifies w
    ensures w.Valid() && old(w.log) <= w.log && w.Reached(h, NextStuck(rest))
    ensures w.Told(h) == old(w.Told(h)) + told && RecoveredOne(w, told, old(w.st), w.st, snap, h, fate)
    ensures FateFollows(w, old(w.st), snap, fate, Good, Absent)
  {
    ghost var start, line := w.st, Line(Recovering(FindStuck), Good, w.st);
    var ok;
    ok, line := w.Update(h, snap.order, Settled, Keep);
    told := [line];
    fate := if ok then Adopted else Left;
    OneUpdate(w, told, start, w.st, snap, h, Settled, Keep, ok, Adopted);
  }

  method RestoreConfirmed(w: World, h: nat, snap: Snap, ghost rest: seq<Snap>)
    returns (fate: Fate, ghost told: seq<Line>)
    requires w.Valid() && snap.txHash.Some? && snap.order !in w.st.rows
    requires w.At(h, Recording(snap.order, ReloadOrder(snap.txHash.value), ByHash(snap, rest)))
    modifies w
    ensures w.Valid() && old(w.log) <= w.log && w.Reached(h, NextStuck(rest))
    ensures w.Told(h) == old(w.Told(h)) + told && RecoveredOne(w, told, old(w.st), w.st, snap, h, fate)
    ensures FateFollows(w, old(w.st), snap, fate, Good, Absent)
  {
    ghost var start := w.st;
    var result;
    result, told := RecordRecoveredSettlement(w, h, snap.order, snap.txHash.value, ByHash(snap, rest));
    OneRebuilt(w, told, start, w.st, snap, h, result);
    fate := match result
      case RowCreated => Restored
      case NoShares => Emptied
      case OrderMissing => Emptied
      case Threw => Left;
  }

  method RecoverReverted(w: World, h: nat, snap: Snap, ghost rest: seq<Snap>)
    returns (fate: Fate, ghost told: seq<Line>)
    requires w.Valid() && w.At(h, Recovering(FailReverted(snap, rest))) && HasStatus(w.st, snap.txHash, Reverted)
    modifies w
    ensures w.Valid() && old(w.log) <= w.log && w.Reached(h, NextStuck(rest))
    ensures w.Told(h) == old(w.Told(h)) + told && RecoveredOne(w, told, old(w.st), w.st, snap, h, fate)
    ensures FateFits(w.st, snap, fate) && (fate == MarkedFailed || (fate == Left && !w.reliable))
  {
    ghost var start, early, line := w.st, w.Past(), Line(Recovering(FindStuck), Good, w.st);
    var ok;
    ok, line := w.Update(h, snap.order, SettlementFailed, Keep);
    told := [line];
    OneUpdate(w, told, start, w.st, snap, h, SettlementFailed, Keep, ok, MarkedFailed);
    fate := if ok then MarkedFailed else Left;
    w.OutcomeStays(early, snap.txHash, Reverted);
  }

  /** The transaction was not found twice, or the second look failed: start over. */
  method RollBack(w: World, h: nat, snap: Snap, ghost rest: seq<Snap>) returns (fate: Fate, ghost told: seq<Line>)
    requires w.Valid() && w.At(h, Recovering(Rollback(snap, rest)))
    modifies w
    ensures w.Valid() && old(w.log) <= w.log && w.Reached(h, NextStuck(rest))
    ensures w.Told(h) == old(w.Told(h)) + told && RecoveredOne(w, told, old(w.st), w.st, snap, h, fate)
    ensures fate == RolledBack || (fate == Left && !w.reliable)
    ensures Announces(w.Past(), |old(w.log)|, snap, fate)
  {
    ghost var start, before, line := w.st, w.Told(h), Line(Recovering(FindStuck), Good, w.st);
    var ok;
    ok, line := w.Update(h, snap.order, PaymentReceived, Clear);
    ghost var reset := w.st;
    told := [line];
    if !ok {
      fate := Left;
      KeptFewer(start, w.st, w.pinned, w.pinned - {snap.order});
      return;
    }
    ok, line := w.EmitPayment(h, Payment(snap.order, snap.cents));
    Onward(before, told, [line]);
    told := told + [line];
    fate := RolledBack;
    ResetAndEmitted(w, told, start, reset, w.st, snap, h);
    AnnouncedNow(w, |old(w.log)|, Payment(snap.order, snap.cents));
  }

  lemma ResetAndEmitted(w: World, told: seq<Line>, s: State, reset: State, t: State, snap: Snap, h: nat)
    requires Kept(s, reset, w.pinned - {snap.order}) && NoNewTx(s, reset, w.pinned) && Kept(reset, t, w.pinned)
    requires snap.order in w.pinned ==> Updated(s, reset, snap.order, PaymentReceived, Clear)
    ensures RecoveredOne(w, told, s, t, snap, h, RolledBack)
  {
    KeptFewer(reset, t, w.pinned, w.pinned - {snap.order});
    KeptTransitive(s, reset, t, w.pinned - {snap.order});
  }

  /** Where recovery goes with the first answer about a transaction. */
  function AfterAskTx(snap: Snap, rest: seq<Snap>, answer: Answer): Option<Pc> {
    match answer
    case Good => Some(Recovering(FindSettlement(snap, rest)))
    case Bad => Some(Recovering(FailReverted(snap, rest)))
    case Throw => NextStuck(rest)
    case _ => Some(Recovering(AskAgain(snap, rest)))
  }

  /** Where it goes with the second. */
  function AfterAskAgain(snap: Snap, rest: seq<Snap>, answer: Answer): Option<Pc>
    requires snap.txHash.Some?
  {
    match answer
    case Good => Some(Recording(snap.order, ReloadOrder(snap.txHash.value), ByRecheck(snap, rest)))
    case Bad => Some(Recovering(FailRechecked(snap, rest)))
    case _ => Some(Recovering(Rollback(snap, rest)))
  }

  /** A confirmed or failed transaction that was reported is one. */
  predicate TrueStatus(s: State, snap: Snap, answer: Answer) {
    && (answer == Good ==> HasStatus(s, snap.txHash, Confirmed))
    && (answer == Bad ==> HasStatus(s, snap.txHash, Reverted))
  }

  /** `getTransactionStatus`, the first time. */
  method AskFirst(w: World, h: nat, snap: Snap, ghost rest: seq<Snap>) returns (answer: Answer, ghost told: seq<Line>)
    requires w.Valid() && w.At(h, Recovering(AskTx(snap, rest)))
    modifies w
    ensures w.Valid() && old(w.log) <= w.log && Kept(old(w.st), w.st, w.pinned)
    ensures w.Told(h) == old(w.Told(h)) + told && Answered(told, Recovering(AskTx(snap, rest)), answer)
    ensures TrueStatus(w.st, snap, answer) && w.Reached(h, AfterAskTx(snap, rest, answer))
  {
    var seen;
    answer, seen := w.Ask(h);
    told := [Line(Recovering(AskTx(snap, rest)), answer, seen)];
    assert told[0] in told;
  }

  /** `getTransactionStatus`, the second time; an error counts as no outcome. */
  method AskSecond(w: World, h: nat, snap: Snap, ghost rest: seq<Snap>) returns (answer: Answer, ghost told: seq<Line>)
    requires w.Valid() && w.At(h, Recovering(AskAgain(snap, rest))) && snap.txHash.Some?
    modifies w
    ensures w.Valid() && old(w.log) <= w.log && Kept(old(w.st), w.st, w.pinned)
    ensures w.Told(h) == old(w.Told(h)) + told && Answered(told, Recovering(AskAgain(snap, rest)), answer)
    ensures TrueStatus(w.st, snap, answer) && w.Reached(h, AfterAskAgain(snap, rest, answer))
  {
    var seen;
    answer, seen := w.Ask(h);
    told := [Line(Recovering(AskAgain(snap, rest)), answer, seen)];
    assert told[0] in told;
  }

  /** What the answers about a transaction lead to, measured from here. */
  ghost predicate Acted(w: World, told: seq<Line>, s: State, t: State, snap: Snap, h: nat, fate: Fate, first: Answer,
                        second: Answer)
  {
    && RecoveredOne(w, told, s, t, snap, h, fate) && FateFits(t, snap, fate)
    && FateFollows(w, s, snap, fate, first, second)
  }

  lemma ActedAfterRead(w: World, a: seq<Line>, b: seq<Line>, s: State, mid: State, t: State, snap: Snap, h: nat,
                       fate: Fate, first: Answer, second: Answer)
    requires Kept(s, mid, w.pinned) && Acted(w, b, mid, t, snap, h, fate, first, second)
    ensures Acted(w, a + b, s, t, snap, h, fate, first, second)
  {
    OneAfterRead(w, a, b, s, mid, t, snap, h, fate);
    KeptIsSameCase(w, s, mid, snap.order, w.pinned);
    FollowsEarlier(w, s, mid, snap, fate, first, second);
  }

  method RestoreRechecked(w: World, h: nat, snap: Snap, ghost rest: seq<Snap>)
    returns (fate: Fate, ghost told: seq<Line>)
    requires w.Valid() && snap.txHash.Some? && HasStatus(w.st, snap.txHash, Confirmed)
    requires w.At(h, Recording(snap.order, ReloadOrder(snap.txHash.value), ByRecheck(snap, rest)))
    modifies w
    ensures w.Valid() && old(w.log) <= w.log && w.Reached(h, NextStuck(rest))
    ensures w.Told(h) == old(w.Told(h)) + told && Acted(w, told, old(w.st), w.st, snap, h, fate, Absent, Good)
    ensures Announces(w.Past(), |old(w.log)|, snap, fate)
  {
    ghost var start, before, early, more := w.st, w.Told(h), w.Past(), [];
    var result;
    result, told := RecordRecoveredSettlement(w, h, snap.order, snap.txHash.value, ByRecheck(snap, rest));
    ghost var rebuilt, position := w.st, |w.log|;
    OneRebuilt(w, told, start, rebuilt, snap, h, result);
    match result {
      case RowCreated => fate := Restored;
      case NoShares => fate := Emptied;
      case OrderMissing => fate := Emptied;
      case Threw =>
        fate, more := RollBack(w, h, snap, rest);
        OneAfterThrow(w, told, more, start, rebuilt, w.st, snap, h, fate);
        AnnouncesOn(w.Past(), w.Past(), position, |old(w.log)|, snap, fate);
        Onward(before, told, more);
        told := told + more;
    }
    w.OutcomeStays(early, snap.txHash, Confirmed);
  }

  method FailOrRollBack(w: World, h: nat, snap: Snap, ghost rest: seq<Snap>)
    returns (fate: Fate, ghost told: seq<Line>)
    requires w.Valid() && w.At(h, Recovering(FailRechecked(snap, rest))) && HasStatus(w.st, snap.txHash, Reverted)
    modifies w
    ensures w.Valid() && old(w.log) <= w.log && w.Reached(h, NextStuck(rest))
    ensures w.Told(h) == old(w.Told(h)) + told && Acted(w, told, old(w.st), w.st, snap, h, fate, Absent, Bad)
    ensures Announces(w.Past(), |old(w.log)|, snap, fate)
  {
    ghost var start, before, early, more := w.st, w.Told(h), w.Past(), [];
    ghost var line := Line(Recovering(FindStuck), Good, w.st);
    var ok;
    ok, line := w.Update(h, snap.order, SettlementFailed, Keep);
    ghost var updated, position := w.st, |w.log|;
    told := [line];
    if ok {
      fate := MarkedFailed;
      OneUpdate(w, told, start, updated, snap, h, SettlementFailed, Keep, ok, fate);
    } else {
      fate, more := RollBack(w, h, snap, rest);
      OneAfterRead(w, told, more, start, updated, w.st, snap, h, fate);
      AnnouncesOn(w.Past(), w.Past(), position, |old(w.log)|, snap, fate);
      Onward(before, told, more);
      told := told + more;
    }
    w.OutcomeStays(early, snap.txHash, Reverted);
  }

  /** No outcome the first time: the transaction is asked about once more. */
  method LookAgain(w: World, h: nat, snap: Snap, ghost rest: seq<Snap>)
    returns (fate: Fate, answer: Answer, ghost told: seq<Line>)
    requires w.Valid() && w.At(h, Recovering(AskAgain(snap, rest))) && snap.txHash.Some?
    modifies w
    ensures w.Valid() && old(w.log) <= w.log && w.Reached(h, NextStuck(rest))
    ensures w.Told(h) == old(w.Told(h)) + told && Acted(w, told, old(w.st), w.st, snap, h, fate, Absent, answer)
    ensures Answered(told, Recovering(AskAgain(snap, rest)), answer)
    ensures Announces(w.Past(), |old(w.log)|, snap, fate)
  {
    ghost var start, before, more := w.st, w.Told(h), [];
    answer, told := AskSecond(w, h, snap, rest);
    ghost var asked, position := w.st, |w.log|;
    fate, more := ActOnSecond(w, h, snap, rest, answer);
    ActedAfterRead(w, told, more, start, asked, w.st, snap, h, fate, Absent, answer);
    AnnouncesOn(w.Past(), w.Past(), position, |old(w.log)|, snap, fate);
    AnsweredIn(told, more, Recovering(AskAgain(snap, rest)), answer);
    Onward(before, told, more);
    told := told + more;
  }

  method ActOnSecond(w: World, h: nat, snap: Snap, ghost rest: seq<Snap>, answer: Answer)
    returns (fate: Fate, ghost told: seq<Line>)
    requires w.Valid() && snap.txHash.Some? && w.Reached(h, AfterAskAgain(snap, rest, answer))
    requires TrueStatus(w.st, snap, answer)
    modifies w
    ensures w.Valid() && old(w.log) <= w.log && w.Reached(h, NextStuck(rest))
    ensures w.Told(h) == old(w.Told(h)) + told && Acted(w, told, old(w.st), w.st, snap, h, fate, Absent, answer)
    ensures Announces(w.Past(), |old(w.log)|, snap, fate)
  {
    match answer {
      case Good => fate, told := RestoreRechecked(w, h, snap, rest);
      case Bad => fate, told := FailOrRollBack(w, h, snap, rest);
      case _ => fate, told := RollBack(w, h, snap, rest);
    }
  }

  /** A stored hash: what the chain says about its transaction decides. */
  method RecoverHashed(w: World, h: nat, snap: Snap, ghost rest: seq<Snap>)
    returns (fate: Fate, first: Answer, second: Answer, ghost told: seq<Line>)
    requires w.Valid() && w.At(h, Recovering(AskTx(snap, rest))) && snap.txHash.Some?
    modifies w
    ensures w.Valid() && old(w.log) <= w.log && w.Reached(h, NextStuck(rest))
    ensures w.Told(h) == old(w.Told(h)) + told && Acted(w, told, old(w.st), w.st, snap, h, fate, first, second)
    ensures Answered(told, Recovering(AskTx(snap, rest)), first)
    ensures NoOutcome(first) ==> Answered(told, Recovering(AskAgain(snap, rest)), second)
    ensures Announces(w.Past(), |old(w.log)|, snap, fate)
  {
    ghost var start, before, more := w.st, w.Told(h), [];
    first, told := AskFirst(w, h, snap, rest);
    ghost var asked, position := w.st, |w.log|;
    fate, second, more := ActOnFirst(w, h, snap, rest, first);
    ActedAfterRead(w, told, more, start, asked, w.st, snap, h, fate, first, second);
    AnnouncesOn(w.Past(), w.Past(), position, |old(w.log)|, snap, fate);
    AnsweredIn(told, more, Recovering(AskTx(snap, rest)), first);
    AnsweredIn(told, more, Recovering(AskAgain(snap, rest)), second);
    Onward(before, told, more);
    told := told + more;
  }

  method ActOnFirst(w: World, h: nat, snap: Snap, ghost rest: seq<Snap>, first: Answer)
    returns (fate: Fate, second: Answer, ghost told: seq<Line>)
    requires w.Valid() && snap.txHash.Some? && w.Reached(h, AfterAskTx(snap, rest, first))
    requires TrueStatus(w.st, snap, first)
    modifies w
    ensures w.Valid() && old(w.log) <= w.log && w.Reached(h, NextStuck(rest))
    ensures w.Told(h) == old(w.Told(h)) + told && Acted(w, told, old(w.st), w.st, snap, h, fate, first, second)
    ensures NoOutcome(first) ==> Answered(told, Recovering(AskAgain(snap, rest)), second)
    ensures Announces(w.Past(), |old(w.log)|, snap, fate)
  {
    second, told := Absent, [];
    match first {
      case Good => fate, told := RecoverConfirmed(w, h, snap, rest);
      case Bad => fate, told := RecoverReverted(w, h, snap, rest);
      case Throw =>
        fate := Left;
        KeptFewer(w.st, w.st, w.pinned, w.pinned - {snap.order});
      case _ => fate, second, told := LookAgain(w, h, snap, rest);
    }
  }

  // ------------------------------------------------------------------------- the pass

  /** Found in settlement, with or without a transaction hash. */
  predicate Hashed(snap: Snap) {
    snap.status != PaymentReceived && snap.txHash.Some?
  }

  /** One order of the list, as it was found. */
  method RecoverOrder(w: World, h: nat, snap: Snap, ghost rest: seq<Snap>) returns (fate: Fate, ghost told: seq<Line>)
    requires w.Valid() && w.Reached(h, NextStuck([snap] + rest))
    modifies w
    ensures w.Valid() && old(w.log) <= w.log && w.Reached(h, NextStuck(rest))
    ensures w.Told(h) == old(w.Told(h)) + told && RecoveredOne(w, told, old(w.st), w.st, snap, h, fate)
    ensures FateTold(w, told, old(w.st), snap, rest, fate) && Announces(w.Past(), |old(w.log)|, snap, fate)
    ensures Hashed(snap) ==> FateFits(w.st, snap, fate)
  {
    assert ([snap] + rest)[1..] == rest;
    if snap.status == PaymentReceived {
      fate, told := RecoverPaymentReceived(w, h, snap, rest);
    } else if snap.txHash.None? {
      var answer;
      fate, answer, told := RecoverUnhashed(w, h, snap, rest);
    } else {
      var first, second;
      fate, first, second, told := RecoverHashed(w, h, snap, rest);
    }
  }

  function CountRecovered(fates: seq<Fate>): nat {
    if fates == [] then 0 else CountRecovered(fates[..|fates| - 1]) + if IsRecovered(fates[|fates| - 1]) then 1 else 0
  }

  /** The orders not counted as recovered are those that were failed or left. */
  lemma {:induction false} CountMeaning(fates: seq<Fate>)
    ensures CountRecovered(fates) == |fates| - multiset(fates)[MarkedFailed] - multiset(fates)[Left]
  {
    if fates != [] {
      CountMeaning(fates[..|fates| - 1]);
      assert fates == fates[..|fates| - 1] + [fates[|fates| - 1]];
    }
  }

  /** The orders found before position `i`. */
  function Before(found: seq<Snap>, i: nat): set<OrderId>
    requires i <= |found|
  {
    set j | 0 <= j < i :: found[j].order
  }

  predicate DifferentOrders(found: seq<Snap>) {
    forall i, j :: 0 <= i < j < |found| ==> found[i].order != found[j].order
  }

  /** The records of the orders among the first found that no other activity concerns. */
  ghost predicate FatesHold(w: World, told: seq<Line>, s: State, t: State, found: seq<Snap>, fates: seq<Fate>, h: nat)
    requires |fates| <= |found|
  {
    forall j :: 0 <= j < |fates| && Undisturbed(w, s, found[j].order) ==>
      found[j].order in t.orders && FateHolds(told, s, t, found[j], h, fates[j])
  }

  /** The fate of every order follows from what the pass was told about it. */
  ghost predicate FatesTold(w: World, told: seq<Line>, s: State, found: seq<Snap>, fates: seq<Fate>)
    requires |fates| <= |found|
  {
    forall j :: 0 <= j < |fates| ==> FateTold(w, told, s, found[j], found[j + 1..], fates[j])
  }

  /** Every payment that was re-emitted or rolled back was announced since then. */
  ghost predicate FatesAnnounced(tr: Trace, from: nat, found: seq<Snap>, fates: seq<Fate>)
    requires |fates| <= |found|
  {
    forall j :: 0 <= j < |fates| ==> Announces(tr, from, found[j], fates[j])
  }

  /** The fate of each order with a hash fits its transaction's status. */
  predicate FatesFit(t: State, found: seq<Snap>, fates: seq<Fate>)
    requires |fates| <= |found|
  {
    forall j :: 0 <= j < |fates| && Hashed(found[j]) ==> FateFits(t, found[j], fates[j])
  }

  lemma FatesFitLater(w: World, earlier: Trace, found: seq<Snap>, fates: seq<Fate>)
    requires w.Valid() && Continues(earlier, w.Past()) && |fates| <= |found|
    requires FatesFit(earlier.trail[|earlier.log|], found, fates)
    ensures FatesFit(w.st, found, fates)
  {
    forall j | 0 <= j < |fates| && Hashed(found[j]) ensures FateFits(w.st, found[j], fates[j]) {
      if HasStatus(earlier.trail[|earlier.log|], found[j].txHash, Confirmed) {
        w.OutcomeStays(earlier, found[j].txHash, Confirmed);
      }
      if HasStatus(earlier.trail[|earlier.log|], found[j].txHash, Reverted) {
        w.OutcomeStays(earlier, found[j].txHash, Reverted);
      }
    }
  }

  lemma NotBefore(found: seq<Snap>, i: nat)
    requires i < |found| && DifferentOrders(found)
    ensures found[i].order !in Before(found, i)
  {
  }

  lemma AdvanceKept(w: World, told: seq<Line>, s: State, before: State, t: State, found: seq<Snap>, i: nat, h: nat,
                    fate: Fate)
    requires i < |found| && Kept(s, before, w.pinned - Before(found, i)) && NoNewTx(s, before, w.pinned)
    requires RecoveredOne(w, told, before, t, found[i], h, fate)
    ensures Kept(s, t, w.pinned - Before(found, i + 1)) && NoNewTx(s, t, w.pinned)
  {
    var later := w.pinned - Before(found, i + 1);
    KeptFewer(s, before, w.pinned - Before(found, i), later);
    KeptFewer(before, t, w.pinned - {found[i].order}, later);
    KeptTransitive(s, before, t, later);
  }

  lemma AdvanceFates(w: World, told: seq<Line>, more: seq<Line>, s: State, before: State, t: State, found: seq<Snap>,
                     fates: seq<Fate>, h: nat, fate: Fate)
    requires DifferentOrders(found) && |fates| < |found| && FatesHold(w, told, s, before, found, fates, h)
    requires Kept(s, before, w.pinned - Before(found, |fates|))
    requires RecoveredOne(w, more, before, t, found[|fates|], h, fate)
    ensures FatesHold(w, told + more, s, t, found, fates + [fate], h)
  {
    var i, all := |fates|, fates + [fate];
    NotBefore(found, i);
    forall j | 0 <= j < |all| && Undisturbed(w, s, found[j].order)
      ensures found[j].order in t.orders && FateHolds(told + more, s, t, found[j], h, all[j])
    {
      if j < i {
        assert found[j].order in w.pinned - {found[i].order};
        FateLater(told, s, before, t, found[j], h, fates[j]);
        FateLonger(told, more, s, t, found[j], h, fates[j]);
      } else {
        FateEarlier(told, more, s, before, t, found[i], h, fate);
        FateKeepsOrder(told + more, s, t, found[i], h, fate);
      }
    }
  }

  lemma FateKeepsOrder(told: seq<Line>, s: State, t: State, snap: Snap, h: nat, fate: Fate)
    requires snap.order in s.orders && FateHolds(told, s, t, snap, h, fate)
    ensures snap.order in t.orders
  {
  }

  lemma AdvanceTold(w: World, told: seq<Line>, more: seq<Line>, s: State, before: State, found: seq<Snap>,
                    fates: seq<Fate>, fate: Fate)
    requires DifferentOrders(found) && |fates| < |found| && FatesTold(w, told, s, found, fates)
    requires Kept(s, before, w.pinned - Before(found, |fates|))
    requires FateTold(w, more, before, found[|fates|], found[|fates| + 1..], fate)
    ensures FatesTold(w, told + more, s, found, fates + [fate])
  {
    var i, all := |fates|, fates + [fate];
    NotBefore(found, i);
    forall j | 0 <= j < |all| ensures FateTold(w, told + more, s, found[j], found[j + 1..], all[j]) {
      if j < i {
        FateToldLonger(w, told, more, s, found[j], found[j + 1..], fates[j]);
      } else {
        KeptIsSameCase(w, s, before, found[i].order, w.pinned - Before(found, i));
        FateToldEarlier(w, told, more, s, before, found[i], found[i + 1..], fate);
      }
    }
  }

  lemma AdvanceAnnounced(tr: Trace, later: Trace, from: nat, position: nat, found: seq<Snap>, fates: seq<Fate>,
                         fate: Fate)
    requires |fates| < |found| && FatesAnnounced(tr, from, found, fates) && Continues(tr, later) && from <= position
    requires Announces(later, position, found[|fates|], fate)
    ensures FatesAnnounced(later, from, found, fates + [fate])
  {
    var all := fates + [fate];
    forall j | 0 <= j < |all| ensures Announces(later, from, found[j], all[j]) {
      if j < |fates| {
        AnnouncesOn(tr, later, from, from, found[j], fates[j]);
      } else {
        AnnouncesOn(later, later, position, from, found[j], fate);
      }
    }
  }

  /** The first `|fates|` orders are done, and the others as they were. */
  ghost predicate Progress(w: World, told: seq<Line>, s: State, t: State, found: seq<Snap>, fates: seq<Fate>, h: nat) {
    && |fates| <= |found|
    && Kept(s, t, w.pinned - Before(found, |fates|)) && NoNewTx(s, t, w.pinned)
    && FatesHold(w, told, s, t, found, fates, h) && FatesTold(w, told, s, found, fates)
  }

  lemma NoProgress(w: World, s: State, found: seq<Snap>, h: nat)
    ensures Progress(w, [], s, s, found, [], h)
  {
  }

  lemma Advance(w: World, told: seq<Line>, more: seq<Line>, s: State, before: State, t: State, found: seq<Snap>,
                fates: seq<Fate>, h: nat, fate: Fate)
    requires DifferentOrders(found) && |fates| < |found| && Progress(w, told, s, before, found, fates, h)
    requires RecoveredOne(w, more, before, t, found[|fates|], h, fate)
    requires FateTold(w, more, before, found[|fates|], found[|fates| + 1..], fate)
    ensures Progress(w, told + more, s, t, found, fates + [fate], h)
    ensures CountRecovered(fates + [fate]) == CountRecovered(fates) + if IsRecovered(fate) then 1 else 0
  {
    AdvanceKept(w, more, s, before, t, found, |fates|, h, fate);
    AdvanceFates(w, told, more, s, before, t, found, fates, h, fate);
    AdvanceTold(w, told, more, s, before, found, fates, fate);
    assert (fates + [fate])[..|fates|] == fates;
  }

  /** The loop's turn for the order after the first `done`. */
  method RecoverNext(w: World, h: nat, found: seq<Snap>, done: nat, ghost fates: seq<Fate>, ghost start: State,
                     ghost from: nat, ghost told: seq<Line>)
    returns (fate: Fate, ghost more: seq<Line>)
    requires w.Valid() && from <= |w.log| && DifferentOrders(found) && |fates| == done < |found|
    requires w.Reached(h, NextStuck(found[done..]))
    requires Progress(w, told, start, w.st, found, fates, h) && FatesFit(w.st, found, fates)
    requires FatesAnnounced(w.Past(), from, found, fates)
    modifies w
    ensures w.Valid() && old(w.log) <= w.log && w.Reached(h, NextStuck(found[done + 1..]))
    ensures w.Told(h) == old(w.Told(h)) + more
    ensures Progress(w, told + more, start, w.st, found, fates + [fate], h) && FatesFit(w.st, found, fates + [fate])
    ensures FatesAnnounced(w.Past(), from, found, fates + [fate])
    ensures CountRecovered(fates + [fate]) == CountRecovered(fates) + if IsRecovered(fate) then 1 else 0
  {
    ghost var before, past, position := w.st, w.Past(), |w.log|;
    assert found[done..] == [found[done]] + found[done + 1..];
    fate, more := RecoverOrder(w, h, found[done], found[done + 1..]);
    Advance(w, told, more, start, before, w.st, found, fates, h, fate);
    AdvanceAnnounced(past, w.Past(), from, position, found, fates, fate);
    AdvanceFit(w, past, found, fates, fate);
  }

  lemma AdvanceFit(w: World, past: Trace, found: seq<Snap>, fates: seq<Fate>, fate: Fate)
    requires w.Valid() && Continues(past, w.Past()) && |fates| < |found|
    requires FatesFit(past.trail[|past.log|], found, fates)
    requires Hashed(found[|fates|]) ==> FateFits(w.st, found[|fates|], fate)
    ensures FatesFit(w.st, found, fates + [fate])
  {
    FatesFitLater(w, past, found, fates);
  }

  method RecoverAll(w: World, h: nat, found: seq<Snap>)
    returns (fates: seq<Fate>, recovered: nat, failed: nat, ghost told: seq<Line>)
    requires w.Valid() && w.Reached(h, NextStuck(found)) && DifferentOrders(found)
    modifies w
    ensures w.Valid() && old(w.log) <= w.log && h !in w.st.acts && w.Told(h) == old(w.Told(h)) + told
    ensures |fates| == |found| == recovered + failed
    ensures failed == multiset(fates)[MarkedFailed] + multiset(fates)[Left]
    ensures Progress(w, told, old(w.st), w.st, found, fates, h) && FatesFit(w.st, found, fates)
    ensures FatesAnnounced(w.Past(), |old(w.log)|, found, fates)
  {
    ghost var start, from := w.st, |w.log|;
    fates, recovered, failed, told := [], 0, 0, [];
    NoProgress(w, start, found, h);
    assert found[0..] == found;
    for i := 0 to |found|
      invariant w.Valid() && old(w.log) <= w.log && w.Reached(h, NextStuck(found[i..]))
      invariant w.Told(h) == old(w.Told(h)) + told
      invariant |fates| == i == recovered + failed && recovered == CountRecovered(fates)
      invariant Progress(w, told, start, w.st, found, fates, h) && FatesFit(w.st, found, fates)
      invariant FatesAnnounced(w.Past(), from, found, fates)
    {
      ghost var more := [];
      var fate;
      fate, more := RecoverNext(w, h, found, i, fates, start, from, told);
      Onward(old(w.Told(h)), told, more);
      fates, told := fates + [fate], told + more;
      if IsRecovered(fate) {
        recovered := recovered + 1;
      } else {
        failed := failed + 1;
      }
    }
    CountMeaning(fates);
  }

  // ---------------------------------------------------------------- which orders are found

  /** An order as `findMany` returns it. */
  function SnapOf(s: State, o: OrderId): Snap
    requires o in s.orders
  {
    Snap(o, s.orders[o].status, s.orders[o].cents, s.orders[o].txHash)
  }

  /** Paid, or in settlement. */
  predicate Unfinished(s: State, o: OrderId) {
    o in s.orders && (s.orders[o].status == PaymentReceived || s.orders[o].status == SettlementPending)
  }

  lemma {:induction false} StuckComplete(s: State, ids: seq<OrderId>, o: OrderId)
    requires o in ids && Unfinished(s, o)
    ensures SnapOf(s, o) in Stuck(s, ids)
  {
    if ids[0] != o {
      StuckComplete(s, ids[1..], o);
    }
  }

  lemma {:induction false} StuckSound(s: State, ids: seq<OrderId>)
    ensures forall i :: 0 <= i < |Stuck(s, ids)| ==>
              Unfinished(s, Stuck(s, ids)[i].order) && Stuck(s, ids)[i] == SnapOf(s, Stuck(s, ids)[i].order)
  {
    if ids != [] {
      StuckSound(s, ids[1..]);
    }
  }

  /** Of the orders no other activity concerns, those paid or in settlement were found, as they were, and no others. */
  ghost predicate AllFound(w: World, s: State, found: seq<Snap>) {
    && (forall o :: o in w.pinned && Unfinished(s, o) ==> SnapOf(s, o) in found)
    && (forall i :: 0 <= i < |found| && found[i].order in w.pinned && found[i].order in s.orders ==>
          Unfinished(s, found[i].order) && found[i] == SnapOf(s, found[i].order))
  }

  /** Starts the handler and lists the stuck orders; `ok` is false when the query fails. */
  method FindStuckOrders(w: World) returns (h: nat, ok: bool, found: seq<Snap>, ghost told: seq<Line>)
    requires w.Valid()
    modifies w
    ensures w.Valid() && old(w.log) <= w.log && Kept(old(w.st), w.st, w.pinned)
    ensures w.Reached(h, if ok then NextStuck(found) else None) && w.Told(h) == old(w.Told(h)) + told
    ensures DifferentOrders(found) && (w.reliable ==> ok) && (ok ==> AllFound(w, old(w.st), found))
    ensures !ok ==> found == []
  {
    ghost var start := w.st;
    h := w.st.next;
    w.Do(Bootstrap);
    ghost var begun := w.st;
    assert begun == Start(start, Recovering(FindStuck));
    assert Kept(start, begun, w.pinned);
    ok, found, told := ListStuck(w, h, start);
    KeptTransitive(start, begun, w.st, w.pinned);
  }

  method ListStuck(w: World, h: nat, ghost start: State) returns (ok: bool, found: seq<Snap>, ghost told: seq<Line>)
    requires w.Valid() && w.At(h, Recovering(FindStuck)) && Kept(start, w.st, w.pinned)
    modifies w
    ensures w.Valid() && old(w.log) <= w.log && Kept(old(w.st), w.st, w.pinned)
    ensures w.Reached(h, if ok then NextStuck(found) else None) && w.Told(h) == old(w.Told(h)) + told
    ensures DifferentOrders(found) && (w.reliable ==> ok) && (ok ==> AllFound(w, start, found))
    ensures !ok ==> found == []
  {
    ghost var begun := w.st;
    var answer, seen := w.Ask(h);
    told := [Line(Recovering(FindStuck), answer, seen)];
    KeptTransitive(start, begun, seen, w.pinned);
    if answer == Throw {
      return false, [], told;
    }
    ok, found := true, Stuck(seen, answer.ids);
    Serial.StuckFresh(seen, answer.ids);
    FoundAll(w, start, seen, answer.ids);
  }

  lemma FoundAll(w: World, s: State, seen: State, ids: seq<OrderId>)
    requires Kept(s, seen, w.pinned) && forall o :: o in ids <==> o in seen.orders
    ensures AllFound(w, s, Stuck(seen, ids))
  {
    StuckSound(seen, ids);
    forall o | o in w.pinned && Unfinished(s, o) ensures SnapOf(s, o) in Stuck(seen, ids) {
      StuckComplete(seen, ids, o);
    }
  }

  // ------------------------------------------------------------------- the whole pass

  /** In settlement with no hash and no row, of a product that still has collaborators. */
  predicate Orphaned(s: State, o: OrderId) {
    && o in s.orders && s.orders[o].status == SettlementPending && s.orders[o].txHash == None
    && o !in s.rows && SellableProduct(s, s.orders[o].product)
  }

  /** An orphaned order ended as the chain's answer says: settled with a row, or failed without. */
  ghost predicate OrphanResolved(told: seq<Line>, s: State, t: State, o: OrderId, h: nat, answer: Answer) {
    if answer == Good then Rebuilt(told, s, t, o, Placeholder(o), h) && o in t.chain.markers
    else Updated(s, t, o, SettlementFailed, Keep)
  }

  /** The chain was asked about the orphaned order at its place in the list, and it ended as the answer says. */
  ghost predicate ResolvedAt(told: seq<Line>, s: State, t: State, found: seq<Snap>, j: nat, o: OrderId, h: nat) {
    j < |found| && o in s.orders && found[j] == SnapOf(s, o) &&
    exists answer :: Answered(told, Recovering(AskMarker(found[j], found[j + 1..])), answer)
                     && OrphanResolved(told, s, t, o, h, answer)
  }

  ghost predicate OrphansResolved(w: World, told: seq<Line>, s: State, t: State, found: seq<Snap>, h: nat) {
    forall o :: o in w.pinned && Orphaned(s, o) ==> exists j: nat :: ResolvedAt(told, s, t, found, j, o, h)
  }

  /** What the pass reports, measured from before the orders were listed. */
  lemma ProgressEarlier(w: World, a: seq<Line>, b: seq<Line>, s: State, listed: State, t: State, found: seq<Snap>,
                        fates: seq<Fate>, h: nat)
    requires Kept(s, listed, w.pinned) && Progress(w, b, listed, t, found, fates, h)
    ensures NoNewTx(s, t, w.pinned) && FatesHold(w, a + b, s, t, found, fates, h)
    ensures FatesTold(w, a + b, s, found, fates)
  {
    forall j | 0 <= j < |fates| && Undisturbed(w, s, found[j].order)
      ensures found[j].order in t.orders && FateHolds(a + b, s, t, found[j], h, fates[j])
    {
      FateEarlier(a, b, s, listed, t, found[j], h, fates[j]);
    }
    forall j | 0 <= j < |fates| ensures FateTold(w, a + b, s, found[j], found[j + 1..], fates[j]) {
      KeptIsSameCase(w, s, listed, found[j].order, w.pinned);
      FateToldEarlier(w, a, b, s, listed, found[j], found[j + 1..], fates[j]);
    }
  }

  lemma Resolve(w: World, told: seq<Line>, s: State, t: State, found: seq<Snap>, fates: seq<Fate>, h: nat)
    requires |fates| == |found| && w.reliable && FatesTold(w, told, s, found, fates)
    requires FatesHold(w, told, s, t, found, fates, h) && AllFound(w, s, found)
    requires forall o :: o in t.orders && t.orders[o].status == Settled ==> o in t.chain.markers
    ensures OrphansResolved(w, told, s, t, found, h)
  {
    forall o | o in w.pinned && Orphaned(s, o) ensures exists j: nat :: ResolvedAt(told, s, t, found, j, o, h) {
      var j :| 0 <= j < |found| && found[j] == SnapOf(s, o);
      ResolveOne(w, told, s, t, found, fates, j, o, h);
    }
  }

  lemma ResolveOne(w: World, told: seq<Line>, s: State, t: State, found: seq<Snap>, fates: seq<Fate>, j: nat,
                   o: OrderId, h: nat)
    requires |fates| == |found| && j < |found| && w.reliable && FatesTold(w, told, s, found, fates)
    requires FatesHold(w, told, s, t, found, fates, h) && o in w.pinned && Orphaned(s, o) && found[j] == SnapOf(s, o)
    requires forall o :: o in t.orders && t.orders[o].status == Settled ==> o in t.chain.markers
    ensures ResolvedAt(told, s, t, found, j, o, h)
  {
    var pc := Recovering(AskMarker(found[j], found[j + 1..]));
    assert FateTold(w, told, s, found[j], found[j + 1..], fates[j]);
    var answer :| Answered(told, pc, answer) && UnhashedFollows(w, s, found[j], fates[j], answer);
    assert FateHolds(told, s, t, found[j], h, fates[j]);
    if answer == Good {
      RebuiltIsSettled(told, s, t, o, Placeholder(o), h);
    }
    assert OrphanResolved(told, s, t, o, h, answer);
  }

  lemma RebuiltIsSettled(told: seq<Line>, s: State, t: State, o: OrderId, hash: Hash, h: nat)
    requires Rebuilt(told, s, t, o, hash, h)
    ensures o in t.orders && t.orders[o].status == Settled
  {
  }

  /**
   * The whole pass. No transaction is submitted for the orders no other activity
   * concerns; of these exactly the ones paid or in settlement are found, as they were;
   * each has the fate that follows from what the chain was told to say about it, which its
   * records show; every payment reported re-emitted or rolled back was announced; and the
   * orders not counted as recovered are those that were failed or left. An order without
   * hash and row ends SETTLED, with one row for the collaborators as they were read, if
   * `is_settled` answered yes, and SETTLEMENT_FAILED without a row otherwise.
   */
  method OnApplicationBootstrap(w: World)
    returns (ghost h: nat, found: seq<Snap>, fates: seq<Fate>, recovered: nat, failed: nat, ghost told: seq<Line>)
    requires w.Valid()
    modifies w
    ensures w.Valid() && old(w.log) <= w.log && h !in w.st.acts && w.Told(h) == old(w.Told(h)) + told
    ensures |fates| == |found| == recovered + failed
    ensures failed == multiset(fates)[MarkedFailed] + multiset(fates)[Left]
    ensures NoNewTx(old(w.st), w.st, w.pinned)
    ensures FatesHold(w, told, old(w.st), w.st, found, fates, h) && FatesTold(w, told, old(w.st), found, fates)
    ensures FatesFit(w.st, found, fates) && FatesAnnounced(w.Past(), |old(w.log)|, found, fates)
    ensures w.reliable ==>
              AllFound(w, old(w.st), found) && OrphansResolved(w, told, old(w.st), w.st, found, h)
  {
    ghost var start, from, more := w.st, |w.log|, [];
    var handler, ok;
    handler, ok, found, told := FindStuckOrders(w);
    h := handler;
    if !ok {
      return h, [], [], 0, 0, told;
    }
    ghost var listed, position := w.st, |w.log|;
    fates, recovered, failed, more := RecoverAll(w, handler, found);
    ProgressEarlier(w, told, more, start, listed, w.st, found, fates, h);
    AnnouncedSinceStart(w.Past(), position, from, found, fates);
    Onward(old(w.Told(h)), told, more);
    told := told + more;
    if w.reliable {
      w.Sound();
      assert OrdersOk(w.st);
      Resolve(w, told, start, w.st, found, fates, h);
    }
  }

  lemma AnnouncedSinceStart(tr: Trace, position: nat, from: nat, found: seq<Snap>, fates: seq<Fate>)
    requires IsTrail(tr.origin, tr.log, tr.trail) && from <= position && |fates| <= |found|
    requires FatesAnnounced(tr, position, found, fates)
    ensures FatesAnnounced(tr, from, found, fates)
  {
    forall j | 0 <= j < |fates| ensures Announces(tr, from, found[j], fates[j]) {
      AnnouncesOn(tr, tr, position, from, found[j], fates[j]);
    }
  }
}
