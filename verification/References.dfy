/**
 * Payment references in serial runs: how often the webhook can take and announce one.
 * A reference is free again only when a later payment replaced it on its order.
 */
module References {
  import opened Types
  import opened OrderStates
  import opened Protocol
  import opened Safety
  import opened Guarantees
  import opened Serial
  import Ledger

  /** The statement this step executes for a handler, if it executes one. */
  ghost function Executed(s: State, action: Action): Effect {
    if Acts(s, action) then Decide(s, action.actor, s.acts[action.actor], action.answer).effect else Nothing
  }

  ghost predicate Acts(s: State, action: Action) {
    Admits(s, action) && action.Act? && action.actor in s.acts && Truthful(s, s.acts[action.actor], action.answer)
  }

  ghost predicate Takes(s: State, action: Action, ref: PaymentRef) {
    var effect := Executed(s, action);
    effect.Claim? && effect.ref == ref
  }

  /** Another reference is written over this one. */
  ghost predicate Replaces(s: State, action: Action, ref: PaymentRef) {
    var effect := Executed(s, action);
    effect.Claim? && effect.ref != ref && Holds(s, effect.order, ref)
  }

  predicate Notifies(pc: Pc, ref: PaymentRef) {
    pc.Paying? && pc.ref == ref && pc.pay.Notify?
  }

  /** The webhook emits `payment.received` under this reference. */
  ghost predicate Announces(s: State, action: Action, ref: PaymentRef) {
    Acts(s, action) && Notifies(s.acts[action.actor], ref)
  }

  function One(b: bool): nat {
    if b then 1 else 0
  }

  ghost function Claims(s: State, actions: seq<Action>, ref: PaymentRef): nat
    decreases |actions|
  {
    if actions == [] then 0
    else One(Takes(s, actions[0], ref)) + Claims(SerialStep(s, actions[0]), actions[1..], ref)
  }

  ghost function Releases(s: State, actions: seq<Action>, ref: PaymentRef): nat
    decreases |actions|
  {
    if actions == [] then 0
    else One(Replaces(s, actions[0], ref)) + Releases(SerialStep(s, actions[0]), actions[1..], ref)
  }

  ghost function Announcements(s: State, actions: seq<Action>, ref: PaymentRef): nat
    decreases |actions|
  {
    if actions == [] then 0
    else One(Announces(s, actions[0], ref)) + Announcements(SerialStep(s, actions[0]), actions[1..], ref)
  }

  // ------------------------------------------------------------------ taken or free

  lemma TakesWasFree(s: State, action: Action, ref: PaymentRef)
    requires Safe(s) && Orderly(s) && Takes(s, action, ref)
    ensures !RefTaken(s, ref) && Executed(s, action).order in s.orders
  {
    var h := action.actor;
    ClaimsAreFree(s, h, action.answer);
    OnlyAtClaim(s, h, s.acts[h], action.answer);
    assert View(s, s.acts[h]);
  }

  lemma OnlyAtClaim(s: State, h: nat, pc: Pc, answer: Answer)
    ensures var effect := Decide(s, h, pc, answer).effect;
      effect.Claim? ==> pc.Paying? && pc.pay.ClaimRef? && effect.order == pc.order && effect.ref == pc.ref
  {
    if !pc.Paying? {
      OnlyWebhooksClaim(s, h, pc, answer);
    }
  }

  lemma ClaimTakes(s: State, o: OrderId, status: OrderStatus, taken: PaymentRef, ref: PaymentRef)
    requires RefsUnique(s) && o in s.orders && !RefTakenByOther(s, taken, o)
    ensures var t := Perform(s, Claim(o, status, taken));
      && (taken == ref ==> RefTaken(t, ref))
      && (taken != ref && Holds(s, o, ref) ==> !RefTaken(t, ref))
      && (taken != ref && !Holds(s, o, ref) ==> (RefTaken(t, ref) <==> RefTaken(s, ref)))
  {
    var t := Perform(s, Claim(o, status, taken));
    assert Holds(t, o, taken);
    if taken != ref && RefTaken(s, ref) && !Holds(s, o, ref) {
      var p :| p in s.orders && s.orders[p].paymentRef == Some(ref);
      assert t.orders[p].paymentRef == Some(ref);
    }
  }

  lemma OthersKeepRefs(s: State, effect: Effect, ref: PaymentRef)
    requires !effect.Claim?
    ensures RefTaken(Perform(s, effect), ref) <==> RefTaken(s, ref)
  {
    var t := Perform(s, effect);
    forall o ensures Holds(s, o, ref) <==> Holds(t, o, ref) {
    }
    SameHolders(s, t, ref);
  }

  lemma SameHolders(s: State, t: State, ref: PaymentRef)
    requires forall o :: Holds(s, o, ref) <==> Holds(t, o, ref)
    ensures RefTaken(s, ref) <==> RefTaken(t, ref)
  {
    if RefTaken(s, ref) {
      var o :| o in s.orders && s.orders[o].paymentRef == Some(ref);
      assert Holds(s, o, ref);
    }
    if RefTaken(t, ref) {
      var o :| o in t.orders && t.orders[o].paymentRef == Some(ref);
      assert Holds(t, o, ref);
    }
  }

  /** One step moves a reference from free to taken, from taken to free, or neither. */
  lemma StepBalance(s: State, action: Action, ref: PaymentRef)
    requires Safe(s) && Orderly(s) && RefsUnique(s)
    ensures One(Takes(s, action, ref)) + One(RefTaken(s, ref))
         == One(Replaces(s, action, ref)) + One(RefTaken(SerialStep(s, action), ref))
  {
    if Acts(s, action) {
      ActBalance(s, action, ref);
    } else if Admits(s, action) {
      QuietRefs(s, action, ref);
    }
  }

  lemma ActBalance(s: State, action: Action, ref: PaymentRef)
    requires Safe(s) && Orderly(s) && RefsUnique(s) && Acts(s, action)
    ensures One(Takes(s, action, ref)) + One(RefTaken(s, ref))
         == One(Replaces(s, action, ref)) + One(RefTaken(Step(s, action), ref))
  {
    var effect := Executed(s, action);
    SameRefsAfter(s, action, ref);
    if effect.Claim? {
      TakesWasFree(s, action, effect.ref);
      ClaimsAreFree(s, action.actor, action.answer);
      ClaimTakes(s, effect.order, effect.status, effect.ref, ref);
      assert Holds(s, effect.order, ref) ==> RefTaken(s, ref);
    } else {
      OthersKeepRefs(s, effect, ref);
    }
  }

  lemma SameRefsAfter(s: State, action: Action, ref: PaymentRef)
    requires Acts(s, action)
    ensures RefTaken(Step(s, action), ref) <==> RefTaken(Perform(s, Executed(s, action)), ref)
  {
    var h := action.actor;
    var move := Decide(s, h, s.acts[h], action.answer);
    assert Step(s, action) == ActStep(s, h, action.answer);
    assert Continue(Perform(s, move.effect), h, move.next).orders == Perform(s, move.effect).orders;
  }

  lemma QuietRefs(s: State, action: Action, ref: PaymentRef)
    requires Admits(s, action) && !Acts(s, action)
    ensures RefTaken(Step(s, action), ref) <==> RefTaken(s, ref)
  {
    var t := Step(s, action);
    if action.Act? {
      assert t == s;
    } else {
      forall o ensures Holds(s, o, ref) <==> Holds(t, o, ref) {
        if o in s.orders {
          StatusFromHandlers(s, action, o);
        } else {
          NewOrderIsUnpaid(s, action, o);
        }
      }
      SameHolders(s, t, ref);
    }
  }

  lemma NewOrderIsUnpaid(s: State, action: Action, o: OrderId)
    requires !action.Act?
    ensures o !in s.orders && o in Step(s, action).orders ==> Step(s, action).orders[o].paymentRef == None
  {
    if action.Include? {
      assert IncludeStep(s, action.tx, action.executed).orders == s.orders;
    } else {
      match action {
        case Checkout(_, _, _) =>
        case _ =>
      }
    }
  }

  lemma SerialStepRefs(s: State, action: Action)
    requires RefsUnique(s)
    ensures RefsUnique(SerialStep(s, action))
  {
    StepRefs(s, action);
  }

  /**
   * Serial runs: a reference was taken as often as it was replaced, and once more if it
   * is held now.
   */
  lemma {:induction false} ReferencesBalance(s: State, actions: seq<Action>, genesis: Ledger.Accounts, ref: PaymentRef)
    requires SerialInvariant(s, genesis) && RefsUnique(s)
    ensures Claims(s, actions, ref) + One(RefTaken(s, ref))
         == Releases(s, actions, ref) + One(RefTaken(SerialRun(s, actions), ref))
    decreases |actions|
  {
    if actions != [] {
      var t := SerialStep(s, actions[0]);
      StepBalance(s, actions[0], ref);
      SerialStepKeeps(s, actions[0], genesis);
      SerialStepRefs(s, actions[0]);
      ReferencesBalance(t, actions[1..], genesis, ref);
    }
  }

  // ------------------------------------------------------------------- announcements

  /** The webhook handlers that have taken the reference and are about to announce it. */
  ghost function Notifying(s: State, ref: PaymentRef): set<nat> {
    set h | h in s.acts && Notifies(s.acts[h], ref)
  }

  lemma StepAnnounces(s: State, action: Action, ref: PaymentRef)
    requires Safe(s)
    ensures One(Announces(s, action, ref)) + |Notifying(SerialStep(s, action), ref)|
         <= One(Takes(s, action, ref)) + |Notifying(s, ref)|
  {
    if Acts(s, action) {
      ActAnnounces(s, action, ref);
    } else if Admits(s, action) {
      QuietAnnounces(s, action, ref);
      SubsetSize(Notifying(Step(s, action), ref), Notifying(s, ref));
    }
  }

  lemma {:induction false} SubsetSize(a: set<nat>, b: set<nat>)
    requires a <= b
    ensures |a| <= |b|
  {
    if a != {} {
      var x :| x in a;
      SubsetSize(a - {x}, b - {x});
    }
  }

  lemma QuietAnnounces(s: State, action: Action, ref: PaymentRef)
    requires Safe(s) && Admits(s, action) && !Acts(s, action)
    ensures Notifying(Step(s, action), ref) <= Notifying(s, ref)
  {
    if action.Include? {
      assert IncludeStep(s, action.tx, action.executed).acts == s.acts;
    } else if action.Act? {
      assert Step(s, action) == s;
    } else if action.Webhook? || action.Dispatch? || action.Bootstrap? || action.Deliver? {
      StartsQuietly(s, action, ref);
    } else if !action.Crash? {
      ShopKeepsActs(s, action);
    }
  }

  lemma StartsQuietly(s: State, action: Action, ref: PaymentRef)
    requires action.Webhook? || action.Dispatch? || action.Bootstrap? || action.Deliver?
    requires s.next !in s.acts
    ensures Notifying(Step(s, action), ref) <= Notifying(s, ref)
  {
  }

  lemma ActAnnounces(s: State, action: Action, ref: PaymentRef)
    requires Acts(s, action)
    ensures One(Announces(s, action, ref)) + |Notifying(Step(s, action), ref)|
         <= One(Takes(s, action, ref)) + |Notifying(s, ref)|
  {
    var h := action.actor;
    var before, after := Notifying(s, ref), Notifying(Step(s, action), ref);
    ActNotifies(s, h, action.answer, ref);
    assert Step(s, action) == ActStep(s, h, action.answer);
    if Takes(s, action, ref) {
      SubsetSize(after, before + {h});
    } else if Announces(s, action, ref) {
      SubsetSize(after, before - {h});
    } else {
      SubsetSize(after, before);
    }
  }

  lemma ActNotifies(s: State, h: nat, answer: Answer, ref: PaymentRef)
    requires h in s.acts && Truthful(s, s.acts[h], answer)
    ensures var before, after := Notifying(s, ref), Notifying(ActStep(s, h, answer), ref);
      var effect := Decide(s, h, s.acts[h], answer).effect;
      && (Notifies(s.acts[h], ref) ==> after <= before - {h} && !effect.Claim?)
      && (effect.Claim? && effect.ref == ref ==> after <= before + {h})
      && (!(effect.Claim? && effect.ref == ref) ==> after <= before)
  {
    var move := Decide(s, h, s.acts[h], answer);
    PerformShop(s, move.effect);
    NotifiesNext(s, h, s.acts[h], answer, ref);
  }

  /** Only a claim under the reference leads to its announcement, and that ends the handler. */
  lemma NotifiesNext(s: State, h: nat, pc: Pc, answer: Answer, ref: PaymentRef)
    ensures var move := Decide(s, h, pc, answer);
      && (Notifies(pc, ref) ==> move.next == None && !move.effect.Claim?)
      && (move.next.Some? && Notifies(move.next.value, ref) ==> move.effect.Claim? && move.effect.ref == ref)
  {
    match pc {
      case Settling(job, at) =>
      case Recording(o, at, caller) =>
      case Paying(o, r, at) =>
      case Recovering(at) =>
      case Delivering(event, at) =>
    }
  }

  lemma {:induction false} AnnouncedAtMostClaimed(s: State, actions: seq<Action>, genesis: Ledger.Accounts,
                                                  ref: PaymentRef)
    requires SerialInvariant(s, genesis)
    ensures Announcements(s, actions, ref) + |Notifying(SerialRun(s, actions), ref)|
         <= Claims(s, actions, ref) + |Notifying(s, ref)|
    decreases |actions|
  {
    if actions != [] {
      StepAnnounces(s, actions[0], ref);
      SerialStepKeeps(s, actions[0], genesis);
      AnnouncedAtMostClaimed(SerialStep(s, actions[0]), actions[1..], genesis, ref);
    }
  }

  /**
   * In every serial run, crashes included, the webhook announces payments under one
   * reference at most once more often than the reference was replaced on its order: at
   * most once when it never was.
   */
  lemma ReferencesAnnouncedOnce(s: State, actions: seq<Action>, genesis: Ledger.Accounts, ref: PaymentRef)
    requires Init(s, genesis)
    ensures Announcements(s, actions, ref) <= Releases(s, actions, ref) + One(RefTaken(SerialRun(s, actions), ref))
  {
    InitSerial(s, genesis);
    ReferencesBalance(s, actions, genesis, ref);
    AnnouncedAtMostClaimed(s, actions, genesis, ref);
    assert Notifying(s, ref) == {};
  }
}
