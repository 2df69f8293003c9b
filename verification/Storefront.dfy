/**
 * Where orders enter and leave: checkout, the payment webhook, the wallet connection
 * that resumes deferred orders, and the delivery of the goods.
 */
module Storefront {
  import opened Types
  import opened OrderStates
  import opened Protocol
  import opened Safety
  import opened Backend
  import opened Handlers

  // ------------------------------------------------------------------ the payment webhook

  datatype Reply = Paid | Deferred | Duplicate | NotFound | Conflict | DatabaseError

  /** How the webhook leaves an order no other activity concerns. */
  ghost predicate ReplyHolds(s: State, t: State, o: OrderId, ref: PaymentRef, reply: Reply)
    requires o in s.orders
  {
    var before := s.orders[o];
    && o in t.orders && SameRow(s, t, o)
    && (match reply
        case Paid =>
          && CanTransition(before.status, PaymentReceived)
          && t.orders[o] == before.(status := PaymentReceived, paymentRef := Some(ref))
        case Deferred =>
          && CanTransition(before.status, WaitingWallet)
          && t.orders[o] == before.(status := WaitingWallet, paymentRef := Some(ref))
        case Conflict =>
          && t.orders[o] == before
          && (!CanTransition(before.status, PaymentReceived) || !CanTransition(before.status, WaitingWallet))
        case Duplicate => t.orders[o] == before
        case NotFound => false
        case DatabaseError => t.orders[o] == before)
  }

  /** A payment event for the order, at the order's price, waits for its listener. */
  ghost predicate OnTheBus(s: State, o: OrderId) {
    o in s.orders && exists e :: e in s.payments && s.payments[e] == Payment(o, s.orders[o].cents)
  }

  /** What every part of the webhook handler promises. */
  ghost predicate Replied(w: World, s: State, t: State, h: nat, o: OrderId, ref: PaymentRef, reply: Reply) {
    && Kept(s, t, w.pinned - {o}) && h !in t.acts
    && (o in w.pinned && o in s.orders ==> ReplyHolds(s, t, o, ref, reply))
    && (reply == DatabaseError ==> !w.reliable)
  }

  lemma RepliedLater(w: World, s: State, mid: State, t: State, h: nat, o: OrderId, ref: PaymentRef, reply: Reply)
    requires Kept(s, mid, w.pinned) && Replied(w, mid, t, h, o, ref, reply)
    ensures Replied(w, s, t, h, o, ref, reply)
  {
    KeptFewer(s, mid, w.pinned, w.pinned - {o});
    KeptTransitive(s, mid, t, w.pinned - {o});
  }

  lemma Unchanged(w: World, s: State, t: State, h: nat, o: OrderId, ref: PaymentRef, reply: Reply)
    requires Kept(s, t, w.pinned) && h !in t.acts && (reply == DatabaseError ==> !w.reliable)
    requires match reply
             case Duplicate => true
             case DatabaseError => true
             case NotFound => o !in s.orders || o !in w.pinned
             case Conflict => o in s.orders && o in w.pinned ==>
               !CanTransition(s.orders[o].status, PaymentReceived) || !CanTransition(s.orders[o].status, WaitingWallet)
             case _ => false
    ensures Replied(w, s, t, h, o, ref, reply)
  {
    KeptFewer(s, t, w.pinned, w.pinned - {o});
  }

  /** The states the webhook reads: for the reference, the order and the wallet, and at its update. */
  datatype Readings = Readings(searched: State, loaded: State, looked: State, claimed: State)

  /** With a connected creator the order is paid, without one it waits. */
  function TargetFor(looked: State, order: Order): OrderStatus {
    if order.product in looked.products && looked.products[order.product].creator in looked.connected
    then PaymentReceived
    else WaitingWallet
  }

  function ClaimReply(claimed: State, o: OrderId, ref: PaymentRef, target: OrderStatus): Reply {
    if RefTakenByOther(claimed, ref, o) then Duplicate else if target == PaymentReceived then Paid else Deferred
  }

  function WalletReply(looked: State, claimed: State, o: OrderId, ref: PaymentRef, order: Order): Reply {
    var target := TargetFor(looked, order);
    if CanTransition(order.status, target) then ClaimReply(claimed, o, ref, target) else Conflict
  }

  /** The handler read this state at this statement. */
  ghost predicate ReadAt(told: seq<Line>, pc: Pc, seen: State) {
    exists line :: line in told && line.pc == pc && line.seen == seen && line.answer != Throw
  }

  lemma ReadIn(a: seq<Line>, b: seq<Line>, pc: Pc, seen: State)
    ensures ReadAt(a, pc, seen) || ReadAt(b, pc, seen) ==> ReadAt(a + b, pc, seen)
  {
  }

  ghost predicate WalletRead(told: seq<Line>, o: OrderId, ref: PaymentRef, order: Order, looked: State, claimed: State)
  {
    var target := TargetFor(looked, order);
    && ReadAt(told, Paying(o, ref, FindWallet(order)), looked)
    && (CanTransition(order.status, target) ==> ReadAt(told, Paying(o, ref, ClaimRef(target, order.cents)), claimed))
  }

  ghost predicate OrderRead(told: seq<Line>, o: OrderId, ref: PaymentRef, r: Readings) {
    && ReadAt(told, Paying(o, ref, LoadOrder), r.loaded)
    && (o in r.loaded.orders ==> WalletRead(told, o, ref, r.loaded.orders[o], r.looked, r.claimed))
  }

  /** Each reading was made by the handler at its statement, as far as the handler got. */
  ghost predicate AllRead(told: seq<Line>, o: OrderId, ref: PaymentRef, r: Readings) {
    && ReadAt(told, Paying(o, ref, FindRef), r.searched)
    && (!RefTaken(r.searched, ref) ==> OrderRead(told, o, ref, r))
  }

  lemma WalletReadIn(a: seq<Line>, b: seq<Line>, o: OrderId, ref: PaymentRef, order: Order, looked: State,
                     claimed: State)
    requires WalletRead(b, o, ref, order, looked, claimed)
    ensures WalletRead(a + b, o, ref, order, looked, claimed)
  {
    ReadIn(a, b, Paying(o, ref, FindWallet(order)), looked);
    ReadIn(a, b, Paying(o, ref, ClaimRef(TargetFor(looked, order), order.cents)), claimed);
  }

  lemma OrderReadIn(a: seq<Line>, b: seq<Line>, o: OrderId, ref: PaymentRef, r: Readings)
    requires OrderRead(b, o, ref, r)
    ensures OrderRead(a + b, o, ref, r)
  {
    ReadIn(a, b, Paying(o, ref, LoadOrder), r.loaded);
    if o in r.loaded.orders {
      WalletReadIn(a, b, o, ref, r.loaded.orders[o], r.looked, r.claimed);
    }
  }

  /** The creator of the order's product has a wallet. */
  predicate CreatorConnected(s: State, order: Order) {
    order.product in s.products && s.products[order.product].creator in s.connected
  }

  /** The order as it was loaded may become paid or, without a wallet, deferred. */
  predicate Claimable(r: Readings, o: OrderId) {
    && o in r.loaded.orders
    && (var order := r.loaded.orders[o];
        if CreatorConnected(r.looked, order) then CanTransition(order.status, PaymentReceived)
        else CanTransition(order.status, WaitingWallet))
  }

  /** When each reply is given, by what the webhook read. */
  predicate ReplyFits(r: Readings, o: OrderId, ref: PaymentRef, reply: Reply) {
    var isNew := !RefTaken(r.searched, ref);
    var taken := RefTakenByOther(r.claimed, ref, o);
    match reply
    case Duplicate => !isNew || (Claimable(r, o) && taken)
    case NotFound => isNew && o !in r.loaded.orders
    case Conflict => isNew && o in r.loaded.orders && !Claimable(r, o)
    case Paid => isNew && Claimable(r, o) && !taken && CreatorConnected(r.looked, r.loaded.orders[o])
    case Deferred => isNew && Claimable(r, o) && !taken && !CreatorConnected(r.looked, r.loaded.orders[o])
    case DatabaseError => true
  }

  /** The webhook announced the payment. */
  ghost predicate Notified(told: seq<Line>) {
    exists line :: line in told && line.pc.Paying? && line.pc.pay.Notify?
  }

  lemma NotifiedIn(a: seq<Line>, b: seq<Line>)
    ensures Notified(a + b) <==> Notified(a) || Notified(b)
  {
  }

  /**
   * Each reply has its condition on what the webhook read, at each of its statements, and
   * exactly a paid order is announced. If an order no other activity concerns has the
   * reference, the reply is `Duplicate`; such an order, when it is the one paid for, is
   * read as it was before the call.
   */
  method HandleGcashPayment(w: World, h: nat, o: OrderId, ref: PaymentRef)
    returns (reply: Reply, ghost r: Readings, ghost told: seq<Line>)
    requires w.Valid() && w.At(h, Paying(o, ref, FindRef))
    modifies w
    ensures w.Valid() && old(w.log) <= w.log && w.Told(h) == old(w.Told(h)) + told
    ensures Replied(w, old(w.st), w.st, h, o, ref, reply)
    ensures reply == Paid ==> OnTheBus(w.st, o)
    ensures reply != DatabaseError ==> ReplyFits(r, o, ref, reply) && AllRead(told, o, ref, r)
    ensures Notified(told) <==> reply == Paid
    ensures reply != DatabaseError && (exists p :: p in w.pinned && SameReference(old(w.st), p, ref)) ==>
              reply == Duplicate
    ensures o in w.pinned && o in old(w.st.orders) && reply != DatabaseError && !RefTaken(r.searched, ref) ==>
              o in r.loaded.orders && r.loaded.orders[o] == old(w.st.orders[o])
  {
    ghost var start, before, more := w.st, w.Told(h), [];
    var answer, seen := w.Ask(h);
    ghost var searched := w.st;
    told, r := [Line(Paying(o, ref, FindRef), answer, seen)], Readings(seen, seen, seen, seen);
    if answer == Throw {
      reply := DatabaseError;
      Unchanged(w, start, searched, h, o, ref, reply);
      return;
    }
    assert told[0] in told && ReadAt(told, Paying(o, ref, FindRef), seen);
    HeldReference(start, seen, w.pinned, ref);
    if RefTaken(seen, ref) {
      reply := Duplicate;
      Unchanged(w, start, searched, h, o, ref, reply);
    } else {
      reply, r, more := LoadAndClaim(w, h, o, ref);
      RepliedLater(w, start, searched, w.st, h, o, ref, reply);
      SearchedFirst(told, more, seen, o, ref, r, reply);
      r := r.(searched := seen);
      Onward(before, told, more);
      told := told + more;
    }
  }

  /** The reference was free, and the order's readings came after. */
  lemma SearchedFirst(a: seq<Line>, b: seq<Line>, seen: State, o: OrderId, ref: PaymentRef, r: Readings, reply: Reply)
    requires ReadAt(a, Paying(o, ref, FindRef), seen) && !RefTaken(seen, ref) && !Notified(a)
    requires Notified(b) <==> reply == Paid
    requires reply != DatabaseError ==> LoadedReply(b, o, ref, r, reply)
    ensures reply != DatabaseError ==>
              ReplyFits(r.(searched := seen), o, ref, reply) && AllRead(a + b, o, ref, r.(searched := seen))
    ensures Notified(a + b) <==> reply == Paid
  {
    ReadIn(a, b, Paying(o, ref, FindRef), seen);
    NotifiedIn(a, b);
    if reply != DatabaseError {
      OrderReadIn(a, b, o, ref, r);
    }
  }

  /** The reply to the readings from the order on. */
  ghost predicate LoadedReply(told: seq<Line>, o: OrderId, ref: PaymentRef, r: Readings, reply: Reply) {
    && reply == (if o in r.loaded.orders then WalletReply(r.looked, r.claimed, o, ref, r.loaded.orders[o])
                 else NotFound)
    && OrderRead(told, o, ref, r)
  }

  predicate SameReference(s: State, p: OrderId, ref: PaymentRef) {
    p in s.orders && s.orders[p].paymentRef == Some(ref)
  }

  lemma HeldReference(s: State, seen: State, pinned: set<OrderId>, ref: PaymentRef)
    requires Kept(s, seen, pinned)
    ensures (exists p :: p in pinned && SameReference(s, p, ref)) ==> RefTaken(seen, ref)
  {
  }

  /** `r.searched` is not read here. */
  method LoadAndClaim(w: World, h: nat, o: OrderId, ref: PaymentRef)
    returns (reply: Reply, ghost r: Readings, ghost told: seq<Line>)
    requires w.Valid() && w.At(h, Paying(o, ref, LoadOrder))
    modifies w
    ensures w.Valid() && old(w.log) <= w.log && w.Told(h) == old(w.Told(h)) + told
    ensures Replied(w, old(w.st), w.st, h, o, ref, reply)
    ensures (reply == Paid ==> OnTheBus(w.st, o)) && (Notified(told) <==> reply == Paid)
    ensures reply != DatabaseError ==> LoadedReply(told, o, ref, r, reply)
    ensures o in w.pinned && o in old(w.st.orders) ==> o in r.loaded.orders && r.loaded.orders[o] == old(w.st.orders[o])
  {
    ghost var start, before, more := w.st, w.Told(h), [];
    var answer, seen := w.Ask(h);
    ghost var after := w.st;
    told, r := [Line(Paying(o, ref, LoadOrder), answer, seen)], Readings(seen, seen, seen, seen);
    assert told[0] in told && (answer != Throw ==> ReadAt(told, Paying(o, ref, LoadOrder), seen));
    if answer == Throw {
      reply := DatabaseError;
      Unchanged(w, start, after, h, o, ref, reply);
    } else if o !in seen.orders {
      reply := NotFound;
      Unchanged(w, start, after, h, o, ref, reply);
    } else {
      ghost var looked, claimed := seen, seen;
      reply, looked, claimed, more := ChooseAndClaim(w, h, o, ref, seen.orders[o]);
      r := Readings(seen, seen, looked, claimed);
      RepliedLater(w, start, after, w.st, h, o, ref, reply);
      ReadIn(told, more, Paying(o, ref, LoadOrder), seen);
      NotifiedIn(told, more);
      if reply != DatabaseError {
        WalletReadIn(told, more, o, ref, seen.orders[o], looked, claimed);
      }
      Onward(before, told, more);
      told := told + more;
    }
  }

  /** The creator's wallet decides between payment and deferral; the order's status must allow it. */
  method ChooseAndClaim(w: World, h: nat, o: OrderId, ref: PaymentRef, order: Order)
    returns (reply: Reply, ghost looked: State, ghost claimed: State, ghost told: seq<Line>)
    requires w.Valid() && w.At(h, Paying(o, ref, FindWallet(order)))
    requires o in w.pinned ==> o in w.st.orders && w.st.orders[o] == order
    modifies w
    ensures w.Valid() && old(w.log) <= w.log && w.Told(h) == old(w.Told(h)) + told
    ensures Replied(w, old(w.st), w.st, h, o, ref, reply)
    ensures (reply == Paid ==> OnTheBus(w.st, o)) && (Notified(told) <==> reply == Paid)
    ensures reply != DatabaseError ==>
              && reply == WalletReply(looked, claimed, o, ref, order)
              && WalletRead(told, o, ref, order, looked, claimed)
  {
    ghost var start, before, pc, more := w.st, w.Told(h), Paying(o, ref, FindWallet(order)), [];
    var answer, seen := w.Ask(h);
    ghost var after := w.st;
    told, looked, claimed := [Line(pc, answer, seen)], seen, seen;
    assert told[0] in told && (answer != Throw ==> ReadAt(told, pc, seen));
    if answer == Throw {
      reply := DatabaseError;
      Unchanged(w, start, after, h, o, ref, reply);
      return;
    }
    var hasWallet := order.product in seen.products && seen.products[order.product].creator in seen.connected;
    var target := if hasWallet then PaymentReceived else WaitingWallet;
    if !CanTransition(order.status, target) {
      reply := Conflict;
      Unchanged(w, start, after, h, o, ref, reply);
      return;
    }
    reply, claimed, more := ClaimAndNotify(w, h, o, ref, target, order.cents);
    RepliedLater(w, start, after, w.st, h, o, ref, reply);
    ReadIn(told, more, pc, seen);
    NotifiedIn(told, more);
    ReadIn(told, more, Paying(o, ref, ClaimRef(target, order.cents)), claimed);
    Onward(before, told, more);
    told := told + more;
  }

  method ClaimAndNotify(w: World, h: nat, o: OrderId, ref: PaymentRef, target: OrderStatus, cents: nat)
    returns (reply: Reply, ghost claimed: State, ghost told: seq<Line>)
    requires w.Valid() && w.At(h, Paying(o, ref, ClaimRef(target, cents)))
    requires target == PaymentReceived || target == WaitingWallet
    requires o in w.pinned && o in w.st.orders ==> CanTransition(w.st.orders[o].status, target)
    modifies w
    ensures w.Valid() && old(w.log) <= w.log && w.Told(h) == old(w.Told(h)) + told
    ensures Replied(w, old(w.st), w.st, h, o, ref, reply)
    ensures (reply == Paid ==> OnTheBus(w.st, o)) && (Notified(told) <==> reply == Paid)
    ensures reply != DatabaseError ==>
              reply == ClaimReply(claimed, o, ref, target)
              && ReadAt(told, Paying(o, ref, ClaimRef(target, cents)), claimed)
  {
    ghost var start, before, pc, line := w.st, w.Told(h), Paying(o, ref, ClaimRef(target, cents)), [];
    var ok, answer;
    ok, answer, claimed := w.Claim(h, o, target, ref, cents);
    ghost var after := w.st;
    told := [Line(pc, answer, claimed)];
    assert told[0] in told && (answer != Throw ==> ReadAt(told, pc, claimed));
    if !ok {
      reply := if answer == Throw then DatabaseError else Duplicate;
      Unchanged(w, start, after, h, o, ref, reply);
    } else if target == PaymentReceived {
      line := Notify(w, h, o, ref, cents);
      RepliedOn(w, start, after, w.st, h, o, ref, Paid);
      ReadIn(told, line, pc, claimed);
      NotifiedIn(told, line);
      Onward(before, told, line);
      told := told + line;
      reply := Paid;
    } else {
      reply := Deferred;
    }
  }

  method Notify(w: World, h: nat, o: OrderId, ref: PaymentRef, cents: nat) returns (ghost told: seq<Line>)
    requires w.Valid() && w.At(h, Paying(o, ref, PayPc.Notify(cents)))
    modifies w
    ensures w.Valid() && old(w.log) <= w.log && h !in w.st.acts && w.Told(h) == old(w.Told(h)) + told
    ensures Kept(old(w.st), w.st, w.pinned) && OnTheBus(w.st, o) && Notified(told)
  {
    ghost var line := Line(Recovering(FindStuck), Good, w.st);
    var ok;
    ok, line := w.EmitPayment(h, Payment(o, cents));
    told := [line];
    assert line in told;
    w.Sound();
    EmittedAtPrice(w.st, o, cents);
  }

  /** The order was claimed, and a step that keeps it came after. */
  lemma RepliedOn(w: World, s: State, claimed: State, t: State, h: nat, o: OrderId, ref: PaymentRef, reply: Reply)
    requires Kept(s, claimed, w.pinned - {o}) && Kept(claimed, t, w.pinned) && h !in t.acts && reply == Paid
    requires o in w.pinned && o in s.orders ==> ReplyHolds(s, claimed, o, ref, reply)
    ensures Replied(w, s, t, h, o, ref, reply)
  {
    KeptFewer(claimed, t, w.pinned, w.pinned - {o});
    KeptTransitive(s, claimed, t, w.pinned - {o});
  }

  lemma EmittedAtPrice(s: State, o: OrderId, cents: nat)
    requires EventsOk(s) && exists e :: e in s.payments && s.payments[e] == Payment(o, cents)
    ensures OnTheBus(s, o)
  {
    var e :| e in s.payments && s.payments[e] == Payment(o, cents);
    assert Priced(s, s.payments[e].order, s.payments[e].cents);
  }

  // ------------------------------------------------------------- checkout and connection

  lemma StepKeepsProducts(s: State, action: Action, o: OrderId)
    ensures s.products.Keys <= Protocol.Step(s, action).products.Keys
    ensures o !in s.orders && !(action.Checkout? && action.order == o) ==> o !in Protocol.Step(s, action).orders
  {
    if action.Act? {
      if action.actor in s.acts {
        PerformKeepsProducts(s, Decide(s, action.actor, s.acts[action.actor], action.answer).effect);
      }
    } else if action.Include? {
      InclusionKeepsShop(s, action.tx, action.executed);
    } else if action.PutProduct? || action.Checkout? || action.Resume? {
      ShopKeepsProducts(s, action, o);
    } else {
      QuietKeepsShop(s, action);
    }
  }

  lemma InclusionKeepsShop(s: State, tx: nat, executed: bool)
    ensures var t := Protocol.Step(s, Include(tx, executed)); t.products == s.products && t.orders == s.orders
  {
  }

  lemma QuietKeepsShop(s: State, action: Action)
    requires !(action.Act? || action.Include? || action.PutProduct? || action.Checkout? || action.Resume?)
    ensures var t := Protocol.Step(s, action); t.products == s.products && t.orders == s.orders
  {
    match action {
      case Connect(_) =>
      case Webhook(_, _) =>
      case Dispatch(_) =>
      case Bootstrap =>
      case Deliver(_) =>
      case Outside(_) =>
      case Crash =>
    }
  }

  lemma ShopKeepsProducts(s: State, action: Action, o: OrderId)
    requires action.PutProduct? || action.Checkout? || action.Resume?
    ensures s.products.Keys <= Protocol.Step(s, action).products.Keys
    ensures o !in s.orders && !(action.Checkout? && action.order == o) ==> o !in Protocol.Step(s, action).orders
  {
  }

  lemma PerformKeepsProducts(s: State, effect: Effect)
    ensures Perform(s, effect).products == s.products && Perform(s, effect).orders.Keys == s.orders.Keys
  {
    match effect {
      case Write(_, _, _) =>
      case Claim(_, _, _) =>
      case _ =>
    }
  }

  /** Whatever happens between the two statements of a checkout; the new order's id is used by nobody else. */
  method Meanwhile(w: World, o: OrderId)
    requires w.Valid() && o !in w.st.orders
    modifies w
    ensures w.Valid() && old(w.log) <= w.log
    ensures o !in w.st.orders && old(w.st).products.Keys <= w.st.products.Keys
  {
    var others := if w.script == [] then [] else w.script[0].others;
    w.script := if w.script == [] then [] else w.script[1..];
    for i := 0 to |others|
      invariant w.Valid() && old(w.log) <= w.log
      invariant o !in w.st.orders && old(w.st).products.Keys <= w.st.products.Keys
    {
      if !(others[i].Checkout? && others[i].order == o) {
        StepKeepsProducts(w.st, others[i], o);
        w.Do(others[i]);
      }
    }
  }

  /**
   * A new order carries the price its product had when it was read, whatever happened to
   * the product before the order was created, in the state `created`, or happens later.
   */
  method Checkout(w: World, o: OrderId, product: ProductId) returns (cents: Option<nat>, ghost created: State)
    requires w.Valid() && o !in w.st.orders
    modifies w
    ensures w.Valid() && old(w.log) <= w.log
    ensures cents == if product in old(w.st).products && old(w.st).products[product].active
                     then Some(old(w.st).products[product].cents) else None
    ensures cents.None? ==> w.st == old(w.st)
    ensures cents.Some? ==>
              && |old(w.log)| < |w.log| && created == w.trail[|w.log| - 1] && o !in created.orders
              && w.st.orders == created.orders[o := Order(product, cents.value, PaymentPending, None, None)]
              && w.st == created.(orders := w.st.orders)
  {
    created := w.st;
    if product !in w.st.products || !w.st.products[product].active {
      return None, created;
    }
    cents := Some(w.st.products[product].cents);
    Meanwhile(w, o);
    created := w.st;
    ghost var tr := w.Past();
    w.Do(Action.Checkout(o, product, cents.value));
    SameTrail(tr, w.Past(), |tr.log|);
  }

  predicate IsWaitingFor(s: State, creator: CreatorId, o: OrderId) {
    && o in s.orders && s.orders[o].status == WaitingWallet
    && s.orders[o].product in s.products && s.products[s.orders[o].product].creator == creator
  }

  /** The events of the first `|found|` resumed orders, at their prices and under new numbers. */
  ghost predicate Resumed(s: State, t: State, found: seq<OrderId>) {
    && t == s.(payments := t.payments, next := s.next + |found|)
    && (forall e :: e in t.payments <==> e in s.payments || s.next <= e < s.next + |found|)
    && (forall e :: e in s.payments && e < s.next ==> t.payments[e] == s.payments[e])
    && (forall i :: 0 <= i < |found| && found[i] in s.orders ==>
          t.payments[s.next + i] == Payment(found[i], s.orders[found[i]].cents))
  }

  /**
   * Connecting a wallet re-emits a payment for every order that waits for this creator,
   * once each, and for no other; no order's record changes.
   */
  method ConnectWallet(w: World, creator: CreatorId) returns (found: seq<OrderId>)
    requires w.Valid()
    modifies w
    ensures w.Valid() && old(w.log) <= w.log
    ensures NoDuplicates(found)
    ensures forall o :: o in found <==>
              && o in old(w.st.orders) && old(w.st.orders)[o].status == WaitingWallet
              && old(w.st.orders)[o].product in old(w.st.products)
              && old(w.st.products)[old(w.st.orders)[o].product].creator == creator
    ensures Resumed(old(w.st).(connected := old(w.st).connected + {creator}), w.st, found)
  {
    w.Do(Connect(creator));
    found := WaitingFor(w.st, creator);
    forall i | 0 <= i < |found| ensures found[i] in w.st.orders {
      assert IsWaitingFor(w.st, creator, found[i]);
    }
    ResumeOrders(w, found);
  }

  method ResumeOrders(w: World, found: seq<OrderId>)
    requires w.Valid() && forall i :: 0 <= i < |found| ==> found[i] in w.st.orders
    modifies w
    ensures w.Valid() && old(w.log) <= w.log
    ensures Resumed(old(w.st), w.st, found)
  {
    ghost var start := w.st;
    NoneResumed(w);
    for i := 0 to |found|
      invariant w.Valid() && old(w.log) <= w.log
      invariant Resumed(start, w.st, found[..i])
    {
      assert found[..i + 1] == found[..i] + [found[i]];
      OneResumed(start, w.st, found[..i], found[i]);
      w.Do(Resume(found[i]));
    }
    assert found[..|found|] == found;
  }

  lemma NoneResumed(w: World)
    requires w.Valid()
    ensures Resumed(w.st, w.st, [])
  {
    w.Sound();
    assert EventsOk(w.st);
  }

  lemma OneResumed(s: State, t: State, found: seq<OrderId>, o: OrderId)
    requires Resumed(s, t, found) && o in s.orders
    ensures Resumed(s, Protocol.Step(t, Resume(o)), found + [o])
  {
    var u := t.(payments := t.payments[t.next := Payment(o, t.orders[o].cents)], next := t.next + 1);
    assert Protocol.Step(t, Resume(o)) == u;
  }

  method WaitingFor(s: State, creator: CreatorId) returns (found: seq<OrderId>)
    ensures NoDuplicates(found) && forall o :: o in found <==> IsWaitingFor(s, creator, o)
  {
    var ids := Enumerate(s.orders.Keys);
    found := [];
    for i := 0 to |ids|
      invariant NoDuplicates(found)
      invariant forall o :: o in found <==> IsWaitingFor(s, creator, o) && o in ids[..i]
    {
      assert ids[..i + 1] == ids[..i] + [ids[i]];
      assert ids[i] !in ids[..i];
      if IsWaitingFor(s, creator, ids[i]) {
        found := found + [ids[i]];
      }
    }
    assert ids[..|ids|] == ids;
  }

  // ------------------------------------------------------------------------- delivery

  /** Sends the goods for one `settlement.completed`, once over the whole run. */
  method HandleSettlementCompleted(w: World, h: nat, event: nat) returns (sent: bool)
    requires w.Valid() && w.At(h, Delivering(event, LoadBuyer))
    modifies w
    ensures w.Valid() && old(w.log) <= w.log
    ensures w.reliable ==> sent
    ensures sent ==> event in w.st.mails
    ensures NoDuplicates(w.st.mails)
  {
    var answer, seen := w.Await(h);
    sent := answer != Throw;
    if sent {
      w.Mail(h, event);
    }
    w.Sound();
  }
}
