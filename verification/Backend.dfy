/**
 * The backend as it is written: handlers that run statement by statement, loop over
 * retries, polls and stuck orders, and call one another. `World` is everything they
 * share. Before each of a handler's statements the other activities may take any steps,
 * and the environment answers; each method is proved to be a run of the protocol, so
 * all of the protocol's guarantees hold at every point of this code.
 */
module Backend {
  import opened Types
  import opened OrderStates
  import opened Protocol
  import opened Safety
  import opened Serial
  import opened Guarantees
  import Contract
  import Ledger

  /** What happens before one statement of a handler, and how the statement is answered. */
  datatype Beat = Beat(others: seq<Action>, answer: Answer)

  /** The orders an action writes, records or submits a transaction for. */
  function Concerns(s: State, action: Action): set<OrderId> {
    if action.Act? && action.actor in s.acts then
      var effect := Decide(s, action.actor, s.acts[action.actor], action.answer).effect;
      if effect.Submit? then {effect.terms.order} else Target(effect)
    else {}
  }

  /**
   * What other activities may do while handler `h` runs: anything but act for `h`,
   * crash the process, concern an order in `pinned`, or leave a product without
   * collaborators while orders are pinned.
   */
  predicate MayInterfere(s: State, h: nat, pinned: set<OrderId>, action: Action) {
    && !action.Crash?
    && !(action.Act? && action.actor == h)
    && Concerns(s, action) !! pinned
    && (action.PutProduct? && pinned != {} ==> action.contents.collaborators != [])
  }

  predicate SellableProduct(s: State, p: ProductId) {
    p in s.products && s.products[p].collaborators != []
  }

  /** The records of the pinned orders are untouched, and what was sellable still is. */
  ghost predicate Kept(s: State, t: State, pinned: set<OrderId>) {
    && (forall o :: o in pinned && o in s.orders ==> o in t.orders && t.orders[o] == s.orders[o])
    && (forall o :: o in pinned ==> (o in t.rows <==> o in s.rows))
    && (forall o :: o in pinned && o in s.rows ==> t.rows[o] == s.rows[o])
    && NoNewTx(s, t, pinned)
    && StillSellable(s, t, pinned)
    && s.emitted <= t.emitted
  }

  /** As long as orders are pinned, what was sellable still is. */
  ghost predicate StillSellable(s: State, t: State, pinned: set<OrderId>) {
    pinned != {} ==> forall p :: SellableProduct(s, p) ==> SellableProduct(t, p)
  }

  /** No transaction was submitted for the pinned orders. */
  ghost predicate NoNewTx(s: State, t: State, pinned: set<OrderId>) {
    forall x :: x in t.txs && t.txs[x].terms.order in pinned ==> x in s.txs && t.txs[x].terms == s.txs[x].terms
  }

  lemma KeptTransitive(s: State, t: State, u: State, pinned: set<OrderId>)
    requires Kept(s, t, pinned) && Kept(t, u, pinned)
    ensures Kept(s, u, pinned)
  {
  }

  lemma PerformKeeps(s: State, effect: Effect, pinned: set<OrderId>)
    requires Target(effect) !! pinned && (effect.Submit? ==> effect.terms.order !in pinned)
    ensures Kept(s, Perform(s, effect), pinned) && Perform(s, effect).acts == s.acts
  {
    if effect.Submit? {
      SubmitKeepsOthers(s, effect.terms, pinned);
    } else if effect.Write? || effect.Claim? {
      OrderKeepsOthers(s, effect, pinned);
    }
  }

  lemma SubmitKeepsOthers(s: State, terms: Terms, pinned: set<OrderId>)
    requires terms.order !in pinned
    ensures Kept(s, Perform(s, Submit(terms)), pinned)
  {
  }

  lemma OrderKeepsOthers(s: State, effect: Effect, pinned: set<OrderId>)
    requires (effect.Write? || effect.Claim?) && effect.order !in pinned
    ensures Kept(s, Perform(s, effect), pinned)
  {
  }

  lemma MoveKept(s: State, h: nat, pinned: set<OrderId>, k: nat, move: Move)
    requires h in s.acts && h < s.next && k != h && Kept(s, Perform(s, move.effect), pinned)
    requires Perform(s, move.effect).acts == s.acts && s.next <= Perform(s, move.effect).next
    ensures var t := Continue(Perform(s, move.effect), k, move.next);
      Kept(s, t, pinned) && h in t.acts && t.acts[h] == s.acts[h] && h < t.next
  {
    var u := Perform(s, move.effect);
    match move.next {
      case None => assert Continue(u, k, move.next) == u.(acts := u.acts - {k});
      case Some(pc) => assert Continue(u, k, move.next) == u.(acts := u.acts[k := pc]);
    }
  }

  lemma ActKept(s: State, h: nat, pinned: set<OrderId>, k: nat, answer: Answer)
    requires h in s.acts && h < s.next && MayInterfere(s, h, pinned, Act(k, answer))
    ensures var t := ActStep(s, k, answer); Kept(s, t, pinned) && h in t.acts && t.acts[h] == s.acts[h] && h < t.next
  {
    if k in s.acts {
      var move := Decide(s, k, s.acts[k], answer);
      PerformKeeps(s, move.effect, pinned);
      PerformShop(s, move.effect);
      MoveKept(s, h, pinned, k, move);
    }
  }

  lemma IncludeKept(s: State, tx: nat, executed: bool, pinned: set<OrderId>)
    ensures var t := IncludeStep(s, tx, executed); Kept(s, t, pinned) && t.acts == s.acts && t.next == s.next
  {
    var t := IncludeStep(s, tx, executed);
    assert t.orders == s.orders && t.rows == s.rows && t.products == s.products;
    forall x | x in t.txs ensures x in s.txs && t.txs[x].terms == s.txs[x].terms {
    }
  }

  lemma StartKept(s: State, u: State, h: nat, pinned: set<OrderId>, pc: Pc)
    requires h in s.acts && h < s.next && SameRecords(s, u) && u.products == s.products && u.emitted == s.emitted
    requires u.acts == s.acts && u.next == s.next
    ensures var t := Start(u, pc); Kept(s, t, pinned) && h in t.acts && t.acts[h] == s.acts[h] && h < t.next
  {
  }

  lemma BusKept(s: State, h: nat, pinned: set<OrderId>, action: Action)
    requires h in s.acts && h < s.next
    requires action.Webhook? || action.Dispatch? || action.Bootstrap? || action.Deliver?
    ensures var t := Protocol.Step(s, action); Kept(s, t, pinned) && h in t.acts && t.acts[h] == s.acts[h] && h < t.next
  {
    if action.Webhook? {
      StartKept(s, s, h, pinned, Paying(action.order, action.ref, FindRef));
    } else if action.Bootstrap? {
      StartKept(s, s, h, pinned, Recovering(FindStuck));
    } else if action.Dispatch? {
      if action.event in s.payments {
        var taken := s.(payments := s.payments - {action.event});
        StartKept(s, taken, h, pinned, Settling(s.payments[action.event], ReadOrder));
      }
    } else if action.event in s.undelivered {
      StartKept(s, s.(undelivered := s.undelivered - {action.event}), h, pinned, Delivering(action.event, LoadBuyer));
    }
  }

  lemma RestockKept(s: State, pinned: set<OrderId>, p: ProductId, contents: Product)
    requires pinned != {} ==> contents.collaborators != []
    ensures Kept(s, s.(products := s.products[p := contents]), pinned)
  {
  }

  lemma ShopKept(s: State, pinned: set<OrderId>, action: Action)
    requires action.Connect? || action.Checkout? || action.Resume?
    ensures var t := Protocol.Step(s, action); Kept(s, t, pinned) && t.acts == s.acts && s.next <= t.next
  {
  }

  lemma OutsideKept(s: State, pinned: set<OrderId>, chain: Contract.Chain)
    ensures Kept(s, s.(chain := chain), pinned)
  {
  }

  lemma InterferenceKept(s: State, h: nat, pinned: set<OrderId>, action: Action)
    requires h in s.acts && h < s.next && MayInterfere(s, h, pinned, action)
    ensures var t := Protocol.Step(s, action); Kept(s, t, pinned) && h in t.acts && t.acts[h] == s.acts[h] && h < t.next
  {
    if action.Act? {
      ActKept(s, h, pinned, action.actor, action.answer);
    } else if action.Include? {
      IncludeKept(s, action.tx, action.executed, pinned);
    } else if action.Webhook? || action.Dispatch? || action.Bootstrap? || action.Deliver? {
      BusKept(s, h, pinned, action);
    } else if action.PutProduct? {
      RestockKept(s, pinned, action.product, action.contents);
    } else if action.Outside? {
      OutsideKept(s, pinned, Protocol.Step(s, action).chain);
    } else {
      ShopKept(s, pinned, action);
    }
  }

  // ------------------------------------------------------------------ what was heard

  /** The states a run goes through: the last one is where it is. */
  ghost predicate IsTrail(origin: State, log: seq<Action>, trail: seq<State>) {
    && |trail| == |log| + 1 && trail[0] == origin
    && (forall i {:trigger Follows(log, trail, i)} :: 0 <= i < |log| ==> Follows(log, trail, i))
  }

  ghost predicate Follows(log: seq<Action>, trail: seq<State>, i: nat)
    requires i < |log| && |trail| == |log| + 1
  {
    trail[i + 1] == Protocol.Step(trail[i], log[i])
  }

  lemma {:induction false} TrailIsRun(origin: State, log: seq<Action>, trail: seq<State>, k: nat)
    requires IsTrail(origin, log, trail) && k <= |log|
    ensures trail[k] == Run(origin, log[..k])
  {
    if k > 0 {
      TrailIsRun(origin, log, trail, k - 1);
      assert Follows(log, trail, k - 1);
      assert log[..k] == log[..k - 1] + [log[k - 1]];
      RunAppend(origin, log[..k - 1], [log[k - 1]]);
    }
  }

  lemma TrailGrows(origin: State, log: seq<Action>, trail: seq<State>, action: Action)
    requires IsTrail(origin, log, trail)
    ensures IsTrail(origin, log + [action], trail + [Protocol.Step(trail[|log|], action)])
  {
    var longer, more := log + [action], trail + [Protocol.Step(trail[|log|], action)];
    forall i | 0 <= i < |longer| ensures Follows(longer, more, i) {
      assert i < |log| ==> Follows(log, trail, i);
    }
  }

  /** A run of the protocol so far. */
  datatype Trace = Trace(origin: State, log: seq<Action>, trail: seq<State>)

  /** `later` is the same run, gone on. */
  ghost predicate Continues(tr: Trace, later: Trace) {
    && IsTrail(tr.origin, tr.log, tr.trail) && IsTrail(later.origin, later.log, later.trail)
    && later.origin == tr.origin && tr.log <= later.log
  }

  lemma {:induction false} SameTrail(tr: Trace, later: Trace, k: nat)
    requires Continues(tr, later) && k <= |tr.log|
    ensures later.trail[k] == tr.trail[k]
  {
    if k > 0 {
      SameTrail(tr, later, k - 1);
      assert Follows(tr.log, tr.trail, k - 1) && Follows(later.log, later.trail, k - 1);
      assert tr.log[k - 1] == later.log[k - 1];
    }
  }

  /** One statement of a handler: where it was, what it was answered, and on which state. */
  datatype Line = Line(pc: Pc, answer: Answer, seen: State)

  /** What a step tells handler `h`: something only if it is its own step. */
  ghost function LineOf(s: State, action: Action, h: nat): seq<Line> {
    if action.Act? && action.actor == h && h in s.acts && Truthful(s, s.acts[h], action.answer)
    then [Line(s.acts[h], action.answer, s)]
    else []
  }

  /** Everything handler `h` has been told in a run, in order. */
  ghost function Lines(log: seq<Action>, trail: seq<State>, h: nat): seq<Line>
    requires |trail| == |log| + 1
    decreases |log|
  {
    if log == [] then []
    else
      var n := |log| - 1;
      Lines(log[..n], trail[..n + 1], h) + LineOf(trail[n], log[n], h)
  }

  lemma LinesGrow(log: seq<Action>, trail: seq<State>, action: Action, next: State, h: nat)
    requires |trail| == |log| + 1
    ensures Lines(log + [action], trail + [next], h) == Lines(log, trail, h) + LineOf(trail[|log|], action, h)
  {
    var longer, more := log + [action], trail + [next];
    assert longer[..|log|] == log && more[..|log| + 1] == trail;
  }

  /** Every order id, each once: what a `findMany` over all orders goes through. */
  method Enumerate(ids: set<OrderId>) returns (list: seq<OrderId>)
    ensures NoDuplicates(list) && forall o :: o in list <==> o in ids
  {
    list := [];
    var left := ids;
    while left != {}
      invariant left <= ids && NoDuplicates(list)
      invariant forall o :: o in list <==> o in ids && o !in left
    {
      var o :| o in left;
      left := left - {o};
      list := list + [o];
    }
  }

  // --------------------------------------------------------- statements that write

  /** The order update a point executes; `Nothing` at points that execute none. */
  function UpdateAt(pc: Pc): Effect {
    match pc
    case Settling(job, at) =>
      (match at
       case MarkPending(_, _) => Write(job.order, SettlementPending, Keep)
       case FailLow(_) => Write(job.order, SettlementFailed, Keep)
       case Fail(hash, _) => Write(job.order, SettlementFailed, if hash.Some? then Put(hash.value) else Keep)
       case AdoptRow(rowHash) => Write(job.order, Settled, Put(rowHash))
       case MarkEarly => Write(job.order, Settled, Keep)
       case _ => Nothing)
    case Recording(o, at, _) =>
      (match at
       case FailUnshared => Write(o, SettlementFailed, Keep)
       case MarkSettled(hash) => Write(o, Settled, Put(hash))
       case _ => Nothing)
    case Recovering(at) =>
      (match at
       case FailUnsettled(snap, _) => Write(snap.order, SettlementFailed, Keep)
       case AdoptSettled(snap, _) => Write(snap.order, Settled, Keep)
       case FailReverted(snap, _) => Write(snap.order, SettlementFailed, Keep)
       case FailRechecked(snap, _) => Write(snap.order, SettlementFailed, Keep)
       case Rollback(snap, _) => Write(snap.order, PaymentReceived, Clear)
       case _ => Nothing)
    case _ => Nothing
  }

  /** Where a point that updates an order goes next. */
  function AfterUpdate(pc: Pc, ok: bool): Option<Pc> {
    match pc
    case Settling(job, at) =>
      (match at
       case MarkPending(product, known) =>
         if ok then Some(Settling(job, LoadShares(product, known))) else FailSafe(job).next
       case FailLow(list) => if ok then None else Some(Settling(job, GetAccount(list, 0)))
       case Fail(_, last) => if ok || last then None else FailSafe(job).next
       case MarkEarly =>
         if ok then Some(Recording(job.order, ReloadOrder(Placeholder(job.order)), Handler(job)))
         else FailSafe(job).next
       case _ => if ok then None else FailSafe(job).next)
    case Recording(o, at, caller) =>
      if !ok then OnError(caller)
      else if at.MarkSettled? then Some(Recording(o, RecordPc.Announce, caller))
      else OnReturn(caller)
    case Recovering(at) =>
      if at.FindStuck? then None
      else if at.Rollback? && ok then Some(Recovering(ReemitRolledBack(at.snap, at.rest)))
      else if at.FailRechecked? && !ok then Some(Recovering(Rollback(at.snap, at.rest)))
      else NextStuck(at.rest)
    case _ => None
  }

  lemma UpdateDecided(s: State, h: nat, pc: Pc, answer: Answer)
    requires UpdateAt(pc).Write?
    ensures AsksDatabase(pc)
    ensures var move := Decide(s, h, pc, answer);
      && move.effect == (if answer == Throw then Nothing else UpdateAt(pc))
      && move.next == AfterUpdate(pc, answer != Throw)
  {
    match pc {
      case Settling(job, at) =>
      case Recording(o, at, caller) =>
      case Recovering(at) =>
      case _ =>
    }
  }

  /** The order's record, as far as it exists, after an update of it. */
  ghost predicate Updated(s: State, t: State, o: OrderId, status: OrderStatus, hash: HashWrite) {
    && (o in s.orders ==>
          o in t.orders && t.orders[o] == s.orders[o].(status := status, txHash := Written(s.orders[o].txHash, hash)))
    && SameRow(s, t, o)
  }

  ghost predicate SameRow(s: State, t: State, o: OrderId) {
    (o in t.rows <==> o in s.rows) && (o in s.rows ==> t.rows[o] == s.rows[o])
  }

  lemma UpdateKept(s: State, seen: State, pinned: set<OrderId>, o: OrderId, status: OrderStatus, hash: HashWrite)
    requires Kept(s, seen, pinned)
    ensures var t := Perform(seen, Write(o, status, hash));
      Kept(s, t, pinned - {o}) && (o in pinned ==> Updated(s, t, o, status, hash))
  {
    KeptFewer(s, seen, pinned, pinned - {o});
    var t := Perform(seen, Write(o, status, hash));
    PerformKeeps(seen, Write(o, status, hash), pinned - {o});
    KeptTransitive(s, seen, t, pinned - {o});
  }

  /** The state after an update statement, whether it was executed or failed. */
  lemma UpdateDone(s: State, seen: State, h: nat, pinned: set<OrderId>, o: OrderId, status: OrderStatus,
                   hash: HashWrite, ok: bool, next: Option<Pc>)
    requires Kept(s, seen, pinned)
    ensures var t := Continue(Perform(seen, if ok then Write(o, status, hash) else Nothing), h, next);
      && NoNewTx(s, t, pinned) && StillSellable(s, t, pinned)
      && (ok ==> Kept(s, t, pinned - {o}) && (o in pinned ==> Updated(s, t, o, status, hash)))
      && (!ok ==> Kept(s, t, pinned))
  {
    if ok {
      UpdateKept(s, seen, pinned, o, status, hash);
      var u := Perform(seen, Write(o, status, hash));
      KeptOn(s, u, h, next, pinned - {o});
      SameOnward(s, seen, u, h, next, pinned);
    } else {
      KeptOn(s, seen, h, next, pinned);
    }
  }

  lemma SameOnward(s: State, seen: State, u: State, h: nat, next: Option<Pc>, pinned: set<OrderId>)
    requires NoNewTx(s, seen, pinned) && StillSellable(s, seen, pinned)
    requires u.txs == seen.txs && u.products == seen.products
    ensures var t := Continue(u, h, next);
      NoNewTx(s, t, pinned) && StillSellable(s, t, pinned) && t.orders == u.orders && t.rows == u.rows
  {
  }

  lemma KeptFewer(s: State, t: State, pinned: set<OrderId>, fewer: set<OrderId>)
    requires Kept(s, t, pinned) && fewer <= pinned
    ensures Kept(s, t, fewer)
  {
  }

  lemma KeptOn(s: State, t: State, h: nat, next: Option<Pc>, pinned: set<OrderId>)
    requires Kept(s, t, pinned)
    ensures Kept(s, Continue(t, h, next), pinned)
  {
  }

  /** The answer the environment gives: the scripted one, where it can be given. */
  method AnswerFor(s: State, pc: Pc, scripted: Answer, reliable: bool) returns (answer: Answer)
    ensures Truthful(s, pc, answer)
    ensures reliable && AsksDatabase(pc) ==> answer != Throw
    ensures pc == Recovering(FindStuck) && answer != Throw ==>
              answer.Rows? && NoDuplicates(answer.ids) && forall o :: o in answer.ids <==> o in s.orders
  {
    answer := scripted;
    if reliable && AsksDatabase(pc) && answer == Throw {
      answer := Absent;
    }
    if pc == Recovering(FindStuck) {
      if answer != Throw {
        var ids := Enumerate(s.orders.Keys);
        answer := Rows(ids);
      }
    } else if !Truthful(s, pc, answer) {
      answer := Absent;
    }
  }

  // ------------------------------------------------------- statements that add records

  ghost predicate SameOrder(s: State, t: State, o: OrderId) {
    o in s.orders ==> o in t.orders && t.orders[o] == s.orders[o]
  }

  predicate CreatesAt(pc: Pc, h: nat, o: OrderId, row: Row) {
    && pc.Recording? && pc.order == o
    && pc.record == CreateRow(row.total, row.recipients, row.txHash, row.direct)
    && row == NewRow(row.total, row.recipients, row.txHash, row.direct, h)
  }

  lemma CreateDecided(s: State, h: nat, o: OrderId, row: Row, caller: Caller, answer: Answer)
    requires row == NewRow(row.total, row.recipients, row.txHash, row.direct, h)
    ensures Decide(s, h, Recording(o, CreateRow(row.total, row.recipients, row.txHash, row.direct), caller), answer)
         == if answer != Throw && o !in s.rows
            then Move(Insert(o, row), Some(Recording(o, MarkSettled(row.txHash), caller)))
            else Move(Nothing, OnError(caller))
  {
  }

  lemma CreateKept(s: State, seen: State, pinned: set<OrderId>, o: OrderId, row: Row)
    requires Kept(s, seen, pinned)
    ensures var t := Perform(seen, Insert(o, row));
      Kept(s, t, pinned - {o}) && (o in pinned ==> SameOrder(s, t, o)) && o in t.rows && t.rows[o] == row
  {
    KeptFewer(s, seen, pinned, pinned - {o});
    var t := Perform(seen, Insert(o, row));
    PerformKeeps(seen, Insert(o, row), pinned - {o});
    KeptTransitive(s, seen, t, pinned - {o});
  }

  /** The state after a row was to be created, whether it was or not. */
  lemma CreateDone(s: State, seen: State, h: nat, pinned: set<OrderId>, o: OrderId, row: Row, ok: bool,
                   next: Option<Pc>)
    requires Kept(s, seen, pinned)
    ensures var t := Continue(Perform(seen, if ok then Insert(o, row) else Nothing), h, next);
      && NoNewTx(s, t, pinned)
      && (ok ==> Kept(s, t, pinned - {o}))
      && (ok && o in pinned ==> SameOrder(s, t, o) && o in t.rows && t.rows[o] == row)
      && (!ok ==> Kept(s, t, pinned))
  {
    if ok {
      CreateKept(s, seen, pinned, o, row);
      var u := Perform(seen, Insert(o, row));
      KeptOn(s, u, h, next, pinned - {o});
      SameOnward(s, seen, u, h, next, pinned);
    } else {
      KeptOn(s, seen, h, next, pinned);
    }
  }

  /** The payment event a point emits. */
  function EmitAt(pc: Pc): Option<Payment> {
    match pc
    case Paying(o, _, at) => if at.Notify? then Some(Payment(o, at.cents)) else None
    case Recovering(at) =>
      if at.Reemit? || at.ReemitRolledBack? then Some(Payment(at.snap.order, at.snap.cents)) else None
    case _ => None
  }

  /** Recovery reads the creator's wallet before it emits a payment again. */
  predicate MayFailToEmit(pc: Pc) {
    pc.Recovering? && pc.recover.Reemit?
  }

  function AfterEmit(pc: Pc): Option<Pc> {
    if pc.Recovering? && !pc.recover.FindStuck? then NextStuck(pc.recover.rest) else None
  }

  lemma EmitDecided(s: State, h: nat, pc: Pc, answer: Answer)
    requires EmitAt(pc).Some?
    ensures AsksDatabase(pc)
    ensures var ok := answer != Throw || !MayFailToEmit(pc);
      Decide(s, h, pc, answer) == Move(if ok then Emit(EmitAt(pc).value) else Nothing, AfterEmit(pc))
  {
    match pc {
      case Paying(o, ref, at) =>
      case Recovering(at) =>
      case _ =>
    }
  }

  lemma EmitKept(s: State, seen: State, h: nat, pinned: set<OrderId>, effect: Effect, next: Option<Pc>)
    requires Kept(s, seen, pinned) && Target(effect) == {} && !effect.Submit?
    ensures Kept(s, Continue(Perform(seen, effect), h, next), pinned)
  {
    PerformKeeps(seen, effect, pinned);
    KeptTransitive(s, seen, Perform(seen, effect), pinned);
    KeptOn(s, Perform(seen, effect), h, next, pinned);
  }

  lemma ClaimKept(s: State, seen: State, pinned: set<OrderId>, o: OrderId, status: OrderStatus, ref: PaymentRef)
    requires Kept(s, seen, pinned)
    ensures var t := Perform(seen, Claim(o, status, ref));
      && Kept(s, t, pinned - {o})
      && (o in pinned ==>
            && SameRow(s, t, o)
            && (o in s.orders ==>
                  o in t.orders && t.orders[o] == s.orders[o].(status := status, paymentRef := Some(ref))))
  {
    KeptFewer(s, seen, pinned, pinned - {o});
    var t := Perform(seen, Claim(o, status, ref));
    PerformKeeps(seen, Claim(o, status, ref), pinned - {o});
    KeptTransitive(s, seen, t, pinned - {o});
  }

  /** The transactions submitted for an order. */
  ghost function TxsOf(s: State, o: OrderId): set<nat> {
    set x | x in s.txs && s.txs[x].terms.order == o
  }

  lemma SubmitKept(s: State, seen: State, pinned: set<OrderId>, terms: Terms)
    requires Kept(s, seen, pinned)
    ensures var t := Perform(seen, Submit(terms)); var o := terms.order;
      && Kept(s, t, pinned - {o})
      && (o in pinned ==> SameOrder(s, t, o) && SameRow(s, t, o) && TxsOf(t, o) <= TxsOf(s, o) + {seen.next})
  {
    KeptFewer(s, seen, pinned, pinned - {terms.order});
    var t := Perform(seen, Submit(terms));
    PerformKeeps(seen, Submit(terms), pinned - {terms.order});
    KeptTransitive(s, seen, t, pinned - {terms.order});
  }

  lemma SendDecided(s: State, h: nat, job: Payment, list: seq<Recipient>, attempt: nat, answer: Answer)
    ensures var move := Decide(s, h, Settling(job, Send(list, attempt)), answer);
      && (move.effect == Nothing || move.effect == Submit(Terms(job.order, BaseTotal(job.cents), list)))
      && (answer == Good ==> move.effect.Submit? && move.next == Some(Settling(job, Poll(list, attempt, s.next, 0))))
      && (answer.Known? ==> move.next == Some(Settling(job, Poll(list, attempt, answer.tx, 0))))
      && (answer == Lost || answer == Throw ==> move.next == Some(Retry(job, list, attempt)))
      && (answer == Bad || answer == Absent || answer.Rows? ==> move.next == FailSafe(job).next)
  {
  }

  lemma SentKept(s: State, seen: State, pinned: set<OrderId>, h: nat, terms: Terms, move: Move)
    requires Kept(s, seen, pinned) && (move.effect == Nothing || move.effect == Submit(terms))
    ensures var t := Continue(Perform(seen, move.effect), h, move.next); var o := terms.order;
      && Kept(s, t, pinned - {o})
      && (o in pinned ==>
            && SameOrder(s, t, o) && SameRow(s, t, o)
            && TxsOf(t, o) <= TxsOf(s, o) + if move.effect.Submit? then {seen.next} else {})
  {
    SubmitKept(s, seen, pinned, terms);
    KeptFewer(s, seen, pinned, pinned - {terms.order});
    KeptOn(s, Perform(seen, move.effect), h, move.next, pinned - {terms.order});
    ContinueKeepsRecords(Perform(seen, move.effect), h, move.next);
  }

  lemma ContinueKeepsRecords(s: State, h: nat, next: Option<Pc>)
    ensures var t := Continue(s, h, next); t.orders == s.orders && t.rows == s.rows && t.txs == s.txs
  {
  }

  lemma OutcomesStay(origin: State, log: seq<Action>, longer: seq<Action>, past: State, now: State,
                     genesis: Ledger.Accounts)
    requires Init(origin, genesis) && log <= longer && past == Run(origin, log) && now == Run(origin, longer)
    ensures Final(past, now)
  {
    InitInvariant(origin, genesis);
    RunKeeps(origin, log, genesis);
    var rest := longer[|log|..];
    assert longer == log + rest;
    RunAppend(origin, log, rest);
    OutcomesAreFinal(past, rest, genesis);
  }

  lemma TermsStayed(origin: State, log: seq<Action>, longer: seq<Action>, past: State, now: State,
                    genesis: Ledger.Accounts)
    requires Init(origin, genesis) && log <= longer && past == Run(origin, log) && now == Run(origin, longer)
    ensures forall x :: x in past.txs ==> x in now.txs && now.txs[x].terms == past.txs[x].terms
  {
    InitInvariant(origin, genesis);
    RunKeeps(origin, log, genesis);
    var rest := longer[|log|..];
    assert longer == log + rest;
    RunAppend(origin, log, rest);
    RunExtends(past, rest, genesis);
  }

  // ------------------------------------------------------------------------- the world

  class World {
    var st: State
    var script: seq<Beat>
    /** No other activity concerns these orders: the serial assumption, order by order. */
    const pinned: set<OrderId>
    /** Database statements do not fail. */
    const reliable: bool
    ghost const genesis: Ledger.Accounts
    ghost const origin: State
    ghost var log: seq<Action>
    ghost var trail: seq<State>

    constructor (s: State, script: seq<Beat>, pinned: set<OrderId>, reliable: bool, ghost genesis: Ledger.Accounts)
      requires Init(s, genesis)
      ensures Valid() && st == s && log == [] && this.pinned == pinned && this.reliable == reliable
    {
      st, origin, log, trail, this.genesis := s, s, [], [s], genesis;
      this.script, this.pinned, this.reliable := script, pinned, reliable;
    }

    /** The state is reached from an empty shop by a run of the protocol, which `log` and `trail` record. */
    ghost predicate Valid()
      reads this
    {
      Init(origin, genesis) && IsTrail(origin, log, trail) && st == trail[|log|]
    }

    /** Handler `h` is at `pc`. */
    predicate At(h: nat, pc: Pc)
      reads this
    {
      h in st.acts && st.acts[h] == pc
    }

    /** The handler goes on at `next`, or has ended. */
    predicate Reached(h: nat, next: Option<Pc>)
      reads this
    {
      match next
      case None => h !in st.acts
      case Some(pc) => At(h, pc)
    }

    ghost function Past(): Trace
      reads this
    {
      Trace(origin, log, trail)
    }

    /** Everything handler `h` has been told. */
    ghost function Told(h: nat): seq<Line>
      reads this
    {
      if |trail| == |log| + 1 then Lines(log, trail, h) else []
    }

    lemma Sound()
      requires Valid()
      ensures Invariant(st, genesis)
    {
      IsRun();
      RunKeeps(origin, log, genesis);
    }

    lemma IsRun()
      requires Valid()
      ensures st == Run(origin, log)
    {
      TrailIsRun(origin, log, trail, |log|);
      assert log[..|log|] == log;
    }

    /** A payment event is only ever emitted for an order that exists. */
    lemma OrderExists(h: nat)
      requires Valid() && h in st.acts && st.acts[h].Settling?
      ensures st.acts[h].job.order in st.orders
    {
      Sound();
      assert Local(st, h, st.acts[h]);
    }

    /** Whoever wrote SETTLED: the payout is on chain. */
    lemma SettledIsMarked(o: OrderId)
      requires Valid()
      ensures o in st.orders && st.orders[o].status == Settled ==> o in st.chain.markers
    {
      Sound();
      assert OrdersOk(st);
    }

    /** An outcome that was true once in this run is true now. */
    lemma OutcomeStays(earlier: Trace, hash: Option<Hash>, status: TxStatus)
      requires Valid() && Continues(earlier, Past()) && status != Pending
      requires HasStatus(earlier.trail[|earlier.log|], hash, status)
      ensures HasStatus(st, hash, status)
    {
      var past := earlier.trail[|earlier.log|];
      TrailIsRun(origin, earlier.log, earlier.trail, |earlier.log|);
      assert earlier.log[..|earlier.log|] == earlier.log;
      IsRun();
      OutcomesStay(origin, earlier.log, log, past, st, genesis);
      assert hash.value.tx in past.txs;
    }

    /** Transactions keep their arguments. */
    lemma TermsStay(earlier: Trace)
      requires Valid() && Continues(earlier, Past())
      ensures var past := earlier.trail[|earlier.log|];
        forall x :: x in past.txs ==> x in st.txs && st.txs[x].terms == past.txs[x].terms
    {
      TrailIsRun(origin, earlier.log, earlier.trail, |earlier.log|);
      assert earlier.log[..|earlier.log|] == earlier.log;
      IsRun();
      TermsStayed(origin, earlier.log, log, earlier.trail[|earlier.log|], st, genesis);
    }

    /** An action of the environment, or the start of a handler. */
    method Do(action: Action)
      requires Valid()
      modifies this`st, this`log, this`trail
      ensures Valid() && log == old(log) + [action]
      ensures st == Protocol.Step(old(st), action)
      ensures forall h :: Told(h) == old(Told(h)) + LineOf(old(st), action, h)
    {
      ghost var next := Protocol.Step(st, action);
      forall h ensures Lines(log + [action], trail + [next], h) == Told(h) + LineOf(st, action, h) {
        LinesGrow(log, trail, action, next, h);
      }
      TrailGrows(origin, log, trail, action);
      log := log + [action];
      st := Protocol.Step(st, action);
      trail := trail + [st];
    }

    /** Whatever the others do before the next statement of handler `h`. */
    method Interfere(h: nat, others: seq<Action>)
      requires Valid() && h in st.acts
      modifies this`st, this`log, this`trail
      ensures Valid() && old(log) <= log && Told(h) == old(Told(h))
      ensures h in st.acts && st.acts[h] == old(st.acts[h])
      ensures Kept(old(st), st, pinned)
    {
      Sound();
      assert Local(st, h, st.acts[h]);
      for i := 0 to |others|
        invariant Valid() && old(log) <= log && Told(h) == old(Told(h))
        invariant h in st.acts && st.acts[h] == old(st.acts[h]) && h < st.next
        invariant Kept(old(st), st, pinned)
      {
        ghost var before := st;
        Interrupt(h, others[i]);
        KeptTransitive(old(st), before, st, pinned);
      }
    }

    /** One action of another activity, if it may happen now. */
    method Interrupt(h: nat, action: Action)
      requires Valid() && h in st.acts && h < st.next
      modifies this`st, this`log, this`trail
      ensures Valid() && old(log) <= log && Told(h) == old(Told(h))
      ensures h in st.acts && st.acts[h] == old(st.acts[h]) && h < st.next
      ensures Kept(old(st), st, pinned)
    {
      if MayInterfere(st, h, pinned, action) {
        InterferenceKept(st, h, pinned, action);
        Do(action);
      }
    }

    /**
     * One statement of handler `h`: first whatever the others do, then the statement,
     * on the state `seen` and with the environment's answer.
     */
    method Await(h: nat) returns (answer: Answer, seen: State)
      requires Valid() && h in st.acts
      modifies this`st, this`script, this`log, this`trail
      ensures Valid() && old(log) <= log
      ensures Kept(old(st), seen, pinned)
      ensures h in seen.acts && seen.acts[h] == old(st.acts[h]) && Local(seen, h, old(st.acts[h]))
      ensures Truthful(seen, old(st.acts[h]), answer)
      ensures reliable && AsksDatabase(old(st.acts[h])) ==> answer != Throw
      ensures old(st.acts[h]) == Recovering(FindStuck) && answer != Throw ==>
                answer.Rows? && NoDuplicates(answer.ids) && forall o :: o in answer.ids <==> o in seen.orders
      ensures st == ActStep(seen, h, answer)
      ensures Reached(h, Decide(seen, h, old(st.acts[h]), answer).next)
      ensures Told(h) == old(Told(h)) + [Line(old(st.acts[h]), answer, seen)]
    {
      var pc := st.acts[h];
      var beat := if script == [] then Beat([], Absent) else script[0];
      script := if script == [] then [] else script[1..];

      Interfere(h, beat.others);
      seen := st;
      Sound();

      answer := AnswerFor(seen, pc, beat.answer, reliable);
      Take(h, answer);
    }

    /** The handler's statement, with this answer. */
    method Take(h: nat, answer: Answer)
      requires Valid() && h in st.acts && Truthful(st, st.acts[h], answer)
      modifies this`st, this`log, this`trail
      ensures Valid() && old(log) <= log
      ensures Told(h) == old(Told(h)) + [Line(old(st.acts[h]), answer, old(st))]
      ensures st == ActStep(old(st), h, answer)
      ensures Reached(h, Decide(old(st), h, old(st.acts[h]), answer).next)
    {
      ActReaches(st, h, answer);
      TakeIsActStep(st, h, answer);
      Do(Act(h, answer));
    }

    /** A statement that reads, or a remote call: it changes nothing. */
    method Ask(h: nat) returns (answer: Answer, seen: State)
      requires Valid() && h in st.acts && UpdateAt(st.acts[h]) == Nothing
      requires st.acts[h].Settling? ==> !st.acts[h].settle.Send?
      requires st.acts[h].Recording? ==> !st.acts[h].record.CreateRow? && !st.acts[h].record.Announce?
      requires st.acts[h].Paying? ==> !st.acts[h].pay.ClaimRef? && !st.acts[h].pay.Notify?
      requires st.acts[h].Recovering? ==> !st.acts[h].recover.Reemit? && !st.acts[h].recover.ReemitRolledBack?
      requires !st.acts[h].Delivering?
      modifies this`st, this`script, this`log, this`trail
      ensures Valid() && old(log) <= log
      ensures Kept(old(st), seen, pinned) && Kept(old(st), st, pinned)
      ensures st.orders == seen.orders && st.rows == seen.rows && st.txs == seen.txs && st.products == seen.products
      ensures st.chain == seen.chain
      ensures Local(seen, h, old(st.acts[h])) && Truthful(seen, old(st.acts[h]), answer)
      ensures reliable && AsksDatabase(old(st.acts[h])) ==> answer != Throw
      ensures old(st.acts[h]) == Recovering(FindStuck) && answer != Throw ==>
                answer.Rows? && NoDuplicates(answer.ids) && forall o :: o in answer.ids <==> o in seen.orders
      ensures Reached(h, Decide(seen, h, old(st.acts[h]), answer).next)
      ensures Told(h) == old(Told(h)) + [Line(old(st.acts[h]), answer, seen)]
    {
      ghost var pc := st.acts[h];
      answer, seen := Await(h);
      AskDecided(seen, h, pc, answer);
      KeptOn(old(st), seen, h, Decide(seen, h, pc, answer).next, pinned);
    }

    /** `order.update({ where: { id: order }, data: { status, txHash } })`. */
    method Update(h: nat, order: OrderId, status: OrderStatus, hash: HashWrite) returns (ok: bool, ghost line: Line)
      requires Valid() && h in st.acts && UpdateAt(st.acts[h]) == Write(order, status, hash)
      modifies this`st, this`script, this`log, this`trail
      ensures Valid() && old(log) <= log
      ensures reliable ==> ok
      ensures NoNewTx(old(st), st, pinned) && StillSellable(old(st), st, pinned)
      ensures ok ==> Kept(old(st), st, pinned - {order})
      ensures ok && order in pinned ==> Updated(old(st), st, order, status, hash)
      ensures !ok ==> Kept(old(st), st, pinned)
      ensures Reached(h, AfterUpdate(old(st.acts[h]), ok))
      ensures Told(h) == old(Told(h)) + [line] && line.pc == old(st.acts[h]) && (ok <==> line.answer != Throw)
    {
      ghost var pc, before := st.acts[h], st;
      var answer, seen := Await(h);
      ok, line := answer != Throw, Line(pc, answer, seen);
      UpdateDecided(seen, h, pc, answer);
      UpdateDone(before, seen, h, pinned, order, status, hash, ok, AfterUpdate(pc, ok));
    }

    /** `settlement.create`: fails on a row that exists, as on any other error. */
    method Create(h: nat, order: OrderId, row: Row) returns (ok: bool, ghost line: Line)
      requires Valid() && h in st.acts && CreatesAt(st.acts[h], h, order, row)
      modifies this`st, this`script, this`log, this`trail
      ensures Valid() && old(log) <= log
      ensures order in pinned ==> (ok ==> order !in old(st.rows)) && (reliable && order !in old(st.rows) ==> ok)
      ensures Told(h) == old(Told(h)) + [line] && line.pc == old(st.acts[h])
      ensures (reliable ==> line.answer != Throw) && (ok <==> line.answer != Throw && order !in line.seen.rows)
      ensures NoNewTx(old(st), st, pinned)
      ensures ok ==> Kept(old(st), st, pinned - {order})
      ensures ok && order in pinned ==> SameOrder(old(st), st, order) && order in st.rows && st.rows[order] == row
      ensures !ok ==> Kept(old(st), st, pinned)
      ensures Reached(h, if ok then Some(Recording(order, MarkSettled(row.txHash), old(st.acts[h].caller)))
                         else OnError(old(st.acts[h].caller)))
    {
      ghost var caller, before := st.acts[h].caller, st;
      var answer, seen := Await(h);
      ok, line := answer != Throw && order !in seen.rows, Line(old(st.acts[h]), answer, seen);
      CreateDecided(seen, h, order, row, caller, answer);
      ghost var next := if ok then Some(Recording(order, MarkSettled(row.txHash), caller)) else OnError(caller);
      CreateDone(before, seen, h, pinned, order, row, ok, next);
    }

    /** `emitter.emit(PaymentReceived)`, after any reads that prepare the payload. */
    method EmitPayment(h: nat, payment: Payment) returns (ok: bool, ghost line: Line)
      requires Valid() && h in st.acts && EmitAt(st.acts[h]) == Some(payment)
      modifies this`st, this`script, this`log, this`trail
      ensures Valid() && old(log) <= log
      ensures Kept(old(st), st, pinned)
      ensures reliable || !MayFailToEmit(old(st.acts[h])) ==> ok
      ensures ok ==> exists e :: e in st.payments && st.payments[e] == payment
      ensures Reached(h, AfterEmit(old(st.acts[h])))
      ensures Told(h) == old(Told(h)) + [line] && line.pc == old(st.acts[h])
    {
      ghost var pc, before := st.acts[h], st;
      var mayFail := MayFailToEmit(st.acts[h]);
      var answer, seen := Await(h);
      ok, line := answer != Throw || !mayFail, Line(pc, answer, seen);
      EmitDecided(seen, h, pc, answer);
      EmitKept(before, seen, h, pinned, if ok then Emit(payment) else Nothing, AfterEmit(pc));
      if ok {
        assert st.payments[seen.next] == payment;
      }
    }

    /** `emitter.emit(SettlementCompleted)`. */
    method Announce(h: nat, order: OrderId) returns (ghost line: Line)
      requires Valid() && h in st.acts && st.acts[h].Recording?
      requires st.acts[h].order == order && st.acts[h].record == RecordPc.Announce
      modifies this`st, this`script, this`log, this`trail
      ensures Valid() && old(log) <= log
      ensures Kept(old(st), st, pinned) && order in st.emitted
      ensures Reached(h, OnReturn(old(st.acts[h].caller)))
      ensures Told(h) == old(Told(h)) + [line] && line.pc == old(st.acts[h])
    {
      ghost var before, caller := st, st.acts[h].caller;
      var answer, seen := Await(h);
      line := Line(old(st.acts[h]), answer, seen);
      EmitKept(before, seen, h, pinned, EmitCompleted(order), OnReturn(caller));
    }

    /** `order.update({ data: { status, paymentRef } })`: fails when another order has the reference. */
    method Claim(h: nat, order: OrderId, status: OrderStatus, ref: PaymentRef, cents: nat)
      returns (ok: bool, answer: Answer, ghost seen: State)
      requires Valid() && At(h, Paying(order, ref, ClaimRef(status, cents)))
      modifies this`st, this`script, this`log, this`trail
      ensures Valid() && old(log) <= log
      ensures Told(h) == old(Told(h)) + [Line(old(st.acts[h]), answer, seen)]
      ensures (reliable ==> answer != Throw) && (ok <==> answer != Throw && !RefTakenByOther(seen, ref, order))
      ensures ok ==> Kept(old(st), st, pinned - {order})
      ensures ok && order in pinned ==> SameRow(old(st), st, order)
      ensures ok && order in pinned && order in old(st.orders) ==>
                && order in st.orders
                && st.orders[order] == old(st.orders[order]).(status := status, paymentRef := Some(ref))
      ensures !ok ==> Kept(old(st), st, pinned)
      ensures Reached(h, if ok && status == PaymentReceived then Some(Paying(order, ref, Notify(cents))) else None)
    {
      ghost var before := st;
      var reply, at := Await(h);
      answer, seen := reply, at;
      ok := reply != Throw && !RefTakenByOther(at, ref, order);
      ghost var next := if ok && status == PaymentReceived then Some(Paying(order, ref, Notify(cents))) else None;
      if ok {
        ClaimKept(before, seen, pinned, order, status, ref);
        KeptOn(before, Perform(seen, Effect.Claim(order, status, ref)), h, next, pinned - {order});
      } else {
        KeptOn(before, seen, h, next, pinned);
      }
    }

    /**
     * `sendTransaction`. The transaction may have been submitted whether or not the
     * answer arrives; `sent` is the transactions this call has added.
     */
    method SendTransaction(h: nat, job: Payment, list: seq<Recipient>, attempt: nat)
      returns (answer: Answer, ghost sent: set<nat>, ghost line: Line)
      requires Valid() && At(h, Settling(job, Send(list, attempt)))
      modifies this`st, this`script, this`log, this`trail
      ensures Valid() && old(log) <= log
      ensures Told(h) == old(Told(h)) + [line] && line.pc == old(st.acts[h]) && line.answer == answer
      ensures forall x :: x in sent ==> x in st.txs && st.txs[x].terms == Terms(job.order, BaseTotal(job.cents), list)
      ensures Kept(old(st), st, pinned - {job.order}) && |sent| <= 1
      ensures job.order in pinned ==>
                SameOrder(old(st), st, job.order) && SameRow(old(st), st, job.order)
                && TxsOf(st, job.order) <= TxsOf(old(st), job.order) + sent
      ensures match answer
              case Good => exists tx :: sent == {tx} && Reached(h, Some(Settling(job, Poll(list, attempt, tx, 0))))
              case Known(tx) => Reached(h, Some(Settling(job, Poll(list, attempt, tx, 0))))
              case Lost => Reached(h, Some(Retry(job, list, attempt)))
              case Throw => Reached(h, Some(Retry(job, list, attempt)))
              case _ => Reached(h, FailSafe(job).next)
    {
      ghost var before := st;
      var seen;
      answer, seen := Await(h);
      ghost var move := Decide(seen, h, Settling(job, Send(list, attempt)), answer);
      SendDecided(seen, h, job, list, attempt, answer);
      line := Line(Settling(job, Send(list, attempt)), answer, seen);
      sent := if move.effect.Submit? then {seen.next} else {};
      SentKept(before, seen, pinned, h, Terms(job.order, BaseTotal(job.cents), list), move);
    }

    /** The mail call, and with it the goods. */
    method Mail(h: nat, event: nat)
      requires Valid() && At(h, Delivering(event, DeliverPc.SendMail))
      modifies this`st, this`script, this`log, this`trail
      ensures Valid() && old(log) <= log
      ensures event in st.mails && At(h, Delivering(event, LogMail))
    {
      var answer, seen := Await(h);
    }
  }

  lemma ActReaches(s: State, h: nat, answer: Answer)
    requires h in s.acts && Truthful(s, s.acts[h], answer)
    ensures var t := ActStep(s, h, answer);
      match Decide(s, h, s.acts[h], answer).next
      case None => h !in t.acts
      case Some(pc) => h in t.acts && t.acts[h] == pc
  {
    PerformShop(s, Decide(s, h, s.acts[h], answer).effect);
  }

  lemma TakeIsActStep(s: State, h: nat, answer: Answer)
    ensures Protocol.Step(s, Act(h, answer)) == ActStep(s, h, answer)
  {
  }

  lemma AskDecided(s: State, h: nat, pc: Pc, answer: Answer)
    requires UpdateAt(pc) == Nothing && !pc.Delivering?
    requires pc.Settling? ==> !pc.settle.Send?
    requires pc.Recording? ==> !pc.record.CreateRow? && !pc.record.Announce?
    requires pc.Paying? ==> !pc.pay.ClaimRef? && !pc.pay.Notify?
    requires pc.Recovering? ==> !pc.recover.Reemit? && !pc.recover.ReemitRolledBack?
    ensures Decide(s, h, pc, answer).effect == Nothing
  {
    match pc {
      case Settling(job, at) =>
      case Recording(o, at, caller) =>
      case Paying(o, ref, at) =>
      case Recovering(at) =>
      case _ =>
    }
  }
}
