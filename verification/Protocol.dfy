/**
 * The settlement protocol as a state machine: the chain, the database, the in-process
 * event bus, and every running handler with the point it has reached. One step is one
 * database statement, one remote call or one event emission of one handler, or
 * something the environment does; handlers interleave at every such point.
 *
 * A handler's step takes the environment's answer. `Decide...` is the handler's code:
 * the statement it executes and where it goes next. `Perform` is the statement.
 */
module Protocol {
  import opened Types
  import opened Split
  import opened Contract
  import opened SettlementLaws
  import opened OrderStates
  import opened ProductGate
  import Ledger

  const MAX_RETRIES := 3
  const POLL_MAX_ATTEMPTS := 30

  // ---------------------------------------------------------------- stored entities

  /** A transaction hash, or the placeholder text a recovery stores instead. */
  datatype Hash = OnChain(tx: nat) | Placeholder(order: OrderId)

  /** The arguments of one `settle` invocation. */
  datatype Terms = Terms(order: OrderId, total: int, recipients: seq<Recipient>)

  datatype TxStatus = Pending | Confirmed | Reverted

  datatype Tx = Tx(terms: Terms, status: TxStatus)

  datatype Order = Order(
    product: ProductId,
    cents: nat,
    status: OrderStatus,
    txHash: Option<Hash>,
    paymentRef: Option<PaymentRef>)

  /**
   * A Settlement row with its recipient rows, amounts in base units. `direct` (created
   * by the handler that saw its own transaction confirm) and `author` (the handler that
   * created the row) are history the database does not store; no step reads them.
   */
  datatype Row = Row(
    total: int,
    fee: int,
    recipients: seq<Recipient>,
    amounts: seq<int>,
    txHash: Hash,
    direct: bool,
    author: nat)

  /** Only an active product is sold; orders of any product are settled. */
  datatype Product = Product(creator: CreatorId, cents: nat, collaborators: seq<Collaborator>, active: bool)

  /** A `payment.received` event. */
  datatype Payment = Payment(order: OrderId, cents: nat)

  // ---------------------------------------------------------------- handlers' points

  /** SettlementService.handlePaymentReceived and recoverAlreadySettled. */
  datatype SettlePc =
    | ReadOrder
    | MarkPending(product: ProductId, known: Option<Hash>)
    | LoadShares(product: ProductId, known: Option<Hash>)
    | CheckTrustlines(known: Option<Hash>, list: seq<Recipient>)
    | ProbeMarker(known: Option<Hash>, list: seq<Recipient>)
    | CheckFloat(list: seq<Recipient>)
    | FailLow(list: seq<Recipient>)
    | GetAccount(list: seq<Recipient>, attempt: nat)
    | Simulate(list: seq<Recipient>, attempt: nat)
    | Send(list: seq<Recipient>, attempt: nat)
    | Poll(list: seq<Recipient>, attempt: nat, tx: nat, polls: nat)
    | Fail(hash: Option<Hash>, last: bool)
    | FindRow(known: Option<Hash>, list: seq<Recipient>)
    | AdoptRow(rowHash: Hash)
    | MarkEarly

  /** recordRecoveredSettlement and recordSettlementSuccess. */
  datatype RecordPc =
    | ReloadOrder(hash: Hash)
    | ReloadShares(hash: Hash, product: ProductId, cents: nat)
    | FailUnshared
    | CreateRow(total: int, list: seq<Recipient>, hash: Hash, direct: bool)
    | MarkSettled(hash: Hash)
    | Announce

  /** OrdersService.handleGcashPayment. */
  datatype PayPc =
    | FindRef
    | LoadOrder
    | FindWallet(seen: Order)
    | ClaimRef(target: OrderStatus, cents: nat)
    | Notify(cents: nat)

  /** An order as the recovery pass found it. */
  datatype Snap = Snap(order: OrderId, status: OrderStatus, cents: nat, txHash: Option<Hash>)

  /** StartupRecoveryService: the order at hand and the orders still to do. */
  datatype RecoverPc =
    | FindStuck
    | Reemit(snap: Snap, rest: seq<Snap>)
    | AskMarker(snap: Snap, rest: seq<Snap>)
    | FailUnsettled(snap: Snap, rest: seq<Snap>)
    | AskTx(snap: Snap, rest: seq<Snap>)
    | FindSettlement(snap: Snap, rest: seq<Snap>)
    | AdoptSettled(snap: Snap, rest: seq<Snap>)
    | FailReverted(snap: Snap, rest: seq<Snap>)
    | AskAgain(snap: Snap, rest: seq<Snap>)
    | FailRechecked(snap: Snap, rest: seq<Snap>)
    | Rollback(snap: Snap, rest: seq<Snap>)
    | ReemitRolledBack(snap: Snap, rest: seq<Snap>)

  /** ProductDeliveryListener.handleSettlementCompleted. */
  datatype DeliverPc = LoadBuyer | SendMail | LogMail

  /** Who asked for a settlement to be recorded, and so where an error goes. */
  datatype Caller =
    | Handler(job: Payment)
    | ByMarker(snap: Snap, rest: seq<Snap>)
    | ByRecheck(snap: Snap, rest: seq<Snap>)
    | ByHash(snap: Snap, rest: seq<Snap>)

  datatype Pc =
    | Settling(job: Payment, settle: SettlePc)
    | Recording(order: OrderId, record: RecordPc, caller: Caller)
    | Paying(order: OrderId, ref: PaymentRef, pay: PayPc)
    | Recovering(recover: RecoverPc)
    | Delivering(event: nat, deliver: DeliverPc)

  // -------------------------------------------------------------------------- state

  datatype State = State(
    chain: Chain,
    signers: set<Address>,
    txs: map<nat, Tx>,
    orders: map<OrderId, Order>,
    rows: map<OrderId, Row>,
    products: map<ProductId, Product>,
    connected: set<CreatorId>,
    acts: map<nat, Pc>,
    payments: map<nat, Payment>,
    emitted: seq<OrderId>,
    undelivered: set<nat>,
    mails: seq<nat>,
    next: nat)

  /** An installed contract, funded accounts and an empty shop. */
  ghost predicate Init(s: State, genesis: Ledger.Accounts) {
    && Ledger.WithinLimits(genesis)
    && s.chain.config.Some? && s.chain.markers == {} && s.chain.ledger == genesis && s.chain.history == []
    && s.txs == map[] && s.orders == map[] && s.rows == map[] && s.products == map[]
    && s.acts == map[] && s.payments == map[] && s.emitted == [] && s.undelivered == {} && s.mails == []
  }

  function BaseTotal(cents: nat): nat {
    cents * BASE_PER_CENT
  }

  // ------------------------------------------------------------------------ effects

  datatype HashWrite = Keep | Put(hash: Hash) | Clear

  /** What one handler step does to the shared state. */
  datatype Effect =
    | Nothing
    | Write(order: OrderId, status: OrderStatus, hash: HashWrite)
    | Claim(order: OrderId, status: OrderStatus, ref: PaymentRef)
    | Insert(order: OrderId, row: Row)
    | Emit(payment: Payment)
    | EmitCompleted(order: OrderId)
    | Submit(terms: Terms)
    | Mail(event: nat)

  function Written(hash: Option<Hash>, write: HashWrite): Option<Hash> {
    match write
    case Keep => hash
    case Put(value) => Some(value)
    case Clear => None
  }

  function Perform(s: State, effect: Effect): State {
    match effect
    case Nothing => s
    case Write(o, status, hash) =>
      if o !in s.orders then s
      else s.(orders := s.orders[o := s.orders[o].(status := status, txHash := Written(s.orders[o].txHash, hash))])
    case Claim(o, status, ref) =>
      if o !in s.orders then s
      else s.(orders := s.orders[o := s.orders[o].(status := status, paymentRef := Some(ref))])
    case Insert(o, row) => s.(rows := s.rows[o := row])
    case Emit(payment) => s.(payments := s.payments[s.next := payment], next := s.next + 1)
    case EmitCompleted(o) => s.(emitted := s.emitted + [o], undelivered := s.undelivered + {|s.emitted|})
    case Submit(terms) => s.(txs := s.txs[s.next := Tx(terms, Pending)], next := s.next + 1)
    case Mail(event) => s.(mails := s.mails + [event])
  }

  // ------------------------------------------------------------------ handlers' code

  /** The environment's answer to the statement or call a handler is waiting for. */
  datatype Answer =
    | Good
    | Bad
    | Absent
    | Throw
    | Lost
    | Known(tx: nat)
    | Rows(ids: seq<OrderId>)

  datatype Move = Move(effect: Effect, next: Option<Pc>)

  function Goto(pc: Pc): Move {
    Move(Nothing, Some(pc))
  }

  function Stop(): Move {
    Move(Nothing, None)
  }

  /** After an error that is no settlement error: the last attempt to mark the order failed. */
  function FailSafe(job: Payment): Move {
    Goto(Settling(job, Fail(None, true)))
  }

  function Retry(job: Payment, list: seq<Recipient>, attempt: nat): Pc {
    if attempt < MAX_RETRIES - 1 then Settling(job, GetAccount(list, attempt + 1))
    else Settling(job, Fail(None, false))
  }

  function DecideSettling(s: State, job: Payment, at: SettlePc, answer: Answer): Move {
    match at
    case ReadOrder =>
      if answer == Throw then FailSafe(job)
      else if job.order !in s.orders then Stop()
      else
        var order := s.orders[job.order];
        if CanTransition(order.status, SettlementPending)
        then Goto(Settling(job, MarkPending(order.product, order.txHash)))
        else Stop()
    case MarkPending(product, known) =>
      if answer == Throw then FailSafe(job)
      else Move(Write(job.order, SettlementPending, Keep), Some(Settling(job, LoadShares(product, known))))
    case LoadShares(product, known) =>
      if answer == Throw then FailSafe(job)
      else if product !in s.products || !ServiceChecks(s.products[product].collaborators)
      then Goto(Settling(job, Fail(None, false)))
      else Goto(Settling(job, CheckTrustlines(known, ToRecipients(s.products[product].collaborators))))
    case CheckTrustlines(known, list) =>
      if answer == Bad then Goto(Settling(job, Fail(None, false)))
      else Goto(Settling(job, ProbeMarker(known, list)))
    case ProbeMarker(known, list) =>
      if answer == Good then Goto(Settling(job, FindRow(known, list)))
      else Goto(Settling(job, CheckFloat(list)))
    case CheckFloat(list) =>
      if answer == Bad then Goto(Settling(job, FailLow(list)))
      else Goto(Settling(job, GetAccount(list, 0)))
    case FailLow(list) =>
      // The write stands inside the check's own error handler, which goes on to the invocation.
      if answer == Throw then Goto(Settling(job, GetAccount(list, 0)))
      else Move(Write(job.order, SettlementFailed, Keep), None)
    case GetAccount(list, attempt) =>
      if answer == Throw then Goto(Retry(job, list, attempt))
      else Goto(Settling(job, Simulate(list, attempt)))
    case Simulate(list, attempt) =>
      if answer == Throw then Goto(Retry(job, list, attempt))
      else if answer == Bad then FailSafe(job)
      else Goto(Settling(job, Send(list, attempt)))
    case Send(list, attempt) =>
      var terms := Terms(job.order, BaseTotal(job.cents), list);
      (match answer
       case Good => Move(Submit(terms), Some(Settling(job, Poll(list, attempt, s.next, 0))))
       case Known(tx) => Goto(Settling(job, Poll(list, attempt, tx, 0)))
       case Lost => Move(Submit(terms), Some(Retry(job, list, attempt)))
       case Throw => Goto(Retry(job, list, attempt))
       case _ => FailSafe(job))
    case Poll(list, attempt, tx, polls) =>
      (match answer
       case Good =>
         Goto(Recording(job.order, CreateRow(BaseTotal(job.cents), list, OnChain(tx), true), Handler(job)))
       case Bad => Goto(Settling(job, Fail(Some(OnChain(tx)), false)))
       case Throw => Goto(Retry(job, list, attempt))
       case _ =>
         if polls + 1 < POLL_MAX_ATTEMPTS then Goto(Settling(job, Poll(list, attempt, tx, polls + 1)))
         else Stop())
    case Fail(hash, last) =>
      if answer == Throw then (if last then Stop() else FailSafe(job))
      else Move(Write(job.order, SettlementFailed, if hash.Some? then Put(hash.value) else Keep), None)
    case FindRow(known, list) =>
      if answer == Throw then FailSafe(job)
      else if job.order in s.rows then Goto(Settling(job, AdoptRow(s.rows[job.order].txHash)))
      else if known.Some?
      then Goto(Recording(job.order, CreateRow(BaseTotal(job.cents), list, known.value, false), Handler(job)))
      else Goto(Settling(job, MarkEarly))
    case AdoptRow(rowHash) =>
      if answer == Throw then FailSafe(job)
      else Move(Write(job.order, Settled, Put(rowHash)), None)
    case MarkEarly =>
      if answer == Throw then FailSafe(job)
      else Move(Write(job.order, Settled, Keep),
                Some(Recording(job.order, ReloadOrder(Placeholder(job.order)), Handler(job))))
  }

  /** The order the recovery loop turns to next. */
  function NextStuck(rest: seq<Snap>): Option<Pc> {
    if rest == [] then None
    else if rest[0].status == PaymentReceived then Some(Recovering(Reemit(rest[0], rest[1..])))
    else if rest[0].txHash.None? then Some(Recovering(AskMarker(rest[0], rest[1..])))
    else Some(Recovering(AskTx(rest[0], rest[1..])))
  }

  function OnReturn(caller: Caller): Option<Pc> {
    match caller
    case Handler(_) => None
    case ByMarker(_, rest) => NextStuck(rest)
    case ByRecheck(_, rest) => NextStuck(rest)
    case ByHash(_, rest) => NextStuck(rest)
  }

  function OnError(caller: Caller): Option<Pc> {
    match caller
    case Handler(job) => Some(Settling(job, Fail(None, true)))
    case ByMarker(snap, rest) => Some(Recovering(FailUnsettled(snap, rest)))
    case ByRecheck(snap, rest) => Some(Recovering(Rollback(snap, rest)))
    case ByHash(_, rest) => NextStuck(rest)
  }

  function NewRow(total: int, list: seq<Recipient>, hash: Hash, direct: bool, author: nat): Row {
    Row(total, Fee(total), list, Amounts(Pool(total), SharesOf(list)), hash, direct, author)
  }

  function DecideRecording(s: State, h: nat, o: OrderId, at: RecordPc, caller: Caller, answer: Answer): Move {
    if at.Announce? then Move(EmitCompleted(o), OnReturn(caller))
    else if answer == Throw then Move(Nothing, OnError(caller))
    else
      match at
      case ReloadOrder(hash) =>
        if o !in s.orders then Move(Nothing, OnReturn(caller))
        else Goto(Recording(o, ReloadShares(hash, s.orders[o].product, s.orders[o].cents), caller))
      case ReloadShares(hash, product, cents) =>
        if product !in s.products || s.products[product].collaborators == []
        then Goto(Recording(o, FailUnshared, caller))
        else
          var list := ToRecipients(s.products[product].collaborators);
          Goto(Recording(o, CreateRow(BaseTotal(cents), list, hash, false), caller))
      case FailUnshared => Move(Write(o, SettlementFailed, Keep), OnReturn(caller))
      case CreateRow(total, list, hash, direct) =>
        if o in s.rows then Move(Nothing, OnError(caller))
        else Move(Insert(o, NewRow(total, list, hash, direct, h)), Some(Recording(o, MarkSettled(hash), caller)))
      case MarkSettled(hash) => Move(Write(o, Settled, Put(hash)), Some(Recording(o, Announce, caller)))
      case Announce => Move(EmitCompleted(o), OnReturn(caller))
  }

  predicate RefTaken(s: State, ref: PaymentRef) {
    exists o :: o in s.orders && s.orders[o].paymentRef == Some(ref)
  }

  predicate RefTakenByOther(s: State, ref: PaymentRef, order: OrderId) {
    exists o :: o in s.orders && o != order && s.orders[o].paymentRef == Some(ref)
  }

  function DecidePaying(s: State, o: OrderId, ref: PaymentRef, at: PayPc, answer: Answer): Move {
    if at.Notify? then Move(Emit(Payment(o, at.cents)), None)
    else if answer == Throw then Stop()
    else
      match at
      case FindRef => if RefTaken(s, ref) then Stop() else Goto(Paying(o, ref, LoadOrder))
      case LoadOrder => if o !in s.orders then Stop() else Goto(Paying(o, ref, FindWallet(s.orders[o])))
      case FindWallet(seen) =>
        var hasWallet := seen.product in s.products && s.products[seen.product].creator in s.connected;
        var target := if hasWallet then PaymentReceived else WaitingWallet;
        if CanTransition(seen.status, target) then Goto(Paying(o, ref, ClaimRef(target, seen.cents))) else Stop()
      case ClaimRef(target, cents) =>
        if RefTakenByOther(s, ref, o) then Stop()
        else
          Move(Claim(o, target, ref), if target == PaymentReceived then Some(Paying(o, ref, Notify(cents))) else None)
      case Notify(cents) => Move(Emit(Payment(o, cents)), None)
  }

  predicate IsStuck(status: OrderStatus) {
    status == PaymentReceived || status == SettlementPending
  }

  /** The stuck orders among `ids`, as `findMany` returns them. */
  function Stuck(s: State, ids: seq<OrderId>): seq<Snap> {
    if ids == [] then []
    else
      var rest := Stuck(s, ids[1..]);
      if ids[0] in s.orders && IsStuck(s.orders[ids[0]].status) then
        var order := s.orders[ids[0]];
        [Snap(ids[0], order.status, order.cents, order.txHash)] + rest
      else rest
  }

  function DecideRecovering(s: State, at: RecoverPc, answer: Answer): Move {
    match at
    case FindStuck => if answer.Rows? then Move(Nothing, NextStuck(Stuck(s, answer.ids))) else Stop()
    case Reemit(snap, rest) =>
      if answer == Throw then Move(Nothing, NextStuck(rest))
      else Move(Emit(Payment(snap.order, snap.cents)), NextStuck(rest))
    case AskMarker(snap, rest) =>
      if answer == Good
      then Goto(Recording(snap.order, ReloadOrder(Placeholder(snap.order)), ByMarker(snap, rest)))
      else Goto(Recovering(FailUnsettled(snap, rest)))
    case FailUnsettled(snap, rest) =>
      if answer == Throw then Move(Nothing, NextStuck(rest))
      else Move(Write(snap.order, SettlementFailed, Keep), NextStuck(rest))
    case AskTx(snap, rest) =>
      (match answer
       case Good => Goto(Recovering(FindSettlement(snap, rest)))
       case Bad => Goto(Recovering(FailReverted(snap, rest)))
       case Throw => Move(Nothing, NextStuck(rest))
       case _ => Goto(Recovering(AskAgain(snap, rest))))
    case FindSettlement(snap, rest) =>
      if answer == Throw || snap.txHash.None? then Move(Nothing, NextStuck(rest))
      else if snap.order in s.rows then Goto(Recovering(AdoptSettled(snap, rest)))
      else Goto(Recording(snap.order, ReloadOrder(snap.txHash.value), ByHash(snap, rest)))
    case AdoptSettled(snap, rest) =>
      if answer == Throw then Move(Nothing, NextStuck(rest))
      else Move(Write(snap.order, Settled, Keep), NextStuck(rest))
    case FailReverted(snap, rest) =>
      if answer == Throw then Move(Nothing, NextStuck(rest))
      else Move(Write(snap.order, SettlementFailed, Keep), NextStuck(rest))
    case AskAgain(snap, rest) =>
      if answer == Good && snap.txHash.Some?
      then Goto(Recording(snap.order, ReloadOrder(snap.txHash.value), ByRecheck(snap, rest)))
      else if answer == Bad then Goto(Recovering(FailRechecked(snap, rest)))
      else Goto(Recovering(Rollback(snap, rest)))
    case FailRechecked(snap, rest) =>
      if answer == Throw then Goto(Recovering(Rollback(snap, rest)))
      else Move(Write(snap.order, SettlementFailed, Keep), NextStuck(rest))
    case Rollback(snap, rest) =>
      if answer == Throw then Move(Nothing, NextStuck(rest))
      else Move(Write(snap.order, PaymentReceived, Clear), Some(Recovering(ReemitRolledBack(snap, rest))))
    case ReemitRolledBack(snap, rest) => Move(Emit(Payment(snap.order, snap.cents)), NextStuck(rest))
  }

  function DecideDelivering(s: State, event: nat, at: DeliverPc, answer: Answer): Move {
    match at
    case LoadBuyer => if answer == Throw then Stop() else Goto(Delivering(event, SendMail))
    case SendMail => Move(Mail(event), Some(Delivering(event, LogMail)))
    case LogMail => Stop()
  }

  function Decide(s: State, h: nat, pc: Pc, answer: Answer): Move {
    match pc
    case Settling(job, at) => DecideSettling(s, job, at, answer)
    case Recording(o, at, caller) => DecideRecording(s, h, o, at, caller, answer)
    case Paying(o, ref, at) => DecidePaying(s, o, ref, at, answer)
    case Recovering(at) => DecideRecovering(s, at, answer)
    case Delivering(event, at) => DecideDelivering(s, event, at, answer)
  }

  predicate HasStatus(s: State, hash: Option<Hash>, status: TxStatus) {
    hash.Some? && hash.value.OnChain? && hash.value.tx in s.txs && s.txs[hash.value.tx].status == status
  }

  /**
   * Positive answers are true: a marker that is reported is set, a transaction reported
   * confirmed or failed is. A marker or transaction may be reported absent at any time.
   */
  predicate Truthful(s: State, pc: Pc, answer: Answer) {
    match pc
    case Settling(job, at) =>
      (match at
       case ProbeMarker(_, _) => answer == Good ==> job.order in s.chain.markers
       case Send(list, _) =>
         answer.Known? ==> answer.tx in s.txs && s.txs[answer.tx].terms == Terms(job.order, BaseTotal(job.cents), list)
       case Poll(_, _, tx, _) =>
         && (answer == Good ==> HasStatus(s, Some(OnChain(tx)), Confirmed))
         && (answer == Bad ==> HasStatus(s, Some(OnChain(tx)), Reverted))
       case _ => true)
    case Recovering(at) =>
      (match at
       case AskMarker(snap, _) => answer == Good ==> snap.order in s.chain.markers
       case AskTx(snap, _) =>
         && (answer == Good ==> HasStatus(s, snap.txHash, Confirmed))
         && (answer == Bad ==> HasStatus(s, snap.txHash, Reverted))
       case AskAgain(snap, _) =>
         && (answer == Good ==> HasStatus(s, snap.txHash, Confirmed))
         && (answer == Bad ==> HasStatus(s, snap.txHash, Reverted))
       case _ => true)
    case _ => true
  }

  // -------------------------------------------------------------------------- steps

  datatype Action =
    | PutProduct(product: ProductId, contents: Product)
    | Connect(creator: CreatorId)
    | Checkout(order: OrderId, product: ProductId, cents: nat)
    | Webhook(order: OrderId, ref: PaymentRef)
    | Resume(order: OrderId)
    | Dispatch(event: nat)
    | Bootstrap
    | Deliver(event: nat)
    | Act(actor: nat, answer: Answer)
    | Include(tx: nat, executed: bool)
    | Outside(call: Call)
    | Crash

  function Start(s: State, pc: Pc): State {
    s.(acts := s.acts[s.next := pc], next := s.next + 1)
  }

  function Continue(s: State, h: nat, next: Option<Pc>): State {
    match next
    case None => s.(acts := s.acts - {h})
    case Some(pc) => s.(acts := s.acts[h := pc])
  }

  function ActStep(s: State, h: nat, answer: Answer): State {
    if h !in s.acts || !Truthful(s, s.acts[h], answer) then s
    else
      var move := Decide(s, h, s.acts[h], answer);
      Continue(Perform(s, move.effect), h, move.next)
  }

  /** A pending transaction reaches a ledger: it executes, or fails without executing. */
  function IncludeStep(s: State, tx: nat, executed: bool): State {
    if tx !in s.txs || s.txs[tx].status != Pending then s
    else if !executed then s.(txs := s.txs[tx := s.txs[tx].(status := Reverted)])
    else
      var terms := s.txs[tx].terms;
      var (outcome, chain) := Settle(s.chain, s.signers, terms.order, terms.total, terms.recipients);
      if outcome == Success then s.(chain := chain, txs := s.txs[tx := s.txs[tx].(status := Confirmed)])
      else s.(txs := s.txs[tx := s.txs[tx].(status := Reverted)])
  }

  /** Token holders act on their own, the platform's owner too; only the backend asks for settlements. */
  predicate IsOutside(call: Call) {
    !call.Settlement?
  }

  /** One step of the system; an action that is not possible in `s` leaves it unchanged. */
  function Step(s: State, action: Action): State {
    match action
    case PutProduct(product, contents) => s.(products := s.products[product := contents])
    case Connect(creator) => s.(connected := s.connected + {creator})
    case Checkout(o, product, cents) =>
      // The price was read before, and the product may have changed since.
      if o in s.orders || product !in s.products then s
      else s.(orders := s.orders[o := Order(product, cents, PaymentPending, None, None)])
    case Webhook(o, ref) => Start(s, Paying(o, ref, FindRef))
    case Resume(o) =>
      // The order was found waiting when its creator connected; it may have moved on since.
      if o in s.orders then Perform(s, Emit(Payment(o, s.orders[o].cents))) else s
    case Dispatch(event) =>
      if event !in s.payments then s
      else Start(s.(payments := s.payments - {event}), Settling(s.payments[event], ReadOrder))
    case Bootstrap => Start(s, Recovering(FindStuck))
    case Deliver(event) =>
      if event !in s.undelivered then s
      else Start(s.(undelivered := s.undelivered - {event}), Delivering(event, LoadBuyer))
    case Act(h, answer) => ActStep(s, h, answer)
    case Include(tx, executed) => IncludeStep(s, tx, executed)
    case Outside(call) => if IsOutside(call) then s.(chain := Execute(s.chain, call)) else s
    case Crash => s.(acts := map[], payments := map[], undelivered := {})
  }

  function Run(s: State, actions: seq<Action>): State
    decreases |actions|
  {
    if actions == [] then s else Run(Step(s, actions[0]), actions[1..])
  }
}
