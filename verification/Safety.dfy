/**
 * What holds in every reachable state under every interleaving: with concurrent and
 * repeated handlers, retries, collaborator edits, lost answers, late confirmations and
 * crashes at any point.
 */
module Safety {
  import opened Types
  import opened Split
  import opened Contract
  import opened SettlementLaws
  import opened OrderStates
  import opened ProductGate
  import opened Protocol
  import Ledger

  // -------------------------------------------------------------------- vocabulary

  /** The chain shows exactly one payout of these terms for the order, and nothing else for it. */
  ghost predicate Paid(s: State, o: OrderId, total: int, list: seq<Recipient>) {
    Of(o, s.chain.history) == Receipt(o, total, list)
  }

  predicate Priced(s: State, o: OrderId, cents: nat) {
    o in s.orders && s.orders[o].cents == cents
  }

  ghost predicate PaidAtPrice(s: State, o: OrderId) {
    o in s.orders && exists list :: Acceptable(list) && Paid(s, o, BaseTotal(s.orders[o].cents), list)
  }

  /** A real hash stored for an order is the hash of a transaction for that order. */
  predicate HashFits(s: State, o: OrderId, hash: Option<Hash>) {
    hash.Some? && hash.value.OnChain? ==> hash.value.tx in s.txs && s.txs[hash.value.tx].terms.order == o
  }

  /** Handler `h` created the row of `o`, and the order's completion is not yet announced. */
  predicate Authored(s: State, h: nat, o: OrderId) {
    o in s.rows && s.rows[o].author == h && o !in s.emitted
  }

  ghost predicate SameRecords(s: State, t: State) {
    t.orders == s.orders && t.rows == s.rows && t.txs == s.txs && t.chain == s.chain
  }

  predicate NoDuplicates<T(==)>(xs: seq<T>) {
    forall i, j :: 0 <= i < j < |xs| ==> xs[i] != xs[j]
  }

  // ------------------------------------------------------------------- stored state

  ghost predicate TxOk(s: State, tx: Tx) {
    && tx.terms.order in s.orders
    && tx.terms.total == BaseTotal(s.orders[tx.terms.order].cents)
    && (tx.status == Confirmed ==>
          tx.terms.order in s.chain.markers && Paid(s, tx.terms.order, tx.terms.total, tx.terms.recipients))
  }

  ghost predicate RowOk(s: State, o: OrderId, row: Row) {
    && o in s.orders && o in s.chain.markers
    && row.total == BaseTotal(s.orders[o].cents)
    && row.fee == Fee(row.total)
    && row.amounts == Amounts(Pool(row.total), SharesOf(row.recipients))
    && (row.direct ==> Paid(s, o, row.total, row.recipients))
    && HashFits(s, o, Some(row.txHash))
    && row.author < s.next
  }

  ghost predicate MarkersOk(s: State) {
    (forall o :: o in s.chain.markers ==> PaidAtPrice(s, o))
  }

  ghost predicate TxsOk(s: State) {
    forall t :: t in s.txs ==> t < s.next && TxOk(s, s.txs[t])
  }

  ghost predicate OrdersOk(s: State) {
    forall o :: o in s.orders ==>
      && HashFits(s, o, s.orders[o].txHash)
      && (s.orders[o].status == Settled ==> o in s.chain.markers)
  }

  ghost predicate RowsOk(s: State) {
    forall o :: o in s.rows ==> RowOk(s, o, s.rows[o])
  }

  ghost predicate EventsOk(s: State) {
    && (forall e :: e in s.payments ==> e < s.next && Priced(s, s.payments[e].order, s.payments[e].cents))
    && (forall o :: o in s.emitted ==> o in s.rows)
    && NoDuplicates(s.emitted)
  }

  // -------------------------------------------------------------- points of handlers

  predicate SnapOk(s: State, snap: Snap) {
    Priced(s, snap.order, snap.cents) && HashFits(s, snap.order, snap.txHash)
  }

  predicate SnapsOk(s: State, snaps: seq<Snap>) {
    forall i :: 0 <= i < |snaps| ==> SnapOk(s, snaps[i])
  }

  predicate CallerOk(s: State, o: OrderId, caller: Caller) {
    match caller
    case Handler(job) => job.order == o && Priced(s, o, job.cents)
    case ByMarker(snap, rest) => snap.order == o && SnapOk(s, snap) && SnapsOk(s, rest)
    case ByRecheck(snap, rest) => snap.order == o && SnapOk(s, snap) && SnapsOk(s, rest)
    case ByHash(snap, rest) => snap.order == o && SnapOk(s, snap) && SnapsOk(s, rest)
  }

  ghost predicate SettleOk(s: State, job: Payment, at: SettlePc) {
    Priced(s, job.order, job.cents) &&
    match at
    case MarkPending(_, known) => HashFits(s, job.order, known)
    case LoadShares(_, known) => HashFits(s, job.order, known)
    case CheckTrustlines(known, _) => HashFits(s, job.order, known)
    case ProbeMarker(known, _) => HashFits(s, job.order, known)
    case Poll(list, _, tx, _) => tx in s.txs && s.txs[tx].terms == Terms(job.order, BaseTotal(job.cents), list)
    case Fail(hash, _) => HashFits(s, job.order, hash)
    case FindRow(known, _) => job.order in s.chain.markers && HashFits(s, job.order, known)
    case AdoptRow(rowHash) => job.order in s.chain.markers && HashFits(s, job.order, Some(rowHash))
    case MarkEarly => job.order in s.chain.markers
    case _ => true
  }

  ghost predicate RecordOk(s: State, h: nat, o: OrderId, at: RecordPc, caller: Caller) {
    CallerOk(s, o, caller) && o in s.orders && o in s.chain.markers &&
    match at
    case ReloadOrder(hash) => HashFits(s, o, Some(hash))
    case ReloadShares(hash, _, cents) => HashFits(s, o, Some(hash)) && Priced(s, o, cents)
    case FailUnshared => true
    case CreateRow(total, list, hash, direct) =>
      && total == BaseTotal(s.orders[o].cents)
      && HashFits(s, o, Some(hash))
      && (direct ==> Paid(s, o, total, list))
    case MarkSettled(hash) => HashFits(s, o, Some(hash)) && Authored(s, h, o)
    case Announce => Authored(s, h, o)
  }

  predicate PayOk(s: State, o: OrderId, at: PayPc) {
    match at
    case FindWallet(seen) => Priced(s, o, seen.cents)
    case ClaimRef(target, cents) => Priced(s, o, cents) && (target == PaymentReceived || target == WaitingWallet)
    case Notify(cents) => Priced(s, o, cents)
    case _ => true
  }

  predicate RecoverOk(s: State, at: RecoverPc) {
    at.FindStuck? ||
    (&& SnapOk(s, at.snap) && SnapsOk(s, at.rest)
     && (at.AdoptSettled? || at.FindSettlement? ==> at.snap.order in s.chain.markers))
  }

  ghost predicate Local(s: State, h: nat, pc: Pc) {
    match pc
    case Settling(job, at) => SettleOk(s, job, at)
    case Recording(o, at, caller) => RecordOk(s, h, o, at, caller)
    case Paying(o, _, at) => PayOk(s, o, at)
    case Recovering(at) => RecoverOk(s, at)
    case Delivering(_, _) => true
  }

  ghost predicate ActsOk(s: State) {
    forall h :: h in s.acts ==> h < s.next && Local(s, h, s.acts[h])
  }

  // ------------------------------------------------------------------- the invariant

  ghost predicate Stored(s: State) {
    MarkersOk(s) && TxsOk(s) && OrdersOk(s) && RowsOk(s) && EventsOk(s)
  }

  ghost predicate Safe(s: State) {
    Stored(s) && ActsOk(s)
  }

  // ---------------------------------------------------------------------- monotonicity

  /**
   * What no step takes back: prices, transactions' terms, markers and their receipts,
   * and rows. Completions are only added, and only by the author of the row.
   */
  ghost predicate Extends(s: State, t: State, h: nat) {
    && s.next <= t.next
    && (forall o :: o in s.orders ==> o in t.orders && t.orders[o].cents == s.orders[o].cents)
    && (forall x :: x in s.txs ==> x in t.txs && t.txs[x].terms == s.txs[x].terms)
    && s.chain.markers <= t.chain.markers
    && (forall o :: o in s.chain.markers ==> Of(o, t.chain.history) == Of(o, s.chain.history))
    && (forall o :: o in s.rows ==> o in t.rows && t.rows[o] == s.rows[o])
    && s.emitted <= t.emitted
    && (forall o :: o in t.emitted && o !in s.emitted ==> o in t.rows && t.rows[o].author == h)
  }

  lemma SnapsStable(s: State, t: State, h: nat, snaps: seq<Snap>)
    requires Extends(s, t, h) && SnapsOk(s, snaps)
    ensures SnapsOk(t, snaps)
  {
    forall i | 0 <= i < |snaps| ensures SnapOk(t, snaps[i]) {
      assert SnapOk(s, snaps[i]);
    }
  }

  lemma CallerStable(s: State, t: State, h: nat, o: OrderId, caller: Caller)
    requires Extends(s, t, h) && CallerOk(s, o, caller)
    ensures CallerOk(t, o, caller)
  {
    if !caller.Handler? {
      SnapsStable(s, t, h, caller.rest);
    }
  }

  /** A handler's view survives the steps of every other handler and of the environment. */
  lemma LocalStable(s: State, t: State, h: nat, k: nat, pc: Pc)
    requires Extends(s, t, h) && k != h && Local(s, k, pc)
    ensures Local(t, k, pc)
  {
    match pc {
      case Settling(job, at) =>
      case Recording(o, at, caller) => CallerStable(s, t, h, o, caller);
      case Paying(o, ref, at) =>
      case Recovering(at) =>
        if !at.FindStuck? {
          SnapsStable(s, t, h, at.rest);
        }
      case Delivering(event, at) =>
    }
  }

  // ---------------------------------------------------------------------- effects

  ghost predicate Guard(s: State, h: nat, effect: Effect) {
    match effect
    case Nothing => true
    case Write(o, status, hash) =>
      o in s.orders && (status == Settled ==> o in s.chain.markers) && (hash.Put? ==> HashFits(s, o, Some(hash.hash)))
    case Claim(o, status, ref) => status != Settled
    case Insert(o, row) => o !in s.rows && RowOk(s, o, row) && row.author == h
    case Emit(payment) => Priced(s, payment.order, payment.cents)
    case EmitCompleted(o) => Authored(s, h, o)
    case Submit(terms) => terms.order in s.orders && terms.total == BaseTotal(s.orders[terms.order].cents)
    case Mail(event) => true
  }

  lemma RowsStable(s: State, t: State, h: nat)
    requires RowsOk(s) && Extends(s, t, h) && t.rows == s.rows
    ensures RowsOk(t)
  {
    forall o | o in t.rows ensures RowOk(t, o, t.rows[o]) {
      assert RowOk(s, o, s.rows[o]);
    }
  }

  lemma TxsStable(s: State, t: State, h: nat)
    requires TxsOk(s) && Extends(s, t, h)
    requires t.txs == s.txs
    ensures TxsOk(t)
  {
    forall x | x in t.txs ensures x < t.next && TxOk(t, t.txs[x]) {
      assert TxOk(s, s.txs[x]);
    }
  }

  lemma PaidAtPriceStable(s: State, t: State, h: nat, o: OrderId)
    requires Extends(s, t, h) && PaidAtPrice(s, o) && o in s.chain.markers
    ensures PaidAtPrice(t, o)
  {
    var list :| Acceptable(list) && Paid(s, o, BaseTotal(s.orders[o].cents), list);
    assert Paid(t, o, BaseTotal(t.orders[o].cents), list);
  }

  lemma MarkersStable(s: State, t: State, h: nat)
    requires MarkersOk(s) && Extends(s, t, h) && t.chain == s.chain
    ensures MarkersOk(t)
  {
    forall o | o in t.chain.markers ensures PaidAtPrice(t, o) {
      PaidAtPriceStable(s, t, h, o);
    }
  }

  /** What follows for the parts a step leaves alone. */
  lemma Untouched(s: State, t: State, h: nat)
    requires Stored(s) && Extends(s, t, h) && t.chain == s.chain
    ensures MarkersOk(t)
    ensures t.rows == s.rows ==> RowsOk(t)
    ensures t.txs == s.txs ==> TxsOk(t)
  {
    MarkersStable(s, t, h);
    if t.rows == s.rows {
      RowsStable(s, t, h);
    }
    if t.txs == s.txs {
      TxsStable(s, t, h);
    }
  }

  lemma WriteKeeps(s: State, h: nat, effect: Effect)
    requires Stored(s) && Guard(s, h, effect)
    requires effect.Write? || effect.Claim?
    ensures Stored(Perform(s, effect)) && Extends(s, Perform(s, effect), h)
  {
    var t := Perform(s, effect);
    WriteExtends(s, h, effect);
    Untouched(s, t, h);
  }

  lemma WriteExtends(s: State, h: nat, effect: Effect)
    requires effect.Write? || effect.Claim?
    ensures Extends(s, Perform(s, effect), h)
  {
  }

  lemma EmitKeeps(s: State, h: nat, effect: Effect)
    requires Stored(s) && Guard(s, h, effect)
    requires effect.Emit? || effect.EmitCompleted? || effect.Nothing? || effect.Mail?
    ensures Stored(Perform(s, effect)) && Extends(s, Perform(s, effect), h)
  {
    var t := Perform(s, effect);
    if effect.EmitCompleted? {
      AnnounceKeeps(s, h, effect.order);
    } else {
      assert Extends(s, t, h);
      Untouched(s, t, h);
    }
  }

  lemma AnnounceKeeps(s: State, h: nat, o: OrderId)
    requires Stored(s) && Guard(s, h, EmitCompleted(o))
    ensures var t := Perform(s, EmitCompleted(o)); Stored(t) && Extends(s, t, h)
  {
    var t := Perform(s, EmitCompleted(o));
    assert Extends(s, t, h);
    Untouched(s, t, h);
  }

  lemma InsertKeeps(s: State, h: nat, o: OrderId, row: Row)
    requires Stored(s) && Guard(s, h, Insert(o, row))
    ensures var t := Perform(s, Insert(o, row)); Stored(t) && Extends(s, t, h) && Authored(t, h, o)
  {
    var t := Perform(s, Insert(o, row));
    assert Extends(s, t, h);
    Untouched(s, t, h);
    forall p | p in t.rows ensures RowOk(t, p, t.rows[p]) {
      assert p != o ==> RowOk(s, p, s.rows[p]);
    }
  }

  lemma SubmitKeeps(s: State, h: nat, terms: Terms)
    requires Stored(s) && Guard(s, h, Submit(terms))
    ensures var t := Perform(s, Submit(terms)); Stored(t) && Extends(s, t, h)
  {
    var t := Perform(s, Submit(terms));
    assert s.next !in s.txs;
    assert Extends(s, t, h);
    Untouched(s, t, h);
    forall x | x in t.txs ensures x < t.next && TxOk(t, t.txs[x]) {
      assert x != s.next ==> TxOk(s, s.txs[x]);
    }
  }

  lemma EffectKeeps(s: State, h: nat, effect: Effect)
    requires Stored(s) && Guard(s, h, effect)
    ensures Stored(Perform(s, effect)) && Extends(s, Perform(s, effect), h)
  {
    match effect {
      case Write(_, _, _) => WriteKeeps(s, h, effect);
      case Claim(_, _, _) => WriteKeeps(s, h, effect);
      case Insert(o, row) => InsertKeeps(s, h, o, row);
      case Submit(terms) => SubmitKeeps(s, h, terms);
      case _ => EmitKeeps(s, h, effect);
    }
  }

  // -------------------------------------------------------------------- handlers

  /** The handler's code keeps to the guards, and its next point's view holds after the step. */
  ghost predicate Sound(s: State, h: nat, move: Move) {
    && Guard(s, h, move.effect)
    && (move.next.Some? ==> Local(Perform(s, move.effect), h, move.next.value))
  }

  lemma SettlingSound(s: State, h: nat, job: Payment, at: SettlePc, answer: Answer)
    requires Stored(s) && SettleOk(s, job, at) && Truthful(s, Settling(job, at), answer)
    ensures Sound(s, h, DecideSettling(s, job, at, answer))
  {
    if at.ReadOrder? || at.MarkPending? || at.LoadShares?
       || at.CheckTrustlines? || at.ProbeMarker? || at.CheckFloat? || at.FailLow? {
      PreparingSound(s, h, job, at, answer);
    } else if at.GetAccount? || at.Simulate? || at.Send? {
      InvokingSound(s, h, job, at, answer);
    } else if at.Poll? {
      PollingSound(s, h, job, at, answer);
    } else {
      ConcludingSound(s, h, job, at, answer);
    }
  }

  lemma PreparingSound(s: State, h: nat, job: Payment, at: SettlePc, answer: Answer)
    requires Stored(s) && SettleOk(s, job, at) && Truthful(s, Settling(job, at), answer)
    requires at.ReadOrder? || at.MarkPending? || at.LoadShares?
          || at.CheckTrustlines? || at.ProbeMarker? || at.CheckFloat? || at.FailLow?
    ensures Sound(s, h, DecideSettling(s, job, at, answer))
  {
  }

  lemma InvokingSound(s: State, h: nat, job: Payment, at: SettlePc, answer: Answer)
    requires Stored(s) && SettleOk(s, job, at) && Truthful(s, Settling(job, at), answer)
    requires at.GetAccount? || at.Simulate? || at.Send?
    ensures Sound(s, h, DecideSettling(s, job, at, answer))
  {
    if at.Send? {
      SendingSound(s, h, job, at.list, at.attempt, answer);
    }
  }

  lemma SendingSound(s: State, h: nat, job: Payment, list: seq<Recipient>, attempt: nat, answer: Answer)
    requires Stored(s) && SettleOk(s, job, Send(list, attempt))
    requires Truthful(s, Settling(job, Send(list, attempt)), answer)
    ensures Sound(s, h, DecideSettling(s, job, Send(list, attempt), answer))
  {
    if answer == Good || answer == Lost {
      SubmittingSound(s, h, job, list, attempt, answer);
    }
  }

  lemma SubmittingSound(s: State, h: nat, job: Payment, list: seq<Recipient>, attempt: nat, answer: Answer)
    requires Stored(s) && SettleOk(s, job, Send(list, attempt)) && (answer == Good || answer == Lost)
    ensures Sound(s, h, DecideSettling(s, job, Send(list, attempt), answer))
  {
  }

  lemma PollingSound(s: State, h: nat, job: Payment, at: SettlePc, answer: Answer)
    requires Stored(s) && SettleOk(s, job, at) && Truthful(s, Settling(job, at), answer)
    requires at.Poll?
    ensures Sound(s, h, DecideSettling(s, job, at, answer))
  {
    if answer == Good {
      ConfirmedSound(s, h, job, at);
    }
  }

  lemma ConfirmedSound(s: State, h: nat, job: Payment, at: SettlePc)
    requires Stored(s) && at.Poll? && SettleOk(s, job, at) && Truthful(s, Settling(job, at), Good)
    ensures Sound(s, h, DecideSettling(s, job, at, Good))
  {
    assert TxOk(s, s.txs[at.tx]);
  }

  lemma ConcludingSound(s: State, h: nat, job: Payment, at: SettlePc, answer: Answer)
    requires Stored(s) && SettleOk(s, job, at) && Truthful(s, Settling(job, at), answer)
    requires at.Fail? || at.FindRow? || at.AdoptRow? || at.MarkEarly?
    ensures Sound(s, h, DecideSettling(s, job, at, answer))
  {
    if at.FindRow? {
      FindingSound(s, h, job, at.known, at.list, answer);
    } else if at.Fail? {
      FailingSound(s, h, job, at.hash, at.last, answer);
    }
  }

  lemma FindingSound(s: State, h: nat, job: Payment, known: Option<Hash>, list: seq<Recipient>, answer: Answer)
    requires Stored(s) && SettleOk(s, job, FindRow(known, list))
    ensures Sound(s, h, DecideSettling(s, job, FindRow(known, list), answer))
  {
    if job.order in s.rows {
      assert RowOk(s, job.order, s.rows[job.order]);
    }
  }

  lemma FailingSound(s: State, h: nat, job: Payment, hash: Option<Hash>, last: bool, answer: Answer)
    requires Stored(s) && SettleOk(s, job, Fail(hash, last))
    ensures Sound(s, h, DecideSettling(s, job, Fail(hash, last), answer))
  {
  }

  lemma NextStuckOk(s: State, h: nat, rest: seq<Snap>)
    requires SnapsOk(s, rest)
    ensures NextStuck(rest).Some? ==> Local(s, h, NextStuck(rest).value)
  {
    if rest != [] {
      assert SnapOk(s, rest[0]);
    }
  }

  lemma ContinuationsOk(s: State, t: State, h: nat, k: nat, o: OrderId, caller: Caller)
    requires CallerOk(s, o, caller) && Extends(s, t, k)
    ensures OnReturn(caller).Some? ==> Local(t, h, OnReturn(caller).value)
    ensures OnError(caller).Some? ==> Local(t, h, OnError(caller).value)
  {
    CallerStable(s, t, k, o, caller);
    if !caller.Handler? {
      NextStuckOk(t, h, caller.rest);
    }
  }

  lemma RecordingSound(s: State, h: nat, o: OrderId, at: RecordPc, caller: Caller, answer: Answer)
    requires Stored(s) && RecordOk(s, h, o, at, caller) && h < s.next
    ensures Sound(s, h, DecideRecording(s, h, o, at, caller, answer))
  {
    var move := DecideRecording(s, h, o, at, caller, answer);
    assert Guard(s, h, move.effect);
    EffectKeeps(s, h, move.effect);
    var t := Perform(s, move.effect);
    ContinuationsOk(s, t, h, h, o, caller);
    CallerStable(s, t, h, o, caller);
    if at.CreateRow? || at.MarkSettled? {
      CreatingSound(s, h, o, at, caller, answer);
    } else {
      ReloadingSound(s, h, o, at, caller, answer);
    }
  }

  lemma CreatingSound(s: State, h: nat, o: OrderId, at: RecordPc, caller: Caller, answer: Answer)
    requires Stored(s) && RecordOk(s, h, o, at, caller) && h < s.next
    requires at.CreateRow? || at.MarkSettled?
    requires var t := Perform(s, DecideRecording(s, h, o, at, caller, answer).effect);
      && Extends(s, t, h) && CallerOk(t, o, caller)
      && (OnError(caller).Some? ==> Local(t, h, OnError(caller).value))
    ensures Sound(s, h, DecideRecording(s, h, o, at, caller, answer))
  {
  }

  lemma ReloadingSound(s: State, h: nat, o: OrderId, at: RecordPc, caller: Caller, answer: Answer)
    requires Stored(s) && RecordOk(s, h, o, at, caller) && h < s.next
    requires !at.CreateRow? && !at.MarkSettled?
    requires var t := Perform(s, DecideRecording(s, h, o, at, caller, answer).effect);
      && Extends(s, t, h) && CallerOk(t, o, caller)
      && (OnError(caller).Some? ==> Local(t, h, OnError(caller).value))
      && (OnReturn(caller).Some? ==> Local(t, h, OnReturn(caller).value))
    ensures Sound(s, h, DecideRecording(s, h, o, at, caller, answer))
  {
  }

  lemma PayingSound(s: State, h: nat, o: OrderId, ref: PaymentRef, at: PayPc, answer: Answer)
    requires PayOk(s, o, at)
    ensures Sound(s, h, DecidePaying(s, o, ref, at, answer))
  {
  }

  lemma {:induction false} StuckOk(s: State, ids: seq<OrderId>)
    requires OrdersOk(s)
    ensures SnapsOk(s, Stuck(s, ids))
  {
    if ids != [] {
      StuckOk(s, ids[1..]);
    }
  }

  lemma RecoveringSound(s: State, h: nat, at: RecoverPc, answer: Answer)
    requires Stored(s) && RecoverOk(s, at) && Truthful(s, Recovering(at), answer)
    ensures Sound(s, h, DecideRecovering(s, at, answer))
  {
    var move := DecideRecovering(s, at, answer);
    if at.FindStuck? {
      if answer.Rows? {
        StuckOk(s, answer.ids);
        NextStuckOk(s, h, Stuck(s, answer.ids));
      }
    } else {
      if (at.AskTx? || at.AskAgain?) && answer == Good {
        assert TxOk(s, s.txs[at.snap.txHash.value.tx]);
      }
      assert Guard(s, h, move.effect);
      RestOk(s, h, at, move.effect);
      RecoveringNext(s, h, at, answer);
    }
  }

  /** Whatever the statement does, the orders still to recover stay sound. */
  lemma RestOk(s: State, h: nat, at: RecoverPc, effect: Effect)
    requires Stored(s) && Guard(s, h, effect) && !at.FindStuck? && RecoverOk(s, at)
    ensures var t := Perform(s, effect);
      && Extends(s, t, h) && SnapOk(t, at.snap) && SnapsOk(t, at.rest)
      && (NextStuck(at.rest).Some? ==> Local(t, h, NextStuck(at.rest).value))
  {
    EffectKeeps(s, h, effect);
    var t := Perform(s, effect);
    SnapsStable(s, t, h, at.rest);
    NextStuckOk(t, h, at.rest);
  }

  lemma RecoveringNext(s: State, h: nat, at: RecoverPc, answer: Answer)
    requires RecoverOk(s, at) && !at.FindStuck?
    requires (at.AskTx? || at.AskAgain?) && answer == Good ==> at.snap.order in s.chain.markers
    requires at.AskMarker? && answer == Good ==> at.snap.order in s.chain.markers
    requires var t := Perform(s, DecideRecovering(s, at, answer).effect);
      && Extends(s, t, h) && SnapOk(t, at.snap) && SnapsOk(t, at.rest)
      && (NextStuck(at.rest).Some? ==> Local(t, h, NextStuck(at.rest).value))
    ensures var move := DecideRecovering(s, at, answer);
      move.next.Some? ==> Local(Perform(s, move.effect), h, move.next.value)
  {
  }

  lemma DecideSound(s: State, h: nat, answer: Answer)
    requires Safe(s) && h in s.acts && Truthful(s, s.acts[h], answer)
    ensures Sound(s, h, Decide(s, h, s.acts[h], answer))
  {
    assert Local(s, h, s.acts[h]);
    match s.acts[h] {
      case Settling(job, at) => SettlingSound(s, h, job, at, answer);
      case Recording(o, at, caller) => RecordingSound(s, h, o, at, caller, answer);
      case Paying(o, ref, at) => PayingSound(s, h, o, ref, at, answer);
      case Recovering(at) => RecoveringSound(s, h, at, answer);
      case Delivering(event, at) => DeliveringSound(s, h, event, at, answer);
    }
  }

  lemma DeliveringSound(s: State, h: nat, event: nat, at: DeliverPc, answer: Answer)
    requires Local(s, h, Delivering(event, at))
    ensures Sound(s, h, Decide(s, h, Delivering(event, at), answer))
  {
  }

  lemma ActKeeps(s: State, h: nat, answer: Answer)
    requires Safe(s)
    ensures Safe(ActStep(s, h, answer)) && Extends(s, ActStep(s, h, answer), h)
  {
    if h in s.acts && Truthful(s, s.acts[h], answer) {
      DecideSound(s, h, answer);
      var move := Decide(s, h, s.acts[h], answer);
      EffectKeeps(s, h, move.effect);
      PerformActs(s, move.effect);
      ContinueKeeps(s, Perform(s, move.effect), h, move.next);
    }
  }

  lemma PerformActs(s: State, effect: Effect)
    ensures Perform(s, effect).acts == s.acts
  {
  }

  /** The handler goes on with a sound view, and the other handlers' views survive. */
  lemma ContinueKeeps(s: State, t: State, h: nat, next: Option<Pc>)
    requires ActsOk(s) && h in s.acts && t.acts == s.acts && Extends(s, t, h) && Stored(t)
    requires next.Some? ==> Local(t, h, next.value)
    ensures var u := Continue(t, h, next); Safe(u) && Extends(s, u, h)
  {
    var u := Continue(t, h, next);
    SameStore(t, u);
    forall k | k in u.acts ensures k < u.next && Local(u, k, u.acts[k]) {
      if k != h {
        LocalStable(s, t, h, k, s.acts[k]);
      }
      SameView(t, u, k, u.acts[k]);
    }
  }

  // Starting, advancing or dropping a handler and taking events off the bus touch nothing stored.
  ghost predicate SameData(s: State, t: State) {
    && t.chain == s.chain && t.txs == s.txs && t.orders == s.orders && t.rows == s.rows
    && t.emitted == s.emitted && t.next >= s.next
    && (forall e :: e in t.payments ==> e in s.payments && t.payments[e] == s.payments[e])
  }

  lemma SameStore(s: State, t: State)
    requires Stored(s) && SameData(s, t)
    ensures Stored(t) && forall h :: Extends(s, t, h)
  {
    Untouched(s, t, 0);
  }

  lemma SameView(s: State, t: State, k: nat, pc: Pc)
    requires SameData(s, t) && Local(s, k, pc)
    ensures Local(t, k, pc)
  {
    assert Extends(s, t, k + 1);
    LocalStable(s, t, k + 1, k, pc);
  }

  // ---------------------------------------------------------------- the environment

  /** A new order, new product data or a new connection leaves everything recorded as it was. */
  lemma ShopKeeps(s: State, action: Action)
    requires Safe(s) && (action.PutProduct? || action.Connect? || action.Checkout?)
    ensures Safe(Step(s, action)) && Extends(s, Step(s, action), s.next)
  {
    QuietKeeps(s, Step(s, action));
  }

  /** A change of the shop that keeps the orders there are. */
  lemma QuietKeeps(s: State, t: State)
    requires Safe(s) && t == s.(products := t.products, connected := t.connected, orders := t.orders)
    requires forall o :: o in s.orders ==> o in t.orders && t.orders[o] == s.orders[o]
    requires forall o :: o in t.orders && o !in s.orders ==> t.orders[o].txHash == None && t.orders[o].status != Settled
    ensures Safe(t) && Extends(s, t, s.next)
  {
    assert Extends(s, t, s.next);
    Untouched(s, t, s.next);
    forall h | h in t.acts ensures h < t.next && Local(t, h, t.acts[h]) {
      LocalStable(s, t, s.next, h, s.acts[h]);
    }
  }

  /** Taking an event off the bus, if any, and starting a handler with a sound view. */
  lemma StartKeeps(s: State, u: State, pc: Pc)
    requires Safe(s) && SameData(s, u) && u.acts == s.acts && u.next == s.next
    requires Local(s, s.next, pc)
    ensures Safe(Start(u, pc)) && Extends(s, Start(u, pc), s.next)
  {
    var t := Start(u, pc);
    SameStore(s, t);
    forall h | h in t.acts ensures h < t.next && Local(t, h, t.acts[h]) {
      SameView(s, t, h, t.acts[h]);
    }
  }

  lemma CrashKeeps(s: State)
    requires Safe(s)
    ensures Safe(Step(s, Crash)) && Extends(s, Step(s, Crash), s.next)
  {
    SameStore(s, Step(s, Crash));
  }

  lemma BusKeeps(s: State, action: Action)
    requires Safe(s)
    requires action.Webhook? || action.Dispatch? || action.Bootstrap? || action.Deliver?
    ensures Safe(Step(s, action)) && Extends(s, Step(s, action), s.next)
  {
    if action.Webhook? {
      StartKeeps(s, s, Paying(action.order, action.ref, FindRef));
    } else if action.Bootstrap? {
      StartKeeps(s, s, Recovering(FindStuck));
    } else if action.Dispatch? {
      if action.event in s.payments {
        StartKeeps(s, s.(payments := s.payments - {action.event}), Settling(s.payments[action.event], ReadOrder));
      } else {
        SameStore(s, s);
      }
    } else {
      if action.event in s.undelivered {
        StartKeeps(s, s.(undelivered := s.undelivered - {action.event}), Delivering(action.event, LoadBuyer));
      } else {
        SameStore(s, s);
      }
    }
  }

  lemma ResumeKeeps(s: State, o: OrderId)
    requires Safe(s)
    ensures Safe(Step(s, Resume(o))) && Extends(s, Step(s, Resume(o)), s.next)
  {
    var t := Step(s, Resume(o));
    if t != s {
      EffectKeeps(s, s.next, Emit(Payment(o, s.orders[o].cents)));
      forall h | h in t.acts ensures h < t.next && Local(t, h, t.acts[h]) {
        LocalStable(s, t, s.next, h, s.acts[h]);
      }
    }
  }

  /** The token moves under the contract: no order's receipt changes. */
  lemma OutsideKeeps(s: State, call: Call)
    requires Safe(s) && s.chain.config.Some?
    ensures Safe(Step(s, Outside(call))) && Extends(s, Step(s, Outside(call)), s.next)
  {
    var t := Step(s, Outside(call));
    if IsOutside(call) {
      forall o ensures Of(o, t.chain.history) == Of(o, s.chain.history) {
        OutsideReceipts(s.chain, call, o);
      }
    }
    ChainChanges(s, t);
  }

  lemma OutsideReceipts(c: Chain, call: Call, o: OrderId)
    requires !call.Settlement?
    ensures Of(o, Execute(c, call).history) == Of(o, c.history) && Execute(c, call).markers == c.markers
  {
    if call.TokenTransfer? {
      var moved := [Moved(call.from, call.to, call.amount)];
      Appended(c.history, moved, call.from, call.from, o);
      assert moved[1..] == [];
      assert Of(o, c.history) + [] == Of(o, c.history);
    }
  }

  /** A change of the chain that keeps the receipts of marked orders keeps everything else. */
  lemma ChainChanges(s: State, t: State)
    requires Safe(s) && t == s.(chain := t.chain)
    requires t.chain.markers == s.chain.markers
    requires forall o :: Of(o, t.chain.history) == Of(o, s.chain.history)
    ensures Safe(t) && Extends(s, t, s.next)
  {
    assert Extends(s, t, s.next);
    RowsStable(s, t, s.next);
    TxsStable(s, t, s.next);
    forall o | o in t.chain.markers ensures PaidAtPrice(t, o) {
      PaidAtPriceStable(s, t, s.next, o);
    }
    forall h | h in t.acts ensures h < t.next && Local(t, h, t.acts[h]) {
      LocalStable(s, t, s.next, h, s.acts[h]);
    }
  }

  /** A transaction's change of status, with the receipt of its order if it is confirmed. */
  ghost predicate Included(s: State, t: State, tx: nat) {
    && tx in s.txs
    && var terms := s.txs[tx].terms; var status := t.txs.Keys == s.txs.Keys && t.txs[tx].status == Confirmed;
      && t == s.(chain := t.chain, txs := s.txs[tx := Tx(terms, if status then Confirmed else Reverted)])
      && (!status ==> t.chain == s.chain)
      && (status ==>
            && terms.order !in s.chain.markers
            && t.chain.markers == s.chain.markers + {terms.order}
            && Acceptable(terms.recipients)
            && Paid(t, terms.order, terms.total, terms.recipients)
            && (forall o :: o != terms.order ==> Of(o, t.chain.history) == Of(o, s.chain.history)))
  }

  lemma IncludeIsIncluded(s: State, tx: nat, executed: bool, genesis: Ledger.Accounts)
    requires Accounted(s.chain, genesis)
    ensures var t := IncludeStep(s, tx, executed);
      t == s || (Included(s, t, tx) && s.txs[tx].status == Pending)
  {
    if tx in s.txs && s.txs[tx].status == Pending {
      var terms := s.txs[tx].terms;
      if executed && Settle(s.chain, s.signers, terms.order, terms.total, terms.recipients).0 == Success {
        ExecutionIsIncluded(s, tx, genesis);
      } else {
        assert IncludeStep(s, tx, executed) == s.(txs := s.txs[tx := Tx(terms, Reverted)]);
      }
    }
  }

  lemma ExecutionIsIncluded(s: State, tx: nat, genesis: Ledger.Accounts)
    requires Accounted(s.chain, genesis) && tx in s.txs && s.txs[tx].status == Pending
    requires var terms := s.txs[tx].terms;
      Settle(s.chain, s.signers, terms.order, terms.total, terms.recipients).0 == Success
    ensures Included(s, IncludeStep(s, tx, true), tx)
  {
    var terms := s.txs[tx].terms;
    SettleReceipts(s.chain, genesis, s.signers, terms.order, terms.total, terms.recipients);
    assert IncludeStep(s, tx, true).txs == s.txs[tx := Tx(terms, Confirmed)];
  }

  lemma InclusionExtends(s: State, t: State, tx: nat)
    requires Included(s, t, tx)
    ensures Extends(s, t, s.next)
  {
  }

  lemma InclusionTxs(s: State, t: State, tx: nat)
    requires TxsOk(s) && Included(s, t, tx)
    ensures TxsOk(t)
  {
    forall x | x in t.txs ensures x < t.next && TxOk(t, t.txs[x]) {
      assert TxOk(s, s.txs[x]);
    }
  }

  lemma InclusionMarkers(s: State, t: State, tx: nat)
    requires TxsOk(s) && MarkersOk(s) && Included(s, t, tx) && s.txs[tx].status == Pending
    ensures MarkersOk(t)
  {
    var terms := s.txs[tx].terms;
    assert TxOk(s, s.txs[tx]);
    InclusionExtends(s, t, tx);
    forall o | o in t.chain.markers ensures PaidAtPrice(t, o) {
      if o in s.chain.markers {
        PaidAtPriceStable(s, t, s.next, o);
      } else {
        assert Paid(t, o, BaseTotal(t.orders[o].cents), terms.recipients);
      }
    }
  }

  lemma InclusionKeeps(s: State, t: State, tx: nat)
    requires Safe(s) && Included(s, t, tx) && s.txs[tx].status == Pending
    ensures Safe(t) && Extends(s, t, s.next)
  {
    InclusionExtends(s, t, tx);
    InclusionTxs(s, t, tx);
    InclusionMarkers(s, t, tx);
    RowsStable(s, t, s.next);
    forall h | h in t.acts ensures h < t.next && Local(t, h, t.acts[h]) {
      LocalStable(s, t, s.next, h, s.acts[h]);
    }
  }

  lemma IncludeKeeps(s: State, tx: nat, executed: bool, genesis: Ledger.Accounts)
    requires Safe(s) && Accounted(s.chain, genesis)
    ensures var t := Step(s, Include(tx, executed)); Safe(t) && Extends(s, t, s.next)
  {
    IncludeIsIncluded(s, tx, executed, genesis);
    InclusionOrNot(s, IncludeStep(s, tx, executed), tx);
  }

  lemma InclusionOrNot(s: State, t: State, tx: nat)
    requires Safe(s) && (t == s || (Included(s, t, tx) && s.txs[tx].status == Pending))
    ensures Safe(t) && Extends(s, t, s.next)
  {
    if t != s {
      InclusionKeeps(s, t, tx);
    }
  }

  // ---------------------------------------------------------------------- delivery

  predicate HoldsMail(pc: Pc) {
    pc.Delivering? && !pc.deliver.LogMail?
  }

  /** Every completion is on the bus, with one delivery handler, mailed, or lost: never two of these. */
  ghost predicate DeliveryOk(s: State) {
    && (forall e :: e in s.undelivered ==> e < |s.emitted| && e !in s.mails)
    && (forall e :: e in s.mails ==> e < |s.emitted|)
    && NoDuplicates(s.mails)
    && (forall h :: h in s.acts ==> h < s.next)
    && (forall h :: h in s.acts && HoldsMail(s.acts[h]) ==>
          s.acts[h].event < |s.emitted| && s.acts[h].event !in s.undelivered && s.acts[h].event !in s.mails)
    && (forall h, k :: h in s.acts && k in s.acts && h != k && HoldsMail(s.acts[h]) && HoldsMail(s.acts[k])
          ==> s.acts[h].event != s.acts[k].event)
  }

  /** No handler but a delivery handler moves to a delivery point. */
  lemma OnlyDeliveryDelivers(s: State, h: nat, pc: Pc, answer: Answer)
    requires !pc.Delivering?
    ensures var move := Decide(s, h, pc, answer);
      !move.effect.Mail? && (move.next.Some? ==> !move.next.value.Delivering?)
  {
  }

  lemma ActDelivers(s: State, h: nat, answer: Answer)
    requires DeliveryOk(s)
    ensures DeliveryOk(ActStep(s, h, answer))
  {
    if h in s.acts && Truthful(s, s.acts[h], answer) {
      var pc := s.acts[h];
      if pc.Delivering? {
        MailStep(s, h, answer);
      } else {
        OnlyDeliveryDelivers(s, h, pc, answer);
        OtherStep(s, h, Decide(s, h, pc, answer));
      }
    }
  }

  /** A step that hands no completion over keeps the count. */
  lemma SameMail(s: State, t: State)
    requires DeliveryOk(s)
    requires s.emitted <= t.emitted && t.mails == s.mails && s.next <= t.next
    requires forall e :: e in t.undelivered ==> e in s.undelivered || |s.emitted| <= e < |t.emitted|
    requires forall h :: h in t.acts ==> h in s.acts || h < t.next
    requires forall h :: h in t.acts && HoldsMail(t.acts[h]) ==>
               h in s.acts && HoldsMail(s.acts[h]) && t.acts[h].event == s.acts[h].event
    ensures DeliveryOk(t)
  {
  }

  lemma MailStep(s: State, h: nat, answer: Answer)
    requires DeliveryOk(s) && h in s.acts && s.acts[h].Delivering?
    ensures DeliveryOk(ActStep(s, h, answer))
  {
    var event := s.acts[h].event;
    DeliveryStep(s, h, answer);
    match s.acts[h].deliver {
      case LoadBuyer =>
        if answer == Throw {
          SameMail(s, s.(acts := s.acts - {h}));
        } else {
          SameMail(s, s.(acts := s.acts[h := Delivering(event, SendMail)]));
        }
      case SendMail =>
        Mailed(s, s.(mails := s.mails + [event], acts := s.acts[h := Delivering(event, LogMail)]), h, event);
      case LogMail => SameMail(s, s.(acts := s.acts - {h}));
    }
  }

  lemma DeliveryStep(s: State, h: nat, answer: Answer)
    requires h in s.acts && s.acts[h].Delivering?
    ensures var event := s.acts[h].event;
      ActStep(s, h, answer)
      == match s.acts[h].deliver
         case LoadBuyer =>
           s.(acts := if answer == Throw then s.acts - {h} else s.acts[h := Delivering(event, SendMail)])
         case SendMail => s.(mails := s.mails + [event], acts := s.acts[h := Delivering(event, LogMail)])
         case LogMail => s.(acts := s.acts - {h})
  {
  }

  lemma Mailed(s: State, t: State, h: nat, event: nat)
    requires DeliveryOk(s) && h in s.acts && HoldsMail(s.acts[h]) && s.acts[h].event == event
    requires t == s.(mails := s.mails + [event], acts := s.acts[h := Delivering(event, LogMail)])
    ensures DeliveryOk(t)
  {
  }

  lemma OtherStep(s: State, h: nat, move: Move)
    requires DeliveryOk(s) && h in s.acts && !s.acts[h].Delivering?
    requires !move.effect.Mail? && (move.next.Some? ==> !move.next.value.Delivering?)
    ensures DeliveryOk(Continue(Perform(s, move.effect), h, move.next))
  {
    var t := Perform(s, move.effect);
    PerformMail(s, move.effect);
    SameMail(s, t);
    match move.next {
      case None => SameMail(t, t.(acts := t.acts - {h}));
      case Some(pc) => SameMail(t, t.(acts := t.acts[h := pc]));
    }
  }

  lemma PerformMail(s: State, effect: Effect)
    requires !effect.Mail?
    ensures var t := Perform(s, effect);
      && t.acts == s.acts && t.mails == s.mails && s.emitted <= t.emitted && s.next <= t.next
      && (forall e :: e in t.undelivered ==> e in s.undelivered || |s.emitted| <= e < |t.emitted|)
  {
    match effect {
      case EmitCompleted(o) =>
      case _ =>
    }
  }

  lemma StartDelivers(s: State, u: State, pc: Pc)
    requires DeliveryOk(s) && u.acts == s.acts && u.next == s.next && u.emitted == s.emitted && u.mails == s.mails
    requires pc.Delivering? ==> pc.event in s.undelivered
    requires u.undelivered == if pc.Delivering? then s.undelivered - {pc.event} else s.undelivered
    ensures DeliveryOk(Start(u, pc))
  {
  }

  lemma StepDelivers(s: State, action: Action)
    requires DeliveryOk(s)
    ensures DeliveryOk(Step(s, action))
  {
    match action {
      case Act(h, answer) => ActDelivers(s, h, answer);
      case Include(tx, executed) => IncludeDelivers(s, tx, executed);
      case Deliver(event) =>
        if event in s.undelivered {
          StartDelivers(s, s.(undelivered := s.undelivered - {event}), Delivering(event, LoadBuyer));
        }
      case Dispatch(event) =>
        if event in s.payments {
          StartDelivers(s, s.(payments := s.payments - {event}), Settling(s.payments[event], ReadOrder));
        }
      case Webhook(o, ref) => StartDelivers(s, s, Paying(o, ref, FindRef));
      case Bootstrap => StartDelivers(s, s, Recovering(FindStuck));
      case Crash =>
      case _ => ShopDelivers(s, action);
    }
  }

  lemma IncludeDelivers(s: State, tx: nat, executed: bool)
    requires DeliveryOk(s)
    ensures DeliveryOk(IncludeStep(s, tx, executed))
  {
    var t := IncludeStep(s, tx, executed);
    assert t == s.(chain := t.chain, txs := t.txs);
    SameMail(s, t);
  }

  lemma ShopDelivers(s: State, action: Action)
    requires DeliveryOk(s)
    requires action.PutProduct? || action.Connect? || action.Checkout? || action.Resume? || action.Outside?
    ensures DeliveryOk(Step(s, action))
  {
    ShopKeepsMail(s, action);
    SameMail(s, Step(s, action));
  }

  lemma ShopKeepsMail(s: State, action: Action)
    requires action.PutProduct? || action.Connect? || action.Checkout? || action.Resume? || action.Outside?
    ensures var t := Step(s, action);
      && t.acts == s.acts && t.mails == s.mails && t.emitted == s.emitted
      && s.next <= t.next && t.undelivered == s.undelivered
  {
  }

  // ------------------------------------------------------------------- every run

  ghost predicate Invariant(s: State, genesis: Ledger.Accounts) {
    && Safe(s)
    && Accounted(s.chain, genesis) && s.chain.config.Some?
    && DeliveryOk(s)
  }

  lemma StepAccounted(s: State, action: Action, genesis: Ledger.Accounts)
    requires Accounted(s.chain, genesis) && s.chain.config.Some?
    ensures Accounted(Step(s, action).chain, genesis) && Step(s, action).chain.config == s.chain.config
  {
    match action {
      case Include(tx, executed) => IncludeAccounted(s, tx, executed, genesis);
      case Outside(call) => OutsideAccounted(s, call, genesis);
      case Act(h, answer) => ActChain(s, h, answer);
      case _ => SameChain(s, action);
    }
  }

  lemma OutsideAccounted(s: State, call: Call, genesis: Ledger.Accounts)
    requires Accounted(s.chain, genesis) && s.chain.config.Some?
    ensures var t := Step(s, Outside(call)); Accounted(t.chain, genesis) && t.chain.config == s.chain.config
  {
    ExecuteAccounted(s.chain, genesis, call);
  }

  lemma SameChain(s: State, action: Action)
    requires !action.Include? && !action.Outside? && !action.Act?
    ensures Step(s, action).chain == s.chain
  {
  }

  /** No handler touches the chain: it only submits transactions. */
  lemma ActChain(s: State, h: nat, answer: Answer)
    ensures ActStep(s, h, answer).chain == s.chain
  {
    if h in s.acts {
      var move := Decide(s, h, s.acts[h], answer);
      MoveChain(s, h, move);
    }
  }

  lemma MoveChain(s: State, h: nat, move: Move)
    ensures Continue(Perform(s, move.effect), h, move.next).chain == s.chain
  {
    PerformChain(s, move.effect);
    ContinueChain(Perform(s, move.effect), h, move.next);
  }

  lemma PerformChain(s: State, effect: Effect)
    ensures Perform(s, effect).chain == s.chain
  {
    match effect {
      case Write(_, _, _) =>
      case Claim(_, _, _) =>
      case _ =>
    }
  }

  lemma ContinueChain(s: State, h: nat, next: Option<Pc>)
    ensures Continue(s, h, next).chain == s.chain
  {
  }

  lemma IncludeAccounted(s: State, tx: nat, executed: bool, genesis: Ledger.Accounts)
    requires Accounted(s.chain, genesis)
    ensures Accounted(IncludeStep(s, tx, executed).chain, genesis)
    ensures IncludeStep(s, tx, executed).chain.config == s.chain.config
  {
    if tx in s.txs {
      var terms := s.txs[tx].terms;
      SettlementAccounted(s.chain, genesis, s.signers, terms.order, terms.total, terms.recipients);
      if Settle(s.chain, s.signers, terms.order, terms.total, terms.recipients).0 == Success {
        SettleReceipts(s.chain, genesis, s.signers, terms.order, terms.total, terms.recipients);
      }
    }
  }

  function Actor(s: State, action: Action): nat {
    if action.Act? then action.actor else s.next
  }

  lemma StepKeeps(s: State, action: Action, genesis: Ledger.Accounts)
    requires Invariant(s, genesis)
    ensures Invariant(Step(s, action), genesis)
    ensures Extends(s, Step(s, action), Actor(s, action))
  {
    StepAccounted(s, action, genesis);
    StepDelivers(s, action);
    match action {
      case PutProduct(_, _) => ShopKeeps(s, action);
      case Connect(_) => ShopKeeps(s, action);
      case Checkout(_, _, _) => ShopKeeps(s, action);
      case Resume(o) => ResumeKeeps(s, o);
      case Act(h, answer) => ActKeeps(s, h, answer);
      case Include(tx, executed) => IncludeKeeps(s, tx, executed, genesis);
      case Outside(call) => OutsideKeeps(s, call);
      case Crash => CrashKeeps(s);
      case _ => BusKeeps(s, action);
    }
  }

  lemma InitInvariant(s: State, genesis: Ledger.Accounts)
    requires Init(s, genesis)
    ensures Invariant(s, genesis)
  {
  }

  lemma {:induction false} RunKeeps(s: State, actions: seq<Action>, genesis: Ledger.Accounts)
    requires Invariant(s, genesis)
    ensures Invariant(Run(s, actions), genesis)
    decreases |actions|
  {
    if actions != [] {
      StepKeeps(s, actions[0], genesis);
      RunKeeps(Step(s, actions[0]), actions[1..], genesis);
    }
  }
}
