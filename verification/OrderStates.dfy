/** The table of legal order transitions, and how long a history it allows. */
module OrderStates {
  import opened Types

  datatype OrderStatus =
    | Created
    | CheckoutStarted
    | PaymentPending
    | PaymentReceived
    | WaitingWallet
    | SettlementPending
    | Settled
    | WithdrawPending
    | WithdrawCompleted
    | PaymentFailed
    | SettlementFailed
    | WithdrawFailed
    | Cancelled

  function Transitions(from: OrderStatus): seq<OrderStatus> {
    match from
    case Created => [CheckoutStarted, Cancelled]
    case CheckoutStarted => [PaymentPending, Cancelled]
    case PaymentPending => [PaymentReceived, WaitingWallet, PaymentFailed, Cancelled]
    case PaymentReceived => [SettlementPending, WaitingWallet, Cancelled]
    case WaitingWallet => [SettlementPending, Cancelled]
    case SettlementPending => [Settled, SettlementFailed, Cancelled, PaymentReceived]
    case Settled => [WithdrawPending]
    case WithdrawPending => [WithdrawCompleted, WithdrawFailed, Cancelled]
    case WithdrawCompleted => []
    case PaymentFailed => []
    case SettlementFailed => []
    case WithdrawFailed => []
    case Cancelled => []
  }

  predicate CanTransition(from: OrderStatus, to: OrderStatus) {
    to in Transitions(from)
  }

  predicate IsTerminal(status: OrderStatus) {
    |Transitions(status)| == 0
  }

  /** The table lets every status that is not terminal be cancelled, except SETTLED. */
  lemma CancellableUnlessSettled(from: OrderStatus)
    requires !IsTerminal(from)
    ensures CanTransition(from, Cancelled) <==> from != Settled
  {
    match from {
      case Created =>
      case CheckoutStarted =>
      case PaymentPending =>
      case PaymentReceived =>
      case WaitingWallet =>
      case SettlementPending =>
      case Settled =>
      case WithdrawPending =>
      case _ =>
    }
  }

  /** The longest way on from a status that never goes back for another settlement attempt. */
  function Rank(status: OrderStatus): nat {
    match status
    case Created => 8
    case CheckoutStarted => 7
    case PaymentPending => 6
    case PaymentReceived => 5
    case WaitingWallet => 4
    case SettlementPending => 3
    case Settled => 2
    case WithdrawPending => 1
    case _ => 0
  }

  predicate IsRollback(from: OrderStatus, to: OrderStatus) {
    from == SettlementPending && to == PaymentReceived
  }

  /** The recovery rollback is the only legal transition that closes a cycle. */
  lemma OnlyRollbackCloses(from: OrderStatus, to: OrderStatus)
    requires CanTransition(from, to)
    ensures Rank(to) < Rank(from) <==> !IsRollback(from, to)
  {
    match from {
      case Created =>
      case CheckoutStarted =>
      case PaymentPending =>
      case PaymentReceived =>
      case WaitingWallet =>
      case SettlementPending =>
      case Settled =>
      case WithdrawPending =>
      case _ =>
    }
  }

  /** The failure a status can end in. */
  function FailureOf(status: OrderStatus): Option<OrderStatus> {
    match status
    case PaymentPending => Some(PaymentFailed)
    case SettlementPending => Some(SettlementFailed)
    case WithdrawPending => Some(WithdrawFailed)
    case _ => None
  }

  predicate OnTheWay(status: OrderStatus) {
    Rank(status) > 0 || status == WithdrawCompleted
  }

  /** Only a payment can be passed over, by deferral, and only deferral can be passed over. */
  predicate Skips(from: OrderStatus, to: OrderStatus) {
    (from == PaymentPending && to == WaitingWallet) || (from == PaymentReceived && to == SettlementPending)
  }

  /**
   * The whole table: a transition goes one step on from checkout to withdrawal, passes
   * over a payment or a deferral, ends in the status's own failure, cancels anything but
   * what is settled or over, or takes a settlement back to paid.
   */
  lemma TableMeaning(from: OrderStatus, to: OrderStatus)
    ensures CanTransition(from, to) <==>
              || (OnTheWay(to) && Rank(from) == Rank(to) + 1)
              || Skips(from, to)
              || FailureOf(from) == Some(to)
              || (to == Cancelled && Rank(from) > 0 && from != Settled)
              || (from == SettlementPending && to == PaymentReceived)
  {
    match from {
      case Created =>
      case CheckoutStarted =>
      case PaymentPending =>
      case PaymentReceived =>
      case WaitingWallet =>
      case SettlementPending =>
      case Settled =>
      case WithdrawPending =>
      case _ =>
    }
  }

  // ------------------------------------------------------------------- histories

  /** A status history in which every write is legal or leaves the status alone. */
  ghost predicate Legal(history: seq<OrderStatus>) {
    forall i :: 0 <= i < |history| - 1 ==> history[i] == history[i + 1] || CanTransition(history[i], history[i + 1])
  }

  function Changes(history: seq<OrderStatus>): nat {
    if |history| < 2 then 0 else (if history[0] != history[1] then 1 else 0) + Changes(history[1..])
  }

  function Rollbacks(history: seq<OrderStatus>): nat {
    if |history| < 2 then 0 else (if IsRollback(history[0], history[1]) then 1 else 0) + Rollbacks(history[1..])
  }

  /** A legal history with r rollbacks has at most 8 + 3r status changes. */
  lemma {:induction false} ChangesAreBounded(history: seq<OrderStatus>)
    requires history != [] && Legal(history)
    ensures Changes(history) <= Rank(history[0]) + 3 * Rollbacks(history) <= 8 + 3 * Rollbacks(history)
  {
    if |history| >= 2 {
      var rest := history[1..];
      assert Legal(rest) by {
        forall i | 0 <= i < |rest| - 1 ensures rest[i] == rest[i + 1] || CanTransition(rest[i], rest[i + 1]) {
          assert rest[i] == history[i + 1] && rest[i + 1] == history[i + 1 + 1];
        }
      }
      assert history[0] == history[1] || CanTransition(history[0], history[0 + 1]);
      ChangesAreBounded(rest);
      if history[0] != history[1] {
        OnlyRollbackCloses(history[0], history[1]);
      }
    }
  }

  /** One more settlement attempt: back to paid, deferred, pending again. */
  function Attempts(r: nat): seq<OrderStatus> {
    if r == 0 then [SettlementPending, Settled, WithdrawPending, WithdrawCompleted]
    else [SettlementPending, PaymentReceived, WaitingWallet] + Attempts(r - 1)
  }

  lemma Prefixed(status: OrderStatus, history: seq<OrderStatus>)
    requires history != []
    requires Legal(history) && CanTransition(status, history[0])
    ensures Legal([status] + history)
    ensures Changes([status] + history) == (if status != history[0] then 1 else 0) + Changes(history)
    ensures Rollbacks([status] + history) == (if IsRollback(status, history[0]) then 1 else 0) + Rollbacks(history)
  {
    var h := [status] + history;
    assert h[1..] == history;
    forall i | 0 <= i < |h| - 1 ensures h[i] == h[i + 1] || CanTransition(h[i], h[i + 1]) {
      if i > 0 {
        assert h[i] == history[i - 1] && h[i + 1] == history[i - 1 + 1];
      }
    }
  }

  lemma {:induction false} AttemptsAreLegal(r: nat)
    ensures |Attempts(r)| >= 4 && Attempts(r)[0] == SettlementPending
    ensures Legal(Attempts(r)) && Changes(Attempts(r)) == 3 + 3 * r && Rollbacks(Attempts(r)) == r
  {
    if r == 0 {
      LastAttempt();
    } else {
      AttemptsAreLegal(r - 1);
      OneMoreAttempt(Attempts(r - 1));
      assert Attempts(r) == [SettlementPending, PaymentReceived, WaitingWallet] + Attempts(r - 1);
    }
  }

  lemma LastAttempt()
    ensures var h := [SettlementPending, Settled, WithdrawPending, WithdrawCompleted];
      Legal(h) && Changes(h) == 3 && Rollbacks(h) == 0
  {
    var done := [WithdrawCompleted];
    Prefixed(WithdrawPending, done);
    var paid := [WithdrawPending] + done;
    Prefixed(Settled, paid);
    var settled := [Settled] + paid;
    Prefixed(SettlementPending, settled);
    assert [SettlementPending] + settled == [SettlementPending, Settled, WithdrawPending, WithdrawCompleted];
  }

  lemma OneMoreAttempt(rest: seq<OrderStatus>)
    requires rest != [] && Legal(rest) && rest[0] == SettlementPending
    ensures var h := [SettlementPending, PaymentReceived, WaitingWallet] + rest;
      Legal(h) && Changes(h) == 3 + Changes(rest) && Rollbacks(h) == 1 + Rollbacks(rest)
  {
    Prefixed(WaitingWallet, rest);
    var waiting := [WaitingWallet] + rest;
    Prefixed(PaymentReceived, waiting);
    var received := [PaymentReceived] + waiting;
    Prefixed(SettlementPending, received);
    assert [SettlementPending] + received == [SettlementPending, PaymentReceived, WaitingWallet] + rest;
  }

  /** The bound is reached: for every r some legal history makes exactly 8 + 3r changes. */
  lemma BoundIsReached(r: nat) returns (history: seq<OrderStatus>)
    ensures Legal(history) && Rollbacks(history) == r && Changes(history) == 8 + 3 * r
  {
    AttemptsAreLegal(r);
    history := Attempts(r);
    assert history != [] && history[0] == SettlementPending;
    Prefixed(WaitingWallet, history);
    history := [WaitingWallet] + history;
    Prefixed(PaymentReceived, history);
    history := [PaymentReceived] + history;
    Prefixed(PaymentPending, history);
    history := [PaymentPending] + history;
    Prefixed(CheckoutStarted, history);
    history := [CheckoutStarted] + history;
    Prefixed(Created, history);
    history := [Created] + history;
  }
}
