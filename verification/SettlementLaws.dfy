/** What holds of `settle`, and of the chain after any sequence of calls and token transfers. */
module SettlementLaws {
  import opened Types
  import opened Split
  import opened Ledger
  import opened Contract
  import opened Payouts

  // ----------------------------------------------------------- success and effect

  /** The platform's float covers the split and every recipient can take its amount. */
  ghost predicate Fundable(ledger: Accounts, platform: Address, total: int, recipients: seq<Recipient>) {
    var amounts := Amounts(Pool(total), SharesOf(recipients));
    && Needed(platform, recipients, amounts) <= Balance(ledger, platform)
    && CanReceive(ledger, platform, recipients, amounts)
  }

  ghost predicate Settleable(c: Chain, signers: set<Address>, order: OrderId, total: int, recipients: seq<Recipient>) {
    && c.config.Some?
    && c.config.value.platform in signers
    && order !in c.markers
    && total > 0
    && Acceptable(recipients)
    && total * FEE_BPS <= I128_MAX
    && ProductsFit(Pool(total), SharesOf(recipients))
    && Fundable(c.ledger, c.config.value.platform, total, recipients)
  }

  /** For an accepted list and a total whose fee fits, the checked split is the unchecked one or a panic. */
  lemma CheckedSplit(total: int, recipients: seq<Recipient>)
    requires total > 0 && total * FEE_BPS <= I128_MAX && Acceptable(recipients)
    ensures Fee(total) == Quot(total * FEE_BPS, BPS) && IsI128(Pool(total)) && Pool(total) > 0
    ensures var checked := CheckedAmounts(Pool(total), SharesOf(recipients), 0);
      && (checked.Some? <==> ProductsFit(Pool(total), SharesOf(recipients)))
      && (checked.Some? ==> checked.value == Amounts(Pool(total), SharesOf(recipients)))
  {
    FeeBounds(total);
    var shares := SharesOf(recipients);
    OverflowMeaning(Pool(total), shares, 0);
    CheckedIsAmounts(Pool(total), shares, 0);
  }

  /** The transfer loop over a computed split succeeds exactly when it is fundable. */
  lemma PayingSplit(ledger: Accounts, platform: Address, total: int, recipients: seq<Recipient>)
    requires WithinLimits(ledger)
    requires total > 0 && Acceptable(recipients)
    ensures PayAll(ledger, platform, recipients, Amounts(Pool(total), SharesOf(recipients))).Some?
        <==> Fundable(ledger, platform, total, recipients)
  {
    FeeBounds(total);
    var amounts := Amounts(Pool(total), SharesOf(recipients));
    if platform in ledger {
      PayAllSucceeds(ledger, platform, recipients, amounts);
    } else {
      SplitBounds(Pool(total), SharesOf(recipients));
      PaidOutIsSum(amounts);
      NoFloat(ledger, platform, recipients, amounts);
    }
  }

  lemma {:induction false} NoFloat(ledger: Accounts, platform: Address, recipients: seq<Recipient>, amounts: seq<int>)
    requires |recipients| == |amounts|
    requires platform !in ledger && PaidOut(amounts) > 0
    ensures Needed(platform, recipients, amounts) > 0
    ensures PayAll(ledger, platform, recipients, amounts).None?
  {
    if amounts[0] <= 0 {
      NoFloat(ledger, platform, recipients[1..], amounts[1..]);
    }
  }

  /** `settle` succeeds exactly when every one of its conditions holds. */
  lemma SettleSucceeds(c: Chain, signers: set<Address>, order: OrderId, total: int, recipients: seq<Recipient>)
    requires WithinLimits(c.ledger)
    ensures Settle(c, signers, order, total, recipients).0 == Success
        <==> Settleable(c, signers, order, total, recipients)
  {
    ValidateMeaning(recipients);
    if c.config.Some? && total > 0 && Acceptable(recipients) {
      FeeBounds(total);
      if total * FEE_BPS <= I128_MAX {
        CheckedSplit(total, recipients);
        PayingSplit(c.ledger, c.config.value.platform, total, recipients);
      }
    }
  }

  /**
   * All or nothing: a failed call leaves the chain as it was, and a successful one
   * pays exactly the split of its terms, sets the marker and publishes one receipt.
   */
  lemma SettleEffect(c: Chain, signers: set<Address>, order: OrderId, total: int, recipients: seq<Recipient>)
    requires WithinLimits(c.ledger)
    ensures var (outcome, after) := Settle(c, signers, order, total, recipients);
      && (outcome != Success ==> after == c)
      && (outcome == Success ==>
            && Settleable(c, signers, order, total, recipients)
            && after.config == c.config
            && after.markers == c.markers + {order}
            && after.history == c.history + Receipt(order, total, recipients)
            && WithinLimits(after.ledger)
            && Supply(after.ledger) == Supply(c.ledger)
            && (forall a :: Balance(after.ledger, a)
                  == Balance(c.ledger, a)
                     + PaidTo(a, recipients, Amounts(Pool(total), SharesOf(recipients)))
                     - (if a == c.config.value.platform then Pool(total) else 0)))
  {
    SettleSucceeds(c, signers, order, total, recipients);
    if Settle(c, signers, order, total, recipients).0 == Success {
      SettledChain(c, signers, order, total, recipients);
      var amounts := Amounts(Pool(total), SharesOf(recipients));
      FeeBounds(total);
      SplitBounds(Pool(total), SharesOf(recipients));
      PaidOutIsSum(amounts);
      PayAllEffect(c.ledger, c.config.value.platform, recipients, amounts);
    }
  }

  /** The chain after a successful call: paid, marked and published. */
  lemma SettledChain(c: Chain, signers: set<Address>, order: OrderId, total: int, recipients: seq<Recipient>)
    requires WithinLimits(c.ledger) && Settleable(c, signers, order, total, recipients)
    requires Settle(c, signers, order, total, recipients).0 == Success
    ensures var paid := PayAll(c.ledger, c.config.value.platform, recipients,
                               Amounts(Pool(total), SharesOf(recipients)));
      && paid.Some?
      && Settle(c, signers, order, total, recipients).1
         == c.(ledger := paid.value, markers := c.markers + {order},
               history := c.history + Receipt(order, total, recipients))
  {
    CheckedSplit(total, recipients);
    var entries := PaidEntries(order, recipients, Amounts(Pool(total), SharesOf(recipients)));
    var summary := [SettlementExecuted(order, total, Fee(total), Pool(total), |recipients|)];
    assert c.history + entries + summary == c.history + (entries + summary);
  }

  /** The contract is installed, and its platform signed the call. */
  predicate Signed(c: Chain, signers: set<Address>) {
    c.config.Some? && c.config.value.platform in signers
  }

  /** Nothing but the recipients and the arithmetic can still stop the settlement. */
  predicate Open(c: Chain, signers: set<Address>, order: OrderId, total: int) {
    Signed(c, signers) && order !in c.markers && total > 0
  }

  predicate FeeOverflows(total: int) {
    total * 500 > 170_141_183_460_469_231_731_687_303_715_884_105_727
  }

  /** What each outcome of `settle` says about the chain and the arguments. */
  ghost predicate OutcomeFits(c: Chain, signers: set<Address>, order: OrderId, total: int, list: seq<Recipient>,
                              outcome: Outcome)
  {
    match outcome
    case Success => Settleable(c, signers, order, total, list)
    case Trap =>
      || (c.config.Some? && c.config.value.platform !in signers)
      || (Open(c, signers, order, total) && VerdictFits(list, Valid) && !FeeOverflows(total)
          && !(ProductsFit(Pool(total), SharesOf(list)) && Fundable(c.ledger, c.config.value.platform, total, list)))
    case Failure(error) =>
      match error
      case NotInitialized => c.config.None?
      case OrderAlreadySettled => Signed(c, signers) && order in c.markers
      case InvalidTotalAmount => Signed(c, signers) && order !in c.markers && total <= 0
      case ArithmeticOverflow =>
        && Open(c, signers, order, total)
        && (VerdictFits(list, Invalid(ArithmeticOverflow)) || (VerdictFits(list, Valid) && FeeOverflows(total)))
      case _ => Open(c, signers, order, total) && VerdictFits(list, Invalid(error))
  }

  /** Every outcome of `settle`, with its error code, occurs exactly under its own conditions. */
  lemma SettleAnswers(c: Chain, signers: set<Address>, order: OrderId, total: int, list: seq<Recipient>,
                      outcome: Outcome)
    requires WithinLimits(c.ledger)
    ensures Settle(c, signers, order, total, list).0 == outcome
       <==> OutcomeFits(c, signers, order, total, list, outcome)
  {
    SettleSucceeds(c, signers, order, total, list);
    if Open(c, signers, order, total) {
      OpenAnswers(c, signers, order, total, list, outcome);
    }
  }

  lemma OpenAnswers(c: Chain, signers: set<Address>, order: OrderId, total: int, list: seq<Recipient>, outcome: Outcome)
    requires WithinLimits(c.ledger) && Open(c, signers, order, total)
    ensures Settle(c, signers, order, total, list).0 == outcome
       <==> OutcomeFits(c, signers, order, total, list, outcome)
  {
    var verdict := Validate(list);
    VerdictMeaning(list, verdict);
    VerdictMeaning(list, Valid);
    ValidateMeaning(list);
    SettleSucceeds(c, signers, order, total, list);
    if verdict.Valid? {
      FeeBounds(total);
      OtherVerdicts(list);
    } else if outcome.Failure? {
      VerdictMeaning(list, Invalid(outcome.error));
    }
  }

  /** An accepted list fits no rejection. */
  lemma OtherVerdicts(list: seq<Recipient>)
    requires Validate(list) == Valid
    ensures forall error :: !VerdictFits(list, Invalid(error))
  {
    forall error ensures !VerdictFits(list, Invalid(error)) {
      VerdictMeaning(list, Invalid(error));
    }
  }

  /** Every outcome of `initialize`, with its error code, occurs exactly under its own conditions. */
  lemma InitializeAnswers(c: Chain, signers: set<Address>, platform: Address, usdc: Address, outcome: Outcome)
    ensures var (answer, after) := Initialize(c, signers, platform, usdc);
      && (answer == Failure(AlreadyInitialized) <==> c.config.Some?)
      && (answer == Failure(InvalidConfiguration) <==> c.config.None? && platform == usdc)
      && (answer == Trap <==> c.config.None? && platform != usdc && platform !in signers)
      && (answer == Success <==> c.config.None? && platform != usdc && platform in signers)
      && (answer == Success ==> after == c.(config := Some(Config(platform, usdc))))
      && (answer != Success ==> after == c)
  {
  }

  /** A float of at least the whole order total is always enough, whoever the recipients are. */
  lemma FloatCheckSuffices(ledger: Accounts, platform: Address, total: int, recipients: seq<Recipient>)
    requires total > 0 && Acceptable(recipients)
    requires Balance(ledger, platform) >= total
    ensures var amounts := Amounts(Pool(total), SharesOf(recipients));
      && Needed(platform, recipients, amounts) <= Balance(ledger, platform)
      && (!Listed(platform, recipients) ==> Needed(platform, recipients, amounts) == Pool(total))
  {
    FeeBounds(total);
    SplitBounds(Pool(total), SharesOf(recipients));
    PaidOutIsSum(Amounts(Pool(total), SharesOf(recipients)));
    NeededBounds(platform, recipients, Amounts(Pool(total), SharesOf(recipients)));
  }

  // ------------------------------------------------------------ the history's sums

  function Flow(entry: Entry, platform: Address, a: Address): int {
    match entry
    case RecipientPaid(_, to, amount) => (if to == a then amount else 0) - (if platform == a then amount else 0)
    case SettlementExecuted(_, _, _, _, _) => 0
    case Moved(from, to, amount) => (if to == a then amount else 0) - (if from == a then amount else 0)
  }

  /** The balance change of `a` that the history accounts for. */
  function NetFlow(history: seq<Entry>, platform: Address, a: Address): int {
    if history == [] then 0 else Flow(history[0], platform, a) + NetFlow(history[1..], platform, a)
  }

  function EntryOrder(entry: Entry): Option<OrderId> {
    match entry
    case RecipientPaid(order, _, _) => Some(order)
    case SettlementExecuted(order, _, _, _, _) => Some(order)
    case Moved(_, _, _) => None
  }

  /** The events published for one order. */
  function Of(order: OrderId, history: seq<Entry>): seq<Entry> {
    if history == [] then []
    else (if EntryOrder(history[0]) == Some(order) then [history[0]] else []) + Of(order, history[1..])
  }

  function PaidSum(history: seq<Entry>): int {
    if history == [] then 0
    else (if history[0].RecipientPaid? then history[0].amount else 0) + PaidSum(history[1..])
  }

  function PoolSum(history: seq<Entry>): int {
    if history == [] then 0
    else (if history[0].SettlementExecuted? then history[0].pool else 0) + PoolSum(history[1..])
  }

  lemma {:induction false} Appended(history: seq<Entry>, more: seq<Entry>, platform: Address, a: Address,
                                    order: OrderId)
    ensures NetFlow(history + more, platform, a) == NetFlow(history, platform, a) + NetFlow(more, platform, a)
    ensures Of(order, history + more) == Of(order, history) + Of(order, more)
    ensures PaidSum(history + more) == PaidSum(history) + PaidSum(more)
    ensures PoolSum(history + more) == PoolSum(history) + PoolSum(more)
  {
    if history == [] {
      assert history + more == more;
    } else {
      assert (history + more)[1..] == history[1..] + more;
      Appended(history[1..], more, platform, a, order);
    }
  }

  /** The payment events of one settlement, summed. */
  lemma {:induction false} PaidEntriesSums(order: OrderId, recipients: seq<Recipient>, amounts: seq<int>,
                                           platform: Address, a: Address)
    requires |recipients| == |amounts|
    requires forall i :: 0 <= i < |amounts| ==> amounts[i] >= 0
    ensures var entries := PaidEntries(order, recipients, amounts);
      && NetFlow(entries, platform, a)
         == PaidTo(a, recipients, amounts) - (if a == platform then PaidOut(amounts) else 0)
      && PaidSum(entries) == PaidOut(amounts)
      && PoolSum(entries) == 0
  {
    if recipients != [] {
      assert PaidEntries(order, recipients, amounts)[1..] == PaidEntries(order, recipients[1..], amounts[1..]);
      PaidEntriesSums(order, recipients[1..], amounts[1..], platform, a);
    }
  }

  lemma {:induction false} OwnEntries(order: OrderId, entries: seq<Entry>, other: OrderId)
    requires forall i :: 0 <= i < |entries| ==> EntryOrder(entries[i]) == Some(order)
    ensures Of(other, entries) == if other == order then entries else []
  {
    if entries != [] {
      OwnEntries(order, entries[1..], other);
    }
  }

  /**
   * What one receipt adds up to: its payments sum to the pool of its one summary
   * event, fee plus pool is the total, and all of it belongs to its order.
   */
  lemma ReceiptSums(order: OrderId, total: int, recipients: seq<Recipient>, platform: Address, a: Address,
                    other: OrderId)
    requires total > 0 && Acceptable(recipients)
    ensures var receipt := Receipt(order, total, recipients);
      && PaidSum(receipt) == PoolSum(receipt) == Pool(total)
      && Fee(total) + Pool(total) == total
      && NetFlow(receipt, platform, a)
         == PaidTo(a, recipients, Amounts(Pool(total), SharesOf(recipients)))
            - (if a == platform then Pool(total) else 0)
      && Of(other, receipt) == if other == order then receipt else []
  {
    FeeBounds(total);
    var amounts := Amounts(Pool(total), SharesOf(recipients));
    SplitBounds(Pool(total), SharesOf(recipients));
    PaidOutIsSum(amounts);
    var entries := PaidEntries(order, recipients, amounts);
    var summary := [SettlementExecuted(order, total, Fee(total), Pool(total), |recipients|)];
    PaidEntriesSums(order, recipients, amounts, platform, a);
    Appended(entries, summary, platform, a, other);
    OwnEntries(order, Receipt(order, total, recipients), other);
    assert summary[1..] == [];
  }

  // ------------------------------------------------------------------ whole runs

  /** The calls that can change the chain: the contract's own, and what token holders do. */
  datatype Call =
    | Setup(signers: set<Address>, platform: Address, usdc: Address)
    | Settlement(signers: set<Address>, order: OrderId, total: int, recipients: seq<Recipient>)
    | TokenTransfer(from: Address, to: Address, amount: nat)
    | Trustline(holder: Address, limit: nat)

  function Execute(c: Chain, call: Call): Chain {
    match call
    case Setup(signers, platform, usdc) => Initialize(c, signers, platform, usdc).1
    case Settlement(signers, order, total, recipients) => Settle(c, signers, order, total, recipients).1
    case Trustline(holder, limit) => c.(ledger := Trust(c.ledger, holder, limit))
    case TokenTransfer(from, to, amount) =>
      match Transfer(c.ledger, from, to, amount)
      case None => c
      case Some(ledger) => c.(ledger := ledger, history := c.history + [Moved(from, to, amount)])
  }

  function ExecuteAll(c: Chain, calls: seq<Call>): Chain
    decreases |calls|
  {
    if calls == [] then c else ExecuteAll(Execute(c, calls[0]), calls[1..])
  }

  /** Who pays the recipients; before initialization nothing has been paid. */
  function Payer(c: Chain): Address {
    if c.config.Some? then c.config.value.platform else Address("")
  }

  ghost predicate SettledOnce(history: seq<Entry>, order: OrderId) {
    exists total, recipients ::
      && Of(order, history) == Receipt(order, total, recipients)
      && total > 0 && Acceptable(recipients)
  }

  /** The chain accounts for itself, starting from the balances of `genesis`. */
  ghost predicate Accounted(c: Chain, genesis: Accounts) {
    && WithinLimits(c.ledger)
    && Supply(c.ledger) == Supply(genesis)
    && (forall a :: Balance(c.ledger, a) == Balance(genesis, a) + NetFlow(c.history, Payer(c), a))
    && PaidSum(c.history) == PoolSum(c.history)
    && (forall order :: order in c.markers ==> SettledOnce(c.history, order))
    && (forall order :: order !in c.markers ==> Of(order, c.history) == [])
    && (c.config.None? ==> forall i :: 0 <= i < |c.history| ==> c.history[i].Moved?)
  }

  lemma {:induction false} MovesIgnoreThePayer(history: seq<Entry>, a: Address, p: Address, q: Address)
    requires forall i :: 0 <= i < |history| ==> history[i].Moved?
    ensures NetFlow(history, p, a) == NetFlow(history, q, a)
  {
    if history != [] {
      MovesIgnoreThePayer(history[1..], a, p, q);
    }
  }

  /** A successful settlement gives its order its receipt and leaves every other order's events alone. */
  lemma SettleReceipts(c: Chain, genesis: Accounts, signers: set<Address>, order: OrderId, total: int,
                       recipients: seq<Recipient>)
    requires Accounted(c, genesis)
    requires Settle(c, signers, order, total, recipients).0 == Success
    ensures var after := Settle(c, signers, order, total, recipients).1;
      && total > 0 && Acceptable(recipients)
      && order !in c.markers && after.markers == c.markers + {order} && after.config == c.config
      && Of(order, after.history) == Receipt(order, total, recipients)
      && (forall other :: other != order ==> Of(other, after.history) == Of(other, c.history))
  {
    SettleEffect(c, signers, order, total, recipients);
    var after := Settle(c, signers, order, total, recipients).1;
    var receipt := Receipt(order, total, recipients);
    forall other
      ensures Of(other, after.history) == if other == order then receipt else Of(other, c.history)
    {
      Appended(c.history, receipt, Payer(c), Payer(c), other);
      ReceiptSums(order, total, recipients, Payer(c), Payer(c), other);
      assert [] + receipt == receipt && Of(other, c.history) + [] == Of(other, c.history);
    }
  }

  lemma SettlementAccounted(c: Chain, genesis: Accounts, signers: set<Address>, order: OrderId, total: int,
                            recipients: seq<Recipient>)
    requires Accounted(c, genesis)
    ensures Accounted(Settle(c, signers, order, total, recipients).1, genesis)
  {
    var (outcome, after) := Settle(c, signers, order, total, recipients);
    SettleEffect(c, signers, order, total, recipients);
    if outcome == Success {
      var receipt := Receipt(order, total, recipients);
      forall a ensures Balance(after.ledger, a) == Balance(genesis, a) + NetFlow(after.history, Payer(after), a) {
        Appended(c.history, receipt, Payer(c), a, order);
        ReceiptSums(order, total, recipients, Payer(c), a, order);
      }
      SettleReceipts(c, genesis, signers, order, total, recipients);
      forall other | other in after.markers ensures SettledOnce(after.history, other) {
        if other != order {
          var t, r :| Of(other, c.history) == Receipt(other, t, r) && t > 0 && Acceptable(r);
        }
      }
      Appended(c.history, receipt, Payer(c), Payer(c), order);
      ReceiptSums(order, total, recipients, Payer(c), Payer(c), order);
    }
  }

  /** A transfer outside settlement belongs to no order. */
  lemma MovedEvents(history: seq<Entry>, from: Address, to: Address, amount: nat, order: OrderId)
    ensures var after := history + [Moved(from, to, amount)];
      && Of(order, after) == Of(order, history)
      && PaidSum(after) == PaidSum(history) && PoolSum(after) == PoolSum(history)
      && (SettledOnce(history, order) ==> SettledOnce(after, order))
  {
    var moved := [Moved(from, to, amount)];
    Appended(history, moved, from, from, order);
    assert moved[1..] == [] && Of(order, history) + [] == Of(order, history);
    if SettledOnce(history, order) {
      var t, r :| Of(order, history) == Receipt(order, t, r) && t > 0 && Acceptable(r);
      assert Of(order, history + moved) == Receipt(order, t, r);
    }
  }

  lemma MovedFlow(history: seq<Entry>, from: Address, to: Address, amount: nat, platform: Address, a: Address)
    ensures var moved := Moved(from, to, amount);
      NetFlow(history + [moved], platform, a) == NetFlow(history, platform, a) + Flow(moved, platform, a)
  {
    var moved := [Moved(from, to, amount)];
    Appended(history, moved, platform, a, OrderId(""));
    assert moved[1..] == [];
  }

  lemma PaymentAccounted(c: Chain, genesis: Accounts, from: Address, to: Address, amount: nat)
    requires Accounted(c, genesis)
    ensures Accounted(Execute(c, TokenTransfer(from, to, amount)), genesis)
  {
    if Transfer(c.ledger, from, to, amount).Some? {
      var after := Execute(c, TokenTransfer(from, to, amount));
      TransferSucceeds(c.ledger, from, to, amount);
      TransferEffect(c.ledger, from, to, amount);
      forall a ensures Balance(after.ledger, a) == Balance(genesis, a) + NetFlow(after.history, Payer(after), a) {
        MovedFlow(c.history, from, to, amount, Payer(c), a);
      }
      MovedEvents(c.history, from, to, amount, OrderId(""));
      forall order
        ensures Of(order, after.history) == Of(order, c.history)
        ensures SettledOnce(c.history, order) ==> SettledOnce(after.history, order)
      {
        MovedEvents(c.history, from, to, amount, order);
      }
    }
  }

  lemma ExecuteAccounted(c: Chain, genesis: Accounts, call: Call)
    requires Accounted(c, genesis)
    ensures Accounted(Execute(c, call), genesis)
  {
    match call {
      case Setup(signers, platform, usdc) =>
        var after := Execute(c, call);
        if after != c {
          forall a ensures NetFlow(c.history, Payer(after), a) == NetFlow(c.history, Payer(c), a) {
            MovesIgnoreThePayer(c.history, a, Payer(after), Payer(c));
          }
        }
      case Settlement(signers, order, total, recipients) =>
        SettlementAccounted(c, genesis, signers, order, total, recipients);
      case TokenTransfer(from, to, amount) =>
        PaymentAccounted(c, genesis, from, to, amount);
      case Trustline(holder, limit) =>
        TrustEffect(c.ledger, holder, limit);
    }
  }

  /**
   * Event log as ledger, for every sequence of calls on a fresh deployment: replaying
   * the log from the initial balances gives every current balance, the supply never
   * changes, all payments together are the pools of the executed settlements, and an
   * order with a marker has exactly one receipt while an order without has no event.
   */
  lemma {:induction false} EveryRunAccounted(c: Chain, genesis: Accounts, calls: seq<Call>)
    requires Accounted(c, genesis)
    ensures Accounted(ExecuteAll(c, calls), genesis)
    decreases |calls|
  {
    if calls != [] {
      ExecuteAccounted(c, genesis, calls[0]);
      EveryRunAccounted(Execute(c, calls[0]), genesis, calls[1..]);
    }
  }

  lemma FreshDeploymentAccounted(genesis: Accounts)
    requires WithinLimits(genesis)
    ensures Accounted(Chain(None, {}, genesis, []), genesis)
  {
  }

  // ------------------------------------------------------- configuration and markers

  /** A call that would install the contract, were it not installed. */
  predicate Installs(call: Call) {
    call.Setup? && call.platform != call.usdc && call.platform in call.signers
  }

  predicate IsFirstInstall(calls: seq<Call>, i: nat) {
    i < |calls| && Installs(calls[i]) && forall j :: 0 <= j < i ==> !Installs(calls[j])
  }

  /** Whatever is called, an installed contract keeps its platform and token. */
  lemma {:induction false} ConfigurationStays(c: Chain, calls: seq<Call>)
    requires c.config.Some?
    ensures ExecuteAll(c, calls).config == c.config
    decreases |calls|
  {
    if calls != [] {
      ConfigurationStays(Execute(c, calls[0]), calls[1..]);
    }
  }

  /**
   * The first call that can install the contract fixes its platform and token for good:
   * no call before it does, and none after it changes them.
   */
  lemma {:induction false} FirstInstallWins(c: Chain, calls: seq<Call>)
    requires c.config.None?
    ensures ExecuteAll(c, calls).config.Some? <==> exists i: nat :: IsFirstInstall(calls, i)
    ensures forall i: nat :: IsFirstInstall(calls, i) ==>
              ExecuteAll(c, calls).config == Some(Config(calls[i].platform, calls[i].usdc))
    decreases |calls|
  {
    if calls != [] {
      if Installs(calls[0]) {
        ConfigurationStays(Execute(c, calls[0]), calls[1..]);
        assert IsFirstInstall(calls, 0);
      } else {
        FirstInstallWins(Execute(c, calls[0]), calls[1..]);
        forall i: nat ensures IsFirstInstall(calls, i + 1) <==> IsFirstInstall(calls[1..], i) {
          FirstInstallShifts(calls, i);
        }
        forall i: nat | IsFirstInstall(calls, i) ensures i > 0 && IsFirstInstall(calls[1..], i - 1) {
          FirstInstallShifts(calls, i - 1);
        }
      }
    }
  }

  lemma FirstInstallShifts(calls: seq<Call>, i: nat)
    requires calls != [] && !Installs(calls[0])
    ensures IsFirstInstall(calls, i + 1) <==> IsFirstInstall(calls[1..], i)
  {
    if IsFirstInstall(calls, i + 1) {
      forall j | 0 <= j < i ensures !Installs(calls[1..][j]) {
        assert !Installs(calls[j + 1]);
      }
    }
    if IsFirstInstall(calls[1..], i) {
      forall j | 0 <= j < i + 1 ensures !Installs(calls[j]) {
        assert j > 0 ==> !Installs(calls[1..][j - 1]);
      }
    }
  }

  /** The `i`-th call of the run settles the order. */
  predicate SettlesAt(c: Chain, calls: seq<Call>, i: nat, order: OrderId) {
    && i < |calls| && calls[i].Settlement? && calls[i].order == order
    && Settle(ExecuteAll(c, calls[..i]), calls[i].signers, order, calls[i].total, calls[i].recipients).0 == Success
  }

  lemma {:induction false} ExecuteLast(c: Chain, calls: seq<Call>)
    requires calls != []
    ensures ExecuteAll(c, calls) == Execute(ExecuteAll(c, calls[..|calls| - 1]), calls[|calls| - 1])
    decreases |calls|
  {
    if |calls| > 1 {
      assert calls[1..][..|calls| - 2] == calls[..|calls| - 1][1..];
      ExecuteLast(Execute(c, calls[0]), calls[1..]);
    } else {
      assert calls[1..] == [];
    }
  }

  lemma SettlesEarlier(c: Chain, calls: seq<Call>, i: nat, order: OrderId)
    requires i < |calls| - 1
    ensures SettlesAt(c, calls, i, order) <==> SettlesAt(c, calls[..|calls| - 1], i, order)
  {
    assert calls[..|calls| - 1][..i] == calls[..i];
  }

  /** The marker of an order and its events after the `i`-th call settled it. */
  ghost predicate PaidByCall(c: Chain, calls: seq<Call>, i: nat, order: OrderId, after: Chain) {
    && SettlesAt(c, calls, i, order)
    && order in after.markers
    && Of(order, after.history) == Receipt(order, calls[i].total, calls[i].recipients)
  }

  lemma OtherEventsOnly(c: Chain, genesis: Accounts, call: Call, order: OrderId)
    requires Accounted(c, genesis)
    requires call.Settlement? && call.order == order ==>
               Settle(c, call.signers, order, call.total, call.recipients).0 != Success
    ensures var after := Execute(c, call);
      (order in after.markers <==> order in c.markers) && Of(order, after.history) == Of(order, c.history)
  {
    if call.Settlement? {
      SettleEffect(c, call.signers, call.order, call.total, call.recipients);
      if Settle(c, call.signers, call.order, call.total, call.recipients).0 == Success {
        SettleReceipts(c, genesis, call.signers, call.order, call.total, call.recipients);
      }
    } else if call.TokenTransfer? && Transfer(c.ledger, call.from, call.to, call.amount).Some? {
      MovedEvents(c.history, call.from, call.to, call.amount, order);
    }
  }

  /** At most one call settles the order, and it is what its marker and events come from. */
  ghost predicate MarkedByOne(c: Chain, calls: seq<Call>, order: OrderId) {
    var after := ExecuteAll(c, calls);
    && (order in after.markers <==> exists i: nat :: SettlesAt(c, calls, i, order))
    && (forall i: nat :: SettlesAt(c, calls, i, order) ==> PaidByCall(c, calls, i, order, after))
    && (forall i: nat, j: nat :: SettlesAt(c, calls, i, order) && SettlesAt(c, calls, j, order) ==> i == j)
  }

  /**
   * The life of a marker: an order is marked if and only if a call of the run settled
   * it; that call is the only one; and the order's events are the receipt of its terms.
   */
  lemma {:induction false} MarkedByOneCall(c: Chain, genesis: Accounts, calls: seq<Call>, order: OrderId)
    requires Accounted(c, genesis) && order !in c.markers
    ensures MarkedByOne(c, calls, order)
    decreases |calls|
  {
    if calls != [] {
      var last := |calls| - 1;
      MarkedByOneCall(c, genesis, calls[..last], order);
      EveryRunAccounted(c, genesis, calls[..last]);
      LastCall(c, genesis, calls, order);
      OneMoreCall(c, calls, order);
    }
  }

  /** What one call does to the order's marker and events. */
  ghost predicate CallEffect(c: Chain, calls: seq<Call>, order: OrderId)
    requires calls != []
  {
    var before, after := ExecuteAll(c, calls[..|calls| - 1]), ExecuteAll(c, calls);
    if SettlesAt(c, calls, |calls| - 1, order)
    then order !in before.markers && PaidByCall(c, calls, |calls| - 1, order, after)
    else (order in after.markers <==> order in before.markers) && Of(order, after.history) == Of(order, before.history)
  }

  lemma OneMoreCall(c: Chain, calls: seq<Call>, order: OrderId)
    requires calls != [] && CallEffect(c, calls, order) && MarkedByOne(c, calls[..|calls| - 1], order)
    ensures MarkedByOne(c, calls, order)
  {
    var last := |calls| - 1;
    var earlier, after := calls[..last], ExecuteAll(c, calls);
    forall i: nat | SettlesAt(c, calls, i, order)
      ensures i == last || (SettlesAt(c, earlier, i, order) && order in ExecuteAll(c, earlier).markers)
    {
      if i < last {
        SettlesEarlier(c, calls, i, order);
      }
    }
    forall i: nat | SettlesAt(c, calls, i, order) ensures PaidByCall(c, calls, i, order, after) {
      if i < last {
        assert PaidByCall(c, earlier, i, order, ExecuteAll(c, earlier));
        StillPaid(c, calls, i, order, ExecuteAll(c, earlier), after);
      }
    }
    if order in after.markers && !SettlesAt(c, calls, last, order) {
      var i: nat :| SettlesAt(c, earlier, i, order);
      SettlesEarlier(c, calls, i, order);
    }
  }

  lemma StillPaid(c: Chain, calls: seq<Call>, i: nat, order: OrderId, before: Chain, after: Chain)
    requires SettlesAt(c, calls, i, order) && order in before.markers
    requires Of(order, before.history) == Receipt(order, calls[i].total, calls[i].recipients)
    requires order in after.markers && Of(order, after.history) == Of(order, before.history)
    ensures PaidByCall(c, calls, i, order, after)
  {
  }

  lemma LastCall(c: Chain, genesis: Accounts, calls: seq<Call>, order: OrderId)
    requires calls != [] && Accounted(ExecuteAll(c, calls[..|calls| - 1]), genesis)
    ensures CallEffect(c, calls, order)
  {
    var before, call := ExecuteAll(c, calls[..|calls| - 1]), calls[|calls| - 1];
    ExecuteLast(c, calls);
    if SettlesAt(c, calls, |calls| - 1, order) {
      SettleReceipts(before, genesis, call.signers, order, call.total, call.recipients);
    } else {
      OtherEventsOnly(before, genesis, call, order);
    }
  }

  // ------------------------------------------------------------- the platform's float

  /** What `a` got out of settlements. */
  function ReceivedBy(a: Address, history: seq<Entry>): int {
    if history == [] then 0
    else (if history[0].RecipientPaid? && history[0].address == a then history[0].amount else 0)
         + ReceivedBy(a, history[1..])
  }

  /** What `a` gained in transfers that are not settlements. */
  function OtherFlow(a: Address, history: seq<Entry>): int {
    if history == [] then 0
    else (if history[0].Moved? then Flow(history[0], a, a) else 0) + OtherFlow(a, history[1..])
  }

  lemma {:induction false} PlatformFlow(history: seq<Entry>, platform: Address)
    ensures NetFlow(history, platform, platform)
         == OtherFlow(platform, history) + ReceivedBy(platform, history) - PaidSum(history)
  {
    if history != [] {
      PlatformFlow(history[1..], platform);
    }
  }

  /**
   * Conservation of the float: apart from transfers outside settlement, and from what
   * it pays itself when it is a recipient, the platform has spent exactly the creator
   * pools of the executed settlements.
   */
  lemma PlatformOutflow(c: Chain, genesis: Accounts)
    requires Accounted(c, genesis) && c.config.Some?
    ensures var platform := c.config.value.platform;
      Balance(c.ledger, platform)
      == Balance(genesis, platform) + OtherFlow(platform, c.history)
         + ReceivedBy(platform, c.history) - PoolSum(c.history)
  {
    PlatformFlow(c.history, c.config.value.platform);
  }
}
