/**
 * The revenue-split contract as functions on values: what each entry point does
 * to the contract's storage, to the token ledger and to the published history.
 */
module Contract {
  import opened Types
  import opened Split
  import opened Ledger

  datatype ContractError =
    | AlreadyInitialized
    | InvalidConfiguration
    | NotInitialized
    | OrderAlreadySettled
    | InvalidTotalAmount
    | EmptyRecipients
    | TooManyRecipients
    | DuplicateRecipient
    | ZeroAllocation
    | InvalidAllocationSum
    | ArithmeticOverflow

  /** `Trap` is a host-level abort: missing authorization, a panic, a failed transfer. */
  datatype Outcome = Success | Failure(error: ContractError) | Trap

  datatype Verdict = Valid | Invalid(error: ContractError)

  datatype Config = Config(platform: Address, usdc: Address)

  /** What the ledger's history shows: the contract's events, and transfers by others. */
  datatype Entry =
    | RecipientPaid(order: OrderId, address: Address, amount: int)
    | SettlementExecuted(order: OrderId, total: int, fee: int, pool: int, count: nat)
    | Moved(from: Address, to: Address, amount: int)

  datatype Chain = Chain(config: Option<Config>, markers: set<OrderId>, ledger: Accounts, history: seq<Entry>)

  // ------------------------------------------------------------------ validation

  predicate Listed(a: Address, recipients: seq<Recipient>) {
    exists i :: 0 <= i < |recipients| && recipients[i].address == a
  }

  ghost predicate Distinct(recipients: seq<Recipient>) {
    forall i, j :: 0 <= i < j < |recipients| ==> recipients[i].address != recipients[j].address
  }

  /** The pass over the recipients still to be checked, `sum` already allocated. */
  function ValidateFrom(recipients: seq<Recipient>, sum: int): Verdict {
    if recipients == [] then
      if sum != BPS then Invalid(InvalidAllocationSum) else Valid
    else if recipients[0].shareBps <= 0 then Invalid(ZeroAllocation)
    else if !IsI128(sum + recipients[0].shareBps) then Invalid(ArithmeticOverflow)
    else if Listed(recipients[0].address, recipients[1..]) then Invalid(DuplicateRecipient)
    else ValidateFrom(recipients[1..], sum + recipients[0].shareBps)
  }

  function Validate(recipients: seq<Recipient>): Verdict {
    if |recipients| == 0 then Invalid(EmptyRecipients)
    else if |recipients| > MAX_RECIPIENTS then Invalid(TooManyRecipients)
    else ValidateFrom(recipients, 0)
  }

  /** The lists the contract accepts, without the order of its checks. */
  ghost predicate Acceptable(recipients: seq<Recipient>) {
    && |recipients| <= MAX_RECIPIENTS
    && Distinct(recipients)
    && Whole(SharesOf(recipients))
  }

  // ----------------------------------------------------------------- calculation

  /** `AmountsFrom` in checked 128-bit arithmetic; `None` is the overflow panic. */
  function CheckedAmounts(pool: int, shares: seq<int>, distributed: int): (result: Option<seq<int>>)
    ensures result.Some? ==> |result.value| == |shares|
  {
    if shares == [] then Some([])
    else if |shares| == 1 then
      if IsI128(pool - distributed) then Some([pool - distributed]) else None
    else if !IsI128(pool * shares[0]) then None
    else
      var amount := Quot(pool * shares[0], BPS);
      if !IsI128(distributed + amount) then None
      else
        Prepend([amount], CheckedAmounts(pool, shares[1..], distributed + amount))
  }

  function Prepend(done: seq<int>, rest: Option<seq<int>>): Option<seq<int>> {
    match rest
    case None => None
    case Some(amounts) => Some(done + amounts)
  }

  // ---------------------------------------------------------------------- payout

  /** The transfer loop: zero amounts are skipped, the first failing transfer aborts. */
  function PayAll(ledger: Accounts, platform: Address, recipients: seq<Recipient>, amounts: seq<int>): Option<Accounts>
    requires |recipients| == |amounts|
  {
    if recipients == [] then Some(ledger)
    else if amounts[0] > 0 then
      match Transfer(ledger, platform, recipients[0].address, amounts[0])
      case None => None
      case Some(paid) => PayAll(paid, platform, recipients[1..], amounts[1..])
    else PayAll(ledger, platform, recipients[1..], amounts[1..])
  }

  function PaidEntries(order: OrderId, recipients: seq<Recipient>, amounts: seq<int>): (entries: seq<Entry>)
    requires |recipients| == |amounts|
    ensures |entries| == |recipients|
  {
    seq(|recipients|, i requires 0 <= i < |recipients| => RecipientPaid(order, recipients[i].address, amounts[i]))
  }

  /** Everything a successful settlement of these terms publishes. */
  function Receipt(order: OrderId, total: int, recipients: seq<Recipient>): seq<Entry> {
    PaidEntries(order, recipients, Amounts(Pool(total), SharesOf(recipients)))
    + [SettlementExecuted(order, total, Fee(total), Pool(total), |recipients|)]
  }

  // ---------------------------------------------------------------- entry points

  function Initialize(c: Chain, signers: set<Address>, platform: Address, usdc: Address): (Outcome, Chain) {
    if c.config.Some? then (Failure(AlreadyInitialized), c)
    else if platform == usdc then (Failure(InvalidConfiguration), c)
    else if platform !in signers then (Trap, c)
    else (Success, c.(config := Some(Config(platform, usdc))))
  }

  /** `settle` with its checks in the contract's order; a failed call changes nothing. */
  function Settle(c: Chain, signers: set<Address>, order: OrderId, total: int, recipients: seq<Recipient>)
    : (Outcome, Chain)
  {
    if c.config.None? then (Failure(NotInitialized), c)
    else if c.config.value.platform !in signers then (Trap, c)
    else if order in c.markers then (Failure(OrderAlreadySettled), c)
    else if total <= 0 then (Failure(InvalidTotalAmount), c)
    else
      match Validate(recipients)
      case Invalid(error) => (Failure(error), c)
      case Valid =>
        if !IsI128(total * FEE_BPS) then (Failure(ArithmeticOverflow), c)
        else
          var fee := Quot(total * FEE_BPS, BPS);
          if !IsI128(total - fee) then (Failure(ArithmeticOverflow), c)
          else
            match CheckedAmounts(total - fee, SharesOf(recipients), 0)
            case None => (Trap, c)
            case Some(amounts) =>
              match PayAll(c.ledger, c.config.value.platform, recipients, amounts)
              case None => (Trap, c)
              case Some(paid) =>
                (Success,
                 c.(ledger := paid,
                    markers := c.markers + {order},
                    history := c.history + PaidEntries(order, recipients, amounts)
                               + [SettlementExecuted(order, total, fee, total - fee, |recipients|)]))
  }
}
