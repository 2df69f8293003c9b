/** The contract as it is written: storage, loops over the recipients, and the host's rollback. */
module OnChain {
  import opened Types
  import opened Split
  import opened Ledger
  import opened Contract
  import opened SettlementLaws

  lemma PrependNothing(rest: Option<seq<int>>)
    ensures Prepend([], rest) == rest
  {
    if rest.Some? {
      assert [] + rest.value == rest.value;
    }
  }

  /** One turn of the calculation loop, seen from what is still to be computed. */
  lemma CheckedStep(pool: int, shares: seq<int>, i: nat, distributed: int, amounts: seq<int>)
    requires i < |shares|
    ensures var product := pool * shares[i]; var amount := Quot(product, BPS);
      Prepend(amounts, CheckedAmounts(pool, shares[i..], distributed))
      == if i == |shares| - 1 then
           if IsI128(pool - distributed)
           then Prepend(amounts + [pool - distributed], CheckedAmounts(pool, shares[i + 1..], distributed)) else None
         else if IsI128(product) && IsI128(distributed + amount)
         then Prepend(amounts + [amount], CheckedAmounts(pool, shares[i + 1..], distributed + amount)) else None
  {
    var rest := shares[i..];
    assert rest[1..] == shares[i + 1..] && rest[0] == shares[i];
    var here := CheckedAmounts(pool, rest, distributed);
    if i < |shares| - 1 {
      var amount := Quot(pool * shares[i], BPS);
      var next := CheckedAmounts(pool, rest[1..], distributed + amount);
      if here.Some? {
        assert amounts + here.value == amounts + [amount] + next.value;
      }
    } else if here.Some? {
      assert amounts + here.value == amounts + [pool - distributed] + [];
    }
  }

  /** The contract instance: its storage, the token it pays with and the published history. */
  class SettlementContract {
    var config: Option<Config>
    var markers: set<OrderId>
    var ledger: Accounts
    var history: seq<Entry>

    constructor (accounts: Accounts)
      ensures State() == Chain(None, {}, accounts, [])
    {
      config, markers, ledger, history := None, {}, accounts, [];
    }

    function State(): Chain
      reads this
    {
      Chain(config, markers, ledger, history)
    }

    method Initialize(signers: set<Address>, platform: Address, usdc: Address) returns (outcome: Outcome)
      modifies this`config
      ensures (outcome, State()) == Contract.Initialize(old(State()), signers, platform, usdc)
    {
      if config.Some? {
        return Failure(AlreadyInitialized);
      }
      if platform == usdc {
        return Failure(InvalidConfiguration);
      }
      if platform !in signers {
        return Trap;
      }
      config := Some(Config(platform, usdc));
      outcome := Success;
    }

    /** Whether exactly one settlement was published for the order: otherwise none ever was. */
    method IsSettled(order: OrderId) returns (settled: bool)
      ensures settled == (order in State().markers)
      ensures forall genesis :: Accounted(State(), genesis) ==>
                if settled then SettledOnce(State().history, order) else Of(order, State().history) == []
    {
      settled := order in markers;
    }

    static method ValidateRecipients(recipients: seq<Recipient>) returns (verdict: Verdict)
      ensures verdict == Validate(recipients)
    {
      var count := |recipients|;
      if count == 0 {
        return Invalid(EmptyRecipients);
      }
      if count > MAX_RECIPIENTS {
        return Invalid(TooManyRecipients);
      }
      var sum := 0;
      for i := 0 to count
        invariant Validate(recipients) == ValidateFrom(recipients[i..], sum)
      {
        var recipient := recipients[i];
        assert recipients[i..][1..] == recipients[i + 1..];
        if recipient.shareBps <= 0 {
          return Invalid(ZeroAllocation);
        }
        if !IsI128(sum + recipient.shareBps) {
          return Invalid(ArithmeticOverflow);
        }
        for j := i + 1 to count
          invariant forall k :: i < k < j ==> recipients[k].address != recipient.address
        {
          if recipient.address == recipients[j].address {
            assert recipients[i + 1..][j - i - 1] == recipients[j];
            return Invalid(DuplicateRecipient);
          }
        }
        assert !Listed(recipient.address, recipients[i + 1..]);
        sum := sum + recipient.shareBps;
      }
      verdict := if sum != BPS then Invalid(InvalidAllocationSum) else Valid;
    }

    /** `None` when a checked operation overflows and the contract panics. */
    static method CalculateCreatorAmounts(recipients: seq<Recipient>, pool: int) returns (result: Option<seq<int>>)
      ensures result == CheckedAmounts(pool, SharesOf(recipients), 0)
    {
      var count := |recipients|;
      ghost var shares := SharesOf(recipients);
      var amounts, distributed := [], 0;
      PrependNothing(CheckedAmounts(pool, shares, 0));
      for i := 0 to count
        invariant CheckedAmounts(pool, shares, 0) == Prepend(amounts, CheckedAmounts(pool, shares[i..], distributed))
      {
        CheckedStep(pool, shares, i, distributed, amounts);
        var amount;
        if i == count - 1 {
          if !IsI128(pool - distributed) {
            return None;
          }
          amount := pool - distributed;
        } else {
          if !IsI128(pool * recipients[i].shareBps) {
            return None;
          }
          amount := Quot(pool * recipients[i].shareBps, BPS);
          if !IsI128(distributed + amount) {
            return None;
          }
          distributed := distributed + amount;
        }
        amounts := amounts + [amount];
      }
      assert amounts + [] == amounts;
      result := Some(amounts);
    }

    /** The call as the host runs it: a failed body is rolled back. */
    method Settle(signers: set<Address>, order: OrderId, total: int, recipients: seq<Recipient>)
      returns (outcome: Outcome)
      modifies this`markers, this`ledger, this`history
      ensures (outcome, State()) == Contract.Settle(old(State()), signers, order, total, recipients)
    {
      var savedMarkers, savedLedger, savedHistory := markers, ledger, history;
      outcome := SettleBody(signers, order, total, recipients);
      if outcome != Success {
        markers, ledger, history := savedMarkers, savedLedger, savedHistory;
      }
    }

    /** The contract code: a failing transfer leaves the transfers before it in place. */
    method SettleBody(signers: set<Address>, order: OrderId, total: int, recipients: seq<Recipient>)
      returns (outcome: Outcome)
      modifies this`markers, this`ledger, this`history
      ensures outcome == Contract.Settle(old(State()), signers, order, total, recipients).0
      ensures outcome == Success ==> State() == Contract.Settle(old(State()), signers, order, total, recipients).1
    {
      if config.None? {
        return Failure(NotInitialized);
      }
      var platform := config.value.platform;
      if platform !in signers {
        return Trap;
      }
      if order in markers {
        return Failure(OrderAlreadySettled);
      }
      if total <= 0 {
        return Failure(InvalidTotalAmount);
      }
      var verdict := ValidateRecipients(recipients);
      if verdict.Invalid? {
        return Failure(verdict.error);
      }
      if !IsI128(total * FEE_BPS) {
        return Failure(ArithmeticOverflow);
      }
      var fee := Quot(total * FEE_BPS, BPS);
      if !IsI128(total - fee) {
        return Failure(ArithmeticOverflow);
      }
      var pool := total - fee;
      var calculated := CalculateCreatorAmounts(recipients, pool);
      if calculated.None? {
        return Trap;
      }
      var amounts := calculated.value;
      var count := |recipients|;
      ghost var all := PaidEntries(order, recipients, amounts);
      for i := 0 to count
        invariant PayAll(old(ledger), platform, recipients, amounts)
               == PayAll(ledger, platform, recipients[i..], amounts[i..])
        invariant history == old(history) + all[..i]
        invariant markers == old(markers)
      {
        assert recipients[i..][1..] == recipients[i + 1..] && amounts[i..][1..] == amounts[i + 1..];
        if amounts[i] > 0 {
          var paid := Transfer(ledger, platform, recipients[i].address, amounts[i]);
          if paid.None? {
            return Trap;
          }
          ledger := paid.value;
        }
        history := history + [RecipientPaid(order, recipients[i].address, amounts[i])];
      }
      assert all[..count] == all;
      markers := markers + {order};
      history := history + [SettlementExecuted(order, total, fee, pool, count)];
      outcome := Success;
    }
  }
}
