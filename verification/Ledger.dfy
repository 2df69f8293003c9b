/**
 * The USDC token ledger behind the contract: SEP-41 `transfer` over accounts that
 * need a trustline, with the trustline's limit, to hold the asset.
 */
module Ledger {
  import opened Types

  datatype Account = Account(balance: nat, limit: nat)

  /** An address is a key exactly when it has a trustline. */
  type Accounts = map<Address, Account>

  ghost predicate WithinLimits(ledger: Accounts) {
    forall a :: a in ledger ==> ledger[a].balance <= ledger[a].limit
  }

  function Balance(ledger: Accounts, a: Address): nat {
    if a in ledger then ledger[a].balance else 0
  }

  /** Section "Specification" of SEP-41: a transfer moves the whole amount or fails. */
  function Transfer(ledger: Accounts, from: Address, to: Address, amount: int): Option<Accounts> {
    if amount < 0 || from !in ledger || ledger[from].balance < amount then None
    else
      var debited := ledger[from := ledger[from].(balance := ledger[from].balance - amount)];
      if to !in debited || debited[to].balance + amount > debited[to].limit then None
      else Some(debited[to := debited[to].(balance := debited[to].balance + amount)])
  }

  /** A new trustline, or a new limit that still covers the balance. */
  function Trust(ledger: Accounts, a: Address, limit: nat): Accounts {
    if a !in ledger then ledger[a := Account(0, limit)]
    else if ledger[a].balance <= limit then ledger[a := ledger[a].(limit := limit)]
    else ledger
  }

  // ---------------------------------------------------------------------- supply

  ghost function Supply(ledger: Accounts): nat
    decreases ledger.Keys
  {
    if ledger == map[] then 0
    else
      var a :| a in ledger;
      ledger[a].balance + Supply(ledger - {a})
  }

  lemma {:induction false} SupplyPick(ledger: Accounts, a: Address)
    requires a in ledger
    ensures Supply(ledger) == ledger[a].balance + Supply(ledger - {a})
    decreases ledger.Keys
  {
    var b :| b in ledger && Supply(ledger) == ledger[b].balance + Supply(ledger - {b});
    if a != b {
      SupplyPick(ledger - {b}, a);
      SupplyPick(ledger - {a}, b);
      assert ledger - {b} - {a} == ledger - {a} - {b};
    }
  }

  lemma SupplyUpdate(ledger: Accounts, a: Address, account: Account)
    ensures Supply(ledger[a := account]) == Supply(ledger) - Balance(ledger, a) + account.balance
  {
    var updated := ledger[a := account];
    SupplyPick(updated, a);
    assert updated - {a} == ledger - {a};
    if a in ledger {
      SupplyPick(ledger, a);
    } else {
      assert ledger - {a} == ledger;
    }
  }

  /** A transfer succeeds exactly when the payer holds the amount and the payee can take it. */
  lemma TransferSucceeds(ledger: Accounts, from: Address, to: Address, amount: int)
    requires WithinLimits(ledger)
    ensures Transfer(ledger, from, to, amount).Some? <==>
              && 0 <= amount
              && from in ledger && ledger[from].balance >= amount
              && to in ledger && (to == from || ledger[to].balance + amount <= ledger[to].limit)
  {
  }

  /** It moves the amount, touches nobody else, and keeps the limits and the supply. */
  lemma TransferEffect(ledger: Accounts, from: Address, to: Address, amount: int)
    requires WithinLimits(ledger)
    requires Transfer(ledger, from, to, amount).Some?
    ensures var after := Transfer(ledger, from, to, amount).value;
      && after.Keys == ledger.Keys
      && WithinLimits(after)
      && Supply(after) == Supply(ledger)
      && (forall a :: a in ledger ==>
            && after[a].limit == ledger[a].limit
            && after[a].balance
               == ledger[a].balance + (if a == to then amount else 0) - (if a == from then amount else 0))
  {
    var debited := ledger[from := ledger[from].(balance := ledger[from].balance - amount)];
    var after := debited[to := debited[to].(balance := debited[to].balance + amount)];
    SupplyUpdate(ledger, from, debited[from]);
    SupplyUpdate(debited, to, after[to]);
    assert after.Keys == ledger.Keys;
  }

  /** A trustline sets its holder's limit, unless the balance is above it, and nothing else. */
  lemma TrustEffect(ledger: Accounts, a: Address, limit: nat)
    requires WithinLimits(ledger)
    ensures Balance(ledger, a) <= limit ==> Trust(ledger, a, limit) == ledger[a := Account(Balance(ledger, a), limit)]
    ensures Balance(ledger, a) > limit ==> Trust(ledger, a, limit) == ledger
    ensures WithinLimits(Trust(ledger, a, limit))
    ensures forall b :: Balance(Trust(ledger, a, limit), b) == Balance(ledger, b)
    ensures Supply(Trust(ledger, a, limit)) == Supply(ledger)
  {
    SupplyUpdate(ledger, a, Account(Balance(ledger, a), limit));
  }
}
