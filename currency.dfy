/**
 * A stand-in for `T::Currency`: a map of free balances, absent accounts
 * holding 0. Whether the ledger accepts a `KeepAlive` transfer is decided
 * by the balances pallet, which is not part of this model; callers pass
 * that verdict in.
 */
module Currency {
  import opened KittyTypes

  /** `T::Currency::free_balance(who)`. */
  function FreeBalance(balances: map<AccountId, Balance>, who: AccountId): (b: Balance)
    ensures who !in balances ==> b == 0
  {
    if who in balances then balances[who] else 0
  }

  /** An accepted `T::Currency::transfer(from, to, amount, KeepAlive)`. */
  function Transfer(balances: map<AccountId, Balance>, from: AccountId, to: AccountId, amount: Balance): (b: map<AccountId, Balance>)
    requires FreeBalance(balances, from) >= amount
    ensures from != to ==> FreeBalance(b, from) == FreeBalance(balances, from) - amount
    ensures from != to ==> FreeBalance(b, to) == FreeBalance(balances, to) + amount
    ensures from == to ==> FreeBalance(b, from) == FreeBalance(balances, from)
    ensures forall a :: a != from && a != to ==> FreeBalance(b, a) == FreeBalance(balances, a)
  {
    var debited := balances[from := FreeBalance(balances, from) - amount];
    debited[to := FreeBalance(debited, to) + amount]
  }
}
