/** One point mint: its supply and the balances by owner. */
module PointLedger {
  import opened Base
  import opened MapSum

  datatype Ledger = Ledger(supply: u64, balances: map<Pubkey, u64>)

  function BalanceIn(balances: map<Pubkey, u64>, owner: Pubkey): u64 {
    if owner in balances then balances[owner] else 0
  }

  /** The owner's account is opened if need be. */
  function MintTokens(l: Ledger, owner: Pubkey, amount: u64): Option<Ledger> {
    if l.supply + amount > U64_MAX || BalanceIn(l.balances, owner) + amount > U64_MAX then None
    else Some(Ledger(l.supply + amount, l.balances[owner := BalanceIn(l.balances, owner) + amount]))
  }

  function BurnTokens(l: Ledger, owner: Pubkey, amount: u64): Option<Ledger> {
    if owner !in l.balances || l.balances[owner] < amount || l.supply < amount then None
    else Some(Ledger(l.supply - amount, l.balances[owner := l.balances[owner] - amount]))
  }

  function Transfer(l: Ledger, source: Pubkey, target: Pubkey, amount: u64): Option<Ledger> {
    if source !in l.balances || l.balances[source] < amount then None
    else
      var debited := l.balances[source := l.balances[source] - amount];
      if BalanceIn(debited, target) + amount > U64_MAX then None
      else Some(l.(balances := debited[target := BalanceIn(debited, target) + amount]))
  }

  // ------------------------------------------------------------------ conservation

  ghost function Held(balances: map<Pubkey, u64>): map<Pubkey, nat> {
    map c | c in balances :: balances[c]
  }

  /** The balances add up to the supply. */
  ghost predicate Balanced(l: Ledger) {
    Sum(Held(l.balances)) == l.supply
  }

  lemma HeldUpdate(balances: map<Pubkey, u64>, c: Pubkey, b: u64)
    ensures Sum(Held(balances[c := b])) == Sum(Held(balances)) - BalanceIn(balances, c) + b
  {
    assert Held(balances[c := b]) == Held(balances)[c := b];
    SumUpdate(Held(balances), c, b);
  }

  lemma EmptyIsBalanced()
    ensures Sum(Held(map[])) == 0
  {
    assert Held(map[]) == map[];
  }

  lemma MintAdds(l: Ledger, owner: Pubkey, amount: u64)
    requires MintTokens(l, owner, amount).Some?
    ensures var l' := MintTokens(l, owner, amount).value;
      l'.supply == l.supply + amount && Sum(Held(l'.balances)) == Sum(Held(l.balances)) + amount
  {
    HeldUpdate(l.balances, owner, BalanceIn(l.balances, owner) + amount);
  }

  lemma BurnTakes(l: Ledger, owner: Pubkey, amount: u64)
    requires BurnTokens(l, owner, amount).Some?
    ensures var l' := BurnTokens(l, owner, amount).value;
      l'.supply == l.supply - amount && Sum(Held(l'.balances)) == Sum(Held(l.balances)) - amount
  {
    HeldUpdate(l.balances, owner, l.balances[owner] - amount);
  }

  lemma TransferKeeps(l: Ledger, source: Pubkey, target: Pubkey, amount: u64)
    requires Transfer(l, source, target, amount).Some?
    ensures var l' := Transfer(l, source, target, amount).value;
      l'.supply == l.supply && Sum(Held(l'.balances)) == Sum(Held(l.balances))
  {
    var debited := l.balances[source := l.balances[source] - amount];
    HeldUpdate(l.balances, source, l.balances[source] - amount);
    HeldUpdate(debited, target, BalanceIn(debited, target) + amount);
  }
}
