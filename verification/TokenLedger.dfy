/** The part of the Token-2022 program that the $GRID contracts rely on: one mint with a supply and
    a single mint authority, and balances that only their owner can spend. */
module TokenLedger {
  import opened Integers
  import opened MapSum

  /** Who signs: a user, or the program-derived vault authority of one of the contracts. */
  datatype Key = User(id: nat) | EmissionAuthority | VestingAuthority(provider: nat) | StakingAuthority

  datatype Account = Wallet(user: nat) | EmissionVault | VestingVault(provider: nat) | StakeVault {
    function Owner(): Key {
      match this
      case Wallet(u) => User(u)
      case EmissionVault => EmissionAuthority
      case VestingVault(p) => VestingAuthority(p)
      case StakeVault => StakingAuthority
    }
  }

  function BalanceIn(balances: map<Account, int>, a: Account): int {
    if a in balances then balances[a] else 0
  }

  /** The accounts of the token program as a value; an account never credited holds nothing. */
  datatype Tokens = Tokens(supply: int, authority: Key, balances: map<Account, int>) {
    function Balance(a: Account): int { BalanceIn(balances, a) }

    /** Supply is the sum of the balances, within u64. */
    ghost predicate Valid() {
      supply == Sum(balances, UNITS) && supply <= U64_MAX && (forall a :: BalanceIn(balances, a) >= 0)
    }

    function MintTo(signer: Key, to: Account, amount: u64): Option<Tokens> {
      if signer != authority || supply + amount > U64_MAX then None
      else Some(this.(supply := supply + amount, balances := balances[to := Balance(to) + amount]))
    }

    function Transfer(signer: Key, from: Account, to: Account, amount: u64): Option<Tokens> {
      if signer != from.Owner() || Balance(from) < amount then None
      else
        var debited := this.(balances := balances[from := Balance(from) - amount]);
        Some(debited.(balances := debited.balances[to := debited.Balance(to) + amount]))
    }

    function Burn(signer: Key, from: Account, amount: u64): Option<Tokens> {
      if signer != from.Owner() || Balance(from) < amount then None
      else Some(this.(supply := supply - amount, balances := balances[from := Balance(from) - amount]))
    }

    function SetAuthority(signer: Key, newAuthority: Key): Option<Tokens> {
      if signer != authority then None else Some(this.(authority := newAuthority))
    }
  }

  ghost const UNITS: (Account, int) -> int := (a, n) => n

  /** No token instruction creates or loses units except the minted and burned amounts, and no
      balance moves without its owner's signature. */
  lemma MintToConserves(t: Tokens, signer: Key, to: Account, amount: u64)
    requires t.Valid() && t.MintTo(signer, to, amount).Some?
    ensures var t' := t.MintTo(signer, to, amount).value;
            t'.Valid() && t'.supply == t.supply + amount && t'.authority == t.authority
            && t'.Balance(to) == t.Balance(to) + amount
            && (forall a :: a != to ==> t'.Balance(a) == t.Balance(a))
  {
    SetBalance(t.balances, to, t.Balance(to) + amount);
    var t' := t.MintTo(signer, to, amount).value;
    assert t'.balances == t.balances[to := t.Balance(to) + amount];
    forall b ensures BalanceIn(t'.balances, b) >= 0 { assert BalanceIn(t.balances, b) >= 0; }
  }

  lemma SetBalance(m: map<Account, int>, a: Account, n: int)
    ensures Sum(m[a := n], UNITS) == Sum(m, UNITS) - BalanceIn(m, a) + n
    ensures forall b :: BalanceIn(m[a := n], b) == if b == a then n else BalanceIn(m, b)
  {
    SumPut(m, UNITS, a, n);
  }

  lemma TransferConserves(t: Tokens, signer: Key, from: Account, to: Account, amount: u64)
    requires t.Valid() && t.Transfer(signer, from, to, amount).Some?
    ensures var t' := t.Transfer(signer, from, to, amount).value;
            t'.Valid() && t'.supply == t.supply && t'.authority == t.authority && signer == from.Owner()
            && (forall a :: t'.Balance(a) ==
                  t.Balance(a) - (if a == from then amount else 0) + (if a == to then amount else 0))
  {
    var debited := t.balances[from := t.Balance(from) - amount];
    SetBalance(t.balances, from, t.Balance(from) - amount);
    SetBalance(debited, to, BalanceIn(debited, to) + amount);
    var t' := t.Transfer(signer, from, to, amount).value;
    assert t'.balances == debited[to := BalanceIn(debited, to) + amount];
    forall b
      ensures BalanceIn(t'.balances, b) ==
              BalanceIn(t.balances, b) - (if b == from then amount else 0) + (if b == to then amount else 0)
      ensures BalanceIn(t'.balances, b) >= 0
    {
      assert BalanceIn(t.balances, b) >= 0;
    }
  }

  lemma BurnConserves(t: Tokens, signer: Key, from: Account, amount: u64)
    requires t.Valid() && t.Burn(signer, from, amount).Some?
    ensures var t' := t.Burn(signer, from, amount).value;
            t'.Valid() && t'.supply == t.supply - amount && t'.authority == t.authority && signer == from.Owner()
            && (forall a :: t'.Balance(a) == t.Balance(a) - (if a == from then amount else 0))
  {
    SetBalance(t.balances, from, t.Balance(from) - amount);
    var t' := t.Burn(signer, from, amount).value;
    assert t'.balances == t.balances[from := t.Balance(from) - amount];
    forall b ensures BalanceIn(t'.balances, b) >= 0 { assert BalanceIn(t.balances, b) >= 0; }
  }

  /** `amount` went from one account to another, and nothing else happened. */
  ghost predicate Moved(t: Tokens, t': Tokens, from: Account, to: Account, amount: int) {
    && t'.supply == t.supply && t'.authority == t.authority
    && forall a :: t'.Balance(a) ==
         t.Balance(a) - (if a == from then amount else 0) + (if a == to then amount else 0)
  }

  /** `amount` was minted to an account, and nothing else happened. */
  ghost predicate Credited(t: Tokens, t': Tokens, to: Account, amount: int) {
    && t'.supply == t.supply + amount && t'.authority == t.authority
    && forall a :: t'.Balance(a) == t.Balance(a) + if a == to then amount else 0
  }

  lemma BalanceWithinSupply(t: Tokens, a: Account)
    requires t.Valid()
    ensures 0 <= t.Balance(a) <= t.supply
  {
    forall b | b in t.balances ensures t.balances[b] >= 0 { assert BalanceIn(t.balances, b) >= 0; }
    SumBounds(t.balances, UNITS);
  }

  /** The token accounts as the contracts see them: shared and updated in place. */
  class Ledger {
    var supply: int
    var authority: Key
    var balances: map<Account, int>

    function View(): Tokens
      reads this
    {
      Tokens(supply, authority, balances)
    }

    constructor (authority: Key)
      ensures View() == Tokens(0, authority, map[]) && View().Valid()
    {
      this.supply, this.authority, this.balances := 0, authority, map[];
    }

    method MintTo(signer: Key, to: Account, amount: u64) returns (ok: bool)
      modifies this
      ensures ok <==> old(View()).MintTo(signer, to, amount).Some?
      ensures View() == if ok then old(View()).MintTo(signer, to, amount).value else old(View())
    {
      if signer != authority || supply + amount > U64_MAX { return false; }
      supply := supply + amount;
      balances := balances[to := View().Balance(to) + amount];
      ok := true;
    }

    method Transfer(signer: Key, from: Account, to: Account, amount: u64) returns (ok: bool)
      modifies this
      ensures ok <==> old(View()).Transfer(signer, from, to, amount).Some?
      ensures View() == if ok then old(View()).Transfer(signer, from, to, amount).value else old(View())
    {
      if signer != from.Owner() || View().Balance(from) < amount { return false; }
      balances := balances[from := View().Balance(from) - amount];
      balances := balances[to := View().Balance(to) + amount];
      ok := true;
    }

    method Burn(signer: Key, from: Account, amount: u64) returns (ok: bool)
      modifies this
      ensures ok <==> old(View()).Burn(signer, from, amount).Some?
      ensures View() == if ok then old(View()).Burn(signer, from, amount).value else old(View())
    {
      if signer != from.Owner() || View().Balance(from) < amount { return false; }
      supply := supply - amount;
      balances := balances[from := View().Balance(from) - amount];
      ok := true;
    }

    method SetAuthority(signer: Key, newAuthority: Key) returns (ok: bool)
      modifies this
      ensures ok <==> old(View()).SetAuthority(signer, newAuthority).Some?
      ensures View() == if ok then old(View()).SetAuthority(signer, newAuthority).value else old(View())
    {
      if signer != authority { return false; }
      authority := newAuthority;
      ok := true;
    }

    /** The runtime discards the account writes of an instruction that fails after a CPI. */
    method Revert(before: Tokens)
      modifies this
      ensures View() == before
    {
      supply, authority, balances := before.supply, before.authority, before.balances;
    }
  }
}
