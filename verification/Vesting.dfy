/** contracts/programs/vesting/src/lib.rs: one provider's deposits, withdrawals and early unlocks. */
module Vesting {
  import opened Integers
  import opened TokenLedger
  import opened VestingSchedule

  datatype Error =
    | Unauthorized | AccountMissing | Overflow | NothingToWithdraw | NothingToEarlyUnlock
    | EarlyUnlockOnCooldown | CannotDowngradeTier | TokenError

  datatype Deposit = Deposit(amount: u64, withdrawn: int, depositedAt: Time, tier: Tier) {
    function VestedAt(now: int): int { Vested(amount, now - depositedAt, tier) }
    function LockedAt(now: int): int { amount - VestedAt(now) }
  }

  /** Half of the locked part is burned, rounded down. */
  function Penalty(locked: int): int { AsU64(locked * 5_000 / 10_000) }

  /** `ProviderVesting` and its `VestingDeposit` accounts: deposit ids are consecutive from 1. */
  datatype Provider = Provider(
    id: nat, tier: Tier, deposits: seq<Deposit>,
    totalDeposited: int, totalWithdrawn: int, totalBurned: int, lastEarlyUnlock: int)
  {
    function Vault(): Account { VestingVault(id) }
    function Authority(): Key { VestingAuthority(id) }
  }

  function UpgradeTier(v: Provider, signer: Key, next: Tier): Result<Provider, Error> {
    if signer != User(v.id) then Err(Unauthorized)
    else if !LocksAtLeast(next, v.tier) then Err(CannotDowngradeTier)
    else Ok(v.(tier := next))
  }

  function RecordDeposit(v: Provider, now: Time, amount: u64): Result<Provider, Error> {
    if |v.deposits| + 1 > U64_MAX || v.totalDeposited + amount > U64_MAX then Err(Overflow)
    else Ok(v.(deposits := v.deposits + [Deposit(amount, 0, now, v.tier)], totalDeposited := v.totalDeposited + amount))
  }

  function WithdrawUnlocked(v: Provider, t: Tokens, signer: Key, depositId: u64, now: Time, to: Account)
    : Result<(Provider, Tokens), Error>
  {
    if signer != User(v.id) then Err(Unauthorized)
    else if !(1 <= depositId <= |v.deposits|) then Err(AccountMissing)
    else
      var d := v.deposits[depositId - 1];
      var claimable := d.VestedAt(now) - d.withdrawn;
      if claimable < 0 then Err(Overflow)
      else if claimable == 0 then Err(NothingToWithdraw)
      else match Pay(v, t, to, claimable)
           case None => Err(TokenError)
           case Some(t') =>
             if v.totalWithdrawn + claimable > U64_MAX then Err(Overflow)
             else Ok((v.(deposits := v.deposits[depositId - 1 := d.(withdrawn := d.VestedAt(now))],
                         totalWithdrawn := v.totalWithdrawn + claimable), t'))
  }

  function Pay(v: Provider, t: Tokens, to: Account, amount: int): Option<Tokens> {
    if 0 <= amount <= U64_MAX then t.Transfer(v.Authority(), v.Vault(), to, amount) else None
  }

  function Destroy(v: Provider, t: Tokens, amount: int): Option<Tokens> {
    if 0 <= amount <= U64_MAX then t.Burn(v.Authority(), v.Vault(), amount) else None
  }

  /** Burn the penalty, then pay the rest; a zero part is skipped. */
  function Settle(v: Provider, t: Tokens, to: Account, penalty: int, payout: int): Option<Tokens> {
    var burned := if penalty > 0 then Destroy(v, t, penalty) else Some(t);
    if burned.None? then None else if payout > 0 then Pay(v, burned.value, to, payout) else burned
  }

  lemma PenaltyIsHalf(locked: u64)
    ensures Penalty(locked) == locked / 2
  {}

  /** The checks of `early_unlock`: the part of the deposit still locked, if it may be taken. */
  function LockedFor(v: Provider, signer: Key, depositId: u64, now: Time): Result<int, Error> {
    if signer != User(v.id) then Err(Unauthorized)
    else if !(1 <= depositId <= |v.deposits|) then Err(AccountMissing)
    else if now - v.lastEarlyUnlock < EARLY_UNLOCK_COOLDOWN_SECS then Err(EarlyUnlockOnCooldown)
    else
      var locked := v.deposits[depositId - 1].LockedAt(now);
      if locked < 0 then Err(Overflow) else if locked == 0 then Err(NothingToEarlyUnlock) else Ok(locked)
  }

  function EarlyUnlock(v: Provider, t: Tokens, signer: Key, depositId: u64, now: Time, to: Account)
    : Result<(Provider, Tokens), Error>
  {
    match LockedFor(v, signer, depositId, now)
    case Err(e) => Err(e)
    case Ok(locked) => UnlockFor(v, t, depositId, now, to, locked)
  }

  /** What follows the checks. */
  function UnlockFor(v: Provider, t: Tokens, depositId: u64, now: Time, to: Account, locked: int)
    : Result<(Provider, Tokens), Error>
    requires 1 <= depositId <= |v.deposits|
  {
    var penalty := Penalty(locked);
    var payout := locked - penalty;
    match Settle(v, t, to, penalty, payout)
    case None => Err(TokenError)
    case Some(t') =>
      if v.totalWithdrawn + payout > U64_MAX || v.totalBurned + penalty > U64_MAX then Err(Overflow)
      else Ok((Consumed(v, depositId, now, penalty, payout), t'))
  }

  function Consumed(v: Provider, depositId: u64, now: Time, penalty: int, payout: int): Provider
    requires 1 <= depositId <= |v.deposits|
  {
    var d := v.deposits[depositId - 1];
    v.(deposits := v.deposits[depositId - 1 := d.(withdrawn := d.amount)],
       totalWithdrawn := v.totalWithdrawn + payout,
       totalBurned := v.totalBurned + penalty, lastEarlyUnlock := now)
  }

  /** The account with its handlers. */
  class ProviderVesting {
    const ledger: Ledger
    const id: nat
    var tier: Tier
    var deposits: seq<Deposit>
    var totalDeposited: int
    var totalWithdrawn: int
    var totalBurned: int
    var lastEarlyUnlock: int

    function View(): Provider
      reads this
    {
      Provider(id, tier, deposits, totalDeposited, totalWithdrawn, totalBurned, lastEarlyUnlock)
    }

    constructor (id: nat, tier: Tier, ledger: Ledger)
      ensures this.ledger == ledger && View() == Provider(id, tier, [], 0, 0, 0, 0)
    {
      this.ledger, this.id, this.tier, this.deposits := ledger, id, tier, [];
      this.totalDeposited, this.totalWithdrawn, this.totalBurned, this.lastEarlyUnlock := 0, 0, 0, 0;
    }

    method Upgrade(signer: Key, next: Tier) returns (r: Result<(), Error>)
      modifies this
      ensures match UpgradeTier(old(View()), signer, next)
              case Ok(v) => r == Ok(()) && View() == v
              case Err(e) => r == Err(e) && View() == old(View())
    {
      if signer != User(id) { return Err(Unauthorized); }
      if !(next.Cliff() >= tier.Cliff() && next.Linear() >= tier.Linear()) { return Err(CannotDowngradeTier); }
      tier := next;
      r := Ok(());
    }

    method Record(now: Time, amount: u64) returns (r: Result<(), Error>)
      modifies this
      ensures match RecordDeposit(old(View()), now, amount)
              case Ok(v) => r == Ok(()) && View() == v
              case Err(e) => r == Err(e) && View() == old(View())
    {
      if |deposits| + 1 > U64_MAX || totalDeposited + amount > U64_MAX { return Err(Overflow); }
      deposits := deposits + [Deposit(amount, 0, now, tier)];
      totalDeposited := totalDeposited + amount;
      r := Ok(());
    }

    method Withdraw(signer: Key, depositId: u64, now: Time, to: Account) returns (r: Result<(), Error>)
      modifies this, ledger
      ensures match WithdrawUnlocked(old(View()), old(ledger.View()), signer, depositId, now, to)
              case Ok(next) => r == Ok(()) && View() == next.0 && ledger.View() == next.1
              case Err(e) => r == Err(e) && View() == old(View()) && ledger.View() == old(ledger.View())
    {
      if signer != User(id) { return Err(Unauthorized); }
      if !(1 <= depositId <= |deposits|) { return Err(AccountMissing); }
      var d := deposits[depositId - 1];
      var unlockedNow := VestedAmount(d.amount, d.depositedAt, now, d.tier);
      var claimable := unlockedNow - d.withdrawn;
      if claimable < 0 { return Err(Overflow); }
      if claimable == 0 { return Err(NothingToWithdraw); }
      if claimable > U64_MAX { return Err(TokenError); }
      var before := ledger.View();
      var ok := ledger.Transfer(VestingAuthority(id), VestingVault(id), to, claimable);
      if !ok { return Err(TokenError); }
      if totalWithdrawn + claimable > U64_MAX {
        ledger.Revert(before);
        return Err(Overflow);
      }
      deposits := deposits[depositId - 1 := d.(withdrawn := unlockedNow)];
      totalWithdrawn := totalWithdrawn + claimable;
      r := Ok(());
    }

    /** The two CPIs of `early_unlock`, each skipped when its amount is zero. */
    method BurnAndPay(penalty: int, payout: int, to: Account) returns (ok: bool)
      requires 0 <= penalty && 0 <= payout && penalty + payout <= U64_MAX
      modifies ledger
      ensures ok <==> Settle(View(), old(ledger.View()), to, penalty, payout).Some?
      ensures ledger.View() == if ok then Settle(View(), old(ledger.View()), to, penalty, payout).value
                               else old(ledger.View())
    {
      var before := ledger.View();
      ok := true;
      if penalty > 0 {
        ok := ledger.Burn(VestingAuthority(id), VestingVault(id), penalty);
        if !ok { return; }
      }
      if payout > 0 {
        ok := ledger.Transfer(VestingAuthority(id), VestingVault(id), to, payout);
        if !ok { ledger.Revert(before); }
      }
    }

    method CheckUnlock(signer: Key, depositId: u64, now: Time) returns (r: Result<int, Error>)
      ensures r == LockedFor(View(), signer, depositId, now)
      ensures r.Ok? ==> 0 < r.value <= U64_MAX && 1 <= depositId <= |deposits|
    {
      if signer != User(id) { return Err(Unauthorized); }
      if !(1 <= depositId <= |deposits|) { return Err(AccountMissing); }
      if now - lastEarlyUnlock < EARLY_UNLOCK_COOLDOWN_SECS { return Err(EarlyUnlockOnCooldown); }
      var d := deposits[depositId - 1];
      var unlockedNow := VestedAmount(d.amount, d.depositedAt, now, d.tier);
      var locked := d.amount - unlockedNow;
      if locked < 0 { return Err(Overflow); }
      if locked == 0 { return Err(NothingToEarlyUnlock); }
      r := Ok(locked);
    }

    method TakeLocked(depositId: u64, now: Time, to: Account, locked: u64) returns (r: Result<(), Error>)
      requires 1 <= depositId <= |deposits| && locked > 0
      modifies this, ledger
      ensures match UnlockFor(old(View()), old(ledger.View()), depositId, now, to, locked)
              case Ok(next) => r == Ok(()) && View() == next.0 && ledger.View() == next.1
              case Err(e) => r == Err(e) && View() == old(View()) && ledger.View() == old(ledger.View())
    {
      PenaltyIsHalf(locked);
      var penalty := Penalty(locked);
      var payout := locked - penalty;
      var before := ledger.View();
      var ok := BurnAndPay(penalty, payout, to);
      if !ok { return Err(TokenError); }
      if totalWithdrawn + payout > U64_MAX || totalBurned + penalty > U64_MAX {
        ledger.Revert(before);
        return Err(Overflow);
      }
      var d := deposits[depositId - 1];
      deposits := deposits[depositId - 1 := d.(withdrawn := d.amount)];
      totalWithdrawn, totalBurned, lastEarlyUnlock := totalWithdrawn + payout, totalBurned + penalty, now;
      r := Ok(());
    }

    method UnlockEarly(signer: Key, depositId: u64, now: Time, to: Account) returns (r: Result<(), Error>)
      modifies this, ledger
      ensures match EarlyUnlock(old(View()), old(ledger.View()), signer, depositId, now, to)
              case Ok(next) => r == Ok(()) && View() == next.0 && ledger.View() == next.1
              case Err(e) => r == Err(e) && View() == old(View()) && ledger.View() == old(ledger.View())
    {
      var check := CheckUnlock(signer, depositId, now);
      if check.Err? { return Err(check.error); }
      r := TakeLocked(depositId, now, to, check.value);
    }
  }
}
