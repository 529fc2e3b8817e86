/** contracts/programs/staking/src/lib.rs: stake positions, discount vouchers and keeper yield of one pool. */
module Staking {
  import opened Integers
  import opened TokenLedger

  const MIN_STAKE_SECS := 2_592_000
  const YIELD_SCALE := 315_360_000_000

  datatype Error =
    | AccountInUse | AccountMissing | ZeroAmount | MinStakeNotMet | Overflow | NothingToClaim
    | NoTimeElapsed | AlreadyConsumed | TokenError

  datatype Kind = Provider | Customer

  datatype Position = Position(amount: u64, kind: Kind, stakedAt: Time, lastAccrual: Time, unclaimed: u64)

  datatype Voucher = Voucher(amount: u64, lockedAt: Time, lockEnd: i64, consumed: bool)

  /** A voucher account is derived from its owner and an id of the owner's choice. */
  datatype VoucherKey = VoucherKey(owner: nat, id: u64)

  /** The pool account with its live positions (one per owner) and vouchers. */
  datatype Pool = Pool(yieldBps: nat, provider: int, customer: int,
                       positions: map<nat, Position>, vouchers: map<VoucherKey, Voucher>)
  {
    /** The staked total of one kind, and the pool with that total set. */
    function Of(kind: Kind): int { if kind == Provider then provider else customer }
    function Put(kind: Kind, total: int): Pool {
      if kind == Provider then this.(provider := total) else this.(customer := total)
    }
  }

  /** `stake`: the `init` constraint on the position account comes first. */
  function Stake(p: Pool, t: Tokens, user: nat, from: Account, now: Time, amount: u64, kind: Kind)
    : Result<(Pool, Tokens), Error>
  {
    if user in p.positions then Err(AccountInUse)
    else if amount == 0 then Err(ZeroAmount)
    else match t.Transfer(User(user), from, StakeVault, amount)
         case None => Err(TokenError)
         case Some(t') =>
           if p.Of(kind) + amount > U64_MAX then Err(Overflow)
           else
             var positions := p.positions[user := Position(amount, kind, now, now, 0)];
             Ok((p.Put(kind, p.Of(kind) + amount).(positions := positions), t'))
  }

  function Unstake(p: Pool, t: Tokens, user: nat, to: Account, now: Time): Result<(Pool, Tokens), Error> {
    if user !in p.positions then Err(AccountMissing)
    else
      var pos := p.positions[user];
      if now - pos.stakedAt < MIN_STAKE_SECS then Err(MinStakeNotMet)
      else if pos.amount == 0 then Err(ZeroAmount)
      else match t.Transfer(StakingAuthority, StakeVault, to, pos.amount)
           case None => Err(TokenError)
           case Some(t') =>
             if p.Of(pos.kind) < pos.amount then Err(Overflow)
             else Ok((p.Put(pos.kind, p.Of(pos.kind) - pos.amount).(positions := p.positions - {user}), t'))
  }

  function LockForDiscount(p: Pool, t: Tokens, key: VoucherKey, from: Account, now: Time, amount: u64, lockSecs: i64)
    : Result<(Pool, Tokens), Error>
  {
    if key in p.vouchers then Err(AccountInUse)
    else if amount == 0 then Err(ZeroAmount)
    else if lockSecs < MIN_STAKE_SECS then Err(MinStakeNotMet)
    else if now + lockSecs > I64_MAX then Err(Overflow)
    else match t.Transfer(User(key.owner), from, StakeVault, amount)
         case None => Err(TokenError)
         case Some(t') =>
           if p.customer + amount > U64_MAX then Err(Overflow)
           else Ok((p.(customer := p.customer + amount,
                       vouchers := p.vouchers[key := Voucher(amount, now, now + lockSecs, false)]), t'))
  }

  function Redeem(p: Pool, t: Tokens, key: VoucherKey, to: Account, now: Time): Result<(Pool, Tokens), Error> {
    if key !in p.vouchers then Err(AccountMissing)
    else
      var v := p.vouchers[key];
      if now < v.lockEnd then Err(MinStakeNotMet)
      else if v.consumed then Err(AlreadyConsumed)
      else match t.Transfer(StakingAuthority, StakeVault, to, v.amount)
           case None => Err(TokenError)
           case Some(t') =>
             if p.customer < v.amount then Err(Overflow)
             else Ok((p.(customer := p.customer - v.amount, vouchers := p.vouchers - {key}), t'))
  }

  /** The yield of one accrual: the product is checked in u128, the quotient cast to u64 silently. */
  function Increment(amount: u64, bps: nat, secs: nat): Option<u64> {
    if amount * bps * secs > U128_MAX then None else Some(AsU64(amount * bps * secs / YIELD_SCALE))
  }

  function AccruePosition(pos: Position, bps: nat, now: Time): Result<Position, Error> {
    if now <= pos.lastAccrual then Err(NoTimeElapsed)
    else match Increment(pos.amount, bps, now - pos.lastAccrual)
         case None => Err(Overflow)
         case Some(n) =>
           if pos.unclaimed + n > U64_MAX then Err(Overflow)
           else Ok(pos.(unclaimed := pos.unclaimed + n, lastAccrual := now))
  }

  /** Anybody may call `accrue_yield` for any position. */
  function Accrue(p: Pool, user: nat, now: Time): Result<Pool, Error> {
    if user !in p.positions then Err(AccountMissing)
    else match AccruePosition(p.positions[user], p.yieldBps, now)
         case Err(e) => Err(e)
         case Ok(pos) => Ok(p.(positions := p.positions[user := pos]))
  }

  function ClaimYield(p: Pool, t: Tokens, user: nat, to: Account): Result<(Pool, Tokens), Error> {
    if user !in p.positions then Err(AccountMissing)
    else
      var pos := p.positions[user];
      if pos.unclaimed == 0 then Err(NothingToClaim)
      else match t.MintTo(StakingAuthority, to, pos.unclaimed)
           case None => Err(TokenError)
           case Some(t') => Ok((p.(positions := p.positions[user := pos.(unclaimed := 0)]), t'))
  }

  /** The pool with its handlers. */
  class StakingPool {
    const ledger: Ledger
    const yieldBps: nat
    var totalProviderStaked: int
    var totalCustomerStaked: int
    var positions: map<nat, Position>
    var vouchers: map<VoucherKey, Voucher>

    function View(): Pool
      reads this
    {
      Pool(yieldBps, totalProviderStaked, totalCustomerStaked, positions, vouchers)
    }

    constructor (yieldBps: nat, ledger: Ledger)
      ensures this.ledger == ledger && View() == Pool(yieldBps, 0, 0, map[], map[])
    {
      this.ledger, this.yieldBps, positions, vouchers := ledger, yieldBps, map[], map[];
      totalProviderStaked, totalCustomerStaked := 0, 0;
    }

    method OpenPosition(user: nat, from: Account, now: Time, amount: u64, kind: Kind) returns (r: Result<(), Error>)
      modifies this, ledger
      ensures match Stake(old(View()), old(ledger.View()), user, from, now, amount, kind)
              case Ok(next) => r == Ok(()) && View() == next.0 && ledger.View() == next.1
              case Err(e) => r == Err(e) && View() == old(View()) && ledger.View() == old(ledger.View())
    {
      if user in positions { return Err(AccountInUse); }
      if amount == 0 { return Err(ZeroAmount); }
      var before := ledger.View();
      var ok := ledger.Transfer(User(user), from, StakeVault, amount);
      if !ok { return Err(TokenError); }
      match kind {
        case Provider =>
          if totalProviderStaked + amount > U64_MAX { ledger.Revert(before); return Err(Overflow); }
          totalProviderStaked := totalProviderStaked + amount;
        case Customer =>
          if totalCustomerStaked + amount > U64_MAX { ledger.Revert(before); return Err(Overflow); }
          totalCustomerStaked := totalCustomerStaked + amount;
      }
      positions := positions[user := Position(amount, kind, now, now, 0)];
      r := Ok(());
    }

    method ClosePosition(user: nat, to: Account, now: Time) returns (r: Result<(), Error>)
      modifies this, ledger
      ensures match Unstake(old(View()), old(ledger.View()), user, to, now)
              case Ok(next) => r == Ok(()) && View() == next.0 && ledger.View() == next.1
              case Err(e) => r == Err(e) && View() == old(View()) && ledger.View() == old(ledger.View())
    {
      if user !in positions { return Err(AccountMissing); }
      var pos := positions[user];
      if now - pos.stakedAt < MIN_STAKE_SECS { return Err(MinStakeNotMet); }
      if pos.amount == 0 { return Err(ZeroAmount); }
      var before := ledger.View();
      var ok := ledger.Transfer(StakingAuthority, StakeVault, to, pos.amount);
      if !ok { return Err(TokenError); }
      match pos.kind {
        case Provider =>
          if totalProviderStaked < pos.amount { ledger.Revert(before); return Err(Overflow); }
          totalProviderStaked := totalProviderStaked - pos.amount;
        case Customer =>
          if totalCustomerStaked < pos.amount { ledger.Revert(before); return Err(Overflow); }
          totalCustomerStaked := totalCustomerStaked - pos.amount;
      }
      positions := positions - {user};
      r := Ok(());
    }

    method OpenVoucher(key: VoucherKey, from: Account, now: Time, amount: u64, lockSecs: i64)
      returns (r: Result<(), Error>)
      modifies this, ledger
      ensures match LockForDiscount(old(View()), old(ledger.View()), key, from, now, amount, lockSecs)
              case Ok(next) => r == Ok(()) && View() == next.0 && ledger.View() == next.1
              case Err(e) => r == Err(e) && View() == old(View()) && ledger.View() == old(ledger.View())
    {
      if key in vouchers { return Err(AccountInUse); }
      if amount == 0 { return Err(ZeroAmount); }
      if lockSecs < MIN_STAKE_SECS { return Err(MinStakeNotMet); }
      if now + lockSecs > I64_MAX { return Err(Overflow); }
      var before := ledger.View();
      var ok := ledger.Transfer(User(key.owner), from, StakeVault, amount);
      if !ok { return Err(TokenError); }
      if totalCustomerStaked + amount > U64_MAX { ledger.Revert(before); return Err(Overflow); }
      totalCustomerStaked := totalCustomerStaked + amount;
      vouchers := vouchers[key := Voucher(amount, now, now + lockSecs, false)];
      r := Ok(());
    }

    method CloseVoucher(key: VoucherKey, to: Account, now: Time) returns (r: Result<(), Error>)
      modifies this, ledger
      ensures match Redeem(old(View()), old(ledger.View()), key, to, now)
              case Ok(next) => r == Ok(()) && View() == next.0 && ledger.View() == next.1
              case Err(e) => r == Err(e) && View() == old(View()) && ledger.View() == old(ledger.View())
    {
      if key !in vouchers { return Err(AccountMissing); }
      var v := vouchers[key];
      if now < v.lockEnd { return Err(MinStakeNotMet); }
      if v.consumed { return Err(AlreadyConsumed); }
      var before := ledger.View();
      var ok := ledger.Transfer(StakingAuthority, StakeVault, to, v.amount);
      if !ok { return Err(TokenError); }
      if totalCustomerStaked < v.amount { ledger.Revert(before); return Err(Overflow); }
      totalCustomerStaked := totalCustomerStaked - v.amount;
      vouchers := vouchers - {key};
      r := Ok(());
    }

    method AccrueYield(user: nat, now: Time) returns (r: Result<(), Error>)
      modifies this
      ensures match Accrue(old(View()), user, now)
              case Ok(p) => r == Ok(()) && View() == p
              case Err(e) => r == Err(e) && View() == old(View())
    {
      if user !in positions { return Err(AccountMissing); }
      var pos := positions[user];
      if now <= pos.lastAccrual { return Err(NoTimeElapsed); }
      var increment := Increment(pos.amount, yieldBps, now - pos.lastAccrual);
      if increment.None? || pos.unclaimed + increment.value > U64_MAX { return Err(Overflow); }
      positions := positions[user := pos.(unclaimed := pos.unclaimed + increment.value, lastAccrual := now)];
      r := Ok(());
    }

    method Claim(user: nat, to: Account) returns (r: Result<(), Error>)
      modifies this, ledger
      ensures match ClaimYield(old(View()), old(ledger.View()), user, to)
              case Ok(next) => r == Ok(()) && View() == next.0 && ledger.View() == next.1
              case Err(e) => r == Err(e) && View() == old(View()) && ledger.View() == old(ledger.View())
    {
      if user !in positions { return Err(AccountMissing); }
      var pos := positions[user];
      if pos.unclaimed == 0 { return Err(NothingToClaim); }
      var ok := ledger.MintTo(StakingAuthority, to, pos.unclaimed);
      if !ok { return Err(TokenError); }
      positions := positions[user := pos.(unclaimed := 0)];
      r := Ok(());
    }
  }
}
