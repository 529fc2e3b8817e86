/** Every instruction of the staking program: exactly when it succeeds, and what it does to every balance,
    position and voucher. */
module StakingInstructions {
  import opened Integers
  import opened TokenLedger
  import opened Staking
  import opened StakingRun

  /** Only the staked total of one kind changed, by `n`. */
  predicate TotalsMoved(p: Pool, p': Pool, kind: Kind, n: int) {
    && p'.yieldBps == p.yieldBps
    && p'.provider == p.provider + (if kind == Provider then n else 0)
    && p'.customer == p.customer + (if kind == Customer then n else 0)
  }

  /** A stake moves the tokens into the vault and opens a position that has earned nothing yet: whatever the
      ledger, a claim on it is refused. */
  lemma StakeExactly(w: World, user: nat, from: Account, n: u64, kind: Kind, t: Tokens, to: Account)
    requires Inv(w)
    ensures var r := Stake(w.pool, w.tokens, user, from, w.clock, n, kind);
            && (r.Ok? <==> user !in w.pool.positions && n > 0 && from == Wallet(user) && n <= w.tokens.Balance(from))
            && (r.Ok? ==>
                  var p' := r.value.0;
                  && Moved(w.tokens, r.value.1, Wallet(user), StakeVault, n)
                  && TotalsMoved(w.pool, p', kind, n) && p'.vouchers == w.pool.vouchers
                  && p'.positions == w.pool.positions[user := Position(n, kind, w.clock, w.clock, 0)]
                  && ClaimYield(p', t, user, to) == Result.Err(NothingToClaim))
  {
    StakesAreAccepted(w, user, VoucherKey(0, 0), from, n, kind, 0);
    if Stake(w.pool, w.tokens, user, from, w.clock, n, kind).Ok? {
      TransferConserves(w.tokens, User(user), from, StakeVault, n);
    }
  }

  /** A matured position is paid from the vault, whole, and is gone. */
  lemma UnstakeExactly(w: World, user: nat, to: Account)
    requires Inv(w)
    ensures var r := Unstake(w.pool, w.tokens, user, to, w.clock);
            && (r.Ok? <==> user in w.pool.positions && w.clock >= w.pool.positions[user].stakedAt + 30 * 86_400)
            && (r.Ok? ==>
                  var pos, p' := w.pool.positions[user], r.value.0;
                  && Moved(w.tokens, r.value.1, StakeVault, to, pos.amount)
                  && TotalsMoved(w.pool, p', pos.kind, -(pos.amount as int)) && p'.vouchers == w.pool.vouchers
                  && p'.positions == w.pool.positions - {user})
  {
    MaturedHoldersArePaid(w, user, VoucherKey(0, 0), to);
    if Unstake(w.pool, w.tokens, user, to, w.clock).Ok? {
      TransferConserves(w.tokens, StakingAuthority, StakeVault, to, w.pool.positions[user].amount);
    }
  }

  /** A voucher locks its owner's tokens until the end the owner chose, at least 30 days on. */
  lemma LockExactly(w: World, key: VoucherKey, from: Account, n: u64, secs: i64)
    requires Inv(w)
    ensures var r := LockForDiscount(w.pool, w.tokens, key, from, w.clock, n, secs);
            && (r.Ok? <==>
                  && key !in w.pool.vouchers && n > 0 && 30 * 86_400 <= secs <= I64_MAX - w.clock
                  && from == Wallet(key.owner) && n <= w.tokens.Balance(from))
            && (r.Ok? ==>
                  var p' := r.value.0;
                  && Moved(w.tokens, r.value.1, Wallet(key.owner), StakeVault, n)
                  && TotalsMoved(w.pool, p', Customer, n) && p'.positions == w.pool.positions
                  && p'.vouchers == w.pool.vouchers[key := Voucher(n, w.clock, w.clock + secs, false)])
  {
    StakesAreAccepted(w, 0, key, from, n, Customer, secs);
    if LockForDiscount(w.pool, w.tokens, key, from, w.clock, n, secs).Ok? {
      TransferConserves(w.tokens, User(key.owner), from, StakeVault, n);
    }
  }

  /** A voucher past its lock is paid from the vault, whole, and is gone. */
  lemma RedeemExactly(w: World, key: VoucherKey, to: Account)
    requires Inv(w)
    ensures var r := Redeem(w.pool, w.tokens, key, to, w.clock);
            && (r.Ok? <==> key in w.pool.vouchers && w.clock >= w.pool.vouchers[key].lockEnd)
            && (r.Ok? ==>
                  var n, p' := w.pool.vouchers[key].amount, r.value.0;
                  && Moved(w.tokens, r.value.1, StakeVault, to, n)
                  && TotalsMoved(w.pool, p', Customer, -(n as int)) && p'.positions == w.pool.positions
                  && p'.vouchers == w.pool.vouchers - {key})
  {
    MaturedHoldersArePaid(w, 0, key, to);
    if Redeem(w.pool, w.tokens, key, to, w.clock).Ok? {
      TransferConserves(w.tokens, StakingAuthority, StakeVault, to, w.pool.vouchers[key].amount);
    }
  }

  /** A claim mints exactly the unclaimed yield to the account named, if there is any and the staking
      program holds the mint authority; a second claim finds nothing. */
  lemma ClaimExactly(w: World, user: nat, to: Account)
    requires Inv(w)
    ensures var r := ClaimYield(w.pool, w.tokens, user, to);
            && (r.Ok? <==>
                  && user in w.pool.positions && w.pool.positions[user].unclaimed > 0
                  && w.tokens.authority == StakingAuthority
                  && w.tokens.supply + w.pool.positions[user].unclaimed <= U64_MAX)
            && (r.Ok? ==>
                  var pos, p' := w.pool.positions[user], r.value.0;
                  && Credited(w.tokens, r.value.1, to, pos.unclaimed)
                  && p' == w.pool.(positions := w.pool.positions[user := pos.(unclaimed := 0)])
                  && ClaimYield(p', r.value.1, user, to) == Result.Err(NothingToClaim))
  {
    if ClaimYield(w.pool, w.tokens, user, to).Ok? {
      MintToConserves(w.tokens, StakingAuthority, to, w.pool.positions[user].unclaimed);
    }
  }

  /** Anybody's accrual adds yield to the one position named and marks it as accrued now. */
  lemma AccrueExactly(w: World, user: nat)
    requires Inv(w)
    ensures var r := Accrue(w.pool, user, w.clock);
            r.Ok? ==>
              && user in w.pool.positions && user in r.value.positions
              && var pos, pos' := w.pool.positions[user], r.value.positions[user];
                  && r.value == w.pool.(positions := w.pool.positions[user := pos'])
                  && pos' == pos.(lastAccrual := w.clock, unclaimed := pos'.unclaimed)
                  && pos.lastAccrual < w.clock && pos.unclaimed <= pos'.unclaimed
  {}

  // ---- Errors --------------------------------------------------------------------------------

  /** What an error of opening or closing a position reports. */
  lemma StakeErrors(w: World, user: nat, from: Account, n: u64, kind: Kind, to: Account)
    requires Inv(w)
    ensures match Stake(w.pool, w.tokens, user, from, w.clock, n, kind)
            case Ok(_) => user !in w.pool.positions
            case Err(AccountInUse) => user in w.pool.positions
            case Err(ZeroAmount) => user !in w.pool.positions && n == 0
            case Err(e) => e == TokenError && n > 0 && (from != Wallet(user) || n > w.tokens.Balance(from))
    ensures match Unstake(w.pool, w.tokens, user, to, w.clock)
            case Ok(_) => user in w.pool.positions
            case Err(AccountMissing) => user !in w.pool.positions
            case Err(e) =>
              && e == MinStakeNotMet && user in w.pool.positions
              && w.clock < w.pool.positions[user].stakedAt + 30 * 86_400
  {
    RoomInTotals(w, User(user), from, n);
    MaturedHoldersArePaid(w, user, VoucherKey(0, 0), to);
    if user in w.pool.positions { assert PositionOk(w.pool.positions[user], w.clock); }
  }

  /** What an error of an accrual or a claim reports. */
  lemma YieldErrors(w: World, user: nat, to: Account)
    requires Inv(w)
    ensures match Accrue(w.pool, user, w.clock)
            case Ok(_) => user in w.pool.positions
            case Err(AccountMissing) => user !in w.pool.positions
            case Err(NoTimeElapsed) => user in w.pool.positions && w.clock == w.pool.positions[user].lastAccrual
            case Err(e) => e == Overflow && user in w.pool.positions && w.clock > w.pool.positions[user].lastAccrual
    ensures match ClaimYield(w.pool, w.tokens, user, to)
            case Ok(_) => user in w.pool.positions
            case Err(AccountMissing) => user !in w.pool.positions
            case Err(NothingToClaim) => user in w.pool.positions && w.pool.positions[user].unclaimed == 0
            case Err(e) =>
              && e == TokenError && user in w.pool.positions && w.pool.positions[user].unclaimed > 0
              && (w.tokens.authority != StakingAuthority
                  || w.tokens.supply + w.pool.positions[user].unclaimed > U64_MAX)
  {
    if user in w.pool.positions { assert PositionOk(w.pool.positions[user], w.clock); }
  }

  /** What an error of the instructions on vouchers reports; a consumed voucher is refused in any state. */
  lemma VoucherErrors(w: World, key: VoucherKey, from: Account, n: u64, secs: i64, to: Account, p: Pool)
    requires Inv(w)
    ensures match LockForDiscount(w.pool, w.tokens, key, from, w.clock, n, secs)
            case Ok(_) => key !in w.pool.vouchers
            case Err(AccountInUse) => key in w.pool.vouchers
            case Err(ZeroAmount) => key !in w.pool.vouchers && n == 0
            case Err(MinStakeNotMet) => n > 0 && secs < 30 * 86_400
            case Err(Overflow) => n > 0 && w.clock + secs > I64_MAX
            case Err(e) =>
              e == TokenError && n > 0 && (from != Wallet(key.owner) || n > w.tokens.Balance(from))
    ensures match Redeem(w.pool, w.tokens, key, to, w.clock)
            case Ok(_) => key in w.pool.vouchers
            case Err(AccountMissing) => key !in w.pool.vouchers
            case Err(e) => e == MinStakeNotMet && key in w.pool.vouchers && w.clock < w.pool.vouchers[key].lockEnd
    ensures key in p.vouchers && p.vouchers[key].consumed && w.clock >= p.vouchers[key].lockEnd ==>
              Redeem(p, w.tokens, key, to, w.clock) == Result.Err(AlreadyConsumed)
  {
    StakesAreAccepted(w, 0, key, from, n, Customer, secs);
    RoomInTotals(w, User(key.owner), from, n);
    MaturedHoldersArePaid(w, 0, key, to);
    if key in w.pool.vouchers { assert VoucherOk(w.pool.vouchers[key], w.clock); }
  }
}
