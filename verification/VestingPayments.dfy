/** Every instruction of the vesting program: exactly when it succeeds, and what it does to every balance and
    record. */
module VestingPayments {
  import opened Integers
  import opened TokenLedger
  import opened VestingSchedule
  import opened Vesting
  import opened VestingRun

  // ---- Payouts -------------------------------------------------------------------------------

  lemma PayExactly(v: Provider, t: Tokens, to: Account, amount: int)
    requires t.Valid()
    ensures Pay(v, t, to, amount).Some? <==> 0 <= amount <= t.Balance(v.Vault())
    ensures Pay(v, t, to, amount).Some? ==>
              Pay(v, t, to, amount).value.Valid() && Moved(t, Pay(v, t, to, amount).value, v.Vault(), to, amount)
  {
    BalanceWithinSupply(t, v.Vault());
    if Pay(v, t, to, amount).Some? { TransferConserves(t, v.Authority(), v.Vault(), to, amount); }
  }

  /** The balances after an early unlock of `locked` units: half is burned, the rest is paid. */
  ghost predicate Unlocked(t: Tokens, t': Tokens, vault: Account, to: Account, locked: int) {
    && t'.supply == t.supply - locked / 2 && t'.authority == t.authority
    && forall a :: t'.Balance(a) ==
         t.Balance(a) - (if a == vault then locked else 0) + (if a == to then locked - locked / 2 else 0)
  }

  ghost predicate Burned(t: Tokens, t': Tokens, from: Account, amount: int) {
    && t'.supply == t.supply - amount && t'.authority == t.authority
    && forall a :: t'.Balance(a) == t.Balance(a) - if a == from then amount else 0
  }

  lemma BurnThenPay(t: Tokens, burned: Tokens, t': Tokens, vault: Account, to: Account, locked: int)
    requires Burned(t, burned, vault, locked / 2) && Moved(burned, t', vault, to, locked - locked / 2)
    ensures Unlocked(t, t', vault, to, locked)
  {
    forall a
      ensures t'.Balance(a) ==
              t.Balance(a) - (if a == vault then locked else 0) + (if a == to then locked - locked / 2 else 0)
    {
      assert burned.Balance(a) == t.Balance(a) - if a == vault then locked / 2 else 0;
    }
  }

  lemma SettlePays(v: Provider, t: Tokens, to: Account, locked: u64, t': Tokens)
    requires t.Valid() && locked > 0 && Settle(v, t, to, locked / 2, locked - locked / 2) == Some(t')
    ensures Unlocked(t, t', v.Vault(), to, locked)
  {
    var burned := if locked / 2 > 0 then Destroy(v, t, locked / 2) else Some(t);
    if locked / 2 > 0 { BurnConserves(t, v.Authority(), v.Vault(), locked / 2); }
    PayExactly(v, burned.value, to, locked - locked / 2);
    BurnThenPay(t, burned.value, t', v.Vault(), to, locked);
  }

  /** Whether an early unlock is accepted. */
  predicate MayUnlock(w: World, signer: Key, id: u64) {
    && signer == User(w.v.id) && 1 <= id <= |w.v.deposits|
    && w.clock - w.v.lastEarlyUnlock >= 365 * 86_400
    && var d := w.v.deposits[id - 1];
    && d.amount > 0 && w.clock - d.depositedAt < d.tier.Span() && Bears(w, d.LockedAt(w.clock))
  }

  lemma UnlockAccepted(w: World, signer: Key, id: u64, to: Account)
    requires Inv(w)
    ensures EarlyUnlock(w.v, w.tokens, signer, id, w.clock, to).Ok? <==> MayUnlock(w, signer, id)
  {
    if signer == User(w.v.id) && 1 <= id <= |w.v.deposits| {
      UnlockChecksExactly(w, id, w.clock);
      UnlockExactly(w, id, to);
    }
  }

  /** Only deposit `i` of the account changed, to `d`. */
  ghost predicate OnlyDeposit(v: Provider, v': Provider, i: nat, d: Deposit) {
    && v'.id == v.id && v'.tier == v.tier && v'.totalDeposited == v.totalDeposited
    && |v'.deposits| == |v.deposits| && i < |v.deposits| && v'.deposits[i] == d
    && forall j :: 0 <= j < |v.deposits| && j != i ==> v'.deposits[j] == v.deposits[j]
  }

  /** An early unlock by the provider pays the recipient the locked part less the burned half, takes the
      whole of it from the vault and consumes the deposit; no other balance or deposit changes. */
  lemma UnlockPays(w: World, signer: Key, id: u64, to: Account)
    requires Inv(w)
    ensures var r := EarlyUnlock(w.v, w.tokens, signer, id, w.clock, to);
            && (r.Ok? <==> MayUnlock(w, signer, id))
            && (r.Ok? ==>
                  var d, v' := w.v.deposits[id - 1], r.value.0;
                  var locked := d.LockedAt(w.clock);
                  && locked > 0 && Unlocked(w.tokens, r.value.1, w.v.Vault(), to, locked)
                  && OnlyDeposit(w.v, v', id - 1, d.(withdrawn := d.amount)) && v'.lastEarlyUnlock == w.clock
                  && v'.totalWithdrawn == w.v.totalWithdrawn + locked - locked / 2
                  && v'.totalBurned == w.v.totalBurned + locked / 2)
  {
    UnlockAccepted(w, signer, id, to);
    var r := EarlyUnlock(w.v, w.tokens, signer, id, w.clock, to);
    if r.Ok? {
      var locked := UnlockEffect(w, signer, id, to, r.value.0, r.value.1);
      PenaltyIsHalf(locked);
      SettlePays(w.v, w.tokens, to, locked, r.value.1);
    }
  }

  predicate MayWithdraw(w: World, signer: Key, id: u64) {
    && signer == User(w.v.id) && 1 <= id <= |w.v.deposits|
    && var d := w.v.deposits[id - 1];
       var due := d.VestedAt(w.clock) - d.withdrawn;
       0 < due <= w.tokens.Balance(w.v.Vault()) && w.v.totalWithdrawn + due <= U64_MAX
  }

  /** A withdrawal by the provider takes what has vested and was not withdrawn from the vault to the
      recipient, and records it; no other balance or deposit changes. */
  lemma WithdrawPays(w: World, signer: Key, id: u64, to: Account)
    requires Inv(w)
    ensures var r := WithdrawUnlocked(w.v, w.tokens, signer, id, w.clock, to);
            && (r.Ok? <==> MayWithdraw(w, signer, id))
            && (r.Ok? ==>
                  var d, v' := w.v.deposits[id - 1], r.value.0;
                  var due := d.VestedAt(w.clock) - d.withdrawn;
                  && Moved(w.tokens, r.value.1, w.v.Vault(), to, due)
                  && OnlyDeposit(w.v, v', id - 1, d.(withdrawn := d.VestedAt(w.clock)))
                  && v'.totalWithdrawn == w.v.totalWithdrawn + due && v'.totalBurned == w.v.totalBurned
                  && v'.lastEarlyUnlock == w.v.lastEarlyUnlock)
  {
    WithdrawAccepted(w, signer, id, to);
    if MayWithdraw(w, signer, id) {
      var d := w.v.deposits[id - 1];
      PayExactly(w.v, w.tokens, to, d.VestedAt(w.clock) - d.withdrawn);
    }
  }

  lemma WithdrawAccepted(w: World, signer: Key, id: u64, to: Account)
    requires Inv(w)
    ensures WithdrawUnlocked(w.v, w.tokens, signer, id, w.clock, to).Ok? <==> MayWithdraw(w, signer, id)
  {
    if signer == User(w.v.id) && 1 <= id <= |w.v.deposits| {
      var d := w.v.deposits[id - 1];
      PayExactly(w.v, w.tokens, to, d.VestedAt(w.clock) - d.withdrawn);
    }
  }

  // ---- The account ---------------------------------------------------------------------------

  /** A deposit starts unwithdrawn, under the provider's tier and at the present time. */
  lemma RecordExactly(w: World, amount: u64)
    ensures var r := RecordDeposit(w.v, w.clock, amount);
            && (r.Ok? <==> |w.v.deposits| + 1 <= U64_MAX && w.v.totalDeposited + amount <= U64_MAX)
            && (r.Ok? ==>
                  && |r.value.deposits| == |w.v.deposits| + 1 && r.value.deposits[..|w.v.deposits|] == w.v.deposits
                  && r.value.deposits[|w.v.deposits|] == Deposit(amount, 0, w.clock, w.v.tier)
                  && r.value == w.v.(deposits := r.value.deposits, totalDeposited := w.v.totalDeposited + amount))
  {}

  /** The tier changes only by the provider and only to one under which nothing vests faster. */
  lemma UpgradeExactly(w: World, signer: Key, next: Tier)
    ensures var r := UpgradeTier(w.v, signer, next);
            && (r.Ok? <==>
                  && signer == User(w.v.id)
                  && forall amount: u64, age: int :: Vested(amount, age, next) <= Vested(amount, age, w.v.tier))
            && (r.Ok? ==> r.value == w.v.(tier := next))
  {
    UpgradeVestsSlower(next, w.v.tier);
  }

  // ---- Errors --------------------------------------------------------------------------------

  /** What an error of a withdrawal or an early unlock reports. */
  lemma PayoutErrors(w: World, signer: Key, id: u64, to: Account)
    requires Inv(w)
    ensures match WithdrawUnlocked(w.v, w.tokens, signer, id, w.clock, to)
            case Ok(_) => signer == User(w.v.id)
            case Err(Unauthorized) => signer != User(w.v.id)
            case Err(AccountMissing) => signer == User(w.v.id) && !(1 <= id <= |w.v.deposits|)
            case Err(e) =>
              && 1 <= id <= |w.v.deposits|
              && var d := w.v.deposits[id - 1];
                 var due := d.VestedAt(w.clock) - d.withdrawn;
              if due == 0 then e == NothingToWithdraw
              else if due < 0 then e == Overflow
              else if due > w.tokens.Balance(w.v.Vault()) then e == TokenError
              else e == Overflow && w.v.totalWithdrawn + due > U64_MAX
    ensures match EarlyUnlock(w.v, w.tokens, signer, id, w.clock, to)
            case Ok(_) => signer == User(w.v.id)
            case Err(Unauthorized) => signer != User(w.v.id)
            case Err(AccountMissing) => signer == User(w.v.id) && !(1 <= id <= |w.v.deposits|)
            case Err(e) =>
              && 1 <= id <= |w.v.deposits|
              && var locked := w.v.deposits[id - 1].LockedAt(w.clock);
              if w.clock - w.v.lastEarlyUnlock < 365 * 86_400 then e == EarlyUnlockOnCooldown
              else if locked == 0 then e == NothingToEarlyUnlock
              else if locked > w.tokens.Balance(w.v.Vault()) then e == TokenError
              else e == Overflow && !Bears(w, locked)
  {
    if signer == User(w.v.id) && 1 <= id <= |w.v.deposits| {
      WithdrawErrors(w, id, to);
      UnlockErrors(w, id, to);
    }
  }

  lemma WithdrawErrors(w: World, id: u64, to: Account)
    requires Inv(w) && 1 <= id <= |w.v.deposits|
    ensures var d := w.v.deposits[id - 1];
            var due := d.VestedAt(w.clock) - d.withdrawn;
            match WithdrawUnlocked(w.v, w.tokens, User(w.v.id), id, w.clock, to)
            case Ok(_) => true
            case Err(e) =>
              if due == 0 then e == NothingToWithdraw
              else if due < 0 then e == Overflow
              else if due > w.tokens.Balance(w.v.Vault()) then e == TokenError
              else e == Overflow && w.v.totalWithdrawn + due > U64_MAX
  {
    var d := w.v.deposits[id - 1];
    PayExactly(w.v, w.tokens, to, d.VestedAt(w.clock) - d.withdrawn);
  }

  lemma UnlockErrors(w: World, id: u64, to: Account)
    requires Inv(w) && 1 <= id <= |w.v.deposits|
    ensures var locked := w.v.deposits[id - 1].LockedAt(w.clock);
            match EarlyUnlock(w.v, w.tokens, User(w.v.id), id, w.clock, to)
            case Ok(_) => true
            case Err(e) =>
              if w.clock - w.v.lastEarlyUnlock < 365 * 86_400 then e == EarlyUnlockOnCooldown
              else if locked == 0 then e == NothingToEarlyUnlock
              else if locked > w.tokens.Balance(w.v.Vault()) then e == TokenError
              else e == Overflow && !Bears(w, locked)
  {
    var d := w.v.deposits[id - 1];
    var locked := d.LockedAt(w.clock);
    UnlockExactly(w, id, to);
    VestedWithin(d.amount, w.clock - d.depositedAt, d.tier);
    if locked > 0 {
      PenaltyIsHalf(locked);
      SettleExactly(w.v, w.tokens, to, locked / 2, locked - locked / 2);
    }
  }

  /** What an error of a tier change or a record reports. */
  lemma AccountErrors(w: World, signer: Key, next: Tier, amount: u64)
    ensures match UpgradeTier(w.v, signer, next)
            case Ok(_) => signer == User(w.v.id)
            case Err(Unauthorized) => signer != User(w.v.id)
            case Err(e) => e == CannotDowngradeTier && next.Span() < w.v.tier.Span()
    ensures RecordDeposit(w.v, w.clock, amount).Err? ==> RecordDeposit(w.v, w.clock, amount).error == Overflow
  {}

  // ---- Runs ----------------------------------------------------------------------------------

  /** The recipient of a withdrawal or an early unlock. */
  function Recipient(a: Action): Option<Account> {
    match a
    case Withdraw(_, _, to) => Some(to)
    case Unlock(_, _, to) => Some(to)
    case _ => None
  }

  /** What recipients gained, on the ledger, from the withdrawals and early unlocks of a run. */
  ghost function PaidOut(w: World, actions: seq<Action>): int
    requires Inv(w)
  {
    if actions == [] then 0
    else
      var before, a := Run(w, actions[..|actions| - 1]), actions[|actions| - 1];
      PaidOut(w, actions[..|actions| - 1])
      + if Recipient(a).None? then 0
        else Step(before, a).tokens.Balance(Recipient(a).value) - before.tokens.Balance(Recipient(a).value)
  }

  /** Supply that the early unlocks of a run burned. */
  ghost function BurnedBy(w: World, actions: seq<Action>): int
    requires Inv(w)
  {
    if actions == [] then 0
    else
      var before, a := Run(w, actions[..|actions| - 1]), actions[|actions| - 1];
      BurnedBy(w, actions[..|actions| - 1])
      + if a.Unlock? then before.tokens.supply - Step(before, a).tokens.supply else 0
  }

  lemma StepPaysRecipient(w: World, a: Action)
    requires Inv(w) && Recipient(a) != Some(w.v.Vault())
    ensures var w' := Step(w, a);
            && w'.v.id == w.v.id
            && w'.v.totalWithdrawn - w.v.totalWithdrawn ==
               (if Recipient(a).None? then 0
                else w'.tokens.Balance(Recipient(a).value) - w.tokens.Balance(Recipient(a).value))
            && w'.v.totalBurned - w.v.totalBurned == (if a.Unlock? then w.tokens.supply - w'.tokens.supply else 0)
  {
    match a
    case Withdraw(s, id, to) => WithdrawPays(w, s, id, to);
    case Unlock(s, id, to) => UnlockPays(w, s, id, to);
    case _ =>
  }

  /** Over every run whose payouts go outside the vault, the two totals of the account are what recipients
      were paid and what left the supply. */
  lemma {:induction false} RecipientsGotIt(w: World, actions: seq<Action>)
    requires Inv(w) && forall i :: 0 <= i < |actions| ==> Recipient(actions[i]) != Some(w.v.Vault())
    ensures var w' := Run(w, actions);
            && w'.v.id == w.v.id
            && PaidOut(w, actions) == w'.v.totalWithdrawn - w.v.totalWithdrawn
            && BurnedBy(w, actions) == w'.v.totalBurned - w.v.totalBurned
  {
    if actions != [] {
      RecipientsGotIt(w, actions[..|actions| - 1]);
      StepPaysRecipient(Run(w, actions[..|actions| - 1]), actions[|actions| - 1]);
    }
  }
}
