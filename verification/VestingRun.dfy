/** Whole runs of the vesting program for one provider: conservation, and a vault that is never short. */
module VestingRun {
  import opened Integers
  import opened TokenLedger
  import opened VestingSchedule
  import opened Vesting

  /** What a run did to one deposit: units that left the vault for it, what was vested but not
      claimed when it was first unlocked early, what later early unlocks took on top, and their number. */
  datatype Trace = Trace(paid: int, stranded: int, excess: int, unlocks: nat)

  datatype World = World(clock: Time, tokens: Tokens, v: Provider, traces: seq<Trace>)

  /** The instructions of the provider and the billing signer, the clock, and what anybody else may do
      to the token accounts: `signer` is then any key except the vault's own authority. */
  datatype Action =
    | Tick(secs: nat)
    | Upgrade(signer: Key, next: Tier)
    | Record(amount: u64)
    | Withdraw(signer: Key, depositId: u64, to: Account)
    | Unlock(signer: Key, depositId: u64, to: Account)
    | OutsideMint(signer: Key, to: Account, amount: u64)
    | OutsideTransfer(signer: Key, from: Account, to: Account, amount: u64)
    | OutsideBurn(signer: Key, from: Account, amount: u64)

  function Outside(w: World, signer: Key, t: Option<Tokens>): World {
    if signer == w.v.Authority() || t.None? then w else w.(tokens := t.value)
  }

  /** A failed instruction changes nothing. */
  function Step(w: World, a: Action): World
    requires |w.traces| == |w.v.deposits|
  {
    match a
    case Tick(n) => if w.clock + n < 0x4000_0000_0000_0000 then w.(clock := w.clock + n) else w
    case Upgrade(s, next) =>
      (match UpgradeTier(w.v, s, next)
       case Ok(v) => w.(v := v)
       case Err(_) => w)
    case Record(amount) =>
      (match RecordDeposit(w.v, w.clock, amount)
       case Ok(v) => w.(v := v, traces := w.traces + [Trace(0, 0, 0, 0)])
       case Err(_) => w)
    case Withdraw(s, id, to) =>
      (match WithdrawUnlocked(w.v, w.tokens, s, id, w.clock, to)
       case Ok(x) =>
         var tr := AfterWithdraw(w.v.deposits[id - 1], w.traces[id - 1], w.clock);
         World(w.clock, x.1, x.0, w.traces[id - 1 := tr])
       case Err(_) => w)
    case Unlock(s, id, to) =>
      (match EarlyUnlock(w.v, w.tokens, s, id, w.clock, to)
       case Ok(x) =>
         var tr := AfterUnlock(w.v.deposits[id - 1], w.traces[id - 1], w.clock);
         World(w.clock, x.1, x.0, w.traces[id - 1 := tr])
       case Err(_) => w)
    case OutsideMint(s, to, n) => Outside(w, s, w.tokens.MintTo(s, to, n))
    case OutsideTransfer(s, from, to, n) => Outside(w, s, w.tokens.Transfer(s, from, to, n))
    case OutsideBurn(s, from, n) => Outside(w, s, w.tokens.Burn(s, from, n))
  }

  function AfterWithdraw(d: Deposit, tr: Trace, now: int): Trace {
    tr.(paid := tr.paid + d.VestedAt(now) - d.withdrawn)
  }

  function AfterUnlock(d: Deposit, tr: Trace, now: int): Trace {
    var locked := d.LockedAt(now);
    if tr.unlocks == 0 then Trace(tr.paid + locked, d.VestedAt(now) - d.withdrawn, 0, 1)
    else tr.(paid := tr.paid + locked, excess := tr.excess + locked, unlocks := tr.unlocks + 1)
  }

  // ---- Sums over the deposits ----------------------------------------------------------------

  /** `unpaid` counts deposits never unlocked early, `stranded` what early unlocks left behind. */
  datatype Sums = Sums(amount: int, paid: int, unpaid: int, stranded: int, excess: int) {
    function Plus(s: Sums): Sums {
      Sums(amount + s.amount, paid + s.paid, unpaid + s.unpaid, stranded + s.stranded, excess + s.excess)
    }
    function Minus(s: Sums): Sums {
      Sums(amount - s.amount, paid - s.paid, unpaid - s.unpaid, stranded - s.stranded, excess - s.excess)
    }
  }

  function Share(d: Deposit, tr: Trace): Sums {
    Sums(d.amount, tr.paid, if tr.unlocks == 0 then d.amount - d.withdrawn else 0, tr.stranded, tr.excess)
  }

  function Total(ds: seq<Deposit>, ts: seq<Trace>): Sums
    requires |ds| == |ts|
  {
    if ds == [] then Sums(0, 0, 0, 0, 0)
    else
      var n := |ds| - 1;
      Total(ds[..n], ts[..n]).Plus(Share(ds[n], ts[n]))
  }

  lemma {:induction false} TotalReplace(ds: seq<Deposit>, ts: seq<Trace>, i: nat, d: Deposit, tr: Trace)
    requires |ds| == |ts| && i < |ds|
    ensures Total(ds[i := d], ts[i := tr]) == Total(ds, ts).Minus(Share(ds[i], ts[i])).Plus(Share(d, tr))
  {
    var n := |ds| - 1;
    if i < n {
      TotalReplace(ds[..n], ts[..n], i, d, tr);
      assert ds[i := d][..n] == ds[..n][i := d] && ts[i := tr][..n] == ts[..n][i := tr];
    } else {
      assert ds[i := d][..n] == ds[..n] && ts[i := tr][..n] == ts[..n];
    }
  }

  lemma TotalAppend(ds: seq<Deposit>, ts: seq<Trace>, d: Deposit, tr: Trace)
    requires |ds| == |ts|
    ensures Total(ds + [d], ts + [tr]) == Total(ds, ts).Plus(Share(d, tr))
  {
    assert (ds + [d])[..|ds|] == ds && (ts + [tr])[..|ts|] == ts;
  }

  // ---- The invariant -------------------------------------------------------------------------

  ghost predicate DepositOk(d: Deposit, tr: Trace, clock: int, lastUnlock: int) {
    && d.depositedAt <= clock
    && (if tr.unlocks == 0 then 0 <= d.withdrawn <= d.VestedAt(clock) && tr == Trace(d.withdrawn, 0, 0, 0)
        else
          && d.withdrawn == d.amount && d.depositedAt <= lastUnlock
          && 0 <= tr.stranded && tr.paid + tr.stranded == d.amount + tr.excess
          && 0 <= tr.excess && (tr.excess > 0 <==> tr.unlocks >= 2)
          && (tr.unlocks >= 2 ==> d.tier.Span() > EARLY_UNLOCK_COOLDOWN_SECS))
  }

  ghost predicate Inv(w: World) {
    && w.tokens.Valid()
    && |w.traces| == |w.v.deposits|
    && w.v.lastEarlyUnlock <= w.clock
    && (forall i :: 0 <= i < |w.traces| ==> DepositOk(w.v.deposits[i], w.traces[i], w.clock, w.v.lastEarlyUnlock))
    && w.v.totalDeposited == Total(w.v.deposits, w.traces).amount
    && w.v.totalWithdrawn + w.v.totalBurned == Total(w.v.deposits, w.traces).paid
    && 0 <= w.v.totalWithdrawn && 0 <= w.v.totalBurned && w.v.totalDeposited <= U64_MAX
  }

  lemma DepositStays(d: Deposit, tr: Trace, clock: int, last: int, clock': int, last': int)
    requires DepositOk(d, tr, clock, last) && clock <= clock' && last <= last'
    ensures DepositOk(d, tr, clock', last')
  {
    VestedMonotone(d.amount, clock - d.depositedAt, clock' - d.depositedAt, d.tier);
  }

  lemma DepositWithdrawn(d: Deposit, tr: Trace, clock: int, last: int)
    requires DepositOk(d, tr, clock, last) && d.VestedAt(clock) > d.withdrawn
    ensures tr.unlocks == 0
    ensures DepositOk(d.(withdrawn := d.VestedAt(clock)), AfterWithdraw(d, tr, clock), clock, last)
  {
    VestedWithin(d.amount, clock - d.depositedAt, d.tier);
  }

  /** An accepted early unlock: the cooldown has passed and something is still locked. */
  lemma DepositUnlocked(d: Deposit, tr: Trace, clock: int, last: int)
    requires DepositOk(d, tr, clock, last) && clock - last >= EARLY_UNLOCK_COOLDOWN_SECS && d.LockedAt(clock) > 0
    ensures DepositOk(d.(withdrawn := d.amount), AfterUnlock(d, tr, clock), clock, clock)
    ensures tr.unlocks == 0 <==> d.withdrawn < d.amount
  {
    VestedWithin(d.amount, clock - d.depositedAt, d.tier);
  }

  lemma StepKeepsInv(w: World, a: Action)
    requires Inv(w)
    ensures Inv(Step(w, a))
  {
    match a
    case Tick(n) => TickKeepsInv(w, n);
    case Upgrade(s, next) => UpgradeKeepsInv(w, s, next);
    case Record(amount) => RecordKeepsInv(w, amount);
    case Withdraw(s, id, to) => WithdrawStepKeepsInv(w, s, id, to);
    case Unlock(s, id, to) => UnlockStepKeepsInv(w, s, id, to);
    case _ => OutsideKeepsInv(w, a);
  }

  lemma WithdrawStepKeepsInv(w: World, s: Key, id: u64, to: Account)
    requires Inv(w)
    ensures Inv(Step(w, Withdraw(s, id, to)))
  {
    if WithdrawUnlocked(w.v, w.tokens, s, id, w.clock, to).Ok? { WithdrawKeepsInv(w, s, id, to); }
  }

  lemma UnlockStepKeepsInv(w: World, s: Key, id: u64, to: Account)
    requires Inv(w)
    ensures Inv(Step(w, Unlock(s, id, to)))
  {
    var result := EarlyUnlock(w.v, w.tokens, s, id, w.clock, to);
    if result.Ok? { UnlockKeepsInv(w, s, id, to, result.value.0, result.value.1); }
  }

  lemma OutsideKeepsInv(w: World, a: Action)
    requires Inv(w) && (a.OutsideMint? || a.OutsideTransfer? || a.OutsideBurn?)
    ensures Inv(Step(w, a))
  {
    OutsideSparesVault(w, a);
  }

  lemma TickKeepsInv(w: World, n: nat)
    requires Inv(w)
    ensures Inv(Step(w, Tick(n)))
  {
    var clock := Step(w, Tick(n)).clock;
    forall i | 0 <= i < |w.traces| ensures DepositOk(w.v.deposits[i], w.traces[i], clock, w.v.lastEarlyUnlock) {
      DepositStays(w.v.deposits[i], w.traces[i], w.clock, w.v.lastEarlyUnlock, clock, w.v.lastEarlyUnlock);
    }
  }

  lemma UpgradeKeepsInv(w: World, s: Key, next: Tier)
    requires Inv(w)
    ensures Inv(Step(w, Upgrade(s, next)))
  {}

  /** Nobody else can take tokens out of the vault. */
  lemma OutsideSparesVault(w: World, a: Action)
    requires Inv(w) && (a.OutsideMint? || a.OutsideTransfer? || a.OutsideBurn?)
    ensures var w' := Step(w, a);
            && w' == w.(tokens := w'.tokens) && w'.tokens.Valid()
            && w'.tokens.Balance(w.v.Vault()) >= w.tokens.Balance(w.v.Vault())
  {
    match a
    case OutsideMint(s, to, n) => if w.tokens.MintTo(s, to, n).Some? { MintToConserves(w.tokens, s, to, n); }
    case OutsideTransfer(s, from, to, n) =>
      if w.tokens.Transfer(s, from, to, n).Some? { TransferConserves(w.tokens, s, from, to, n); }
    case OutsideBurn(s, from, n) => if w.tokens.Burn(s, from, n).Some? { BurnConserves(w.tokens, s, from, n); }
  }

  lemma RecordKeepsInv(w: World, amount: u64)
    requires Inv(w)
    ensures Inv(Step(w, Record(amount)))
  {
    var d, tr := Deposit(amount, 0, w.clock, w.v.tier), Trace(0, 0, 0, 0);
    TotalAppend(w.v.deposits, w.traces, d, tr);
    VestedWithin(amount, 0, w.v.tier);
  }

  /** A step that changes one deposit and counts what it pays for it. */
  lemma OneDeposit(w: World, w': World, i: nat, d: Deposit, tr: Trace)
    requires Inv(w) && i < |w.traces| && DepositOk(d, tr, w.clock, w'.v.lastEarlyUnlock)
    requires d.amount == w.v.deposits[i].amount && w'.clock == w.clock && w'.tokens.Valid()
    requires w'.v.deposits == w.v.deposits[i := d] && w'.traces == w.traces[i := tr]
    requires w'.v.totalDeposited == w.v.totalDeposited && w.v.lastEarlyUnlock <= w'.v.lastEarlyUnlock <= w.clock
    requires w.v.totalWithdrawn <= w'.v.totalWithdrawn && w.v.totalBurned <= w'.v.totalBurned
    requires w'.v.totalWithdrawn + w'.v.totalBurned - w.v.totalWithdrawn - w.v.totalBurned == tr.paid - w.traces[i].paid
    ensures Inv(w')
  {
    TotalReplace(w.v.deposits, w.traces, i, d, tr);
    forall j | 0 <= j < |w.traces| && j != i
      ensures DepositOk(w.v.deposits[j], w.traces[j], w.clock, w'.v.lastEarlyUnlock)
    {
      DepositStays(w.v.deposits[j], w.traces[j], w.clock, w.v.lastEarlyUnlock, w.clock, w'.v.lastEarlyUnlock);
    }
  }

  lemma UnlockedAmounts(locked: u64)
    ensures 0 <= Penalty(locked) <= locked
  {
    PenaltyIsHalf(locked);
  }

  /** What leaves the vault for deposit `id` leaves the vault's balance, and nothing else does. */
  lemma PayLeavesVault(v: Provider, t: Tokens, to: Account, amount: int, t': Tokens)
    requires t.Valid() && Pay(v, t, to, amount) == Some(t')
    ensures t'.Valid() && t'.Balance(v.Vault()) >= t.Balance(v.Vault()) - amount
  {
    TransferConserves(t, v.Authority(), v.Vault(), to, amount);
  }

  lemma SettleLeavesVault(v: Provider, t: Tokens, to: Account, penalty: nat, payout: nat, t': Tokens)
    requires t.Valid() && Settle(v, t, to, penalty, payout) == Some(t')
    ensures t'.Valid() && t'.Balance(v.Vault()) >= t.Balance(v.Vault()) - penalty - payout
  {
    var burned := if penalty > 0 then Destroy(v, t, penalty) else Some(t);
    if penalty > 0 { BurnConserves(t, v.Authority(), v.Vault(), penalty); }
    if payout > 0 { PayLeavesVault(v, burned.value, to, payout, t'); }
  }

  lemma WithdrawKeepsInv(w: World, s: Key, id: u64, to: Account)
    requires Inv(w) && WithdrawUnlocked(w.v, w.tokens, s, id, w.clock, to).Ok?
    ensures Inv(Step(w, Withdraw(s, id, to)))
  {
    var (v', t') := WithdrawUnlocked(w.v, w.tokens, s, id, w.clock, to).value;
    var d, tr := w.v.deposits[id - 1], w.traces[id - 1];
    PayLeavesVault(w.v, w.tokens, to, d.VestedAt(w.clock) - d.withdrawn, t');
    DepositWithdrawn(d, tr, w.clock, w.v.lastEarlyUnlock);
    var d', tr' := d.(withdrawn := d.VestedAt(w.clock)), AfterWithdraw(d, tr, w.clock);
    OneDeposit(w, Step(w, Withdraw(s, id, to)), id - 1, d', tr');
  }

  /** What an accepted early unlock does, deposit and vault. */
  lemma UnlockEffect(w: World, s: Key, id: u64, to: Account, v': Provider, t': Tokens) returns (locked: nat)
    requires Inv(w) && EarlyUnlock(w.v, w.tokens, s, id, w.clock, to) == Result.Ok((v', t'))
    ensures 1 <= id <= |w.traces| && locked == w.v.deposits[id - 1].LockedAt(w.clock) > 0
    ensures v' == Consumed(w.v, id, w.clock, Penalty(locked), locked - Penalty(locked))
    ensures w.clock - w.v.lastEarlyUnlock >= EARLY_UNLOCK_COOLDOWN_SECS
    ensures t'.Valid() && t'.Balance(w.v.Vault()) >= w.tokens.Balance(w.v.Vault()) - locked
  {
    var d := w.v.deposits[id - 1];
    locked := d.LockedAt(w.clock);
    VestedWithin(d.amount, w.clock - d.depositedAt, d.tier);
    PenaltyIsHalf(locked);
    SettleLeavesVault(w.v, w.tokens, to, Penalty(locked), locked - Penalty(locked), t');
  }

  lemma UnlockKeepsInv(w: World, s: Key, id: u64, to: Account, v': Provider, t': Tokens)
    requires Inv(w) && EarlyUnlock(w.v, w.tokens, s, id, w.clock, to) == Result.Ok((v', t'))
    ensures var tr := AfterUnlock(w.v.deposits[id - 1], w.traces[id - 1], w.clock);
            Inv(World(w.clock, t', v', w.traces[id - 1 := tr]))
  {
    var locked := UnlockEffect(w, s, id, to, v', t');
    var d, tr := w.v.deposits[id - 1], w.traces[id - 1];
    var d', tr' := d.(withdrawn := d.amount), AfterUnlock(d, tr, w.clock);
    DepositUnlocked(d, tr, w.clock, w.v.lastEarlyUnlock);
    UnlockedAmounts(locked);
    OneDeposit(w, World(w.clock, t', v', w.traces[id - 1 := tr']), id - 1, d', tr');
  }

  /** A world before the provider's first instruction. */
  ghost predicate Fresh(w: World) {
    w.tokens.Valid() && w.v == Provider(w.v.id, w.v.tier, [], 0, 0, 0, 0) && w.traces == []
  }

  ghost function Run(w: World, actions: seq<Action>): (w': World)
    requires Inv(w)
    ensures Inv(w')
    decreases |actions|, 0
  {
    if actions == [] then w else RunOn(w, actions[..|actions| - 1], actions[|actions| - 1])
  }

  /** One action after a run. */
  ghost function RunOn(w: World, actions: seq<Action>, a: Action): (w': World)
    requires Inv(w)
    ensures Inv(w')
    decreases |actions|, 1
  {
    StepKeepsInv(Run(w, actions), a);
    Step(Run(w, actions), a)
  }

  // ---- Conservation --------------------------------------------------------------------------

  predicate UnlockedAtMostOnce(w: World) {
    forall i :: 0 <= i < |w.traces| ==> w.traces[i].unlocks <= 1
  }

  lemma {:induction false} SharesAddUp(ds: seq<Deposit>, ts: seq<Trace>, clock: int, last: int)
    requires |ds| == |ts| && forall i :: 0 <= i < |ds| ==> DepositOk(ds[i], ts[i], clock, last)
    ensures var s := Total(ds, ts);
            && s.amount + s.excess == s.paid + s.unpaid + s.stranded
            && 0 <= s.unpaid && 0 <= s.stranded && 0 <= s.excess
            && (s.excess == 0 <==> forall i :: 0 <= i < |ts| ==> ts[i].unlocks <= 1)
            && (forall i :: 0 <= i < |ds| ==> Share(ds[i], ts[i]).unpaid <= s.unpaid)
  {
    if ds != [] {
      var n := |ds| - 1;
      SharesAddUp(ds[..n], ts[..n], clock, last);
      assert DepositOk(ds[n], ts[n], clock, last);
      VestedWithin(ds[n].amount, clock - ds[n].depositedAt, ds[n].tier);
      assert forall i :: 0 <= i < n ==> ts[..n][i] == ts[i] && ds[..n][i] == ds[i];
    }
  }

  /** Conservation over every run: what was deposited is what was withdrawn, burned, not yet paid, or
      left behind vested-but-unclaimed by an early unlock, exactly when no deposit was unlocked early
      twice. */
  lemma Conservation(w: World, actions: seq<Action>)
    requires Fresh(w)
    ensures Inv(w)
    ensures var w' := Run(w, actions);
            var s := Total(w'.v.deposits, w'.traces);
            (w'.v.totalDeposited == w'.v.totalWithdrawn + w'.v.totalBurned + s.unpaid + s.stranded
             <==> UnlockedAtMostOnce(w'))
  {
    var w' := Run(w, actions);
    SharesAddUp(w'.v.deposits, w'.traces, w'.clock, w'.v.lastEarlyUnlock);
  }

  /** A deposit whose schedule is no longer than the cooldown (Standard, Loyalty) is never unlocked
      early twice, in any run. */
  lemma ShortTiersUnlockOnce(w: World, actions: seq<Action>, i: nat)
    requires Fresh(w) && Inv(w) && i < |Run(w, actions).v.deposits|
    requires Run(w, actions).v.deposits[i].tier in {Standard, Loyalty}
    ensures Run(w, actions).traces[i].unlocks <= 1
  {
    var w' := Run(w, actions);
    assert DepositOk(w'.v.deposits[i], w'.traces[i], w'.clock, w'.v.lastEarlyUnlock);
  }

  /** Whether an early unlock of `id` passes its checks: the cooldown has run, the deposit is not empty
      and its schedule has not ended; an earlier unlock of the same deposit does not matter. */
  lemma UnlockChecksExactly(w: World, id: u64, now: Time)
    requires Inv(w) && 1 <= id <= |w.traces| && w.clock <= now
    ensures var d := w.v.deposits[id - 1];
            LockedFor(w.v, User(w.v.id), id, now).Ok? <==>
            && now - w.v.lastEarlyUnlock >= EARLY_UNLOCK_COOLDOWN_SECS
            && d.amount > 0 && now - d.depositedAt < d.tier.Span()
  {
    var d := w.v.deposits[id - 1];
    VestedWithin(d.amount, now - d.depositedAt, d.tier);
  }

  /** What the vault and the checked sums must bear for an early unlock of `locked` units. */
  predicate Bears(w: World, locked: int) {
    && locked <= w.tokens.Balance(w.v.Vault())
    && w.v.totalWithdrawn + locked - locked / 2 <= U64_MAX && w.v.totalBurned + locked / 2 <= U64_MAX
  }

  lemma UnlockExactly(w: World, id: u64, to: Account)
    requires Inv(w) && 1 <= id <= |w.traces|
    ensures EarlyUnlock(w.v, w.tokens, User(w.v.id), id, w.clock, to).Ok? <==>
            LockedFor(w.v, User(w.v.id), id, w.clock).Ok? && Bears(w, w.v.deposits[id - 1].LockedAt(w.clock))
  {
    var d := w.v.deposits[id - 1];
    var locked := d.LockedAt(w.clock);
    VestedWithin(d.amount, w.clock - d.depositedAt, d.tier);
    if locked > 0 {
      PenaltyIsHalf(locked);
      SettleExactly(w.v, w.tokens, to, Penalty(locked), locked - Penalty(locked));
    }
  }

  lemma SettleExactly(v: Provider, t: Tokens, to: Account, penalty: nat, payout: nat)
    requires t.Valid() && penalty + payout <= U64_MAX && payout > 0
    ensures Settle(v, t, to, penalty, payout).Some? <==> penalty + payout <= t.Balance(v.Vault())
  {
    BalanceWithinSupply(t, v.Vault());
    var burned := Destroy(v, t, penalty);
    if penalty > 0 && burned.Some? { BurnConserves(t, v.Authority(), v.Vault(), penalty); }
  }

  /** Exactly when a deposit that was unlocked early can be unlocked early again and pays. */
  lemma RepeatUnlockExactly(w: World, id: u64, to: Account)
    requires Inv(w) && 1 <= id <= |w.traces| && w.traces[id - 1].unlocks > 0
    ensures var d := w.v.deposits[id - 1];
            var w' := Step(w, Unlock(User(w.v.id), id, to));
            w'.traces[id - 1].unlocks > w.traces[id - 1].unlocks <==>
            && w.clock - w.v.lastEarlyUnlock >= EARLY_UNLOCK_COOLDOWN_SECS
            && d.amount > 0 && w.clock - d.depositedAt < d.tier.Span()
            && Bears(w, d.LockedAt(w.clock))
  {
    UnlockChecksExactly(w, id, w.clock);
    UnlockExactly(w, id, to);
  }

  lemma RunPush(w: World, actions: seq<Action>, a: Action)
    requires Inv(w)
    ensures Run(w, actions + [a]) == Step(Run(w, actions), a)
  {
    assert (actions + [a])[..|actions|] == actions;
  }

  /** A run that does it under a tier whose schedule outlasts the cooldown: record, unlock, wait for one
      cooldown, unlock again. */
  lemma SecondUnlockPays(w: World, amount: u64, to: Account)
    requires Fresh(w) && Inv(w) && w.v.tier in {Conviction, Maximum}
    requires amount > 0 && 2 * amount <= w.tokens.Balance(w.v.Vault())
    requires EARLY_UNLOCK_COOLDOWN_SECS <= w.clock < 0x4000_0000_0000_0000 - EARLY_UNLOCK_COOLDOWN_SECS
    ensures var unlock := Unlock(User(w.v.id), 1, to);
            var w' := Run(w, [] + [Record(amount)] + [unlock] + [Tick(EARLY_UNLOCK_COOLDOWN_SECS)] + [unlock]);
            |w'.traces| == 1 && w'.traces[0].unlocks == 2 && w'.traces[0].excess > 0
  {
    var unlock := Unlock(User(w.v.id), 1, to);
    BalanceWithinSupply(w.tokens, w.v.Vault());
    var recorded := Step(w, Record(amount));
    StepKeepsInv(w, Record(amount));
    RunPush(w, [], Record(amount));
    var once := Step(recorded, unlock);
    FirstUnlock(recorded, amount, to);
    RunPush(w, [] + [Record(amount)], unlock);
    var later := Step(once, Tick(EARLY_UNLOCK_COOLDOWN_SECS));
    StepKeepsInv(once, Tick(EARLY_UNLOCK_COOLDOWN_SECS));
    RunPush(w, [] + [Record(amount)] + [unlock], Tick(EARLY_UNLOCK_COOLDOWN_SECS));
    SecondUnlock(later, amount, to);
    RunPush(w, [] + [Record(amount)] + [unlock] + [Tick(EARLY_UNLOCK_COOLDOWN_SECS)], unlock);
  }

  /** A provider with one deposit. */
  predicate Single(w: World, amount: u64, unlocks: nat) {
    |w.v.deposits| == |w.traces| == 1 && w.v.deposits[0].amount == amount && w.traces[0].unlocks == unlocks
  }

  lemma FirstUnlock(w: World, amount: u64, to: Account)
    requires Inv(w) && Single(w, amount, 0) && amount > 0 && 2 * amount <= w.tokens.Balance(w.v.Vault())
    requires w.v.deposits[0] == Deposit(amount, 0, w.clock, w.v.deposits[0].tier)
    requires w.v.lastEarlyUnlock == 0 && w.clock >= EARLY_UNLOCK_COOLDOWN_SECS
    ensures var w' := Step(w, Unlock(User(w.v.id), 1, to));
            && Inv(w') && Single(w', amount, 1) && w'.clock == w.clock == w'.v.lastEarlyUnlock
            && w'.v == w.v.(deposits := w'.v.deposits, totalWithdrawn := w'.v.totalWithdrawn,
                            totalBurned := w'.v.totalBurned, lastEarlyUnlock := w.clock)
            && w'.v.deposits[0] == Deposit(amount, amount, w.clock, w.v.deposits[0].tier)
            && amount <= w'.tokens.Balance(w.v.Vault()) && 2 * amount <= U64_MAX
  {
    var user := User(w.v.id);
    SingleTotals(w, amount);
    BalanceWithinSupply(w.tokens, w.v.Vault());
    UnlockChecksExactly(w, 1, w.clock);
    UnlockExactly(w, 1, to);
    var result := EarlyUnlock(w.v, w.tokens, user, 1, w.clock, to);
    var locked := UnlockEffect(w, user, 1, to, result.value.0, result.value.1);
    StepKeepsInv(w, Unlock(user, 1, to));
  }

  lemma SingleTotals(w: World, amount: u64)
    requires Inv(w) && |w.v.deposits| == 1
    ensures w.v.totalWithdrawn + w.v.totalBurned == w.traces[0].paid
  {
    assert Total(w.v.deposits[..0], w.traces[..0]) == Sums(0, 0, 0, 0, 0);
  }

  lemma SecondUnlock(w: World, amount: u64, to: Account)
    requires Inv(w) && Single(w, amount, 1) && amount > 0 && w.v.deposits[0].tier in {Conviction, Maximum}
    requires w.v.deposits[0].depositedAt == w.v.lastEarlyUnlock == w.clock - EARLY_UNLOCK_COOLDOWN_SECS
    requires amount <= w.tokens.Balance(w.v.Vault()) && 2 * amount <= U64_MAX
    ensures var w' := Step(w, Unlock(User(w.v.id), 1, to));
            |w'.traces| == 1 && w'.traces[0].unlocks == 2 && w'.traces[0].excess > 0
  {
    var d := w.v.deposits[0];
    SingleTotals(w, amount);
    assert DepositOk(d, w.traces[0], w.clock, w.v.lastEarlyUnlock);
    VestedWithin(amount, EARLY_UNLOCK_COOLDOWN_SECS, d.tier);
    RepeatUnlockExactly(w, 1, to);
    StepKeepsInv(w, Unlock(User(w.v.id), 1, to));
  }

  lemma UnlocksStay(w: World, a: Action, id: u64)
    requires Inv(w) && 1 <= id <= |w.traces|
    ensures var ts := Step(w, a).traces;
            |w.traces| <= |ts| && w.traces[id - 1].unlocks <= ts[id - 1].unlocks
  {}

  /** No run takes an early unlock back. */
  lemma {:induction false} UnlocksNeverFall(w: World, actions: seq<Action>, id: u64)
    requires Inv(w) && 1 <= id <= |w.traces|
    ensures var ts := Run(w, actions).traces;
            |w.traces| <= |ts| && w.traces[id - 1].unlocks <= ts[id - 1].unlocks
  {
    if actions != [] {
      UnlocksNeverFall(w, actions[..|actions| - 1], id);
      UnlocksStay(Run(w, actions[..|actions| - 1]), actions[|actions| - 1], id);
    }
  }

  /** Once unlocked early, a deposit pays no withdrawal after any run, whoever asks, at whatever time. */
  lemma NoWithdrawAfterUnlock(w: World, actions: seq<Action>, id: u64, s: Key, now: Time, t: Tokens, to: Account)
    requires Inv(w) && 1 <= id <= |w.traces| && w.traces[id - 1].unlocks > 0
    ensures WithdrawUnlocked(Run(w, actions).v, t, s, id, now, to).Err?
  {
    UnlocksNeverFall(w, actions, id);
    var w' := Run(w, actions);
    var d := w'.v.deposits[id - 1];
    assert DepositOk(d, w'.traces[id - 1], w'.clock, w'.v.lastEarlyUnlock);
    VestedWithin(d.amount, now - d.depositedAt, d.tier);
  }

  lemma StepKeepsTerms(w: World, a: Action, i: nat)
    requires Inv(w) && i < |w.v.deposits|
    ensures var ds := Step(w, a).v.deposits;
            |w.v.deposits| <= |ds| && ds[i] == w.v.deposits[i].(withdrawn := ds[i].withdrawn)
  {}

  /** A recorded deposit keeps its amount, start and tier for good, whatever the provider upgrades to. */
  lemma {:induction false} DepositTermsNeverChange(w: World, actions: seq<Action>, i: nat)
    requires Inv(w) && i < |w.v.deposits|
    ensures var w' := Run(w, actions);
            && |w.v.deposits| <= |w'.v.deposits|
            && w'.v.deposits[i] == w.v.deposits[i].(withdrawn := w'.v.deposits[i].withdrawn)
  {
    if actions != [] {
      DepositTermsNeverChange(w, actions[..|actions| - 1], i);
      StepKeepsTerms(Run(w, actions[..|actions| - 1]), actions[|actions| - 1], i);
    }
  }

  /** However many withdrawals came before, a successful one brings the total paid for the deposit up
      to exactly what has vested by then. */
  lemma WithdrawCatchesUp(w: World, s: Key, id: u64, to: Account)
    requires Inv(w) && WithdrawUnlocked(w.v, w.tokens, s, id, w.clock, to).Ok?
    ensures var w' := Step(w, Withdraw(s, id, to));
            w'.traces[id - 1].paid == w.v.deposits[id - 1].VestedAt(w.clock)
  {
    var d, tr := w.v.deposits[id - 1], w.traces[id - 1];
    assert DepositOk(d, tr, w.clock, w.v.lastEarlyUnlock);
    DepositWithdrawn(d, tr, w.clock, w.v.lastEarlyUnlock);
  }
}
