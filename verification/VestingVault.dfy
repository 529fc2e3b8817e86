/** Careful runs of the vesting program: the vault is never short, and withdrawals telescope. */
module VestingVault {
  import opened Integers
  import opened TokenLedger
  import opened VestingSchedule
  import opened Vesting
  import opened VestingRun

  /** What the vault has to hold. */
  function Reserved(w: World): int
    requires |w.traces| == |w.v.deposits|
  {
    Total(w.v.deposits, w.traces).unpaid + Total(w.v.deposits, w.traces).stranded
  }

  ghost predicate Covered(w: World) {
    Inv(w) && Reserved(w) <= w.tokens.Balance(w.v.Vault()) && UnlockedAtMostOnce(w)
  }

  /** What the callers owe: tokens are in the vault before a deposit is recorded, and an early unlock
      is asked only for a deposit with something left to withdraw. */
  predicate Careful(w: World, a: Action)
    requires |w.traces| == |w.v.deposits|
  {
    match a
    case Record(amount) => Reserved(w) + amount <= w.tokens.Balance(w.v.Vault())
    case Unlock(_, id, _) =>
      1 <= id <= |w.v.deposits| ==> w.v.deposits[id - 1].withdrawn < w.v.deposits[id - 1].amount
    case _ => true
  }

  ghost predicate CarefulRun(w: World, actions: seq<Action>)
    requires Inv(w)
  {
    actions == [] ||
    (CarefulRun(w, actions[..|actions| - 1]) && Careful(Run(w, actions[..|actions| - 1]), actions[|actions| - 1]))
  }

  // ---- Steps ---------------------------------------------------------------------------------

  lemma StepKeepsCovered(w: World, a: Action)
    requires Covered(w) && Careful(w, a)
    ensures Covered(Step(w, a))
  {
    StepKeepsInv(w, a);
    match a
    case Tick(n) => SameDeposits(w, Step(w, a));
    case Upgrade(s, next) => SameDeposits(w, Step(w, a));
    case Record(amount) => RecordKeepsCovered(w, amount);
    case Withdraw(s, id, to) => WithdrawStepKeepsCovered(w, s, id, to);
    case Unlock(s, id, to) => UnlockStepKeepsCovered(w, s, id, to);
    case _ => OutsideKeepsCovered(w, a);
  }

  lemma WithdrawStepKeepsCovered(w: World, s: Key, id: u64, to: Account)
    requires Covered(w) && Inv(Step(w, Withdraw(s, id, to)))
    ensures Covered(Step(w, Withdraw(s, id, to)))
  {
    if WithdrawUnlocked(w.v, w.tokens, s, id, w.clock, to).Ok? { WithdrawKeepsCovered(w, s, id, to); }
  }

  lemma UnlockStepKeepsCovered(w: World, s: Key, id: u64, to: Account)
    requires Covered(w) && Careful(w, Unlock(s, id, to))
    ensures Covered(Step(w, Unlock(s, id, to)))
  {
    var result := EarlyUnlock(w.v, w.tokens, s, id, w.clock, to);
    if result.Ok? { UnlockKeepsCovered(w, s, id, to, result.value.0, result.value.1); }
  }

  lemma OutsideKeepsCovered(w: World, a: Action)
    requires Covered(w) && (a.OutsideMint? || a.OutsideTransfer? || a.OutsideBurn?) && Inv(Step(w, a))
    ensures Covered(Step(w, a))
  {
    OutsideSparesVault(w, a);
    SameDeposits(w, Step(w, a));
  }

  /** A step that touches no deposit and takes nothing from the vault. */
  lemma SameDeposits(w: World, w': World)
    requires Covered(w) && Inv(w') && w'.v.id == w.v.id
    requires w'.v.deposits == w.v.deposits && w'.traces == w.traces
    requires w'.tokens.Balance(w.v.Vault()) >= w.tokens.Balance(w.v.Vault())
    ensures Covered(w')
  {}

  lemma RecordKeepsCovered(w: World, amount: u64)
    requires Covered(w) && Careful(w, Record(amount)) && Inv(Step(w, Record(amount)))
    ensures Covered(Step(w, Record(amount)))
  {
    if RecordDeposit(w.v, w.clock, amount).Ok? {
      DepositAdded(w, Step(w, Record(amount)), Deposit(amount, 0, w.clock, w.v.tier), Trace(0, 0, 0, 0));
    }
  }

  /** A step that adds a deposit for which the vault has room. */
  lemma DepositAdded(w: World, w': World, d: Deposit, tr: Trace)
    requires Covered(w) && Inv(w') && tr.unlocks <= 1 && w'.tokens == w.tokens && w'.v.id == w.v.id
    requires w'.v.deposits == w.v.deposits + [d] && w'.traces == w.traces + [tr]
    requires Reserved(w) + Share(d, tr).unpaid + Share(d, tr).stranded <= w.tokens.Balance(w.v.Vault())
    ensures Covered(w')
  {
    TotalAppend(w.v.deposits, w.traces, d, tr);
  }

  /** A step that changes one deposit and takes from the vault no more than that deposit reserves less. */
  lemma DepositPaid(w: World, w': World, i: nat, d: Deposit, tr: Trace)
    requires Covered(w) && Inv(w') && i < |w.traces| && tr.unlocks <= 1
    requires w'.v.deposits == w.v.deposits[i := d] && w'.traces == w.traces[i := tr] && w'.v.id == w.v.id
    requires var was, now := Share(w.v.deposits[i], w.traces[i]), Share(d, tr);
             w'.tokens.Balance(w.v.Vault()) - w.tokens.Balance(w.v.Vault())
               >= now.unpaid + now.stranded - was.unpaid - was.stranded
    ensures Covered(w')
  {
    TotalReplace(w.v.deposits, w.traces, i, d, tr);
  }

  lemma WithdrawKeepsCovered(w: World, s: Key, id: u64, to: Account)
    requires Covered(w) && WithdrawUnlocked(w.v, w.tokens, s, id, w.clock, to).Ok?
    requires Inv(Step(w, Withdraw(s, id, to)))
    ensures Covered(Step(w, Withdraw(s, id, to)))
  {
    var (v', t') := WithdrawUnlocked(w.v, w.tokens, s, id, w.clock, to).value;
    var d, tr := w.v.deposits[id - 1], w.traces[id - 1];
    PayLeavesVault(w.v, w.tokens, to, d.VestedAt(w.clock) - d.withdrawn, t');
    DepositWithdrawn(d, tr, w.clock, w.v.lastEarlyUnlock);
    var d', tr' := d.(withdrawn := d.VestedAt(w.clock)), AfterWithdraw(d, tr, w.clock);
    DepositPaid(w, Step(w, Withdraw(s, id, to)), id - 1, d', tr');
  }

  lemma UnlockKeepsCovered(w: World, s: Key, id: u64, to: Account, v': Provider, t': Tokens)
    requires Covered(w) && EarlyUnlock(w.v, w.tokens, s, id, w.clock, to) == Result.Ok((v', t'))
    requires w.v.deposits[id - 1].withdrawn < w.v.deposits[id - 1].amount
    ensures var tr := AfterUnlock(w.v.deposits[id - 1], w.traces[id - 1], w.clock);
            Covered(World(w.clock, t', v', w.traces[id - 1 := tr]))
  {
    var locked := UnlockEffect(w, s, id, to, v', t');
    var d, tr := w.v.deposits[id - 1], w.traces[id - 1];
    DepositUnlocked(d, tr, w.clock, w.v.lastEarlyUnlock);
    UnlockKeepsInv(w, s, id, to, v', t');
    var d', tr' := d.(withdrawn := d.amount), AfterUnlock(d, tr, w.clock);
    UnlockShare(d, tr, w.clock, locked);
    DepositPaid(w, World(w.clock, t', v', w.traces[id - 1 := tr']), id - 1, d', tr');
  }

  /** A first early unlock gives up the locked part and leaves the vested part it did not pay. */
  lemma UnlockShare(d: Deposit, tr: Trace, clock: int, locked: int)
    requires tr.unlocks == 0 && tr.stranded == 0 && locked == d.LockedAt(clock)
    ensures var was, now := Share(d, tr), Share(d.(withdrawn := d.amount), AfterUnlock(d, tr, clock));
            now.unpaid + now.stranded == was.unpaid + was.stranded - locked
  {}

  lemma {:induction false} CarefulRunCovered(w: World, actions: seq<Action>)
    requires Fresh(w) && Inv(w) && CarefulRun(w, actions)
    ensures Covered(Run(w, actions))
  {
    if actions == [] {
      BalanceWithinSupply(w.tokens, w.v.Vault());
    } else {
      CarefulRunCovered(w, actions[..|actions| - 1]);
      StepKeepsCovered(Run(w, actions[..|actions| - 1]), actions[|actions| - 1]);
    }
  }

  // ---- Nothing is refused --------------------------------------------------------------------

  /** Room for everything a deposit can still be paid, in the vault and in the checked sums. */
  lemma RoomForDeposit(w: World, id: u64)
    requires Covered(w) && 1 <= id <= |w.traces|
    ensures var d := w.v.deposits[id - 1];
            var open := d.amount - d.withdrawn;
            && 0 <= open <= w.tokens.Balance(w.v.Vault())
            && w.v.totalWithdrawn + open <= U64_MAX && w.v.totalBurned + open <= U64_MAX
  {
    var d, tr := w.v.deposits[id - 1], w.traces[id - 1];
    assert DepositOk(d, tr, w.clock, w.v.lastEarlyUnlock);
    VestedWithin(d.amount, w.clock - d.depositedAt, d.tier);
    SharesAddUp(w.v.deposits, w.traces, w.clock, w.v.lastEarlyUnlock);
    assert Share(d, tr).unpaid <= Total(w.v.deposits, w.traces).unpaid;
  }

  /** The provider's withdrawal, completely: it pays what has vested and was not withdrawn, and is
      refused exactly when that is nothing. */
  lemma WithdrawExactly(w: World, id: u64, to: Account)
    requires Covered(w) && 1 <= id <= |w.traces|
    ensures var d := w.v.deposits[id - 1];
            var due := d.VestedAt(w.clock) - d.withdrawn;
            match WithdrawUnlocked(w.v, w.tokens, User(w.v.id), id, w.clock, to)
            case Ok(next) =>
              && due > 0 && next.0.totalWithdrawn == w.v.totalWithdrawn + due
              && (to != w.v.Vault() ==> next.1.Balance(to) == w.tokens.Balance(to) + due)
            case Err(e) => due <= 0 && (w.traces[id - 1].unlocks == 0 ==> due == 0 && e == NothingToWithdraw)
  {
    var d := w.v.deposits[id - 1];
    var due := d.VestedAt(w.clock) - d.withdrawn;
    assert DepositOk(d, w.traces[id - 1], w.clock, w.v.lastEarlyUnlock);
    VestedWithin(d.amount, w.clock - d.depositedAt, d.tier);
    RoomForDeposit(w, id);
    if due > 0 { TransferConserves(w.tokens, w.v.Authority(), w.v.Vault(), to, due); }
  }

  /** A careful early unlock is refused only by its own checks. */
  lemma CarefulUnlockExactly(w: World, id: u64, to: Account)
    requires Covered(w) && 1 <= id <= |w.traces| && Careful(w, Unlock(User(w.v.id), id, to))
    ensures EarlyUnlock(w.v, w.tokens, User(w.v.id), id, w.clock, to).Ok? <==>
            LockedFor(w.v, User(w.v.id), id, w.clock).Ok?
  {
    var d := w.v.deposits[id - 1];
    assert DepositOk(d, w.traces[id - 1], w.clock, w.v.lastEarlyUnlock);
    RoomForDeposit(w, id);
    UnlockExactly(w, id, to);
  }

  /** On a careful run the vault covers everything still owed; the provider's withdrawal succeeds
      exactly when more has vested than was withdrawn, and a careful early unlock exactly when its
      checks pass: no transfer, burn or checked sum ever fails. */
  lemma VaultNeverShort(w: World, actions: seq<Action>, id: u64, to: Account)
    requires Fresh(w) && Inv(w) && CarefulRun(w, actions)
    ensures var w' := Run(w, actions);
            var user := User(w'.v.id);
            && Reserved(w') <= w'.tokens.Balance(w'.v.Vault()) && UnlockedAtMostOnce(w')
            && (1 <= id <= |w'.v.deposits| ==>
                  && (WithdrawUnlocked(w'.v, w'.tokens, user, id, w'.clock, to).Ok? <==>
                      w'.v.deposits[id - 1].VestedAt(w'.clock) > w'.v.deposits[id - 1].withdrawn)
                  && (Careful(w', Unlock(user, id, to)) ==>
                        (EarlyUnlock(w'.v, w'.tokens, user, id, w'.clock, to).Ok? <==>
                         LockedFor(w'.v, user, id, w'.clock).Ok?)))
  {
    CarefulRunCovered(w, actions);
    var w' := Run(w, actions);
    if 1 <= id <= |w'.v.deposits| {
      WithdrawExactly(w', id, to);
      if Careful(w', Unlock(User(w'.v.id), id, to)) { CarefulUnlockExactly(w', id, to); }
    }
  }

  // ---- Withdrawals telescope -----------------------------------------------------------------

  predicate Attempts(w: World, a: Action, id: u64)
  {
    a.Withdraw? && a.signer == User(w.v.id) && a.depositId == id && 1 <= id <= |w.v.deposits|
  }

  /** When the provider last tried to withdraw from the deposit, successfully or not. */
  ghost function LatestAttempt(w: World, actions: seq<Action>, id: u64): Option<Time>
    requires Inv(w)
  {
    if actions == [] then None
    else
      var before := Run(w, actions[..|actions| - 1]);
      if Attempts(before, actions[|actions| - 1], id) then Some(before.clock)
      else LatestAttempt(w, actions[..|actions| - 1], id)
  }

  /** An attempt brings the total paid for the deposit up to what has vested. */
  lemma AttemptCatchesUp(w: World, id: u64, to: Account)
    requires Covered(w) && 1 <= id <= |w.traces| && w.traces[id - 1].unlocks == 0
    ensures Step(w, Withdraw(User(w.v.id), id, to)).traces[id - 1].paid == w.v.deposits[id - 1].VestedAt(w.clock)
  {
    var d, tr := w.v.deposits[id - 1], w.traces[id - 1];
    assert DepositOk(d, tr, w.clock, w.v.lastEarlyUnlock);
    WithdrawExactly(w, id, to);
  }

  /** Any other step leaves the total paid for a deposit alone, unless it unlocks it. */
  lemma OthersPayNothing(w: World, a: Action, id: u64)
    requires Covered(w) && 1 <= id <= |w.traces| && !Attempts(w, a, id)
    requires Step(w, a).traces[id - 1].unlocks == 0
    ensures w.traces[id - 1].unlocks == 0 && Step(w, a).traces[id - 1].paid == w.traces[id - 1].paid
  {}

  /** What the deposit has been paid is what had vested at `latest`. */
  predicate PaidUp(w: World, latest: Option<Time>, id: u64)
    requires |w.traces| == |w.v.deposits|
  {
    if id > |w.v.deposits| then latest == None
    else id >= 1 && w.traces[id - 1].unlocks == 0 ==>
           w.traces[id - 1].paid == if latest.None? then 0 else w.v.deposits[id - 1].VestedAt(latest.value)
  }

  lemma PaidUpStep(w: World, a: Action, latest: Option<Time>, id: u64)
    requires Covered(w) && 1 <= id <= |w.traces| && PaidUp(w, latest, id) && Inv(Step(w, a))
    ensures PaidUp(Step(w, a), if Attempts(w, a, id) then Some(w.clock) else latest, id)
  {
    var w' := Step(w, a);
    StepPays(w, w', a, id);
    PaidUpKept(w, w', Attempts(w, a, id), latest, id);
  }

  lemma StepPays(w: World, w': World, a: Action, id: u64)
    requires Covered(w) && 1 <= id <= |w.traces| && w' == Step(w, a) && |w'.traces| == |w'.v.deposits|
    ensures |w'.traces| >= |w.traces|
    ensures w'.v.deposits[id - 1] == w.v.deposits[id - 1].(withdrawn := w'.v.deposits[id - 1].withdrawn)
    ensures w'.traces[id - 1].unlocks == 0 ==>
              && w.traces[id - 1].unlocks == 0
              && w'.traces[id - 1].paid ==
                 if Attempts(w, a, id) then w.v.deposits[id - 1].VestedAt(w.clock) else w.traces[id - 1].paid
  {
    StepKeepsTerms(w, a, id - 1);
    if w'.traces[id - 1].unlocks == 0 { PaymentStep(w, a, id); }
  }

  lemma PaidUpKept(w: World, w': World, tried: bool, latest: Option<Time>, id: u64)
    requires |w.traces| == |w.v.deposits| && |w'.traces| == |w'.v.deposits| >= |w.traces|
    requires 1 <= id <= |w.traces| && PaidUp(w, latest, id)
    requires w'.v.deposits[id - 1] == w.v.deposits[id - 1].(withdrawn := w'.v.deposits[id - 1].withdrawn)
    requires w'.traces[id - 1].unlocks == 0 ==>
               && w.traces[id - 1].unlocks == 0
               && w'.traces[id - 1].paid ==
                  if tried then w.v.deposits[id - 1].VestedAt(w.clock) else w.traces[id - 1].paid
    ensures PaidUp(w', if tried then Some(w.clock) else latest, id)
  {}

  lemma PaymentStep(w: World, a: Action, id: u64)
    requires Covered(w) && 1 <= id <= |w.traces| && id <= |Step(w, a).traces|
    requires Step(w, a).traces[id - 1].unlocks == 0
    ensures w.traces[id - 1].unlocks == 0
    ensures Step(w, a).traces[id - 1].paid ==
            if Attempts(w, a, id) then w.v.deposits[id - 1].VestedAt(w.clock) else w.traces[id - 1].paid
  {
    if Attempts(w, a, id) {
      NotYetUnlocked(w, a, id);
      AttemptCatchesUp(w, id, a.to);
    } else {
      OthersPayNothing(w, a, id);
    }
  }

  /** No step takes an early unlock back. */
  lemma NotYetUnlocked(w: World, a: Action, id: u64)
    requires Inv(w) && 1 <= id <= |w.traces| && a.Withdraw? && Step(w, a).traces[id - 1].unlocks == 0
    ensures w.traces[id - 1].unlocks == 0
  {}

  /** A deposit not yet recorded, or just recorded, has been paid nothing. */
  lemma PaidUpAtFirst(w: World, a: Action, id: u64)
    requires Inv(w) && id > |w.traces| && Inv(Step(w, a))
    ensures !Attempts(w, a, id) && PaidUp(Step(w, a), None, id)
  {}

  ghost predicate Telescoped(w: World, actions: seq<Action>, id: u64)
    requires Inv(w)
  {
    PaidUp(Run(w, actions), LatestAttempt(w, actions, id), id)
  }

  lemma LatestAttemptPush(w: World, actions: seq<Action>, a: Action, id: u64)
    requires Inv(w)
    ensures LatestAttempt(w, actions + [a], id) ==
            if Attempts(Run(w, actions), a, id) then Some(Run(w, actions).clock) else LatestAttempt(w, actions, id)
  {
    assert (actions + [a])[..|actions|] == actions;
  }

  lemma TelescopeStep(w: World, actions: seq<Action>, a: Action, all: seq<Action>, id: u64)
    requires Fresh(w) && Inv(w) && CarefulRun(w, actions) && all == actions + [a]
    requires id >= 1 && Telescoped(w, actions, id)
    ensures Telescoped(w, all, id)
  {
    CarefulRunCovered(w, actions);
    RunPush(w, actions, a);
    LatestAttemptPush(w, actions, a, id);
    StepKeepsInv(Run(w, actions), a);
    if id <= |Run(w, actions).traces| {
      PaidUpStep(Run(w, actions), a, LatestAttempt(w, actions, id), id);
    } else {
      PaidUpAtFirst(Run(w, actions), a, id);
    }
  }

  lemma {:induction false} RunTelescopes(w: World, actions: seq<Action>, id: u64)
    requires Fresh(w) && Inv(w) && id >= 1 && CarefulRun(w, actions)
    ensures Telescoped(w, actions, id)
  {
    if actions != [] {
      var rest, a := actions[..|actions| - 1], actions[|actions| - 1];
      RunTelescopes(w, rest, id);
      assert actions == rest + [a];
      TelescopeStep(w, rest, a, actions, id);
    }
  }

  /** However many withdrawals a careful run made or tried, what a deposit that was not unlocked early
      has been paid is what had vested at the latest attempt: the full amount if that was after the
      end of its schedule. */
  lemma WithdrawalsTelescope(w: World, actions: seq<Action>, id: u64)
    requires Fresh(w) && Inv(w) && CarefulRun(w, actions)
    ensures var w' := Run(w, actions);
            1 <= id <= |w'.traces| && w'.traces[id - 1].unlocks == 0 ==>
              var d, paid := w'.v.deposits[id - 1], w'.traces[id - 1].paid;
              match LatestAttempt(w, actions, id)
              case None => paid == 0
              case Some(t) => paid == d.VestedAt(t) && (t >= d.depositedAt + d.tier.Span() ==> paid == d.amount)
  {
    var w', latest := Run(w, actions), LatestAttempt(w, actions, id);
    if 1 <= id <= |w'.traces| {
      RunTelescopes(w, actions, id);
      if latest.Some? {
        var d := w'.v.deposits[id - 1];
        VestedWithin(d.amount, latest.value - d.depositedAt, d.tier);
      }
    }
  }
}
