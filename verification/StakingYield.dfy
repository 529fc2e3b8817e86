/** Keeper yield of a position in a pool run: how often `accrue_yield` is called barely matters. */
module StakingYield {
  import opened Integers
  import opened TokenLedger
  import opened Staking
  import opened StakingRun

  /** A position, what its owner has claimed since it was `start`, and how many accruals succeeded. */
  datatype Keeper = Keeper(start: Position, pos: Position, claimed: int, accruals: nat) {
    function Earned(): int { claimed + pos.unclaimed - start.unclaimed }
  }

  /** The yield of a single accrual over the whole time. */
  function OneShot(rate: nat, secs: nat): nat { rate * secs / YIELD_SCALE }

  /** Over 365 days that is the documented share of the stake, in basis points. */
  lemma YieldOfYear(amount: u64, bps: nat)
    ensures OneShot(amount * bps, 365 * 86_400) == amount * bps / 10_000
  {
    var product: nat := amount * bps;
    assert product * 31_536_000 / 315_360_000_000 == product / 10_000;
  }

  /** (U64_MAX + 1) * YIELD_SCALE, where the cast to u64 begins to lose bits. */
  const CAST_LIMIT := 5_817_365_211_085_044_197_621_760_000_000

  /** The cast and the u128 product are harmless exactly below the limit; above it they only lose. */
  lemma IncrementIsFloor(amount: u64, bps: nat, secs: nat)
    ensures var n := Increment(amount, bps, secs);
            && (n.Some? && n.value == OneShot(amount * bps, secs) <==> amount * bps * secs < CAST_LIMIT)
            && (n.Some? ==> n.value <= OneShot(amount * bps, secs))
  {
    var product: nat := amount * bps * secs;
    FloorBelow(product);
    CastOnlyLoses(product / YIELD_SCALE);
  }

  lemma FloorBelow(product: nat)
    ensures product / YIELD_SCALE <= U64_MAX <==> product < CAST_LIMIT
  {}

  lemma CastOnlyLoses(x: nat)
    ensures AsU64(x) <= x && (AsU64(x) == x <==> x <= U64_MAX)
  {
    TruncateIsMod(x, U64_MAX + 1);
  }

  /** Amounts up to 10^18, rates up to 100% and 18 years stay below the limit. */
  lemma PracticalRange(amount: u64, bps: nat, secs: nat)
    requires amount <= 1_000_000_000_000_000_000 && bps <= 10_000 && secs <= 567_648_000
    ensures amount * bps * secs < CAST_LIMIT
  {
    ProductMonotone(amount, bps, 10_000);
    ProductMonotone(amount * bps, secs, 567_648_000);
    ProductMonotone(567_648_000, amount * bps, 10_000_000_000_000_000_000_000);
  }

  lemma ProductMonotone(r: nat, a: nat, b: nat)
    requires a <= b
    ensures r * a <= r * b
  {
    assert r * b - r * a == r * (b - a);
  }

  lemma FloorOfSum(a: nat, b: nat)
    ensures a / YIELD_SCALE + b / YIELD_SCALE <= (a + b) / YIELD_SCALE <= a / YIELD_SCALE + b / YIELD_SCALE + 1
  {}

  /** One more accrual: at most the exact yield of the time passed, and at least that less one unit. */
  lemma OneMore(rate: nat, secs: nat, dt: nat, inc: nat)
    requires inc <= OneShot(rate, dt)
    ensures OneShot(rate, secs) + inc <= OneShot(rate, secs + dt)
    ensures inc == OneShot(rate, dt) ==> OneShot(rate, secs + dt) <= OneShot(rate, secs) + inc + 1
    ensures inc == OneShot(rate, dt) && secs == 0 ==> OneShot(rate, secs + dt) == inc
  {
    var a: nat, b: nat := rate * secs, rate * dt;
    assert rate * (secs + dt) == a + b;
    FloorOfSum(a, b);
  }

  /** Units per second, times YIELD_SCALE. */
  function RateOf(pos: Position, bps: nat): nat { pos.amount * bps }

  /** `earned` by `n` accruals over `secs` seconds against a single accrual: never more, and short of it by
      at most n - 1 while the product stays below the cast limit. */
  predicate NearOneShot(earned: int, n: nat, rate: nat, secs: int) {
    && secs >= 0 && earned <= OneShot(rate, secs)
    && (n == 0 ==> secs == 0 && earned == 0)
    && (n >= 1 && rate * secs < CAST_LIMIT ==> OneShot(rate, secs) - (n - 1) <= earned)
  }

  predicate KeeperOk(k: Keeper, bps: nat) {
    && k.pos.amount == k.start.amount && k.claimed >= 0
    && NearOneShot(k.Earned(), k.accruals, RateOf(k.start, bps), k.pos.lastAccrual - k.start.lastAccrual)
  }

  lemma AccrualKeeps(k: Keeper, bps: nat, now: Time, pos: Position)
    requires KeeperOk(k, bps) && AccruePosition(k.pos, bps, now) == Result.Ok(pos)
    ensures KeeperOk(k.(pos := pos, accruals := k.accruals + 1), bps)
  {
    var secs: nat, dt: nat := k.pos.lastAccrual - k.start.lastAccrual, now - k.pos.lastAccrual;
    var rate := RateOf(k.start, bps);
    IncrementIsFloor(k.start.amount, bps, dt);
    OneMore(rate, secs, dt, Increment(k.start.amount, bps, dt).value);
    ProductMonotone(rate, secs, secs + dt);
    ProductMonotone(rate, dt, secs + dt);
  }

  lemma ClaimKeeps(k: Keeper, bps: nat)
    requires KeeperOk(k, bps)
    ensures KeeperOk(k.(pos := k.pos.(unclaimed := 0), claimed := k.claimed + k.pos.unclaimed), bps)
  {}

  // ---- Pool runs -----------------------------------------------------------------------------

  /** What an action does to the position of `user` that nobody closes. */
  predicate Accrues(w: World, a: Action, user: nat) {
    a.DoAccrue? && a.user == user && Accrue(w.pool, user, w.clock).Ok?
  }
  predicate Claims(w: World, a: Action, user: nat) {
    a.DoClaim? && a.user == user && ClaimYield(w.pool, w.tokens, user, a.to).Ok?
  }
  predicate Closes(w: World, a: Action, user: nat) {
    a.DoUnstake? && a.user == user && Unstake(w.pool, w.tokens, user, a.to, w.clock).Ok?
  }

  /** The position of `user` at the start of a run stays open. */
  ghost predicate StaysOpen(w: World, actions: seq<Action>, user: nat)
    requires Inv(w)
  {
    actions == [] ||
    var before := actions[..|actions| - 1];
    StaysOpen(w, before, user) && !Closes(Run(w, before), actions[|actions| - 1], user)
  }

  /** Yield that `user` claimed in a run, and accruals of the position that succeeded. */
  ghost function Claimed(w: World, actions: seq<Action>, user: nat): int
    requires Inv(w)
  {
    if actions == [] then 0
    else
      var before, a := actions[..|actions| - 1], actions[|actions| - 1];
      Claimed(w, before, user)
      + if Claims(Run(w, before), a, user) then Run(w, before).pool.positions[user].unclaimed else 0
  }
  ghost function Accruals(w: World, actions: seq<Action>, user: nat): nat
    requires Inv(w)
  {
    if actions == [] then 0
    else
      var before, a := actions[..|actions| - 1], actions[|actions| - 1];
      Accruals(w, before, user) + if Accrues(Run(w, before), a, user) then 1 else 0
  }

  /** One action changes an open position by an accrual, a claim, or not at all. */
  lemma StepOfPosition(w: World, a: Action, user: nat)
    requires user in w.pool.positions && !Closes(w, a, user)
    ensures var p', pos := Step(w, a).pool, w.pool.positions[user];
            && p'.yieldBps == w.pool.yieldBps && user in p'.positions
            && (Accrues(w, a, user) ==> AccruePosition(pos, w.pool.yieldBps, w.clock) == Result.Ok(p'.positions[user]))
            && (Claims(w, a, user) ==> p'.positions[user] == pos.(unclaimed := 0))
            && (!Accrues(w, a, user) && !Claims(w, a, user) ==> p'.positions[user] == pos)
  {}

  ghost function KeeperOf(w: World, actions: seq<Action>, user: nat): Keeper
    requires Inv(w) && user in w.pool.positions && user in Run(w, actions).pool.positions
  {
    Keeper(w.pool.positions[user], Run(w, actions).pool.positions[user], Claimed(w, actions, user),
           Accruals(w, actions, user))
  }

  predicate Linked(w: World, a: Action, user: nat, k: Keeper, k': Keeper) {
    && user in w.pool.positions && !Closes(w, a, user) && user in Step(w, a).pool.positions
    && k.pos == w.pool.positions[user] && k'.start == k.start && k'.pos == Step(w, a).pool.positions[user]
    && k'.claimed == k.claimed + (if Claims(w, a, user) then k.pos.unclaimed else 0)
    && k'.accruals == k.accruals + (if Accrues(w, a, user) then 1 else 0)
  }

  lemma KeeperStep(w: World, a: Action, user: nat, bps: nat, k: Keeper, k': Keeper)
    requires Linked(w, a, user, k, k') && KeeperOk(k, bps) && bps == w.pool.yieldBps
    ensures KeeperOk(k', bps)
  {
    StepOfPosition(w, a, user);
    if Accrues(w, a, user) {
      AccrualKeeps(k, bps, w.clock, k'.pos);
    } else if Claims(w, a, user) {
      ClaimKeeps(k, bps);
    }
  }

  lemma KeepersLinked(w: World, actions: seq<Action>, user: nat)
    requires Inv(w) && user in w.pool.positions && actions != [] && StaysOpen(w, actions, user)
    requires user in Run(w, actions[..|actions| - 1]).pool.positions
    ensures user in Run(w, actions).pool.positions
    ensures Run(w, actions).pool.yieldBps == Run(w, actions[..|actions| - 1]).pool.yieldBps
    ensures Linked(Run(w, actions[..|actions| - 1]), actions[|actions| - 1], user,
                   KeeperOf(w, actions[..|actions| - 1], user), KeeperOf(w, actions, user))
  {
    StepOfPosition(Run(w, actions[..|actions| - 1]), actions[|actions| - 1], user);
  }

  lemma KeeperStarts(k: Keeper, bps: nat)
    requires k == Keeper(k.start, k.start, 0, 0)
    ensures KeeperOk(k, bps)
  {}

  lemma KeeperOneMore(w: World, actions: seq<Action>, user: nat, bps: nat)
    requires Inv(w) && user in w.pool.positions && actions != []
    requires user in Run(w, actions[..|actions| - 1]).pool.positions && user in Run(w, actions).pool.positions
    requires Run(w, actions[..|actions| - 1]).pool.yieldBps == bps
    requires Linked(Run(w, actions[..|actions| - 1]), actions[|actions| - 1], user,
                    KeeperOf(w, actions[..|actions| - 1], user), KeeperOf(w, actions, user))
    requires KeeperOk(KeeperOf(w, actions[..|actions| - 1], user), bps)
    ensures KeeperOk(KeeperOf(w, actions, user), bps)
  {
    KeeperStep(Run(w, actions[..|actions| - 1]), actions[|actions| - 1], user, bps,
               KeeperOf(w, actions[..|actions| - 1], user), KeeperOf(w, actions, user));
  }

  /** In a pool run, however often anybody accrues the yield of an open position and whenever its owner
      claims, with what success: claimed plus unclaimed yield never exceeds that of one accrual over the
      time accrued, and falls short of it by less than the number of accruals as long as the whole
      product stays below the cast limit. */
  lemma {:induction false} KeeperFrequency(w: World, actions: seq<Action>, user: nat)
    requires Inv(w) && user in w.pool.positions && StaysOpen(w, actions, user)
    ensures var w' := Run(w, actions);
            && w'.pool.yieldBps == w.pool.yieldBps && user in w'.pool.positions
            && KeeperOk(KeeperOf(w, actions, user), w.pool.yieldBps)
  {
    if actions == [] {
      KeeperStarts(KeeperOf(w, actions, user), w.pool.yieldBps);
    } else {
      KeeperFrequency(w, actions[..|actions| - 1], user);
      KeepersLinked(w, actions, user);
      KeeperOneMore(w, actions, user, w.pool.yieldBps);
    }
  }

  /** As long as what has accrued since fits in a u64, an accrual is refused only when no time has passed. */
  lemma AccrualSucceeds(w: World, actions: seq<Action>, user: nat)
    requires Inv(w) && user in w.pool.positions && StaysOpen(w, actions, user)
    requires var start, now := w.pool.positions[user], Run(w, actions).clock;
             && now >= start.lastAccrual
             && start.unclaimed + OneShot(RateOf(start, w.pool.yieldBps), now - start.lastAccrual) <= U64_MAX
    ensures user in Run(w, actions).pool.positions
    ensures var w' := Run(w, actions);
            Accrue(w'.pool, user, w'.clock).Ok? <==> w'.clock > w'.pool.positions[user].lastAccrual
  {
    KeeperFrequency(w, actions, user);
    var k, w' := KeeperOf(w, actions, user), Run(w, actions);
    if w'.clock > k.pos.lastAccrual { NextAccrual(k, w.pool.yieldBps, w'.clock); }
  }

  lemma NextAccrual(k: Keeper, bps: nat, now: Time)
    requires KeeperOk(k, bps) && now > k.pos.lastAccrual
    requires k.start.unclaimed + OneShot(RateOf(k.start, bps), now - k.start.lastAccrual) <= U64_MAX
    ensures AccruePosition(k.pos, bps, now).Ok?
  {
    var secs: nat, dt: nat := k.pos.lastAccrual - k.start.lastAccrual, now - k.pos.lastAccrual;
    var rate := RateOf(k.start, bps);
    FloorBelow(rate * (secs + dt));
    ProductMonotone(rate, dt, secs + dt);
    IncrementIsFloor(k.start.amount, bps, dt);
    OneMore(rate, secs, dt, Increment(k.start.amount, bps, dt).value);
  }
}
