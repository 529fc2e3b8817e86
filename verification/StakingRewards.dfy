/** Yield over whole runs of the staking program: per position since it was opened, and minted in all. */
module StakingRewards {
  import opened Integers
  import opened MapSum
  import opened TokenLedger
  import opened Staking
  import opened StakingRun
  import opened StakingYield
  import opened StakingInstructions

  // ---- Since a position was opened -----------------------------------------------------------

  predicate Opens(w: World, a: Action, user: nat) {
    a.DoStake? && a.user == user && Stake(w.pool, w.tokens, user, a.from, w.clock, a.amount, a.kind).Ok?
  }

  /** Supply that a claim of `user` adds. */
  function MintedBy(w: World, a: Action, user: nat): int {
    if a.DoClaim? && a.user == user then Step(w, a).tokens.supply - w.tokens.supply else 0
  }

  /** Supply minted by the claims of `user`, and accruals that succeeded, since the last stake of `user`. */
  ghost function MintedSince(w: World, actions: seq<Action>, user: nat): int
    requires Inv(w)
  {
    if actions == [] then 0
    else
      var before, a := Run(w, actions[..|actions| - 1]), actions[|actions| - 1];
      if Opens(before, a, user) then 0
      else MintedSince(w, actions[..|actions| - 1], user) + MintedBy(before, a, user)
  }
  ghost function AccrualsSince(w: World, actions: seq<Action>, user: nat): nat
    requires Inv(w)
  {
    if actions == [] then 0
    else
      var before, a := Run(w, actions[..|actions| - 1]), actions[|actions| - 1];
      if Opens(before, a, user) then 0
      else AccrualsSince(w, actions[..|actions| - 1], user) + if Accrues(before, a, user) then 1 else 0
  }

  /** The position when it was opened. */
  function AtOpening(pos: Position): Position { pos.(lastAccrual := pos.stakedAt, unclaimed := 0) }

  /** The present position of `user` against that. */
  ghost function Since(w: World, actions: seq<Action>, user: nat): Keeper
    requires Inv(w) && user in Run(w, actions).pool.positions
  {
    var pos := Run(w, actions).pool.positions[user];
    Keeper(AtOpening(pos), pos, MintedSince(w, actions, user), AccrualsSince(w, actions, user))
  }

  lemma ClaimsMint(w: World, a: Action, user: nat)
    requires Inv(w) && user in w.pool.positions
    ensures MintedBy(w, a, user) == if Claims(w, a, user) then w.pool.positions[user].unclaimed else 0
  {
    if a.DoClaim? { ClaimExactly(w, user, a.to); }
  }

  lemma OpenedKeeper(w: World, a: Action, user: nat, k: Keeper)
    requires Inv(w) && Opens(w, a, user) && user in Step(w, a).pool.positions
    requires k == Keeper(AtOpening(k.pos), k.pos, 0, 0) && k.pos == Step(w, a).pool.positions[user]
    ensures KeeperOk(k, w.pool.yieldBps)
  {
    StakeExactly(w, user, a.from, a.amount, a.kind, w.tokens, a.from);
    KeeperStarts(k, w.pool.yieldBps);
  }

  /** No action but a stake of `user` makes a position of `user`, and none closes one and opens one. */
  lemma NewPositions(w: World, a: Action, user: nat)
    requires user in Step(w, a).pool.positions && !Opens(w, a, user)
    ensures user in w.pool.positions && !Closes(w, a, user)
    ensures Step(w, a).pool.positions[user].stakedAt == w.pool.positions[user].stakedAt
    ensures Step(w, a).pool.positions[user].kind == w.pool.positions[user].kind
    ensures Step(w, a).pool.positions[user].amount == w.pool.positions[user].amount
  {}

  lemma RateStays(w: World, a: Action)
    ensures Step(w, a).pool.yieldBps == w.pool.yieldBps
  {}

  lemma SinceLinked(w: World, actions: seq<Action>, user: nat)
    requires Inv(w) && actions != [] && user in Run(w, actions).pool.positions
    requires !Opens(Run(w, actions[..|actions| - 1]), actions[|actions| - 1], user)
    ensures user in Run(w, actions[..|actions| - 1]).pool.positions
    ensures Linked(Run(w, actions[..|actions| - 1]), actions[|actions| - 1], user,
                   Since(w, actions[..|actions| - 1], user), Since(w, actions, user))
  {
    NewPositions(Run(w, actions[..|actions| - 1]), actions[|actions| - 1], user);
    ClaimsMint(Run(w, actions[..|actions| - 1]), actions[|actions| - 1], user);
    CountsGoOn(w, actions, user);
  }

  lemma CountsGoOn(w: World, actions: seq<Action>, user: nat)
    requires Inv(w) && actions != [] && !Opens(Run(w, actions[..|actions| - 1]), actions[|actions| - 1], user)
    ensures MintedSince(w, actions, user) ==
            MintedSince(w, actions[..|actions| - 1], user)
            + MintedBy(Run(w, actions[..|actions| - 1]), actions[|actions| - 1], user)
    ensures AccrualsSince(w, actions, user) ==
            AccrualsSince(w, actions[..|actions| - 1], user)
            + if Accrues(Run(w, actions[..|actions| - 1]), actions[|actions| - 1], user) then 1 else 0
  {}

  lemma SinceStarts(w: World, actions: seq<Action>, user: nat)
    requires Inv(w) && actions != [] && user in Run(w, actions).pool.positions
    requires Opens(Run(w, actions[..|actions| - 1]), actions[|actions| - 1], user)
    ensures KeeperOk(Since(w, actions, user), Run(w, actions[..|actions| - 1]).pool.yieldBps)
  {
    OpenedKeeper(Run(w, actions[..|actions| - 1]), actions[|actions| - 1], user, Since(w, actions, user));
  }

  lemma {:induction false} RateOfRun(w: World, actions: seq<Action>)
    requires Inv(w)
    ensures Run(w, actions).pool.yieldBps == w.pool.yieldBps
  {
    if actions != [] {
      RateOfRun(w, actions[..|actions| - 1]);
      RateStays(Run(w, actions[..|actions| - 1]), actions[|actions| - 1]);
    }
  }

  /** In every run of a new pool, for every position: the supply its owner's claims have minted since it was
      opened plus its unclaimed yield is at most the yield of one accrual over the time since, and short of
      it by less than the number of accruals. */
  lemma {:induction false} YieldSinceOpening(w: World, actions: seq<Action>, user: nat)
    requires Fresh(w) && Inv(w) && user in Run(w, actions).pool.positions
    ensures KeeperOk(Since(w, actions, user), w.pool.yieldBps)
    decreases |actions|
  {
    if actions != [] {
      RateOfRun(w, actions[..|actions| - 1]);
      if Opens(Run(w, actions[..|actions| - 1]), actions[|actions| - 1], user) {
        SinceStarts(w, actions, user);
      } else {
        SinceLinked(w, actions, user);
        YieldSinceOpening(w, actions[..|actions| - 1], user);
        KeeperStep(Run(w, actions[..|actions| - 1]), actions[|actions| - 1], user, w.pool.yieldBps,
                   Since(w, actions[..|actions| - 1], user), Since(w, actions, user));
      }
    }
  }

  // ---- All rewards ---------------------------------------------------------------------------

  /** What one accrual since the opening would have yielded. */
  function YieldOf(pos: Position, bps: nat): nat {
    if pos.lastAccrual < pos.stakedAt then 0 else OneShot(RateOf(pos, bps), pos.lastAccrual - pos.stakedAt)
  }

  /** That, less what is still unclaimed. */
  function Claimable(pos: Position, bps: nat): int { YieldOf(pos, bps) - pos.unclaimed }

  ghost function ClaimableBy(bps: nat): (nat, Position) -> int { (user: nat, pos: Position) => Claimable(pos, bps) }

  /** Supply that an action mints as a reward, and the yield of the position that it closes. */
  function Reward(w: World, a: Action): int {
    if a.DoClaim? then Step(w, a).tokens.supply - w.tokens.supply else 0
  }
  function Closed(w: World, a: Action): int {
    if a.DoUnstake? && Closes(w, a, a.user) then YieldOf(w.pool.positions[a.user], w.pool.yieldBps) else 0
  }

  /** Supply minted by all claims of a run. */
  ghost function RewardSupply(w: World, actions: seq<Action>): int
    requires Inv(w)
  {
    if actions == [] then 0
    else
      var before, a := Run(w, actions[..|actions| - 1]), actions[|actions| - 1];
      RewardSupply(w, actions[..|actions| - 1]) + Reward(before, a)
  }

  /** The yield of the positions that a run closed. */
  ghost function ClosedYield(w: World, actions: seq<Action>): int
    requires Inv(w)
  {
    if actions == [] then 0
    else
      var before, a := Run(w, actions[..|actions| - 1]), actions[|actions| - 1];
      ClosedYield(w, actions[..|actions| - 1]) + Closed(before, a)
  }

  lemma AccrualCovers(pos: Position, bps: nat, now: Time, pos': Position)
    requires pos.stakedAt <= pos.lastAccrual && AccruePosition(pos, bps, now) == Result.Ok(pos')
    ensures Claimable(pos', bps) >= Claimable(pos, bps)
  {
    var dt: nat := now - pos.lastAccrual;
    IncrementIsFloor(pos.amount, bps, dt);
    OneMore(RateOf(pos, bps), pos.lastAccrual - pos.stakedAt, dt, Increment(pos.amount, bps, dt).value);
  }

  lemma NothingAtOpening(n: u64, kind: Kind, now: Time, bps: nat)
    ensures Claimable(Position(n, kind, now, now, 0), bps) == 0
  {
    assert RateOf(Position(n, kind, now, now, 0), bps) * 0 == 0;
  }

  /** The claimable yield of all positions after an action covers what the action minted. */
  ghost predicate Covers(w: World, a: Action, bps: nat) {
    Reward(w, a) + Sum(w.pool.positions, ClaimableBy(bps)) <=
    Closed(w, a) + Sum(Step(w, a).pool.positions, ClaimableBy(bps))
  }

  lemma StakeCovers(w: World, a: Action, bps: nat)
    requires Inv(w) && a.DoStake?
    ensures Covers(w, a, bps)
  {
    StakeExactly(w, a.user, a.from, a.amount, a.kind, w.tokens, a.from);
    NothingAtOpening(a.amount, a.kind, w.clock, bps);
    SumPut(w.pool.positions, ClaimableBy(bps), a.user, Position(a.amount, a.kind, w.clock, w.clock, 0));
  }

  lemma UnstakeCovers(w: World, a: Action, bps: nat)
    requires Inv(w) && a.DoUnstake? && bps == w.pool.yieldBps
    ensures Covers(w, a, bps)
  {
    UnstakeExactly(w, a.user, a.to);
    if a.user in w.pool.positions { SumTake(w.pool.positions, ClaimableBy(bps), a.user); }
  }

  lemma AccrualsCover(w: World, a: Action, bps: nat)
    requires Inv(w) && a.DoAccrue? && bps == w.pool.yieldBps
    ensures Covers(w, a, bps)
  {
    if Accrues(w, a, a.user) {
      var pos := AccruePosition(w.pool.positions[a.user], bps, w.clock).value;
      assert PositionOk(w.pool.positions[a.user], w.clock);
      AccrualCovers(w.pool.positions[a.user], bps, w.clock, pos);
      SumPut(w.pool.positions, ClaimableBy(bps), a.user, pos);
    }
  }

  lemma ClaimCovers(w: World, a: Action, bps: nat)
    requires Inv(w) && a.DoClaim?
    ensures Covers(w, a, bps)
  {
    ClaimExactly(w, a.user, a.to);
    if a.user in w.pool.positions {
      SumPut(w.pool.positions, ClaimableBy(bps), a.user, w.pool.positions[a.user].(unclaimed := 0));
    }
  }

  lemma OthersCover(w: World, a: Action, bps: nat)
    requires !a.DoStake? && !a.DoUnstake? && !a.DoAccrue? && !a.DoClaim?
    ensures Covers(w, a, bps)
  {
    assert Step(w, a).pool.positions == w.pool.positions;
  }

  lemma StepCovers(w: World, a: Action, bps: nat)
    requires Inv(w) && bps == w.pool.yieldBps
    ensures Covers(w, a, bps)
  {
    match a
    case DoStake(_, _, _, _) => StakeCovers(w, a, bps);
    case DoUnstake(_, _) => UnstakeCovers(w, a, bps);
    case DoAccrue(_) => AccrualsCover(w, a, bps);
    case DoClaim(_, _) => ClaimCovers(w, a, bps);
    case _ => OthersCover(w, a, bps);
  }

  /** In every run of a new pool, the supply that claims minted is at most the yield of the positions closed
      and of those still open, less what those have not claimed yet. */
  lemma {:induction false} RewardsWithinYield(w: World, actions: seq<Action>)
    requires Fresh(w) && Inv(w)
    ensures RewardSupply(w, actions) <=
            ClosedYield(w, actions) + Sum(Run(w, actions).pool.positions, ClaimableBy(w.pool.yieldBps))
  {
    if actions != [] {
      RewardsWithinYield(w, actions[..|actions| - 1]);
      RateOfRun(w, actions[..|actions| - 1]);
      StepCovers(Run(w, actions[..|actions| - 1]), actions[|actions| - 1], w.pool.yieldBps);
    }
  }
}
