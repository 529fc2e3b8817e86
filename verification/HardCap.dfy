/** Exactly when the hard cap survives the epochs that are claimed. */
module HardCap {
  import opened Integers
  import opened TokenLedger
  import opened HalvingCurve
  import opened SupplyRun

  datatype Window = Window(start: i64, end: i64)

  /** `claim_epoch` accepts the window at some time, for some reward. */
  predicate Claimable(x: Window, tge: i64) { x.start < x.end && Budget(x.start, x.end, tge).Some? }

  function BudgetOf(x: Window, tge: i64): nat {
    var b := Budget(x.start, x.end, tge);
    if b.Some? then b.value else 0
  }

  function BudgetSum(windows: seq<Window>, tge: i64): nat {
    if windows == [] then 0
    else BudgetSum(windows[..|windows| - 1], tge) + BudgetOf(windows[|windows| - 1], tge)
  }

  function WindowsOf(claims: seq<Emission.EpochClaim>): (r: seq<Window>)
    ensures |r| == |claims|
    ensures forall i :: 0 <= i < |claims| ==> r[i] == Window(claims[i].start, claims[i].end)
  {
    seq(|claims|, i requires 0 <= i < |claims| => Window(claims[i].start, claims[i].end))
  }

  lemma {:induction false} BudgetSumConcat(a: seq<Window>, b: seq<Window>, tge: i64)
    ensures BudgetSum(a + b, tge) == BudgetSum(a, tge) + BudgetSum(b, tge)
  {
    if b == [] {
      assert a + b == a;
    } else {
      BudgetSumConcat(a, b[..|b| - 1], tge);
      assert (a + b)[..|a + b| - 1] == a + b[..|b| - 1];
    }
  }

  // ---- What a run can add --------------------------------------------------------------------

  /** The windows claimed between two states of a run. */
  function NewWindows(e: Emission.Config, e': Emission.Config): seq<Window> {
    if |e.claims| <= |e'.claims| then WindowsOf(e'.claims)[|e.claims|..] else []
  }

  /** `e'` has the windows of `e` and more, and minted no more than their budgets in between. */
  ghost predicate Grown(e: Emission.Config, e': Emission.Config) {
    && e'.tge == e.tge && |e.claims| <= |e'.claims| && WindowsOf(e'.claims)[..|e.claims|] == WindowsOf(e.claims)
    && e'.mintedTotal - e.mintedTotal <= BudgetSum(NewWindows(e, e'), e.tge)
  }

  lemma NothingNew(e: Emission.Config, e': Emission.Config)
    requires e'.tge == e.tge && e'.mintedTotal == e.mintedTotal && WindowsOf(e'.claims) == WindowsOf(e.claims)
    ensures Grown(e, e')
  {
    assert NewWindows(e, e') == [];
  }

  lemma OneNew(e: Emission.Config, e': Emission.Config, claim: Emission.EpochClaim)
    requires e'.tge == e.tge && e'.claims == e.claims + [claim] && e'.mintedTotal == e.mintedTotal + claim.totalReward
    requires claim.totalReward <= BudgetOf(Window(claim.start, claim.end), e.tge)
    ensures Grown(e, e')
  {
    var x := Window(claim.start, claim.end);
    assert WindowsOf(e'.claims) == WindowsOf(e.claims) + [x];
    assert NewWindows(e, e') == [] + [x];
    BudgetSumConcat([], [x], e.tge);
    assert [x][..0] == [];
  }

  lemma StepGrows(w: World, a: Action)
    ensures Grown(w.emission, Step(w, a).emission)
  {
    var e, e' := w.emission, Step(w, a).emission;
    if a.ClaimEpoch? && Emission.Claim(e, w.tokens, a.signer, a.now, a.epochId, a.start, a.end, a.reward).Ok? {
      OneNew(e, e', Emission.EpochClaim(a.start, a.end, a.reward, 0, false));
    } else {
      assert WindowsOf(e'.claims) == WindowsOf(e.claims);
      NothingNew(e, e');
    }
  }

  lemma PrefixesChain(a: seq<Window>, b: seq<Window>, c: seq<Window>)
    requires |a| <= |b| <= |c| && b[..|a|] == a && c[..|b|] == b
    ensures c[..|a|] == a && c[|a|..] == b[|a|..] + c[|b|..]
  {
    assert c[..|b|][..|a|] == c[..|a|];
    assert c == b + c[|b|..];
  }

  lemma GrownTwice(e: Emission.Config, e': Emission.Config, e'': Emission.Config)
    requires Grown(e, e') && Grown(e', e'')
    ensures Grown(e, e'')
  {
    PrefixesChain(WindowsOf(e.claims), WindowsOf(e'.claims), WindowsOf(e''.claims));
    BudgetSumConcat(NewWindows(e, e'), NewWindows(e', e''), e.tge);
  }

  lemma {:induction false} RunGrows(w: World, actions: seq<Action>)
    ensures Grown(w.emission, Run(w, actions).emission)
  {
    if actions == [] {
      NothingNew(w.emission, w.emission);
    } else {
      var before := Run(w, actions[..|actions| - 1]);
      RunGrows(w, actions[..|actions| - 1]);
      StepGrows(before, actions[|actions| - 1]);
      GrownTwice(w.emission, before.emission, Run(w, actions).emission);
    }
  }

  /** After the hand-over, supply grows by no more than the budgets of the windows that are claimed. */
  lemma SupplyWithinBudgets(w: World, actions: seq<Action>)
    requires Books(w) && w.tokens.authority == EmissionAuthority
    ensures var w' := Run(w, actions);
            && w'.tokens.supply <= w.tokens.supply + BudgetSum(NewWindows(w.emission, w'.emission), w.emission.tge)
            && w'.tokens.supply <= w.tokens.supply + w'.emission.mintedTotal - w.emission.mintedTotal
  {
    RunAfterHandOver(w, actions);
    RunGrows(w, actions);
  }

  // ---- What a run can reach ------------------------------------------------------------------

  lemma RunPush(w: World, actions: seq<Action>, a: Action)
    ensures Run(w, actions + [a]) == Step(Run(w, actions), a)
  {
    assert (actions + [a])[..|actions|] == actions;
  }

  /** The state after the billing signer claimed `windows` and minted `target` in all. */
  ghost predicate Claimed(w: World, w': World, windows: seq<Window>, target: nat) {
    && w'.tokens.authority == EmissionAuthority && w'.tokens.supply == w.tokens.supply + target
    && w'.emission == w.emission.(epochCounter := |w'.emission.claims|, mintedTotal := w.emission.mintedTotal + target,
                                  claims := w'.emission.claims)
    && WindowsOf(w'.emission.claims) == WindowsOf(w.emission.claims) + windows
  }

  /** One more claim, for any reward within its budget. */
  lemma ClaimOne(w: World, w': World, windows: seq<Window>, target: nat, x: Window, reward: u64)
    requires Claimed(w, w', windows, target) && Claimable(x, w.emission.tge) && reward <= BudgetOf(x, w.emission.tge)
    requires |w'.emission.claims| + 1 <= U64_MAX
    requires w'.tokens.supply + reward <= U64_MAX && w'.emission.mintedTotal + reward <= U64_MAX
    ensures Claimed(w, Step(w', ClaimOf(w', x, reward)), windows + [x], target + reward)
  {
    var claim := Emission.EpochClaim(x.start, x.end, reward, 0, false);
    var e' := Step(w', ClaimOf(w', x, reward)).emission;
    assert e'.claims == w'.emission.claims + [claim];
    assert WindowsOf(e'.claims) == WindowsOf(w'.emission.claims) + [x];
    assert WindowsOf(w.emission.claims) + windows + [x] == WindowsOf(w.emission.claims) + (windows + [x]);
  }

  function ClaimOf(w: World, x: Window, reward: u64): Action
    requires |w.emission.claims| + 1 <= U64_MAX
  {
    ClaimEpoch(w.emission.billingSigner, I64_MAX, |w.emission.claims| + 1, x.start, x.end, reward)
  }

  lemma ClaimNext(w: World, rest: seq<Action>, windows: seq<Window>, target: nat, x: Window, reward: u64)
    returns (actions: seq<Action>)
    requires Claimed(w, Run(w, rest), windows, target)
    requires Claimable(x, w.emission.tge) && reward <= BudgetOf(x, w.emission.tge)
    requires |w.emission.claims| + |windows| + 1 <= U64_MAX
    requires w.tokens.supply + target + reward <= U64_MAX && w.emission.mintedTotal + target + reward <= U64_MAX
    ensures Claimed(w, Run(w, actions), windows + [x], target + reward)
  {
    var w' := Run(w, rest);
    assert |WindowsOf(w'.emission.claims)| == |w.emission.claims| + |windows|;
    var claim := ClaimOf(w', x, reward);
    ClaimOne(w, w', windows, target, x, reward);
    RunPush(w, rest, claim);
    actions := rest + [claim];
  }

  lemma ClaimNone(w: World)
    requires w.tokens.authority == EmissionAuthority && w.emission.epochCounter == |w.emission.claims|
    ensures Claimed(w, w, [], 0)
  {
    assert WindowsOf(w.emission.claims) + [] == WindowsOf(w.emission.claims);
  }

  /** Any total up to the sum of the budgets can be claimed. */
  lemma {:induction false} ClaimAll(w: World, windows: seq<Window>, target: nat) returns (actions: seq<Action>)
    requires w.tokens.authority == EmissionAuthority && w.emission.epochCounter == |w.emission.claims|
    requires forall i :: 0 <= i < |windows| ==> Claimable(windows[i], w.emission.tge)
    requires |w.emission.claims| + |windows| <= U64_MAX && target <= BudgetSum(windows, w.emission.tge)
    requires w.tokens.supply + target <= U64_MAX && w.emission.mintedTotal + target <= U64_MAX
    requires 0 <= w.tokens.supply
    ensures Claimed(w, Run(w, actions), windows, target)
    decreases |windows|
  {
    if windows == [] {
      ClaimNone(w);
      actions := [];
    } else {
      var n := |windows| - 1;
      var first := Min(target, BudgetSum(windows[..n], w.emission.tge));
      var reward: u64 := target - first;
      var rest := ClaimAll(w, windows[..n], first);
      actions := ClaimNext(w, rest, windows[..n], first, windows[n], reward);
      assert windows[..n] + [windows[n]] == windows;
    }
  }

  // ---- The cap -------------------------------------------------------------------------------

  /** Whatever else happens and whatever rewards are chosen, a run that claims these windows keeps the
      supply within the cap. */
  ghost predicate CapHolds(w: World, windows: seq<Window>) {
    forall actions: seq<Action> :: NewWindows(w.emission, Run(w, actions).emission) == windows ==>
      Run(w, actions).tokens.supply <= GridToken.GRID_HARD_CAP
  }

  lemma BooksAreNat(w: World)
    requires Books(w)
    ensures 0 <= w.tokens.supply && 0 <= w.emission.mintedTotal
  {
    BalanceWithinSupply(w.tokens, EmissionVault);
    RewardsAreNat(w.emission.claims, w.emission.tge);
  }

  lemma {:induction false} RewardsAreNat(claims: seq<Emission.EpochClaim>, tge: i64)
    requires forall i :: 0 <= i < |claims| ==> ClaimInOrder(claims[i], tge)
    ensures 0 <= TotalRewards(claims)
  {
    if claims != [] {
      assert ClaimInOrder(claims[|claims| - 1], tge);
      RewardsAreNat(claims[..|claims| - 1], tge);
    }
  }

  /** What the windows can add: their budgets, as far as the u64 minted total has room for them. */
  function Room(e: Emission.Config, windows: seq<Window>): int {
    Min(BudgetSum(windows, e.tge), U64_MAX - e.mintedTotal)
  }

  lemma CapKept(w: World, windows: seq<Window>, actions: seq<Action>)
    requires Books(w) && w.tokens.authority == EmissionAuthority
    requires NewWindows(w.emission, Run(w, actions).emission) == windows
    ensures Run(w, actions).tokens.supply <= w.tokens.supply + Room(w.emission, windows)
  {
    SupplyWithinBudgets(w, actions);
    RunKeepsBooks(w, actions);
  }

  lemma CapPassed(w: World, windows: seq<Window>) returns (actions: seq<Action>)
    requires Books(w) && w.tokens.authority == EmissionAuthority
    requires forall i :: 0 <= i < |windows| ==> Claimable(windows[i], w.emission.tge)
    requires |w.emission.claims| + |windows| <= U64_MAX
    requires w.tokens.supply + Room(w.emission, windows) > GridToken.GRID_HARD_CAP
    ensures NewWindows(w.emission, Run(w, actions).emission) == windows
    ensures Run(w, actions).tokens.supply > GridToken.GRID_HARD_CAP
  {
    BooksAreNat(w);
    var target := Max(0, GridToken.GRID_HARD_CAP + 1 - w.tokens.supply);
    actions := ClaimAll(w, windows, target);
    assert WindowsOf(Run(w, actions).emission.claims)[|w.emission.claims|..] == windows;
  }

  /** Once emission holds the mint authority, claiming some windows cannot pass the cap exactly if the
      supply and what the windows can add are within it: overlapping or not. */
  lemma CapHoldsExactly(w: World, windows: seq<Window>)
    requires Books(w) && w.tokens.authority == EmissionAuthority
    requires forall i :: 0 <= i < |windows| ==> Claimable(windows[i], w.emission.tge)
    requires |w.emission.claims| + |windows| <= U64_MAX
    ensures CapHolds(w, windows) <==> w.tokens.supply + Room(w.emission, windows) <= GridToken.GRID_HARD_CAP
  {
    if w.tokens.supply + Room(w.emission, windows) <= GridToken.GRID_HARD_CAP {
      forall actions: seq<Action> | NewWindows(w.emission, Run(w, actions).emission) == windows
        ensures Run(w, actions).tokens.supply <= GridToken.GRID_HARD_CAP
      {
        CapKept(w, windows, actions);
      }
    } else {
      var actions := CapPassed(w, windows);
    }
  }

  /** Windows do not overlap: each starts no earlier than all before it end. */
  predicate OrderedWindows(windows: seq<Window>) {
    forall i, j :: 0 <= i < j < |windows| ==> windows[i].end <= windows[j].start
  }

  /** The windows end less than 2^32 halving periods after TGE. */
  predicate WindowsInRange(windows: seq<Window>, tge: i64) {
    0 <= tge <= I64_MAX / 2 &&
    forall i :: 0 <= i < |windows| ==>
      windows[i].start < windows[i].end < tge + 0x1_0000_0000 * HALVING_PERIOD_SECS
  }

  lemma JoinWindows(a: int, b: int, c: int, d: int)
    requires a <= b <= c <= d
    ensures Curve(a, b) + Curve(c, d) <= Curve(a, d)
  {
    SplitWindow(a, b, d);
    SplitWindow(b, c, d);
  }

  lemma BudgetIsCurve(x: Window, tge: i64, a: int, b: int)
    requires 0 <= tge <= I64_MAX / 2 && x.start < x.end < tge + 0x1_0000_0000 * HALVING_PERIOD_SECS
    requires a == x.start - tge && b == x.end - tge
    ensures BudgetOf(x, tge) == Curve(a, b)
  {
    BudgetInRange(x.start, x.end, tge);
  }

  lemma {:induction false} SumWithinCurve(windows: seq<Window>, tge: i64, x: int, y: int)
    requires windows != [] && OrderedWindows(windows) && WindowsInRange(windows, tge)
    requires x == windows[0].start - tge && y == windows[|windows| - 1].end - tge
    ensures x < y && BudgetSum(windows, tge) <= Curve(x, y)
  {
    var n := |windows| - 1;
    var c := windows[n].start - tge;
    BudgetIsCurve(windows[n], tge, c, y);
    if n == 0 {
      assert BudgetSum(windows[..0], tge) == 0;
    } else {
      var b := windows[n - 1].end - tge;
      SumWithinCurve(windows[..n], tge, x, b);
      AddWindow(windows, tge, x, b, c, y);
    }
  }

  lemma AddWindow(windows: seq<Window>, tge: i64, x: int, b: int, c: int, y: int)
    requires |windows| > 1 && x <= b <= c <= y
    requires var n := |windows| - 1;
             BudgetSum(windows[..n], tge) <= Curve(x, b) && BudgetOf(windows[n], tge) == Curve(c, y)
    ensures BudgetSum(windows, tge) <= Curve(x, y)
  {
    JoinWindows(x, b, c, y);
  }

  /** Ordered windows share one lifetime of the curve. */
  lemma BudgetsWithinCurve(windows: seq<Window>, tge: i64)
    requires OrderedWindows(windows) && WindowsInRange(windows, tge)
    ensures BudgetSum(windows, tge) <= LIFETIME_BUDGET
  {
    if windows != [] {
      var x, y := windows[0].start - tge, windows[|windows| - 1].end - tge;
      SumWithinCurve(windows, tge, x, y);
      CurveBounded(x, y);
    }
  }

  /** The rewards of epochs with ordered windows share it. */
  lemma RewardsWithinCurve(claims: seq<Emission.EpochClaim>, tge: i64)
    requires OrderedWindows(WindowsOf(claims)) && WindowsInRange(WindowsOf(claims), tge)
    requires forall i :: 0 <= i < |claims| ==> ClaimInOrder(claims[i], tge)
    ensures TotalRewards(claims) <= LIFETIME_BUDGET
  {
    RewardsWithinBudgets(claims, tge);
    BudgetsWithinCurve(WindowsOf(claims), tge);
  }

  lemma {:induction false} RewardsWithinBudgets(claims: seq<Emission.EpochClaim>, tge: i64)
    requires forall i :: 0 <= i < |claims| ==> ClaimInOrder(claims[i], tge)
    ensures TotalRewards(claims) <= BudgetSum(WindowsOf(claims), tge)
  {
    if claims != [] {
      var n := |claims| - 1;
      assert ClaimInOrder(claims[n], tge);
      RewardsWithinBudgets(claims[..n], tge);
      assert WindowsOf(claims)[..n] == WindowsOf(claims[..n]);
    }
  }

  /** The hard cap over whole runs: a disciplined allocation of at most the cap minus the lifetime
      budget, then the hand-over, then anything at all by anybody. As long as the epochs that were
      claimed do not overlap, the supply never passes 1B $GRID. */
  lemma HardCapHolds(admin: nat, billing: nat, tge: i64, allocation: seq<Action>, later: seq<Action>)
    requires forall i :: 0 <= i < |allocation| ==> Disciplined(allocation[i], User(admin))
    requires var mid := Run(Genesis(admin, billing, tge), allocation);
             && mid.tokens.authority == EmissionAuthority && mid.emission.claims == []
             && mid.grid.mintedSoFar <= GridToken.GRID_HARD_CAP - LIFETIME_BUDGET
             && var windows := WindowsOf(Run(mid, later).emission.claims);
                OrderedWindows(windows) && WindowsInRange(windows, tge)
    ensures var end := Run(Run(Genesis(admin, billing, tge), allocation), later);
            && end.tokens.supply <= GridToken.GRID_HARD_CAP
            && end.emission.mintedTotal == TotalRewards(end.emission.claims)
            && Books(end)
  {
    var g := Genesis(admin, billing, tge);
    var mid := Run(g, allocation);
    var end := Run(mid, later);
    GenesisBooks(admin, billing, tge);
    RunKeepsBooks(g, allocation);
    RunKeepsBooks(mid, later);
    SupplyIsAccountedFor(g, allocation);
    SupplyWithinBudgets(mid, later);
    BudgetsWithinCurve(WindowsOf(end.emission.claims), tge);
    assert NewWindows(mid.emission, end.emission) == WindowsOf(end.emission.claims);
  }

  /** Without the hypothesis on the windows it fails: from genesis, allocate up to the limit, hand over,
      and claim the whole curve twice. */
  lemma OverlappingWindowsPassTheCap(to: Account)
    ensures var limit := GridToken.GRID_HARD_CAP - LIFETIME_BUDGET;
            var end := 5 * HALVING_PERIOD_SECS;
            var actions := [] + [AdminMint(User(0), to, limit)] + [HandOver(User(0), EmissionAuthority)]
                           + [ClaimEpoch(User(1), end, 1, 0, end, LIFETIME_BUDGET)]
                           + [ClaimEpoch(User(1), end, 2, 0, end, LIFETIME_BUDGET)];
            Run(Genesis(0, 1, 0), actions).tokens.supply == GridToken.GRID_HARD_CAP + LIFETIME_BUDGET
  {
    var limit := GridToken.GRID_HARD_CAP - LIFETIME_BUDGET;
    var end := 5 * HALVING_PERIOD_SECS;
    var mint, handOver := AdminMint(User(0), to, limit), HandOver(User(0), EmissionAuthority);
    var first := ClaimEpoch(User(1), end, 1, 0, end, LIFETIME_BUDGET);
    var second := ClaimEpoch(User(1), end, 2, 0, end, LIFETIME_BUDGET);
    RunPush(Genesis(0, 1, 0), [], mint);
    RunPush(Genesis(0, 1, 0), [] + [mint], handOver);
    RunPush(Genesis(0, 1, 0), [] + [mint] + [handOver], first);
    RunPush(Genesis(0, 1, 0), [] + [mint] + [handOver] + [first], second);
    var ready := Step(Step(Genesis(0, 1, 0), mint), handOver);
    assert ready.tokens.supply == limit && ready.tokens.authority == EmissionAuthority;
    assert ready.emission == Emission.Config(User(1), 0, 0, 0, []);
    WholeCurveTwice(ready, end, first, second);
  }

  lemma WholeCurveTwice(w: World, end: i64, first: Action, second: Action)
    requires w.tokens.supply <= GridToken.GRID_HARD_CAP && w.tokens.authority == EmissionAuthority
    requires w.emission == Emission.Config(User(1), 0, 0, 0, []) && end == 5 * HALVING_PERIOD_SECS
    requires first == ClaimEpoch(User(1), end, 1, 0, end, LIFETIME_BUDGET)
    requires second == ClaimEpoch(User(1), end, 2, 0, end, LIFETIME_BUDGET)
    ensures Step(Step(w, first), second).tokens.supply == w.tokens.supply + 2 * LIFETIME_BUDGET
  {
    BudgetInRange(0, end, 0);
    CurveBounded(0, 0);
  }
}
