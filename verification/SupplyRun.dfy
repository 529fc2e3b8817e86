/** Whole runs of the token, emission and grid-token programs: who can ever raise the supply, and
    what the emission vault owes. */
module SupplyRun {
  import opened Integers
  import opened TokenLedger
  import opened HalvingCurve
  import GridToken
  import Emission

  datatype World = World(tokens: Tokens, grid: GridToken.Config, emission: Emission.Config)

  /** One instruction of a transaction. The last four go straight to the token program and can be
      signed by anybody except the emission PDA, which signs only inside its own program. */
  datatype Action =
    | AdminMint(signer: Key, to: Account, amount: u64)
    | HandOver(signer: Key, newAuthority: Key)
    | Lock(signer: Key)
    | ClaimEpoch(signer: Key, now: i64, epochId: u64, start: i64, end: i64, reward: u64)
    | Distribute(signer: Key, epochId: u64, to: Account, amount: u64)
    | Finalize(signer: Key, epochId: u64)
    | TokenMint(signer: Key, to: Account, amount: u64)
    | TokenSetAuthority(signer: Key, newAuthority: Key)
    | TokenTransfer(signer: Key, from: Account, to: Account, amount: u64)
    | TokenBurn(signer: Key, from: Account, amount: u64)

  function Direct(w: World, signer: Key, t: Option<Tokens>): World {
    if signer == EmissionAuthority || t.None? then w else w.(tokens := t.value)
  }

  /** A failed instruction changes nothing. */
  function Step(w: World, a: Action): World {
    match a
    case AdminMint(s, to, n) =>
      (match GridToken.MintToRecipient(w.grid, w.tokens, s, to, n)
       case Ok(x) => w.(grid := x.0, tokens := x.1)
       case Err(_) => w)
    case HandOver(s, k) =>
      (match GridToken.TransferMintAuthority(w.grid, w.tokens, s, k)
       case Ok(t) => w.(tokens := t)
       case Err(_) => w)
    case Lock(s) =>
      (match GridToken.LockAuthorities(w.grid, s)
       case Ok(g) => w.(grid := g)
       case Err(_) => w)
    case ClaimEpoch(s, now, id, x, y, r) =>
      (match Emission.Claim(w.emission, w.tokens, s, now, id, x, y, r)
       case Ok(z) => w.(emission := z.0, tokens := z.1)
       case Err(_) => w)
    case Distribute(s, id, to, n) =>
      (match Emission.Distribute(w.emission, w.tokens, s, id, to, n)
       case Ok(z) => w.(emission := z.0, tokens := z.1)
       case Err(_) => w)
    case Finalize(s, id) =>
      (match Emission.Finalize(w.emission, s, id)
       case Ok(e) => w.(emission := e)
       case Err(_) => w)
    case TokenMint(s, to, n) => Direct(w, s, w.tokens.MintTo(s, to, n))
    case TokenSetAuthority(s, k) => Direct(w, s, w.tokens.SetAuthority(s, k))
    case TokenTransfer(s, from, to, n) => Direct(w, s, w.tokens.Transfer(s, from, to, n))
    case TokenBurn(s, from, n) => Direct(w, s, w.tokens.Burn(s, from, n))
  }

  function Run(w: World, actions: seq<Action>): World {
    if actions == [] then w else Step(Run(w, actions[..|actions| - 1]), actions[|actions| - 1])
  }

  function Genesis(admin: nat, billing: nat, tge: i64): World {
    World(Tokens(0, User(admin), map[]),
          GridToken.Config(User(admin), 0, false),
          Emission.Config(User(billing), tge, 0, 0, []))
  }

  // ---- The books -----------------------------------------------------------------------------

  ghost function TotalRewards(claims: seq<Emission.EpochClaim>): int {
    if claims == [] then 0 else TotalRewards(claims[..|claims| - 1]) + claims[|claims| - 1].totalReward
  }

  ghost function Undistributed(claims: seq<Emission.EpochClaim>): int {
    if claims == [] then 0
    else Undistributed(claims[..|claims| - 1])
         + claims[|claims| - 1].totalReward - claims[|claims| - 1].distributed
  }

  ghost predicate ClaimInOrder(c: Emission.EpochClaim, tge: i64) {
    && 0 <= c.distributed <= c.totalReward && c.start < c.end
    && Budget(c.start, c.end, tge).Some? && c.totalReward <= Budget(c.start, c.end, tge).value
  }

  ghost predicate EpochBooks(e: Emission.Config) {
    && e.epochCounter == |e.claims|
    && e.mintedTotal == TotalRewards(e.claims) <= U64_MAX
    && (forall i :: 0 <= i < |e.claims| ==> ClaimInOrder(e.claims[i], e.tge))
  }

  /** Minted total and claims agree, no epoch paid out more than its reward, every reward was within
      the budget of its window, and the vault still holds every undistributed remainder. */
  ghost predicate Books(w: World) {
    && w.tokens.Valid()
    && w.grid.admin.User?
    && 0 <= w.grid.mintedSoFar <= GridToken.GRID_HARD_CAP
    && EpochBooks(w.emission)
    && Undistributed(w.emission.claims) <= w.tokens.Balance(EmissionVault)
  }

  lemma {:induction false} ReplaceClaim(claims: seq<Emission.EpochClaim>, i: nat, c: Emission.EpochClaim)
    requires i < |claims| && c.totalReward == claims[i].totalReward
    ensures TotalRewards(claims[i := c]) == TotalRewards(claims)
    ensures Undistributed(claims[i := c]) == Undistributed(claims) + claims[i].distributed - c.distributed
  {
    var n := |claims| - 1;
    if i < n {
      ReplaceClaim(claims[..n], i, c);
      assert claims[i := c][..n] == claims[..n][i := c];
    } else {
      assert claims[i := c][..n] == claims[..n];
    }
  }

  lemma AppendClaim(claims: seq<Emission.EpochClaim>, c: Emission.EpochClaim)
    ensures TotalRewards(claims + [c]) == TotalRewards(claims) + c.totalReward
    ensures Undistributed(claims + [c]) == Undistributed(claims) + c.totalReward - c.distributed
  {
    assert (claims + [c])[..|claims|] == claims;
  }

  lemma GenesisBooks(admin: nat, billing: nat, tge: i64)
    ensures Books(Genesis(admin, billing, tge))
  {}

  lemma StepKeepsBooks(w: World, a: Action)
    requires Books(w)
    ensures Books(Step(w, a))
  {
    var t, e := w.tokens, w.emission;
    match a
    case AdminMint(s, to, n) =>
      if t.MintTo(w.grid.admin, to, n).Some? { MintToConserves(t, w.grid.admin, to, n); }
    case HandOver(s, k) =>
    case Lock(s) =>
    case ClaimEpoch(s, now, id, x, y, r) =>
      var result := Emission.Claim(e, t, s, now, id, x, y, r);
      if result.Ok? { ClaimKeepsBooks(w, s, now, id, x, y, r, result.value.0, result.value.1); }
    case Distribute(s, id, to, n) =>
      var result := Emission.Distribute(e, t, s, id, to, n);
      if result.Ok? { DistributeKeepsBooks(w, s, id, to, n, result.value.0, result.value.1); }
    case Finalize(s, id) =>
      if Emission.Finalize(e, s, id).Ok? { FinalizeKeepsBooks(w, s, id); }
    case TokenMint(s, to, n) =>
      if t.MintTo(s, to, n).Some? { MintToConserves(t, s, to, n); }
    case TokenSetAuthority(s, k) =>
    case TokenTransfer(s, from, to, n) =>
      if t.Transfer(s, from, to, n).Some? { TransferConserves(t, s, from, to, n); }
    case TokenBurn(s, from, n) =>
      if t.Burn(s, from, n).Some? { BurnConserves(t, s, from, n); }
  }

  lemma ClaimKeepsBooks(w: World, s: Key, now: i64, id: u64, x: i64, y: i64, r: u64, e': Emission.Config, t': Tokens)
    requires Books(w) && Emission.Claim(w.emission, w.tokens, s, now, id, x, y, r) == Result.Ok((e', t'))
    ensures Books(w.(emission := e', tokens := t'))
  {
    MintToConserves(w.tokens, EmissionAuthority, EmissionVault, r);
    AddClaim(w.emission, Emission.EpochClaim(x, y, r, 0, false), e');
  }

  lemma AddClaim(e: Emission.Config, claim: Emission.EpochClaim, e': Emission.Config)
    requires EpochBooks(e) && ClaimInOrder(claim, e.tge) && e.mintedTotal + claim.totalReward <= U64_MAX
    requires e' == e.(epochCounter := e.epochCounter + 1, mintedTotal := e.mintedTotal + claim.totalReward,
                      claims := e.claims + [claim])
    ensures EpochBooks(e')
    ensures Undistributed(e'.claims) == Undistributed(e.claims) + claim.totalReward - claim.distributed
  {
    AppendClaim(e.claims, claim);
  }

  lemma FinalizeKeepsBooks(w: World, s: Key, id: u64)
    requires Books(w) && Emission.Finalize(w.emission, s, id).Ok?
    ensures Books(w.(emission := Emission.Finalize(w.emission, s, id).value))
  {
    var e := w.emission;
    ReplaceClaim(e.claims, id - 1, e.claims[id - 1].(finalized := true));
  }

  lemma DistributeKeepsBooks(w: World, s: Key, id: u64, to: Account, n: u64, e': Emission.Config, t': Tokens)
    requires Books(w) && Emission.Distribute(w.emission, w.tokens, s, id, to, n) == Result.Ok((e', t'))
    ensures Books(w.(emission := e', tokens := t'))
  {
    VaultPays(w.tokens, to, n, t');
    PayClaim(w.emission, id, n, e');
  }

  lemma PayClaim(e: Emission.Config, id: u64, n: u64, e': Emission.Config)
    requires EpochBooks(e) && 1 <= id <= |e.claims|
    requires e.claims[id - 1].distributed + n <= e.claims[id - 1].totalReward
    requires var claim := e.claims[id - 1];
             e' == e.(claims := e.claims[id - 1 := claim.(distributed := claim.distributed + n)])
    ensures EpochBooks(e') && Undistributed(e'.claims) == Undistributed(e.claims) - n
  {
    var claim := e.claims[id - 1];
    var paid := claim.(distributed := claim.distributed + n);
    ReplaceClaim(e.claims, id - 1, paid);
    PaidInOrder(claim, n, e.tge);
  }

  lemma PaidInOrder(c: Emission.EpochClaim, n: u64, tge: i64)
    requires ClaimInOrder(c, tge) && c.distributed + n <= c.totalReward
    ensures ClaimInOrder(c.(distributed := c.distributed + n), tge)
  {}

  lemma VaultPays(t: Tokens, to: Account, n: u64, t': Tokens)
    requires t.Valid() && t.Transfer(EmissionAuthority, EmissionVault, to, n) == Some(t')
    ensures t'.Valid() && t'.Balance(EmissionVault) >= t.Balance(EmissionVault) - n
  {
    TransferConserves(t, EmissionAuthority, EmissionVault, to, n);
  }

  /** Every run from genesis keeps the books, whoever does what. */
  lemma {:induction false} RunKeepsBooks(w: World, actions: seq<Action>)
    requires Books(w)
    ensures Books(Run(w, actions))
  {
    if actions != [] {
      RunKeepsBooks(w, actions[..|actions| - 1]);
      StepKeepsBooks(Run(w, actions[..|actions| - 1]), actions[|actions| - 1]);
    }
  }

  // ---- The supply ----------------------------------------------------------------------------

  /** Once the emission PDA holds the mint authority it keeps it, and only a claimed epoch can raise
      the supply: admin mints, direct mints and another hand-over all fail. */
  lemma StepAfterHandOver(w: World, a: Action)
    requires w.tokens.authority == EmissionAuthority && w.grid.admin.User?
    ensures var w' := Step(w, a);
            && w'.tokens.authority == EmissionAuthority
            && w'.grid == w.grid.(authorityLocked := w'.grid.authorityLocked)
            && w'.emission.tge == w.emission.tge
            && w'.tokens.supply - w.tokens.supply <= w'.emission.mintedTotal - w.emission.mintedTotal
  {}

  lemma {:induction false} RunAfterHandOver(w: World, actions: seq<Action>)
    requires w.tokens.authority == EmissionAuthority && w.grid.admin.User?
    ensures var w' := Run(w, actions);
            && w'.tokens.authority == EmissionAuthority && w'.grid.admin == w.grid.admin
            && w'.emission.tge == w.emission.tge
            && w'.tokens.supply - w.tokens.supply <= w'.emission.mintedTotal - w.emission.mintedTotal
  {
    if actions != [] {
      RunAfterHandOver(w, actions[..|actions| - 1]);
      StepAfterHandOver(Run(w, actions[..|actions| - 1]), actions[|actions| - 1]);
    }
  }

  /** Before the hand-over: the admin mints only through the capped instruction and hands the
      authority to nobody but the emission PDA. */
  predicate Disciplined(a: Action, admin: Key) {
    match a
    case TokenMint(s, _, _) => s != admin
    case TokenSetAuthority(s, k) => s == admin ==> k == EmissionAuthority
    case HandOver(_, k) => k == EmissionAuthority
    case _ => true
  }

  lemma DisciplinedStep(w: World, a: Action)
    requires w.grid.admin.User? && w.tokens.authority in {w.grid.admin, EmissionAuthority}
    requires Disciplined(a, w.grid.admin)
    ensures var w' := Step(w, a);
            && w'.tokens.authority in {w.grid.admin, EmissionAuthority}
            && w'.grid.admin == w.grid.admin && w'.emission.tge == w.emission.tge
            && w'.tokens.supply - w.tokens.supply <=
               w'.grid.mintedSoFar + w'.emission.mintedTotal - w.grid.mintedSoFar - w.emission.mintedTotal
  {}

  /** On a disciplined run every unit of supply was minted under the cap or claimed by an epoch. */
  lemma {:induction false} SupplyIsAccountedFor(w: World, actions: seq<Action>)
    requires w.grid.admin.User? && w.tokens.authority == w.grid.admin
    requires w.tokens.supply <= w.grid.mintedSoFar + w.emission.mintedTotal
    requires forall i :: 0 <= i < |actions| ==> Disciplined(actions[i], w.grid.admin)
    ensures var w' := Run(w, actions);
            && w'.tokens.authority in {w.grid.admin, EmissionAuthority}
            && w'.grid.admin == w.grid.admin && w'.emission.tge == w.emission.tge
            && w'.tokens.supply <= w'.grid.mintedSoFar + w'.emission.mintedTotal
  {
    if actions != [] {
      SupplyIsAccountedFor(w, actions[..|actions| - 1]);
      DisciplinedStep(Run(w, actions[..|actions| - 1]), actions[|actions| - 1]);
    }
  }

  // ---- Authorities and closed epochs ---------------------------------------------------------

  /** A mint has one authority: whenever an epoch can be claimed, the staking program's reward mint
      is refused, and the other way round. */
  lemma EpochsAndYieldExclude(e: Emission.Config, t: Tokens, s: Key, now: i64, id: u64, x: i64, y: i64, r: u64,
                              to: Account, amount: u64)
    ensures !(Emission.Claim(e, t, s, now, id, x, y, r).Ok? && t.MintTo(StakingAuthority, to, amount).Some?)
  {}

  /** Locking is final: from then on no run changes the capped counter or the lock. */
  lemma {:induction false} LockIsFinal(w: World, actions: seq<Action>)
    requires w.grid.authorityLocked
    ensures Run(w, actions).grid == w.grid
  {
    if actions != [] { LockIsFinal(w, actions[..|actions| - 1]); }
  }

  /** The lock binds this program's instructions, not the mint: afterwards no user can mint exactly if
      the mint authority had been handed to a program. */
  lemma LockStopsUsersExactly(w: World)
    requires w.grid.authorityLocked && w.tokens.supply < U64_MAX
    ensures (forall a: Action :: (a.TokenMint? || a.AdminMint?) && a.signer.User? ==>
               Step(w, a).tokens.supply <= w.tokens.supply)
            <==> !w.tokens.authority.User?
  {
    if w.tokens.authority.User? {
      var a := TokenMint(w.tokens.authority, Wallet(0), 1);
      assert Step(w, a).tokens.supply == w.tokens.supply + 1;
    }
  }

  lemma StepKeepsFinalized(w: World, a: Action, i: nat)
    requires i < |w.emission.claims| && w.emission.claims[i].finalized
    ensures var claims := Step(w, a).emission.claims;
            i < |claims| && claims[i] == w.emission.claims[i]
  {}

  /** A finalized epoch is closed for good: no later run pays from it, reopens it or closes it again. */
  lemma {:induction false} FinalizedStaysClosed(w: World, id: u64, s: Key, actions: seq<Action>, to: Account, n: u64)
    requires Emission.Finalize(w.emission, s, id).Ok?
    ensures var closed := w.(emission := Emission.Finalize(w.emission, s, id).value);
            var e := Run(closed, actions).emission;
            && id <= |e.claims| && e.claims[id - 1] == w.emission.claims[id - 1].(finalized := true)
            && Emission.Distribute(e, Run(closed, actions).tokens, e.billingSigner, id, to, n) ==
               Result.Err(Emission.EpochFinalized)
            && Emission.Finalize(e, e.billingSigner, id) == Result.Err(Emission.EpochFinalized)
  {
    var closed := w.(emission := Emission.Finalize(w.emission, s, id).value);
    if actions != [] {
      FinalizedStaysClosed(w, id, s, actions[..|actions| - 1], to, n);
      StepKeepsFinalized(Run(closed, actions[..|actions| - 1]), actions[|actions| - 1], id - 1);
    }
  }
}
