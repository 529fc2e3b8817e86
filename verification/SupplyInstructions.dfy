/** Every instruction of the emission and grid-token programs: exactly when it succeeds, and what it does to
    every balance and record. */
module SupplyInstructions {
  import opened Integers
  import opened TokenLedger
  import opened HalvingCurve
  import opened SupplyRun
  import Emission
  import GridToken

  // ---- What the books leave room for ---------------------------------------------------------

  lemma {:induction false} RemainderIsCovered(claims: seq<Emission.EpochClaim>, tge: i64, i: nat)
    requires forall j :: 0 <= j < |claims| ==> ClaimInOrder(claims[j], tge)
    ensures 0 <= Undistributed(claims) && 0 <= TotalRewards(claims)
    ensures i < |claims| ==> claims[i].totalReward - claims[i].distributed <= Undistributed(claims)
    ensures i < |claims| ==> claims[i].totalReward <= TotalRewards(claims)
  {
    if claims != [] {
      var n := |claims| - 1;
      assert ClaimInOrder(claims[n], tge);
      RemainderIsCovered(claims[..n], tge, i);
    }
  }

  // ---- Distributions -------------------------------------------------------------------------

  /** Whether a distribution is accepted; the vault and the checked sum never stand in its way. */
  predicate MayDistribute(e: Emission.Config, signer: Key, id: u64, amount: u64) {
    && signer == e.billingSigner && 1 <= id <= |e.claims| && !e.claims[id - 1].finalized
    && e.claims[id - 1].distributed + amount <= e.claims[id - 1].totalReward
  }

  /** A distribution takes exactly its amount from the vault to the recipient and counts it against its
      epoch; no other balance and no other epoch changes. */
  lemma DistributeExactly(w: World, signer: Key, id: u64, to: Account, amount: u64)
    requires Books(w)
    ensures var r := Emission.Distribute(w.emission, w.tokens, signer, id, to, amount);
            && (r.Ok? <==> MayDistribute(w.emission, signer, id, amount))
            && (r.Ok? ==>
                  && Moved(w.tokens, r.value.1, EmissionVault, to, amount)
                  && |r.value.0.claims| == |w.emission.claims|
                  && r.value.0 == w.emission.(claims := r.value.0.claims)
                  && forall i :: 0 <= i < |w.emission.claims| ==>
                       r.value.0.claims[i] == w.emission.claims[i].(distributed :=
                         w.emission.claims[i].distributed + if i == id - 1 then amount else 0))
  {
    DistributeAccepted(w, signer, id, to, amount);
    var r := Emission.Distribute(w.emission, w.tokens, signer, id, to, amount);
    if r.Ok? { TransferConserves(w.tokens, EmissionAuthority, EmissionVault, to, amount); }
  }

  lemma DistributeAccepted(w: World, signer: Key, id: u64, to: Account, amount: u64)
    requires Books(w)
    ensures Emission.Distribute(w.emission, w.tokens, signer, id, to, amount).Ok? <==>
            MayDistribute(w.emission, signer, id, amount)
  {
    if MayDistribute(w.emission, signer, id, amount) {
      RemainderIsCovered(w.emission.claims, w.emission.tge, id - 1);
      assert ClaimInOrder(w.emission.claims[id - 1], w.emission.tge);
    }
  }

  function DistributedOf(e: Emission.Config, id: nat): int {
    if 1 <= id <= |e.claims| then e.claims[id - 1].distributed else 0
  }

  /** What recipients gained, on the ledger, from the distributions of epoch `id` in a run. */
  function PaidFrom(w: World, actions: seq<Action>, id: nat): int {
    if actions == [] then 0
    else
      var before, a := Run(w, actions[..|actions| - 1]), actions[|actions| - 1];
      PaidFrom(w, actions[..|actions| - 1], id)
      + if a.Distribute? && a.epochId == id then Step(before, a).tokens.Balance(a.to) - before.tokens.Balance(a.to)
        else 0
  }

  lemma StepPaysRecipient(w: World, a: Action, id: nat)
    requires Books(w) && (a.Distribute? ==> a.to != EmissionVault)
    ensures DistributedOf(Step(w, a).emission, id) - DistributedOf(w.emission, id) ==
            if a.Distribute? && a.epochId == id then Step(w, a).tokens.Balance(a.to) - w.tokens.Balance(a.to) else 0
  {
    if a.Distribute? { DistributeExactly(w, a.signer, a.epochId, a.to, a.amount); }
  }

  /** Over every run whose distributions go outside the vault: what an epoch says it distributed is what its
      recipients were paid. */
  lemma {:induction false} RecipientsGotIt(w: World, actions: seq<Action>, id: nat)
    requires Books(w) && forall i :: 0 <= i < |actions| && actions[i].Distribute? ==> actions[i].to != EmissionVault
    ensures PaidFrom(w, actions, id) == DistributedOf(Run(w, actions).emission, id) - DistributedOf(w.emission, id)
  {
    if actions != [] {
      var before, a := actions[..|actions| - 1], actions[|actions| - 1];
      RecipientsGotIt(w, before, id);
      RunKeepsBooks(w, before);
      StepPaysRecipient(Run(w, before), a, id);
    }
  }

  // ---- Epochs --------------------------------------------------------------------------------

  predicate MayClaim(w: World, signer: Key, now: i64, id: u64, start: i64, end: i64, reward: u64) {
    && signer == w.emission.billingSigner && start < end <= now && id == |w.emission.claims| + 1
    && Budget(start, end, w.emission.tge).Some? && reward <= Budget(start, end, w.emission.tge).value
    && w.tokens.authority == EmissionAuthority
    && w.tokens.supply + reward <= U64_MAX && w.emission.mintedTotal + reward <= U64_MAX
  }

  /** An epoch is claimed only by the billing signer, only for a window that is over, in order, within its
      budget and with the mint authority in place; its reward is minted into the vault and nowhere else. */
  lemma ClaimExactly(w: World, signer: Key, now: i64, id: u64, start: i64, end: i64, reward: u64)
    requires Books(w)
    ensures var r := Emission.Claim(w.emission, w.tokens, signer, now, id, start, end, reward);
            && (r.Ok? <==> MayClaim(w, signer, now, id, start, end, reward))
            && (r.Ok? ==>
                  && Credited(w.tokens, r.value.1, EmissionVault, reward)
                  && r.value.0 == Emission.Config(w.emission.billingSigner, w.emission.tge, id,
                                                  w.emission.mintedTotal + reward, r.value.0.claims)
                  && |r.value.0.claims| == id && r.value.0.claims[..id - 1] == w.emission.claims
                  && r.value.0.claims[id - 1] == Emission.EpochClaim(start, end, reward, 0, false))
  {
    var r := Emission.Claim(w.emission, w.tokens, signer, now, id, start, end, reward);
    if r.Ok? { MintToConserves(w.tokens, EmissionAuthority, EmissionVault, reward); }
  }

  /** An epoch is closed by the billing signer, once, and closing changes nothing else. */
  lemma FinalizeExactly(w: World, signer: Key, id: u64)
    requires Books(w)
    ensures var r := Emission.Finalize(w.emission, signer, id);
            && (r.Ok? <==> signer == w.emission.billingSigner && 1 <= id <= |w.emission.claims|
                           && !w.emission.claims[id - 1].finalized)
            && (r.Ok? ==>
                  && |r.value.claims| == |w.emission.claims| && r.value == w.emission.(claims := r.value.claims)
                  && forall i :: 0 <= i < |w.emission.claims| ==>
                       r.value.claims[i] == w.emission.claims[i].(finalized :=
                         w.emission.claims[i].finalized || i == id - 1))
  {
    if 1 <= id <= |w.emission.claims| { assert ClaimInOrder(w.emission.claims[id - 1], w.emission.tge); }
  }

  // ---- The admin's instructions --------------------------------------------------------------

  /** The admin's mint credits the recipient and counts against the cap. */
  lemma AdminMintExactly(w: World, signer: Key, to: Account, amount: u64)
    requires Books(w)
    ensures var r := GridToken.MintToRecipient(w.grid, w.tokens, signer, to, amount);
            && (r.Ok? <==>
                  && signer == w.grid.admin == w.tokens.authority && !w.grid.authorityLocked
                  && w.grid.mintedSoFar + amount <= 1_000_000_000 * 1_000_000_000
                  && w.tokens.supply + amount <= U64_MAX)
            && (r.Ok? ==>
                  && Credited(w.tokens, r.value.1, to, amount)
                  && r.value.0 == GridToken.Config(w.grid.admin, w.grid.mintedSoFar + amount, false))
  {
    var r := GridToken.MintToRecipient(w.grid, w.tokens, signer, to, amount);
    if r.Ok? { MintToConserves(w.tokens, w.grid.admin, to, amount); }
  }

  /** The hand-over makes the named key the mint authority, and moves no token. */
  lemma HandOverExactly(w: World, signer: Key, next: Key, a: Account)
    ensures var r := GridToken.TransferMintAuthority(w.grid, w.tokens, signer, next);
            && (r.Ok? <==> signer == w.grid.admin == w.tokens.authority && !w.grid.authorityLocked)
            && (r.Ok? ==> r.value.authority == next && r.value.supply == w.tokens.supply
                          && r.value.Balance(a) == w.tokens.Balance(a))
  {}

  /** The lock can be set by the admin, once; afterwards every instruction of the program is refused. */
  lemma LockExactly(w: World, signer: Key, t: Tokens, s: Key, to: Account, amount: u64, next: Key)
    ensures var r := GridToken.LockAuthorities(w.grid, signer);
            && (r.Ok? <==> signer == w.grid.admin && !w.grid.authorityLocked)
            && (r.Ok? ==>
                  && r.value.authorityLocked && r.value.admin == w.grid.admin
                  && r.value.mintedSoFar == w.grid.mintedSoFar
                  && GridToken.MintToRecipient(r.value, t, s, to, amount).Err?
                  && GridToken.TransferMintAuthority(r.value, t, s, next).Err?
                  && GridToken.LockAuthorities(r.value, s).Err?)
  {}

  // ---- Errors --------------------------------------------------------------------------------

  /** What an error of a claim reports. */
  lemma ClaimErrors(w: World, signer: Key, now: i64, id: u64, start: i64, end: i64, n: u64)
    requires Books(w)
    ensures var e, r := w.emission, Emission.Claim(w.emission, w.tokens, signer, now, id, start, end, n);
            var budget := Budget(start, end, e.tge);
            r.Err? ==>
              if signer != e.billingSigner then r.error == Emission.Unauthorized
              else if now < end then r.error == Emission.EpochInFuture
              else if end <= start then r.error == Emission.InvalidEpochRange
              else if |e.claims| >= U64_MAX then r.error == Emission.Overflow
              else if id != |e.claims| + 1 then r.error == Emission.EpochOutOfOrder
              else if budget.None? then r.error == Emission.Overflow
              else if n > budget.value then r.error == Emission.BudgetExceeded
              else if w.tokens.authority != EmissionAuthority || w.tokens.supply + n > U64_MAX
              then r.error == Emission.TokenError
              else r.error == Emission.Overflow && e.mintedTotal + n > U64_MAX
  {}

  /** What an error of a distribution reports: never that the vault is short. */
  lemma DistributeErrors(w: World, signer: Key, id: u64, n: u64, to: Account)
    requires Books(w)
    ensures var e, r := w.emission, Emission.Distribute(w.emission, w.tokens, signer, id, to, n);
            r.Err? ==>
              if signer != e.billingSigner then r.error == Emission.Unauthorized
              else if !(1 <= id <= |e.claims|) then r.error == Emission.AccountMissing
              else if e.claims[id - 1].finalized then r.error == Emission.EpochFinalized
              else if e.claims[id - 1].distributed + n > U64_MAX then r.error == Emission.Overflow
              else r.error == Emission.OverDistribution
  {
    DistributeExactly(w, signer, id, to, n);
  }

  /** What an error of closing an epoch reports. */
  lemma FinalizeErrors(w: World, signer: Key, id: u64)
    requires Books(w)
    ensures var e, r := w.emission, Emission.Finalize(w.emission, signer, id);
            r.Err? ==>
              if signer != e.billingSigner then r.error == Emission.Unauthorized
              else if !(1 <= id <= |e.claims|) then r.error == Emission.AccountMissing
              else r.error == Emission.EpochFinalized
  {
    FinalizeExactly(w, signer, id);
  }

  /** What an error of the grid-token program reports. */
  lemma GridErrors(w: World, signer: Key, to: Account, n: u64, next: Key)
    requires Books(w)
    ensures match GridToken.MintToRecipient(w.grid, w.tokens, signer, to, n)
            case Ok(_) => signer == w.grid.admin
            case Err(Unauthorized) => signer != w.grid.admin
            case Err(AuthorityLocked) => signer == w.grid.admin && w.grid.authorityLocked
            case Err(Overflow) => !w.grid.authorityLocked && w.grid.mintedSoFar + n > U64_MAX
            case Err(HardCapExceeded) =>
              !w.grid.authorityLocked && GridToken.GRID_HARD_CAP < w.grid.mintedSoFar + n <= U64_MAX
            case Err(TokenError) =>
              && w.grid.mintedSoFar + n <= GridToken.GRID_HARD_CAP
              && (w.tokens.authority != w.grid.admin || w.tokens.supply + n > U64_MAX)
    ensures match GridToken.TransferMintAuthority(w.grid, w.tokens, signer, next)
            case Ok(_) => signer == w.grid.admin
            case Err(Unauthorized) => signer != w.grid.admin
            case Err(AuthorityLocked) => signer == w.grid.admin && w.grid.authorityLocked
            case Err(other) => other == GridToken.TokenError && w.tokens.authority != w.grid.admin
    ensures match GridToken.LockAuthorities(w.grid, signer)
            case Ok(_) => signer == w.grid.admin
            case Err(Unauthorized) => signer != w.grid.admin
            case Err(other) => other == GridToken.AuthorityLocked && w.grid.authorityLocked
  {}
}
